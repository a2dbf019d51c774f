/** The part of a CrowdSec alert the AppSec code reads. Times are nanoseconds
    since the zero time; one that is absent or does not parse is None. */
module Alerts {
  import opened Basics

  datatype Alert = Alert(
    kind: string, scenario: string, startAt: Option<nat>, createdAt: Option<nat>, remediation: bool, decisions: nat,
    sourceValue: string, sourceIP: string, targetFQDN: string, uri: string)
  {
    function StartedAt(): Option<nat> {
      if startAt.Some? then startAt else createdAt
    }

    predicate WasBlocked() {
      remediation || decisions > 0
    }

    /** The source address the alert is counted under. */
    function IP(): Option<string> {
      var ip := if sourceValue == "" then sourceIP else sourceValue;
      if ip == "" then None else Some(ip)
    }

    function HostName(): string {
      Lower(targetFQDN)
    }
  }

  predicate LooksLikeAppSec(scenario: string) {
    || HasPrefix(scenario, "crowdsecurity/vpatch-")
    || HasPrefix(scenario, "crowdsecurity/generic-")
    || HasPrefix(scenario, "crowdsecurity/appsec-")
    || HasPrefix(scenario, "crowdsecurity/crowdsec-appsec-")
    || scenario == "crowdsecurity/crs"
  }

  predicate IsHit(a: Alert) {
    a.kind == "waf"
  }

  predicate IsAppSecAlert(a: Alert) {
    IsHit(a) || LooksLikeAppSec(a.scenario)
  }

  predicate IsBan(a: Alert) {
    !IsHit(a) && LooksLikeAppSec(a.scenario)
  }
}
