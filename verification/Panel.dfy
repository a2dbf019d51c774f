/** The panel state the Caddy config generator reads: hosts, rules, target
    groups, security settings and the global CrowdSec options. */
module Panel {
  import opened Basics

  /** One rule matcher. `Malformed` stands for an unknown matcher type or a
      config that does not decode. */
  datatype Matcher =
    | Path(patterns: seq<string>)
    | PathExact(values: seq<string>)
    | Method(methods: seq<string>)
    | Header(name: string, value: string, regex: bool)
    | Query(key: string, wanted: string)
    | RemoteIP(ranges: seq<string>, negate: bool)
    | HostHeader(hosts: seq<string>)
    | Malformed

  /** One rule action. `Undecodable` stands for an unknown action type or a
      config that does not decode. */
  datatype Action =
    | Forward(groupId: int)
    | Redirect(status: int, location: string)
    | FixedResponse(status: int, body: string, contentType: string)
    | Block
    | RewriteTo(path: string, stripPrefix: string, query: string)
    | Undecodable

  datatype Rule = Rule(matchers: seq<Matcher>, action: Action)

  datatype Target = Target(host: string, port: int, enabled: bool)

  datatype TargetGroup = TargetGroup(
    targets: seq<Target>, algorithm: string, https: bool, verifyTLS: bool, preserveHost: bool)

  datatype TLSMode = Auto | Manual | NoTLS

  datatype Host = Host(
    id: int, domain: string, enabled: bool, groupId: int, lanOnly: bool, authRequired: bool, tlsMode: TLSMode)

  datatype RateLimitKey = PerIP | PerHeader | Global | UnknownKey

  datatype Security = Security(
    wafEnabled: bool, directives: string, limitEnabled: bool, requests: int, windowSeconds: int,
    key: RateLimitKey, headerName: string)

  const NO_SECURITY := Security(false, "", false, 0, 0, UnknownKey, "")

  datatype CrowdSecOpts = CrowdSecOpts(enabled: bool, appSecURL: string)

  /** `rules` holds the enabled rules of each host, lowest priority number first. */
  datatype Panel = Panel(
    hosts: seq<Host>, rules: map<int, seq<Rule>>, groups: map<int, TargetGroup>,
    security: map<int, Security>, crowdsec: CrowdSecOpts)
  {
    function RulesOf(h: Host): seq<Rule> {
      if h.id in rules then rules[h.id] else []
    }

    function SecurityOf(h: Host): Security {
      if h.id in security then security[h.id] else NO_SECURITY
    }

    /** A host the generator emits a route for. */
    predicate Serves(h: Host) {
      h.enabled && h.groupId in groups
    }
  }
}
