/** What the alert code counts, read off the alert itself: which alerts are
    AppSec's, which of them are bans, blocked ones, or part of a burst, and what
    every figure and map entry of a summary stands for. */
module AlertReads {
  import opened Basics
  import opened Alerts
  import opened Tallies
  import opened Rollup
  import opened Bursts
  import opened Aggregates

  // ----- one alert -----

  predicate Starts(s: string, p: string) {
    |p| <= |s| && s[..|p|] == p
  }

  predicate AppSecScenario(s: string) {
    || Starts(s, "crowdsecurity/vpatch-")
    || Starts(s, "crowdsecurity/generic-")
    || Starts(s, "crowdsecurity/appsec-")
    || Starts(s, "crowdsecurity/crowdsec-appsec-")
    || s == "crowdsecurity/crs"
  }

  /** An AppSec alert is a request the firewall saw or carries one of its scenarios; the latter are bans. */
  lemma KindsNamed(a: Alert)
    ensures IsAppSecAlert(a) <==> a.kind == "waf" || AppSecScenario(a.scenario)
    ensures IsBan(a) <==> a.kind != "waf" && AppSecScenario(a.scenario)
    ensures IsHit(a) <==> a.kind == "waf"
  {
  }

  /** The address an alert counts for: the source's value, else its IP. */
  predicate From(a: Alert, ip: string) {
    ip != "" && ip == if a.sourceValue != "" then a.sourceValue else a.sourceIP
  }

  /** The time of an alert: its start, else its creation. */
  function TimeOf(a: Alert): Option<nat> {
    match a.startAt
    case Some(t) => Some(t)
    case None => a.createdAt
  }

  lemma SourceNamed(a: Alert, ip: string)
    ensures a.IP() == Some(ip) <==> From(a, ip)
    ensures a.StartedAt() == TimeOf(a)
  {
  }

  /** Something was done about the request, or the mode in force when the alert
      was made is block: the previous mode before the swap, if both are known. */
  predicate Blocks(a: Alert, m: Modes) {
    || a.remediation
    || a.decisions > 0
    || (if m.boundary.Some? && m.prevMode != "" && a.createdAt.Some? && a.createdAt.value < m.boundary.value
        then m.prevMode == "block" else m.mode == "block")
  }

  lemma OutcomeNamed(a: Alert, m: Modes)
    ensures ClassifyOutcome(a, m) <==> Blocks(a, m)
  {
  }

  /** Every scenario has one category. */
  lemma CategoriesNamed(s: string)
    ensures Categorize(s) == "cve" <==> Starts(s, "crowdsecurity/vpatch-CVE-")
    ensures Categorize(s) == "virtual-patching"
            <==> Starts(s, "crowdsecurity/vpatch-") && !Starts(s, "crowdsecurity/vpatch-CVE-")
    ensures Categorize(s) == "generic" <==> Starts(s, "crowdsecurity/generic-")
    ensures Categorize(s) == "crs" <==> s == "crowdsecurity/crs"
    ensures Categorize(s) == "appsec-misc"
            <==> Starts(s, "crowdsecurity/appsec-") || Starts(s, "crowdsecurity/crowdsec-appsec-")
    ensures Categorize(s) == "other" <==> !AppSecScenario(s)
  {
    CveIsPatch(s);
    ApartAt(s, "crowdsecurity/vpatch-", "crowdsecurity/generic-", 14);
    ApartAt(s, "crowdsecurity/vpatch-", "crowdsecurity/appsec-", 14);
    ApartAt(s, "crowdsecurity/vpatch-", "crowdsecurity/crowdsec-appsec-", 14);
    ApartAt(s, "crowdsecurity/vpatch-", "crowdsecurity/crs", 14);
    ApartAt(s, "crowdsecurity/generic-", "crowdsecurity/appsec-", 14);
    ApartAt(s, "crowdsecurity/generic-", "crowdsecurity/crowdsec-appsec-", 14);
    ApartAt(s, "crowdsecurity/generic-", "crowdsecurity/crs", 14);
    ApartAt(s, "crowdsecurity/crs", "crowdsecurity/appsec-", 14);
    ApartAt(s, "crowdsecurity/crs", "crowdsecurity/crowdsec-appsec-", 16);
    SelfStarts(s);
    hide Starts;
  }

  lemma CveIsPatch(s: string)
    ensures Starts(s, "crowdsecurity/vpatch-CVE-") ==> Starts(s, "crowdsecurity/vpatch-")
  {
    var p, q := "crowdsecurity/vpatch-CVE-", "crowdsecurity/vpatch-";
    assert p[..|q|] == q;
    if Starts(s, p) {
      assert s[..|q|] == s[..|p|][..|q|];
    }
  }

  lemma SelfStarts(s: string)
    ensures s == "crowdsecurity/crs" ==> Starts(s, "crowdsecurity/crs")
    ensures forall p :: HasPrefix(s, p) <==> Starts(s, p)
  {
    assert s[..|s|] == s;
  }

  lemma ApartAt(s: string, p: string, q: string, i: nat)
    requires i < |p| && i < |q| && p[i] != q[i]
    ensures !(Starts(s, p) && Starts(s, q))
  {
    if Starts(s, p) {
      assert s[i] == s[..|p|][i];
      assert |q| <= |s| ==> s[..|q|][i] == s[i];
    }
  }

  // ----- bursts -----

  function InMinute(end: int): int -> bool {
    t => end - 60_000_000_000 <= t <= end
  }

  /** A burst is a moment with an alert and at least ten alerts in the sixty
      seconds up to it; the report says ten. */
  lemma BurstNamed(times: seq<int>, end: int)
    ensures IsBurstEnd(times, end) <==> end in times && Count(times, InMinute(end)) >= 10
  {
    CountAgrees(times, Inside(end), InMinute(end));
  }

  lemma ReportSaysTen(alerts: seq<Alert>, since: int, last: map<string, int>, ip: string, b: Burst)
    requires Reports(alerts, since, last, ip, b)
    ensures b.count == 10
  {
  }

  /** A firewall alert of the address whose time is kept and satisfies `p`. */
  function SeenFrom(ip: string, keep: int -> bool, p: int -> bool): Alert -> bool {
    (a: Alert) => a.kind == "waf" && From(a, ip) && TimeOf(a).Some? && keep(TimeOf(a).value) && p(TimeOf(a).value)
  }

  /** The detector looks at exactly the timed firewall alerts of an address. */
  lemma {:induction false} TimesNamed(alerts: seq<Alert>, keep: int -> bool, ip: string, p: int -> bool)
    ensures Count(Times(alerts, keep, ip), p) == Count(alerts, SeenFrom(ip, keep, p))
  {
    if alerts != [] {
      var front, a := alerts[..|alerts| - 1], alerts[|alerts| - 1];
      TimesNamed(front, keep, ip, p);
      SourceNamed(a, ip);
      assert alerts == front + [a];
      TimesOneMore(front, a, keep, ip);
      hide Times, From, TimeOf;
      if a.StartedAt().Some? {
        CountOneMore(Times(front, keep, ip), a.StartedAt().value, p);
      }
    }
  }

  function FromMinuteBefore(since: int): int -> bool {
    t => since - 60_000_000_000 <= t
  }

  /** A scan looks back one minute behind the scan before it. */
  lemma SliceNamed(alerts: seq<Alert>, since: int, ip: string, p: int -> bool)
    ensures Count(Slice(alerts, since, ip), p) == Count(alerts, SeenFrom(ip, FromMinuteBefore(since), p))
  {
    TimesNamed(alerts, Since(since - WINDOW), ip, p);
    CountAgrees(alerts, SeenFrom(ip, Since(since - WINDOW), p), SeenFrom(ip, FromMinuteBefore(since), p));
  }

  // ----- figures and maps of a summary -----

  /** An AppSec alert that is untimed or lies in the window. */
  predicate Counts(a: Alert, from: nat, to: nat) {
    (a.kind == "waf" || AppSecScenario(a.scenario)) && (TimeOf(a).Some? ==> from <= TimeOf(a).value <= to)
  }

  lemma WindowNamed(a: Alert, from: nat, to: nat)
    ensures InWindow(from, to)(a) <==> Counts(a, from, to)
  {
    KindsNamed(a);
  }

  lemma SummaryFigures(alerts: seq<Alert>, from: nat, to: nat, g: int, m: Modes)
    ensures var s := Summarized(alerts, InWindow(from, to), g, m);
            && s.hits == Count(alerts, (a: Alert) => Counts(a, from, to) && a.kind == "waf")
            && s.bans == Count(alerts, (a: Alert) => Counts(a, from, to) && a.kind != "waf")
            && s.blocked == Count(alerts, (a: Alert) => Counts(a, from, to) && Blocks(a, m))
            && s.logged == Count(alerts, (a: Alert) => Counts(a, from, to) && !Blocks(a, m))
  {
    var when := InWindow(from, to);
    forall a: Alert
      ensures when(a) <==> Counts(a, from, to)
      ensures ClassifyOutcome(a, m) <==> Blocks(a, m)
      ensures Counts(a, from, to) ==> (IsBan(a) <==> a.kind != "waf")
    {
      WindowNamed(a, from, to);
      OutcomeNamed(a, m);
      KindsNamed(a);
    }
    hide Count, Tally, Counts, Blocks, IsBan, ClassifyOutcome, InWindow;
    CountAgrees(alerts, Hits(when), (a: Alert) => Counts(a, from, to) && a.kind == "waf");
    CountAgrees(alerts, Bans(when), (a: Alert) => Counts(a, from, to) && a.kind != "waf");
    CountAgrees(alerts, Blocked(when, m), (a: Alert) => Counts(a, from, to) && Blocks(a, m));
    CountAgrees(alerts, Logged(when, m), (a: Alert) => Counts(a, from, to) && !Blocks(a, m));
  }

  /** The host of an alert: its target name in lower case. */
  predicate AimsAt(a: Alert, host: string) {
    Lower(a.targetFQDN) == host
  }

  lemma SummaryMaps(
      alerts: seq<Alert>, from: nat, to: nat, g: int, m: Modes, ip: string, rule: string, host: string, uri: string)
    ensures var s := Summarized(alerts, InWindow(from, to), g, m);
            && At(s.byIP, ip) == Count(alerts, (a: Alert) => Counts(a, from, to) && From(a, ip))
            && At(s.byRule, rule) == Count(alerts, (a: Alert) => Counts(a, from, to) && a.scenario == rule)
            && At(s.hitsByHost, host)
               == Count(alerts, (a: Alert) => Counts(a, from, to) && a.kind == "waf" && host != "" && AimsAt(a, host))
            && At(s.byPath, (host, uri))
               == Count(alerts, (a: Alert) => Counts(a, from, to) && uri != "" && AimsAt(a, host) && a.uri == uri)
  {
    var when := InWindow(from, to);
    forall a: Alert
      ensures when(a) <==> Counts(a, from, to)
      ensures a.IP() == Some(ip) <==> From(a, ip)
      ensures Counts(a, from, to) ==> (IsBan(a) <==> a.kind != "waf")
    {
      WindowNamed(a, from, to);
      SourceNamed(a, ip);
      KindsNamed(a);
    }
    TallyAt(alerts, ByIP(when), ip);
    TallyAt(alerts, ByRule(when), rule);
    TallyAt(alerts, ByHitHost(when), host);
    TallyAt(alerts, ByPath(when), (host, uri));
    hide Count, Tally, Counts, From, IsBan, InWindow, Lower;
    CountAgrees(alerts, KeyIs(ByIP(when), ip), (a: Alert) => Counts(a, from, to) && From(a, ip));
    CountAgrees(alerts, KeyIs(ByRule(when), rule), (a: Alert) => Counts(a, from, to) && a.scenario == rule);
    CountAgrees(alerts, KeyIs(ByHitHost(when), host),
                (a: Alert) => Counts(a, from, to) && a.kind == "waf" && host != "" && AimsAt(a, host));
    CountAgrees(alerts, KeyIs(ByPath(when), (host, uri)),
                (a: Alert) => Counts(a, from, to) && uri != "" && AimsAt(a, host) && a.uri == uri);
  }

  /** The bucket that starts `second` seconds in counts the timed alerts of its stretch of `g`. */
  lemma SummaryBuckets(alerts: seq<Alert>, from: nat, to: nat, g: int, m: Modes, start: nat)
    requires 0 < g && g % 1_000_000_000 == 0 && start % g == 0
    ensures var s := Summarized(alerts, InWindow(from, to), g, m);
            && At(s.blockedAt, start / 1_000_000_000)
               == Count(alerts, (a: Alert) =>
                    Counts(a, from, to) && Blocks(a, m) && TimeOf(a).Some? && start <= TimeOf(a).value < start + g)
            && At(s.detectedAt, start / 1_000_000_000)
               == Count(alerts, (a: Alert) =>
                    Counts(a, from, to) && !Blocks(a, m) && TimeOf(a).Some? && start <= TimeOf(a).value < start + g)
  {
    var when, k := InWindow(from, to), start / 1_000_000_000;
    forall a: Alert
      ensures when(a) <==> Counts(a, from, to)
      ensures ClassifyOutcome(a, m) <==> Blocks(a, m)
      ensures BucketOf(a, g) == Some(k) <==> TimeOf(a).Some? && start <= TimeOf(a).value < start + g
    {
      WindowNamed(a, from, to);
      OutcomeNamed(a, m);
      if TimeOf(a).Some? {
        BucketNamed(TimeOf(a).value, g, start);
      }
    }
    TallyAt(alerts, ByBucket(Blocked(when, m), g), k);
    TallyAt(alerts, ByBucket(Logged(when, m), g), k);
    hide Count, Tally, Counts, Blocks, ClassifyOutcome, InWindow, BucketOf, TimeOf;
    CountAgrees(alerts, KeyIs(ByBucket(Blocked(when, m), g), k),
                (a: Alert) =>
                  Counts(a, from, to) && Blocks(a, m) && TimeOf(a).Some? && start <= TimeOf(a).value < start + g);
    CountAgrees(alerts, KeyIs(ByBucket(Logged(when, m), g), k),
                (a: Alert) =>
                  Counts(a, from, to) && !Blocks(a, m) && TimeOf(a).Some? && start <= TimeOf(a).value < start + g);
  }

  lemma BucketNamed(t: nat, g: nat, start: nat)
    requires 0 < g && g % 1_000_000_000 == 0 && start % g == 0
    ensures Trunc(t, g) / 1_000_000_000 == start / 1_000_000_000 <==> start <= t < start + g
  {
    DivisionBounds(t, g);
    var q, p, n := t / g, start / g, g / 1_000_000_000;
    assert start == p * g && g == n * 1_000_000_000;
    WholeSeconds(q, n);
    WholeSeconds(p, n);
    if start <= t < start + g {
      TruncIsUnique(t, g, p);
    } else if q < p {
      MultiplesInOrder(q + 1, p, n);
    } else if p < q {
      MultiplesInOrder(p + 1, q, n);
    }
  }

  lemma WholeSeconds(q: nat, n: nat)
    requires 0 < n
    ensures q * (n * 1_000_000_000) / 1_000_000_000 == q * n && (q + 1) * n == q * n + n
  {
    assert q * (n * 1_000_000_000) == (q * n) * 1_000_000_000;
  }

  // ----- the bars of the page -----

  /** The chart has bars of five minutes for an hour, of fifteen for six hours, of
      half an hour for twelve, and of an hour beyond. */
  lemma BarWidths(window: nat)
    ensures BucketFor(window) == (if window <= 3600_000_000_000 then 300_000_000_000
                                  else if window <= 21600_000_000_000 then 900_000_000_000
                                  else if window <= 43200_000_000_000 then 1800_000_000_000
                                  else 3600_000_000_000)
  {
  }

  /** A bar counts the AppSec alerts of its stretch of time. */
  lemma BarNamed(alerts: seq<Alert>, t: nat, g: nat, m: Modes)
    requires 0 < g && t % g == 0
    ensures var b := Bar(alerts, t, g, m);
            && b.time == t
            && b.hits
                == Count(alerts, (a: Alert) => IsAppSecAlert(a) && TimeOf(a).Some? && t <= TimeOf(a).value < t + g)
            && b.blocked
               == Count(alerts, (a: Alert) => IsAppSecAlert(a) && Blocks(a, m) && TimeOf(a).Some?
                   && t <= TimeOf(a).value < t + g)
  {
    forall a: Alert
      ensures ClassifyOutcome(a, m) <==> Blocks(a, m)
      ensures TimeOf(a).Some? ==> (Trunc(TimeOf(a).value, g) == t <==> t <= TimeOf(a).value < t + g)
    {
      OutcomeNamed(a, m);
      if TimeOf(a).Some? {
        DivisionBounds(TimeOf(a).value, g);
        if t <= TimeOf(a).value < t + g {
          TruncIsUnique(TimeOf(a).value, g, t / g);
        }
      }
    }
    hide Count, Blocks, ClassifyOutcome, IsAppSecAlert, Trunc;
    CountAgrees(alerts, InBar(APPSEC, t, g),
                (a: Alert) => IsAppSecAlert(a) && TimeOf(a).Some? && t <= TimeOf(a).value < t + g);
    CountAgrees(alerts, InBar(Aggregates.Blocked(APPSEC, m), t, g),
                (a: Alert) => IsAppSecAlert(a) && Blocks(a, m) && TimeOf(a).Some? && t <= TimeOf(a).value < t + g);
  }
}
