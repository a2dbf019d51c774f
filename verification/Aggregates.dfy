/** The two aggregators over AppSec alerts: Summarize, for the dashboard and the
    overview, and compute, for the AppSec page. */
module Aggregates {
  import opened Basics
  import opened Alerts
  import opened Tallies
  import opened Rollup
  import Stitch

  const SECOND := 1_000_000_000
  const MINUTE := 60 * SECOND

  /** The mode in force now, the one before, and when they were swapped. */
  datatype Modes = Modes(mode: string, prevMode: string, boundary: Option<nat>)

  predicate ClassifyOutcome(a: Alert, m: Modes) {
    if a.WasBlocked() then true
    else
      var before := m.boundary.Some? && m.prevMode != "" && a.createdAt.Some? && a.createdAt.value < m.boundary.value;
      (if before then m.prevMode else m.mode) == "block"
  }

  // ----- what is counted, and under which key -----

  const APPSEC: Alert -> bool := a => IsAppSecAlert(a)

  function InWindow(from: nat, to: nat): Alert -> bool {
    a => IsAppSecAlert(a) && (a.StartedAt().Some? ==> from <= a.StartedAt().value <= to)
  }

  function Bans(when: Alert -> bool): Alert -> bool {
    a => when(a) && IsBan(a)
  }

  function Hits(when: Alert -> bool): Alert -> bool {
    a => when(a) && !IsBan(a)
  }

  function Blocked(when: Alert -> bool, m: Modes): Alert -> bool {
    a => when(a) && ClassifyOutcome(a, m)
  }

  function Logged(when: Alert -> bool, m: Modes): Alert -> bool {
    a => when(a) && !ClassifyOutcome(a, m)
  }

  function ByRule(when: Alert -> bool): Alert -> Option<string> {
    a => if when(a) then Some(a.scenario) else None
  }

  function ByIP(when: Alert -> bool): Alert -> Option<string> {
    a => if when(a) then a.IP() else None
  }

  function ByHitHost(when: Alert -> bool): Alert -> Option<string> {
    a => if when(a) && !IsBan(a) && a.HostName() != "" then Some(a.HostName()) else None
  }

  function ByPath(when: Alert -> bool): Alert -> Option<(string, string)> {
    a => if when(a) && a.uri != "" then Some((a.HostName(), a.uri)) else None
  }

  function ByURI(when: Alert -> bool): Alert -> Option<string> {
    a => if when(a) && a.uri != "" then Some(a.uri) else None
  }

  function ByCategory(when: Alert -> bool): Alert -> Option<string> {
    a => if when(a) then Some(Categorize(a.scenario)) else None
  }

  function Categorize(scenario: string): string {
    if HasPrefix(scenario, "crowdsecurity/vpatch-CVE-") then "cve"
    else if HasPrefix(scenario, "crowdsecurity/vpatch-") then "virtual-patching"
    else if HasPrefix(scenario, "crowdsecurity/generic-") then "generic"
    else if scenario == "crowdsecurity/crs" then "crs"
    else if HasPrefix(scenario, "crowdsecurity/appsec-") || HasPrefix(scenario, "crowdsecurity/crowdsec-appsec-")
        then "appsec-misc"
    else "other"
  }

  /** The bucket of a timed alert, as the second it starts at. */
  function BucketOf(a: Alert, g: int): Option<int> {
    if a.StartedAt().Some? && g > 0 then Some(Trunc(a.StartedAt().value, g) / SECOND) else None
  }

  function ByBucket(when: Alert -> bool, g: int): Alert -> Option<int> {
    a => if when(a) then BucketOf(a, g) else None
  }

  function Timed(when: Alert -> bool): Alert -> bool {
    a => when(a) && a.StartedAt().Some?
  }

  // ----- Summarize -----

  datatype Summary = Summary(
    hits: nat, bans: nat, blocked: nat, logged: nat, hitsByHost: map<string, nat>, byIP: map<string, nat>,
    byRule: map<string, nat>, byPath: map<(string, string), nat>, detectedAt: map<int, nat>, blockedAt: map<int, nat>)

  function Summarized(alerts: seq<Alert>, when: Alert -> bool, g: int, m: Modes): Summary {
    Summary(
      Count(alerts, Hits(when)), Count(alerts, Bans(when)), Count(alerts, Blocked(when, m)),
          Count(alerts, Logged(when, m)),
      Tally(alerts, ByHitHost(when)), Tally(alerts, ByIP(when)), Tally(alerts, ByRule(when)),
          Tally(alerts, ByPath(when)),
      Tally(alerts, ByBucket(Logged(when, m), g)), Tally(alerts, ByBucket(Blocked(when, m), g)))
  }

  function OneIf(b: bool): nat {
    if b then 1 else 0
  }

  function IfSo<K>(b: bool, k: K): Option<K> {
    if b then Some(k) else None
  }

  /** One more counted alert, field by field. */
  function Plus(s: Summary, a: Alert, g: int, m: Modes): Summary {
    var ban, blocked, host := IsBan(a), ClassifyOutcome(a, m), a.HostName();
    var bucket := BucketOf(a, g);
    Summary(
      s.hits + OneIf(!ban), s.bans + OneIf(ban), s.blocked + OneIf(blocked), s.logged + OneIf(!blocked),
      Bump(s.hitsByHost, IfSo(!ban && host != "", host)), Bump(s.byIP, a.IP()),
      Bump(s.byRule, Some(a.scenario)), Bump(s.byPath, IfSo(a.uri != "", (host, a.uri))),
      Bump(s.detectedAt, if blocked then None else bucket), Bump(s.blockedAt, if blocked then bucket else None))
  }

  lemma SummarizedOneMore(alerts: seq<Alert>, i: nat, when: Alert -> bool, g: int, m: Modes)
    requires i < |alerts|
    ensures var before := Summarized(alerts[..i], when, g, m);
            Summarized(alerts[..i + 1], when, g, m) == if when(alerts[i]) then Plus(before, alerts[i], g, m) else before
  {
    assert alerts[..i + 1][..i] == alerts[..i];
    hide ClassifyOutcome, IsBan;
  }

  // The body of Summarize's loop for an alert in the window, in its three parts.

  method AddOutcome(s: Summary, a: Alert, m: Modes) returns (r: Summary)
    ensures var ban, blocked := IsBan(a), ClassifyOutcome(a, m);
            r == s.(hits := s.hits + OneIf(!ban), bans := s.bans + OneIf(ban),
                    blocked := s.blocked + OneIf(blocked), logged := s.logged + OneIf(!blocked),
                    hitsByHost := Bump(s.hitsByHost, IfSo(!ban && a.HostName() != "", a.HostName())))
  {
    hide ClassifyOutcome, IsBan, Bump;
    BumpNone(s.hitsByHost);
    r := s;
    if ClassifyOutcome(a, m) {
      r := r.(blocked := r.blocked + 1);
    } else {
      r := r.(logged := r.logged + 1);
    }
    if IsBan(a) {
      r := r.(bans := r.bans + 1);
    } else {
      r := r.(hits := r.hits + 1);
      if a.HostName() != "" {
        r := r.(hitsByHost := Bump(r.hitsByHost, Some(a.HostName())));
      }
    }
  }

  lemma BumpNone<K>(m: map<K, nat>)
    ensures Bump(m, None) == m
  {
  }

  method AddSource(s: Summary, a: Alert) returns (r: Summary)
    ensures r == s.(byIP := Bump(s.byIP, a.IP()), byRule := Bump(s.byRule, Some(a.scenario)),
                    byPath := Bump(s.byPath, IfSo(a.uri != "", (a.HostName(), a.uri))))
  {
    hide Bump;
    BumpNone(s.byIP);
    BumpNone(s.byPath);
    r := s;
    if a.IP().Some? {
      r := r.(byIP := Bump(r.byIP, a.IP()));
    }
    r := r.(byRule := Bump(r.byRule, Some(a.scenario)));
    if a.uri != "" {
      r := r.(byPath := Bump(r.byPath, Some((a.HostName(), a.uri))));
    }
  }

  method AddToBucket(s: Summary, a: Alert, g: int, m: Modes) returns (r: Summary)
    ensures var bucket := BucketOf(a, g);
            r == s.(detectedAt := Bump(s.detectedAt, if ClassifyOutcome(a, m) then None else bucket),
                    blockedAt := Bump(s.blockedAt, if ClassifyOutcome(a, m) then bucket else None))
  {
    hide ClassifyOutcome, Bump;
    BumpNone(s.detectedAt);
    BumpNone(s.blockedAt);
    r := s;
    if a.StartedAt().Some? && g > 0 {
      var k := Trunc(a.StartedAt().value, g) / SECOND;
      if ClassifyOutcome(a, m) {
        r := r.(blockedAt := Bump(r.blockedAt, Some(k)));
      } else {
        r := r.(detectedAt := Bump(r.detectedAt, Some(k)));
      }
    }
  }

  method Summarize(alerts: seq<Alert>, from: nat, to: nat, g: int, m: Modes) returns (s: Summary)
    ensures s == Summarized(alerts, InWindow(from, to), g, m)
  {
    s := Summary(0, 0, 0, 0, map[], map[], map[], map[], map[], map[]);
    for i := 0 to |alerts|
      invariant s == Summarized(alerts[..i], InWindow(from, to), g, m)
    {
      var a := alerts[i];
      SummarizedOneMore(alerts, i, InWindow(from, to), g, m);
      hide Summarized, IsAppSecAlert, IsBan, ClassifyOutcome, Bump, BucketOf, OneIf;
      if !IsAppSecAlert(a) || (a.StartedAt().Some? && (a.StartedAt().value < from || a.StartedAt().value > to)) {
        continue;
      }
      s := AddOutcome(s, a, m);
      s := AddSource(s, a);
      s := AddToBucket(s, a, g, m);
    }
    assert alerts[..|alerts|] == alerts;
  }

  // ----- compute -----

  datatype TimeBucket = TimeBucket(time: nat, hits: nat, blocked: nat)

  datatype Totals = Totals(
    totalHits: nat, hits: nat, bans: nat, blocked: nat, logged: nat, byCategory: map<string, nat>,
    byIP: map<string, nat>, byURI: map<string, nat>, byRule: map<string, nat>)

  datatype Metrics = Metrics(totals: Totals, overTime: seq<TimeBucket>)

  function BucketFor(window: nat): nat {
    if window <= 60 * MINUTE then 5 * MINUTE
    else if window <= 360 * MINUTE then 15 * MINUTE
    else if window <= 720 * MINUTE then 30 * MINUTE
    else 60 * MINUTE
  }

  /** The bars of the chart: from the bucket of the window's start to the current one. */
  function Grid(window: nat, now: nat): seq<nat>
    requires window <= Trunc(now, BucketFor(window))
  {
    var g := BucketFor(window);
    Stitch.TimesFrom(Trunc(Trunc(now, g) - window, g), Trunc(now, g), g)
  }

  function InBar(when: Alert -> bool, t: nat, g: nat): Alert -> bool
    requires 0 < g
  {
    a => when(a) && a.StartedAt().Some? && Trunc(a.StartedAt().value, g) == t
  }

  function Bar(alerts: seq<Alert>, t: nat, g: nat, m: Modes): TimeBucket
    requires 0 < g
  {
    TimeBucket(t, Count(alerts, InBar(APPSEC, t, g)), Count(alerts, InBar(Blocked(APPSEC, m), t, g)))
  }

  function Bars(alerts: seq<Alert>, grid: seq<nat>, g: nat, m: Modes): seq<TimeBucket>
    requires 0 < g
  {
    seq(|grid|, i requires 0 <= i < |grid| => Bar(alerts, grid[i], g, m))
  }

  function Totalled(alerts: seq<Alert>, m: Modes): Totals {
    Totals(
      Count(alerts, APPSEC), Count(alerts, Hits(APPSEC)), Count(alerts, Bans(APPSEC)),
      Count(alerts, Blocked(APPSEC, m)), Count(alerts, Logged(APPSEC, m)),
      Tally(alerts, ByCategory(APPSEC)), Tally(alerts, ByIP(APPSEC)), Tally(alerts, ByURI(APPSEC)),
          Tally(alerts, ByRule(APPSEC)))
  }

  function Measured(alerts: seq<Alert>, window: nat, now: nat, m: Modes): Metrics
    requires window <= Trunc(now, BucketFor(window))
  {
    Metrics(Totalled(alerts, m), Bars(alerts, Grid(window, now), BucketFor(window), m))
  }

  function PlusTotals(s: Totals, a: Alert, m: Modes): Totals {
    var ban, blocked := IsBan(a), ClassifyOutcome(a, m);
    Totals(
      s.totalHits + 1, s.hits + OneIf(!ban), s.bans + OneIf(ban),
      s.blocked + OneIf(blocked), s.logged + OneIf(!blocked),
      Bump(s.byCategory, Some(Categorize(a.scenario))), Bump(s.byIP, a.IP()),
      Bump(s.byURI, IfSo(a.uri != "", a.uri)), Bump(s.byRule, Some(a.scenario)))
  }

  lemma TotalledOneMore(alerts: seq<Alert>, i: nat, m: Modes)
    requires i < |alerts|
    ensures var before := Totalled(alerts[..i], m);
            Totalled(alerts[..i + 1], m) == if IsAppSecAlert(alerts[i]) then PlusTotals(before, alerts[i], m)
                else before
  {
    assert alerts[..i + 1][..i] == alerts[..i];
    hide ClassifyOutcome, IsBan, IsAppSecAlert, Categorize;
  }

  function Taller(b: TimeBucket, blocked: bool): TimeBucket {
    b.(hits := b.hits + 1, blocked := b.blocked + OneIf(blocked))
  }

  lemma BarOneMore(alerts: seq<Alert>, i: nat, t: nat, g: nat, m: Modes)
    requires i < |alerts| && 0 < g
    ensures var a, before := alerts[i], Bar(alerts[..i], t, g, m);
            Bar(alerts[..i + 1], t, g, m) == if InBar(APPSEC, t, g)(a) then Taller(before, ClassifyOutcome(a, m))
                else before
  {
    assert alerts[..i + 1][..i] == alerts[..i];
    hide ClassifyOutcome, IsAppSecAlert;
  }

  method AddTotals(s: Totals, a: Alert, m: Modes) returns (r: Totals)
    ensures r == PlusTotals(s, a, m)
  {
    hide ClassifyOutcome, IsBan, Bump, Categorize;
    BumpNone(s.byIP);
    BumpNone(s.byURI);
    r := s.(totalHits := s.totalHits + 1);
    if IsBan(a) {
      r := r.(bans := r.bans + 1);
    } else {
      r := r.(hits := r.hits + 1);
    }
    if ClassifyOutcome(a, m) {
      r := r.(blocked := r.blocked + 1);
    } else {
      r := r.(logged := r.logged + 1);
    }
    r := r.(byCategory := Bump(r.byCategory, Some(Categorize(a.scenario))), byRule := Bump(r.byRule, Some(a.scenario)));
    if a.IP().Some? {
      r := r.(byIP := Bump(r.byIP, a.IP()));
    }
    if a.uri != "" {
      r := r.(byURI := Bump(r.byURI, Some(a.uri)));
    }
  }

  predicate Increasing(grid: seq<nat>) {
    forall i, j :: 0 <= i < j < |grid| ==> grid[i] < grid[j]
  }

  lemma {:induction false} TimesIncrease(t: nat, to: nat, g: nat)
    requires 0 < g
    ensures Increasing(Stitch.TimesFrom(t, to, g)) && forall i :: 0 <= i < |Stitch.TimesFrom(t, to, g)| ==>
              t <= Stitch.TimesFrom(t, to, g)[i]
    decreases if t <= to then to - t + 1 else 0
  {
    if t <= to {
      TimesIncrease(t + g, to, g);
      assert Stitch.TimesFrom(t, to, g) == [t] + Stitch.TimesFrom(t + g, to, g);
    }
  }

  /** The map finds each bar by its start time. */
  ghost predicate Indexes(index: map<nat, nat>, grid: seq<nat>) {
    && (forall t :: t in index ==> index[t] < |grid| && grid[index[t]] == t)
    && (forall k :: 0 <= k < |grid| ==> grid[k] in index && index[grid[k]] == k)
  }

  method EmptyBars(grid: seq<nat>) returns (index: map<nat, nat>, buckets: seq<TimeBucket>)
    requires Increasing(grid)
    ensures |buckets| == |grid| && forall k :: 0 <= k < |grid| ==> buckets[k] == TimeBucket(grid[k], 0, 0)
    ensures Indexes(index, grid)
  {
    index, buckets := map[], [];
    for i := 0 to |grid|
      invariant |buckets| == i && forall k :: 0 <= k < i ==> buckets[k] == TimeBucket(grid[k], 0, 0)
      invariant Indexes(index, grid[..i])
    {
      index := index[grid[i] := |buckets|];
      buckets := buckets + [TimeBucket(grid[i], 0, 0)];
    }
    assert grid[..|grid|] == grid;
  }

  /** One more AppSec alert in the chart, if it has a time and a bar. */
  method AddToBar(buckets: seq<TimeBucket>, index: map<nat, nat>, ghost grid: seq<nat>, a: Alert, g: nat, m: Modes)
    returns (r: seq<TimeBucket>)
    requires 0 < g && |buckets| == |grid| && Indexes(index, grid) && IsAppSecAlert(a)
    ensures |r| == |buckets|
    ensures forall k :: 0 <= k < |r| ==>
              r[k] == if InBar(APPSEC, grid[k], g)(a) then Taller(buckets[k], ClassifyOutcome(a, m)) else buckets[k]
  {
    hide IsAppSecAlert, ClassifyOutcome, Trunc;
    r := buckets;
    if a.StartedAt().Some? {
      var t := Trunc(a.StartedAt().value, g);
      if t in index {
        var i := index[t];
        r := r[i := Taller(r[i], ClassifyOutcome(a, m))];
      }
    }
  }

  lemma NothingCounted(grid: seq<nat>, g: nat, m: Modes)
    requires 0 < g
    ensures Totalled([], m) == Totals(0, 0, 0, 0, 0, map[], map[], map[], map[])
    ensures forall k :: 0 <= k < |grid| ==> Bar([], grid[k], g, m) == TimeBucket(grid[k], 0, 0)
  {
  }

  method Compute(alerts: seq<Alert>, window: nat, now: nat, m: Modes) returns (r: Metrics)
    requires window <= Trunc(now, BucketFor(window))
    ensures r == Measured(alerts, window, now, m)
  {
    var g := BucketFor(window);
    var grid := Stitch.BucketTimes(Trunc(now, g) - window, Trunc(now, g), g);
    TimesIncrease(Trunc(Trunc(now, g) - window, g), Trunc(now, g), g);
    var index, buckets := EmptyBars(grid);
    var s := Totals(0, 0, 0, 0, 0, map[], map[], map[], map[]);
    NothingCounted(grid, g, m);
    assert alerts[..0] == [];
    hide Totalled, Bar, IsAppSecAlert, PlusTotals, ClassifyOutcome, Trunc, Taller, Indexes;
    for i := 0 to |alerts|
      invariant s == Totalled(alerts[..i], m)
      invariant |buckets| == |grid| && forall k :: 0 <= k < |grid| ==> buckets[k] == Bar(alerts[..i], grid[k], g, m)
    {
      var a := alerts[i];
      TotalledOneMore(alerts, i, m);
      forall k | 0 <= k < |grid| {
        BarOneMore(alerts, i, grid[k], g, m);
      }
      if !IsAppSecAlert(a) {
        continue;
      }
      s := AddTotals(s, a, m);
      buckets := AddToBar(buckets, index, grid, a, g, m);
    }
    assert alerts[..|alerts|] == alerts;
    assert buckets == Bars(alerts, grid, g, m);
    r := Metrics(s, buckets);
  }

  // ----- conservation -----

  function Any<K>(): K -> bool {
    k => true
  }

  /** Summarize loses and invents nothing: hits and bans, blocked and logged, and
      the per-rule counts all add up to the alerts it counted. */
  lemma SummaryConserves(alerts: seq<Alert>, when: Alert -> bool, g: int, m: Modes)
    ensures var s := Summarized(alerts, when, g, m);
            s.hits + s.bans == s.blocked + s.logged == SumWhere(s.byRule, Any()) == Count(alerts, when)
  {
    CountSplit(alerts, when, Hits(when), Bans(when));
    CountSplit(alerts, when, Blocked(when, m), Logged(when, m));
    TallySum(alerts, ByRule(when), Any());
    CountAgrees(alerts, KeyIn(ByRule(when), Any()), when);
    hide Count;
  }

  /** The buckets of a summary add up to the timed alerts it counted, blocked and logged apart. */
  lemma SummaryBucketsConserve(alerts: seq<Alert>, when: Alert -> bool, g: int, m: Modes)
    requires g > 0
    ensures var s := Summarized(alerts, when, g, m);
            && SumWhere(s.blockedAt, Any()) == Count(alerts, Timed(Blocked(when, m)))
            && SumWhere(s.detectedAt, Any()) == Count(alerts, Timed(Logged(when, m)))
  {
    BucketsSum(alerts, Blocked(when, m), g);
    BucketsSum(alerts, Logged(when, m), g);
  }

  lemma BucketsSum(alerts: seq<Alert>, when: Alert -> bool, g: int)
    requires g > 0
    ensures SumWhere(Tally(alerts, ByBucket(when, g)), Any()) == Count(alerts, Timed(when))
  {
    TallySum(alerts, ByBucket(when, g), Any());
    CountAgrees(alerts, KeyIn(ByBucket(when, g), Any()), Timed(when));
  }

  /** Nothing in a summary depends on the order of the alerts. */
  lemma SummaryIgnoresOrder(xs: seq<Alert>, ys: seq<Alert>, when: Alert -> bool, g: int, m: Modes)
    requires multiset(xs) == multiset(ys)
    ensures Summarized(xs, when, g, m) == Summarized(ys, when, g, m)
  {
    CountIgnoresOrder(xs, ys, Hits(when));
    CountIgnoresOrder(xs, ys, Bans(when));
    CountIgnoresOrder(xs, ys, Blocked(when, m));
    CountIgnoresOrder(xs, ys, Logged(when, m));
    TallyIgnoresOrder(xs, ys, ByHitHost(when));
    TallyIgnoresOrder(xs, ys, ByIP(when));
    TallyIgnoresOrder(xs, ys, ByRule(when));
    TallyIgnoresOrder(xs, ys, ByPath(when));
    TallyIgnoresOrder(xs, ys, ByBucket(Logged(when, m), g));
    TallyIgnoresOrder(xs, ys, ByBucket(Blocked(when, m), g));
    hide Count, Tally;
  }

  lemma TotalsIgnoreOrder(xs: seq<Alert>, ys: seq<Alert>, m: Modes)
    requires multiset(xs) == multiset(ys)
    ensures Totalled(xs, m) == Totalled(ys, m)
  {
    CountIgnoresOrder(xs, ys, APPSEC);
    CountIgnoresOrder(xs, ys, Hits(APPSEC));
    CountIgnoresOrder(xs, ys, Bans(APPSEC));
    CountIgnoresOrder(xs, ys, Blocked(APPSEC, m));
    CountIgnoresOrder(xs, ys, Logged(APPSEC, m));
    TallyIgnoresOrder(xs, ys, ByCategory(APPSEC));
    TallyIgnoresOrder(xs, ys, ByIP(APPSEC));
    TallyIgnoresOrder(xs, ys, ByURI(APPSEC));
    TallyIgnoresOrder(xs, ys, ByRule(APPSEC));
    hide Count, Tally;
  }

  /** Neither does anything in the metrics. */
  lemma MetricsIgnoreOrder(xs: seq<Alert>, ys: seq<Alert>, window: nat, now: nat, m: Modes)
    requires multiset(xs) == multiset(ys) && window <= Trunc(now, BucketFor(window))
    ensures Measured(xs, window, now, m) == Measured(ys, window, now, m)
  {
    TotalsIgnoreOrder(xs, ys, m);
    var g, grid := BucketFor(window), Grid(window, now);
    forall k | 0 <= k < |grid|
      ensures Bar(xs, grid[k], g, m) == Bar(ys, grid[k], g, m)
    {
      CountIgnoresOrder(xs, ys, InBar(APPSEC, grid[k], g));
      CountIgnoresOrder(xs, ys, InBar(Blocked(APPSEC, m), grid[k], g));
    }
    hide Bar;
  }

  // ----- agreement -----

  /** filterWindow: untimed alerts stay. */
  function Recent(cutoff: int): Alert -> bool {
    (a: Alert) => a.StartedAt().None? || cutoff <= a.StartedAt().value
  }

  lemma FilteredCount(alerts: seq<Alert>, cutoff: nat, p: Alert -> bool, q: Alert -> bool)
    requires forall a :: a in alerts ==> (Recent(cutoff)(a) && p(a) <==> q(a))
    ensures Count(Filter(alerts, Recent(cutoff)), p) == Count(alerts, q)
  {
    CountFiltered(alerts, Recent(cutoff), p);
    CountAgrees(alerts, Both(Recent(cutoff), p), q);
  }

  lemma FilteredTally<K>(alerts: seq<Alert>, cutoff: nat, p: Alert -> Option<K>, q: Alert -> Option<K>)
    requires forall a :: a in alerts ==> q(a) == if Recent(cutoff)(a) then p(a) else None
    ensures Tally(Filter(alerts, Recent(cutoff)), p) == Tally(alerts, q)
  {
    TallyFiltered(alerts, Recent(cutoff), p);
    TallyAgrees(alerts, KeyIf(Recent(cutoff), p), q);
  }

  /** The sum of the path counts of one URI over the hosts. */
  function OfURI(uri: string): ((string, string)) -> bool {
    (k: (string, string)) => k.1 == uri
  }

  function OfCategory(c: string): string -> bool {
    rule => Categorize(rule) == c
  }

  /** On the alerts of one window both aggregators see the same totals, rules and
      sources; the page's URI counts are the marginals of the (host, URI) counts,
      its categories those of the rule counts. */
  ghost predicate Agree(t: Totals, s: Summary) {
    && t.totalHits == s.hits + s.bans && t.hits == s.hits && t.bans == s.bans
    && t.blocked == s.blocked && t.logged == s.logged
    && t.byRule == s.byRule && t.byIP == s.byIP
    && (forall uri :: At(t.byURI, uri) == SumWhere(s.byPath, OfURI(uri)))
    && (forall c :: At(t.byCategory, c) == SumWhere(s.byRule, OfCategory(c)))
  }

  lemma UriMarginal(alerts: seq<Alert>, when: Alert -> bool, uri: string)
    ensures At(Tally(alerts, ByURI(when)), uri) == SumWhere(Tally(alerts, ByPath(when)), OfURI(uri))
  {
    TallyAt(alerts, ByURI(when), uri);
    TallySum(alerts, ByPath(when), OfURI(uri));
    CountAgrees(alerts, KeyIs(ByURI(when), uri), KeyIn(ByPath(when), OfURI(uri)));
  }

  lemma CategoryMarginal(alerts: seq<Alert>, when: Alert -> bool, c: string)
    ensures At(Tally(alerts, ByCategory(when)), c) == SumWhere(Tally(alerts, ByRule(when)), OfCategory(c))
  {
    TallyAt(alerts, ByCategory(when), c);
    TallySum(alerts, ByRule(when), OfCategory(c));
    CountAgrees(alerts, KeyIs(ByCategory(when), c), KeyIn(ByRule(when), OfCategory(c)));
  }

  lemma AggregatorsAgree(alerts: seq<Alert>, cutoff: nat, to: nat, g: int, m: Modes)
    requires forall a :: a in alerts && a.StartedAt().Some? ==> a.StartedAt().value <= to
    ensures Agree(Totalled(Filter(alerts, Recent(cutoff)), m), Summarized(alerts, InWindow(cutoff, to), g, m))
  {
    var recent, when := Filter(alerts, Recent(cutoff)), InWindow(cutoff, to);
    hide Filter, Count, Tally, IsAppSecAlert, IsBan, ClassifyOutcome, Categorize;
    FilteredCount(alerts, cutoff, APPSEC, when);
    FilteredCount(alerts, cutoff, Hits(APPSEC), Hits(when));
    FilteredCount(alerts, cutoff, Bans(APPSEC), Bans(when));
    FilteredCount(alerts, cutoff, Blocked(APPSEC, m), Blocked(when, m));
    FilteredCount(alerts, cutoff, Logged(APPSEC, m), Logged(when, m));
    FilteredTally(alerts, cutoff, ByRule(APPSEC), ByRule(when));
    FilteredTally(alerts, cutoff, ByIP(APPSEC), ByIP(when));
    FilteredTally(alerts, cutoff, ByURI(APPSEC), ByURI(when));
    FilteredTally(alerts, cutoff, ByCategory(APPSEC), ByCategory(when));
    SummaryConserves(alerts, when, g, m);
    forall uri {
      UriMarginal(alerts, when, uri);
    }
    forall c {
      CategoryMarginal(alerts, when, c);
    }
  }

  // ----- the bars of the page -----

  function InBars(when: Alert -> bool, grid: seq<nat>, g: nat): Alert -> bool
    requires 0 < g
  {
    a => when(a) && a.StartedAt().Some? && Trunc(a.StartedAt().value, g) in grid
  }

  function SumHits(bars: seq<TimeBucket>): nat {
    if bars == [] then 0 else SumHits(bars[..|bars| - 1]) + bars[|bars| - 1].hits
  }

  function SumBlocked(bars: seq<TimeBucket>): nat {
    if bars == [] then 0 else SumBlocked(bars[..|bars| - 1]) + bars[|bars| - 1].blocked
  }

  lemma {:induction false} BarsSum(alerts: seq<Alert>, grid: seq<nat>, g: nat, m: Modes)
    requires 0 < g && Increasing(grid)
    ensures SumHits(Bars(alerts, grid, g, m)) == Count(alerts, InBars(APPSEC, grid, g))
    ensures SumBlocked(Bars(alerts, grid, g, m)) == Count(alerts, InBars(Blocked(APPSEC, m), grid, g))
  {
    if grid == [] {
      CountBounds(alerts, InBars(APPSEC, grid, g));
      CountBounds(alerts, InBars(Blocked(APPSEC, m), grid, g));
    } else {
      var front, t := grid[..|grid| - 1], grid[|grid| - 1];
      BarsSum(alerts, front, g, m);
      assert Bars(alerts, grid, g, m)[..|grid| - 1] == Bars(alerts, front, g, m);
      assert grid == front + [t] && t !in front;
      hide Count, IsAppSecAlert, ClassifyOutcome, Trunc;
      CountSplit(alerts, InBars(APPSEC, grid, g), InBars(APPSEC, front, g), InBar(APPSEC, t, g));
      CountSplit(alerts, InBars(Blocked(APPSEC, m), grid, g), InBars(Blocked(APPSEC, m), front, g),
          InBar(Blocked(APPSEC, m), t, g));
    }
  }

  /** The time the chart covers: whole buckets from that of the window's start to the current one. */
  predicate Charted(window: nat, now: nat, ts: int)
    requires window <= Trunc(now, BucketFor(window))
  {
    var g := BucketFor(window);
    Trunc(Trunc(now, g) - window, g) <= ts < Trunc(now, g) + g
  }

  /** The bars add up to the timed AppSec alerts exactly when all of these fall
      into the time the chart covers, and so do their blocked parts. */
  lemma BarsConserveIff(alerts: seq<Alert>, window: nat, now: nat, m: Modes)
    requires window <= Trunc(now, BucketFor(window))
    ensures var r := Measured(alerts, window, now, m);
            && SumHits(r.overTime) <= Count(alerts, Timed(APPSEC))
            && SumBlocked(r.overTime) <= Count(alerts, Timed(Blocked(APPSEC, m)))
            && (SumHits(r.overTime) == Count(alerts, Timed(APPSEC))
                <==> forall i :: 0 <= i < |alerts| && Timed(APPSEC)(alerts[i]) ==>
                    Charted(window, now, alerts[i].StartedAt().value))
            && (SumBlocked(r.overTime) == Count(alerts, Timed(Blocked(APPSEC, m)))
                <==> forall i :: 0 <= i < |alerts| && Timed(Blocked(APPSEC, m))(alerts[i]) ==>
                       Charted(window, now, alerts[i].StartedAt().value))
  {
    var g, grid := BucketFor(window), Grid(window, now);
    TimesIncrease(Trunc(Trunc(now, g) - window, g), Trunc(now, g), g);
    BarsSum(alerts, grid, g, m);
    forall i | 0 <= i < |alerts| && alerts[i].StartedAt().Some?
      ensures Trunc(alerts[i].StartedAt().value, g) in grid <==> Charted(window, now, alerts[i].StartedAt().value)
    {
      BarExistsIff(window, now, alerts[i].StartedAt().value);
    }
    hide Count, IsAppSecAlert, ClassifyOutcome, Trunc, Grid, Bars, Charted;
    CountNarrower(alerts, InBars(APPSEC, grid, g), Timed(APPSEC));
    CountNarrower(alerts, InBars(Blocked(APPSEC, m), grid, g), Timed(Blocked(APPSEC, m)));
  }

  /** So they add up for alerts that filterWindow kept at an earlier reading of
      the clock, none of them from the future, unless a bucket ended in between. */
  lemma BarsConserve(alerts: seq<Alert>, window: nat, fetched: nat, now: nat, m: Modes)
    requires window <= Trunc(fetched, BucketFor(window)) && fetched <= now
    requires Trunc(fetched, BucketFor(window)) == Trunc(now, BucketFor(window))
    requires forall i :: 0 <= i < |alerts| && alerts[i].StartedAt().Some? ==>
              fetched - window <= alerts[i].StartedAt().value <= fetched
    ensures var r := Measured(alerts, window, now, m);
            && SumHits(r.overTime) == Count(alerts, Timed(APPSEC))
            && SumBlocked(r.overTime) == Count(alerts, Timed(Blocked(APPSEC, m)))
  {
    BarsConserveIff(alerts, window, now, m);
    var g := BucketFor(window);
    forall i | 0 <= i < |alerts| && alerts[i].StartedAt().Some?
      ensures Charted(window, now, alerts[i].StartedAt().value)
    {
      DivisionBounds(fetched, g);
      DivisionBounds(Trunc(now, g) - window, g);
    }
    hide Measured, Count, Trunc, SumHits, SumBlocked;
  }

  const HOUR_END := 13 * 60 * MINUTE

  /** A bucket ends between filter and chart: the alert of the window's first
      moment counts in the totals and has no bar. */
  lemma AlertWithoutBar(a: Alert, m: Modes)
    requires IsAppSecAlert(a) && a.StartedAt() == Some(12 * 60 * MINUTE - 1)
    ensures var window, fetched, now := 60 * MINUTE, HOUR_END - 1, HOUR_END + 1;
            && Recent(fetched - window)(a) && window <= Trunc(now, BucketFor(window))
            && var r := Measured([a], window, now, m);
               r.totals.totalHits == 1 && Count([a], Timed(APPSEC)) == 1 && SumHits(r.overTime) == 0
  {
    var window, now := 60 * MINUTE, HOUR_END + 1;
    HourEnds();
    assert Recent(HOUR_END - 1 - window)(a);
    OneCounts(a);
    BarsConserveIff([a], window, now, m);
    assert Measured([a], window, now, m).totals.totalHits == Count([a], APPSEC) by { hide Count, Bars, Grid, Tally; }
    assert Timed(APPSEC)([a][0]);
    hide *;
  }

  lemma HourEnds()
    ensures 60 * MINUTE <= Trunc(HOUR_END + 1, BucketFor(60 * MINUTE))
    ensures !Charted(60 * MINUTE, HOUR_END + 1, 12 * 60 * MINUTE - 1)
  {
    var g := BucketFor(60 * MINUTE);
    TruncIsUnique(HOUR_END + 1, g, 13 * 12);
    TruncIsUnique(12 * 60 * MINUTE, g, 12 * 12);
  }

  lemma OneCounts(a: Alert)
    requires IsAppSecAlert(a) && a.StartedAt().Some?
    ensures Count([a], APPSEC) == 1 && Count([a], Timed(APPSEC)) == 1
  {
    assert [a][..0] == [];
    hide IsAppSecAlert;
  }

  lemma {:induction false} TimesUpTo(t: nat, to: nat, g: nat)
    requires 0 < g
    ensures forall i :: 0 <= i < |Stitch.TimesFrom(t, to, g)| ==> Stitch.TimesFrom(t, to, g)[i] <= to
    decreases if t <= to then to - t + 1 else 0
  {
    if t <= to {
      TimesUpTo(t + g, to, g);
    }
  }

  lemma BarExistsIff(window: nat, now: nat, ts: nat)
    requires window <= Trunc(now, BucketFor(window))
    ensures Trunc(ts, BucketFor(window)) in Grid(window, now) <==> Charted(window, now, ts)
  {
    var g := BucketFor(window);
    var start, end := Trunc(Trunc(now, g) - window, g), Trunc(now, g);
    DivisionBounds(ts, g);
    TimesIncrease(start, end, g);
    TimesUpTo(start, end, g);
    if start <= ts < end + g {
      if ts <= end {
        AlignedAlready(Trunc(now, g) - window, g);
        Stitch.RowsFallInBuckets(start, end, g, ts);
      } else {
        TruncIsUnique(ts, g, now / g);
        TruncIsUnique(end, g, now / g);
        AlignedAlready(Trunc(now, g) - window, g);
        DivisionBounds(Trunc(now, g) - window, g);
        Stitch.RowsFallInBuckets(start, end, g, end);
      }
    }
    hide Trunc, Stitch.TimesFrom;
  }

  lemma AlignedAlready(t: nat, g: nat)
    requires 0 < g
    ensures Trunc(Trunc(t, g), g) == Trunc(t, g)
  {
    TruncIsUnique(Trunc(t, g), g, t / g);
  }
}
