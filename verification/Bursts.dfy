/** The attack-burst detector: a two-pointer scan over the sorted times of one
    source address, and the de-duplication over successive scans. */
module Bursts {
  import opened Basics
  import opened Alerts
  import opened Tallies
  import opened Ordering

  const SECOND := 1_000_000_000
  const WINDOW := 60 * SECOND
  const THRESHOLD: nat := 10

  // ----- what a burst is -----

  function Inside(end: int): int -> bool {
    t => end - WINDOW <= t <= end
  }

  /** A moment with an alert and at least THRESHOLD alerts in the window up to it. */
  predicate IsBurstEnd(times: seq<int>, end: int) {
    end in times && Count(times, Inside(end)) >= THRESHOLD
  }

  ghost predicate IsEarliest(times: seq<int>, end: int) {
    IsBurstEnd(times, end) && forall e :: IsBurstEnd(times, e) ==> end <= e
  }

  // ----- the scan of one address -----

  predicate Sorted(s: seq<int>) {
    forall i, j :: 0 <= i <= j < |s| ==> s[i] <= s[j]
  }

  const EARLIER: (int, int) -> bool := (a: int, b: int) => a < b

  /** The times in order; the source sorts in place with sort.Slice. */
  function Sort(times: seq<int>): seq<int> {
    InsertAll([], times, EARLIER)
  }

  lemma {:induction false} InsertMembers(s: seq<int>, t: int)
    ensures forall x :: x in Insert(s, t, EARLIER) ==> x == t || x in s
  {
    if s != [] && t < s[|s| - 1] {
      InsertMembers(s[..|s| - 1], t);
    }
  }

  lemma {:induction false} InsertOrders(s: seq<int>, t: int)
    requires Sorted(s)
    ensures Sorted(Insert(s, t, EARLIER))
  {
    if s != [] && t < s[|s| - 1] {
      var front, last := s[..|s| - 1], s[|s| - 1];
      InsertOrders(front, t);
      InsertMembers(front, t);
      var r := Insert(front, t, EARLIER);
      assert Insert(s, t, EARLIER) == r + [last];
      forall i | 0 <= i < |r|
        ensures r[i] <= last
      {
        assert r[i] in r;
      }
    }
  }

  lemma {:induction false} SortSorts(times: seq<int>)
    ensures Sorted(Sort(times)) && multiset(Sort(times)) == multiset(times) && |Sort(times)| == |times|
  {
    if times != [] {
      var front, last := times[..|times| - 1], times[|times| - 1];
      assert times == front + [last];
      SortSorts(front);
      InsertOrders(Sort(front), last);
      InsertKeepsElements(Sort(front), last, EARLIER);
    }
    assert |multiset(Sort(times))| == |multiset(times)|;
  }

  /** Position `j` closes a window of THRESHOLD consecutive alerts. */
  predicate Reaches(s: seq<int>, j: int) {
    THRESHOLD - 1 <= j < |s| && s[j] - s[j - (THRESHOLD - 1)] <= WINDOW
  }

  /** A window longer than needed was already long enough one position before. */
  lemma FirstFullWindow(s: seq<int>, i: int, j: int)
    requires Sorted(s) && 0 <= i <= j < |s| && s[j] - s[i] <= WINDOW && THRESHOLD <= j - i + 1
    ensures Reaches(s, j)
    ensures THRESHOLD < j - i + 1 ==> Reaches(s, j - 1)
  {
    assert s[i] <= s[j - (THRESHOLD - 1)];
  }

  /** The two pointers stop at the first position that closes a full window; the
      window they report there is the largest one, and it holds exactly
      THRESHOLD alerts. */
  method Scan(s: seq<int>) returns (found: Option<(int, nat)>)
    requires Sorted(s)
    ensures found.None? <==> forall j :: 0 <= j < |s| ==> !Reaches(s, j)
    ensures found.Some? ==>
              && found.value.1 == THRESHOLD
              && exists j :: Reaches(s, j) && s[j] == found.value.0
                   && (forall k :: 0 <= k < j ==> !Reaches(s, k))
                   && (forall k :: 0 <= k <= j - found.value.1 ==> WINDOW < s[j] - s[k])
  {
    var i := 0;
    for j := 0 to |s|
      invariant 0 <= i <= j
      invariant forall k :: 0 <= k < j ==> !Reaches(s, k)
      invariant j > 0 ==> i < j && s[j - 1] - s[i] <= WINDOW
      invariant j > 0 ==> forall k :: 0 <= k < i ==> WINDOW < s[j - 1] - s[k]
    {
      while s[j] - s[i] > WINDOW
        invariant 0 <= i <= j
        invariant forall k :: 0 <= k < i ==> WINDOW < s[j] - s[k]
        decreases j - i
      {
        i := i + 1;
      }
      if j - i + 1 < THRESHOLD {
        continue;
      }
      FirstFullWindow(s, i, j);
      return Some((s[j], j - i + 1));
    }
    return None;
  }

  // ----- the scan finds the earliest burst -----

  /** A full window of consecutive alerts makes its last moment a burst end. */
  lemma WindowMakesBurst(s: seq<int>, j: int)
    requires Sorted(s) && Reaches(s, j)
    ensures IsBurstEnd(s, s[j])
  {
    var a := j - (THRESHOLD - 1);
    var window := s[a..j + 1];
    assert s == s[..a] + (window + s[j + 1..]);
    CountConcat(s[..a], window + s[j + 1..], Inside(s[j]));
    CountConcat(window, s[j + 1..], Inside(s[j]));
    CountBounds(window, Inside(s[j]));
  }

  /** Positions up to one before the minute hold none of its alerts. */
  lemma CountAfter(s: seq<int>, a: nat, end: int)
    requires Sorted(s) && a < |s| && s[a] < end - WINDOW
    ensures Count(s, Inside(end)) <= |s| - a - 1
  {
    assert s == s[..a + 1] + s[a + 1..];
    CountConcat(s[..a + 1], s[a + 1..], Inside(end));
    CountBounds(s[..a + 1], Inside(end));
    CountBounds(s[a + 1..], Inside(end));
    hide Count;
  }

  /** Every burst end has such a window at or before it. */
  lemma {:induction false} BurstHasWindow(s: seq<int>, end: int)
    requires Sorted(s) && Count(s, Inside(end)) >= THRESHOLD
    ensures exists j :: Reaches(s, j) && s[j] <= end
  {
    var n := |s|;
    CountBounds(s, Inside(end));
    if end < s[n - 1] {
      assert Count(s, Inside(end)) == Count(s[..n - 1], Inside(end));
      hide Count;
      BurstHasWindow(s[..n - 1], end);
      var j :| Reaches(s[..n - 1], j) && s[..n - 1][j] <= end;
      assert Reaches(s, j);
    } else {
      hide Count;
      if s[n - THRESHOLD] < end - WINDOW {
        CountAfter(s, n - THRESHOLD, end);
      }
      assert Reaches(s, n - 1);
    }
  }

  lemma SortingKeepsBursts(times: seq<int>, end: int)
    ensures IsBurstEnd(times, end) <==> IsBurstEnd(Sort(times), end)
  {
    SortSorts(times);
    CountIgnoresOrder(times, Sort(times), Inside(end));
    assert end in times <==> end in multiset(times);
    assert end in Sort(times) <==> end in multiset(Sort(times));
  }

  ghost predicate IsFirst(times: seq<int>, j: int) {
    Reaches(Sort(times), j) && forall k :: 0 <= k < j ==> !Reaches(Sort(times), k)
  }

  /** The first full window of the sorted times ends at the earliest burst end. */
  lemma FirstWindowIsEarliest(times: seq<int>, j: int)
    requires IsFirst(times, j)
    ensures IsEarliest(times, Sort(times)[j])
  {
    var s := Sort(times);
    SortSorts(times);
    WindowMakesBurst(s, j);
    SortingKeepsBursts(times, s[j]);
    forall e | IsBurstEnd(times, e)
      ensures s[j] <= e
    {
      SortingKeepsBursts(times, e);
      BurstHasWindow(s, e);
      var k :| Reaches(s, k) && s[k] <= e;
      assert j <= k;
    }
  }

  lemma BurstsHaveWindows(times: seq<int>)
    ensures (exists e :: IsBurstEnd(times, e)) ==> exists j :: Reaches(Sort(times), j)
  {
    if e :| IsBurstEnd(times, e) {
      SortSorts(times);
      SortingKeepsBursts(times, e);
      BurstHasWindow(Sort(times), e);
    }
  }

  /** FindBurst is what the body of the per-address loop does before it looks at lastBurst. */
  method FindBurst(times: seq<int>) returns (found: Option<(int, nat)>)
    ensures found.None? <==> forall e :: !IsBurstEnd(times, e)
    ensures found.Some? ==> IsEarliest(times, found.value.0) && found.value.1 == THRESHOLD
  {
    if |times| < THRESHOLD {
      forall e
        ensures !IsBurstEnd(times, e)
      {
        CountBounds(times, Inside(e));
      }
      return None;
    }
    SortSorts(times);
    BurstsHaveWindows(times);
    found := Scan(Sort(times));
    if found.Some? {
      var j :| Reaches(Sort(times), j) && Sort(times)[j] == found.value.0 && forall k :: 0 <= k < j ==>
          !Reaches(Sort(times), k);
      FirstWindowIsEarliest(times, j);
    }
  }

  // ----- one scan over all addresses -----

  datatype Burst = Burst(end: int, count: nat)

  /** The times of the hits of one address that pass `keep`, in alert order. */
  function Times(alerts: seq<Alert>, keep: int -> bool, ip: string): seq<int> {
    if alerts == [] then []
    else
      var a := alerts[|alerts| - 1];
      Times(alerts[..|alerts| - 1], keep, ip)
      + if IsHit(a) && a.StartedAt().Some? && keep(a.StartedAt().value) && a.IP() == Some(ip) then [a.StartedAt().value]
          else []
  }

  function Since(cutoff: int): int -> bool {
    t => cutoff <= t
  }

  const ALWAYS: int -> bool := t => true

  /** What a scan looks at: one window more than what came since the last scan. */
  function Slice(alerts: seq<Alert>, since: int, ip: string): seq<int> {
    Times(alerts, Since(since - WINDOW), ip)
  }

  /** The burst to report for an address with these times, given what was recorded before. */
  ghost predicate IsNews(times: seq<int>, last: map<string, int>, ip: string, b: Burst) {
    IsEarliest(times, b.end) && b.count == THRESHOLD && (ip in last ==> last[ip] < b.end)
  }

  ghost predicate Reports(alerts: seq<Alert>, since: int, last: map<string, int>, ip: string, b: Burst) {
    IsNews(Slice(alerts, since, ip), last, ip, b)
  }

  ghost predicate ReportsFor(
      alerts: seq<Alert>, since: int, last: map<string, int>, events: map<string, Burst>, ip: string) {
    forall b :: (ip in events && events[ip] == b) <==> Reports(alerts, since, last, ip, b)
  }

  /** A scan reports exactly the bursts it should. */
  ghost predicate ReportsAll(alerts: seq<Alert>, since: int, last: map<string, int>, events: map<string, Burst>) {
    forall ip :: ReportsFor(alerts, since, last, events, ip)
  }

  function Recorded(last: map<string, int>, events: map<string, Burst>): map<string, int> {
    map ip | ip in last.Keys + events.Keys :: if ip in events then events[ip].end else last[ip]
  }

  function TimesAt(byIP: map<string, seq<int>>, ip: string): seq<int> {
    if ip in byIP then byIP[ip] else []
  }

  /** The detector's fields; `wired` says whether a notifier is set. */
  class Detector {
    var wired: bool
    var burstSince: int
    var lastBurst: map<string, int>

    constructor ()
      ensures !wired && lastBurst == map[]
    {
      wired, burstSince, lastBurst := false, 0, map[];
    }

    method SetNotifier(now: int)
      modifies this
      ensures wired && burstSince == now && lastBurst == old(lastBurst)
    {
      wired, burstSince := true, now;
    }

    /** The body of the loop over the addresses. */
    method Consider(ip: string, times: seq<int>) returns (news: Option<Burst>)
      modifies this`lastBurst
      ensures forall b :: news == Some(b) <==> IsNews(times, old(lastBurst), ip, b)
      ensures lastBurst == if news.Some? then old(lastBurst)[ip := news.value.end] else old(lastBurst)
    {
      var found := FindBurst(times);
      hide IsBurstEnd;
      if found.None? || (ip in lastBurst && found.value.0 <= lastBurst[ip]) {
        return None;
      }
      var (end, count) := found.value;
      lastBurst := lastBurst[ip := end];
      return Some(Burst(end, count));
    }

    method DetectBursts(alerts: seq<Alert>, now: int) returns (events: map<string, Burst>)
      modifies this
      ensures wired == old(wired)
      ensures !wired ==> events == map[] && burstSince == old(burstSince)
      ensures wired ==> ReportsAll(alerts, old(burstSince), old(lastBurst), events) && burstSince == now
      ensures lastBurst == Recorded(old(lastBurst), events)
    {
      events := map[];
      if !wired {
        return;
      }
      var byIP := GroupByIP(alerts, burstSince);
      ghost var since, last := burstSince, lastBurst;
      hide IsEarliest, IsBurstEnd, Times;
      var rest := byIP.Keys;
      while rest != {}
        invariant rest <= byIP.Keys && wired && burstSince == since
        invariant events.Keys <= byIP.Keys - rest
        invariant forall ip :: ip in byIP.Keys - rest ==> ReportsFor(alerts, since, last, events, ip)
        invariant lastBurst == Recorded(last, events)
        decreases rest
      {
        var ip :| ip in rest;
        ghost var before := events;
        assert byIP[ip] == TimesAt(byIP, ip) == Slice(alerts, since, ip);
        var news := Consider(ip, byIP[ip]);
        if news.Some? {
          events := events[ip := news.value];
        }
        rest := rest - {ip};
        AddressDone(alerts, since, last, before, events, ip, news);
      }
      forall ip
        ensures ReportsFor(alerts, since, last, events, ip)
      {
        assert Slice(alerts, since, ip) == TimesAt(byIP, ip);
        NothingInside(ip);
      }
      burstSince := now;
    }
  }

  /** Taking up one address settles it and leaves the others as they were. */
  lemma AddressDone(
      alerts: seq<Alert>, since: int, last: map<string, int>, before: map<string, Burst>, events: map<string, Burst>,
      ip: string, news: Option<Burst>)
    requires ip !in before && events == (if news.Some? then before[ip := news.value] else before)
    requires forall b :: news == Some(b) <==> IsNews(Slice(alerts, since, ip), Recorded(last, before), ip, b)
    ensures ReportsFor(alerts, since, last, events, ip)
    ensures forall other :: other != ip && ReportsFor(alerts, since, last, before, other) ==>
              ReportsFor(alerts, since, last, events, other)
    ensures Recorded(last, events)
         == if news.Some? then Recorded(last, before)[ip := news.value.end] else Recorded(last, before)
  {
    hide IsEarliest, Slice;
    forall b
      ensures IsNews(Slice(alerts, since, ip), Recorded(last, before), ip, b) <==> Reports(alerts, since, last, ip, b)
    {}
    forall other | other != ip && ReportsFor(alerts, since, last, before, other)
      ensures ReportsFor(alerts, since, last, events, other)
    {
      hide Reports;
    }
  }

  lemma NothingInside(ip: string)
    ensures forall b, last :: !IsNews([], last, ip, b)
  {
  }

  lemma TimesOneMore(alerts: seq<Alert>, a: Alert, keep: int -> bool, ip: string)
    ensures Times(alerts + [a], keep, ip)
         == if IsHit(a) && a.StartedAt().Some? && keep(a.StartedAt().value) && a.IP() == Some(ip)
            then Times(alerts, keep, ip) + [a.StartedAt().value] else Times(alerts, keep, ip)
  {
    assert (alerts + [a])[..|alerts|] == alerts;
  }

  ghost predicate Groups(byIP: map<string, seq<int>>, alerts: seq<Alert>, since: int) {
    forall ip :: TimesAt(byIP, ip) == Slice(alerts, since, ip)
  }

  /** The address whose times an alert adds to, if it is a recent timed hit with one. */
  function CountsFor(a: Alert, since: int): Option<string> {
    if IsHit(a) && a.StartedAt().Some? && since - WINDOW <= a.StartedAt().value then a.IP() else None
  }

  lemma SliceOneMore(alerts: seq<Alert>, i: nat, since: int, ip: string)
    requires i < |alerts|
    ensures CountsFor(alerts[i], since) == Some(ip) ==> alerts[i].StartedAt().Some?
    ensures Slice(alerts[..i + 1], since, ip)
         == if CountsFor(alerts[i], since) == Some(ip)
            then Slice(alerts[..i], since, ip) + [alerts[i].StartedAt().value]
            else Slice(alerts[..i], since, ip)
  {
    assert alerts[..i + 1] == alerts[..i] + [alerts[i]];
    TimesOneMore(alerts[..i], alerts[i], Since(since - WINDOW), ip);
    hide Times;
  }

  lemma GroupsOneMore(byIP: map<string, seq<int>>, alerts: seq<Alert>, i: nat, since: int)
    requires i < |alerts| && Groups(byIP, alerts[..i], since)
    ensures CountsFor(alerts[i], since).None? ==> Groups(byIP, alerts[..i + 1], since)
    ensures CountsFor(alerts[i], since).Some? ==>
              && alerts[i].StartedAt().Some?
              && var ip := CountsFor(alerts[i], since).value;
                 Groups(byIP[ip := TimesAt(byIP, ip) + [alerts[i].StartedAt().value]], alerts[..i + 1], since)
  {
    forall ip {
      SliceOneMore(alerts, i, since, ip);
    }
    hide Slice, CountsFor;
  }

  /** The first loop of detectBursts. */
  method GroupByIP(alerts: seq<Alert>, since: int) returns (byIP: map<string, seq<int>>)
    ensures forall ip :: TimesAt(byIP, ip) == Slice(alerts, since, ip)
  {
    byIP := map[];
    assert Groups(byIP, alerts[..0], since);
    for i := 0 to |alerts|
      invariant Groups(byIP, alerts[..i], since)
    {
      var a := alerts[i];
      GroupsOneMore(byIP, alerts, i, since);
      hide Groups, IsHit;
      if !IsHit(a) || a.StartedAt().None? || a.StartedAt().value < since - WINDOW || a.IP().None? {
        continue;
      }
      var ip := a.IP().value;
      byIP := byIP[ip := TimesAt(byIP, ip) + [a.StartedAt().value]];
    }
    assert alerts[..|alerts|] == alerts;
  }

  // ----- over all scans -----

  datatype Memory = Memory(wired: bool, since: int, last: map<string, int>)

  datatype Op = Wire(now: int) | Fetch(alerts: seq<Alert>, now: int)

  /** One call on the detector, with the bursts it reported. */
  ghost predicate Follows(m: Memory, op: Op, events: map<string, Burst>, m': Memory) {
    match op
    case Wire(now) => events == map[] && m' == Memory(true, now, m.last)
    case Fetch(alerts, now) =>
      if m.wired then
        ReportsAll(alerts, m.since, m.last, events) && m' == Memory(true, now, Recorded(m.last, events))
      else events == map[] && m' == m
  }

  ghost predicate IsHistory(ms: seq<Memory>, ops: seq<Op>, es: seq<map<string, Burst>>) {
    && |ms| == |ops| + 1 == |es| + 1
    && !ms[0].wired && ms[0].last == map[]
    && forall i :: 0 <= i < |ops| ==> Follows(ms[i], ops[i], es[i], ms[i + 1])
  }

  lemma FollowsAt(m: Memory, op: Op, events: map<string, Burst>, m': Memory, ip: string)
    requires Follows(m, op, events, m')
    ensures ip in events ==>
              ip in m'.last && m'.last[ip] == events[ip].end && (ip in m.last ==> m.last[ip] < events[ip].end)
    ensures ip !in events ==> (ip in m'.last <==> ip in m.last) && (ip in m.last ==> m'.last[ip] == m.last[ip])
    ensures forall b :: (ip in events && events[ip] == b)
                        <==> m.wired && op.Fetch? && Reports(op.alerts, m.since, m.last, ip, b)
  {
    if m.wired && op.Fetch? {
      assert ReportsFor(op.alerts, m.since, m.last, events, ip);
      if ip in events {
        assert Reports(op.alerts, m.since, m.last, ip, events[ip]);
      }
    }
    hide IsEarliest;
  }

  /** What is recorded for an address is the last of the bursts reported for it. */
  lemma {:induction false} RecordIsLast(ms: seq<Memory>, ops: seq<Op>, es: seq<map<string, Burst>>, i: nat, ip: string)
    requires IsHistory(ms, ops, es) && i < |ms|
    ensures ip in ms[i].last ==> exists j :: 0 <= j < i && ip in es[j] && es[j][ip].end == ms[i].last[ip]
    ensures forall j :: 0 <= j < i && ip in es[j] ==> ip in ms[i].last && es[j][ip].end <= ms[i].last[ip]
  {
    if i > 0 {
      RecordIsLast(ms, ops, es, i - 1, ip);
      FollowsAt(ms[i - 1], ops[i - 1], es[i - 1], ms[i], ip);
      hide Follows;
    }
  }

  /** Over any history of scans, a scan reports a burst of an address exactly
      when its slice has one and the earliest of them ends after every burst
      reported for that address before. */
  lemma ReportedIff(ms: seq<Memory>, ops: seq<Op>, es: seq<map<string, Burst>>, i: nat, ip: string, b: Burst)
    requires IsHistory(ms, ops, es) && i < |ops|
    ensures (ip in es[i] && es[i][ip] == b)
            <==> (ms[i].wired && ops[i].Fetch? && b.count == THRESHOLD
                  && IsEarliest(Slice(ops[i].alerts, ms[i].since, ip), b.end)
                  && forall j :: 0 <= j < i && ip in es[j] ==> es[j][ip].end < b.end)
  {
    RecordIsLast(ms, ops, es, i, ip);
    FollowsAt(ms[i], ops[i], es[i], ms[i + 1], ip);
    hide IsEarliest, Follows;
    assert (forall j :: 0 <= j < i && ip in es[j] ==> es[j][ip].end < b.end)
           <==> (ip in ms[i].last ==> ms[i].last[ip] < b.end);
    if ms[i].wired && ops[i].Fetch? {
      assert (ip in es[i] && es[i][ip] == b) <==> Reports(ops[i].alerts, ms[i].since, ms[i].last, ip, b);
    }
  }

  /** The detector is wired from the first wiring on, and each call of a wired one
      moves the start of the next slice to its own time. */
  lemma {:induction false} SinceIsLastCall(ms: seq<Memory>, ops: seq<Op>, es: seq<map<string, Burst>>, i: nat)
    requires IsHistory(ms, ops, es) && i <= |ops|
    ensures ms[i].wired <==> exists j :: 0 <= j < i && ops[j].Wire?
    ensures ms[i].wired ==> i > 0 && ms[i].since == ops[i - 1].now
  {
    if i > 0 {
      SinceIsLastCall(ms, ops, es, i - 1);
      assert Follows(ms[i - 1], ops[i - 1], es[i - 1], ms[i]);
    }
  }

  /** The bursts reported for one address end later and later. */
  lemma ReportsAdvance(ms: seq<Memory>, ops: seq<Op>, es: seq<map<string, Burst>>, i: nat, j: nat, ip: string)
    requires IsHistory(ms, ops, es) && i < j < |ops| && ip in es[i] && ip in es[j]
    ensures es[i][ip].end < es[j][ip].end
  {
    ReportedIff(ms, ops, es, j, ip, es[j][ip]);
  }

  // ----- what the slice misses -----

  /** Both lists have the same alerts in the minute up to `end`, as far as a burst goes. */
  ghost predicate Alike(s: seq<int>, t: seq<int>, end: int) {
    Count(s, Inside(end)) == Count(t, Inside(end)) && (end in s <==> end in t)
  }

  lemma AlikeOneMore(s: seq<int>, t: seq<int>, x: int, cutoff: int, end: int)
    requires cutoff <= end - WINDOW && Alike(s, t, end)
    ensures Alike(if cutoff <= x then s + [x] else s, t + [x], end)
  {
    CountOneMore(s, x, Inside(end));
    CountOneMore(t, x, Inside(end));
    hide Count;
  }

  lemma TimesOneMoreOf(front: seq<Alert>, a: Alert, cutoff: int, ip: string)
    ensures var s, t := Times(front, Since(cutoff), ip), Times(front, ALWAYS, ip);
            if IsHit(a) && a.StartedAt().Some? && a.IP() == Some(ip) then
              && Times(front + [a], ALWAYS, ip) == t + [a.StartedAt().value]
              && Times(front + [a], Since(cutoff), ip) == if cutoff <= a.StartedAt().value then s
                  + [a.StartedAt().value] else s
            else Times(front + [a], Since(cutoff), ip) == s && Times(front + [a], ALWAYS, ip) == t
  {
    TimesOneMore(front, a, Since(cutoff), ip);
    TimesOneMore(front, a, ALWAYS, ip);
    hide Times, IsHit;
  }

  lemma {:induction false} SliceAlike(alerts: seq<Alert>, cutoff: int, ip: string, end: int)
    requires cutoff <= end - WINDOW
    ensures Alike(Times(alerts, Since(cutoff), ip), Times(alerts, ALWAYS, ip), end)
  {
    if alerts != [] {
      hide *;
      var front, a := alerts[..|alerts| - 1], alerts[|alerts| - 1];
      SliceAlike(front, cutoff, ip, end);
      assert alerts == front + [a];
      TimesOneMoreOf(front, a, cutoff, ip);
      if a.StartedAt().Some? {
        AlikeOneMore(Times(front, Since(cutoff), ip), Times(front, ALWAYS, ip), a.StartedAt().value, cutoff, end);
      }
    }
  }

  lemma SliceCounts(alerts: seq<Alert>, cutoff: int, ip: string, end: int)
    requires cutoff <= end - WINDOW
    ensures Count(Times(alerts, Since(cutoff), ip), Inside(end)) == Count(Times(alerts, ALWAYS, ip), Inside(end))
    ensures end in Times(alerts, Since(cutoff), ip) <==> end in Times(alerts, ALWAYS, ip)
  {
    SliceAlike(alerts, cutoff, ip, end);
    hide Times, Count;
  }

  /** A burst that ends after the previous scan lies wholly inside the slice. */
  lemma SliceHoldsNewBursts(alerts: seq<Alert>, since: int, ip: string, end: int)
    requires since <= end
    ensures IsBurstEnd(Slice(alerts, since, ip), end) <==> IsBurstEnd(Times(alerts, ALWAYS, ip), end)
  {
    SliceCounts(alerts, since - WINDOW, ip, end);
  }

  lemma EarliestExists(times: seq<int>, end: int)
    requires IsBurstEnd(times, end)
    ensures exists e :: IsEarliest(times, e) && e <= end
  {
    BurstsHaveWindows(times);
    var j :| Reaches(Sort(times), j);
    var k := FirstReach(Sort(times), j);
    FirstWindowIsEarliest(times, k);
  }

  ghost function FirstReach(s: seq<int>, j: int): (k: int)
    requires Reaches(s, j)
    ensures Reaches(s, k) && forall i :: 0 <= i < k ==> !Reaches(s, i)
    decreases j
  {
    if i :| 0 <= i < j && Reaches(s, i) then FirstReach(s, i) else j
  }

  /** After a scan, an address with a burst that ended since the previous scan
      has a burst on record: no later than the slice's earliest one it could be. */
  lemma NewBurstLeavesARecord(m: Memory, op: Op, events: map<string, Burst>, m': Memory, ip: string, end: int)
    requires m.wired && op.Fetch? && Follows(m, op, events, m')
    requires m.since <= end && IsBurstEnd(Times(op.alerts, ALWAYS, ip), end)
    ensures exists e :: IsEarliest(Slice(op.alerts, m.since, ip), e) && e <= end && ip in m'.last && e <= m'.last[ip]
  {
    SliceHoldsNewBursts(op.alerts, m.since, ip, end);
    EarliestExists(Slice(op.alerts, m.since, ip), end);
    var e :| IsEarliest(Slice(op.alerts, m.since, ip), e) && e <= end;
    FollowsAt(m, op, events, m', ip);
    assert Reports(op.alerts, m.since, m.last, ip, Burst(e, THRESHOLD)) || (ip in m.last && e <= m.last[ip]);
  }

  // ----- hidden bursts -----

  /** What is left of a burst when alerts before `cutoff` are cut off. */
  function LeftOf(cutoff: int, end: int): int -> bool {
    t => cutoff <= t && Inside(end)(t)
  }

  /** The burst is still one on the alerts since `cutoff`. */
  predicate Holds(times: seq<int>, cutoff: int, end: int) {
    cutoff <= end && end in times && Count(times, LeftOf(cutoff, end)) >= THRESHOLD
  }

  lemma {:induction false} CutCounts(alerts: seq<Alert>, cutoff: int, ip: string, end: int)
    ensures Count(Times(alerts, Since(cutoff), ip), Inside(end))
         == Count(Times(alerts, ALWAYS, ip), LeftOf(cutoff, end))
    ensures end in Times(alerts, Since(cutoff), ip) <==> cutoff <= end && end in Times(alerts, ALWAYS, ip)
  {
    if alerts != [] {
      var front, a := alerts[..|alerts| - 1], alerts[|alerts| - 1];
      hide Count, Times;
      CutCounts(front, cutoff, ip, end);
      assert alerts == front + [a];
      TimesOneMore(front, a, Since(cutoff), ip);
      TimesOneMore(front, a, ALWAYS, ip);
      if a.StartedAt().Some? {
        CountOneMore(Times(front, Since(cutoff), ip), a.StartedAt().value, Inside(end));
        CountOneMore(Times(front, ALWAYS, ip), a.StartedAt().value, LeftOf(cutoff, end));
      }
    } else {
      NoTimes(cutoff, ip, end);
    }
  }

  lemma NoTimes(cutoff: int, ip: string, end: int)
    ensures Times([], Since(cutoff), ip) == [] == Times([], ALWAYS, ip)
    ensures Count([], Inside(end)) == 0 == Count([], LeftOf(cutoff, end))
  {
  }

  /** The bursts of a slice are those that hold on the alerts since its start. */
  lemma SliceBurstIff(alerts: seq<Alert>, since: int, ip: string, end: int)
    ensures IsBurstEnd(Slice(alerts, since, ip), end) <==> Holds(Times(alerts, ALWAYS, ip), since - WINDOW, end)
  {
    CutCounts(alerts, since - WINDOW, ip, end);
  }

  lemma {:induction false} FewerCount(times: seq<int>, cutoff: int, later: int, end: int)
    requires cutoff <= later
    ensures Count(times, LeftOf(later, end)) <= Count(times, LeftOf(cutoff, end))
  {
    if times != [] {
      FewerCount(times[..|times| - 1], cutoff, later, end);
    }
  }

  /** As the slice moves on, bursts only ever leave it. */
  lemma BurstsFade(times: seq<int>, cutoff: int, later: int, end: int)
    requires cutoff <= later && Holds(times, later, end)
    ensures Holds(times, cutoff, end)
  {
    FewerCount(times, cutoff, later, end);
  }

  /** A burst is reported by a scan exactly when it still holds in what that scan
      looks at, every burst before it has faded from it, and no later one was reported. */
  lemma HiddenBurstReportedIff(ms: seq<Memory>, ops: seq<Op>, es: seq<map<string, Burst>>, i: nat, ip: string, end: int)
    requires IsHistory(ms, ops, es) && i < |ops| && ms[i].wired && ops[i].Fetch?
    ensures var times, cutoff := Times(ops[i].alerts, ALWAYS, ip), ms[i].since - WINDOW;
            (ip in es[i] && es[i][ip].end == end)
            <==> Holds(times, cutoff, end) && (forall e :: e < end ==> !Holds(times, cutoff, e))
                 && forall j :: 0 <= j < i && ip in es[j] ==> es[j][ip].end < end
  {
    var times, slice, cutoff := Times(ops[i].alerts, ALWAYS, ip), Slice(ops[i].alerts, ms[i].since, ip),
        ms[i].since - WINDOW;
    ReportedIff(ms, ops, es, i, ip, Burst(end, THRESHOLD));
    if ip in es[i] {
      ReportedIff(ms, ops, es, i, ip, es[i][ip]);
    }
    forall e
      ensures IsBurstEnd(slice, e) <==> Holds(times, cutoff, e)
    {
      SliceBurstIff(ops[i].alerts, ms[i].since, ip, e);
    }
    hide IsBurstEnd, Holds, IsHistory, Times, Slice;
  }

  /** A burst that does not hold any more in what a scan looks at is not reported
      by a later scan either, unless a later fetch brings more of its alerts. */
  lemma FadedBurstIsNeverReported(
      ms: seq<Memory>, ops: seq<Op>, es: seq<map<string, Burst>>, i: nat, ip: string, end: int, cutoff: int)
    requires IsHistory(ms, ops, es) && i < |ops| && ms[i].wired && ops[i].Fetch?
    requires cutoff <= ms[i].since - WINDOW && !Holds(Times(ops[i].alerts, ALWAYS, ip), cutoff, end)
    ensures ip in es[i] ==> es[i][ip].end != end
  {
    if ip in es[i] && es[i][ip].end == end {
      HiddenBurstReportedIff(ms, ops, es, i, ip, end);
      BurstsFade(Times(ops[i].alerts, ALWAYS, ip), cutoff, ms[i].since - WINDOW, end);
    }
    hide Holds, IsHistory, Times;
  }

  const ATTACKER := "203.0.113.9"

  function HitAt(t: nat): Alert {
    Alert("waf", "", Some(t), None, false, 0, ATTACKER, "", "", "")
  }

  function HitsAt(t: nat, n: nat): seq<Alert> {
    if n == 0 then [] else HitsAt(t, n - 1) + [HitAt(t)]
  }

  /** `after` holds the times `before` and, if kept, `n` more of `t`. */
  ghost predicate Gains(before: seq<int>, after: seq<int>, t: int, kept: bool, n: nat) {
    && (forall end :: Count(after, Inside(end)) == Count(before, Inside(end)) + if kept && Inside(end)(t) then n else 0)
    && (forall x :: x in after <==> x in before || (n > 0 && kept && x == t))
  }

  lemma OneMoreHit(alerts: seq<Alert>, t: nat, keep: int -> bool)
    ensures Gains(Times(alerts, keep, ATTACKER), Times(alerts + [HitAt(t)], keep, ATTACKER), t, keep(t), 1)
  {
    TimesOneMore(alerts, HitAt(t), keep, ATTACKER);
    var before := Times(alerts, keep, ATTACKER);
    assert IsHit(HitAt(t)) && HitAt(t).StartedAt() == Some(t) && HitAt(t).IP() == Some(ATTACKER);
    hide Count, Times, IsHit;
    forall end
      ensures Count(before + [t], Inside(end)) == Count(before, Inside(end)) + if Inside(end)(t) then 1 else 0
    {
      CountOneMore(before, t, Inside(end));
    }
  }

  lemma GainsAddUp(a: seq<int>, b: seq<int>, c: seq<int>, t: int, kept: bool, n: nat)
    requires Gains(a, b, t, kept, n) && Gains(b, c, t, kept, 1)
    ensures Gains(a, c, t, kept, n + 1)
  {
    hide Count, Inside;
  }

  lemma HitsOneMore(alerts: seq<Alert>, t: nat, n: nat)
    ensures alerts + HitsAt(t, 0) == alerts
    ensures 0 < n ==> alerts + HitsAt(t, n) == (alerts + HitsAt(t, n - 1)) + [HitAt(t)]
  {
    hide HitAt;
  }

  lemma NoGain(times: seq<int>, t: int, kept: bool)
    ensures Gains(times, times, t, kept, 0)
  {
  }

  lemma {:induction false} HitTimes(alerts: seq<Alert>, t: nat, n: nat, keep: int -> bool)
    ensures Gains(Times(alerts, keep, ATTACKER), Times(alerts + HitsAt(t, n), keep, ATTACKER), t, keep(t), n)
  {
    hide *;
    HitsOneMore(alerts, t, n);
    if n == 0 {
      NoGain(Times(alerts, keep, ATTACKER), t, keep(t));
    } else {
      var front := alerts + HitsAt(t, n - 1);
      HitTimes(alerts, t, n - 1, keep);
      OneMoreHit(front, t, keep);
      GainsAddUp(Times(alerts, keep, ATTACKER), Times(front, keep, ATTACKER), Times(front + [HitAt(t)], keep, ATTACKER),
          t, keep(t), n - 1);
    }
  }

  /** Ten alerts at 100 s and ten at 165 s from one address. */
  function TwoBursts(): seq<Alert> {
    HitsAt(100 * SECOND, 10) + HitsAt(165 * SECOND, 10)
  }

  lemma TwoBurstsGained(keep: int -> bool)
    ensures Gains(Times([], keep, ATTACKER), Times(HitsAt(100 * SECOND, 10), keep, ATTACKER), 100 * SECOND,
        keep(100 * SECOND), 10)
    ensures Gains(Times(HitsAt(100 * SECOND, 10), keep, ATTACKER), Times(TwoBursts(), keep, ATTACKER), 165 * SECOND,
        keep(165 * SECOND), 10)
  {
    var first := HitsAt(100 * SECOND, 10);
    assert TwoBursts() == first + HitsAt(165 * SECOND, 10);
    assert [] + first == first;
    hide *;
    HitTimes([], 100 * SECOND, 10, keep);
    HitTimes(first, 165 * SECOND, 10, keep);
  }

  lemma TwoBurstEnds(none: seq<int>, one: seq<int>, two: seq<int>, a: bool, b: bool, end: int)
    requires none == [] && Gains(none, one, 100 * SECOND, a, 10) && Gains(one, two, 165 * SECOND, b, 10)
    ensures IsBurstEnd(two, end) <==> (a && end == 100 * SECOND) || (b && end == 165 * SECOND)
  {
    assert Count(none, Inside(end)) == 0;
    hide Count;
  }

  lemma TwoBurstsSeen(since: int, end: int)
    ensures IsBurstEnd(Slice(TwoBursts(), since, ATTACKER), end)
            <==> (end == 100 * SECOND && since <= 160 * SECOND) || (end == 165 * SECOND && since <= 225 * SECOND)
  {
    var keep := Since(since - WINDOW);
    assert Slice(TwoBursts(), since, ATTACKER) == Times(TwoBursts(), keep, ATTACKER);
    assert keep(100 * SECOND) <==> since <= 160 * SECOND;
    assert keep(165 * SECOND) <==> since <= 225 * SECOND;
    NoTimes(since - WINDOW, ATTACKER, end);
    hide *;
    TwoBurstsGained(keep);
    TwoBurstEnds(Times([], keep, ATTACKER), Times(HitsAt(100 * SECOND, 10), keep, ATTACKER),
        Times(TwoBursts(), keep, ATTACKER),
                 keep(100 * SECOND), keep(165 * SECOND), end);
  }

  /** With the first of the two bursts on record, the second is reported by a
      scan exactly when the scan before it ran after 160 s and up to 225 s. A
      scan before that is silent although it has seen the second burst, and if
      the next one comes too late the second burst is never reported. */
  lemma LaterBurstWaits(since: int)
    ensures (exists b :: Reports(TwoBursts(), since, map[ATTACKER := 100 * SECOND], ATTACKER, b))
            <==> 160 * SECOND < since <= 225 * SECOND
    ensures !Inside(165 * SECOND)(100 * SECOND)
  {
    forall end
      ensures IsBurstEnd(Slice(TwoBursts(), since, ATTACKER), end)
              <==> (end == 100 * SECOND && since <= 160 * SECOND) || (end == 165 * SECOND && since <= 225 * SECOND)
    {
      TwoBurstsSeen(since, end);
    }
    var last := map[ATTACKER := 100 * SECOND];
    var slice := Slice(TwoBursts(), since, ATTACKER);
    hide IsBurstEnd, Slice;
    if 160 * SECOND < since <= 225 * SECOND {
      assert IsBurstEnd(slice, 165 * SECOND);
      assert Reports(TwoBursts(), since, last, ATTACKER, Burst(165 * SECOND, THRESHOLD));
    }
    assert since <= 160 * SECOND ==> IsBurstEnd(slice, 100 * SECOND);
  }
}
