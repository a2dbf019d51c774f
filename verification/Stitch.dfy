/** The stitched traffic query: an accumulator fed with the rollup of the closed
    hours and the rows of the edges, against a direct pass over all rows. */
module Stitch {
  import opened Basics
  import opened Rollup

  /** Requests of one time bucket by status class. */
  datatype Bucket = Bucket(c2xx: int, c3xx: int, c4xx: int, c5xx: int) {
    function Count(c: int): int {
      if c == 2 then c2xx else if c == 3 then c3xx else if c == 4 then c4xx else if c == 5 then c5xx else 0
    }

    function Plus(c: int, n: int): Bucket {
      match c
      case 2 => this.(c2xx := c2xx + n)
      case 3 => this.(c3xx := c3xx + n)
      case 4 => this.(c4xx := c4xx + n)
      case 5 => this.(c5xx := c5xx + n)
      case _ => this
    }
  }

  const EMPTY := Bucket(0, 0, 0, 0)

  datatype Acc = Acc(series: map<nat, Bucket>, byHost: map<int, int>, bytes: int)

  function BucketAt(a: Acc, key: nat): Bucket {
    if key in a.series then a.series[key] else EMPTY
  }

  function HostCount(a: Acc, host: int): int {
    if host in a.byHost then a.byHost[host] else 0
  }

  function Added(a: Acc, bucket: nat, statusClass: int, n: int, host: int, size: int): Acc {
    Acc(a.series[bucket := BucketAt(a, bucket).Plus(statusClass, n)],
        if host > 0 then a.byHost[host := HostCount(a, host) + n] else a.byHost,
        a.bytes + size)
  }

  function AddedHour(a: Acc, g: nat, h: HourRow): Acc
    requires 0 < g
  {
    Added(a, Trunc(h.key.hour, g), h.key.statusClass, h.requests, h.key.host, h.bytes)
  }

  function AddedRow(a: Acc, g: nat, r: Row): Acc
    requires 0 < g
  {
    Added(a, Trunc(r.ts, g), Class(r.status), 1, r.host, r.size)
  }

  function FoldHours(a: Acc, g: nat, hours: seq<HourRow>): Acc
    requires 0 < g
  {
    if hours == [] then a else AddedHour(FoldHours(a, g, hours[..|hours| - 1]), g, hours[|hours| - 1])
  }

  function FoldRows(a: Acc, g: nat, rows: seq<Row>): Acc
    requires 0 < g
  {
    if rows == [] then a else AddedRow(FoldRows(a, g, rows[..|rows| - 1]), g, rows[|rows| - 1])
  }

  /** The accumulator object (granularities of an hour or more, where the series
      is not read separately). */
  class StitchAcc {
    const g: nat
    var series: map<nat, Bucket>
    var byHost: map<int, int>
    var bytes: int

    ghost function Value(): Acc
      reads this
    {
      Acc(series, byHost, bytes)
    }

    constructor (g: nat)
      requires 0 < g
      ensures this.g == g && Value() == Acc(map[], map[], 0)
    {
      this.g, series, byHost, bytes := g, map[], map[], 0;
    }

    method AddClass(key: nat, statusClass: int, n: int)
      modifies this`series
      ensures series == old(series)[key := old(BucketAt(Value(), key)).Plus(statusClass, n)]
    {
      if key !in series {
        series := series[key := EMPTY];
      }
      var b := series[key];
      match statusClass {
        case 2 => b := b.(c2xx := b.c2xx + n);
        case 3 => b := b.(c3xx := b.c3xx + n);
        case 4 => b := b.(c4xx := b.c4xx + n);
        case 5 => b := b.(c5xx := b.c5xx + n);
        case _ =>
      }
      series := series[key := b];
    }

    method AddRollup(h: HourRow)
      requires 0 < g
      modifies this
      ensures Value() == AddedHour(old(Value()), g, h)
    {
      AddClass(Trunc(h.key.hour, g), h.key.statusClass, h.requests);
      if h.key.host > 0 {
        byHost := byHost[h.key.host := (if h.key.host in byHost then byHost[h.key.host] else 0) + h.requests];
      }
      bytes := bytes + h.bytes;
    }

    method AddRow(r: Row)
      requires 0 < g
      modifies this
      ensures Value() == AddedRow(old(Value()), g, r)
    {
      var c := if r.status >= 100 then r.status / 100 else 0;
      AddClass(Trunc(r.ts, g), c, 1);
      if r.host > 0 {
        byHost := byHost[r.host := (if r.host in byHost then byHost[r.host] else 0) + 1];
      }
      bytes := bytes + r.size;
    }
  }

  function EdgeRows(rows: seq<Row>, s: Span, i: nat): seq<Row> {
    Select(rows, (ts: nat) => InEdge(s, i, ts))
  }

  /** What the stitched query has gathered when it shapes its response. */
  function Stitched(rows: seq<Row>, hours: seq<HourRow>, s: Span, g: nat): Acc
    requires 0 < g
  {
    FoldRows(FoldRows(FoldHours(Acc(map[], map[], 0), g, hours), g, EdgeRows(rows, s, 0)), g, EdgeRows(rows, s, 1))
  }

  /** trafficStitched: the rollup rows, then the rows of each edge. */
  method TrafficStitched(rows: seq<Row>, hours: seq<HourRow>, s: Span, g: nat) returns (acc: StitchAcc)
    requires 0 < g
    ensures acc.Value() == Stitched(rows, hours, s, g)
  {
    acc := new StitchAcc(g);
    ghost var empty := acc.Value();
    for i := 0 to |hours|
      invariant acc.g == g && acc.Value() == FoldHours(empty, g, hours[..i])
      modifies acc
    {
      assert hours[..i + 1][..i] == hours[..i];
      acc.AddRollup(hours[i]);
    }
    assert hours[..|hours|] == hours;
    for e := 0 to 2
      invariant acc.g == g
      invariant e == 0 ==> acc.Value() == FoldHours(empty, g, hours)
      invariant e == 1 ==> acc.Value() == FoldRows(FoldHours(empty, g, hours), g, EdgeRows(rows, s, 0))
      invariant e == 2 ==> acc.Value() == Stitched(rows, hours, s, g)
      modifies acc
    {
      var picked := EdgeRows(rows, s, e);
      ghost var start := acc.Value();
      for i := 0 to |picked|
        invariant acc.g == g && acc.Value() == FoldRows(start, g, picked[..i])
        modifies acc
      {
        assert picked[..i + 1][..i] == picked[..i];
        acc.AddRow(picked[i]);
      }
      assert picked[..|picked|] == picked;
    }
  }

  // ----- bucket times -----

  function TimesFrom(t: nat, to: nat, g: nat): seq<nat>
    requires 0 < g
    decreases if t <= to then to - t + 1 else 0
  {
    if t > to then [] else [t] + TimesFrom(t + g, to, g)
  }

  /** bucketTimes: the grid points from the truncated start up to the end. */
  method BucketTimes(from: nat, to: nat, g: int) returns (out: seq<nat>)
    ensures g <= 0 ==> out == []
    ensures 0 < g ==> out == TimesFrom(Trunc(from, g), to, g)
  {
    out := [];
    if g <= 0 {
      return;
    }
    var t := Trunc(from, g);
    while t <= to
      invariant out + TimesFrom(t, to, g) == TimesFrom(Trunc(from, g), to, g)
      decreases if t <= to then to - t + 1 else 0
    {
      out := out + [t];
      t := t + g;
    }
  }

  lemma {:induction false} GridPoint(t: nat, to: nat, g: nat, i: nat)
    requires 0 < g && t + i * g <= to
    ensures t + i * g in TimesFrom(t, to, g)
    decreases i
  {
    assert t <= t + i * g;
    if i > 0 {
      assert t + i * g == (t + g) + (i - 1) * g;
      GridPoint(t + g, to, g, i - 1);
    }
  }

  /** No row of the window falls outside the response's buckets. */
  lemma RowsFallInBuckets(from: nat, to: nat, g: nat, ts: nat)
    requires 0 < g && from <= ts <= to
    ensures Trunc(ts, g) in TimesFrom(Trunc(from, g), to, g)
  {
    var a, b := from / g, ts / g;
    DivisionBounds(from, g);
    DivisionBounds(ts, g);
    QuotientsInOrder(a, b, g);
    assert b * g == a * g + (b - a) * g;
    GridPoint(a * g, to, g, b - a);
  }

  lemma {:induction false} GridFrom(q: nat, to: nat, g: nat, t: nat)
    requires 0 < g
    ensures t in TimesFrom(q * g, to, g) <==> t <= to && exists k: nat :: q <= k && t == k * g
    decreases if q * g <= to then to - q * g + 1 else 0
  {
    assert (q + 1) * g == q * g + g;
    if q * g <= to {
      GridFrom(q + 1, to, g, t);
      assert TimesFrom(q * g, to, g) == [q * g] + TimesFrom((q + 1) * g, to, g);
      if k: nat :| q <= k && t == k * g && k != q {
        assert q + 1 <= k;
      }
    } else if k: nat :| q <= k && t == k * g {
      MultiplesInOrder(q, k, g);
    }
  }

  /** The bucket times are exactly the multiples of the granularity from the one
      at or before the start up to the end. */
  lemma BucketTimesAre(from: nat, to: nat, g: nat, t: nat)
    requires 0 < g
    ensures t in TimesFrom(Trunc(from, g), to, g) <==> Trunc(t, g) == t && Trunc(from, g) <= t <= to
  {
    var q := from / g;
    GridFrom(q, to, g, t);
    DivisionBounds(t, g);
    if k: nat :| q <= k && t == k * g {
      TruncIsUnique(t, g, k);
      MultiplesInOrder(q, k, g);
    }
    if Trunc(t, g) == t && Trunc(from, g) <= t {
      QuotientsInOrder(q, t / g, g);
    }
  }

  lemma QuotientsInOrder(a: nat, b: nat, g: nat)
    requires 0 < g && a * g < b * g + g
    ensures a <= b
  {
    if b + 1 <= a {
      MultiplesInOrder(b + 1, a, g);
    }
  }

  // ----- what the accumulator counts -----

  function InBucket(g: nat, key: nat, c: int): Key -> bool
    requires 0 < g
  {
    (k: Key) => Trunc(k.hour, g) == key && k.statusClass == c
  }

  function OfHost(host: int): Key -> bool {
    (k: Key) => k.host == host
  }

  const EVERY: Key -> bool := (k: Key) => true
  const ONE: Row -> int := (r: Row) => 1
  const SIZE: Row -> int := (r: Row) => r.size
  const REQUESTS: HourRow -> int := (h: HourRow) => h.requests
  const BYTES: HourRow -> int := (h: HourRow) => h.bytes

  predicate Counted(c: int) {
    2 <= c <= 5
  }

  /** Truncating to the hour first changes nothing for a granularity of whole hours. */
  lemma NestedTruncation(ts: nat, m: nat)
    requires 0 < m
    ensures 0 < m * HOUR && Trunc(Trunc(ts, HOUR), m * HOUR) == Trunc(ts, m * HOUR)
  {
    var g := m * HOUR;
    var q, h := ts / g, Trunc(ts, HOUR);
    DivisionBounds(ts, g);
    assert q * g == (q * m) * HOUR;
    MultipleBelow(q * m, ts);
    TruncIsUnique(h, g, q);
  }

  lemma MultipleBelow(n: nat, ts: nat)
    requires n * HOUR <= ts
    ensures n * HOUR <= Trunc(ts, HOUR)
  {
  }

  lemma AddedCounts(a: Acc, bucket: nat, c0: int, n: int, host0: int, size: int, key: nat, c: int, host: int)
    requires Counted(c) && 0 < host
    ensures var a' := Added(a, bucket, c0, n, host0, size);
            && BucketAt(a', key).Count(c) == BucketAt(a, key).Count(c) + (if bucket == key && c0 == c then n else 0)
            && HostCount(a', host) == HostCount(a, host) + (if host0 == host then n else 0)
            && a'.bytes == a.bytes + size
  {
  }

  lemma {:induction false} HoursCounts(a: Acc, g: nat, hours: seq<HourRow>, key: nat, c: int, host: int)
    requires 0 < g && Counted(c) && 0 < host
    ensures var a' := FoldHours(a, g, hours);
            && BucketAt(a', key).Count(c) == BucketAt(a, key).Count(c)
                + HoursTotal(hours, InBucket(g, key, c), REQUESTS)
            && HostCount(a', host) == HostCount(a, host) + HoursTotal(hours, OfHost(host), REQUESTS)
            && a'.bytes == a.bytes + HoursTotal(hours, EVERY, BYTES)
  {
    if hours != [] {
      var init, h := hours[..|hours| - 1], hours[|hours| - 1];
      HoursCounts(a, g, init, key, c, host);
      AddedCounts(FoldHours(a, g, init), Trunc(h.key.hour, g), h.key.statusClass, h.requests, h.key.host, h.bytes, key,
          c, host);
    }
  }

  lemma {:induction false} RowsCounts(a: Acc, m: nat, rows: seq<Row>, key: nat, c: int, host: int)
    requires 0 < m && Counted(c) && 0 < host
    ensures var g := m * HOUR; 0 < g && var a' := FoldRows(a, g, rows);
            && BucketAt(a', key).Count(c) == BucketAt(a, key).Count(c) + Total(rows, InBucket(g, key, c), ONE)
            && HostCount(a', host) == HostCount(a, host) + Total(rows, OfHost(host), ONE)
            && a'.bytes == a.bytes + Total(rows, EVERY, SIZE)
  {
    var g := m * HOUR;
    if rows != [] {
      var init, r := rows[..|rows| - 1], rows[|rows| - 1];
      RowsCounts(a, m, init, key, c, host);
      NestedTruncation(r.ts, m);
      AddedCounts(FoldRows(a, g, init), Trunc(r.ts, g), Class(r.status), 1, r.host, r.size, key, c, host);
    }
  }

  /** Requests of no host are counted for none. */
  lemma AddedHosts(a: Acc, bucket: nat, c: int, n: int, host: int, size: int)
    requires forall h :: h in a.byHost ==> 0 < h
    ensures forall h :: h in Added(a, bucket, c, n, host, size).byHost ==> 0 < h
  {
  }

  lemma {:induction false} HoursHosts(a: Acc, g: nat, hours: seq<HourRow>)
    requires 0 < g && forall h :: h in a.byHost ==> 0 < h
    ensures forall h :: h in FoldHours(a, g, hours).byHost ==> 0 < h
  {
    if hours != [] {
      var init, r := hours[..|hours| - 1], hours[|hours| - 1];
      HoursHosts(a, g, init);
      AddedHosts(FoldHours(a, g, init), Trunc(r.key.hour, g), r.key.statusClass, r.requests, r.key.host, r.bytes);
      hide Added;
    }
  }

  lemma {:induction false} RowsHosts(a: Acc, g: nat, rows: seq<Row>)
    requires 0 < g && forall h :: h in a.byHost ==> 0 < h
    ensures forall h :: h in FoldRows(a, g, rows).byHost ==> 0 < h
  {
    if rows != [] {
      var init, r := rows[..|rows| - 1], rows[|rows| - 1];
      RowsHosts(a, g, init);
      AddedHosts(FoldRows(a, g, init), Trunc(r.ts, g), Class(r.status), 1, r.host, r.size);
      hide Added;
    }
  }

  /** The top hosts are hosts: requests without one are in no count of theirs. */
  lemma HostsAreHosts(rows: seq<Row>, hours: seq<HourRow>, s: Span, g: nat)
    requires 0 < g
    ensures forall h :: h in Stitched(rows, hours, s, g).byHost ==> 0 < h
  {
    var empty := Acc(map[], map[], 0);
    HoursHosts(empty, g, hours);
    RowsHosts(FoldHours(empty, g, hours), g, EdgeRows(rows, s, 0));
    RowsHosts(FoldRows(FoldHours(empty, g, hours), g, EdgeRows(rows, s, 0)), g, EdgeRows(rows, s, 1));
    hide FoldHours, FoldRows, EdgeRows;
  }

  // ----- the direct pass -----

  /** The status classes trafficRows counts: its 5xx has no upper end. */
  predicate InClassDirect(c: int, status: int) {
    if c == 5 then status >= 500 else c * 100 <= status < c * 100 + 100
  }

  function DirectCount(rows: seq<Row>, g: nat, key: nat, c: int): int
    requires 0 < g
  {
    if rows == [] then 0
    else
      var r := rows[|rows| - 1];
      DirectCount(rows[..|rows| - 1], g, key, c) + AsCount(Trunc(r.ts, g) == key && InClassDirect(c, r.status))
  }

  /** Rows of the bucket with a status beyond every class, which only the direct pass counts. */
  function BeyondClasses(rows: seq<Row>, g: nat, key: nat, c: int): int
    requires 0 < g
  {
    if rows == [] then 0
    else
      var r := rows[|rows| - 1];
      BeyondClasses(rows[..|rows| - 1], g, key, c) + AsCount(Trunc(r.ts, g) == key && c == 5 && r.status >= 600)
  }

  lemma {:induction false} DirectCounts(rows: seq<Row>, m: nat, key: nat, c: int)
    requires 0 < m && Counted(c)
    ensures 0 < m * HOUR
    ensures DirectCount(rows, m * HOUR, key, c)
         == Total(rows, InBucket(m * HOUR, key, c), ONE) + BeyondClasses(rows, m * HOUR, key, c)
  {
    if rows != [] {
      var r := rows[|rows| - 1];
      DirectCounts(rows[..|rows| - 1], m, key, c);
      NestedTruncation(r.ts, m);
      assert InClassDirect(c, r.status) <==> Class(r.status) == c || (c == 5 && r.status >= 600);
    }
  }

  function Window(rows: seq<Row>, s: Span): seq<Row> {
    Select(rows, (ts: nat) => s.from <= ts <= s.to)
  }

  function Lost(rows: seq<Row>, s: Span): seq<Row> {
    Select(rows, (ts: nat) => Forgotten(s, ts))
  }

  /** Closed hours, edges and the forgotten moment add up to the whole window. */
  lemma WindowTotal(rows: seq<Row>, s: Span, p: Key -> bool, w: Row -> int)
    requires WellSplit(s)
    ensures Total(Select(rows, (ts: nat) => InClosed(s, ts)), p, w) + Total(EdgeRows(rows, s, 0), p, w)
          + Total(EdgeRows(rows, s, 1), p, w) + Total(Lost(rows, s), p, w) == Total(Window(rows, s), p, w)
  {
    forall ts: nat {
      SplitPartitionsWindow(s, ts);
    }
    TotalsAddUp(rows, (ts: nat) => InClosed(s, ts), (ts: nat) => InEdge(s, 0, ts), (ts: nat) => InEdge(s, 1, ts),
                (ts: nat) => Forgotten(s, ts), (ts: nat) => s.from <= ts <= s.to, p, w);
  }

  /** Stitching refines the direct pass. With exact rollup hours and a
      granularity of whole hours, every bucket, host count and byte sum of the
      stitched result is that of the rows in [from, to], short only of the rows
      at the forgotten moment and, for 5xx, of statuses from 600 on. */
  lemma StitchingRefinesDirectPass(rows: seq<Row>, hours: seq<HourRow>, s: Span, m: nat, key: nat, c: int, host: int)
    requires WellSplit(s) && ExactRollup(hours, rows, s) && 0 < m && Counted(c) && 0 < host
    ensures var g := m * HOUR; 0 < g && var a := Stitched(rows, hours, s, g);
            && BucketAt(a, key).Count(c) + Total(Lost(rows, s), InBucket(g, key, c), ONE)
                + BeyondClasses(Window(rows, s), g, key, c)
               == DirectCount(Window(rows, s), g, key, c)
            && HostCount(a, host) + Total(Lost(rows, s), OfHost(host), ONE) == Total(Window(rows, s), OfHost(host), ONE)
            && a.bytes + Total(Lost(rows, s), EVERY, SIZE) == Total(Window(rows, s), EVERY, SIZE)
  {
    var g, empty := m * HOUR, Acc(map[], map[], 0);
    var a1 := FoldHours(empty, g, hours);
    var a2 := FoldRows(a1, g, EdgeRows(rows, s, 0));
    HoursCounts(empty, g, hours, key, c, host);
    RowsCounts(a1, m, EdgeRows(rows, s, 0), key, c, host);
    RowsCounts(a2, m, EdgeRows(rows, s, 1), key, c, host);
    DirectCounts(Window(rows, s), m, key, c);
    ClosedHoursTotal(hours, rows, s, InBucket(g, key, c), ONE, REQUESTS);
    ClosedHoursTotal(hours, rows, s, OfHost(host), ONE, REQUESTS);
    ClosedHoursTotal(hours, rows, s, EVERY, SIZE, BYTES);
    WindowTotal(rows, s, InBucket(g, key, c), ONE);
    WindowTotal(rows, s, OfHost(host), ONE);
    WindowTotal(rows, s, EVERY, SIZE);
  }

  lemma {:induction false} NothingBeyond(rows: seq<Row>, g: nat, key: nat, c: int)
    requires 0 < g && forall r :: r in rows ==> r.status < 600
    ensures BeyondClasses(rows, g, key, c) == 0
  {
    if rows != [] {
      NothingBeyond(rows[..|rows| - 1], g, key, c);
    }
  }

  /** The results agree outright when statuses stay below 600 and the window
      does not end exactly on the end of its closed hours. */
  lemma StitchingIsExact(rows: seq<Row>, hours: seq<HourRow>, s: Span, m: nat, key: nat, c: int, host: int)
    requires WellSplit(s) && ExactRollup(hours, rows, s) && 0 < m && Counted(c) && 0 < host
    requires s.closedTo < s.to && forall r :: r in rows ==> r.status < 600
    ensures var g := m * HOUR; 0 < g && var a := Stitched(rows, hours, s, g);
            && BucketAt(a, key).Count(c) == DirectCount(Window(rows, s), g, key, c)
            && HostCount(a, host) == Total(Window(rows, s), OfHost(host), ONE)
            && a.bytes == Total(Window(rows, s), EVERY, SIZE)
  {
    StitchingRefinesDirectPass(rows, hours, s, m, key, c, host);
    SelectedRows(rows, (ts: nat) => s.from <= ts <= s.to);
    SelectedRows(rows, (ts: nat) => Forgotten(s, ts));
    NothingBeyond(Window(rows, s), m * HOUR, key, c);
    SelectNone(rows, (ts: nat) => Forgotten(s, ts));
  }

  lemma {:induction false} SelectNone(rows: seq<Row>, when: nat -> bool)
    requires forall r :: r in rows ==> !when(r.ts)
    ensures Select(rows, when) == []
  {
    if rows != [] {
      SelectNone(rows[..|rows| - 1], when);
    }
  }

  lemma {:induction false} CountsRows(rows: seq<Row>, p: Key -> bool)
    ensures Total(rows, p, ONE) >= 0
    ensures Total(rows, p, ONE) > 0 <==> exists r :: r in rows && p(KeyOf(r))
  {
    if rows != [] {
      var init, last := rows[..|rows| - 1], rows[|rows| - 1];
      CountsRows(init, p);
      assert rows == init + [last];
    }
  }

  lemma {:induction false} CountsBeyond(rows: seq<Row>, g: nat, key: nat, c: int)
    requires 0 < g
    ensures BeyondClasses(rows, g, key, c) >= 0
    ensures BeyondClasses(rows, g, key, c) > 0
            <==> c == 5 && exists r :: r in rows && Trunc(r.ts, g) == key && r.status >= 600
  {
    if rows != [] {
      var init, last := rows[..|rows| - 1], rows[|rows| - 1];
      CountsBeyond(init, g, key, c);
      assert rows == init + [last];
    }
  }

  /** A row the stitched series and the direct series treat differently. */
  predicate Misfit(s: Span, r: Row) {
    || (Forgotten(s, r.ts) && Counted(Class(r.status)))
    || (s.from <= r.ts <= s.to && r.status >= 600)
  }

  ghost predicate SeriesAgree(rows: seq<Row>, hours: seq<HourRow>, s: Span, g: nat)
    requires 0 < g
  {
    forall key: nat, c: int :: Counted(c) ==>
      BucketAt(Stitched(rows, hours, s, g), key).Count(c) == DirectCount(Window(rows, s), g, key, c)
  }

  /** The row counts on one side only in bucket `key` of class `c`. */
  predicate Differs(s: Span, r: Row, g: nat, key: nat, c: int)
    requires 0 < g
  {
    && Trunc(r.ts, g) == key
    && ((Forgotten(s, r.ts) && Class(r.status) == c) || (s.from <= r.ts <= s.to && c == 5 && r.status >= 600))
  }

  /** A forgotten row of the bucket and class exists exactly when the lost rows count one. */
  lemma LostCounts(rows: seq<Row>, s: Span, m: nat, key: nat, c: int)
    requires 0 < m
    ensures 0 < m * HOUR
    ensures Total(Lost(rows, s), InBucket(m * HOUR, key, c), ONE) >= 0
    ensures Total(Lost(rows, s), InBucket(m * HOUR, key, c), ONE) > 0
            <==> exists r :: r in rows && Forgotten(s, r.ts) && Class(r.status) == c && Trunc(r.ts, m * HOUR) == key
  {
    var g, p := m * HOUR, InBucket(m * HOUR, key, c);
    SelectedRows(rows, (ts: nat) => Forgotten(s, ts));
    CountsRows(Lost(rows, s), p);
    forall r | r in rows
      ensures p(KeyOf(r)) <==> Trunc(r.ts, g) == key && Class(r.status) == c
    {
      NestedTruncation(r.ts, m);
    }
    hide Total, Lost, Trunc, Class, Forgotten;
  }

  lemma BeyondCounts(rows: seq<Row>, s: Span, g: nat, key: nat, c: int)
    requires 0 < g
    ensures BeyondClasses(Window(rows, s), g, key, c) >= 0
    ensures BeyondClasses(Window(rows, s), g, key, c) > 0
            <==> exists r :: r in rows && s.from <= r.ts <= s.to && c == 5 && r.status >= 600 && Trunc(r.ts, g) == key
  {
    SelectedRows(rows, (ts: nat) => s.from <= ts <= s.to);
    CountsBeyond(Window(rows, s), g, key, c);
    hide BeyondClasses, Trunc;
  }

  lemma BucketAgreesIff(rows: seq<Row>, hours: seq<HourRow>, s: Span, m: nat, key: nat, c: int)
    requires WellSplit(s) && ExactRollup(hours, rows, s) && 0 < m && Counted(c)
    ensures 0 < m * HOUR
    ensures BucketAt(Stitched(rows, hours, s, m * HOUR), key).Count(c) == DirectCount(Window(rows, s), m * HOUR, key, c)
            <==> (forall r :: r in rows ==> !Differs(s, r, m * HOUR, key, c))
  {
    hide Stitched, DirectCount, BeyondClasses, Total, ExactRollup, WellSplit, Trunc, Window, Lost, BucketAt, InBucket,
        Forgotten, Class;
    StitchingRefinesDirectPass(rows, hours, s, m, key, c, 1);
    LostCounts(rows, s, m, key, c);
    BeyondCounts(rows, s, m * HOUR, key, c);
  }

  /** The two series agree in every bucket exactly when no row of the window
      has a status of 600 or more and no counted row sits at the forgotten moment. */
  lemma SeriesAgreeIff(rows: seq<Row>, hours: seq<HourRow>, s: Span, m: nat)
    requires WellSplit(s) && ExactRollup(hours, rows, s) && 0 < m
    ensures 0 < m * HOUR
    ensures SeriesAgree(rows, hours, s, m * HOUR) <==> forall r :: r in rows ==> !Misfit(s, r)
  {
    hide Stitched, DirectCount, BucketAt, ExactRollup, WellSplit;
    var g := m * HOUR;
    forall key: nat, c: int | Counted(c) {
      BucketAgreesIff(rows, hours, s, m, key, c);
    }
    if r :| r in rows && Misfit(s, r) {
      var key, c := Trunc(r.ts, g), if r.status >= 600 then 5 else Class(r.status);
      assert Counted(c);
      BucketAgreesIff(rows, hours, s, m, key, c);
    }
  }

  /** A concrete window that ends on the hour: the row of its last moment is
      counted by the direct pass and missed by the stitched one. */
  lemma WindowEndingOnTheHourLosesARow()
    ensures var s := RollupSpanFor(Some((HOUR, HOUR)), HOUR, 2 * HOUR);
            var rows := [Row(2 * HOUR, 200, 7, 1)];
            && WellSplit(s) && ExactRollup([], rows, s)
            && Total(Window(rows, s), EVERY, SIZE) == 7
            && Stitched(rows, [], s, HOUR).bytes == 0
  {
    var s := RollupSpanFor(Some((HOUR, HOUR)), HOUR, 2 * HOUR);
    var r := Row(2 * HOUR, 200, 7, 1);
    var rows := [r];
    assert s == Span(HOUR, 2 * HOUR, HOUR, 2 * HOUR);
    assert rows[..0] == [];
    assert Select(rows, (ts: nat) => s.from <= ts <= s.to) == [r];
    SelectNone(rows, (ts: nat) => InEdge(s, 0, ts));
    SelectNone(rows, (ts: nat) => InEdge(s, 1, ts));
    TotalOfOneMore([], r, EVERY, SIZE);
    assert [] + [r] == [r];
  }

  /** A concrete row of status 600: the direct pass counts it as 5xx, the stitched one not at all. */
  lemma StatusBeyondClassesIsLost()
    ensures var s := Span(HOUR, 3 * HOUR, HOUR, 2 * HOUR);
            var rows := [Row(2 * HOUR, 600, 7, 1)];
            && WellSplit(s) && ExactRollup([], rows, s) && s.closedTo < s.to
            && DirectCount(Window(rows, s), HOUR, 2 * HOUR, 5) == 1
            && BucketAt(Stitched(rows, [], s, HOUR), 2 * HOUR).Count(5) == 0
            && !SeriesAgree(rows, [], s, HOUR)
  {
    var s, r := Span(HOUR, 3 * HOUR, HOUR, 2 * HOUR), Row(2 * HOUR, 600, 7, 1);
    var rows := [r];
    assert rows[..0] == [];
    assert Select(rows, (ts: nat) => s.from <= ts <= s.to) == [r];
    SelectNone(rows, (ts: nat) => Forgotten(s, ts));
    var a := Stitched(rows, [], s, HOUR);
    StitchingRefinesDirectPass(rows, [], s, 1, 2 * HOUR, 5, 1);
    hide Stitched, ExactRollup;
    assert Lost(rows, s) == [];
    assert Counted(5) && BucketAt(a, 2 * HOUR).Count(5) != DirectCount(Window(rows, s), HOUR, 2 * HOUR, 5);
  }
}
