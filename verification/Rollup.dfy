/** The hourly rollup of the access log and the split of a window into closed
    hours, served from the rollup, and edges, served from the rows. Times are
    nanoseconds since the zero time; every row is an access row. */
module Rollup {
  import opened Basics

  const HOUR: nat := 3600 * 1_000_000_000

  /** time.Time.Truncate */
  function Trunc(t: nat, g: nat): (r: nat)
    requires 0 < g
    ensures r <= t < r + g
  {
    DivisionBounds(t, g);
    t / g * g
  }

  lemma DivisionBounds(t: nat, g: nat)
    requires 0 < g
    ensures 0 <= t / g * g <= t < t / g * g + g
  {
  }

  lemma MultiplesInOrder(a: nat, b: nat, g: nat)
    requires a <= b
    ensures a * g <= b * g
  {
  }

  /** The multiple of `g` within `g` below `t` is the truncation of `t`. */
  lemma TruncIsUnique(t: nat, g: nat, q: nat)
    requires 0 < g && q * g <= t < q * g + g
    ensures Trunc(t, g) == q * g
  {
    DivisionBounds(t, g);
    var d := t / g;
    assert (d + 1) * g == d * g + g && (q + 1) * g == q * g + g;
    if d < q {
      MultiplesInOrder(d + 1, q, g);
    } else if q < d {
      MultiplesInOrder(q + 1, d, g);
    }
  }

  datatype Row = Row(ts: nat, status: int, size: int, host: int)

  /** The status class the rollup and the stitched rows group by. */
  function Class(status: int): int {
    if status >= 100 then status / 100 else 0
  }

  datatype Key = Key(hour: nat, host: int, statusClass: int)

  function KeyOf(r: Row): Key {
    Key(Trunc(r.ts, HOUR), r.host, Class(r.status))
  }

  /** One log_hourly row; `refused` is its forbidden plus rate-limited count. */
  datatype HourRow = HourRow(key: Key, requests: int, bytes: int, refused: int)

  datatype Span = Span(from: nat, to: nat, closedFrom: nat, closedTo: nat) {
    predicate HasClosed() {
      closedFrom < closedTo
    }
  }

  datatype Edge = Edge(from: nat, to: nat, inclusive: bool) {
    predicate Holds(ts: nat) {
      from <= ts && (if inclusive then ts <= to else ts < to)
    }
  }

  function CeilHour(t: nat): nat {
    if Trunc(t, HOUR) == t then t else Trunc(t, HOUR) + HOUR
  }

  /** `held` is the oldest and the newest hour of the rollup, if it has any. */
  function RollupSpanFor(held: Option<(nat, nat)>, from: nat, to: nat): Span {
    match held
    case None => Span(from, to, from, from)
    case Some((oldest, newest)) =>
      var cf := if CeilHour(from) < oldest then oldest else CeilHour(from);
      var ct0 := if newest + HOUR < Trunc(to, HOUR) then newest + HOUR else Trunc(to, HOUR);
      var ct := if ct0 > to then to else ct0;
      if cf < ct then Span(from, to, cf, ct) else Span(from, to, from, from)
  }

  function Edges(s: Span): seq<Edge> {
    (if s.from < s.closedFrom then [Edge(s.from, s.closedFrom, false)] else [])
    + (if s.closedTo < s.to then [Edge(s.closedTo, s.to, true)] else [])
  }

  predicate InClosed(s: Span, ts: nat) {
    s.closedFrom <= ts < s.closedTo
  }

  /** The moment the split forgets: the very end of a window that ends on a closed hour. */
  predicate Forgotten(s: Span, ts: nat) {
    ts == s.to == s.closedTo
  }

  /** A span with closed hours is hour-aligned inside and lies in its window. */
  ghost predicate WellSplit(s: Span) {
    && s.HasClosed()
    && s.from <= s.closedFrom && s.closedTo <= s.to
    && s.closedFrom % HOUR == 0 && s.closedTo % HOUR == 0
  }

  lemma AlignedSum(t: nat)
    requires t % HOUR == 0
    ensures (t + HOUR) % HOUR == 0
  {
  }

  lemma SpanIsWellSplit(held: Option<(nat, nat)>, from: nat, to: nat)
    requires held.Some? ==> held.value.0 % HOUR == 0 && held.value.1 % HOUR == 0
    ensures RollupSpanFor(held, from, to).HasClosed() ==> WellSplit(RollupSpanFor(held, from, to))
  {
    CeilAligned(from);
    TruncAligned(to);
    if held.Some? {
      AlignedSum(held.value.1);
    }
    hide Trunc, CeilHour;
  }

  lemma CeilAligned(t: nat)
    ensures CeilHour(t) % HOUR == 0 && t <= CeilHour(t)
  {
    TruncAligned(t);
    AlignedSum(Trunc(t, HOUR));
  }

  lemma TruncAligned(t: nat)
    ensures Trunc(t, HOUR) % HOUR == 0 && Trunc(t, HOUR) <= t < Trunc(t, HOUR) + HOUR
  {
    DivisionBounds(t, HOUR);
  }

  /** Closed hours and edges cover the window [from, to] without overlap, except
      that a window ending exactly where its closed hours end loses its last moment. */
  lemma SplitPartitionsWindow(s: Span, ts: nat)
    requires WellSplit(s)
    ensures AsCount(InClosed(s, ts)) + AsCount(InEdge(s, 0, ts)) + AsCount(InEdge(s, 1, ts)) + AsCount(Forgotten(s, ts))
         == AsCount(s.from <= ts <= s.to)
  {
  }

  predicate InEdge(s: Span, i: nat, ts: nat) {
    i < |Edges(s)| && Edges(s)[i].Holds(ts)
  }

  function AsCount(b: bool): int {
    if b then 1 else 0
  }

  // ----- sums over rows and over rollup rows -----

  /** The weight of the rows whose key satisfies `p`. */
  function Total(rows: seq<Row>, p: Key -> bool, w: Row -> int): int {
    if rows == [] then 0
    else
      var r := rows[|rows| - 1];
      Total(rows[..|rows| - 1], p, w) + if p(KeyOf(r)) then w(r) else 0
  }

  /** The weight of the rows of one group. */
  function GroupTotal(rows: seq<Row>, k: Key, w: Row -> int): int {
    if rows == [] then 0
    else
      var r := rows[|rows| - 1];
      GroupTotal(rows[..|rows| - 1], k, w) + if KeyOf(r) == k then w(r) else 0
  }

  /** The cell `f` of the rollup rows whose key satisfies `p`, added up. */
  function HoursTotal(hours: seq<HourRow>, p: Key -> bool, f: HourRow -> int): int {
    if hours == [] then 0
    else
      var h := hours[|hours| - 1];
      HoursTotal(hours[..|hours| - 1], p, f) + if p(h.key) then f(h) else 0
  }

  predicate Distinct(hours: seq<HourRow>) {
    forall i, j :: 0 <= i < j < |hours| ==> hours[i].key != hours[j].key
  }

  ghost predicate HasKey(hours: seq<HourRow>, k: Key) {
    exists h :: h in hours && h.key == k
  }

  /** The cell `f` of every rollup row is the weight of its group in `rows`. */
  ghost predicate CellsExact(hours: seq<HourRow>, rows: seq<Row>, f: HourRow -> int, w: Row -> int) {
    forall h :: h in hours ==> f(h) == GroupTotal(rows, h.key, w)
  }

  lemma {:induction false} OneMoreRow(
      hours: seq<HourRow>, rows: seq<Row>, r: Row, p: Key -> bool, w: Row -> int, f: HourRow -> int, g: HourRow -> int)
    requires Distinct(hours)
    requires CellsExact(hours, rows, f, w) && CellsExact(hours, rows + [r], g, w)
    ensures HoursTotal(hours, p, g)
         == HoursTotal(hours, p, f) + if HasKey(hours, KeyOf(r)) && p(KeyOf(r)) then w(r) else 0
  {
    if hours != [] {
      var init, h := hours[..|hours| - 1], hours[|hours| - 1];
      OneMoreRow(init, rows, r, p, w, f, g);
      assert h in hours;
      assert (rows + [r])[..|rows|] == rows;
      assert g(h) == f(h) + if KeyOf(r) == h.key then w(r) else 0;
      assert HasKey(hours, KeyOf(r)) <==> HasKey(init, KeyOf(r)) || h.key == KeyOf(r);
      assert !HasKey(init, h.key);
    }
  }

  lemma NoRowsNoTotal(hours: seq<HourRow>, p: Key -> bool, f: HourRow -> int)
    requires forall h :: h in hours ==> f(h) == 0
    ensures HoursTotal(hours, p, f) == 0
  {
  }

  /** Regrouping: exact rollup rows with different keys that cover every row add
      up to the same total as the rows themselves. */
  lemma {:induction false} RegroupedTotal(
      hours: seq<HourRow>, rows: seq<Row>, p: Key -> bool, w: Row -> int, f: HourRow -> int)
    requires Distinct(hours) && CellsExact(hours, rows, f, w)
    requires forall r :: r in rows ==> HasKey(hours, KeyOf(r))
    ensures HoursTotal(hours, p, f) == Total(rows, p, w)
  {
    if rows == [] {
      NoRowsNoTotal(hours, p, f);
    } else {
      var init, r := rows[..|rows| - 1], rows[|rows| - 1];
      var before := (h: HourRow) => GroupTotal(init, h.key, w);
      RegroupedTotal(hours, init, p, w, before);
      assert init + [r] == rows;
      OneMoreRow(hours, init, r, p, w, before, f);
    }
  }

  // ----- selecting rows by time -----

  function Select(rows: seq<Row>, when: nat -> bool): seq<Row> {
    if rows == [] then []
    else
      var r := rows[|rows| - 1];
      Select(rows[..|rows| - 1], when) + if when(r.ts) then [r] else []
  }

  lemma {:induction false} SelectedRows(rows: seq<Row>, when: nat -> bool)
    ensures forall r :: r in Select(rows, when) <==> r in rows && when(r.ts)
  {
    if rows != [] {
      var init, r := rows[..|rows| - 1], rows[|rows| - 1];
      SelectedRows(init, when);
      assert init + [r] == rows;
    }
  }

  lemma TotalOfOneMore(rows: seq<Row>, r: Row, p: Key -> bool, w: Row -> int)
    ensures Total(rows + [r], p, w) == Total(rows, p, w) + if p(KeyOf(r)) then w(r) else 0
  {
    assert (rows + [r])[..|rows|] == rows;
  }

  lemma SelectOneMore(rows: seq<Row>, r: Row, when: nat -> bool, p: Key -> bool, w: Row -> int)
    ensures Total(Select(rows + [r], when), p, w)
         == Total(Select(rows, when), p, w) + if when(r.ts) && p(KeyOf(r)) then w(r) else 0
  {
    assert (rows + [r])[..|rows|] == rows;
    TotalOfOneMore(Select(rows, when), r, p, w);
    assert Select(rows, when) + [] == Select(rows, when);
  }

  /** Four selections that together take each moment as often as one selection does. */
  lemma {:induction false} TotalsAddUp(
      rows: seq<Row>, a: nat -> bool, b: nat -> bool, c: nat -> bool, d: nat -> bool, all: nat -> bool,
      p: Key -> bool, w: Row -> int)
    requires forall ts :: AsCount(a(ts)) + AsCount(b(ts)) + AsCount(c(ts)) + AsCount(d(ts)) == AsCount(all(ts))
    ensures Total(Select(rows, a), p, w) + Total(Select(rows, b), p, w) + Total(Select(rows, c), p, w)
          + Total(Select(rows, d), p, w) == Total(Select(rows, all), p, w)
  {
    if rows != [] {
      var init, r := rows[..|rows| - 1], rows[|rows| - 1];
      TotalsAddUp(init, a, b, c, d, all, p, w);
      assert rows == init + [r];
      hide Total, Select;
      SelectOneMore(init, r, a, p, w);
      SelectOneMore(init, r, b, p, w);
      SelectOneMore(init, r, c, p, w);
      SelectOneMore(init, r, d, p, w);
      SelectOneMore(init, r, all, p, w);
      assert AsCount(a(r.ts)) + AsCount(b(r.ts)) + AsCount(c(r.ts)) + AsCount(d(r.ts)) == AsCount(all(r.ts));
    }
  }

  lemma GroupOneMore(rows: seq<Row>, r: Row, k: Key, w: Row -> int)
    ensures GroupTotal(rows + [r], k, w) == GroupTotal(rows, k, w) + if KeyOf(r) == k then w(r) else 0
  {
    assert (rows + [r])[..|rows|] == rows;
  }

  lemma SelectLast(rows: seq<Row>, r: Row, when: nat -> bool)
    ensures Select(rows + [r], when) == Select(rows, when) + if when(r.ts) then [r] else []
  {
    assert (rows + [r])[..|rows|] == rows;
  }

  /** Selecting all rows of a group leaves its total alone. */
  lemma {:induction false} GroupSelected(rows: seq<Row>, when: nat -> bool, k: Key, w: Row -> int)
    requires forall r :: r in rows && KeyOf(r) == k ==> when(r.ts)
    ensures GroupTotal(rows, k, w) == GroupTotal(Select(rows, when), k, w)
  {
    if rows != [] {
      var init, r := rows[..|rows| - 1], rows[|rows| - 1];
      assert rows == init + [r];
      GroupSelected(init, when, k, w);
      hide GroupTotal, Select, KeyOf;
      GroupOneMore(init, r, k, w);
      SelectLast(init, r, when);
      if when(r.ts) {
        GroupOneMore(Select(init, when), r, k, w);
      } else {
        assert Select(init, when) + [] == Select(init, when);
      }
    }
  }

  /** A closed hour holds all rows of its groups. */
  lemma ClosedGroup(rows: seq<Row>, s: Span, k: Key, w: Row -> int)
    requires WellSplit(s) && k.hour % HOUR == 0 && InClosed(s, k.hour)
    ensures GroupTotal(rows, k, w) == GroupTotal(Select(rows, (ts: nat) => InClosed(s, ts)), k, w)
  {
    var when := (ts: nat) => InClosed(s, ts);
    forall r | r in rows && KeyOf(r) == k
      ensures when(r.ts)
    {
      HourStaysInside(s, r.ts);
    }
    GroupSelected(rows, when, k, w);
  }

  /** A moment lies in the closed hours exactly when its hour does. */
  lemma HourStaysInside(s: Span, ts: nat)
    requires WellSplit(s)
    ensures InClosed(s, ts) <==> InClosed(s, Trunc(ts, HOUR))
  {
    HourBoundary(ts, s.closedFrom);
    HourBoundary(ts, s.closedTo);
  }

  lemma HourBoundary(ts: nat, b: nat)
    requires b % HOUR == 0
    ensures ts < b <==> Trunc(ts, HOUR) < b
  {
  }

  const REFUSED: HourRow -> int := (h: HourRow) => h.refused
  const REFUSAL: Row -> int := (r: Row) => AsCount(r.status == 403 || r.status == 429)

  /** What the rollup table promises for a span: every row of the closed hours
      has its group there once, with exact counts, and nothing else is there. */
  ghost predicate ExactRollup(hours: seq<HourRow>, rows: seq<Row>, s: Span) {
    && Distinct(hours)
    && (forall h :: h in hours ==> h.key.hour % HOUR == 0 && InClosed(s, h.key.hour))
    && (forall r :: r in rows && InClosed(s, r.ts) ==> HasKey(hours, KeyOf(r)))
    && CellsExact(hours, rows, (h: HourRow) => h.requests, (r: Row) => 1)
    && CellsExact(hours, rows, (h: HourRow) => h.bytes, (r: Row) => r.size)
    && CellsExact(hours, rows, REFUSED, REFUSAL)
  }

  /** A cell of an exact rollup adds up to the rows of the closed hours. */
  lemma ClosedHoursTotal(hours: seq<HourRow>, rows: seq<Row>, s: Span, p: Key -> bool, w: Row -> int, f: HourRow -> int)
    requires WellSplit(s) && ExactRollup(hours, rows, s) && CellsExact(hours, rows, f, w)
    ensures HoursTotal(hours, p, f) == Total(Select(rows, (ts: nat) => InClosed(s, ts)), p, w)
  {
    var closed := Select(rows, (ts: nat) => InClosed(s, ts));
    SelectedRows(rows, (ts: nat) => InClosed(s, ts));
    forall h | h in hours
      ensures f(h) == GroupTotal(closed, h.key, w)
    {
      ClosedGroup(rows, s, h.key, w);
    }
    RegroupedTotal(hours, closed, p, w, f);
  }

  // ----- one host only -----

  function RowsOf(rows: seq<Row>, host: int): seq<Row> {
    if rows == [] then []
    else RowsOf(rows[..|rows| - 1], host) + if rows[|rows| - 1].host == host then [rows[|rows| - 1]] else []
  }

  function HoursOf(hours: seq<HourRow>, host: int): seq<HourRow> {
    if hours == [] then []
    else HoursOf(hours[..|hours| - 1], host) + if hours[|hours| - 1].key.host == host then [hours[|hours| - 1]] else []
  }

  lemma {:induction false} RowsOfHost(rows: seq<Row>, host: int)
    ensures forall r :: r in RowsOf(rows, host) <==> r in rows && r.host == host
  {
    if rows != [] {
      var init, r := rows[..|rows| - 1], rows[|rows| - 1];
      RowsOfHost(init, host);
      assert rows == init + [r];
    }
  }

  lemma {:induction false} GroupOfHost(rows: seq<Row>, host: int, k: Key, w: Row -> int)
    requires k.host == host
    ensures GroupTotal(RowsOf(rows, host), k, w) == GroupTotal(rows, k, w)
  {
    if rows != [] {
      var init, r := rows[..|rows| - 1], rows[|rows| - 1];
      GroupOfHost(init, host, k, w);
      assert rows == init + [r] && (KeyOf(r) == k ==> r.host == host);
      assert RowsOf(rows, host) == RowsOf(init, host) + if r.host == host then [r] else [];
      hide RowsOf, GroupTotal, KeyOf;
      GroupOneMore(init, r, k, w);
      if r.host == host {
        GroupOneMore(RowsOf(init, host), r, k, w);
      } else {
        assert RowsOf(init, host) + [] == RowsOf(init, host);
      }
    }
  }

  lemma {:induction false} HoursOfHost(hours: seq<HourRow>, host: int)
    ensures forall h :: h in HoursOf(hours, host) <==> h in hours && h.key.host == host
    ensures Distinct(hours) ==> Distinct(HoursOf(hours, host))
  {
    if hours != [] {
      var init, h := hours[..|hours| - 1], hours[|hours| - 1];
      HoursOfHost(init, host);
      assert hours == init + [h];
      var picked := HoursOf(init, host);
      if Distinct(hours) && h.key.host == host {
        forall i | 0 <= i < |picked|
          ensures picked[i].key != h.key
        {
          assert picked[i] in init;
          var j :| 0 <= j < |init| && init[j] == picked[i];
          assert hours[j].key != hours[|hours| - 1].key;
        }
      }
    }
  }

  lemma CellsOfHost(hours: seq<HourRow>, rows: seq<Row>, host: int, f: HourRow -> int, w: Row -> int)
    requires CellsExact(hours, rows, f, w)
    ensures CellsExact(HoursOf(hours, host), RowsOf(rows, host), f, w)
  {
    HoursOfHost(hours, host);
    forall h | h in HoursOf(hours, host)
      ensures f(h) == GroupTotal(RowsOf(rows, host), h.key, w)
    {
      GroupOfHost(rows, host, h.key, w);
    }
  }

  /** A rollup exact for all rows is exact for the rows of one host, so that
      everything said of exact rollups holds under a host filter. */
  lemma HostFilterStaysExact(hours: seq<HourRow>, rows: seq<Row>, s: Span, host: int)
    requires ExactRollup(hours, rows, s)
    ensures ExactRollup(HoursOf(hours, host), RowsOf(rows, host), s)
  {
    HoursOfHost(hours, host);
    RowsOfHost(rows, host);
    CellsOfHost(hours, rows, host, (h: HourRow) => h.requests, (r: Row) => 1);
    CellsOfHost(hours, rows, host, (h: HourRow) => h.bytes, (r: Row) => r.size);
    CellsOfHost(hours, rows, host, REFUSED, REFUSAL);
    hide CellsExact, Distinct;
    forall r | r in RowsOf(rows, host) && InClosed(s, r.ts)
      ensures HasKey(HoursOf(hours, host), KeyOf(r))
    {
      assert HasKey(hours, KeyOf(r));
      var h :| h in hours && h.key == KeyOf(r);
      assert h in HoursOf(hours, host);
    }
  }
}
