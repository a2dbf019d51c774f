/** The span of a query against what the rollup holds: the closed hours are just
    the whole hours of the window that it holds, and reading them is exact. */
module RollupReads {
  import opened Basics
  import opened Rollup
  import opened Stitch
  import opened OverviewFigures
  import Tallies

  /** An hour that lies wholly in the window and is one of those held. */
  predicate HeldInside(oldest: nat, newest: nat, from: nat, to: nat, hour: nat) {
    hour % HOUR == 0 && oldest <= hour <= newest && from <= hour && hour + HOUR <= to
  }

  lemma FirstWholeHour(t: nat, hour: nat)
    requires hour % HOUR == 0
    ensures t <= hour <==> CeilHour(t) <= hour
    ensures hour <= t <==> hour <= Trunc(t, HOUR)
  {
    HourBoundary(t, hour);
    DivisionBounds(t, HOUR);
    if Trunc(t, HOUR) != t && t <= hour {
      NextHour(t, hour);
    }
  }

  lemma NextHour(t: nat, hour: nat)
    requires hour % HOUR == 0 && t <= hour && Trunc(t, HOUR) != t
    ensures Trunc(t, HOUR) + HOUR <= hour
  {
  }

  function Least(a: nat, b: nat): nat {
    if a < b then a else b
  }

  function Greatest(a: nat, b: nat): nat {
    if a < b then b else a
  }

  /** A whole hour lies between the bounds of the span exactly when it is held inside the window. */
  lemma HourBetween(oldest: nat, newest: nat, from: nat, to: nat, hour: nat)
    requires newest % HOUR == 0 && hour % HOUR == 0
    ensures Greatest(oldest, CeilHour(from)) <= hour < Least(newest + HOUR, Trunc(to, HOUR))
            <==> HeldInside(oldest, newest, from, to, hour)
  {
    var end := Trunc(to, HOUR);
    FirstWholeHour(from, hour);
    AlignedSum(hour);
    FirstWholeHour(to, hour + HOUR);
    TruncAligned(to);
    assert hour % HOUR == 0;
    HoursApart(hour, newest);
    HoursApart(hour, end - HOUR);
    BelowAligned(end);
    assert hour < end <==> hour + HOUR <= to;
    assert hour < newest + HOUR <==> hour <= newest;
    assert CeilHour(from) <= hour <==> from <= hour;
    hide *;
  }

  lemma BelowAligned(t: nat)
    requires t % HOUR == 0
    ensures (t - HOUR) % HOUR == 0
  {
  }

  lemma SpanBounds(oldest: nat, newest: nat, from: nat, to: nat)
    ensures var s := RollupSpanFor(Some((oldest, newest)), from, to);
            var a, b := Greatest(oldest, CeilHour(from)), Least(newest + HOUR, Trunc(to, HOUR));
            s == if a < b then Span(from, to, a, b) else Span(from, to, from, from)
  {
    DivisionBounds(to, HOUR);
    assert Trunc(to, HOUR) <= to;
    hide Trunc, CeilHour;
  }

  /** The closed hours of a span are exactly the held whole hours of its window;
      without any, the span has none and is one edge. */
  lemma ClosedHoursAreHeld(oldest: nat, newest: nat, from: nat, to: nat, hour: nat)
    requires newest % HOUR == 0 && hour % HOUR == 0
    ensures var s := RollupSpanFor(Some((oldest, newest)), from, to);
            && s.from == from && s.to == to
            && (s.HasClosed() && InClosed(s, hour) <==> HeldInside(oldest, newest, from, to, hour))
            && (s.HasClosed() ==> oldest <= s.closedFrom && s.closedTo <= newest + HOUR)
            && (!s.HasClosed() ==> s.closedFrom == s.closedTo == from)
  {
    SpanBounds(oldest, newest, from, to);
    HourBetween(oldest, newest, from, to, hour);
    hide RollupSpanFor, HeldInside, Trunc, CeilHour;
  }

  lemma HoursApart(a: int, b: int)
    requires a % HOUR == 0 && b % HOUR == 0
    ensures a < b + HOUR <==> a <= b
  {
  }

  /** Nothing held, nothing closed. */
  lemma EmptyRollupClosesNothing(from: nat, to: nat)
    ensures RollupSpanFor(None, from, to) == Span(from, to, from, from)
  {
  }

  // ----- reading the closed hours -----

  /** What the fill job promises: exact groups for every row of the hours from
      the oldest to the newest, each once. */
  ghost predicate Filled(hours: seq<HourRow>, rows: seq<Row>, oldest: nat, newest: nat) {
    && Distinct(hours)
    && (forall h :: h in hours ==> h.key.hour % HOUR == 0 && oldest <= h.key.hour <= newest)
    && (forall r :: r in rows && oldest <= r.ts < newest + HOUR ==> HasKey(hours, KeyOf(r)))
    && CellsExact(hours, rows, (h: HourRow) => h.requests, (r: Row) => 1)
    && CellsExact(hours, rows, (h: HourRow) => h.bytes, (r: Row) => r.size)
    && CellsExact(hours, rows, REFUSED, REFUSAL)
  }

  /** ReadRollupHours over [from, to). */
  function ReadHours(hours: seq<HourRow>, from: nat, to: nat): seq<HourRow> {
    if hours == [] then []
    else
      var last := hours[|hours| - 1];
      ReadHours(hours[..|hours| - 1], from, to) + if from <= last.key.hour < to then [last] else []
  }

  lemma {:induction false} ReadRows(hours: seq<HourRow>, from: nat, to: nat)
    ensures forall h :: h in ReadHours(hours, from, to) <==> h in hours && from <= h.key.hour < to
    ensures Distinct(hours) ==> Distinct(ReadHours(hours, from, to))
  {
    if hours != [] {
      var init, last := hours[..|hours| - 1], hours[|hours| - 1];
      ReadRows(init, from, to);
      assert hours == init + [last];
      var picked := ReadHours(init, from, to);
      if Distinct(hours) {
        forall i | 0 <= i < |picked|
          ensures picked[i].key != last.key
        {
          assert picked[i] in init;
          var j :| 0 <= j < |init| && init[j] == picked[i];
          assert hours[j].key != hours[|hours| - 1].key;
        }
      }
    }
  }

  lemma ReadCells(hours: seq<HourRow>, rows: seq<Row>, from: nat, to: nat, f: HourRow -> int, w: Row -> int)
    requires CellsExact(hours, rows, f, w)
    ensures CellsExact(ReadHours(hours, from, to), rows, f, w)
  {
    ReadRows(hours, from, to);
    hide ReadHours, GroupTotal;
  }

  /** Reading the closed hours of the span out of a filled rollup is exact. */
  lemma ReadingIsExact(hours: seq<HourRow>, rows: seq<Row>, oldest: nat, newest: nat, from: nat, to: nat)
    requires oldest % HOUR == 0 && newest % HOUR == 0 && Filled(hours, rows, oldest, newest)
    ensures var s := RollupSpanFor(Some((oldest, newest)), from, to);
            s.HasClosed() ==> WellSplit(s) && ExactRollup(ReadHours(hours, s.closedFrom, s.closedTo), rows, s)
  {
    var s := RollupSpanFor(Some((oldest, newest)), from, to);
    ClosedHoursAreHeld(oldest, newest, from, to, 0);
    SpanIsWellSplit(Some((oldest, newest)), from, to);
    if s.HasClosed() {
      var read := ReadHours(hours, s.closedFrom, s.closedTo);
      ReadRows(hours, s.closedFrom, s.closedTo);
      ReadCells(hours, rows, s.closedFrom, s.closedTo, (h: HourRow) => h.requests, (r: Row) => 1);
      ReadCells(hours, rows, s.closedFrom, s.closedTo, (h: HourRow) => h.bytes, (r: Row) => r.size);
      ReadCells(hours, rows, s.closedFrom, s.closedTo, REFUSED, REFUSAL);
      hide ReadHours, CellsExact, RollupSpanFor, Trunc;
      forall r | r in rows && InClosed(s, r.ts)
        ensures HasKey(read, KeyOf(r))
      {
        HourStaysInside(s, r.ts);
        var h :| h in hours && h.key == KeyOf(r);
        assert h in read;
      }
    }
  }

  /** From a filled rollup to the query's answer: with statuses below 600 and a
      window that does not end on its closed hours, the stitched result is that
      of all rows in the window. */
  lemma FilledRollupStitchesExactly(
      hours: seq<HourRow>, rows: seq<Row>, oldest: nat, newest: nat, from: nat, to: nat, m: nat, key: nat, c: int,
          host: int)
    requires oldest % HOUR == 0 && newest % HOUR == 0 && Filled(hours, rows, oldest, newest)
    requires RollupSpanFor(Some((oldest, newest)), from, to).HasClosed()
    requires 0 < m && Counted(c) && 0 < host
    requires RollupSpanFor(Some((oldest, newest)), from, to).closedTo < to && forall r :: r in rows ==> r.status < 600
    ensures var s := RollupSpanFor(Some((oldest, newest)), from, to);
            var g := m * HOUR; 0 < g && var a := Stitched(rows, ReadHours(hours, s.closedFrom, s.closedTo), s, g);
            && BucketAt(a, key).Count(c) == DirectCount(Window(rows, s), g, key, c)
            && HostCount(a, host) == Total(Window(rows, s), OfHost(host), ONE)
            && a.bytes == Total(Window(rows, s), EVERY, SIZE)
  {
    var s := RollupSpanFor(Some((oldest, newest)), from, to);
    ReadingIsExact(hours, rows, oldest, newest, from, to);
    ClosedHoursAreHeld(oldest, newest, from, to, 0);
    hide RollupSpanFor, Stitched, ReadHours, ExactRollup, WellSplit, Filled;
    StitchingIsExact(rows, ReadHours(hours, s.closedFrom, s.closedTo), s, m, key, c, host);
  }

  /** And to the overview: exact but for the two kinds of rows. */
  lemma FilledRollupOverviewIff(hours: seq<HourRow>, rows: seq<Row>, oldest: nat, newest: nat, from: nat, to: nat)
    requires oldest % HOUR == 0 && newest % HOUR == 0 && Filled(hours, rows, oldest, newest) && from < to
    ensures var s := RollupSpanFor(Some((oldest, newest)), from, to);
            Overview(rows, ReadHours(hours, s.closedFrom, s.closedTo), s) == RowFigures(Window(rows, s))
            <==> forall r :: r in rows ==> !Forgotten(s, r.ts) && !(InClosed(s, r.ts) && r.status >= 600)
  {
    var s := RollupSpanFor(Some((oldest, newest)), from, to);
    ReadingIsExact(hours, rows, oldest, newest, from, to);
    SpanSplitsOrNot(Some((oldest, newest)), from, to);
    hide RollupSpanFor, Overview, ReadHours, ExactRollup, WellSplit, Filled;
    OverviewIsExactIff(rows, ReadHours(hours, s.closedFrom, s.closedTo), s);
  }

  // ----- what the direct pass counts -----

  predicate Within(s: Span, r: Row) {
    s.from <= r.ts <= s.to
  }

  lemma {:induction false} SelectedCount(
      rows: seq<Row>, when: nat -> bool, p: Key -> bool, w: Row -> int, q: Row -> bool)
    requires forall r: Row :: when(r.ts) && p(KeyOf(r)) ==> w(r) == AsCount(q(r))
    requires forall r: Row :: q(r) ==> when(r.ts) && p(KeyOf(r))
    ensures Total(Select(rows, when), p, w) == Tallies.Count(rows, q)
  {
    if rows != [] {
      var init, r := rows[..|rows| - 1], rows[|rows| - 1];
      assert rows == init + [r];
      SelectedCount(init, when, p, w, q);
      SelectOneMore(init, r, when, p, w);
      Tallies.CountOneMore(init, r, q);
    }
  }

  /** The direct figures: requests of the window, those with status 500 or more,
      and those refused with 403 or 429. */
  lemma FiguresNamed(rows: seq<Row>, s: Span)
    ensures RowFigures(Window(rows, s))
         == Figures(Tallies.Count(rows, (r: Row) => Within(s, r)),
                    Tallies.Count(rows, (r: Row) => Within(s, r) && r.status >= 500),
                    Tallies.Count(rows, (r: Row) => Within(s, r) && (r.status == 403 || r.status == 429)))
  {
    var when := (ts: nat) => s.from <= ts <= s.to;
    SelectedCount(rows, when, EVERY, ONE, (r: Row) => Within(s, r));
    SelectedCount(rows, when, EVERY, ERROR, (r: Row) => Within(s, r) && r.status >= 500);
    SelectedCount(rows, when, EVERY, REFUSAL, (r: Row) => Within(s, r) && (r.status == 403 || r.status == 429));
  }

  predicate InBar(r: Row, start: nat, g: nat, c: int) {
    && start <= r.ts < start + g
    && c * 100 <= r.status && (c == 5 || r.status < c * 100 + 100)
  }

  /** The direct series: a bucket counts the rows of its stretch of time with a
      status of the class, the last class open at the top. */
  lemma {:induction false} DirectNamed(rows: seq<Row>, s: Span, g: nat, k: nat, c: int)
    requires 0 < g
    ensures DirectCount(Window(rows, s), g, k * g, c)
         == Tallies.Count(rows, (r: Row) => Within(s, r) && InBar(r, k * g, g, c))
  {
    var q := (r: Row) => Within(s, r) && InBar(r, k * g, g, c);
    if rows != [] {
      var init, r := rows[..|rows| - 1], rows[|rows| - 1];
      DirectNamed(init, s, g, k, c);
      assert rows == init + [r];
      SelectLast(init, r, (ts: nat) => s.from <= ts <= s.to);
      Tallies.CountOneMore(init, r, q);
      BucketNamed(r.ts, g, k);
      if Within(s, r) {
        assert (Window(init, s) + [r])[..|Window(init, s)|] == Window(init, s);
        assert DirectCount(Window(init, s) + [r], g, k * g, c)
            == DirectCount(Window(init, s), g, k * g, c) + AsCount(InBar(r, k * g, g, c));
      } else {
        assert Window(init, s) + [] == Window(init, s);
      }
      hide Select, Trunc, Tallies.Count;
    }
  }

  lemma BucketNamed(ts: nat, g: nat, k: nat)
    requires 0 < g
    ensures Trunc(ts, g) == k * g <==> k * g <= ts < k * g + g
  {
    DivisionBounds(ts, g);
    if k * g <= ts < k * g + g {
      TruncIsUnique(ts, g, k);
    }
  }

  /** The direct host count: the rows of the host in the window. */
  lemma HostNamed(rows: seq<Row>, s: Span, host: int)
    ensures Total(Window(rows, s), OfHost(host), ONE) == Tallies.Count(rows, (r: Row) => Within(s, r) && r.host == host)
  {
    SelectedCount(rows, (ts: nat) => s.from <= ts <= s.to, OfHost(host), ONE,
                  (r: Row) => Within(s, r) && r.host == host);
  }
}
