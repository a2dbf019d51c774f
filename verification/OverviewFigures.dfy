/** The request figures of the overview: the rollup of the closed hours plus the
    rows of the edges, against a direct pass over the rows of the window. */
module OverviewFigures {
  import opened Basics
  import opened Rollup
  import opened Stitch

  datatype Figures = Figures(total: int, errors: int, blocked: int)

  const FIFTH: Key -> bool := (k: Key) => k.statusClass == 5
  const ERROR: Row -> int := (r: Row) => AsCount(r.status >= 500)
  const BEYOND: Row -> int := (r: Row) => AsCount(r.status >= 600)

  function RowFigures(rows: seq<Row>): Figures {
    Figures(Total(rows, EVERY, ONE), Total(rows, EVERY, ERROR), Total(rows, EVERY, REFUSAL))
  }

  function HourFigures(hours: seq<HourRow>): Figures {
    Figures(HoursTotal(hours, EVERY, REQUESTS), HoursTotal(hours, FIFTH, REQUESTS), HoursTotal(hours, EVERY, REFUSED))
  }

  function Sum(a: Figures, b: Figures): Figures {
    Figures(a.total + b.total, a.errors + b.errors, a.blocked + b.blocked)
  }

  function Overview(rows: seq<Row>, hours: seq<HourRow>, s: Span): Figures {
    Sum(Sum(if s.HasClosed() then HourFigures(hours) else Figures(0, 0, 0), RowFigures(EdgeRows(rows, s, 0))),
        RowFigures(EdgeRows(rows, s, 1)))
  }

  /** One edge's query: the three aggregates in one pass over its rows. */
  method AddEdge(before: Figures, rows: seq<Row>) returns (after: Figures)
    ensures after == Sum(before, RowFigures(rows))
  {
    after := before;
    for i := 0 to |rows|
      invariant after == Sum(before, RowFigures(rows[..i]))
    {
      assert rows[..i + 1][..i] == rows[..i];
      var st := rows[i].status;
      after := Figures(after.total + 1, if st >= 500 then after.errors + 1 else after.errors,
                       if st == 403 || st == 429 then after.blocked + 1 else after.blocked);
    }
    assert rows[..|rows|] == rows;
  }

  method ReadOverview(rows: seq<Row>, hours: seq<HourRow>, s: Span) returns (f: Figures)
    ensures f == Overview(rows, hours, s)
  {
    f := Figures(0, 0, 0);
    if s.HasClosed() {
      for i := 0 to |hours|
        invariant f == HourFigures(hours[..i])
      {
        assert hours[..i + 1][..i] == hours[..i];
        var h := hours[i];
        f := Figures(f.total + h.requests, if h.key.statusClass == 5 then f.errors + h.requests else f.errors,
                     f.blocked + h.refused);
      }
      assert hours[..|hours|] == hours;
    }
    f := AddEdge(f, EdgeRows(rows, s, 0));
    f := AddEdge(f, EdgeRows(rows, s, 1));
  }

  // ----- against the direct pass -----

  /** A span as RollupSpanFor makes it for a window that is not a single moment. */
  ghost predicate SplitOrWhole(s: Span) {
    s.from < s.to && (WellSplit(s) || s.from == s.closedFrom == s.closedTo)
  }

  lemma SpanSplitsOrNot(held: Option<(nat, nat)>, from: nat, to: nat)
    requires held.Some? ==> held.value.0 % HOUR == 0 && held.value.1 % HOUR == 0
    requires from < to
    ensures SplitOrWhole(RollupSpanFor(held, from, to))
  {
    SpanIsWellSplit(held, from, to);
  }

  function Closed(rows: seq<Row>, s: Span): seq<Row> {
    Select(rows, (ts: nat) => InClosed(s, ts))
  }

  lemma WindowAddsUp(rows: seq<Row>, s: Span, w: Row -> int)
    requires SplitOrWhole(s)
    ensures Total(Closed(rows, s), EVERY, w) + Total(EdgeRows(rows, s, 0), EVERY, w)
          + Total(EdgeRows(rows, s, 1), EVERY, w) + Total(Lost(rows, s), EVERY, w) == Total(Window(rows, s), EVERY, w)
  {
    if WellSplit(s) {
      WindowTotal(rows, s, EVERY, w);
    } else {
      TotalsAddUp(rows, (ts: nat) => InClosed(s, ts), (ts: nat) => InEdge(s, 0, ts), (ts: nat) => InEdge(s, 1, ts),
                  (ts: nat) => Forgotten(s, ts), (ts: nat) => s.from <= ts <= s.to, EVERY, w);
    }
  }

  lemma {:induction false} ErrorsSplit(rows: seq<Row>)
    ensures Total(rows, EVERY, ERROR) == Total(rows, FIFTH, ONE) + Total(rows, EVERY, BEYOND)
  {
    if rows != [] {
      ErrorsSplit(rows[..|rows| - 1]);
      assert Class(rows[|rows| - 1].status) == 5 <==> 500 <= rows[|rows| - 1].status < 600;
    }
  }

  /** The overview counts every request of the window once, short of those at the
      forgotten moment; its errors miss statuses from 600 on in closed hours. */
  lemma OverviewRefinesDirectPass(rows: seq<Row>, hours: seq<HourRow>, s: Span)
    requires SplitOrWhole(s) && (s.HasClosed() ==> ExactRollup(hours, rows, s))
    ensures var f, direct, lost := Overview(rows, hours, s), RowFigures(Window(rows, s)), RowFigures(Lost(rows, s));
            && f.total + lost.total == direct.total
            && f.blocked + lost.blocked == direct.blocked
            && f.errors + lost.errors + Total(Closed(rows, s), EVERY, BEYOND) == direct.errors
  {
    WindowAddsUp(rows, s, ONE);
    WindowAddsUp(rows, s, ERROR);
    WindowAddsUp(rows, s, REFUSAL);
    ErrorsSplit(Closed(rows, s));
    if s.HasClosed() {
      ClosedHoursTotal(hours, rows, s, EVERY, ONE, REQUESTS);
      ClosedHoursTotal(hours, rows, s, FIFTH, ONE, REQUESTS);
      ClosedHoursTotal(hours, rows, s, EVERY, REFUSAL, REFUSED);
    } else {
      SelectNone(rows, (ts: nat) => InClosed(s, ts));
    }
  }

  lemma {:induction false} CountsAre(rows: seq<Row>, w: Row -> int)
    requires forall r :: 0 <= w(r) <= 1
    ensures Total(rows, EVERY, w) >= 0
    ensures Total(rows, EVERY, w) > 0 <==> exists r :: r in rows && w(r) == 1
  {
    if rows != [] {
      var init, last := rows[..|rows| - 1], rows[|rows| - 1];
      CountsAre(init, w);
      assert rows == init + [last];
    }
  }

  lemma LostRows(rows: seq<Row>, s: Span)
    ensures RowFigures(Lost(rows, s)).total > 0 <==> exists r :: r in rows && Forgotten(s, r.ts)
    ensures RowFigures(Lost(rows, s)).total >= 0
    ensures RowFigures(Lost(rows, s)).total == 0 ==> RowFigures(Lost(rows, s)) == Figures(0, 0, 0)
  {
    var lost := Lost(rows, s);
    SelectedRows(rows, (ts: nat) => Forgotten(s, ts));
    CountsAre(lost, ONE);
    if lost != [] {
      assert lost[0] in lost;
    }
    hide Select;
  }

  lemma BeyondRows(rows: seq<Row>, s: Span)
    ensures Total(Closed(rows, s), EVERY, BEYOND) >= 0
    ensures Total(Closed(rows, s), EVERY, BEYOND) > 0 <==> exists r :: r in rows && InClosed(s, r.ts) && r.status >= 600
  {
    SelectedRows(rows, (ts: nat) => InClosed(s, ts));
    CountsAre(Closed(rows, s), BEYOND);
    hide Total, Select;
  }

  /** All three figures are those of the direct pass exactly when no row sits at
      the forgotten moment and no row of the closed hours has a status of 600 or more. */
  lemma OverviewIsExactIff(rows: seq<Row>, hours: seq<HourRow>, s: Span)
    requires SplitOrWhole(s) && (s.HasClosed() ==> ExactRollup(hours, rows, s))
    ensures Overview(rows, hours, s) == RowFigures(Window(rows, s))
            <==> forall r :: r in rows ==> !Forgotten(s, r.ts) && !(InClosed(s, r.ts) && r.status >= 600)
  {
    hide *;
    OverviewRefinesDirectPass(rows, hours, s);
    LostRows(rows, s);
    BeyondRows(rows, s);
  }
}
