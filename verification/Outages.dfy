/** The two edge detectors: the CrowdSec monitor, which reports an outage at the
    third failed heartbeat and diffs the decisions, and the AppSec probe, which
    reports an outage on the edge from reachable to unreachable. */
module Outages {
  import opened Basics

  // ----- the CrowdSec monitor -----

  datatype Decision = Decision(id: int, origin: string)

  predicate NotifyPerDecision(origin: string) {
    Lower(TrimSpace(origin)) !in {"capi", "lists"}
  }

  datatype Summary = Updated(added: nat, removed: nat, total: nat)

  /** What one tick sends. */
  datatype Report = Report(down: Option<nat>, banned: set<int>, updated: Option<Summary>)

  const SILENT := Report(None, {}, None)

  /** What a tick meets: a failed heartbeat, or a good one with the decision
      list, None when there is no key or the list call fails. */
  datatype Poll = Failed | Beat(decisions: Option<seq<Decision>>)

  datatype State = State(prev: map<int, string>, streak: nat, reported: bool)

  /** The decisions by id, the last of an id winning. */
  function ById(ds: seq<Decision>): map<int, string> {
    if ds == [] then map[] else ById(ds[..|ds| - 1])[ds[|ds| - 1].id := ds[|ds| - 1].origin]
  }

  function NewIds(prev: map<int, string>, curr: map<int, string>): set<int> {
    curr.Keys - prev.Keys
  }

  function Diff(prev: map<int, string>, curr: map<int, string>): Report {
    if prev == map[] then SILENT
    else
      var added, removed := NewIds(prev, curr), NewIds(curr, prev);
      Report(None, set i | i in added && NotifyPerDecision(curr[i]),
             if added != {} || removed != {} then Some(Updated(|added|, |removed|, |curr|)) else None)
  }

  function Ticked(s: State, p: Poll): (State, Report) {
    match p
    case Failed =>
      var fires := s.streak + 1 >= 3 && !s.reported;
      (s.(streak := s.streak + 1, reported := s.reported || fires),
          SILENT.(down := if fires then Some(s.streak + 1) else None))
    case Beat(None) => (s.(streak := 0, reported := false), SILENT)
    case Beat(Some(ds)) => (State(ById(ds), 0, false), Diff(s.prev, ById(ds)))
  }

  class Monitor {
    var prev: map<int, string>
    var downStreak: nat
    var reportedDown: bool

    ghost function Contents(): State
      reads this
    {
      State(prev, downStreak, reportedDown)
    }

    constructor ()
      ensures Contents() == State(map[], 0, false)
    {
      prev, downStreak, reportedDown := map[], 0, false;
    }

    method Tick(p: Poll) returns (r: Report)
      modifies this
      ensures (Contents(), r) == Ticked(old(Contents()), p)
    {
      r := SILENT;
      if p.Failed? {
        downStreak := downStreak + 1;
        if downStreak >= 3 && !reportedDown {
          r := r.(down := Some(downStreak));
          reportedDown := true;
        }
        return;
      }
      downStreak, reportedDown := 0, false;
      if p.decisions.None? {
        return;
      }
      var curr := map[];
      var ds := p.decisions.value;
      for k := 0 to |ds|
        invariant curr == ById(ds[..k])
        invariant Contents() == State(old(prev), 0, false)
      {
        assert ds[..k + 1][..k] == ds[..k];
        curr := curr[ds[k].id := ds[k].origin];
      }
      assert ds[..|ds|] == ds;
      var before := prev;
      prev := curr;
      if |before| == 0 {
        return;
      }
      var added, banned := CountNew(before, curr);
      var removed, _ := CountNew(curr, before);
      assert added > 0 <==> NewIds(before, curr) != {};
      assert removed > 0 <==> NewIds(curr, before) != {};
      r := r.(banned := banned);
      if added > 0 || removed > 0 {
        r := r.(updated := Some(Updated(added, removed, |curr|)));
      }
    }
  }

  lemma SameIds(a: set<int>, b: set<int>)
    requires forall i :: i in a <==> i in b
    ensures a == b
  {
    SomeId(a - b);
    SomeId(b - a);
  }

  /** Both loops of the diff: the ids of `curr` that `prev` lacks, counted, and
      those of them that get an event of their own. */
  method CountNew(prev: map<int, string>, curr: map<int, string>) returns (count: nat, banned: set<int>)
    ensures count == |NewIds(prev, curr)|
    ensures banned == set i | i in NewIds(prev, curr) && NotifyPerDecision(curr[i])
  {
    hide NotifyPerDecision;
    count, banned := 0, {};
    ghost var met: set<int> := {};
    var rest := curr.Keys;
    while rest != {}
      invariant rest <= curr.Keys && count == |met|
      invariant forall i :: i in met <==> i in curr && i !in prev && i !in rest
      invariant forall i :: i in banned <==> i in met && NotifyPerDecision(curr[i])
      decreases rest
    {
      SomeId(rest);
      var i :| i in rest;
      rest := rest - {i};
      if i in prev {
        continue;
      }
      met := met + {i};
      count := count + 1;
      if NotifyPerDecision(curr[i]) {
        banned := banned + {i};
      }
    }
    SameIds(met, NewIds(prev, curr));
    SameIds(banned, set i | i in NewIds(prev, curr) && NotifyPerDecision(curr[i]));
  }

  /** Decisions of the community blocklist and of third-party lists are not
      announced one by one, however their origin is written; all others are. */
  lemma OriginsNotAnnounced(origin: string) returns (front: string, text: string, back: string)
    ensures origin == front + text + back
    ensures (forall c :: c in front ==> Blank(c)) && (forall c :: c in back ==> Blank(c))
    ensures !NotifyPerDecision(origin) <==> Lower(text) == "capi" || Lower(text) == "lists"
    ensures text != "" ==> !Blank(text[0]) && !Blank(text[|text| - 1])
  {
    front, back := TrimmedText(origin);
    text := TrimSpace(origin);
    hide TrimSpace, Lower;
  }

  /** A decision list is known by its ids, and an id listed twice by its last origin. */
  lemma {:induction false} ByIdIs(ds: seq<Decision>, i: int)
    ensures i in ById(ds) <==> exists k :: 0 <= k < |ds| && ds[k].id == i
    ensures i in ById(ds) ==>
              exists k :: 0 <= k < |ds| && ds[k] == Decision(i, ById(ds)[i]) && forall j :: k < j < |ds| ==>
                  ds[j].id != i
  {
    if ds != [] {
      var front, last := ds[..|ds| - 1], ds[|ds| - 1];
      ByIdIs(front, i);
      assert ds == front + [last] && forall k :: 0 <= k < |front| ==> ds[k] == front[k];
      if last.id == i {
        assert ds[|ds| - 1] == Decision(i, ById(ds)[i]);
      } else if i in ById(front) {
        var k :| 0 <= k < |front| && front[k] == Decision(i, ById(front)[i]) && forall j :: k < j < |front| ==>
            front[j].id != i;
        assert ds[k] == Decision(i, ById(ds)[i]);
      }
    }
  }

  /** What one poll does: a failure counts, a good beat ends the outage, a list
      replaces the known one and is compared with it unless that was empty. */
  lemma TickEffect(s: State, p: Poll)
    ensures var (t, r) := Ticked(s, p);
            && (p.Failed? ==>
                  && t.prev == s.prev && t.streak == s.streak + 1 && r.banned == {} && r.updated == None
                  && (t.reported <==> s.reported || s.streak >= 2)
                  && r.down == if s.streak >= 2 && !s.reported then Some(s.streak + 1) else None)
            && (p.Beat? ==> t.streak == 0 && !t.reported && r.down == None)
            && (p.Beat? && p.decisions.None? ==> t.prev == s.prev && r.banned == {} && r.updated == None)
            && (p.Beat? && p.decisions.Some? ==>
                  && t.prev == ById(p.decisions.value)
                  && (s.prev == map[] ==> r.banned == {} && r.updated == None)
                  && (s.prev != map[] ==>
                        && (forall i :: i in r.banned <==> i in t.prev && i !in s.prev && NotifyPerDecision(t.prev[i]))
                        && r.updated == if t.prev.Keys == s.prev.Keys then None
                                        else Some(Updated(|t.prev.Keys - s.prev.Keys|, |s.prev.Keys - t.prev.Keys|,
                                            |t.prev|))))
  {
    hide NotifyPerDecision, ById;
  }

  // ----- over whole traces -----

  function After(polls: seq<Poll>): State {
    if polls == [] then State(map[], 0, false) else Ticked(After(polls[..|polls| - 1]), polls[|polls| - 1]).0
  }

  function ReportAt(polls: seq<Poll>, i: nat): Report
    requires i < |polls|
  {
    Ticked(After(polls[..i]), polls[i]).1
  }

  /** The number of failed heartbeats at the end of the trace. */
  function TrailingFailures(polls: seq<Poll>): nat {
    if polls == [] || !polls[|polls| - 1].Failed? then 0 else 1 + TrailingFailures(polls[..|polls| - 1])
  }

  lemma {:induction false} StreakIsTrailing(polls: seq<Poll>)
    ensures After(polls).streak == TrailingFailures(polls)
    ensures After(polls).reported <==> TrailingFailures(polls) >= 3
  {
    if polls != [] {
      StreakIsTrailing(polls[..|polls| - 1]);
    }
  }

  /** Poll `i` is the third failure of a stretch of failures. */
  predicate ThirdFailure(polls: seq<Poll>, i: nat) {
    && 2 <= i < |polls|
    && polls[i].Failed? && polls[i - 1].Failed? && polls[i - 2].Failed?
    && (i == 2 || !polls[i - 3].Failed?)
  }

  /** An outage is reported at the third failure of a stretch and nowhere else,
      so once for every maximal stretch of three or more. */
  lemma DownExactlyAtThirdFailure(polls: seq<Poll>, i: nat)
    requires i < |polls|
    ensures ReportAt(polls, i).down.Some? <==> ThirdFailure(polls, i)
    ensures ReportAt(polls, i).down.Some? ==> ReportAt(polls, i).down == Some(3)
  {
    StreakIsTrailing(polls[..i]);
    TrailingStep(polls, i);
    if i >= 1 {
      TrailingStep(polls, i - 1);
    }
    if i >= 2 {
      TrailingStep(polls, i - 2);
    }
    hide TrailingFailures;
  }

  lemma TrailingStep(polls: seq<Poll>, i: nat)
    requires i <= |polls|
    ensures TrailingFailures(polls[..i])
         == if i > 0 && polls[i - 1].Failed? then 1 + TrailingFailures(polls[..i - 1]) else 0
  {
    if i > 0 {
      assert polls[..i][..i - 1] == polls[..i - 1];
    }
  }

  /** Sizes of a set before and after some elements come and others go. */
  lemma SizesBalance(a: set<int>, b: set<int>)
    ensures |b| == |a| + |b - a| - |a - b|
  {
    assert a == (a * b) + (a - b) && b == (a * b) + (b - a);
  }

  /** While there were decisions before, the counts of an update balance, and an
      update is sent exactly when the set of ids changed. */
  lemma DiffBalances(prev: map<int, string>, curr: map<int, string>)
    requires prev != map[]
    ensures Diff(prev, curr).updated.None? <==> prev.Keys == curr.Keys
    ensures Diff(prev, curr).updated.Some? ==>
              var u := Diff(prev, curr).updated.value; u.total == |prev| + u.added - u.removed && u.total == |curr|
    ensures forall i :: i in Diff(prev, curr).banned <==> i in curr && i !in prev && NotifyPerDecision(curr[i])
  {
    SizesBalance(prev.Keys, curr.Keys);
    hide NotifyPerDecision;
  }

  lemma TickBalances(s: State, p: Poll)
    requires s.prev != map[]
    ensures var (t, r) := Ticked(s, p);
            |t.prev| == |s.prev| + if r.updated.Some? then r.updated.value.added - r.updated.value.removed else 0
  {
    if p.Beat? && p.decisions.Some? {
      DiffBalances(s.prev, ById(p.decisions.value));
      assert |s.prev| == |s.prev.Keys| && |ById(p.decisions.value)| == |ById(p.decisions.value).Keys|;
    }
    hide Diff, ById;
  }

  /** Additions less removals reported by the polls from `i` to `j`. */
  function NetReported(polls: seq<Poll>, i: nat, j: nat): int
    requires i <= j <= |polls|
    decreases j
  {
    if i == j then 0
    else
      var u := ReportAt(polls, j - 1).updated;
      NetReported(polls, i, j - 1) + if u.Some? then u.value.added - u.value.removed else 0
  }

  /** Over any stretch in which the known set is never empty, the reported
      changes account for the whole difference in size. */
  lemma {:induction false} ReportsAccountForSize(polls: seq<Poll>, i: nat, j: nat)
    requires i <= j <= |polls| && forall k :: i <= k < j ==> After(polls[..k]).prev != map[]
    ensures |After(polls[..j]).prev| == |After(polls[..i]).prev| + NetReported(polls, i, j)
    decreases j
  {
    if i < j {
      assert After(polls[..j]) == Ticked(After(polls[..j - 1]), polls[j - 1]).0 by {
        assert polls[..j][..j - 1] == polls[..j - 1];
      }
      ReportsAccountForSize(polls, i, j - 1);
      TickBalances(After(polls[..j - 1]), polls[j - 1]);
      hide After, Ticked;
    }
  }

  // ----- the AppSec probe -----

  const SECOND := 1_000_000_000
  const QUIET := 60 * SECOND

  /** A probe that ran (the mode is on), with its result. */
  datatype Probe = Skipped | Probed(now: int, ok: bool)

  datatype Health = Health(lastUp: bool, lastEmit: Option<int>)

  function AfterProbe(h: Health, p: Probe): (Health, bool) {
    match p
    case Skipped => (h, false)
    case Probed(now, true) => (h.(lastUp := true), false)
    case Probed(now, false) =>
      var fires := h.lastUp && (h.lastEmit.None? || now - h.lastEmit.value > QUIET);
      (Health(false, if fires then Some(now) else h.lastEmit), fires)
  }

  class HealthCheck {
    var lastUp: bool
    var lastEmit: Option<int>

    constructor ()
      ensures Health(lastUp, lastEmit) == Health(true, None)
    {
      lastUp, lastEmit := true, None;
    }

    method RunProbe(p: Probe) returns (fires: bool)
      modifies this
      ensures (Health(lastUp, lastEmit), fires) == AfterProbe(old(Health(lastUp, lastEmit)), p)
    {
      if p.Skipped? {
        return false;
      }
      var prevUp := lastUp;
      if !p.ok {
        if prevUp && (lastEmit.None? || p.now - lastEmit.value > QUIET) {
          lastEmit, lastUp := Some(p.now), false;
          return true;
        }
        lastUp := false;
      } else {
        lastUp := true;
      }
      return false;
    }
  }

  function HealthAfter(ps: seq<Probe>): Health {
    if ps == [] then Health(true, None) else AfterProbe(HealthAfter(ps[..|ps| - 1]), ps[|ps| - 1]).0
  }

  predicate Fires(ps: seq<Probe>, i: nat)
    requires i < |ps|
  {
    AfterProbe(HealthAfter(ps[..i]), ps[i]).1
  }

  /** The probe before `i` that ran succeeded, or none ran. */
  predicate UpBefore(ps: seq<Probe>, i: nat)
    requires i <= |ps|
  {
    if i == 0 then true else if ps[i - 1].Skipped? then UpBefore(ps, i - 1) else ps[i - 1].ok
  }

  lemma HealthStep(ps: seq<Probe>, i: nat)
    requires 0 < i <= |ps|
    ensures var h, g := HealthAfter(ps[..i - 1]), HealthAfter(ps[..i]);
            && g.lastUp == (if ps[i - 1].Skipped? then h.lastUp else ps[i - 1].ok)
            && g.lastEmit == (if Fires(ps, i - 1) then Some(ps[i - 1].now) else h.lastEmit)
  {
    assert ps[..i][..i - 1] == ps[..i - 1];
  }

  lemma {:induction false} UpIs(ps: seq<Probe>, i: nat)
    requires i <= |ps|
    ensures HealthAfter(ps[..i]).lastUp <==> UpBefore(ps, i)
  {
    if i > 0 {
      UpIs(ps, i - 1);
      HealthStep(ps, i);
    }
  }

  /** No event between `j` and `i`. */
  predicate LastFire(ps: seq<Probe>, i: nat, j: nat)
    requires j < i <= |ps|
  {
    forall k :: j < k < i ==> !Fires(ps, k)
  }

  lemma LastFireStep(ps: seq<Probe>, i: nat, j: nat)
    requires j < i < |ps|
    ensures LastFire(ps, i + 1, j) <==> LastFire(ps, i, j) && !Fires(ps, i)
  {
    hide Fires;
  }

  /** What is remembered as the last report is the last report. */
  lemma {:induction false} EmitIs(ps: seq<Probe>, i: nat)
    requires i <= |ps|
    ensures forall j :: 0 <= j < i && Fires(ps, j) && LastFire(ps, i, j) ==>
              HealthAfter(ps[..i]).lastEmit == Some(ps[j].now)
    ensures HealthAfter(ps[..i]).lastEmit.Some? ==> exists j :: 0 <= j < i && Fires(ps, j) && LastFire(ps, i, j)
  {
    if i > 0 {
      EmitIs(ps, i - 1);
      HealthStep(ps, i);
      assert LastFire(ps, i, i - 1);
      hide HealthAfter, Fires, LastFire;
      forall j | 0 <= j < i - 1
        ensures LastFire(ps, i, j) <==> LastFire(ps, i - 1, j) && !Fires(ps, i - 1)
      {
        LastFireStep(ps, i - 1, j);
      }
    }
  }

  /** An outage is reported exactly on a failed probe after a good one (or as the
      first that ran), more than a minute after the last report. */
  lemma FiresIff(ps: seq<Probe>, i: nat)
    requires i < |ps|
    ensures Fires(ps, i) <==>
              ps[i].Probed? && !ps[i].ok && UpBefore(ps, i)
              && forall j :: 0 <= j < i && Fires(ps, j) && LastFire(ps, i, j) ==>
                   ps[i].now - ps[j].now > 60_000_000_000
  {
    UpIs(ps, i);
    EmitIs(ps, i);
    hide HealthAfter, UpBefore, LastFire;
  }

  /** After a failed probe, being up again takes a good probe in between. */
  lemma {:induction false} GoodProbeBetween(ps: seq<Probe>, i: nat, j: nat)
    requires i < j <= |ps| && ps[i].Probed? && !ps[i].ok && UpBefore(ps, j)
    ensures exists k :: i < k < j && ps[k].Probed? && ps[k].ok
    decreases j
  {
    if j - 1 > i && ps[j - 1].Skipped? {
      GoodProbeBetween(ps, i, j - 1);
    }
  }

  /** Two reports in a row are more than a minute apart, with a good probe between them. */
  lemma ReportsAreApart(ps: seq<Probe>, i: nat, j: nat)
    requires i < j < |ps| && Fires(ps, i) && Fires(ps, j) && LastFire(ps, j, i)
    ensures ps[j].now - ps[i].now > 60_000_000_000
    ensures exists k :: i < k < j && ps[k].Probed? && ps[k].ok
  {
    FiresIff(ps, j);
    FiresIff(ps, i);
    GoodProbeBetween(ps, i, j);
  }
}
