/** What a waiting caller learns: how old the value of a miss can be, and whose
    outcome a refresh reports. */
module CacheAnswers {
  import opened Basics
  import opened DashboardCache
  import opened CacheProtocol

  /** Step `i` ends a load of the key. */
  predicate Lands(ws: seq<World>, ss: seq<Step>, i: nat, key: string)
    requires |ws| == |ss| + 1 && i < |ss|
  {
    ss[i].Land? && ss[i].load in ws[i].loads && ws[i].loads[ss[i].load].key == key
  }

  predicate LandsWell(ws: seq<World>, ss: seq<Step>, i: nat, key: string)
    requires |ws| == |ss| + 1 && i < |ss|
  {
    Lands(ws, ss, i, key) && ss[i].result.Some?
  }

  predicate Leads(ws: seq<World>, ss: seq<Step>, i: nat)
    requires i < |ss| && |ws| == |ss| + 1
  {
    Enabled(ws[i], ss[i]) && ws[i + 1] == Apply(ws[i], ss[i])
  }

  lemma RunLength(ws: seq<World>, ss: seq<Step>)
    requires IsRun(ws, ss)
    ensures |ws| == |ss| + 1
  {
  }

  lemma RunLeads(ws: seq<World>, ss: seq<Step>, i: nat)
    requires IsRun(ws, ss) && i < |ss|
    ensures |ws| == |ss| + 1 && Leads(ws, ss, i)
  {
    hide Apply, Enabled, Init;
  }

  // ----- values change where loads land -----

  /** Neither a lookup nor the start of a load touches the stored value. */
  lemma LookUpStored()
    ensures forall e: Entry, newId: nat :: StartEntry(e, newId).0.stored == e.stored
    ensures forall e: Entry, asked: int, ttl: int, maxStale: int,
        newId: nat :: LookUp(e, asked, ttl, maxStale, newId).0.stored == e.stored
  {
  }

  /** A step that lands no load of the key with a value leaves the stored value alone. */
  lemma StoredStep(w: World, s: Step, key: string)
    requires Enabled(w, s) && key in w.items
    ensures key in Apply(w, s).items && (s.Land? ==> s.load in w.loads)
    ensures Apply(w, s).items[key].stored
         == if s.Land? && w.loads[s.load].key == key && s.result.Some? then Some(Stored(s.result.value, w.now))
             else w.items[key].stored
  {
    LookUpStored();
    hide LookUp, StartEntry;
  }

  lemma {:induction false} StoredUntouched(ws: seq<World>, ss: seq<Step>, i: nat, j: nat, key: string)
    requires IsRun(ws, ss) && i <= j < |ws| && key in ws[i].items
    requires forall k :: i <= k < j ==> !LandsWell(ws, ss, k, key)
    ensures key in ws[j].items && ws[j].items[key].stored == ws[i].items[key].stored
  {
    hide IsRun, Apply, Enabled, Good;
    RunLength(ws, ss);
    if i < j {
      RunLeads(ws, ss, j - 1);
      StoredUntouched(ws, ss, i, j - 1, key);
      StoredStep(ws[j - 1], ss[j - 1], key);
      assert !LandsWell(ws, ss, j - 1, key);
    }
  }

  /** From its lookup to its end a call waits for the same load. */
  lemma {:induction false} WaitsOn(ws: seq<World>, ss: seq<Step>, i: nat, j: nat, c: nat)
    requires IsRun(ws, ss) && i <= j < |ws| && c in ws[i].calls && !ws[i].calls[c].Entering?
    ensures c in ws[j].calls
    ensures ws[j].calls[c] == ws[i].calls[c] || ws[j].calls[c].Done?
  {
    hide IsRun, Apply, Enabled, Good;
    RunLength(ws, ss);
    if i < j {
      RunLeads(ws, ss, j - 1);
      WaitsOn(ws, ss, i, j - 1, c);
      CallStep(ws[j - 1], ss[j - 1], c);
    }
  }

  lemma CallStep(w: World, s: Step, c: nat)
    requires Enabled(w, s) && c in w.calls && !w.calls[c].Entering?
    ensures c in Apply(w, s).calls
    ensures Apply(w, s).calls[c] == w.calls[c] || Apply(w, s).calls[c].Done?
  {
    hide LookUp, StartEntry;
  }

  lemma WaitingCall(ws: seq<World>, ss: seq<Step>, e: nat, r: nat, c: nat)
    requires IsRun(ws, ss) && e < r < |ss| && ss[e] == Enter(c) && ss[r] == Resume(c)
    ensures c in ws[e].calls && c in ws[r].calls && c in ws[e + 1].calls && ws[e + 1].calls[c].Waiting?
    ensures ws[r].calls[c] == ws[e + 1].calls[c]
    ensures ws[r].calls[c].key == ws[e].calls[c].key && ws[r].calls[c].asked == ws[e].calls[c].asked
    ensures var key := ws[e].calls[c].key;
            && key in ws[e + 1].items && !FreshAt(ws[e + 1].items[key], ws[e].calls[c].asked, ws[e].maxStale)
            && key in ws[r].items && c in ws[r + 1].calls
            && ws[r + 1].calls[c]
                == Done(key, ws[e].calls[c].asked, Some(ws[r].calls[c].load), AfterWait(ws[r].items[key]))
  {
    RunIsGood(ws, ss, e);
    GoodIsSound(ws[e]);
    EnterKeeps(ws[e], c);
    EnterAnswers(ws[e], c);
    hide Good, Sound, Grows, LookUp, StartEntry, Init;
    WaitsOn(ws, ss, e + 1, r, c);
  }

  /** A value that landed after a call began is no older than the call, and only
      younger ones replace it. */
  lemma LandedSince(ws: seq<World>, ss: seq<Step>, i: nat, j: nat, key: string)
    requires IsRun(ws, ss) && i < j < |ws| && LandsWell(ws, ss, i, key)
    ensures key in ws[j].items && ws[j].items[key].stored.Some? && ws[i].now <= ws[j].items[key].stored.value.at
  {
    assert key in ws[i].items;
    StoredStep(ws[i], ss[i], key);
    GenerationsAdvance(ws, ss, i + 1, j, key);
  }

  /** The value a miss hands out is older than its call exactly when no load of
      the key landed well between the call's lookup and its end; it is then older
      than MaxStale too. */
  lemma MissIsOldIff(ws: seq<World>, ss: seq<Step>, e: nat, r: nat, c: nat)
    requires IsRun(ws, ss) && e < r < |ss| && ss[e] == Enter(c) && ss[r] == Resume(c)
    requires c in ws[r + 1].calls && ws[r + 1].calls[c].Done? && ws[r + 1].calls[c].reply.Value?
    ensures var done := ws[r + 1].calls[c];
            && done.reply.state == Miss
            && (done.reply.stored.at < done.asked <==> forall i :: e < i < r ==> !LandsWell(ws, ss, i, done.key))
            && (done.reply.stored.at < done.asked ==> done.asked - done.reply.stored.at > ws[r].maxStale)
  {
    WaitingCall(ws, ss, e, r, c);
    var key, asked := ws[e].calls[c].key, ws[e].calls[c].asked;
    RunGrows(ws, ss, e, r);
    RunIsGood(ws, ss, e);
    assert FairCall(ws[e], ws[e].calls[c]);
    RunIsGood(ws, ss, r);
    assert FairCall(ws[r], ws[r].calls[c]);
    hide Apply, Enabled, Init, Good;
    if i :| e < i < r && LandsWell(ws, ss, i, key) {
      RunGrows(ws, ss, e, i);
      LandedSince(ws, ss, i, r, key);
    } else {
      assert forall i :: e < i < r ==> !LandsWell(ws, ss, i, key);
      StoredUntouched(ws, ss, e + 1, r, key);
    }
  }

  // ----- what a refresh reports -----

  predicate Loadable(w: World, key: string) {
    key in w.items && w.items[key].hasLoader
  }

  lemma OutcomeStep(w: World, s: Step, key: string)
    requires Enabled(w, s) && Loadable(w, key)
    ensures Loadable(Apply(w, s), key) && (s.Land? ==> s.load in w.loads)
    ensures Apply(w, s).items[key].failed
         == if s.Land? && w.loads[s.load].key == key then s.result.None? else w.items[key].failed
  {
  }

  lemma {:induction false} OutcomeUntouched(ws: seq<World>, ss: seq<Step>, i: nat, j: nat, key: string)
    requires IsRun(ws, ss) && i <= j < |ws| && Loadable(ws[i], key)
    requires forall k :: i <= k < j ==> !Lands(ws, ss, k, key)
    ensures Loadable(ws[j], key) && ws[j].items[key].failed == ws[i].items[key].failed
  {
    hide IsRun, Apply, Enabled, Good;
    RunLength(ws, ss);
    if i < j {
      RunLeads(ws, ss, j - 1);
      OutcomeUntouched(ws, ss, i, j - 1, key);
      OutcomeStep(ws[j - 1], ss[j - 1], key);
      assert !Lands(ws, ss, j - 1, key);
    }
  }

  /** A load that ran and has ended was landed in between. */
  lemma {:induction false} LoadEnds(ws: seq<World>, ss: seq<Step>, i: nat, j: nat, l: nat)
    requires IsRun(ws, ss) && i <= j < |ws| && l in ws[i].loads && ws[i].loads[l].phase.Running?
    ensures l in ws[j].loads && ws[j].loads[l].key == ws[i].loads[l].key
    ensures |ws| == |ss| + 1
    ensures ws[j].loads[l].phase.Ended? ==> exists k :: i <= k < j && ss[k].Land? && ss[k].load == l
  {
    hide IsRun, Apply, Enabled, Good;
    RunLength(ws, ss);
    if i < j {
      RunLeads(ws, ss, j - 1);
      RunIsGood(ws, ss, j - 1);
      LoadEnds(ws, ss, i, j - 1, l);
      LoadStep(ws[j - 1], ss[j - 1], l);
    }
  }

  lemma LoadStep(w: World, s: Step, l: nat)
    requires Good(w) && Enabled(w, s) && l in w.loads
    ensures l in Apply(w, s).loads && Apply(w, s).loads[l].key == w.loads[l].key
    ensures Apply(w, s).loads[l].phase == if s.Land? && s.load == l then Ended(s.result.Some?) else w.loads[l].phase
    ensures s.Land? && s.load == l ==> w.loads[l].phase.Running?
  {
    hide FairCalls, Truthful, Touched, FreshAt;
  }

  lemma {:induction false} LastLanding(ws: seq<World>, ss: seq<Step>, i: nat, j: nat, key: string) returns (k: nat)
    requires |ws| == |ss| + 1 && i < j <= |ss| && Lands(ws, ss, i, key)
    ensures i <= k < j && Lands(ws, ss, k, key) && forall m :: k < m < j ==> !Lands(ws, ss, m, key)
    decreases j
  {
    if i == j - 1 || Lands(ws, ss, j - 1, key) {
      k := j - 1;
    } else {
      k := LastLanding(ws, ss, i, j - 1, key);
    }
  }

  lemma {:induction false} RefreshWaits(ws: seq<World>, ss: seq<Step>, i: nat, j: nat, r: nat)
    requires IsRun(ws, ss) && i <= j < |ws| && r in ws[i].refreshes
    ensures r in ws[j].refreshes
    ensures ws[j].refreshes[r] == ws[i].refreshes[r] || !ws[j].refreshes[r].Pending?
  {
    hide IsRun, Apply, Enabled, Good;
    RunLength(ws, ss);
    if i < j {
      RunLeads(ws, ss, j - 1);
      RefreshWaits(ws, ss, i, j - 1, r);
      RefreshStep(ws[j - 1], ss[j - 1], r);
    }
  }

  lemma RefreshStep(w: World, s: Step, r: nat)
    requires Enabled(w, s) && r in w.refreshes
    ensures r in Apply(w, s).refreshes
    ensures Apply(w, s).refreshes[r] == w.refreshes[r] || !Apply(w, s).refreshes[r].Pending?
  {
    hide LookUp, StartEntry;
  }

  /** A refresh waits for a running load of its key. */
  lemma RefreshBegun(ws: seq<World>, ss: seq<Step>, b: nat, j: nat, r: nat, key: string)
    requires IsRun(ws, ss) && b < j < |ss| && ss[b] == BeginRefresh(r, key) && ss[j] == EndRefresh(r)
    ensures Loadable(ws[b], key) && Loadable(ws[b + 1], key) && r in ws[j].refreshes
    ensures var p := ws[j].refreshes[r];
            && p.Pending? && p.key == key && p.begun == ws[b].now
            && p.load in ws[b + 1].loads && ws[b + 1].loads[p.load] == Load(key, Running)
            && p.load in ws[j].loads && ws[j].loads[p.load].phase.Ended?
  {
    RunIsGood(ws, ss, b);
    GoodIsSound(ws[b]);
    RunIsGood(ws, ss, j);
    RefreshWaits(ws, ss, b + 1, j, r);
    if Loadable(ws[b], key) {
      StartKeeps(ws[b], key);
    }
    hide Sound, Grows, FairCalls, Truthful;
  }

  /** What a refresh reports is the outcome of the last load of its key to end
      before it looks, which ended after the refresh began. Success means the
      stored value is no older than the refresh. */
  lemma RefreshReportsLastEnd(ws: seq<World>, ss: seq<Step>, b: nat, j: nat, r: nat, key: string) returns (i: nat)
    requires IsRun(ws, ss) && b < j < |ss| && ss[b] == BeginRefresh(r, key) && ss[j] == EndRefresh(r)
    ensures b < i < j && Lands(ws, ss, i, key) && forall k :: i < k < j ==> !Lands(ws, ss, k, key)
    ensures r in ws[j + 1].refreshes
    ensures var done := ws[j + 1].refreshes[r];
            && done.Refreshed? && done.key == key && done.load in ws[j].loads
            && (done.ok <==> ss[i].result.Some?)
            && (done.ok ==>
                  && key in ws[j].items && ws[j].items[key].stored.Some?
                  && ws[b].now <= ws[j].items[key].stored.value.at)
            && ((forall k :: b < k < j && Lands(ws, ss, k, key) ==> ss[k].load == done.load)
                ==> (done.ok <==> ws[j].loads[done.load].phase == Ended(true)))
  {
    RefreshBegun(ws, ss, b, j, r, key);
    var l := ws[j].refreshes[r].load;
    hide Good, Init, Grows, Enabled;
    LoadEnds(ws, ss, b + 1, j, l);
    var first :| b + 1 <= first < j && ss[first].Land? && ss[first].load == l;
    LoadEnds(ws, ss, b + 1, first, l);
    i := LastLanding(ws, ss, first, j, key);
    LoaderStays(ws, ss, b + 1, i, key);
    OutcomeStep(ws[i], ss[i], key);
    OutcomeUntouched(ws, ss, i + 1, j, key);
    if ss[i].load == l {
      LandingIsTheEnd(ws, ss, i, j);
    }
    if ss[i].result.Some? {
      LandedSince(ws, ss, i, j, key);
      EarlierIsNotLater(ws, ss, b, i);
    }
  }

  lemma LandingIsTheEnd(ws: seq<World>, ss: seq<Step>, i: nat, j: nat)
    requires IsRun(ws, ss) && i < j < |ws| && ss[i].Land?
    ensures ss[i].load in ws[j].loads && ws[j].loads[ss[i].load].phase == Ended(ss[i].result.Some?)
  {
    RunIsGood(ws, ss, i);
    LoadStep(ws[i], ss[i], ss[i].load);
    RunGrows(ws, ss, i + 1, j);
    hide Init, Good;
  }

  lemma EarlierIsNotLater(ws: seq<World>, ss: seq<Step>, i: nat, j: nat)
    requires IsRun(ws, ss) && i <= j < |ws|
    ensures ws[i].now <= ws[j].now
  {
    RunGrows(ws, ss, i, j);
    hide Apply, Init;
  }

  lemma {:induction false} LoaderStays(ws: seq<World>, ss: seq<Step>, i: nat, j: nat, key: string)
    requires IsRun(ws, ss) && i <= j < |ws| && Loadable(ws[i], key)
    ensures Loadable(ws[j], key)
  {
    hide IsRun, Apply, Enabled, Good;
    RunLength(ws, ss);
    if i < j {
      RunLeads(ws, ss, j - 1);
      LoaderStays(ws, ss, i, j - 1, key);
      OutcomeStep(ws[j - 1], ss[j - 1], key);
    }
  }

  // ----- two runs -----

  /** A cache with a TTL of one and MaxStale of ten that has seen no round yet. */
  function Cached(
      now: int, e: Option<Entry>, loads: map<nat, Load>, closed: set<nat>, nextLoad: nat, calls: map<nat, Call>,
      refreshes: map<nat, RefreshCall>, log: seq<Completion>): World {
    World(now, 1, 10, if e.Some? then map["k" := e.value] else map[], loads, closed, nextLoad, calls, refreshes, None,
        None, 0, log)
  }

  function Looked(asked: int, stored: Option<Stored>, load: Option<nat>, failed: bool): Option<Entry> {
    Some(Entry(stored, true, false, Some(asked), load, failed))
  }

  function Log(): seq<Completion> {
    [Completion("k", Stored(7, 0))]
  }

  function MissWorlds(): seq<World> {
    var first := Waiting("k", 0, 0);
    var one, two := map[0 := Load("k", Ended(true))], map[0 := Load("k", Ended(true)), 1 := Load("k", Running)];
    var failed := map[0 := Load("k", Ended(true)), 1 := Load("k", Ended(false))];
    var aged := Some(Stored(7, 0));
    [
      Cached(0, None, map[], {}, 0, map[], map[], []),
      Cached(0, None, map[], {}, 0, map[0 := Entering("k", true, 0)], map[], []),
      Cached(0, Looked(0, None, Some(0), false), map[0 := Load("k", Running)], {}, 1, map[0 := first], map[], []),
      Cached(0, Looked(0, aged, None, false), one, {}, 1, map[0 := first], map[], Log()),
      Cached(20, Looked(0, aged, None, false), one, {}, 1, map[0 := first], map[], Log()),
      Cached(20, Looked(0, aged, None, false), one, {}, 1, map[0 := first, 1 := Entering("k", true, 20)], map[], Log()),
      Cached(20, Looked(20, aged, Some(1), false), two, {}, 2, map[0 := first, 1 := Waiting("k", 1, 20)], map[], Log()),
      Cached(20, Looked(20, aged, None, true), failed, {}, 2, map[0 := first, 1 := Waiting("k", 1, 20)], map[], Log()),
      Cached(20, Looked(20, aged, None, true), failed, {1}, 2, map[0 := first, 1 := Waiting("k", 1, 20)], map[], Log()),
      Cached(20, Looked(20, aged, None, true), failed, {1}, 2,
             map[0 := first, 1 := Done("k", 20, Some(1), Value(Miss, Stored(7, 0)))], map[], Log())
    ]
  }

  function MissSteps(): seq<Step> {
    [Begin(0, "k", true), Enter(0), Land(0, Some(7)), Advance(20), Begin(1, "k", true), Enter(1), Land(1, None),
        Close(1), Resume(1)]
  }

  lemma MissBegins()
    ensures Leads(MissWorlds(), MissSteps(), 0)
  {
  }

  lemma MissEnters()
    ensures Leads(MissWorlds(), MissSteps(), 1)
  {
  }

  lemma MissLands()
    ensures Leads(MissWorlds(), MissSteps(), 2)
  {
  }

  lemma MissAges()
    ensures Leads(MissWorlds(), MissSteps(), 3)
  {
  }

  lemma MissAsks()
    ensures Leads(MissWorlds(), MissSteps(), 4)
  {
  }

  lemma MissWaits()
    ensures Leads(MissWorlds(), MissSteps(), 5)
  {
  }

  lemma MissFails()
    ensures Leads(MissWorlds(), MissSteps(), 6)
  {
  }

  lemma MissCloses()
    ensures Leads(MissWorlds(), MissSteps(), 7)
  {
  }

  lemma MissResumes()
    ensures Leads(MissWorlds(), MissSteps(), 8)
  {
  }

  /** Nine steps from an empty cache to a call that asked at 20 and is given a value of time 0. */
  predicate EndsInOldMiss(ws: seq<World>, ss: seq<Step>) {
    && |ws| == 10 && |ss| == 9 && Init(ws[0]) && ws[9].maxStale == 10
    && 1 in ws[9].calls && ws[9].calls[1] == Done("k", 20, Some(1), Value(Miss, Stored(7, 0)))
  }

  lemma MissEnds()
    ensures EndsInOldMiss(MissWorlds(), MissSteps())
  {
  }

  lemma OldMissSteps(ws: seq<World>, ss: seq<Step>)
    requires EndsInOldMiss(ws, ss)
    ensures |ws| == 10 && |ss| == 9 && Init(ws[0])
  {
    hide Init;
  }

  lemma RunOf(ws: seq<World>, ss: seq<Step>)
    requires |ws| == |ss| + 1 && Init(ws[0]) && forall i :: 0 <= i < |ss| ==> Leads(ws, ss, i)
    ensures IsRun(ws, ss)
  {
    hide Apply, Enabled, Init;
    forall i | 0 <= i < |ss|
      ensures Enabled(ws[i], ss[i]) && ws[i + 1] == Apply(ws[i], ss[i])
    {
      assert Leads(ws, ss, i);
    }
  }

  /** A value of age 20 is handed out as a miss, because its reload failed. */
  lemma MissOlderThanMaxStale() returns (ws: seq<World>, ss: seq<Step>)
    ensures IsRun(ws, ss) && EndsInOldMiss(ws, ss)
  {
    ws, ss := MissWorlds(), MissSteps();
    hide *;
    MissBegins();
    MissEnters();
    MissLands();
    MissAges();
    MissAsks();
    MissWaits();
    MissFails();
    MissCloses();
    MissResumes();
    MissEnds();
    OldMissSteps(ws, ss);
    RunOf(ws, ss);
  }

  function RefreshWorlds(): seq<World> {
    var first, second := Pending("k", 0, 0), Pending("k", 1, 0);
    var well, again := map[0 := Load("k", Ended(true))], map[0 := Load("k", Ended(true)), 1 := Load("k", Running)];
    var failed := map[0 := Load("k", Ended(true)), 1 := Load("k", Ended(false))];
    var value := Some(Stored(7, 0));
    [
      Cached(0, None, map[], {}, 0, map[], map[], []),
      Cached(0, Some(Entry(None, true, true, None, None, false)), map[], {}, 0, map[], map[], []),
      Cached(0, Some(Entry(None, true, true, None, Some(0), false)), map[0 := Load("k", Running)], {}, 1, map[],
          map[0 := first], []),
      Cached(0, Some(Entry(value, true, true, None, None, false)), well, {}, 1, map[], map[0 := first], Log()),
      Cached(0, Some(Entry(value, true, true, None, None, false)), well, {0}, 1, map[], map[0 := first], Log()),
      Cached(0, Some(Entry(value, true, true, None, Some(1), false)), again, {0}, 2, map[],
          map[0 := first, 1 := second], Log()),
      Cached(0, Some(Entry(value, true, true, None, None, true)), failed, {0}, 2, map[], map[0 := first, 1 := second],
          Log()),
      Cached(0, Some(Entry(value, true, true, None, None, true)), failed, {0}, 2, map[],
             map[0 := Refreshed("k", 0, 0, false), 1 := second], Log())
    ]
  }

  function RefreshSteps(): seq<Step> {
    [PinKey("k"), BeginRefresh(0, "k"), Land(0, Some(7)), Close(0), BeginRefresh(1, "k"), Land(1, None), EndRefresh(0)]
  }

  lemma RefreshPins()
    ensures Leads(RefreshWorlds(), RefreshSteps(), 0)
  {
  }

  lemma RefreshBegins()
    ensures Leads(RefreshWorlds(), RefreshSteps(), 1)
  {
  }

  lemma RefreshLands()
    ensures Leads(RefreshWorlds(), RefreshSteps(), 2)
  {
  }

  lemma RefreshCloses()
    ensures Leads(RefreshWorlds(), RefreshSteps(), 3)
  {
  }

  lemma RefreshAgain()
    ensures Leads(RefreshWorlds(), RefreshSteps(), 4)
  {
  }

  lemma RefreshFails()
    ensures Leads(RefreshWorlds(), RefreshSteps(), 5)
  {
  }

  /** Seven steps to a refresh that failed although the load it joined went well. */
  predicate EndsInWrongReport(ws: seq<World>, ss: seq<Step>) {
    && |ws| == 8 && |ss| == 7 && Init(ws[0])
    && 0 in ws[7].refreshes && ws[7].refreshes[0] == Refreshed("k", 0, 0, false)
    && 0 in ws[7].loads && ws[7].loads[0] == Load("k", Ended(true))
  }

  lemma WrongReportSteps(ws: seq<World>, ss: seq<Step>)
    requires EndsInWrongReport(ws, ss)
    ensures |ws| == 8 && |ss| == 7 && Init(ws[0])
  {
    hide Init;
  }

  lemma RefreshEnds()
    ensures Leads(RefreshWorlds(), RefreshSteps(), 6) && EndsInWrongReport(RefreshWorlds(), RefreshSteps())
  {
  }

  /** A refresh whose own load went well reports a failure: another load failed before it looked. */
  lemma RefreshToldOfAnotherLoad() returns (ws: seq<World>, ss: seq<Step>)
    ensures IsRun(ws, ss) && EndsInWrongReport(ws, ss)
  {
    ws, ss := RefreshWorlds(), RefreshSteps();
    hide *;
    RefreshPins();
    RefreshBegins();
    RefreshLands();
    RefreshCloses();
    RefreshAgain();
    RefreshFails();
    RefreshEnds();
    WrongReportSteps(ws, ss);
    RunOf(ws, ss);
  }
}
