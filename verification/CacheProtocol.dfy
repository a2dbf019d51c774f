/** The cache under concurrency: callers of GetOrLoad and of Refresh, background
    loads, and the refresher Run interleave one atomic step at a time, and the
    clock moves between any two of them. */
module CacheProtocol {
  import opened Basics
  import opened DashboardCache

  datatype Phase = Running | Ended(ok: bool)

  datatype Load = Load(key: string, phase: Phase)

  /** One call of GetOrLoad; `asked` is the clock reading it made on entry. */
  datatype Call =
    | Entering(key: string, giveLoader: bool, asked: int)
    | Waiting(key: string, load: nat, asked: int)
    | Done(key: string, asked: int, joined: Option<nat>, reply: Reply)

  /** One call of Refresh outside the rounds of Run, as the warm-up makes them one
      after the other for the pinned keys. */
  datatype RefreshCall =
    | Pending(key: string, load: nat, begun: int)
    | Refreshed(key: string, load: nat, begun: int, ok: bool)
    | Refused(key: string)
    | Abandoned(key: string, load: nat)

  /** A round of Run: its tick, the keys still to visit, the load it waits for. */
  datatype Round = Round(tick: int, due: set<string>, on: Option<(string, nat)>)

  datatype Completion = Completion(key: string, stored: Stored)

  /** `closed` holds the loads whose done channel is closed. `log` lists the
      completed successful loads, `rounds` counts the finished rounds. `nextTick`
      is the next tick Run will see, None before it starts. */
  datatype World = World(
    now: int, ttl: int, maxStale: int, items: Items, loads: map<nat, Load>, closed: set<nat>, nextLoad: nat,
    calls: map<nat, Call>, refreshes: map<nat, RefreshCall>, round: Option<Round>,
    nextTick: Option<int>, rounds: nat, log: seq<Completion>)

  datatype Step =
    | Advance(delta: nat)
    | PinKey(key: string)
    | Begin(call: nat, key: string, giveLoader: bool)
    | Enter(call: nat)
    | Land(load: nat, result: Option<int>)
    | Close(load: nat)
    | Resume(call: nat)
    | GiveUp(call: nat)
    | BeginRefresh(refresh: nat, key: string)
    | EndRefresh(refresh: nat)
    | QuitRefresh(refresh: nat)
    | StartRun
    | StartRound
    | Visit(key: string)
    | LeaveKey
    | EndRound

  function LoadsAfter(w: World, key: string, start: Option<Start>): World {
    match start
    case Some(Started(l)) => w.(loads := w.loads[l := Load(key, Running)], nextLoad := w.nextLoad + 1)
    case Some(NoLoader(l)) =>
      w.(loads := w.loads[l := Load(key, Ended(false))], closed := w.closed + {l}, nextLoad := w.nextLoad + 1)
    case _ => w
  }

  /** The first tick after `now` in the rhythm of `tick`: a ticker holds one tick
      for a late reader and drops the others. */
  function TickAfter(tick: int, now: int, interval: int): (next: int)
    requires 0 < interval && tick <= now
    ensures now < next <= now + interval && tick + interval <= next
    decreases now - tick
  {
    if now < tick + interval then tick + interval else TickAfter(tick + interval, now, interval)
  }

  predicate Enabled(w: World, s: Step) {
    match s
    case Advance(_) => true
    case PinKey(_) => true
    case Begin(c, _, _) => c !in w.calls
    case Enter(c) => c in w.calls && w.calls[c].Entering?
    case Land(l, _) => l in w.loads && w.loads[l].phase.Running? && w.loads[l].key in w.items
    case Close(l) => l in w.loads && w.loads[l].phase.Ended?
    case Resume(c) => c in w.calls && w.calls[c].Waiting? && w.calls[c].load in w.closed && w.calls[c].key in w.items
    case GiveUp(c) => c in w.calls && w.calls[c].Waiting?
    case BeginRefresh(r, _) => r !in w.refreshes
    case EndRefresh(r) =>
      && r in w.refreshes && w.refreshes[r].Pending? && w.refreshes[r].load in w.closed && w.refreshes[r].key in w.items
    case QuitRefresh(r) => r in w.refreshes && w.refreshes[r].Pending?
    case StartRun => w.nextTick.None? && 0 < WarmInterval(w.ttl)
    case StartRound => w.round.None? && w.nextTick.Some? && w.nextTick.value <= w.now && 0 < WarmInterval(w.ttl)
    case Visit(k) => w.round.Some? && w.round.value.on.None? && k in w.round.value.due && k in w.items
    case LeaveKey => w.round.Some? && w.round.value.on.Some? && w.round.value.on.value.1 in w.closed
    case EndRound => w.round.Some? && w.round.value.on.None? && w.round.value.due == {}
  }

  function Apply(w: World, s: Step): World
    requires Enabled(w, s)
  {
    match s
    case Advance(d) => w.(now := w.now + d)
    case PinKey(k) => w.(items := Pinned(w.items, k))
    case Begin(c, k, g) => w.(calls := w.calls[c := Entering(k, g, w.now)])
    case Enter(c) =>
      var call := w.calls[c];
      var (e, d, start) :=
        LookUp(Touched(EntryOf(w.items, call.key), call.giveLoader, call.asked), call.asked, w.ttl, w.maxStale,
            w.nextLoad);
      var next := match d
        case Serve(state, stored) => Done(call.key, call.asked, None, Value(state, stored))
        case Wait(l) => Waiting(call.key, l, call.asked);
      LoadsAfter(w.(items := w.items[call.key := e], calls := w.calls[c := next]), call.key, start)
    case Land(l, result) =>
      var k := w.loads[l].key;
      w.(items := w.items[k := Landed(w.items[k], result, w.now)],
         loads := w.loads[l := Load(k, Ended(result.Some?))],
         log := if result.Some? then w.log + [Completion(k, Stored(result.value, w.now))] else w.log)
    case Close(l) => w.(closed := w.closed + {l})
    case Resume(c) =>
      var call := w.calls[c];
      w.(calls := w.calls[c := Done(call.key, call.asked, Some(call.load), AfterWait(w.items[call.key]))])
    case GiveUp(c) =>
      var call := w.calls[c];
      w.(calls := w.calls[c := Done(call.key, call.asked, Some(call.load), Cancelled)])
    case BeginRefresh(r, k) =>
      if k !in w.items || !w.items[k].hasLoader then w.(refreshes := w.refreshes[r := Refused(k)])
      else
        var (e, start) := StartEntry(w.items[k], w.nextLoad);
        LoadsAfter(w.(items := w.items[k := e], refreshes := w.refreshes[r := Pending(k, start.load, w.now)]), k,
            Some(start))
    case EndRefresh(r) =>
      var p := w.refreshes[r];
      w.(refreshes := w.refreshes[r := Refreshed(p.key, p.load, p.begun, !w.items[p.key].failed)])
    case QuitRefresh(r) => w.(refreshes := w.refreshes[r := Abandoned(w.refreshes[r].key, w.refreshes[r].load)])
    case StartRun => w.(nextTick := Some(w.now + WarmInterval(w.ttl)))
    case StartRound =>
      w.(round := Some(Round(w.nextTick.value, Due(w.items, w.now, w.ttl, w.maxStale), None)),
         nextTick := Some(TickAfter(w.nextTick.value, w.now, WarmInterval(w.ttl))))
    case Visit(k) =>
      var r, e := w.round.value, w.items[k];
      if !e.hasLoader then w.(round := Some(r.(due := r.due - {k})))
      else
        var (e', start) := StartEntry(e, w.nextLoad);
        LoadsAfter(w.(items := w.items[k := e'], round := Some(r.(due := r.due - {k}, on := Some((k, start.load))))), k,
            Some(start))
    case LeaveKey => w.(round := Some(w.round.value.(on := None)))
    case EndRound => w.(round := None, rounds := w.rounds + 1)
  }

  /** An empty cache; Run starts whenever its step is taken. */
  predicate Init(w: World) {
    && w.items == map[] && w.loads == map[] && w.closed == {} && w.nextLoad == 0 && w.calls == map[]
    && w.refreshes == map[] && w.round.None? && w.rounds == 0 && w.log == [] && 0 < w.ttl < w.maxStale
        && w.nextTick.None?
  }

  /** A run: each world follows from the one before by an enabled step. */
  predicate IsRun(ws: seq<World>, ss: seq<Step>) {
    && |ws| == |ss| + 1
    && Init(ws[0])
    && forall i :: 0 <= i < |ss| ==> Enabled(ws[i], ss[i]) && ws[i + 1] == Apply(ws[i], ss[i])
  }

  // ----- what every step keeps -----

  /** A key has a running load exactly when its entry holds it, so at most one. */
  ghost predicate SingleFlight(w: World) {
    && (forall l :: l in w.loads && w.loads[l].phase.Running? ==>
          w.loads[l].key in w.items && w.items[w.loads[l].key].inflight == Some(l))
    && (forall k :: k in w.items && w.items[k].inflight.Some? ==>
          var l := w.items[k].inflight.value; l in w.loads && w.loads[l] == Load(k, Running))
    && (forall l :: l in w.loads ==> l < w.nextLoad)
    && (forall l :: l in w.closed ==> l in w.loads && w.loads[l].phase.Ended?)
    && (forall k :: k in w.items && w.items[k].inflight.Some? ==> w.items[k].hasLoader)
  }

  /** Stored pairs come from completed loads, and a load that ended well leaves a value behind. */
  ghost predicate Truthful(w: World) {
    && (forall k :: k in w.items && w.items[k].stored.Some? ==>
          Completion(k, w.items[k].stored.value) in w.log && w.items[k].stored.value.at <= w.now)
    && (forall l :: l in w.loads && w.loads[l].phase == Ended(true) ==>
          w.loads[l].key in w.items && w.items[w.loads[l].key].stored.Some?)
    && (forall i, j :: 0 <= i < j < |w.log| ==> w.log[i].stored.at <= w.log[j].stored.at)
    && (forall c :: c in w.log ==> c.stored.at <= w.now)
  }

  /** What a finished call was told. */
  ghost predicate FairReply(w: World, c: Call)
    requires c.Done?
  {
    match c.reply
    case Value(state, stored) =>
      && Completion(c.key, stored) in w.log
      && (state.Hit? ==> c.asked - stored.at <= w.ttl)
      && (state.Stale? || state.StaleError? ==> w.ttl < c.asked - stored.at <= w.maxStale)
      && (state.Miss? ==>
            && c.joined.Some? && c.joined.value in w.loads && w.loads[c.joined.value].phase.Ended?
            && (c.asked <= stored.at || c.asked - stored.at > w.maxStale)
            && (w.loads[c.joined.value].phase == Ended(true) ==> c.asked <= stored.at))
    case NotLoaded => c.joined.Some? && c.joined.value in w.loads && w.loads[c.joined.value].phase == Ended(false)
    case Cancelled => c.joined.Some?
  }

  ghost predicate FairCall(w: World, c: Call) {
    match c
    case Entering(_, _, asked) => asked <= w.now
    case Waiting(k, l, asked) =>
      && asked <= w.now && k in w.items && l in w.loads && w.loads[l].key == k
      && (w.items[k].stored.Some? ==>
            asked <= w.items[k].stored.value.at || asked - w.items[k].stored.value.at > w.maxStale)
      && (w.loads[l].phase == Ended(true) ==> w.items[k].stored.Some? && asked <= w.items[k].stored.value.at)
    case Done(_, _, _, _) => FairReply(w, c)
  }

  ghost predicate FairCalls(w: World) {
    forall c :: c in w.calls ==> FairCall(w, w.calls[c])
  }

  ghost predicate Good(w: World) {
    && 0 < w.ttl < w.maxStale
    && SingleFlight(w)
    && Truthful(w)
    && FairCalls(w)
  }

  /** Values are only ever replaced by younger ones, and facts about loads and
      completions are never lost. */
  ghost predicate Grows(w: World, w': World) {
    && w'.ttl == w.ttl && w'.maxStale == w.maxStale && w.now <= w'.now
    && (forall k :: k in w.items ==> k in w'.items)
    && (forall k :: k in w.items && w.items[k].stored.Some? ==>
          w'.items[k].stored.Some? && w.items[k].stored.value.at <= w'.items[k].stored.value.at)
    && (forall k :: k in w.items && w'.items[k].stored != w.items[k].stored ==>
          w'.items[k].stored.Some? && w.now <= w'.items[k].stored.value.at)
    && (forall l :: l in w.loads && w.loads[l].phase.Running? && l in w'.loads && w'.loads[l].phase == Ended(true) ==>
          var k := w.loads[l].key; k in w'.items && w'.items[k].stored.Some? && w.now <= w'.items[k].stored.value.at)
    && (forall c :: c in w.log ==> c in w'.log)
    && (forall l :: l in w.loads ==>
          l in w'.loads && w'.loads[l].key == w.loads[l].key && (w.loads[l].phase.Ended? ==> w'.loads[l] == w.loads[l]))
  }

  lemma GrowsTransitive(a: World, b: World, c: World)
    requires Grows(a, b) && Grows(b, c)
    ensures Grows(a, c)
  {
  }

  ghost predicate Sound(w: World) {
    SingleFlight(w) && Truthful(w)
  }

  /** An entry change that leaves the value and the running load alone. */
  lemma TouchKeeps(w: World, k: string, e: Entry)
    requires Sound(w)
    requires e.stored == EntryOf(w.items, k).stored && e.inflight == EntryOf(w.items, k).inflight
    requires EntryOf(w.items, k).hasLoader ==> e.hasLoader
    ensures Sound(w.(items := w.items[k := e])) && Grows(w, w.(items := w.items[k := e]))
  {
    TouchFlight(w, k, e);
    hide SingleFlight;
  }

  lemma TouchFlight(w: World, k: string, e: Entry)
    requires SingleFlight(w) && e.inflight == EntryOf(w.items, k).inflight
    requires (EntryOf(w.items, k).hasLoader ==> e.hasLoader)
    ensures SingleFlight(w.(items := w.items[k := e]))
  {
  }

  function AfterStart(w: World, k: string): World
    requires k in w.items
  {
    var (e, start) := StartEntry(w.items[k], w.nextLoad);
    LoadsAfter(w.(items := w.items[k := e]), k, Some(start))
  }

  lemma StartFlight(w: World, k: string)
    requires SingleFlight(w) && k in w.items
    ensures SingleFlight(AfterStart(w, k))
  {
    var e, w' := w.items[k], AfterStart(w, k);
    if e.inflight.Some? {
      assert w'.items == w.items;
    } else if e.hasLoader {
      assert w'.loads == w.loads[w.nextLoad := Load(k, Running)];
    } else {
      assert w'.loads == w.loads[w.nextLoad := Load(k, Ended(false))];
    }
  }

  /** Starting a load changes no value, no other load, no completion and not the clock. */
  ghost predicate OnlyStarted(w: World, w': World) {
    && w'.items.Keys == w.items.Keys && (forall k :: k in w.items ==> w'.items[k].stored == w.items[k].stored)
    && w'.log == w.log && w'.now == w.now && w'.ttl == w.ttl && w'.maxStale == w.maxStale
    && (forall l :: l in w.loads ==> l in w'.loads && w'.loads[l] == w.loads[l])
    && (forall l :: l in w'.loads && w'.loads[l].phase == Ended(true) ==> l in w.loads)
  }

  lemma StartOnlyStarts(w: World, k: string)
    requires SingleFlight(w) && k in w.items
    ensures OnlyStarted(w, AfterStart(w, k))
  {
    assert w.nextLoad !in w.loads;
  }

  lemma OnlyStartedKeeps(w: World, w': World)
    requires Truthful(w) && OnlyStarted(w, w')
    ensures Truthful(w')
  {
  }

  lemma OnlyStartedGrows(w: World, w': World)
    requires OnlyStarted(w, w')
    ensures Grows(w, w')
  {
  }

  lemma StartTruth(w: World, k: string)
    requires SingleFlight(w) && Truthful(w) && k in w.items
    ensures Truthful(AfterStart(w, k)) && Grows(w, AfterStart(w, k))
  {
    hide *;
    StartOnlyStarts(w, k);
    OnlyStartedKeeps(w, AfterStart(w, k));
    OnlyStartedGrows(w, AfterStart(w, k));
  }

  lemma StartKeeps(w: World, k: string)
    requires Sound(w) && k in w.items
    ensures var (e, start) := StartEntry(w.items[k], w.nextLoad);
            var w' := AfterStart(w, k);
            && Sound(w') && Grows(w, w')
            && start.load in w'.loads && w'.loads[start.load].key == k && w'.loads[start.load].phase != Ended(true)
            && w'.items[k].stored == w.items[k].stored
            && (w.items[k].hasLoader ==> w'.loads[start.load].phase.Running?)
  {
    StartFlight(w, k);
    StartTruth(w, k);
  }

  lemma LandFlight(w: World, l: nat, result: Option<int>)
    requires Sound(w) && Enabled(w, Land(l, result))
    ensures SingleFlight(Apply(w, Land(l, result)))
  {
    hide Truthful;
    assert w.items[w.loads[l].key].inflight == Some(l);
  }

  lemma LandTruth(w: World, l: nat, result: Option<int>)
    requires Sound(w) && Enabled(w, Land(l, result))
    ensures Truthful(Apply(w, Land(l, result))) && Grows(w, Apply(w, Land(l, result)))
  {
    LandGrows(w, l, result);
    hide SingleFlight, Grows;
  }

  lemma LandGrows(w: World, l: nat, result: Option<int>)
    requires Truthful(w) && Enabled(w, Land(l, result))
    ensures Grows(w, Apply(w, Land(l, result)))
  {
  }

  lemma LandKeeps(w: World, l: nat, result: Option<int>)
    requires Sound(w) && Enabled(w, Land(l, result))
    ensures Sound(Apply(w, Land(l, result))) && Grows(w, Apply(w, Land(l, result)))
  {
    LandFlight(w, l, result);
    LandTruth(w, l, result);
  }

  /** A lookup that starts nothing leaves the entry; one that waits started or joined a load. */
  lemma LookUpShape(e: Entry, asked: int, ttl: int, maxStale: int, newId: nat)
    ensures var (e', d, start) := LookUp(e, asked, ttl, maxStale, newId);
            && (start.None? ==> e' == e)
            && (start.Some? ==> (e', start.value) == StartEntry(e, newId))
            && (d.Wait? ==>
                  && start.Some? && d.load == start.value.load
                  && !FreshAt(e, asked, ttl) && !FreshAt(e, asked, maxStale))
  {
  }

  /** The locked section's start of a load, after the touch of its entry. */
  lemma TouchAndStart(w: World, k: string, e: Entry)
    requires Sound(w)
    requires e.stored == EntryOf(w.items, k).stored && e.inflight == EntryOf(w.items, k).inflight
    requires EntryOf(w.items, k).hasLoader ==> e.hasLoader
    ensures var mid := w.(items := w.items[k := e]);
            var (e', start) := StartEntry(e, w.nextLoad);
            var end := LoadsAfter(w.(items := w.items[k := e']), k, Some(start));
            && end == AfterStart(mid, k)
            && Sound(end) && Grows(w, end) && end.items[k].stored == e.stored
            && start.load in end.loads && end.loads[start.load].key == k && end.loads[start.load].phase != Ended(true)
  {
    hide Sound, Grows, StartEntry;
    var mid := w.(items := w.items[k := e]);
    TouchKeeps(w, k, e);
    StartKeeps(mid, k);
    GrowsTransitive(w, mid, AfterStart(mid, k));
    assert mid.items[k := StartEntry(e, w.nextLoad).0] == w.items[k := StartEntry(e, w.nextLoad).0];
  }

  /** A call's locked section as a touch of its entry and, unless the value is fresh, a start. */
  lemma EnterKeeps(w: World, c: nat)
    requires Sound(w) && Enabled(w, Enter(c))
    ensures var w' := Apply(w, Enter(c)); var k := w.calls[c].key;
            && Sound(w') && Grows(w, w') && k in w'.items && w'.items[k].stored == EntryOf(w.items, k).stored
            && (w'.calls[c].Waiting? ==>
                  && w'.calls[c].load in w'.loads && w'.loads[w'.calls[c].load].key == k
                  && w'.loads[w'.calls[c].load].phase != Ended(true)
                  && !FreshAt(w'.items[k], w.calls[c].asked, w.maxStale))
  {
    hide Sound, Grows, LookUp, StartEntry, AfterStart;
    var call := w.calls[c];
    var k, e := call.key, Touched(EntryOf(w.items, call.key), call.giveLoader, call.asked);
    LookUpShape(e, call.asked, w.ttl, w.maxStale, w.nextLoad);
    var (e', d, start) := LookUp(e, call.asked, w.ttl, w.maxStale, w.nextLoad);
    var end := LoadsAfter(w.(items := w.items[k := e']), k, start);
    var w' := Apply(w, Enter(c));
    assert w'.items == end.items && w'.loads == end.loads;
    if start.Some? {
      TouchAndStart(w, k, e);
    } else {
      TouchKeeps(w, k, e);
    }
    CallsDoNotMatter(w, end, w');
  }

  /** Soundness and growth read nothing of the calls and the refresher. */
  lemma CallsDoNotMatter(w: World, a: World, b: World)
    requires Sound(a) && Grows(w, a)
    requires b
         == a.(calls := b.calls, refreshes := b.refreshes, round := b.round, nextTick := b.nextTick, rounds := b.rounds)
    ensures Sound(b) && Grows(w, b)
  {
  }

  lemma GrowsReflexive(w: World)
    ensures Grows(w, w)
  {
  }

  lemma VisitKeeps(w: World, k: string)
    requires Sound(w) && Enabled(w, Visit(k))
    ensures Sound(Apply(w, Visit(k))) && Grows(w, Apply(w, Visit(k)))
  {
    hide Sound, Grows;
    var w' := Apply(w, Visit(k));
    if !w.items[k].hasLoader {
      GrowsReflexive(w);
      CallsDoNotMatter(w, w, w');
    } else {
      StartKeeps(w, k);
      var (e, start) := StartEntry(w.items[k], w.nextLoad);
      CallsDoNotMatter(w, LoadsAfter(w.(items := w.items[k := e]), k, Some(start)), w');
    }
  }

  lemma BeginRefreshKeeps(w: World, r: nat, k: string)
    requires Sound(w) && Enabled(w, BeginRefresh(r, k))
    ensures Sound(Apply(w, BeginRefresh(r, k))) && Grows(w, Apply(w, BeginRefresh(r, k)))
  {
    hide Sound, Grows;
    var w' := Apply(w, BeginRefresh(r, k));
    if k !in w.items || !w.items[k].hasLoader {
      GrowsReflexive(w);
      CallsDoNotMatter(w, w, w');
    } else {
      StartKeeps(w, k);
      var (e, start) := StartEntry(w.items[k], w.nextLoad);
      CallsDoNotMatter(w, LoadsAfter(w.(items := w.items[k := e]), k, Some(start)), w');
    }
  }

  lemma CloseKeeps(w: World, l: nat)
    requires Sound(w) && Enabled(w, Close(l))
    ensures Sound(Apply(w, Close(l))) && Grows(w, Apply(w, Close(l)))
  {
  }

  lemma PinKeeps(w: World, k: string)
    requires Sound(w)
    ensures Sound(Apply(w, PinKey(k))) && Grows(w, Apply(w, PinKey(k)))
  {
    hide Sound, Grows;
    TouchKeeps(w, k, EntryOf(w.items, k).(hasLoader := true, pinned := true));
  }

  lemma AdvanceKeeps(w: World, delta: nat)
    requires Sound(w)
    ensures Sound(Apply(w, Advance(delta))) && Grows(w, Apply(w, Advance(delta)))
  {
  }

  /** All other steps change nothing soundness and growth read. */
  lemma BookkeepingKeeps(w: World, s: Step)
    requires Sound(w) && Enabled(w, s)
    requires s.Begin? || s.Resume? || s.GiveUp? || s.EndRefresh? || s.QuitRefresh? || s.StartRun? || s.StartRound?
        || s.LeaveKey?
          || s.EndRound?
    ensures Sound(Apply(w, s)) && Grows(w, Apply(w, s))
  {
    hide Sound, Grows;
    GrowsReflexive(w);
    CallsDoNotMatter(w, w, Apply(w, s));
  }

  lemma SoundStep(w: World, s: Step)
    requires Sound(w) && Enabled(w, s)
    ensures Sound(Apply(w, s)) && Grows(w, Apply(w, s))
  {
    hide *;
    match s {
      case PinKey(k) => PinKeeps(w, k);
      case Enter(c) => EnterKeeps(w, c);
      case Land(l, result) => LandKeeps(w, l, result);
      case Visit(k) => VisitKeeps(w, k);
      case BeginRefresh(r, k) => BeginRefreshKeeps(w, r, k);
      case Advance(delta) => AdvanceKeeps(w, delta);
      case Close(l) => CloseKeeps(w, l);
      case _ => BookkeepingKeeps(w, s);
    }
  }

  /** Facts about a call stay true as the world grows. */
  lemma FairCallGrows(w: World, w': World, c: Call)
    requires Grows(w, w') && FairCall(w, c)
    ensures FairCall(w', c)
  {
  }

  /** What a lookup answers is fair to a caller that read the clock at `asked`. */
  lemma LookUpIsFair(e: Entry, asked: int, ttl: int, maxStale: int, newId: nat)
    requires ttl < maxStale
    ensures var (_, d, _) := LookUp(e, asked, ttl, maxStale, newId);
            d.Serve? ==>
              && e.stored == Some(d.stored)
              && (d.state.Hit? ==> asked - d.stored.at <= ttl)
              && (d.state.Stale? || d.state.StaleError? ==> ttl < asked - d.stored.at <= maxStale)
  {
  }

  lemma EnterAnswers(w: World, c: nat)
    requires Enabled(w, Enter(c))
    ensures var call, w' := w.calls[c], Apply(w, Enter(c));
            var (_, d, _) :=
              LookUp(Touched(EntryOf(w.items, call.key), call.giveLoader, call.asked), call.asked, w.ttl, w.maxStale,
                  w.nextLoad);
            && w'.log == w.log && w'.now == w.now && w'.ttl == w.ttl && w'.maxStale == w.maxStale
            && w'.calls[c] == match d
                              case Serve(state, stored) => Done(call.key, call.asked, None, Value(state, stored))
                              case Wait(l) => Waiting(call.key, l, call.asked)
  {
    hide LookUp, StartEntry;
  }

  lemma EnterIsFair(w: World, c: nat)
    requires Good(w) && Enabled(w, Enter(c))
    ensures FairCall(Apply(w, Enter(c)), Apply(w, Enter(c)).calls[c])
  {
    var call, w' := w.calls[c], Apply(w, Enter(c));
    var e := Touched(EntryOf(w.items, call.key), call.giveLoader, call.asked);
    assert FairCall(w, call);
    if e.stored.Some? {
      assert Completion(call.key, e.stored.value) in w.log;
    }
    EnterKeeps(w, c);
    EnterAnswers(w, c);
    LookUpIsFair(e, call.asked, w.ttl, w.maxStale, w.nextLoad);
    hide SingleFlight, Truthful, LookUp, StartEntry, Grows, Apply, Sound, FairCalls, Enabled;
    assert FreshAt(w'.items[call.key], call.asked, w.maxStale)
           <==> w'.items[call.key].stored.Some? && call.asked - w'.items[call.key].stored.value.at <= w.maxStale;
  }

  /** A call that waited and finds no value waited for a load that failed; the
      value it finds is younger than its call, or was too old to be served. */
  lemma ResumeIsFair(w: World, c: nat)
    requires Good(w) && Enabled(w, Resume(c))
    ensures FairCall(Apply(w, Resume(c)), Apply(w, Resume(c)).calls[c])
  {
    var k, l := w.calls[c].key, w.calls[c].load;
    assert FairCall(w, w.calls[c]);
    assert w.loads[l].phase.Ended?;
  }

  /** A step changes at most the call it names. */
  lemma OtherCallsStay(w: World, s: Step, c: nat)
    requires Enabled(w, s) && c in Apply(w, s).calls
    ensures (c in w.calls && Apply(w, s).calls[c] == w.calls[c])
            || s == Enter(c) || s == Resume(c)
            || (s.Begin? && s.call == c && Apply(w, s).calls[c] == Entering(s.key, s.giveLoader, w.now)
                && Apply(w, s).now == w.now)
            || (s == GiveUp(c) && Apply(w, s).calls[c].Done? && Apply(w, s).calls[c].reply.Cancelled?
                && Apply(w, s).calls[c].joined.Some?)
  {
    hide LookUp, StartEntry;
  }

  lemma CallsStep(w: World, s: Step)
    requires Good(w) && Enabled(w, s)
    ensures FairCalls(Apply(w, s))
  {
    SoundStep(w, s);
    var w' := Apply(w, s);
    forall c | c in w'.calls
      ensures FairCall(w', w'.calls[c])
    {
      OtherCallsStay(w, s, c);
      if s == Enter(c) {
        EnterIsFair(w, c);
      } else if s == Resume(c) {
        ResumeIsFair(w, c);
      } else {
        hide Apply, Grows, Enabled, SingleFlight, Truthful, Sound;
        if c in w.calls && w'.calls[c] == w.calls[c] {
          FairCallGrows(w, w', w.calls[c]);
        }
      }
    }
  }

  lemma GoodIsSound(w: World)
    requires Good(w)
    ensures Sound(w)
  {
  }

  // ----- over whole runs -----

  lemma {:induction false} RunIsGood(ws: seq<World>, ss: seq<Step>, i: nat)
    requires IsRun(ws, ss) && i < |ws|
    ensures Good(ws[i])
  {
    if i > 0 {
      RunIsGood(ws, ss, i - 1);
      SoundStep(ws[i - 1], ss[i - 1]);
      CallsStep(ws[i - 1], ss[i - 1]);
    }
  }

  lemma {:induction false} RunGrows(ws: seq<World>, ss: seq<Step>, i: nat, j: nat)
    requires IsRun(ws, ss) && i <= j < |ws|
    ensures Grows(ws[i], ws[j])
  {
    hide Apply, Grows, Init, Sound, Good;
    GrowsReflexive(ws[i]);
    if i < j {
      RunGrows(ws, ss, i, j - 1);
      RunIsGood(ws, ss, j - 1);
      GoodIsSound(ws[j - 1]);
      SoundStep(ws[j - 1], ss[j - 1]);
      GrowsTransitive(ws[i], ws[j - 1], ws[j]);
    }
  }

  /** At most one load runs for a key, and one runs exactly when the entry says so. */
  lemma OneLoadPerKey(ws: seq<World>, ss: seq<Step>, i: nat, key: string, a: nat, b: nat)
    requires IsRun(ws, ss) && i < |ws|
    ensures a in ws[i].loads && b in ws[i].loads && ws[i].loads[a] == ws[i].loads[b] == Load(key, Running) ==> a == b
    ensures (exists l :: l in ws[i].loads && ws[i].loads[l] == Load(key, Running))
            <==> (key in ws[i].items && ws[i].items[key].inflight.Some?)
  {
    RunIsGood(ws, ss, i);
  }

  /** Every answer of a finished call: its pair is one completed load's, a hit
      was at most TTL old and a stale serve between TTL and MaxStale when the
      caller read the clock, and an error was only told to a caller whose load
      failed. All of it stays true for the rest of the run. */
  lemma AnswersAreHonest(ws: seq<World>, ss: seq<Step>, i: nat, c: nat)
    requires IsRun(ws, ss) && i < |ws| && c in ws[i].calls && ws[i].calls[c].Done?
    ensures FairReply(ws[i], ws[i].calls[c])
  {
    RunIsGood(ws, ss, i);
    assert FairCall(ws[i], ws[i].calls[c]);
  }

  /** A key's generation time never goes backwards. */
  lemma GenerationsAdvance(ws: seq<World>, ss: seq<Step>, i: nat, j: nat, key: string)
    requires IsRun(ws, ss) && i <= j < |ws|
    requires key in ws[i].items && ws[i].items[key].stored.Some?
    ensures key in ws[j].items && ws[j].items[key].stored.Some?
    ensures ws[i].items[key].stored.value.at <= ws[j].items[key].stored.value.at <= ws[j].now
  {
    RunGrows(ws, ss, i, j);
    RunIsGood(ws, ss, j);
  }
}
