/** What a lookup does for a caller, by the age of the value: which answer it
    gives, and that a value past its TTL is always being reloaded. */
module CacheServing {
  import opened Basics
  import opened DashboardCache
  import opened CacheProtocol
  import opened CacheAnswers

  predicate HasLoader(w: World, key: string) {
    key in w.items && w.items[key].hasLoader
  }

  /** A load of the key is running, and the entry holds it. */
  ghost predicate Reloading(w: World, key: string) {
    key in w.items && exists l :: l in w.loads && w.loads[l] == Load(key, Running) && w.items[key].inflight == Some(l)
  }

  /** The pair stored under the key, no older than `bound` for a caller that read the clock at `asked`. */
  predicate Within(w: World, key: string, asked: int, bound: int) {
    key in w.items && w.items[key].stored.Some? && asked - w.items[key].stored.value.at <= bound
  }

  /** The key's last load failed, or nothing could compute it. */
  predicate MarkedFailed(w: World, key: string) {
    key in w.items && w.items[key].failed
  }

  /** A lookup of call `c`: a value within TTL is a hit and starts nothing; one
      within MaxStale is served stale while a load runs; otherwise the caller
      waits for a running load. Without a loader the entry is marked failed
      instead. */
  ghost predicate Looked(w: World, c: nat, w': World)
    requires c in w.calls && w.calls[c].Entering?
  {
    var key, asked := w.calls[c].key, w.calls[c].asked;
    && key in w'.items && c in w'.calls
    && w'.items[key].lastAccess == Some(asked)
    && (w'.items[key].hasLoader <==> HasLoader(w, key) || w.calls[c].giveLoader)
    && w'.items[key].stored == (if key in w.items then w.items[key].stored else None)
    && (if Within(w, key, asked, w.ttl) then
          && w'.calls[c] == Done(key, asked, None, Value(Hit, w.items[key].stored.value))
          && w'.loads == w.loads && w'.items[key].inflight == w.items[key].inflight
          && (MarkedFailed(w', key) <==> MarkedFailed(w, key))
        else
          && (HasLoader(w', key) ==> Reloading(w', key) && (MarkedFailed(w', key) <==> MarkedFailed(w, key)))
          && (!HasLoader(w', key) ==> MarkedFailed(w', key))
          && if Within(w, key, asked, w.maxStale) then
               w'.calls[c]
               == Done(key, asked, None,
                   Value(if MarkedFailed(w, key) then StaleError else Stale, w.items[key].stored.value))
             else
               && w'.calls[c].Waiting? && w'.calls[c].key == key && w'.calls[c].asked == asked
               && (HasLoader(w', key) ==> w'.items[key].inflight == Some(w'.calls[c].load))
               && w'.calls[c].load in w'.loads && w'.loads[w'.calls[c].load].key == key
               && (w'.loads[w'.calls[c].load].phase.Running? <==> HasLoader(w', key)))
  }

  /** What a start does to the entry and the loads. */
  lemma StartShape(w: World, k: string, e: Entry)
    requires SingleFlight(w) && e.inflight == EntryOf(w.items, k).inflight
    requires (EntryOf(w.items, k).hasLoader ==> e.hasLoader)
    ensures var (e', start) := StartEntry(e, w.nextLoad);
            var loads := LoadsAfter(w, k, Some(start)).loads;
            && e'.stored == e.stored && e'.hasLoader == e.hasLoader && e'.lastAccess == e.lastAccess
            && start.load in loads
            && (e.hasLoader ==>
                  e'.inflight == Some(start.load) && loads[start.load] == Load(k, Running) && e'.failed == e.failed)
            && (!e.hasLoader ==> e'.failed && loads[start.load] == Load(k, Ended(false)))
  {
    if k in w.items && w.items[k].inflight.Some? {
      assert w.items[k].inflight.value in w.loads;
    }
  }

  lemma LoadsReadNoItems(w: World, items: Items, calls: map<nat, Call>, k: string, start: Option<Start>)
    ensures LoadsAfter(w.(items := items, calls := calls), k, start).loads == LoadsAfter(w, k, start).loads
  {
  }

  lemma EnterShape(w: World, c: nat)
    requires Enabled(w, Enter(c))
    ensures var call, w' := w.calls[c], Apply(w, Enter(c));
            var e := Touched(EntryOf(w.items, call.key), call.giveLoader, call.asked);
            var (e', d, start) := LookUp(e, call.asked, w.ttl, w.maxStale, w.nextLoad);
            && w'.items == w.items[call.key := e'] && w'.loads == LoadsAfter(w, call.key, start).loads
            && c in w'.calls && w'.calls[c] == match d
                              case Serve(state, stored) => Done(call.key, call.asked, None, Value(state, stored))
                              case Wait(l) => Waiting(call.key, l, call.asked)
  {
    hide LookUp, StartEntry, Touched;
  }

  lemma LookUpIsLooked(w: World, c: nat)
    requires Sound(w) && Enabled(w, Enter(c))
    ensures Looked(w, c, Apply(w, Enter(c)))
  {
    var call, w' := w.calls[c], Apply(w, Enter(c));
    var e := Touched(EntryOf(w.items, call.key), call.giveLoader, call.asked);
    assert SingleFlight(w);
    EnterShape(w, c);
    StartShape(w, call.key, e);
    hide SingleFlight, Truthful, StartEntry, LoadsAfter, Apply, Enabled, Sound;
    if Within(w, call.key, call.asked, w.ttl) {
      NoStart(w, call.key);
    }
  }

  lemma NoStart(w: World, k: string)
    ensures LoadsAfter(w, k, None).loads == w.loads
  {
  }

  /** Over a run: a value served past its TTL is being reloaded right then, if
      anything can compute it. */
  lemma StaleIsReloading(ws: seq<World>, ss: seq<Step>, i: nat, c: nat)
    requires IsRun(ws, ss) && i < |ss| && ss[i] == Enter(c)
    ensures c in ws[i].calls && ws[i].calls[c].Entering? && Looked(ws[i], c, ws[i + 1])
    ensures var call := ws[i + 1].calls[c];
            call.Done? && call.reply.Value? && !call.reply.state.Hit? && HasLoader(ws[i + 1], call.key) ==>
                Reloading(ws[i + 1], call.key)
  {
    RunIsGood(ws, ss, i);
    GoodIsSound(ws[i]);
    RunLeads(ws, ss, i);
    hide IsRun, Apply, Sound, Good;
    LookUpIsLooked(ws[i], c);
  }

  // ----- what marks an entry as failed -----

  /** The outcome of the load of the key that ends in this step, if one does: a
      landing, or a lookup that nothing can compute. */
  function EndIn(w: World, s: Step, key: string): Option<bool>
    requires Enabled(w, s)
  {
    if s.Land? then (if w.loads[s.load].key == key then Some(s.result.Some?) else None)
    else if s.Enter? && w.calls[s.call].key == key && !Within(w, key, w.calls[s.call].asked, w.ttl)
         && !HasLoader(w, key) && !w.calls[s.call].giveLoader then Some(false)
    else None
  }

  /** The outcome of the last load of the key to end before world `i`. */
  function LastEnd(ws: seq<World>, ss: seq<Step>, i: nat, key: string): Option<bool>
    requires IsRun(ws, ss) && i < |ws|
  {
    if i == 0 then None
    else
      match EndIn(ws[i - 1], ss[i - 1], key)
      case Some(ok) => Some(ok)
      case None => LastEnd(ws, ss, i - 1, key)
  }

  lemma FailedEnter(w: World, c: nat, key: string)
    requires Sound(w) && Enabled(w, Enter(c))
    ensures MarkedFailed(Apply(w, Enter(c)), key)
            <==> match EndIn(w, Enter(c), key) case Some(ok) => !ok case None => MarkedFailed(w, key)
  {
    LookUpIsLooked(w, c);
    EnterShape(w, c);
    hide Apply, LookUp, StartEntry, LoadsAfter, Sound, Reloading;
  }

  lemma FailedVisit(w: World, k: string, key: string)
    requires Sound(w) && Enabled(w, Visit(k))
    ensures MarkedFailed(Apply(w, Visit(k)), key) <==> MarkedFailed(w, key)
  {
    StartShape(w, k, w.items[k]);
    hide StartEntry, SingleFlight, Truthful;
  }

  lemma FailedRefresh(w: World, r: nat, k: string, key: string)
    requires Sound(w) && Enabled(w, BeginRefresh(r, k))
    ensures MarkedFailed(Apply(w, BeginRefresh(r, k)), key) <==> MarkedFailed(w, key)
  {
    if k in w.items {
      StartShape(w, k, w.items[k]);
    }
    hide StartEntry, SingleFlight, Truthful;
  }

  lemma FailedStep(w: World, s: Step, key: string)
    requires Sound(w) && Enabled(w, s)
    ensures MarkedFailed(Apply(w, s), key)
            <==> match EndIn(w, s, key) case Some(ok) => !ok case None => MarkedFailed(w, key)
  {
    match s {
      case Enter(c) => FailedEnter(w, c, key);
      case Visit(k) => FailedVisit(w, k, key);
      case BeginRefresh(r, k) => FailedRefresh(w, r, k, key);
      case _ => hide Sound, LookUp, StartEntry;
    }
  }

  /** An entry is marked failed exactly when the last load of its key to end failed. */
  lemma {:induction false} FailedIsLastEnd(ws: seq<World>, ss: seq<Step>, i: nat, key: string)
    requires IsRun(ws, ss) && i < |ws|
    ensures MarkedFailed(ws[i], key) <==> LastEnd(ws, ss, i, key) == Some(false)
  {
    RunLength(ws, ss);
    if i > 0 {
      FailedIsLastEnd(ws, ss, i - 1, key);
      RunIsGood(ws, ss, i - 1);
      GoodIsSound(ws[i - 1]);
      RunLeads(ws, ss, i - 1);
      FailedStep(ws[i - 1], ss[i - 1], key);
      hide Apply, Sound, Good, MarkedFailed, EndIn;
    } else {
      assert Init(ws[0]);
    }
  }

  /** A stale value comes with an error mark exactly when the last load of its
      key to end failed. */
  lemma StaleErrorIff(ws: seq<World>, ss: seq<Step>, i: nat, c: nat)
    requires IsRun(ws, ss) && i < |ss| && ss[i] == Enter(c)
    requires c in ws[i + 1].calls && ws[i + 1].calls[c].Done? && ws[i + 1].calls[c].reply.Value?
    requires !ws[i + 1].calls[c].reply.state.Hit?
    ensures ws[i + 1].calls[c].reply.state == StaleError
            <==> LastEnd(ws, ss, i, ws[i + 1].calls[c].key) == Some(false)
    ensures ws[i + 1].calls[c].reply.state == Stale || ws[i + 1].calls[c].reply.state == StaleError
  {
    StaleIsReloading(ws, ss, i, c);
    FailedIsLastEnd(ws, ss, i, ws[i].calls[c].key);
    hide IsRun, MarkedFailed, LastEnd, Reloading;
  }

  // ----- the refresher's choice -----

  /** The interval is four fifths of the TTL, rounded down. */
  lemma IntervalIsFourFifths(ttl: int)
    ensures 5 * WarmInterval(ttl) <= 4 * ttl < 5 * WarmInterval(ttl) + 5
  {
  }
}
