/** The bound behind WarmInterval: when loads succeed and every round of Run is
    done TTL - WarmInterval after its tick, a pinned value that has been through
    one round is never older than TTL again. */
module CacheWarmth {
  import opened Basics
  import opened DashboardCache
  import opened CacheProtocol

  /** The clock has not passed the deadline of the current or the next round. */
  predicate OnTime(w: World) {
    var margin := w.ttl - WarmInterval(w.ttl);
    if w.round.Some? then w.now <= w.round.value.tick + margin
    else w.nextTick.Some? ==> w.now <= w.nextTick.value + margin
  }

  /** No load of `key` ends with an error in this step. */
  predicate Succeeds(w: World, s: Step, key: string) {
    s.Land? && s.load in w.loads && w.loads[s.load].key == key ==> s.result.Some?
  }

  predicate PinnedKey(w: World, key: string) {
    key in w.items && w.items[key].pinned && w.items[key].hasLoader
  }

  predicate StoredSince(w: World, key: string, t: int) {
    key in w.items && w.items[key].stored.Some? && t <= w.items[key].stored.value.at
  }

  /** How young the pinned value is, relative to the ticks: once a round that
      knew the key is over (`warm`), never older than the tick before last. */
  predicate Tracks(w: World, key: string, warm: bool) {
    var interval := WarmInterval(w.ttl);
    && PinnedKey(w, key) && w.nextTick.Some?
    && match w.round
       case None => warm ==> StoredSince(w, key, w.nextTick.value - interval)
       case Some(r) =>
         && r.tick <= w.nextTick.value - interval <= w.now
         && (if key in r.due then warm ==> StoredSince(w, key, r.tick - interval)
             else if r.on.Some? && r.on.value.0 == key then
               var l := r.on.value.1;
               && (warm ==> StoredSince(w, key, r.tick - interval))
               && l in w.loads && w.loads[l].key == key
               && (w.loads[l].phase == Running || StoredSince(w, key, w.nextTick.value - interval))
             else StoredSince(w, key, w.nextTick.value - interval))
  }

  lemma PinStays(w: World, s: Step, key: string)
    requires Enabled(w, s) && PinnedKey(w, key)
    ensures PinnedKey(Apply(w, s), key)
  {
  }

  lemma StoredStays(w: World, s: Step, key: string, t: int)
    requires Sound(w) && Enabled(w, s) && StoredSince(w, key, t)
    ensures StoredSince(Apply(w, s), key, t)
  {
    SoundStep(w, s);
  }

  /** A load of the key that ends now stores a value generated now. */
  lemma LandIsYoung(w: World, l: nat, result: Option<int>, t: int)
    requires Sound(w) && Enabled(w, Land(l, result)) && result.Some? && t <= w.now
    ensures StoredSince(Apply(w, Land(l, result)), w.loads[l].key, t)
  {
  }

  lemma RoundUntouched(w: World, s: Step)
    requires Enabled(w, s) && !s.StartRun? && !s.StartRound? && !s.Visit? && !s.LeaveKey? && !s.EndRound?
    ensures Apply(w, s).round == w.round && Apply(w, s).nextTick == w.nextTick && Apply(w, s).rounds == w.rounds
  {
  }

  /** A visited key leaves the round's list, and the round waits for its load. */
  lemma VisitShape(w: World, k: string)
    requires Enabled(w, Visit(k))
    ensures var w', r := Apply(w, Visit(k)), w.round.value;
            && w'.ttl == w.ttl && w'.now == w.now && w'.nextTick == w.nextTick
            && w'.round == Some(if !w.items[k].hasLoader then r.(due := r.due - {k})
                                else r.(due := r.due - {k}, on := Some((k, StartEntry(w.items[k], w.nextLoad).1.load))))
    ensures w.items[k].hasLoader ==> Apply(w, Visit(k)).loads == AfterStart(w, k).loads
  {
    hide StartEntry;
  }

  lemma VisitTracks(w: World, k: string, key: string, warm: bool)
    requires Sound(w) && Enabled(w, Visit(k)) && Tracks(w, key, warm)
    ensures Tracks(Apply(w, Visit(k)), key, warm)
  {
    PinStays(w, Visit(k), key);
    VisitShape(w, k);
    if w.items[k].hasLoader {
      StartKeeps(w, k);
    }
    var tick := w.nextTick.value - WarmInterval(w.ttl);
    forall t | StoredSince(w, key, t)
      ensures StoredSince(Apply(w, Visit(k)), key, t)
    {
      StoredStays(w, Visit(k), key, t);
    }
    hide Apply, Sound, AfterStart, StartEntry, StoredSince, Grows, LoadsAfter;
  }

  lemma LeaveTracks(w: World, key: string, warm: bool)
    requires Sound(w) && Enabled(w, LeaveKey) && Tracks(w, key, warm)
    ensures Tracks(Apply(w, LeaveKey), key, warm)
  {
    assert w.loads[w.round.value.on.value.1].phase.Ended?;
  }

  /** A load keeps its key, and runs until the step that lands it. */
  lemma LoadStays(w: World, s: Step, l: nat)
    requires Sound(w) && Enabled(w, s) && l in w.loads
    ensures l in Apply(w, s).loads && Apply(w, s).loads[l].key == w.loads[l].key
    ensures Apply(w, s).loads[l].phase == w.loads[l].phase || (s.Land? && s.load == l)
  {
    assert w.nextLoad !in w.loads;
    hide Sound, FreshAt, Touched, Due;
  }

  lemma QuietTracks(w: World, s: Step, key: string, warm: bool)
    requires Sound(w) && Enabled(w, s) && !s.StartRun? && !s.StartRound? && !s.Visit? && !s.LeaveKey? && !s.EndRound?
    requires Tracks(w, key, warm) && Succeeds(w, s, key)
    ensures Tracks(Apply(w, s), key, warm)
  {
    hide Sound, StoredSince, PinnedKey;
    PinStays(w, s, key);
    RoundUntouched(w, s);
    ClockAndTTL(w, s);
    forall t | StoredSince(w, key, t) {
      StoredStays(w, s, key, t);
    }
    if w.round.Some? && key !in w.round.value.due && w.round.value.on.Some? && w.round.value.on.value.0 == key {
      var l := w.round.value.on.value.1;
      LoadStays(w, s, l);
      if s.Land? && s.load == l {
        LandIsYoung(w, l, s.result, w.nextTick.value - WarmInterval(w.ttl));
      }
    }
    hide Apply, Enabled;
  }

  lemma ClockAndTTL(w: World, s: Step)
    requires Enabled(w, s)
    ensures w.now <= Apply(w, s).now && Apply(w, s).ttl == w.ttl
  {
  }

  lemma TracksStep(w: World, s: Step, key: string, warm: bool)
    requires Sound(w) && Enabled(w, s) && Tracks(w, key, warm) && Succeeds(w, s, key)
    ensures Tracks(Apply(w, s), key, warm || s.EndRound?)
  {
    hide SingleFlight, Truthful;
    match s {
      case Visit(k) => VisitTracks(w, k, key, warm);
      case LeaveKey => LeaveTracks(w, key, warm);
      case StartRound =>
      case EndRound =>
      case _ => QuietTracks(w, s, key, warm);
    }
  }

  /** From the start of a round that knows the key on, the ticks bound the value's age. */
  lemma {:induction false} RunTracks(ws: seq<World>, ss: seq<Step>, key: string, start: nat, j: nat)
    requires IsRun(ws, ss) && start < j < |ws|
    requires ss[start] == StartRound && PinnedKey(ws[start], key)
    requires forall i :: start <= i < |ss| ==> Succeeds(ws[i], ss[i], key)
    ensures Tracks(ws[j], key, ws[start].rounds < ws[j].rounds)
    ensures ws[start].rounds <= ws[j].rounds
  {
    hide Apply, Tracks, Good;
    RunIsGood(ws, ss, j - 1);
    if j == start + 1 {
      FirstRoundTracks(ws[start], key);
    } else {
      RunTracks(ws, ss, key, start, j - 1);
      GoodIsSound(ws[j - 1]);
      TracksStep(ws[j - 1], ss[j - 1], key, ws[start].rounds < ws[j - 1].rounds);
      RoundsCount(ws[j - 1], ss[j - 1]);
    }
  }

  lemma FirstRoundTracks(w: World, key: string)
    requires Enabled(w, StartRound) && PinnedKey(w, key)
    ensures Tracks(Apply(w, StartRound), key, false) && Apply(w, StartRound).rounds == w.rounds
  {
  }

  lemma RoundsCount(w: World, s: Step)
    requires Enabled(w, s)
    ensures Apply(w, s).rounds == if s.EndRound? then w.rounds + 1 else w.rounds
  {
  }

  /** The warm bound: after the first finished round that knew the pinned key,
      its value is at most TTL old at every later moment of the run, whatever
      order the rounds visit the keys in. */
  lemma PinnedStaysFresh(ws: seq<World>, ss: seq<Step>, key: string, start: nat, j: nat)
    requires IsRun(ws, ss) && start < j < |ws|
    requires ss[start] == StartRound && PinnedKey(ws[start], key)
    requires forall i :: start <= i < |ss| ==> Succeeds(ws[i], ss[i], key)
    requires ws[start].rounds < ws[j].rounds && OnTime(ws[j])
    ensures key in ws[j].items && FreshAt(ws[j].items[key], ws[j].now, ws[j].ttl)
  {
    RunTracks(ws, ss, key, start, j);
    RunIsGood(ws, ss, j);
  }

  /** So every request that then looks the key up is a hit. */
  lemma PinnedRequestHits(ws: seq<World>, ss: seq<Step>, key: string, start: nat, j: nat, c: nat)
    requires IsRun(ws, ss) && start < j < |ss|
    requires ss[start] == StartRound && PinnedKey(ws[start], key)
    requires forall i :: start <= i < |ss| ==> Succeeds(ws[i], ss[i], key)
    requires ws[start].rounds < ws[j].rounds && OnTime(ws[j])
    requires ss[j] == Enter(c) && ws[j].calls[c].key == key
    ensures var call := ws[j + 1].calls[c];
            call.Done? && call.reply == Value(Hit, ws[j].items[key].stored.value)
  {
    PinnedStaysFresh(ws, ss, key, start, j);
    RunIsGood(ws, ss, j);
    assert FairCall(ws[j], ws[j].calls[c]);
  }
}
