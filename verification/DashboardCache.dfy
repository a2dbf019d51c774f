/** The dashboard response cache: what each lock-held section does to the
    entries, and the class whose methods are those sections. Times are
    readings of one clock, in nanoseconds. */
module DashboardCache {
  import opened Basics

  datatype Stored = Stored(value: int, at: int)

  /** `inflight` names the load whose done channel the entry holds. */
  datatype Entry = Entry(
    stored: Option<Stored>, hasLoader: bool, pinned: bool, lastAccess: Option<int>, inflight: Option<nat>, failed: bool)

  const NEW_ENTRY := Entry(None, false, false, None, None, false)

  type Items = map<string, Entry>

  datatype State = Hit | Stale | StaleError | Miss

  /** What a lookup under the lock decides: an answer, or a load to wait for. */
  datatype Decision = Serve(state: State, stored: Stored) | Wait(load: nat)

  /** The load a caller gets: the running one, a new one, or one that ended at
      once because nothing can compute the key. */
  datatype Start = Joined(load: nat) | Started(load: nat) | NoLoader(load: nat)

  /** What a caller of GetOrLoad sees. */
  datatype Reply = Value(state: State, stored: Stored) | NotLoaded | Cancelled

  function EntryOf(items: Items, key: string): Entry {
    if key in items then items[key] else NEW_ENTRY
  }

  function Pinned(items: Items, key: string): Items {
    items[key := EntryOf(items, key).(hasLoader := true, pinned := true)]
  }

  /** startLoadLocked on one entry; `newId` names the channel it would make. */
  function StartEntry(e: Entry, newId: nat): (Entry, Start) {
    if e.inflight.Some? then (e, Joined(e.inflight.value))
    else if !e.hasLoader then (e.(failed := true), NoLoader(newId))
    else (e.(inflight := Some(newId)), Started(newId))
  }

  function Touched(e: Entry, giveLoader: bool, asked: int): Entry {
    e.(hasLoader := e.hasLoader || giveLoader, lastAccess := Some(asked))
  }

  predicate FreshAt(e: Entry, asked: int, ttl: int) {
    e.stored.Some? && asked - e.stored.value.at <= ttl
  }

  /** The locked half of GetOrLoad for a caller that read the clock at `asked`:
      the new entry, the decision, and the load it touched, if any. */
  function LookUp(e: Entry, asked: int, ttl: int, maxStale: int, newId: nat): (Entry, Decision, Option<Start>) {
    if FreshAt(e, asked, ttl) then (e, Serve(Hit, e.stored.value), None)
    else
      var (e', start) := StartEntry(e, newId);
      if FreshAt(e, asked, maxStale)
      then (e', Serve(if e.failed then StaleError else Stale, e.stored.value), Some(start))
      else (e', Wait(start.load), Some(start))
  }

  /** A load that ended at `now`, with a value or with an error. */
  function Landed(e: Entry, result: Option<int>, now: int): Entry {
    match result
    case Some(v) => e.(stored := Some(Stored(v, now)), failed := false, inflight := None)
    case None => e.(failed := true, inflight := None)
  }

  /** The unlocked-and-relocked end of a waiting GetOrLoad. */
  function AfterWait(e: Entry): Reply {
    if e.stored.Some? then Value(Miss, e.stored.value) else NotLoaded
  }

  /** Without a stored value or an access the age counts as beyond every bound. */
  predicate IsDue(e: Entry, now: int, ttl: int, maxStale: int) {
    && e.hasLoader
    && (e.pinned || (e.lastAccess.Some? && now - e.lastAccess.value <= maxStale && !FreshAt(e, now, ttl)))
  }

  function Due(items: Items, now: int, ttl: int, maxStale: int): set<string> {
    set k | k in items && IsDue(items[k], now, ttl, maxStale)
  }

  function WarmInterval(ttl: int): int {
    ttl * 4 / 5
  }

  /** The cache object. Each method is one section the source runs under its
      mutex; `loads` counts the done channels made so far. */
  class Cache {
    const TTL: int
    const MaxStale: int
    var items: Items
    var loads: nat

    constructor (ttl: int)
      ensures TTL == ttl && MaxStale == 10 * ttl && items == map[] && loads == 0
    {
      TTL, MaxStale, items, loads := ttl, 10 * ttl, map[], 0;
    }

    method Pin(key: string)
      modifies this`items
      ensures items == Pinned(old(items), key)
      ensures key in items && items[key].pinned && items[key].hasLoader
      ensures items.Keys == old(items).Keys + {key} && forall k :: k in old(items) && k != key ==>
                items[k] == old(items)[k]
    {
      if key !in items {
        items := items[key := NEW_ENTRY];
      }
      items := items[key := items[key].(hasLoader := true, pinned := true)];
    }

    method StartLoadLocked(key: string) returns (start: Start)
      requires key in items
      modifies this
      ensures (items, start) == (var (e, s) := StartEntry(old(items)[key], old(loads)); (old(items)[key := e], s))
      ensures loads == if start.Joined? then old(loads) else old(loads) + 1
    {
      var e := items[key];
      if e.inflight.Some? {
        assert items[key := e] == items;
        return Joined(e.inflight.value);
      }
      var done := loads;
      loads := loads + 1;
      if !e.hasLoader {
        items := items[key := e.(failed := true)];
        return NoLoader(done);
      }
      items := items[key := e.(inflight := Some(done))];
      return Started(done);
    }

    method GetOrLoadLocked(key: string, giveLoader: bool, asked: int) returns (d: Decision)
      modifies this
      ensures (items, d)
           == (var (e, decision, _) := LookUp(Touched(EntryOf(old(items), key), giveLoader, asked), asked, TTL,
               MaxStale, old(loads));
               (old(items)[key := e], decision))
      ensures loads == old(loads)
           || (loads == old(loads) + 1 && old(EntryOf(items, key)).inflight.None?)
    {
      if key !in items {
        items := items[key := NEW_ENTRY];
      }
      if giveLoader {
        items := items[key := items[key].(hasLoader := true)];
      }
      items := items[key := items[key].(lastAccess := Some(asked))];
      var e := items[key];
      assert items == old(items)[key := Touched(EntryOf(old(items), key), giveLoader, asked)];
      ghost var touched := items;
      hide Touched, StartEntry;
      if e.stored.Some? && asked - e.stored.value.at <= TTL {
        return Serve(Hit, e.stored.value);
      }
      if e.stored.Some? && asked - e.stored.value.at <= MaxStale {
        var state := if e.failed then StaleError else Stale;
        var _ := StartLoadLocked(key);
        assert items == old(items)[key := StartEntry(touched[key], old(loads)).0];
        return Serve(state, e.stored.value);
      }
      var start := StartLoadLocked(key);
      assert items == old(items)[key := StartEntry(touched[key], old(loads)).0];
      return Wait(start.load);
    }

    /** The first locked section of Refresh; None when nothing can compute the key. */
    method RefreshLocked(key: string) returns (start: Option<Start>)
      modifies this
      ensures start.None? <==> !(key in old(items) && old(items)[key].hasLoader)
      ensures start.None? ==> items == old(items) && loads == old(loads)
      ensures start.Some? ==>
                (items, start.value)
                    == (var (e, s) := StartEntry(old(items)[key], old(loads)); (old(items)[key := e], s))
      ensures start.Some? ==> loads == if start.value.Joined? then old(loads) else old(loads) + 1
    {
      if key !in items || !items[key].hasLoader {
        return None;
      }
      var s := StartLoadLocked(key);
      return Some(s);
    }

    /** Its second one: the outcome is the entry's, whichever load left it. */
    method RefreshOutcome(key: string) returns (ok: bool)
      requires key in items
      ensures ok == !items[key].failed
    {
      return !items[key].failed;
    }

    method LandLoad(key: string, result: Option<int>, now: int)
      requires key in items
      modifies this`items
      ensures items == old(items)[key := Landed(old(items)[key], result, now)]
    {
      var e := items[key];
      if result.Some? {
        e := e.(stored := Some(Stored(result.value, now)), failed := false);
      } else {
        e := e.(failed := true);
      }
      items := items[key := e.(inflight := None)];
    }

    /** The map iteration of dueKeys, in whatever order the keys come. */
    method DueKeys(now: int) returns (out: set<string>)
      ensures out == Due(items, now, TTL, MaxStale)
      ensures forall k :: k in out <==>
                && k in items && items[k].hasLoader
                && (items[k].pinned
                    || (items[k].lastAccess.Some? && now - items[k].lastAccess.value <= MaxStale
                        && (items[k].stored.None? || now - items[k].stored.value.at > TTL)))
    {
      out := {};
      var rest := items.Keys;
      while rest != {}
        invariant rest <= items.Keys
        invariant out == set k | k in items && k !in rest && IsDue(items[k], now, TTL, MaxStale)
        decreases rest
      {
        var k :| k in rest;
        rest := rest - {k};
        var e := items[k];
        if !e.hasLoader {
          continue;
        }
        if e.pinned {
          out := out + {k};
          continue;
        }
        if e.lastAccess.Some? && now - e.lastAccess.value <= MaxStale && !FreshAt(e, now, TTL) {
          out := out + {k};
        }
      }
    }
  }
}
