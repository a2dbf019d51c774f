/** The shared certificate-probe cache: one pass over a set of domains at a
    time, remembered under a key made of the sorted domain names. */
module CertProbe {
  import opened Basics
  import opened Ordering

  // ----- the key -----

  const NUL := '\0'

  predicate NulFree(s: string) {
    NUL !in s
  }

  predicate AllNulFree(names: seq<string>) {
    forall i :: 0 <= i < |names| ==> NulFree(names[i])
  }

  /** strings.Join with a NUL between the names. */
  function Join(names: seq<string>): string {
    if names == [] then "" else if |names| == 1 then names[0] else names[0] + [NUL] + Join(names[1..])
  }

  function KeyOf(domains: seq<string>): string {
    Join(SortStrings(domains))
  }

  function SetOf(names: seq<string>): set<string> {
    set i | 0 <= i < |names| :: names[i]
  }

  lemma SortKeepsNames(names: seq<string>)
    ensures multiset(SortStrings(names)) == multiset(names)
    ensures SetOf(SortStrings(names)) == SetOf(names)
    ensures AllNulFree(names) ==> AllNulFree(SortStrings(names))
  {
    InsertAllKeepsElements([], names, IN_ORDER);
    SameElementsSameSet(SortStrings(names), names);
    var sorted := SortStrings(names);
    hide SortStrings;
    forall i | 0 <= i < |sorted|
      ensures sorted[i] in SetOf(names)
    {
      assert sorted[i] in SetOf(sorted);
    }
  }

  lemma SameElementsSameSet(a: seq<string>, b: seq<string>)
    requires multiset(a) == multiset(b)
    ensures SetOf(a) == SetOf(b)
  {
    forall x
      ensures x in SetOf(a) <==> x in multiset(a)
      ensures x in SetOf(b) <==> x in multiset(b)
    {
      MemberOf(a, x);
      MemberOf(b, x);
    }
  }

  lemma MemberOf(a: seq<string>, x: string)
    ensures x in SetOf(a) <==> x in multiset(a)
  {
    assert x in multiset(a) <==> x in a;
  }

  /** The length of the part before the first NUL. */
  function BeforeNul(s: string): nat {
    if s == "" || s[0] == NUL then 0 else 1 + BeforeNul(s[1..])
  }

  lemma {:induction false} BeforeNulIs(a: string, x: string)
    requires NulFree(a)
    ensures BeforeNul(a + [NUL] + x) == |a|
  {
    if a == "" {
      assert (a + [NUL] + x)[0] == NUL;
    } else {
      assert (a + [NUL] + x)[1..] == a[1..] + [NUL] + x && (a + [NUL] + x)[0] == a[0];
      BeforeNulIs(a[1..], x);
    }
  }

  /** Up to the first NUL two equal keys agree, so their first names do. */
  lemma HeadOfJoin(a: string, x: string, b: string, y: string)
    requires NulFree(a) && NulFree(b) && a + [NUL] + x == b + [NUL] + y
    ensures a == b && x == y
  {
    BeforeNulIs(a, x);
    BeforeNulIs(b, y);
    var s := a + [NUL] + x;
    assert s[..|a|] == a && s[..|b|] == b;
    assert s[|a| + 1..] == x && s[|b| + 1..] == y;
  }

  predicate EmptyPair(a: seq<string>, b: seq<string>) {
    (a == [] && b == [""]) || (a == [""] && b == [])
  }

  /** The key tells NUL-free lists apart, but for the empty list and the list of one empty name. */
  lemma {:induction false} JoinTellsApart(a: seq<string>, b: seq<string>)
    requires AllNulFree(a) && AllNulFree(b)
    ensures Join(a) == Join(b) <==> a == b || EmptyPair(a, b)
  {
    if |a| >= 2 && |b| >= 2 {
      JoinTellsApart(a[1..], b[1..]);
      if Join(a) == Join(b) {
        HeadOfJoin(a[0], Join(a[1..]), b[0], Join(b[1..]));
      }
      assert a == [a[0]] + a[1..] && b == [b[0]] + b[1..];
    } else if |a| >= 2 {
      assert NUL in Join(a) by { assert Join(a)[|a[0]|] == NUL; }
    } else if |b| >= 2 {
      assert NUL in Join(b) by { assert Join(b)[|b[0]|] == NUL; }
    }
  }

  // ----- the locked sections -----

  /** What a finished pass left: when, under which key, and a result per domain.
      A result is known by the pass that made it. */
  datatype Memory = Memory(at: Option<int>, key: string, results: map<string, nat>)

  function Probed(domains: seq<string>, pass: nat): map<string, nat> {
    map d | d in SetOf(domains) :: pass
  }

  predicate IsHit(m: Memory, key: string, now: int, ttl: int) {
    m.key == key && m.at.Some? && now - m.at.value <= ttl
  }

  function Forgotten(m: Memory): Memory {
    m.(at := None, key := "")
  }

  datatype Verdict = Hit(results: map<string, nat>) | Join_(pass: nat) | Start(pass: nat)

  /** The first half of Results: an answer, the running pass to wait for, or a new pass. */
  function Checked(m: Memory, inflight: Option<nat>, passes: nat, domains: seq<string>, now: int, ttl: int): Verdict {
    if IsHit(m, KeyOf(domains), now, ttl) then Hit(m.results)
    else if inflight.Some? then Join_(inflight.value)
    else Start(passes)
  }

  /** What a pass over the domains leaves. */
  function Remembered(domains: seq<string>, pass: nat, now: int): Memory {
    Memory(Some(now), KeyOf(domains), Probed(domains, pass))
  }

  /** The cache object; `passes` counts the done channels made so far. */
  class Cache {
    const TTL: int
    var memory: Memory
    var inflight: Option<nat>
    var passes: nat

    constructor (ttl: int)
      ensures TTL == ttl && memory == Memory(None, "", map[]) && inflight == None && passes == 0
    {
      TTL, memory, inflight, passes := ttl, Memory(None, "", map[]), None, 0;
    }

    method Invalidate()
      modifies this`memory
      ensures memory == Forgotten(old(memory))
    {
      memory := memory.(at := None, key := "");
    }

    /** The first half of Results: answer, wait for the running pass, or start one. */
    method Check(domains: seq<string>, now: int) returns (v: Verdict)
      modifies this`inflight, this`passes
      ensures v == Checked(memory, old(inflight), old(passes), domains, now, TTL)
      ensures inflight == if v.Start? then Some(v.pass) else old(inflight)
      ensures passes == if v.Start? then old(passes) + 1 else old(passes)
    {
      if memory.key == KeyOf(domains) && memory.at.Some? && now - memory.at.value <= TTL {
        return Hit(memory.results);
      }
      if inflight.Some? {
        return Join_(inflight.value);
      }
      v := Start(passes);
      inflight := Some(passes);
      passes := passes + 1;
    }

    /** probeAll collects one answer per listed domain, and the second half of Results stores them. */
    method Finish(domains: seq<string>, pass: nat, now: int) returns (results: map<string, nat>)
      modifies this`memory, this`inflight
      ensures results == Probed(domains, pass)
      ensures memory == Remembered(domains, pass, now) && inflight == None
    {
      results := map[];
      for i := 0 to |domains|
        invariant results == Probed(domains[..i], pass)
      {
        assert SetOf(domains[..i + 1]) == SetOf(domains[..i]) + {domains[i]} by { OneMoreName(domains, i); }
        results := results[domains[i] := pass];
      }
      assert domains[..|domains|] == domains;
      memory, inflight := Memory(Some(now), KeyOf(domains), results), None;
    }
  }

  lemma OneMoreName(names: seq<string>, i: nat)
    requires i < |names|
    ensures SetOf(names[..i + 1]) == SetOf(names[..i]) + {names[i]}
  {
    assert names[..i + 1][i] == names[i];
    assert forall k :: 0 <= k < i ==> names[..i + 1][k] == names[..i][k];
  }

  // ----- the protocol -----

  /** One call of Results. `Told` remembers when the answer was given, how old
      the pass was then, and which pass it was. */
  datatype Call =
    | Asking(domains: seq<string>)
    | Waiting(domains: seq<string>, pass: nat)
    | Probing(domains: seq<string>, pass: nat)
    | Told(domains: seq<string>, results: map<string, nat>, age: int, pass: nat)
    | Cancelled

  datatype Flight = Flight(pass: nat, call: nat)

  /** `filled` and `last` are the domains and the number of the pass the memory holds. */
  datatype World = World(
    now: int, ttl: int, memory: Memory, inflight: Option<Flight>, passes: nat, closed: set<nat>, calls: map<nat, Call>,
    filled: seq<string>, last: nat)

  datatype Step =
    | Advance(delta: nat)
    | Begin(call: nat, domains: seq<string>)
    | Check(call: nat)
    | Finish(call: nat)
    | Close(pass: nat)
    | Wake(call: nat)
    | GiveUp(call: nat)
    | Invalidate

  function PassOf(inflight: Option<Flight>): Option<nat> {
    if inflight.Some? then Some(inflight.value.pass) else None
  }

  predicate Enabled(w: World, s: Step) {
    match s
    case Advance(_) => true
    case Begin(c, domains) => c !in w.calls && AllNulFree(domains)
    case Check(c) => c in w.calls && w.calls[c].Asking?
    case Finish(c) => c in w.calls && w.calls[c].Probing?
    case Close(p) => p < w.passes && (w.inflight.Some? ==> w.inflight.value.pass != p)
    case Wake(c) => c in w.calls && w.calls[c].Waiting? && w.calls[c].pass in w.closed
    case GiveUp(c) => c in w.calls && w.calls[c].Waiting?
    case Invalidate => true
  }

  function Apply(w: World, s: Step): World
    requires Enabled(w, s)
  {
    match s
    case Advance(d) => w.(now := w.now + d)
    case Begin(c, domains) => w.(calls := w.calls[c := Asking(domains)])
    case Check(c) =>
      var ds := w.calls[c].domains;
      (match Checked(w.memory, PassOf(w.inflight), w.passes, ds, w.now, w.ttl)
       case Hit(results) => w.(calls := w.calls[c := Told(ds, results, w.now - w.memory.at.value, w.last)])
       case Join_(p) => w.(calls := w.calls[c := Waiting(ds, p)])
       case Start(p) =>
         w.(calls := w.calls[c := Probing(ds, p)], inflight := Some(Flight(p, c)), passes := w.passes + 1))
    case Finish(c) =>
      var ds, p := w.calls[c].domains, w.calls[c].pass;
      w.(memory := Remembered(ds, p, w.now), inflight := None, filled := ds, last := p,
         calls := w.calls[c := Told(ds, Probed(ds, p), 0, p)])
    case Close(p) => w.(closed := w.closed + {p})
    case Wake(c) => w.(calls := w.calls[c := Asking(w.calls[c].domains)])
    case GiveUp(c) => w.(calls := w.calls[c := Cancelled])
    case Invalidate => w.(memory := Forgotten(w.memory))
  }

  predicate Init(w: World) {
    && w.memory == Memory(None, "", map[]) && w.inflight == None && w.passes == 0 && w.closed == {} && w.calls == map[]
    && w.filled == [] && w.last == 0 && 0 <= w.ttl
  }

  predicate IsRun(ws: seq<World>, ss: seq<Step>) {
    && |ws| == |ss| + 1
    && Init(ws[0])
    && forall i :: 0 <= i < |ss| ==> Enabled(ws[i], ss[i]) && ws[i + 1] == Apply(ws[i], ss[i])
  }

  /** The names of an answer, up to the one pair of requests that share a key. */
  predicate NamesFit(domains: seq<string>, names: set<string>) {
    names == SetOf(domains) || (domains == [] && names == {""}) || (domains == [""] && names == {})
  }

  ghost predicate FairCall(w: World, c: nat)
    requires c in w.calls
  {
    match w.calls[c]
    case Asking(domains) => AllNulFree(domains)
    case Waiting(domains, p) => AllNulFree(domains)
    case Probing(domains, p) => AllNulFree(domains) && w.inflight == Some(Flight(p, c))
    case Told(domains, results, age, p) => NamesFit(domains, results.Keys) && 0 <= age <= w.ttl && p < w.passes
    case Cancelled => true
  }

  ghost predicate FairMemory(w: World) {
    && 0 <= w.ttl
    && (w.memory.at.Some? ==>
          && w.memory.at.value <= w.now && w.last < w.passes
          && AllNulFree(w.filled) && w.memory.key == KeyOf(w.filled) && w.memory.results == Probed(w.filled, w.last))
    && (w.inflight.Some? ==>
          w.inflight.value.pass < w.passes && w.inflight.value.call in w.calls
              && w.calls[w.inflight.value.call].Probing?)
  }

  ghost predicate Good(w: World) {
    FairMemory(w) && forall c :: c in w.calls ==> FairCall(w, c)
  }

  lemma SameKeySameNames(a: seq<string>, b: seq<string>)
    requires AllNulFree(a) && AllNulFree(b) && KeyOf(a) == KeyOf(b)
    ensures NamesFit(a, SetOf(b))
  {
    SortKeepsNames(a);
    SortKeepsNames(b);
    JoinTellsApart(SortStrings(a), SortStrings(b));
    if SortStrings(a) != SortStrings(b) {
      SortOfShort(a);
      SortOfShort(b);
    }
    hide SortStrings, Join;
  }

  lemma SortOfShort(a: seq<string>)
    ensures SortStrings(a) == [] ==> a == []
    ensures SortStrings(a) == [""] ==> a == [""]
  {
    SortKeepsNames(a);
    var sorted := SortStrings(a);
    hide SortStrings;
    assert |multiset(a)| == |a| && |multiset(sorted)| == |sorted|;
    if sorted == [""] {
      assert a[0] in multiset(a);
    }
  }

  lemma MemoryStep(w: World, s: Step)
    requires Good(w) && Enabled(w, s)
    ensures FairMemory(Apply(w, s))
  {
    hide KeyOf, Probed;
    if s.Finish? {
      assert FairCall(w, s.call);
    }
    if w.inflight.Some? {
      assert FairCall(w, w.inflight.value.call);
    }
  }

  lemma CallStep(w: World, s: Step, c: nat)
    requires Good(w) && Enabled(w, s) && c in Apply(w, s).calls
    ensures FairCall(Apply(w, s), c)
  {
    if c in w.calls {
      assert FairCall(w, c);
    }
    if s.Finish? {
      assert FairCall(w, s.call);
    }
    if s == Check(c) && IsHit(w.memory, KeyOf(w.calls[c].domains), w.now, w.ttl) {
      SameKeySameNames(w.calls[c].domains, w.filled);
    }
    hide KeyOf, AllNulFree, SetOf;
  }

  lemma {:induction false} RunIsGood(ws: seq<World>, ss: seq<Step>, i: nat)
    requires IsRun(ws, ss) && i < |ws|
    ensures Good(ws[i])
  {
    if i > 0 {
      RunIsGood(ws, ss, i - 1);
      MemoryStep(ws[i - 1], ss[i - 1]);
      forall c | c in ws[i].calls {
        CallStep(ws[i - 1], ss[i - 1], c);
      }
    }
  }

  /** At most one pass runs at a time, over all callers and domain sets. */
  lemma OnePassAtATime(ws: seq<World>, ss: seq<Step>, i: nat, c: nat, d: nat)
    requires IsRun(ws, ss) && i < |ws| && c in ws[i].calls && d in ws[i].calls
    requires ws[i].calls[c].Probing? && ws[i].calls[d].Probing?
    ensures c == d
  {
    RunIsGood(ws, ss, i);
    assert FairCall(ws[i], c) && FairCall(ws[i], d);
  }

  /** Every answer names exactly the domains asked for, unless nothing or only
      the empty name was asked for, and was at most TTL old when given. */
  lemma AnswersFit(ws: seq<World>, ss: seq<Step>, i: nat, c: nat)
    requires IsRun(ws, ss) && i < |ws| && c in ws[i].calls && ws[i].calls[c].Told?
    ensures ws[i].calls[c].domains != [] && ws[i].calls[c].domains != [""] ==>
              ws[i].calls[c].results.Keys == SetOf(ws[i].calls[c].domains)
    ensures NamesFit(ws[i].calls[c].domains, ws[i].calls[c].results.Keys)
    ensures 0 <= ws[i].calls[c].age <= ws[i].ttl
  {
    RunIsGood(ws, ss, i);
    assert FairCall(ws[i], c);
  }

  /** After a pass over the one empty name, a request for nothing is answered with it. */
  lemma EmptyRequestGetsEmptyName(m: Memory, now: int, ttl: int, pass: nat)
    requires m == Memory(Some(now), KeyOf([""]), Probed([""], pass)) && 0 <= ttl
    ensures IsHit(m, KeyOf([]), now, ttl) && "" in m.results
  {
    assert SortStrings([""]) == [""] by {
      assert [""][..0] == [];
      assert InsertAll([], [""][..0], IN_ORDER) == [];
    }
    assert [""][0] in SetOf([""]);
  }

  // ----- invalidation -----

  /** Since world `from`, the memory holds nothing older than the passes begun after it. */
  predicate NewSince(w: World, passes: nat) {
    && passes <= w.passes
    && (w.memory.at.Some? ==> passes <= w.last)
    && (w.inflight.Some? ==> passes <= w.inflight.value.pass)
  }

  lemma NewStep(w: World, s: Step, passes: nat)
    requires Good(w) && Enabled(w, s) && NewSince(w, passes)
    ensures NewSince(Apply(w, s), passes)
  {
    hide KeyOf, Probed;
    if s.Finish? {
      assert FairCall(w, s.call);
    }
  }

  lemma {:induction false} StaysNew(ws: seq<World>, ss: seq<Step>, i: nat, j: nat)
    requires IsRun(ws, ss) && i <= j < |ws| && NewSince(ws[i], ws[i].passes)
    ensures NewSince(ws[j], ws[i].passes)
  {
    if i < j {
      StaysNew(ws, ss, i, j - 1);
      RunIsGood(ws, ss, j - 1);
      NewStep(ws[j - 1], ss[j - 1], ws[i].passes);
    }
  }

  /** After an Invalidate with no pass in flight every answer given later comes
      from a pass that began after it. */
  lemma InvalidateForcesAPass(ws: seq<World>, ss: seq<Step>, i: nat, j: nat, c: nat)
    requires IsRun(ws, ss) && i < j < |ss| && ss[i] == Invalidate && ws[i].inflight == None
    requires (ss[j] == Check(c) || ss[j] == Finish(c)) && ws[j + 1].calls[c].Told?
    ensures ws[i].passes <= ws[j + 1].calls[c].pass
  {
    StaysNew(ws, ss, i + 1, j);
    RunIsGood(ws, ss, j);
    assert FairCall(ws[j], c);
    hide KeyOf, Probed;
  }

  // ----- sharing -----

  /** Two requests for the same domains, in whatever order, have the same key. */
  lemma KeyIgnoresOrder(a: seq<string>, b: seq<string>)
    requires multiset(a) == multiset(b)
    ensures KeyOf(a) == KeyOf(b)
  {
    SortIgnoresOrder(a, b);
    hide Join, SortStrings;
  }

  /** A check is answered from memory exactly when a pass under its key is at most
      TTL old; else it waits for the pass in flight, or starts one. */
  lemma CheckEffect(w: World, c: nat)
    requires Enabled(w, Check(c))
    ensures var ds, w' := w.calls[c].domains, Apply(w, Check(c));
            && c in w'.calls && w'.memory == w.memory && w'.now == w.now
            && if w.memory.key == KeyOf(ds) && w.memory.at.Some? && w.now - w.memory.at.value <= w.ttl then
                 && w'.calls[c] == Told(ds, w.memory.results, w.now - w.memory.at.value, w.last)
                 && w'.inflight == w.inflight && w'.passes == w.passes
               else if w.inflight.Some? then
                 w'.calls[c] == Waiting(ds, w.inflight.value.pass) && w'.inflight == w.inflight && w'.passes == w.passes
               else
                 && w'.calls[c] == Probing(ds, w.passes) && w'.inflight == Some(Flight(w.passes, c))
                 && w'.passes == w.passes + 1
  {
    hide KeyOf;
  }

  /** A finished pass answers its caller and stays in memory, with its key, its
      time and a result for each of its domains. */
  lemma FinishEffect(w: World, c: nat)
    requires Enabled(w, Finish(c))
    ensures var call, w' := w.calls[c], Apply(w, Finish(c));
            && w'.memory.at == Some(w.now) && w'.memory.key == KeyOf(call.domains)
            && (forall d :: d in w'.memory.results <==> d in call.domains)
            && (forall d :: d in w'.memory.results ==> w'.memory.results[d] == call.pass)
            && c in w'.calls && w'.calls[c] == Told(call.domains, w'.memory.results, 0, call.pass)
            && w'.last == call.pass && w'.inflight == None && w'.ttl == w.ttl
  {
    forall d
      ensures d in SetOf(w.calls[c].domains) <==> d in w.calls[c].domains
    {
      MemberOf(w.calls[c].domains, d);
    }
    hide KeyOf, SetOf;
  }

  lemma MemoryStays(w: World, s: Step)
    requires Enabled(w, s) && !s.Finish? && s != Invalidate
    ensures Apply(w, s).memory == w.memory && Apply(w, s).last == w.last && Apply(w, s).ttl == w.ttl
  {
    hide KeyOf, Checked;
  }

  lemma RunStep(ws: seq<World>, ss: seq<Step>, i: nat)
    requires IsRun(ws, ss) && i < |ss|
    ensures |ws| == |ss| + 1 && Enabled(ws[i], ss[i]) && ws[i + 1] == Apply(ws[i], ss[i])
  {
    hide Apply, Enabled;
  }

  lemma {:induction false} MemoryKept(ws: seq<World>, ss: seq<Step>, i: nat, j: nat)
    requires IsRun(ws, ss) && i <= j < |ws| && forall k :: i <= k < j ==> !ss[k].Finish? && ss[k] != Invalidate
    ensures ws[j].memory == ws[i].memory && ws[j].last == ws[i].last && ws[j].ttl == ws[i].ttl
  {
    if i < j {
      RunLength(ws, ss);
      MemoryKept(ws, ss, i, j - 1);
      RunStep(ws, ss, j - 1);
      hide IsRun, Apply, Enabled;
      MemoryStays(ws[j - 1], ss[j - 1]);
    }
  }

  lemma RunLength(ws: seq<World>, ss: seq<Step>)
    requires IsRun(ws, ss)
    ensures |ws| == |ss| + 1
  {
  }

  /** A pass is shared: within TTL of its end, with nothing invalidated and no
      other pass finished, a request for the same domains in any order gets its
      results without another pass. */
  lemma PassIsShared(ws: seq<World>, ss: seq<Step>, i: nat, j: nat, c: nat, d: nat)
    requires IsRun(ws, ss) && i < j < |ss| && ss[i] == Finish(c) && ss[j] == Check(d)
    requires forall k :: i < k < j ==> !ss[k].Finish? && ss[k] != Invalidate
    requires c in ws[i].calls && ws[i].calls[c].Probing? && d in ws[j].calls && ws[j].calls[d].Asking?
    requires multiset(ws[j].calls[d].domains) == multiset(ws[i].calls[c].domains)
    requires ws[j].now - ws[i].now <= ws[i].ttl
    ensures d in ws[j + 1].calls && ws[j + 1].calls[d].Told? && ws[j + 1].calls[d].pass == ws[i].calls[c].pass
    ensures ws[j + 1].calls[d].results == ws[i + 1].memory.results && ws[j + 1].passes == ws[j].passes
  {
    RunStep(ws, ss, i);
    RunStep(ws, ss, j);
    FinishEffect(ws[i], c);
    MemoryKept(ws, ss, i + 1, j);
    KeyIgnoresOrder(ws[j].calls[d].domains, ws[i].calls[c].domains);
    CheckEffect(ws[j], d);
    hide IsRun, Apply, Enabled, KeyOf;
  }
}
