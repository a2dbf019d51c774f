/** Loops that write rows under natural keys and may fail, over tables seen as
    maps from key to row. */
module Upserts {
  import opened Basics

  function Get<K, V>(m: map<K, V>, k: K): Option<V> {
    if k in m then Some(m[k]) else None
  }

  /** A loop that stops at the first step that fails. */
  function Fold<S, X>(s: S, xs: seq<X>, step: (S, X) -> Option<S>): Option<S> {
    if xs == [] then Some(s)
    else
      match Fold(s, xs[..|xs| - 1], step)
      case None => None
      case Some(t) => step(t, xs[|xs| - 1])
  }

  lemma {:induction false} FailedPrefix<S, X>(s: S, xs: seq<X>, i: nat, step: (S, X) -> Option<S>)
    requires i <= |xs| && Fold(s, xs[..i], step).None?
    ensures Fold(s, xs, step).None?
    decreases |xs|
  {
    if i < |xs| {
      assert xs[..|xs| - 1][..i] == xs[..i];
      FailedPrefix(s, xs[..|xs| - 1], i, step);
    } else {
      assert xs[..i] == xs;
    }
  }

  lemma FoldOneMore<S, X>(s: S, xs: seq<X>, i: nat, step: (S, X) -> Option<S>)
    requires i < |xs|
    ensures Fold(s, xs[..i + 1], step)
         == (match Fold(s, xs[..i], step) case None => None case Some(t) => step(t, xs[i]))
  {
    assert xs[..i + 1][..i] == xs[..i];
  }

  // ----- one row per entry: the last entry of a key decides -----

  function LastOf<X>(xs: seq<X>, key: X -> string, k: string): Option<X> {
    if xs == [] then None
    else if key(xs[|xs| - 1]) == k then Some(xs[|xs| - 1])
    else LastOf(xs[..|xs| - 1], key, k)
  }

  function KeysOf<X>(xs: seq<X>, key: X -> string): set<string> {
    set i | 0 <= i < |xs| :: key(xs[i])
  }

  lemma KeysOfOneMore<X>(xs: seq<X>, x: X, key: X -> string)
    ensures KeysOf(xs + [x], key) == KeysOf(xs, key) + {key(x)}
  {
    var all := xs + [x];
    assert all[|xs|] == x;
    assert forall i :: 0 <= i < |xs| ==> all[i] == xs[i];
  }

  lemma {:induction false} LastOfIsThere<X>(xs: seq<X>, key: X -> string, k: string)
    ensures LastOf(xs, key, k).Some? <==> k in KeysOf(xs, key)
    ensures LastOf(xs, key, k).Some? ==> LastOf(xs, key, k).value in xs && key(LastOf(xs, key, k).value) == k
  {
    if xs != [] {
      var front, last := xs[..|xs| - 1], xs[|xs| - 1];
      LastOfIsThere(front, key, k);
      assert xs == front + [last];
      KeysOfOneMore(front, last, key);
    }
  }

  lemma {:induction false} LastOfDistinct<X>(xs: seq<X>, key: X -> string, i: nat)
    requires i < |xs| && forall a, b :: 0 <= a < b < |xs| ==> key(xs[a]) != key(xs[b])
    ensures LastOf(xs, key, key(xs[i])) == Some(xs[i])
  {
    if i < |xs| - 1 {
      LastOfDistinct(xs[..|xs| - 1], key, i);
    }
  }

  /** What a table row becomes when an entry is written over it. */
  type Write<!X, !V> = (X, Option<V>) -> V

  /** The table `m` after the entries, each computed from the row in `from`. */
  function Upserted<X, V>(
      from: map<string, V>, m: map<string, V>, xs: seq<X>, key: X -> string, write: Write<X, V>): map<string, V> {
    if xs == [] then m
    else
      var x := xs[|xs| - 1];
      Upserted(from, m, xs[..|xs| - 1], key, write)[key(x) := write(x, Get(from, key(x)))]
  }

  lemma {:induction false} UpsertedAt<X, V>(
      from: map<string, V>, m: map<string, V>, xs: seq<X>, key: X -> string, write: Write<X, V>, k: string)
    ensures Get(Upserted(from, m, xs, key, write), k)
         == (match LastOf(xs, key, k) case None => Get(m, k) case Some(x) => Some(write(x, Get(from, k))))
  {
    if xs != [] {
      UpsertedAt(from, m, xs[..|xs| - 1], key, write, k);
    }
  }

  lemma SameMaps<V>(m: map<string, V>, n: map<string, V>)
    requires forall k :: Get(m, k) == Get(n, k)
    ensures m == n
  {
    forall k
      ensures k in m <==> k in n
      ensures k in m ==> m[k] == n[k]
    {
      assert Get(m, k) == Get(n, k);
    }
    assert m.Keys == n.Keys;
  }

  /** A table in which every row already is what its last entry makes of it stays as it is. */
  lemma UpsertedSettled<X, V>(m: map<string, V>, xs: seq<X>, key: X -> string, write: Write<X, V>)
    requires forall k :: LastOf(xs, key, k).Some? ==> Get(m, k) == Some(write(LastOf(xs, key, k).value, Get(m, k)))
    ensures Upserted(m, m, xs, key, write) == m
  {
    forall k
      ensures Get(Upserted(m, m, xs, key, write), k) == Get(m, k)
    {
      UpsertedAt(m, m, xs, key, write, k);
    }
    SameMaps(Upserted(m, m, xs, key, write), m);
  }

  /** Writing an entry twice is writing it once. */
  ghost predicate Settles<X(!new), V(!new)>(write: Write<X, V>) {
    forall x, o :: write(x, Some(write(x, o))) == write(x, o)
  }

  lemma UpsertedTwice<X(!new), V(!new)>(m: map<string, V>, xs: seq<X>, key: X -> string, write: Write<X, V>)
    requires Settles(write)
    ensures var w := Upserted(m, m, xs, key, write); Upserted(w, w, xs, key, write) == w
  {
    var w := Upserted(m, m, xs, key, write);
    forall k | LastOf(xs, key, k).Some?
      ensures Get(w, k) == Some(write(LastOf(xs, key, k).value, Get(w, k)))
    {
      UpsertedAt(m, m, xs, key, write, k);
    }
    UpsertedSettled(w, xs, key, write);
  }

  /** One entry of a loop of upserts. With `replace` the table was emptied, so a
      second row of the same key is a constraint violation. With `from` the
      write reads the row there instead of the current one. */
  function Upsert<X, V>(
      key: X -> string, ok: X -> bool, write: Write<X, V>, replace: bool, from: Option<map<string, V>>)
    : (map<string, V>, X) -> Option<map<string, V>>
  {
    (m: map<string, V>, x: X) =>
      if !ok(x) || (replace && key(x) in m) then None
      else Some(m[key(x) := write(x, Get(if from.Some? then from.value else m, key(x)))])
  }

  /** A later write hides an earlier one of the same row. */
  ghost predicate Absorbs<X(!new), V(!new)>(write: Write<X, V>) {
    forall x, y, o :: write(x, Some(write(y, o))) == write(x, o)
  }

  ghost predicate DistinctKeys<X>(xs: seq<X>, key: X -> string) {
    forall i, j :: 0 <= i < j < |xs| ==> key(xs[i]) != key(xs[j])
  }

  lemma {:induction false} UpsertedKeys<X, V>(
      from: map<string, V>, m: map<string, V>, xs: seq<X>, key: X -> string, write: Write<X, V>)
    ensures Upserted(from, m, xs, key, write).Keys == m.Keys + KeysOf(xs, key)
  {
    if xs != [] {
      UpsertedKeys(from, m, xs[..|xs| - 1], key, write);
      assert xs == xs[..|xs| - 1] + [xs[|xs| - 1]];
      KeysOfOneMore(xs[..|xs| - 1], xs[|xs| - 1], key);
    }
  }

  ghost predicate AllOk<X(!new)>(xs: seq<X>, ok: X -> bool) {
    forall x :: x in xs ==> ok(x)
  }

  /** One more step of a loop of upserts that has succeeded so far. */
  lemma UpsertStep<X(!new), V(!new)>(
      m: map<string, V>, front: seq<X>, x: X, key: X -> string, ok: X -> bool, write: Write<X, V>, replace: bool,
      from: Option<map<string, V>>)
    requires if from.Some? then from.value == m else Absorbs(write)
    ensures var t := Upserted(m, m, front, key, write); var r := Upsert(key, ok, write, replace, from)(t, x);
            && (r.Some? <==> ok(x) && (replace ==> key(x) !in KeysOf(front, key) && key(x) !in m))
            && (r.Some? ==> r.value == Upserted(m, m, front + [x], key, write))
  {
    hide Upserted, KeysOf, LastOf;
    UpsertedKeys(m, m, front, key, write);
    UpsertedAt(m, m, front, key, write, key(x));
    UpsertedOneMore(m, m, front, x, key, write);
  }

  ghost predicate FreshKeys<X, V>(m: map<string, V>, xs: seq<X>, key: X -> string) {
    DistinctKeys(xs, key) && KeysOf(xs, key) !! m.Keys
  }

  lemma FreshOneMore<X, V>(m: map<string, V>, front: seq<X>, x: X, key: X -> string)
    ensures FreshKeys(m, front + [x], key)
            <==> FreshKeys(m, front, key) && key(x) !in KeysOf(front, key) && key(x) !in m
  {
    hide KeysOf, DistinctKeys;
    DistinctOneMore(front, x, key);
    KeysOfOneMore(front, x, key);
  }

  /** A loop of upserts leaves each row as its last entry makes it of the row
      before the loop, and fails only for an entry that is not ok or, when
      replacing, for a key that comes twice. */
  lemma {:induction false} UpsertLoop<X(!new), V(!new)>(
      m: map<string, V>, xs: seq<X>, key: X -> string, ok: X -> bool, write: Write<X, V>, replace: bool,
      from: Option<map<string, V>>)
    requires if from.Some? then from.value == m else Absorbs(write)
    ensures var r := Fold(m, xs, Upsert(key, ok, write, replace, from));
            && (r.Some? <==> AllOk(xs, ok) && (replace ==> FreshKeys(m, xs, key)))
            && (r.Some? ==> r.value == Upserted(m, m, xs, key, write))
  {
    hide Upsert, FreshKeys, KeysOf, Absorbs;
    if xs == [] {
      assert FreshKeys(m, xs, key) by { NoKeys(m, xs, key); }
    } else {
      var front, x := xs[..|xs| - 1], xs[|xs| - 1];
      UpsertLoop(m, front, key, ok, write, replace, from);
      UpsertStep(m, front, x, key, ok, write, replace, from);
      FreshOneMore(m, front, x, key);
      hide Upserted;
      assert xs == front + [x];
      assert AllOk(xs, ok) <==> AllOk(front, ok) && ok(x);
    }
  }

  lemma NoKeys<X, V>(m: map<string, V>, xs: seq<X>, key: X -> string)
    requires xs == []
    ensures FreshKeys(m, xs, key)
  {
  }

  lemma UpsertedOneMore<X, V>(
      from: map<string, V>, m: map<string, V>, xs: seq<X>, x: X, key: X -> string, write: Write<X, V>)
    ensures Upserted(from, m, xs + [x], key, write)
         == Upserted(from, m, xs, key, write)[key(x) := write(x, Get(from, key(x)))]
  {
    assert (xs + [x])[..|xs|] == xs;
  }

  lemma DistinctOneMore<X>(xs: seq<X>, x: X, key: X -> string)
    ensures DistinctKeys(xs + [x], key) <==> DistinctKeys(xs, key) && key(x) !in KeysOf(xs, key)
  {
    var all := xs + [x];
    assert all[|xs|] == x && forall i :: 0 <= i < |xs| ==> all[i] == xs[i];
    if DistinctKeys(all, key) {
      forall i | 0 <= i < |xs|
        ensures key(xs[i]) != key(x)
      {
        assert key(all[i]) != key(all[|xs|]);
      }
    }
  }

  // ----- many entries per row: a part of the row is emptied and filled again -----

  /** A part of a row and how an entry is added to it; adding may fail. */
  datatype Part<!X, !V, !A> = Part(key: X -> string, empty: A, get: V -> A, put: (V, A) -> V, add: (A, X) -> Option<A>)

  /** The laws of a field of a record. */
  ghost predicate IsField<X, V(!new), A(!new)>(p: Part<X, V, A>) {
    && (forall v, a :: p.get(p.put(v, a)) == a)
    && (forall v, a, b :: p.put(p.put(v, a), b) == p.put(v, b))
    && (forall v :: p.put(v, p.get(v)) == v)
  }

  /** The part of row `k`, filled from empty with the entries of that row. */
  function Gathered<X, V, A>(p: Part<X, V, A>, xs: seq<X>, k: string): Option<A> {
    if xs == [] then Some(p.empty)
    else
      var before := Gathered(p, xs[..|xs| - 1], k);
      if before.None? || p.key(xs[|xs| - 1]) != k then before else p.add(before.value, xs[|xs| - 1])
  }

  /** The table while a loop fills parts, and the rows it has met. */
  datatype Filling<!V> = Filling(rows: map<string, V>, met: set<string>)

  /** One entry: the part of a row met for the first time starts from empty when `clear` is set. */
  function Fill<X, V, A>(p: Part<X, V, A>, known: set<string>, clear: bool): (Filling<V>, X) -> Option<Filling<V>> {
    (s: Filling<V>, x: X) =>
      var k := p.key(x);
      if k !in known || k !in s.rows then None
      else
        match p.add(if clear && k !in s.met then p.empty else p.get(s.rows[k]), x)
        case None => None
        case Some(a) => Some(Filling(s.rows[k := p.put(s.rows[k], a)], s.met + {k}))
  }

  ghost predicate CanGather<X, V, A>(p: Part<X, V, A>, xs: seq<X>, known: set<string>) {
    && (forall x :: x in xs ==> p.key(x) in known)
    && forall k :: Gathered(p, xs, k).Some?
  }

  /** A row after the loop: its part filled from empty if an entry named it. */
  ghost predicate FilledRow<X, V, A>(p: Part<X, V, A>, m: map<string, V>, xs: seq<X>, w: map<string, V>, k: string) {
    k in m && k in w && w[k] == if k in KeysOf(xs, p.key) && Gathered(p, xs, k).Some?
        then p.put(m[k], Gathered(p, xs, k).value) else m[k]
  }

  ghost predicate FilledRows<X, V, A>(p: Part<X, V, A>, m: map<string, V>, xs: seq<X>, s: Filling<V>) {
    s.met == KeysOf(xs, p.key) && s.rows.Keys == m.Keys && forall k :: k in m ==> FilledRow(p, m, xs, s.rows, k)
  }

  lemma GatheredOneMore<X, V, A>(p: Part<X, V, A>, front: seq<X>, x: X, k: string)
    ensures var before := Gathered(p, front, k);
            Gathered(p, front + [x], k) == if before.None? || p.key(x) != k then before else p.add(before.value, x)
  {
    assert (front + [x])[..|front|] == front;
  }

  lemma CanGatherOneMore<X, V, A>(p: Part<X, V, A>, front: seq<X>, x: X, known: set<string>)
    ensures CanGather(p, front + [x], known)
            <==> CanGather(p, front, known) && p.key(x) in known && Gathered(p, front + [x], p.key(x)).Some?
  {
    forall k
      ensures Gathered(p, front + [x], k).Some? ==> Gathered(p, front, k).Some?
      ensures k != p.key(x) ==> Gathered(p, front + [x], k) == Gathered(p, front, k)
    {
      GatheredOneMore(p, front, x, k);
    }
    assert x in front + [x] && forall y :: y in front ==> y in front + [x];
    hide Gathered;
  }

  lemma FillStep<X, V(!new), A(!new)>(
      p: Part<X, V, A>, m: map<string, V>, front: seq<X>, x: X, known: set<string>, clear: bool, s: Filling<V>)
    requires IsField(p) && known <= m.Keys && (clear || forall k :: k in known ==> p.get(m[k]) == p.empty)
    requires FilledRows(p, m, front, s) && CanGather(p, front, known) && p.key(x) in known
    ensures var r := Fill(p, known, clear)(s, x);
            && (r.Some? <==> Gathered(p, front + [x], p.key(x)).Some?)
            && (r.Some? ==> FilledRows(p, m, front + [x], r.value))
  {
    var k, r := p.key(x), Fill(p, known, clear)(s, x);
    KeysOfOneMore(front, x, p.key);
    GatheredOneMore(p, front, x, k);
    GatheredNothing(p, front, k);
    assert FilledRow(p, m, front, s.rows, k) && Gathered(p, front, k).Some?;
    hide Gathered, KeysOf;
    assert (if clear && k !in s.met then p.empty else p.get(s.rows[k])) == Gathered(p, front, k).value;
    if r.Some? {
      forall j | j in m
        ensures FilledRow(p, m, front + [x], r.value.rows, j)
      {
        assert FilledRow(p, m, front, s.rows, j);
        GatheredOneMore(p, front, x, j);
      }
    }
  }

  /** The loop succeeds exactly when every entry names a known row and every part
      can be filled from empty; then each row met has just that part. */
  lemma {:induction false} FillLoop<X, V(
      !new), A(!new)>(p: Part<X, V, A>, m: map<string, V>, xs: seq<X>, known: set<string>, clear: bool)
    requires IsField(p) && known <= m.Keys && (clear || forall k :: k in known ==> p.get(m[k]) == p.empty)
    ensures var r := Fold(Filling(m, {}), xs, Fill(p, known, clear));
            (r.Some? <==> CanGather(p, xs, known)) && (r.Some? ==> FilledRows(p, m, xs, r.value))
  {
    if xs != [] {
      var front, x := xs[..|xs| - 1], xs[|xs| - 1];
      FillLoop(p, m, front, known, clear);
      assert xs == front + [x];
      CanGatherOneMore(p, front, x, known);
      var before := Fold(Filling(m, {}), front, Fill(p, known, clear));
      if before.Some? && p.key(x) in known {
        FillStep(p, m, front, x, known, clear, before.value);
      }
      hide CanGather, FilledRows, Gathered;
    }
  }

  lemma {:induction false} GatheredNothing<X, V, A>(p: Part<X, V, A>, xs: seq<X>, k: string)
    ensures k !in KeysOf(xs, p.key) ==> Gathered(p, xs, k) == Some(p.empty)
  {
    if xs != [] {
      var front, x := xs[..|xs| - 1], xs[|xs| - 1];
      GatheredNothing(p, front, k);
      assert xs == front + [x];
      KeysOfOneMore(front, x, p.key);
    }
  }
}
