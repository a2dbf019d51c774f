/** Counting: how many elements satisfy a test, and maps that count elements by key. */
module Tallies {
  import opened Basics

  function Count<T>(xs: seq<T>, p: T -> bool): nat {
    if xs == [] then 0
    else Count(xs[..|xs| - 1], p) + if p(xs[|xs| - 1]) then 1 else 0
  }

  lemma CountOneMore<T>(xs: seq<T>, x: T, p: T -> bool)
    ensures Count(xs + [x], p) == Count(xs, p) + if p(x) then 1 else 0
  {
    assert (xs + [x])[..|xs|] == xs;
  }

  lemma {:induction false} CountConcat<T>(xs: seq<T>, ys: seq<T>, p: T -> bool)
    ensures Count(xs + ys, p) == Count(xs, p) + Count(ys, p)
  {
    if ys == [] {
      assert xs + ys == xs;
    } else {
      var k := |ys| - 1;
      CountConcat(xs, ys[..k], p);
      assert xs + ys == (xs + ys[..k]) + [ys[k]];
      CountOneMore(xs + ys[..k], ys[k], p);
    }
  }

  lemma {:induction false} CountBounds<T>(xs: seq<T>, p: T -> bool)
    ensures Count(xs, p) <= |xs|
    ensures (forall x :: x in xs ==> p(x)) ==> Count(xs, p) == |xs|
    ensures (forall x :: x in xs ==> !p(x)) ==> Count(xs, p) == 0
  {
    if xs != [] {
      CountBounds(xs[..|xs| - 1], p);
    }
  }

  lemma {:induction false} CountSplit<T>(xs: seq<T>, p: T -> bool, q: T -> bool, r: T -> bool)
    requires forall x :: x in xs ==> (p(x) <==> q(x) || r(x)) && !(q(x) && r(x))
    ensures Count(xs, p) == Count(xs, q) + Count(xs, r)
  {
    if xs != [] {
      CountSplit(xs[..|xs| - 1], p, q, r);
    }
  }

  lemma {:induction false} CountAgrees<T>(xs: seq<T>, p: T -> bool, q: T -> bool)
    requires forall x :: x in xs ==> (p(x) <==> q(x))
    ensures Count(xs, p) == Count(xs, q)
  {
    if xs != [] {
      CountAgrees(xs[..|xs| - 1], p, q);
    }
  }

  /** Fewer count, and as many exactly when none counts only with `q`. */
  lemma {:induction false} CountNarrower<T>(xs: seq<T>, p: T -> bool, q: T -> bool)
    requires forall x :: p(x) ==> q(x)
    ensures Count(xs, p) <= Count(xs, q)
    ensures Count(xs, p) == Count(xs, q) <==> forall i :: 0 <= i < |xs| && q(xs[i]) ==> p(xs[i])
  {
    if xs != [] {
      var front, last := xs[..|xs| - 1], xs[|xs| - 1];
      CountNarrower(front, p, q);
      assert forall i :: 0 <= i < |front| ==> front[i] == xs[i];
    }
  }

  lemma CountTakeOut<T>(xs: seq<T>, i: nat, p: T -> bool)
    requires i < |xs|
    ensures Count(xs, p) == Count(xs[..i] + xs[i + 1..], p) + if p(xs[i]) then 1 else 0
  {
    hide Count;
    assert xs == (xs[..i] + [xs[i]]) + xs[i + 1..];
    CountConcat(xs[..i] + [xs[i]], xs[i + 1..], p);
    CountOneMore(xs[..i], xs[i], p);
    CountConcat(xs[..i], xs[i + 1..], p);
  }

  lemma TakeOut<T>(xs: seq<T>, i: nat)
    requires i < |xs|
    ensures multiset(xs[..i] + xs[i + 1..]) == multiset(xs) - multiset{xs[i]}
  {
    assert xs == xs[..i] + [xs[i]] + xs[i + 1..];
  }

  /** A count does not depend on the order of the elements. */
  lemma {:induction false} CountIgnoresOrder<T>(xs: seq<T>, ys: seq<T>, p: T -> bool)
    requires multiset(xs) == multiset(ys)
    ensures Count(xs, p) == Count(ys, p)
    decreases |xs|
  {
    if xs == [] {
      assert |multiset(ys)| == 0;
    } else {
      hide Count;
      assert xs[0] in multiset(ys);
      var i :| 0 <= i < |ys| && ys[i] == xs[0];
      TakeOut(xs, 0);
      TakeOut(ys, i);
      CountIgnoresOrder(xs[..0] + xs[1..], ys[..i] + ys[i + 1..], p);
      CountTakeOut(xs, 0, p);
      CountTakeOut(ys, i, p);
    }
  }

  function At<K>(m: map<K, nat>, k: K): nat {
    if k in m then m[k] else 0
  }

  function Bump<K>(m: map<K, nat>, k: Option<K>): map<K, nat> {
    match k
    case None => m
    case Some(key) => m[key := At(m, key) + 1]
  }

  /** How often each key occurs; elements without a key are passed over. */
  function Tally<T, K>(xs: seq<T>, key: T -> Option<K>): map<K, nat> {
    if xs == [] then map[] else Bump(Tally(xs[..|xs| - 1], key), key(xs[|xs| - 1]))
  }

  function KeyIs<T, K(==)>(key: T -> Option<K>, k: K): T -> bool {
    x => key(x) == Some(k)
  }

  function KeyIn<T, K>(key: T -> Option<K>, p: K -> bool): T -> bool {
    x => key(x).Some? && p(key(x).value)
  }

  function Both<T>(p: T -> bool, q: T -> bool): T -> bool {
    x => p(x) && q(x)
  }

  function KeyIf<T, K>(keep: T -> bool, key: T -> Option<K>): T -> Option<K> {
    x => if keep(x) then key(x) else None
  }

  lemma {:induction false} TallyAt<T, K>(xs: seq<T>, key: T -> Option<K>, k: K)
    ensures At(Tally(xs, key), k) == Count(xs, KeyIs(key, k))
  {
    if xs != [] {
      TallyAt(xs[..|xs| - 1], key, k);
    }
  }

  /** The sum of the counts under the keys that satisfy `p`. */
  ghost function SumWhere<K>(m: map<K, nat>, p: K -> bool): nat
    decreases |m|
  {
    if m == map[] then 0
    else
      var k :| k in m;
      (if p(k) then m[k] else 0) + SumWhere(m - {k}, p)
  }

  lemma {:induction false} SumTakeOut<K>(m: map<K, nat>, p: K -> bool, k: K)
    requires k in m
    ensures SumWhere(m, p) == (if p(k) then m[k] else 0) + SumWhere(m - {k}, p)
    decreases |m|
  {
    var first :| first in m && SumWhere(m, p) == (if p(first) then m[first] else 0) + SumWhere(m - {first}, p);
    if first != k {
      SumTakeOut(m - {first}, p, k);
      SumTakeOut(m - {k}, p, first);
      assert m - {first} - {k} == m - {k} - {first};
    }
  }

  lemma SumBump<K>(m: map<K, nat>, p: K -> bool, k: K)
    ensures SumWhere(Bump(m, Some(k)), p) == SumWhere(m, p) + if p(k) then 1 else 0
  {
    var m' := Bump(m, Some(k));
    SumTakeOut(m', p, k);
    assert m' - {k} == m - {k};
    if k in m {
      SumTakeOut(m, p, k);
    } else {
      assert m - {k} == m;
    }
  }

  /** Adding up a tally over some keys counts the elements with such a key. */
  lemma {:induction false} TallySum<T, K>(xs: seq<T>, key: T -> Option<K>, p: K -> bool)
    ensures SumWhere(Tally(xs, key), p) == Count(xs, KeyIn(key, p))
  {
    if xs != [] {
      var init, x := xs[..|xs| - 1], xs[|xs| - 1];
      TallySum(init, key, p);
      if key(x).Some? {
        SumBump(Tally(init, key), p, key(x).value);
      }
    }
  }

  lemma {:induction false} TallyAgrees<T, K>(xs: seq<T>, key: T -> Option<K>, other: T -> Option<K>)
    requires forall x :: x in xs ==> key(x) == other(x)
    ensures Tally(xs, key) == Tally(xs, other)
  {
    if xs != [] {
      TallyAgrees(xs[..|xs| - 1], key, other);
    }
  }

  lemma {:induction false} TallyKeys<T, K>(xs: seq<T>, key: T -> Option<K>)
    ensures forall k :: k in Tally(xs, key) ==> Tally(xs, key)[k] > 0
  {
    if xs != [] {
      TallyKeys(xs[..|xs| - 1], key);
    }
  }

  /** A tally does not depend on the order of the elements. */
  lemma TallyIgnoresOrder<T, K>(xs: seq<T>, ys: seq<T>, key: T -> Option<K>)
    requires multiset(xs) == multiset(ys)
    ensures Tally(xs, key) == Tally(ys, key)
  {
    TallyKeys(xs, key);
    TallyKeys(ys, key);
    forall k
      ensures At(Tally(xs, key), k) == At(Tally(ys, key), k)
    {
      TallyAt(xs, key, k);
      TallyAt(ys, key, k);
      CountIgnoresOrder(xs, ys, KeyIs(key, k));
    }
    SameAt(Tally(xs, key), Tally(ys, key));
  }

  lemma SameAt<K>(m: map<K, nat>, n: map<K, nat>)
    requires (forall k :: k in m ==> m[k] > 0) && (forall k :: k in n ==> n[k] > 0)
    requires forall k :: At(m, k) == At(n, k)
    ensures m == n
  {
    assert forall k :: k in m ==> At(m, k) == At(n, k) == m[k];
    assert forall k :: k in n ==> At(m, k) == At(n, k) == n[k];
  }

  function Filter<T>(xs: seq<T>, keep: T -> bool): seq<T> {
    if xs == [] then []
    else
      var last := xs[|xs| - 1];
      if keep(last) then Filter(xs[..|xs| - 1], keep) + [last] else Filter(xs[..|xs| - 1], keep)
  }

  lemma {:induction false} CountFiltered<T>(xs: seq<T>, keep: T -> bool, p: T -> bool)
    ensures Count(Filter(xs, keep), p) == Count(xs, Both(keep, p))
  {
    if xs != [] {
      var front, last := xs[..|xs| - 1], xs[|xs| - 1];
      CountFiltered(front, keep, p);
      CountOneMore(Filter(front, keep), last, p);
    }
  }

  lemma {:induction false} TallyFiltered<T, K>(xs: seq<T>, keep: T -> bool, key: T -> Option<K>)
    ensures Tally(Filter(xs, keep), key) == Tally(xs, KeyIf(keep, key))
  {
    if xs != [] {
      var front, last := xs[..|xs| - 1], xs[|xs| - 1];
      TallyFiltered(front, keep, key);
      if keep(last) {
        assert (Filter(front, keep) + [last])[..|Filter(front, keep)|] == Filter(front, keep);
      }
    }
  }
}
