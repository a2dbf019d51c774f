/** Ordered listings: names in ascending order, and stable insertion. */
module Ordering {
  import opened Basics

  /** Byte-wise order of strings. */
  predicate Less(a: string, b: string) {
    b != "" && (a == "" || a[0] < b[0] || (a[0] == b[0] && Less(a[1..], b[1..])))
  }

  lemma {:induction false} Trichotomy(a: string, b: string)
    ensures a == b || Less(a, b) || Less(b, a)
    ensures !(Less(a, b) && Less(b, a)) && !Less(a, a)
  {
    if a != "" && b != "" && a[0] == b[0] {
      Trichotomy(a[1..], b[1..]);
      assert a == [a[0]] + a[1..] && b == [b[0]] + b[1..];
    }
    if a != "" {
      Irreflexive(a);
    }
  }

  lemma {:induction false} Irreflexive(a: string)
    ensures !Less(a, a)
  {
    if a != "" {
      Irreflexive(a[1..]);
    }
  }

  lemma {:induction false} Transitive(a: string, b: string, c: string)
    requires Less(a, b) && Less(b, c)
    ensures Less(a, c)
  {
    if a != "" && a[0] == b[0] && b[0] == c[0] {
      Transitive(a[1..], b[1..], c[1..]);
    }
  }

  predicate IsFirst(s: set<string>, x: string) {
    x in s && forall y :: y in s ==> x == y || Less(x, y)
  }

  lemma {:induction false} FirstExists(s: set<string>)
    requires s != {}
    ensures exists x :: IsFirst(s, x)
    decreases |s|
  {
    var x :| x in s;
    var rest := s - {x};
    if rest == {} {
      assert s == {x};
      assert IsFirst(s, x);
    } else {
      FirstExists(rest);
      var f :| IsFirst(rest, f);
      Trichotomy(f, x);
      if Less(f, x) {
        assert IsFirst(s, f);
      } else {
        forall y | y in s && y != x
          ensures Less(x, y)
        {
          if y != f {
            Transitive(x, f, y);
          }
        }
        assert IsFirst(s, x);
      }
    }
  }

  lemma FirstIsUnique(s: set<string>, x: string, y: string)
    requires IsFirst(s, x) && IsFirst(s, y)
    ensures x == y
  {
    Trichotomy(x, y);
  }

  function First(s: set<string>): (x: string)
    requires s != {}
    ensures IsFirst(s, x)
  {
    FirstExists(s);
    assert forall x, y :: IsFirst(s, x) && IsFirst(s, y) ==> x == y by {
      forall x, y | IsFirst(s, x) && IsFirst(s, y) {
        FirstIsUnique(s, x, y);
      }
    }
    var x :| IsFirst(s, x);
    x
  }

  /** SELECT name ... ORDER BY name ASC */
  function Listing(s: set<string>): seq<string>
    decreases |s|
  {
    if s == {} then [] else [First(s)] + Listing(s - {First(s)})
  }

  /** A listing holds each name once, in ascending order. */
  lemma {:induction false} ListingLists(s: set<string>)
    ensures forall x :: x in Listing(s) <==> x in s
    ensures forall i, j :: 0 <= i < j < |Listing(s)| ==> Less(Listing(s)[i], Listing(s)[j])
    ensures forall i, j :: 0 <= i < j < |Listing(s)| ==> Listing(s)[i] != Listing(s)[j]
    decreases |s|
  {
    if s != {} {
      var f, rest := First(s), Listing(s - {First(s)});
      ListingLists(s - {f});
      assert Listing(s) == [f] + rest;
      forall j | 0 <= j < |rest|
        ensures Less(f, rest[j]) && rest[j] != f
      {
        assert rest[j] in rest;
      }
    }
  }

  lemma ListingIndexes(s: set<string>)
    ensures forall i :: 0 <= i < |Listing(s)| ==> Listing(s)[i] in s
  {
    ListingLists(s);
  }

  /** `s` with `x` behind every element it does not come before. */
  function Insert<T>(s: seq<T>, x: T, before: (T, T) -> bool): seq<T> {
    if s == [] || !before(x, s[|s| - 1]) then s + [x] else Insert(s[..|s| - 1], x, before) + [s[|s| - 1]]
  }

  function InsertAll<T>(s: seq<T>, xs: seq<T>, before: (T, T) -> bool): seq<T> {
    if xs == [] then s else Insert(InsertAll(s, xs[..|xs| - 1], before), xs[|xs| - 1], before)
  }

  lemma {:induction false} InsertKeepsElements<T>(s: seq<T>, x: T, before: (T, T) -> bool)
    ensures multiset(Insert(s, x, before)) == multiset(s) + multiset{x}
  {
    if s != [] {
      assert s == s[..|s| - 1] + [s[|s| - 1]];
      InsertKeepsElements(s[..|s| - 1], x, before);
    }
  }

  lemma {:induction false} InsertAllKeepsElements<T>(s: seq<T>, xs: seq<T>, before: (T, T) -> bool)
    ensures multiset(InsertAll(s, xs, before)) == multiset(s) + multiset(xs)
  {
    if xs != [] {
      assert xs == xs[..|xs| - 1] + [xs[|xs| - 1]];
      InsertAllKeepsElements(s, xs[..|xs| - 1], before);
      InsertKeepsElements(InsertAll(s, xs[..|xs| - 1], before), xs[|xs| - 1], before);
    }
  }

  function Mapped<T, U>(xs: seq<T>, f: T -> U): seq<U> {
    seq(|xs|, i requires 0 <= i < |xs| => f(xs[i]))
  }

  lemma MappedTakeOut<T, U>(xs: seq<T>, i: nat, f: T -> U)
    requires i < |xs|
    ensures multiset(xs[..i] + xs[i + 1..]) == multiset(xs) - multiset{xs[i]}
    ensures multiset(Mapped(xs, f)) == multiset(Mapped(xs[..i] + xs[i + 1..], f)) + multiset{f(xs[i])}
  {
    var rest, m := xs[..i] + xs[i + 1..], Mapped(xs, f);
    assert xs == xs[..i] + [xs[i]] + xs[i + 1..];
    assert m == m[..i] + [m[i]] + m[i + 1..];
    assert Mapped(rest, f) == m[..i] + m[i + 1..];
  }

  lemma FirstIn<T>(xs: seq<T>, ys: seq<T>) returns (i: nat)
    requires xs != [] && multiset(xs) == multiset(ys)
    ensures i < |ys| && ys[i] == xs[0]
  {
    assert xs[0] in multiset(ys);
    i :| 0 <= i < |ys| && ys[i] == xs[0];
  }

  lemma EmptyToo<T>(xs: seq<T>, ys: seq<T>)
    requires xs == [] && multiset(xs) == multiset(ys)
    ensures ys == []
  {
    assert |multiset(ys)| == 0;
  }

  /** Mapping keeps two orders of the same elements equal as multisets. */
  lemma {:induction false} MappedIgnoresOrder<T, U>(xs: seq<T>, ys: seq<T>, f: T -> U)
    requires multiset(xs) == multiset(ys)
    ensures multiset(Mapped(xs, f)) == multiset(Mapped(ys, f))
    decreases |xs|
  {
    hide *;
    if xs == [] {
      EmptyToo(xs, ys);
    } else {
      var i := FirstIn(xs, ys);
      MappedTakeOut(xs, 0, f);
      MappedTakeOut(ys, i, f);
      MappedIgnoresOrder(xs[..0] + xs[1..], ys[..i] + ys[i + 1..], f);
    }
  }

  // ----- sorting names -----

  predicate Ascending(s: seq<string>) {
    forall i, j :: 0 <= i < j < |s| ==> !Less(s[j], s[i])
  }

  /** No later and no later is no later. */
  lemma NoLater(a: string, b: string, c: string)
    requires !Less(b, a) && !Less(c, b)
    ensures !Less(c, a)
  {
    Trichotomy(a, b);
    Trichotomy(b, c);
    if Less(c, a) && Less(a, b) {
      Transitive(c, a, b);
    }
  }

  const IN_ORDER: (string, string) -> bool := (a: string, b: string) => Less(a, b)

  function SortStrings(names: seq<string>): seq<string> {
    InsertAll([], names, IN_ORDER)
  }

  lemma {:induction false} InsertedAscends(s: seq<string>, x: string)
    requires Ascending(s)
    ensures Ascending(Insert(s, x, IN_ORDER))
    ensures forall y :: y in Insert(s, x, IN_ORDER) <==> y == x || y in s
  {
    if s != [] {
      var front, last := s[..|s| - 1], s[|s| - 1];
      assert s == front + [last];
      InsertedAscends(front, x);
      var r := Insert(front, x, IN_ORDER);
      if Less(x, last) {
        forall i | 0 <= i < |r|
          ensures !Less(last, r[i])
        {
          assert r[i] in r;
          Trichotomy(x, last);
        }
      } else {
        forall i | 0 <= i < |s|
          ensures !Less(x, s[i])
        {
          if i < |front| {
            NoLater(s[i], last, x);
          }
        }
      }
    }
  }

  lemma {:induction false} SortAscends(names: seq<string>)
    ensures Ascending(SortStrings(names)) && multiset(SortStrings(names)) == multiset(names)
  {
    InsertAllKeepsElements([], names, IN_ORDER);
    if names != [] {
      SortAscends(names[..|names| - 1]);
      InsertedAscends(SortStrings(names[..|names| - 1]), names[|names| - 1]);
    }
  }

  lemma LastIsGreatest(s: seq<string>, x: string)
    requires Ascending(s) && x in multiset(s)
    ensures s != [] && !Less(s[|s| - 1], x)
  {
    assert x in s;
    var i :| 0 <= i < |s| && s[i] == x;
    Irreflexive(x);
    hide Less;
  }

  lemma WithoutLast(s: seq<string>)
    requires s != []
    ensures multiset(s[..|s| - 1]) == multiset(s) - multiset{s[|s| - 1]} && s[|s| - 1] in multiset(s)
    ensures s == s[..|s| - 1] + [s[|s| - 1]]
  {
    assert s == s[..|s| - 1] + [s[|s| - 1]];
  }

  lemma SameSize(a: seq<string>, b: seq<string>)
    requires multiset(a) == multiset(b)
    ensures |a| == |b|
  {
    assert |multiset(a)| == |a| && |multiset(b)| == |b|;
  }

  lemma FrontAscends(s: seq<string>)
    requires Ascending(s) && s != []
    ensures Ascending(s[..|s| - 1])
  {
    hide Less;
  }

  /** The same elements have one ascending order. */
  lemma {:induction false} OneAscendingOrder(a: seq<string>, b: seq<string>)
    requires Ascending(a) && Ascending(b) && multiset(a) == multiset(b)
    ensures a == b
    decreases |a|
  {
    hide *;
    SameSize(a, b);
    if a != [] {
      var x, y := a[|a| - 1], b[|b| - 1];
      WithoutLast(a);
      WithoutLast(b);
      LastIsGreatest(a, y);
      LastIsGreatest(b, x);
      Trichotomy(x, y);
      FrontAscends(a);
      FrontAscends(b);
      OneAscendingOrder(a[..|a| - 1], b[..|b| - 1]);
    }
  }

  /** Sorting forgets the order the names came in. */
  lemma SortIgnoresOrder(a: seq<string>, b: seq<string>)
    requires multiset(a) == multiset(b)
    ensures SortStrings(a) == SortStrings(b)
  {
    hide SortStrings, Ascending;
    SortAscends(a);
    SortAscends(b);
    OneAscendingOrder(SortStrings(a), SortStrings(b));
  }
}
