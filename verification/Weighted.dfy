/** The demo data's weighted sampler and its split of rows over hour buckets. */
module Weighted {

  function Sum(w: seq<nat>): nat {
    if w == [] then 0 else Sum(w[..|w| - 1]) + w[|w| - 1]
  }

  lemma SumOneMore(w: seq<nat>, i: nat)
    requires i < |w|
    ensures Sum(w[..i + 1]) == Sum(w[..i]) + w[i]
  {
    assert w[..i + 1][..i] == w[..i];
  }

  lemma {:induction false} SumsIncrease(w: seq<nat>, i: nat, j: nat)
    requires i <= j <= |w|
    ensures Sum(w[..i]) <= Sum(w[..j])
    decreases j
  {
    if i < j {
      SumsIncrease(w, i, j - 1);
      SumOneMore(w, j - 1);
    }
  }

  // ----- the sampler -----

  /** The running totals of the weights. */
  predicate Cumulates(cum: seq<int>, w: seq<nat>) {
    |cum| == |w| && forall i :: 0 <= i < |w| ==> cum[i] == Sum(w[..i + 1])
  }

  method NewWeighted(w: seq<nat>) returns (cum: array<int>, total: nat)
    ensures fresh(cum) && Cumulates(cum[..], w) && total == Sum(w)
  {
    cum := new int[|w|];
    total := 0;
    for i := 0 to |w|
      invariant total == Sum(w[..i])
      invariant forall k :: 0 <= k < i ==> cum[k] == Sum(w[..k + 1])
    {
      SumOneMore(w, i);
      total := total + w[i];
      cum[i] := total;
    }
    assert w[..|w|] == w;
  }

  /** sort.SearchInts: the least index whose value is at least `x`. */
  method SearchInts(a: seq<int>, x: int) returns (r: nat)
    requires forall i, j :: 0 <= i < j < |a| ==> a[i] <= a[j]
    ensures r <= |a| && (r < |a| ==> x <= a[r])
    ensures forall k :: 0 <= k < r ==> a[k] < x
  {
    var i, j := 0, |a|;
    while i < j
      invariant 0 <= i <= j <= |a|
      invariant forall k :: 0 <= k < i ==> a[k] < x
      invariant forall k :: j <= k < |a| ==> x <= a[k]
    {
      var h := (i + j) / 2;
      if a[h] < x {
        i := h + 1;
      } else {
        j := h;
      }
    }
    return i;
  }

  /** Draw `n` belongs to index `i`: it lies in the stretch of `i`. */
  predicate Selects(w: seq<nat>, n: nat, i: nat) {
    i < |w| && Sum(w[..i]) <= n < Sum(w[..i + 1])
  }

  /** One draw, for the number `n` below the total that the generator gives. */
  method Pick(cum: seq<int>, w: seq<nat>, n: nat) returns (i: nat)
    requires Cumulates(cum, w) && n < Sum(w)
    ensures Selects(w, n, i)
  {
    forall k, l | 0 <= k < l < |cum|
      ensures cum[k] <= cum[l]
    {
      SumsIncrease(w, k + 1, l + 1);
    }
    assert w[..|w|] == w;
    i := SearchInts(cum, n + 1);
    if i > 0 {
      assert cum[i - 1] == Sum(w[..i]);
    }
  }

  /** Each draw selects one index only. */
  lemma OneIndexPerDraw(w: seq<nat>, n: nat, i: nat, j: nat)
    requires Selects(w, n, i) && Selects(w, n, j)
    ensures i == j
  {
    if i < j {
      SumsIncrease(w, i + 1, j);
    } else if j < i {
      SumsIncrease(w, j + 1, i);
    }
  }

  /** The numbers from `a` on below `b`. */
  function Stretch(a: nat, b: nat): set<nat> {
    if b <= a then {} else Stretch(a, b - 1) + {b - 1}
  }

  lemma {:induction false} StretchIs(a: nat, b: nat)
    requires a <= b
    ensures |Stretch(a, b)| == b - a
    ensures forall n :: n in Stretch(a, b) <==> a <= n < b
    decreases b
  {
    if a < b {
      StretchIs(a, b - 1);
    }
  }

  /** Of the draws below the total exactly `w[i]` select index `i`. */
  lemma DrawsPerIndex(w: seq<nat>, i: nat)
    requires i < |w|
    ensures |set n: nat | n < Sum(w) && Selects(w, n, i)| == w[i]
  {
    SumOneMore(w, i);
    SumsIncrease(w, i + 1, |w|);
    assert w[..|w|] == w;
    StretchIs(Sum(w[..i]), Sum(w[..i + 1]));
    hide Stretch, Sum;
    assert (set n: nat | n < Sum(w) && Selects(w, n, i)) == Stretch(Sum(w[..i]), Sum(w[..i + 1]));
  }

  // ----- the split over buckets -----

  function DayShares(): seq<nat> {
    [72, 76, 70, 65, 68, 74, 71]
  }

  function HourShares(): seq<nat> {
    [190, 215, 185, 165, 160, 162, 170, 180,
     190, 200, 205, 210, 210, 205, 205, 200,
     200, 205, 210, 212, 208, 200, 195, 190]
  }

  /** The weight of bucket `k`: the share of its day times the share of its hour. */
  function WeightOf(k: nat): nat {
    DayShares()[k / 24 % 7] * HourShares()[k % 24]
  }

  function Weights(n: nat): seq<nat> {
    seq(n, k requires 0 <= k < n => WeightOf(k))
  }

  /** The exact share, rounded down. */
  function Share(total: nat, weight: nat, sum: nat): nat
    requires 0 < sum
  {
    DivisionSplits(total * weight, sum);
    total * weight / sum
  }

  function Floors(total: nat, w: seq<nat>, sum: nat): seq<nat>
    requires 0 < sum
  {
    seq(|w|, i requires 0 <= i < |w| => Share(total, w[i], sum))
  }

  lemma DivisionSplits(a: nat, sum: nat)
    requires 0 < sum
    ensures a == sum * (a / sum) + a % sum && 0 <= a % sum < sum
  {
  }

  lemma Distribute(total: nat, a: nat, b: nat)
    ensures total * (a + b) == total * a + total * b
  {
  }

  /** The parts fall short of the exact shares by less than one each. */
  lemma {:induction false} FloorsFallShort(total: nat, w: seq<nat>, sum: nat)
    requires 0 < sum
    ensures sum * Sum(Floors(total, w, sum)) <= total * Sum(w)
    ensures w != [] ==> total * Sum(w) < sum * Sum(Floors(total, w, sum)) + sum * |w|
  {
    if w != [] {
      var front, last := w[..|w| - 1], w[|w| - 1];
      FloorsFallShort(total, front, sum);
      var fs := Floors(total, w, sum);
      assert fs[..|w| - 1] == Floors(total, front, sum);
      var q, s := Share(total, last, sum), Sum(Floors(total, front, sum));
      DivisionSplits(total * last, sum);
      Distribute(total, Sum(front), last);
      Distribute(sum, s, q);
      Distribute(sum, |front|, 1);
    }
  }

  /** With the weights adding up to `sum`, what is left over is less than one row a bucket. */
  lemma LeftoverIsSmall(total: nat, w: seq<nat>)
    requires 0 < Sum(w)
    ensures 0 <= total - Sum(Floors(total, w, Sum(w))) < |w|
  {
    FloorsFallShort(total, w, Sum(w));
    assert w != [];
    CancelFactor(Sum(w), Sum(Floors(total, w, Sum(w))), total, |w|);
  }

  lemma CancelAtMost(s: nat, a: nat, b: nat)
    requires 0 < s && s * a <= s * b
    ensures a <= b
  {
  }

  lemma CancelBelow(s: nat, a: nat, b: nat)
    requires 0 < s && s * a < s * b
    ensures a < b
  {
  }

  lemma CancelFactor(s: nat, a: nat, b: nat, n: nat)
    requires 0 < s && s * a <= b * s < s * a + s * n
    ensures a <= b < a + n
  {
    Distribute(s, a, n);
    CancelAtMost(s, a, b);
    CancelBelow(s, b, a + n);
  }

  lemma WeightsArePositive(n: nat)
    requires 0 < n
    ensures 0 < Sum(Weights(n))
  {
    assert Weights(n)[..1] == [WeightOf(0)];
    assert Sum(Weights(n)[..1]) == WeightOf(0) by { SumOneMore(Weights(n), 0); }
    SumsIncrease(Weights(n), 1, n);
    assert Weights(n)[..n] == Weights(n);
  }

  /** bucketCounts: the day and hour weights, the rounded-down shares, and the
      leftover to the newest bucket. `cum` is the cumulated hour distribution. */
  method BucketCounts(total: nat, days: nat, cum: seq<int>) returns (out: array<nat>, leftover: nat)
    requires 0 < days && Cumulates(cum, HourShares())
    ensures fresh(out) && out.Length == days * 24
    ensures Sum(out[..]) == total && leftover < days * 24 && 0 < Sum(Weights(days * 24))
    ensures out[..] == Apportioned(total, Weights(days * 24), leftover)
  {
    var w, sum := DenseWeights(days, cum);
    WeightsArePositive(days * 24);
    out, leftover := SplitRows(total, w, sum);
  }

  /** The rounded-down shares with the leftover added to the last one. */
  function Apportioned(total: nat, w: seq<nat>, leftover: nat): seq<nat>
    requires 0 < Sum(w)
  {
    seq(|w|, i requires 0 <= i < |w| => Share(total, w[i], Sum(w)) + if i == |w| - 1 then leftover else 0)
  }

  lemma ShareBounds(total: nat, weight: nat, sum: nat)
    requires 0 < sum
    ensures Share(total, weight, sum) * sum <= total * weight < Share(total, weight, sum) * sum + sum
  {
    DivisionSplits(total * weight, sum);
  }

  /** Every part but the newest is its exact share rounded down, and the newest
      is that with what rounding left. */
  lemma SharesAreFair(total: nat, w: seq<nat>, leftover: nat, i: nat)
    requires 0 < Sum(w) && i < |w|
    ensures var part := Apportioned(total, w, leftover)[i] - if i < |w| - 1 then 0 else leftover;
            0 <= part && part * Sum(w) <= total * w[i] < part * Sum(w) + Sum(w)
  {
    ShareBounds(total, w[i], Sum(w));
    assert Apportioned(total, w, leftover)[i]
        == Share(total, w[i], Sum(w)) + if i == |w| - 1 then leftover else 0 by { hide Sum, Share; }
    hide Sum, Share, Apportioned;
  }

  method SplitRows(total: nat, w: seq<nat>, sum: nat) returns (out: array<nat>, leftover: nat)
    requires w != [] && 0 < sum == Sum(w)
    ensures fresh(out) && out.Length == |w|
    ensures Sum(out[..]) == total && leftover < |w|
    ensures out[..] == Apportioned(total, w, leftover)
  {
    ghost var fs := Floors(total, w, sum);
    LeftoverIsSmall(total, w);
    SumOfNone(fs);
    hide Sum, Share;
    out := new nat[|w|];
    var given := 0;
    for i := 0 to |w|
      invariant forall k :: 0 <= k < i ==> out[k] == fs[k]
      invariant given == Sum(fs[..i])
    {
      out[i] := Share(total, w[i], sum);
      SumOneMore(fs, i);
      given := given + out[i];
    }
    assert fs[..|w|] == fs;
    assert out[..] == fs;
    leftover := total - given;
    out[|w| - 1] := out[|w| - 1] + leftover;
    LeftoverLast(total, w, leftover);
  }

  lemma LeftoverLast(total: nat, w: seq<nat>, leftover: nat)
    requires w != [] && 0 < Sum(w)
    ensures var fs, last := Floors(total, w, Sum(w)), |w| - 1;
            && |fs| == |w|
            && fs[last := fs[last] + leftover] == Apportioned(total, w, leftover)
            && Sum(Apportioned(total, w, leftover)) == Sum(fs) + leftover
  {
    var fs, last := Floors(total, w, Sum(w)), |w| - 1;
    var r := fs[last := fs[last] + leftover];
    SumOneMore(fs, last);
    SumOneMore(r, last);
    assert r[..last] == fs[..last] && r[..|w|] == r && fs[..|w|] == fs;
    hide Sum, Share;
    assert r == Apportioned(total, w, leftover);
  }

  lemma SumOfNone(w: seq<nat>)
    ensures Sum(w[..0]) == 0
  {
  }

  lemma WeightsOneMore(n: nat)
    ensures Weights(n + 1) == Weights(n) + [WeightOf(n)] && Sum(Weights(n + 1)) == Sum(Weights(n)) + WeightOf(n)
  {
    assert Weights(n + 1)[..n] == Weights(n);
  }

  /** The weight of one hour, back from the running totals. */
  method HourWeight(cum: seq<int>, h: nat) returns (hw: nat)
    requires Cumulates(cum, HourShares()) && h < |HourShares()|
    ensures hw == HourShares()[h]
  {
    SumOneMore(HourShares(), h);
    SumOfNone(HourShares());
    hide Sum, HourShares;
    if h > 0 {
      return cum[h] - cum[h - 1];
    }
    return cum[h];
  }

  /** The two nested loops over days and hours. */
  method DenseWeights(days: nat, cum: seq<int>) returns (w: seq<nat>, sum: nat)
    requires Cumulates(cum, HourShares())
    ensures w == Weights(days * 24) && sum == Sum(w)
  {
    w, sum := [], 0;
    assert Weights(0) == [] && |HourShares()| == 24 && |DayShares()| == 7;
    assert Sum(Weights(0)) == 0;
    hide Weights, Sum, DayShares, HourShares, WeightOf;
    for d := 0 to days
      invariant w == Weights(d * 24) && sum == Sum(w)
    {
      var dw := DayShares()[d % 7];
      for h := 0 to 24
        invariant w == Weights(d * 24 + h) && sum == Sum(w)
      {
        var hw := HourWeight(cum, h);
        BucketOf(d, h);
        WeightsOneMore(d * 24 + h);
        var x := dw * hw;
        w := w + [x];
        sum := sum + x;
      }
    }
  }

  lemma BucketOf(d: nat, h: nat)
    requires h < 24
    ensures WeightOf(d * 24 + h) == DayShares()[d % 7] * HourShares()[h]
  {
    assert (d * 24 + h) / 24 == d && (d * 24 + h) % 24 == h;
  }
}
