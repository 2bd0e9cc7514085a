/** Powers of the bucket growth factor, bucket indices, and counting samples. */
module HistogramTheory {
  import opened Seqs

  const ZERO_THRESHOLD: real := 0.000000001

  // ---------------------------------------------------------------- powers

  function Pow(g: real, i: int): (r: real)
    requires g > 1.0
    ensures r > 0.0
    decreases if i < 0 then -i else i
  {
    if i == 0 then 1.0 else if i > 0 then g * Pow(g, i - 1) else Pow(g, i + 1) / g
  }

  lemma PowStep(g: real, i: int)
    requires g > 1.0
    ensures Pow(g, i + 1) == g * Pow(g, i)
  {
  }

  lemma Grows(g: real, x: real, y: real)
    requires g > 1.0 && x > 0.0 && y == g * x
    ensures x < y
  {
    var d := g - 1.0;
    assert d * x > 0.0;
    assert g * x == d * x + x;
  }

  lemma PowUp(g: real, i: int)
    requires g > 1.0
    ensures Pow(g, i) < Pow(g, i + 1)
  {
    hide Pow;
    PowStep(g, i);
    Grows(g, Pow(g, i), Pow(g, i + 1));
  }

  lemma {:induction false} PowMono(g: real, i: int, j: int)
    requires g > 1.0 && i < j
    ensures Pow(g, i) < Pow(g, j)
    decreases j - i
  {
    hide Pow;
    PowUp(g, j - 1);
    if i < j - 1 {
      PowMono(g, i, j - 1);
    }
  }

  lemma {:induction false} Bernoulli(g: real, n: nat)
    requires g > 1.0
    ensures Pow(g, n) >= 1.0 + n as real * (g - 1.0)
  {
    hide Pow;
    if n == 0 {
      PowZero(g);
    } else {
      Bernoulli(g, n - 1);
      PowStep(g, n - 1);
      BernoulliStep(g, Pow(g, n - 1), (n - 1) as real, Pow(g, n));
    }
  }

  lemma BernoulliStep(g: real, p: real, m: real, q: real)
    requires g > 1.0 && m >= 0.0 && p >= 1.0 + m * (g - 1.0) && q == g * p
    ensures q >= 1.0 + (m + 1.0) * (g - 1.0)
  {
    var d := g - 1.0;
    NonNegative(m, d);
    NonNegative(d, p - 1.0);
    assert d * (p - 1.0) == d * p - d;
    assert g * p == p + d * p;
    assert (m + 1.0) * d == m * d + d;
  }

  lemma NonNegative(x: real, y: real)
    requires x >= 0.0 && y >= 0.0
    ensures x * y >= 0.0
  {
  }

  /** Powers grow past every bound. */
  lemma PowExceeds(g: real, v: real) returns (n: nat)
    requires g > 1.0
    ensures Pow(g, n) > v
  {
    hide Pow;
    var d := g - 1.0;
    var x := v / d;
    n := if x < 0.0 then 0 else x.Floor + 1;
    Bernoulli(g, n);
    Exceeds(v, d, x, n as real);
  }

  lemma Exceeds(v: real, d: real, x: real, n: real)
    requires d > 0.0 && x == v / d && n >= x
    ensures n * d >= v
  {
    NonNegative(n - x, d);
    assert (n - x) * d == n * d - x * d;
    assert x * d == v;
  }

  lemma {:induction false} PowNegative(g: real, n: int)
    requires g > 1.0 && n >= 0
    ensures Pow(g, -n) * Pow(g, n) == 1.0
  {
    hide Pow;
    if n == 0 {
      PowZero(g);
    } else {
      PowNegative(g, n - 1);
      PowStep(g, -n);
      PowStep(g, n - 1);
      Shift(g, Pow(g, -n), Pow(g, n - 1));
    }
  }

  lemma PowZero(g: real)
    requires g > 1.0
    ensures Pow(g, 0) == 1.0
  {
  }

  lemma Shift(g: real, a: real, b: real)
    ensures a * (g * b) == (g * a) * b
  {
  }

  lemma BackPow(g: real, i: int)
    requires g > 1.0
    ensures Pow(g, i - 1) == Pow(g, i) / g
  {
    hide Pow;
    PowStep(g, i - 1);
    Undo(g, Pow(g, i - 1), Pow(g, i));
  }

  lemma Undo(g: real, a: real, b: real)
    requires g > 1.0 && b == g * a
    ensures a == b / g
  {
  }

  lemma Reciprocal(a: real, b: real, v: real)
    requires a > 0.0 && v > 0.0 && a * b == 1.0 && b > 1.0 / v
    ensures a < v
  {
    assert v * (1.0 / v) == 1.0;
    var c := b - 1.0 / v;
    assert v * c > 0.0;
    assert v * b == v * c + v * (1.0 / v);
    var e := v * b - 1.0;
    assert e > 0.0;
    assert a * e > 0.0;
    assert a * e == a * (v * b) - a;
    assert a * (v * b) == v * (a * b);
  }

  /** Powers fall below every positive bound. */
  lemma PowBelow(g: real, v: real) returns (n: int)
    requires g > 1.0 && v > 0.0
    ensures n >= 0 && Pow(g, -n) < v
  {
    hide Pow;
    n := PowExceeds(g, 1.0 / v);
    PowNegative(g, n);
    Reciprocal(Pow(g, -n), Pow(g, n), v);
  }

  // ---------------------------------------------------------------- indices

  /** `i` is the least integer with `v` at most the i-th power: the ceiling of the logarithm. */
  ghost predicate IsIndex(g: real, v: real, i: int)
    requires g > 1.0
  {
    Pow(g, i - 1) < v <= Pow(g, i)
  }

  lemma IndexUnique(g: real, v: real, i: int, j: int)
    requires g > 1.0 && IsIndex(g, v, i) && IsIndex(g, v, j)
    ensures i == j
  {
    if i < j {
      PowAtMost(g, i, j - 1);
    } else if j < i {
      PowAtMost(g, j, i - 1);
    }
  }

  lemma PowAtMost(g: real, i: int, j: int)
    requires g > 1.0 && i <= j
    ensures Pow(g, i) <= Pow(g, j)
  {
    if i < j { PowMono(g, i, j); }
  }

  /** Finds the index; over the reals this is the ceiling of log(v) / log(g). */
  method FindIndex(g: real, v: real) returns (i: int)
    requires g > 1.0 && v > 0.0
    ensures IsIndex(g, v, i)
  {
    hide Pow;
    i := 0;
    var p := 1.0;
    PowZero(g);
    ghost var top := PowExceeds(g, v);
    while p < v
      invariant p == Pow(g, i) && i <= top
      decreases top - i
    {
      if i == top { PowAtMost(g, top, i); }
      PowStep(g, i);
      p := g * p;
      i := i + 1;
    }
    BackPow(g, i);
    ghost var bottom := PowBelow(g, v);
    while v <= p / g
      invariant p == Pow(g, i) && v <= p && Pow(g, i - 1) == p / g
      decreases i + bottom
    {
      BackOne(g, i, v, bottom);
      p := p / g;
      i := i - 1;
      BackPow(g, i);
    }
  }

  lemma BackOne(g: real, i: int, v: real, bottom: int)
    requires g > 1.0 && bottom >= 0 && Pow(g, -bottom) < v <= Pow(g, i - 1)
    ensures i > -bottom
  {
    hide Pow;
    if i <= -bottom {
      PowMono(g, i - 1, -bottom);
    }
  }

  lemma IndexExists(g: real, v: real)
    requires g > 1.0 && v > 0.0
    ensures exists i :: IsIndex(g, v, i)
  {
    hide Pow;
    var bottom := PowBelow(g, v);
    var top := PowExceeds(g, v);
    var i := -bottom;
    PowMono(g, i - 1, i);
    while Pow(g, i) < v
      invariant Pow(g, i - 1) < v && i <= top
      decreases top - i
    {
      if i == top { PowAtMost(g, top, i); }
      i := i + 1;
    }
    assert IsIndex(g, v, i);
  }

  ghost function Index(g: real, v: real): (i: int)
    requires g > 1.0 && v > 0.0
    ensures IsIndex(g, v, i)
  {
    IndexExists(g, v);
    var i :| IsIndex(g, v, i);
    i
  }

  /** A value is within the i-th power exactly when its index is at most i. */
  lemma IndexOrder(g: real, v: real, i: int)
    requires g > 1.0 && v > 0.0
    ensures Index(g, v) <= i <==> v <= Pow(g, i)
  {
    var j := Index(g, v);
    if j <= i {
      PowAtMost(g, j, i);
    } else {
      PowAtMost(g, i, j - 1);
    }
  }

  lemma PowOne(g: real)
    requires g > 1.0
    ensures Pow(g, 1) == g && Pow(g, 2) == g * g
  {
    PowStep(g, 0);
    PowStep(g, 1);
  }

  /** Different growth factors file their larger one under different indices. */
  lemma IndicesDiffer(g: real, h: real)
    requires 1.0 < g < h
    ensures Index(h, h) == 1 && Index(g, h) > 1
  {
    PowOne(g);
    PowOne(h);
    PowZero(h);
    assert IsIndex(h, h, 1);
    IndexUnique(h, h, 1, Index(h, h));
    IndexOrder(g, h, 1);
  }

  // ---------------------------------------------------------------- counting samples

  function CountLe(xs: seq<real>, a: real): (n: nat) {
    if xs == [] then 0 else CountLe(xs[..|xs| - 1], a) + if xs[|xs| - 1] <= a then 1 else 0
  }

  function CountLt(xs: seq<real>, a: real): (n: nat) {
    if xs == [] then 0 else CountLt(xs[..|xs| - 1], a) + if xs[|xs| - 1] < a then 1 else 0
  }

  function SumOf(xs: seq<real>): (r: real) {
    if xs == [] then 0.0 else SumOf(xs[..|xs| - 1]) + xs[|xs| - 1]
  }

  /** A sample beyond the zero bucket that falls into bucket `i`. */
  ghost predicate InBucket(g: real, x: real, i: int)
    requires g > 1.0
  {
    x > ZERO_THRESHOLD && Index(g, x) == i
  }

  ghost function CountIn(g: real, xs: seq<real>, i: int): (n: nat)
    requires g > 1.0
  {
    if xs == [] then 0 else CountIn(g, xs[..|xs| - 1], i) + if InBucket(g, xs[|xs| - 1], i) then 1 else 0
  }

  /** `t` is the sample of rank `r`: fewer than r samples are smaller, at least r are no larger. */
  ghost predicate IsRank(xs: seq<real>, r: int, t: real) {
    t in xs && CountLt(xs, t) < r <= CountLe(xs, t)
  }

  lemma {:induction false} CountBelow(xs: seq<real>, a: real, b: real)
    requires a <= b
    ensures CountLt(xs, a) <= CountLt(xs, b) <= |xs|
  {
    if xs != [] {
      CountBelow(xs[..|xs| - 1], a, b);
    }
  }

  lemma RankMore(ys: seq<real>, x: real, r: int, t: real)
    requires IsRank(ys, r, t) && t <= x
    ensures IsRank(ys + [x], r, t)
  {
    assert (ys + [x])[..|ys|] == ys;
  }

  /** A new sample below the one of rank r moves the sample of rank r - 1, or itself, up to rank r. */
  lemma RankShifts(ys: seq<real>, x: real, r: int, u: real)
    requires IsRank(ys, r - 1, u) && CountLt(ys, x) < r
    ensures IsRank(ys + [x], r, if u >= x then u else x)
  {
    var xs := ys + [x];
    assert xs[..|ys|] == ys && xs[|ys|] == x;
    CountMono(ys, u, x);
    assert u in xs && x in xs;
  }

  /** Every rank up to the number of samples is the rank of some sample. */
  lemma {:induction false} RankExists(xs: seq<real>, r: int) returns (t: real)
    requires 1 <= r <= |xs|
    ensures IsRank(xs, r, t)
  {
    var ys, x := xs[..|xs| - 1], xs[|xs| - 1];
    assert xs == ys + [x];
    CountBelow(ys, x, x);
    var known := r <= |ys|;
    if known {
      t := RankExists(ys, r);
      known := t <= x;
    }
    if known {
      RankMore(ys, x, r, t);
    } else {
      if r <= |ys| { CountBelow(ys, x, t); }
      if r == 1 {
        FirstRank(ys, x);
        t := x;
      } else {
        var u := RankExists(ys, r - 1);
        RankShifts(ys, x, r, u);
        t := if u >= x then u else x;
      }
    }
  }

  lemma FirstRank(ys: seq<real>, x: real)
    requires CountLt(ys, x) < 1
    ensures IsRank(ys + [x], 1, x)
  {
    assert (ys + [x])[..|ys|] == ys && (ys + [x])[|ys|] == x;
  }

  lemma {:induction false} CountMono(xs: seq<real>, a: real, b: real)
    ensures a <= b ==> CountLe(xs, a) <= CountLe(xs, b)
    ensures a < b ==> CountLe(xs, a) <= CountLt(xs, b)
    ensures CountLe(xs, a) <= |xs|
  {
    if xs != [] {
      CountMono(xs[..|xs| - 1], a, b);
    }
  }

  lemma {:induction false} CountConcat(g: real, xs: seq<real>, ys: seq<real>, i: int, a: real)
    requires g > 1.0
    ensures CountIn(g, xs + ys, i) == CountIn(g, xs, i) + CountIn(g, ys, i)
    ensures CountLe(xs + ys, a) == CountLe(xs, a) + CountLe(ys, a)
  {
    hide Index;
    if ys == [] {
      assert xs + ys == xs;
    } else {
      var n := |ys| - 1;
      CountConcat(g, xs, ys[..n], i, a);
      assert (xs + ys)[..|xs| + n] == xs + ys[..n];
    }
  }

  lemma {:induction false} SumConcat(xs: seq<real>, ys: seq<real>)
    ensures SumOf(xs + ys) == SumOf(xs) + SumOf(ys)
  {
    if ys == [] {
      assert xs + ys == xs;
    } else {
      var n := |ys| - 1;
      SumConcat(xs, ys[..n]);
      assert (xs + ys)[..|xs| + n] == xs + ys[..n];
    }
  }

  function Copies(v: real, n: nat): (r: seq<real>) {
    seq(n, _ => v)
  }

  lemma {:induction false} CountCopies(g: real, v: real, n: nat, i: int, a: real)
    requires g > 1.0
    ensures CountIn(g, Copies(v, n), i) == if InBucket(g, v, i) then n else 0
    ensures CountLe(Copies(v, n), a) == if v <= a then n else 0
  {
    hide Index;
    if n > 0 {
      CountCopies(g, v, n - 1, i, a);
      assert Copies(v, n)[..n - 1] == Copies(v, n - 1);
    }
  }

  lemma {:induction false} SumCopies(v: real, n: nat)
    ensures SumOf(Copies(v, n)) == v * n as real
  {
    if n > 0 {
      SumCopies(v, n - 1);
      assert Copies(v, n)[..n - 1] == Copies(v, n - 1);
      assert v * n as real == v * (n - 1) as real + v;
    }
  }

  /** A bucket is populated exactly when some sample falls into it. */
  lemma {:induction false} CountPositive(g: real, xs: seq<real>, i: int)
    requires g > 1.0
    ensures CountIn(g, xs, i) > 0 <==> exists k :: 0 <= k < |xs| && InBucket(g, xs[k], i)
  {
    hide InBucket;
    if xs != [] {
      var n := |xs| - 1;
      CountPositive(g, xs[..n], i);
      assert forall k :: 0 <= k < n ==> xs[..n][k] == xs[k];
      if InBucket(g, xs[n], i) { assert 0 <= n < |xs| && InBucket(g, xs[n], i); }
      if k :| 0 <= k < |xs| && InBucket(g, xs[k], i) { assert k < n ==> InBucket(g, xs[..n][k], i); }
    }
  }

  ghost function BucketSum(g: real, xs: seq<real>, ks: seq<int>): (n: nat)
    requires g > 1.0
  {
    if ks == [] then 0 else BucketSum(g, xs, ks[..|ks| - 1]) + CountIn(g, xs, ks[|ks| - 1])
  }

  lemma {:induction false} BucketSumMore(g: real, xs: seq<real>, ks: seq<int>)
    requires g > 1.0 && xs != [] && Distinct(ks)
    ensures var n := |xs| - 1;
            BucketSum(g, xs, ks) ==
              BucketSum(g, xs[..n], ks) + if xs[n] > ZERO_THRESHOLD && Index(g, xs[n]) in ks then 1 else 0
  {
    if ks != [] {
      var m := |ks| - 1;
      BucketSumMore(g, xs, ks[..m]);
      assert forall k :: k in ks <==> k in ks[..m] || k == ks[m];
      assert ks[m] !in ks[..m];
    }
  }

  lemma {:induction false} BucketSumNone(g: real, ks: seq<int>)
    requires g > 1.0
    ensures BucketSum(g, [], ks) == 0
  {
    if ks != [] {
      BucketSumNone(g, ks[..|ks| - 1]);
    }
  }

  /** The zero bucket and the buckets up to `top` hold exactly the samples within the power of `top`. */
  lemma {:induction false} Cumulative(g: real, xs: seq<real>, low: seq<int>, top: int)
    requires g > 1.0 && Distinct(low) && Pow(g, top) >= ZERO_THRESHOLD
    requires forall k :: 0 <= k < |xs| && xs[k] > ZERO_THRESHOLD ==>
      (Index(g, xs[k]) in low <==> Index(g, xs[k]) <= top)
    ensures CountLe(xs, ZERO_THRESHOLD) + BucketSum(g, xs, low) == CountLe(xs, Pow(g, top))
  {
    if xs == [] {
      BucketSumNone(g, low);
    } else {
      var n := |xs| - 1;
      assert forall k :: 0 <= k < n ==> xs[..n][k] == xs[k];
      Cumulative(g, xs[..n], low, top);
      BucketSumMore(g, xs, low);
      hide Index, Pow, BucketSum;
      if xs[n] > ZERO_THRESHOLD {
        IndexOrder(g, xs[n], top);
      }
    }
  }
}
