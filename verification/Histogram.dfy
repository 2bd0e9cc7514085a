/**
 The log-bucket histogram. Floating-point values are modelled as reals, and the bucket index as the
 least power of the growth factor that reaches the value. While no bucket overflows, a quantile
 estimate is within the growth factor of the true sample, and merging is observing both streams.
 */
module Histograms {
  import opened Seqs
  import opened HistogramTheory
  import opened IntOrder

  const MAX_BUCKETS := 2048
  const MERGE_TOLERANCE: real := 0.000000000001

  /** What is summarised of the raw stream. */
  datatype Sums = Sums(zeroCount: nat, count: nat, sum: real, min: real, max: real)

  /** The recorded state of a histogram. */
  datatype Hist = Hist(gamma: real, buckets: map<int, nat>, sums: Sums)

  function At(buckets: map<int, nat>, i: int): (n: nat) {
    if i in buckets then buckets[i] else 0
  }

  /** The sums describe the stream. */
  ghost predicate Totals(s: Sums, xs: seq<real>) {
    && s.count == |xs| && s.zeroCount == CountLe(xs, ZERO_THRESHOLD) && s.sum == SumOf(xs)
    && Spans(s.min, s.max, xs) && (xs != [] ==> s.min in xs && s.max in xs)
  }

  ghost predicate Spans(lo: real, hi: real, xs: seq<real>) {
    forall k :: 0 <= k < |xs| ==> 0.0 <= xs[k] && lo <= xs[k] <= hi
  }

  /** Every bucket counts exactly the samples whose index it is. */
  ghost predicate Sorts(g: real, buckets: map<int, nat>, xs: seq<real>)
    requires g > 1.0
  {
    forall i :: At(buckets, i) == CountIn(g, xs, i)
  }

  ghost predicate Positive(buckets: map<int, nat>) {
    forall i :: i in buckets ==> buckets[i] > 0
  }

  ghost predicate Represents(h: Hist, xs: seq<real>) {
    h.gamma > 1.0 && Totals(h.sums, xs) && Sorts(h.gamma, h.buckets, xs) && Positive(h.buckets)
  }

  /** A stream determines its histogram. */
  lemma RepresentsOne(a: Hist, b: Hist, xs: seq<real>)
    requires Represents(a, xs) && Represents(b, xs) && a.gamma == b.gamma && xs != []
    ensures a == b
  {
    hide CountIn, CountLe, SumOf;
    forall i ensures i in a.buckets <==> i in b.buckets {
      assert At(a.buckets, i) == CountIn(a.gamma, xs, i) == At(b.buckets, i);
    }
    forall i | i in a.buckets ensures a.buckets[i] == b.buckets[i] {
      assert At(a.buckets, i) == CountIn(a.gamma, xs, i) == At(b.buckets, i);
    }
    assert a.buckets == b.buckets;
    var i :| 0 <= i < |xs| && xs[i] == a.sums.min;
    var j :| 0 <= j < |xs| && xs[j] == b.sums.min;
    var k :| 0 <= k < |xs| && xs[k] == a.sums.max;
    var l :| 0 <= l < |xs| && xs[l] == b.sums.max;
  }

  // ---------------------------------------------------------------- quantiles

  function Ceil(x: real): (n: int) {
    -((-x).Floor)
  }

  /** The 1-based rank of the target sample. */
  function Rank(q: real, count: nat): (r: int) {
    var p := if q < 0.0 then 0.0 else if q > 1.0 then 1.0 else q;
    var r := Ceil(p * count as real);
    if r == 0 then 1 else r
  }

  function Clamp(h: Hist, est: real): (r: real) {
    var a := if est > h.sums.max then h.sums.max else est;
    if a < h.sums.min then h.sums.min else a
  }

  /** The scan over ascending indices, `cum` samples already passed. */
  function Locate(h: Hist, ks: seq<int>, rank: int, cum: nat): (r: real)
    requires h.gamma > 1.0
  {
    if ks == [] then h.sums.max
    else if rank <= cum + At(h.buckets, ks[0]) then Clamp(h, Pow(h.gamma, ks[0]))
    else Locate(h, ks[1..], rank, cum + At(h.buckets, ks[0]))
  }

  ghost function QuantileOf(h: Hist, q: real): (r: real)
    requires h.gamma > 1.0
  {
    if h.sums.count == 0 || Rank(q, h.sums.count) <= h.sums.zeroCount then 0.0
    else Locate(h, Asc(h.buckets.Keys), Rank(q, h.sums.count), h.sums.zeroCount)
  }

  /** The indices up to a listed one are exactly the listed prefix, for samples whose indices are all listed. */
  lemma PrefixCovers(g: real, xs: seq<real>, ks: seq<int>, n: nat)
    requires g > 1.0 && Ascending(ks) && n < |ks|
    requires forall k :: 0 <= k < |xs| && xs[k] > ZERO_THRESHOLD ==> Index(g, xs[k]) in ks
    requires Pow(g, ks[n]) >= ZERO_THRESHOLD
    ensures CountLe(xs, ZERO_THRESHOLD) + BucketSum(g, xs, ks[..n + 1]) == CountLe(xs, Pow(g, ks[n]))
  {
    hide Index, Pow, BucketSum, CountLe;
    forall k | 0 <= k < |xs| && xs[k] > ZERO_THRESHOLD ensures Index(g, xs[k]) in ks[..n + 1] <==>
      Index(g, xs[k]) <= ks[n] {
      var j :| 0 <= j < |ks| && ks[j] == Index(g, xs[k]);
      assert j <= n ==> ks[..n + 1][j] == ks[j];
    }
    Cumulative(g, xs, ks[..n + 1], ks[n]);
  }

  /** A populated bucket lies above the zero threshold. */
  lemma PopulatedAbove(g: real, xs: seq<real>, i: int)
    requires g > 1.0 && CountIn(g, xs, i) > 0
    ensures Pow(g, i) >= ZERO_THRESHOLD
  {
    CountPositive(g, xs, i);
  }

  /** The sample of the rank that falls between two cumulative counts lies in the bucket between them. */
  lemma RankInBucket(g: real, xs: seq<real>, ks: seq<int>, n: nat, rank: int, t: real)
    requires g > 1.0 && Ascending(ks) && n < |ks| && IsRank(xs, rank, t) && t > ZERO_THRESHOLD
    requires forall k :: 0 <= k < |xs| && xs[k] > ZERO_THRESHOLD ==> Index(g, xs[k]) in ks
    requires forall j :: 0 <= j < |ks| ==> Pow(g, ks[j]) >= ZERO_THRESHOLD
    requires CountLe(xs, ZERO_THRESHOLD) + BucketSum(g, xs, ks[..n]) < rank
    requires rank <= CountLe(xs, ZERO_THRESHOLD) + BucketSum(g, xs, ks[..n + 1])
    ensures Index(g, t) == ks[n]
  {
    hide Index, Pow, BucketSum, CountLe, CountLt;
    var k :| 0 <= k < |xs| && xs[k] == t;
    var j :| 0 <= j < |ks| && ks[j] == Index(g, t);
    PrefixCovers(g, xs, ks, n);
    if j > n {
      IndexOrder(g, t, ks[n]);
      CountMono(xs, Pow(g, ks[n]), t);
    } else if j < n {
      PrefixCovers(g, xs, ks, j);
      IndexOrder(g, t, ks[j]);
      CountMono(xs, t, Pow(g, ks[j]));
      SumMono(g, xs, ks, j + 1, n);
    }
  }

  lemma {:induction false} SumMono(g: real, xs: seq<real>, ks: seq<int>, i: nat, j: nat)
    requires g > 1.0 && i <= j <= |ks|
    ensures BucketSum(g, xs, ks[..i]) <= BucketSum(g, xs, ks[..j])
    decreases j
  {
    if i < j {
      SumMono(g, xs, ks, i, j - 1);
      assert ks[..j][..j - 1] == ks[..j - 1];
    }
  }

  /** Within the bucket of `t`, the clamped upper edge is between `t` and the growth factor times `t`. */
  lemma EdgeBound(h: Hist, t: real, i: int)
    requires h.gamma > 1.0 && t > 0.0 && Index(h.gamma, t) == i && h.sums.min <= t <= h.sums.max
    ensures Close(h, t, Clamp(h, Pow(h.gamma, i)))
  {
    hide Pow;
    var g := h.gamma;
    assert IsIndex(g, t, i);
    PowStep(g, i - 1);
    Widen(g, Pow(g, i - 1), Pow(g, i), t);
  }

  lemma Widen(g: real, a: real, b: real, t: real)
    requires g > 1.0 && t > 0.0 && a < t && b == g * a
    ensures b <= g * t && t <= g * t
  {
    NonNegative(g, t - a);
    assert g * (t - a) == g * t - g * a;
    NonNegative(g - 1.0, t);
    assert (g - 1.0) * t == g * t - t;
  }

  /** An estimate that is never low and at most the growth factor high. */
  ghost predicate Close(h: Hist, t: real, est: real) {
    t <= est <= h.gamma * t
  }

  lemma ZerosCounted(h: Hist, xs: seq<real>)
    requires Represents(h, xs)
    ensures h.gamma > 1.0 && h.sums.zeroCount == CountLe(xs, ZERO_THRESHOLD)
  {
  }

  /** The scan cannot run out of buckets before it reaches the rank of a sample. */
  lemma NotExhausted(h: Hist, xs: seq<real>, ks: seq<int>, n: nat, rank: int, t: real)
    requires Represents(h, xs) && ks == Asc(h.buckets.Keys) && n <= |ks| && IsRank(xs, rank, t) && t > ZERO_THRESHOLD
    requires h.sums.zeroCount + BucketSum(h.gamma, xs, ks[..n]) < rank
    ensures n < |ks|
  {
    hide Index, Pow, BucketSum, CountLe, CountLt, Represents, Asc;
    ZerosCounted(h, xs);
    IndicesListed(h, xs, ks);
    assert ks[..|ks|] == ks;
    AllCounted(h.gamma, xs, ks, t);
  }

  /** Where the scan stops, the estimate is good. */
  lemma StopsWell(h: Hist, xs: seq<real>, ks: seq<int>, n: nat, rank: int, t: real)
    requires Represents(h, xs) && ks == Asc(h.buckets.Keys) && n < |ks| && IsRank(xs, rank, t) && t > ZERO_THRESHOLD
    requires h.sums.zeroCount + BucketSum(h.gamma, xs, ks[..n]) < rank <= h.sums.zeroCount + BucketSum(h.gamma, xs,
      ks[..n + 1])
    ensures Close(h, t, Clamp(h, Pow(h.gamma, ks[n])))
  {
    hide Index, Pow, BucketSum, CountLe, CountLt, Represents, Asc, Clamp;
    ZerosCounted(h, xs);
    IndicesListed(h, xs, ks);
    RankInBucket(h.gamma, xs, ks, n, rank, t);
    InRange(h, xs, t);
    EdgeBound(h, t, ks[n]);
  }

  lemma InRange(h: Hist, xs: seq<real>, t: real)
    requires Represents(h, xs) && t in xs
    ensures h.sums.min <= t <= h.sums.max
  {
    hide CountLe, SumOf, Sorts;
  }

  lemma CountAt(h: Hist, xs: seq<real>, i: int)
    requires Represents(h, xs)
    ensures At(h.buckets, i) == CountIn(h.gamma, xs, i)
  {
  }

  lemma LocateStep(h: Hist, ks: seq<int>, n: nat, rank: int, cum: nat)
    requires h.gamma > 1.0 && n < |ks|
    ensures Locate(h, ks[n..], rank, cum) ==
            if rank <= cum + At(h.buckets, ks[n]) then Clamp(h, Pow(h.gamma, ks[n]))
              else Locate(h, ks[n + 1..], rank, cum + At(h.buckets, ks[n]))
  {
    hide Pow, Clamp;
    assert ks[n..][1..] == ks[n + 1..];
  }

  lemma {:induction false} LocateBound(h: Hist, xs: seq<real>, ks: seq<int>, n: nat, rank: int, t: real)
    requires Represents(h, xs) && ks == Asc(h.buckets.Keys) && n <= |ks| && IsRank(xs, rank, t) && t > ZERO_THRESHOLD
    requires h.sums.zeroCount + BucketSum(h.gamma, xs, ks[..n]) < rank
    ensures Close(h, t, Locate(h, ks[n..], rank, h.sums.zeroCount + BucketSum(h.gamma, xs, ks[..n])))
    decreases |ks| - n
  {
    hide Pow, BucketSum, Represents, Clamp, Locate, IsRank, CountIn, Close, Asc;
    ZerosCounted(h, xs);
    NotExhausted(h, xs, ks, n, rank, t);
    SumNext(h.gamma, xs, ks, n);
    CountAt(h, xs, ks[n]);
    LocateStep(h, ks, n, rank, h.sums.zeroCount + BucketSum(h.gamma, xs, ks[..n]));
    if rank <= h.sums.zeroCount + BucketSum(h.gamma, xs, ks[..n + 1]) {
      StopsWell(h, xs, ks, n, rank, t);
    } else {
      LocateBound(h, xs, ks, n + 1, rank, t);
    }
  }

  lemma SumNext(g: real, xs: seq<real>, ks: seq<int>, n: nat)
    requires g > 1.0 && n < |ks|
    ensures BucketSum(g, xs, ks[..n + 1]) == BucketSum(g, xs, ks[..n]) + CountIn(g, xs, ks[n])
  {
    assert ks[..n + 1][..n] == ks[..n];
  }

  lemma IndicesListed(h: Hist, xs: seq<real>, ks: seq<int>)
    requires Represents(h, xs) && ks == Asc(h.buckets.Keys)
    ensures forall k :: 0 <= k < |xs| && xs[k] > ZERO_THRESHOLD ==> Index(h.gamma, xs[k]) in ks
    ensures forall j :: 0 <= j < |ks| ==> Pow(h.gamma, ks[j]) >= ZERO_THRESHOLD
  {
    hide Pow, Index, CountIn, SumOf, CountLe;
    forall k | 0 <= k < |xs| && xs[k] > ZERO_THRESHOLD ensures Index(h.gamma, xs[k]) in ks {
      var i := Index(h.gamma, xs[k]);
      assert InBucket(h.gamma, xs[k], i);
      CountPositive(h.gamma, xs, i);
      assert At(h.buckets, i) > 0;
    }
    forall j | 0 <= j < |ks| ensures Pow(h.gamma, ks[j]) >= ZERO_THRESHOLD {
      assert At(h.buckets, ks[j]) == CountIn(h.gamma, xs, ks[j]);
      PopulatedAbove(h.gamma, xs, ks[j]);
    }
  }

  /** Every rank is reached within the last bucket that holds a sample. */
  lemma AllCounted(g: real, xs: seq<real>, ks: seq<int>, t: real)
    requires g > 1.0 && Ascending(ks) && t in xs && t > ZERO_THRESHOLD
    requires forall k :: 0 <= k < |xs| && xs[k] > ZERO_THRESHOLD ==> Index(g, xs[k]) in ks
    requires forall j :: 0 <= j < |ks| ==> Pow(g, ks[j]) >= ZERO_THRESHOLD
    ensures CountLe(xs, t) <= CountLe(xs, ZERO_THRESHOLD) + BucketSum(g, xs, ks)
  {
    hide Index, Pow, BucketSum, CountLe;
    var k :| 0 <= k < |xs| && xs[k] == t;
    var j :| 0 <= j < |ks| && ks[j] == Index(g, t);
    PrefixCovers(g, xs, ks, j);
    IndexOrder(g, t, ks[j]);
    CountMono(xs, t, Pow(g, ks[j]));
    SumMono(g, xs, ks, j + 1, |ks|);
    assert ks[..|ks|] == ks;
  }

  /** Without overflow, the estimate for a sample beyond the zero threshold is within the growth factor of it. */
  lemma QuantileBound(h: Hist, xs: seq<real>, q: real, t: real)
    requires Represents(h, xs) && IsRank(xs, Rank(q, h.sums.count), t)
    ensures t > ZERO_THRESHOLD ==> t <= QuantileOf(h, q) <= h.gamma * t
    ensures t <= ZERO_THRESHOLD ==> QuantileOf(h, q) == 0.0
  {
    var rank := Rank(q, h.sums.count);
    hide Pow, Sorts, Locate, Rank;
    CountMono(xs, t, ZERO_THRESHOLD);
    if t > ZERO_THRESHOLD {
      CountMono(xs, ZERO_THRESHOLD, t);
      hide CountLe, CountLt, SumOf;
      var ks := Asc(h.buckets.Keys);
      assert ks[..0] == [] && ks[0..] == ks;
      LocateBound(h, xs, ks, 0, rank, t);
    }
  }

  lemma RankInRange(q: real, count: nat)
    requires count > 0
    ensures 1 <= Rank(q, count) <= count
  {
    var p := if q < 0.0 then 0.0 else if q > 1.0 then 1.0 else q;
    var c := count as real;
    NonNegative(p, c);
    NonNegative(1.0 - p, c);
    assert (1.0 - p) * c == c - p * c;
  }

  /** The quantile asked for, kept within 0 and 1. */
  function Clamped(q: real): (p: real) {
    if q < 0.0 then 0.0 else if q > 1.0 then 1.0 else q
  }

  /**
   `t` is a q-quantile of the samples: at least the fraction q of them are no larger, and fewer than
   that fraction are smaller, unless none is.
   */
  ghost predicate IsQuantile(xs: seq<real>, q: real, t: real) {
    && t in xs && CountLe(xs, t) as real >= Clamped(q) * |xs| as real
    && (CountLt(xs, t) == 0 || (CountLt(xs, t) as real) < Clamped(q) * |xs| as real)
  }

  /** The sample of the rank the scan looks for is a quantile in that sense. */
  lemma RankMeans(xs: seq<real>, q: real, t: real)
    requires IsRank(xs, Rank(q, |xs|), t)
    ensures IsQuantile(xs, q, t)
  {
    hide CountLe, CountLt;
    CeilBounds(Clamped(q) * |xs| as real);
  }

  lemma CeilBounds(x: real)
    ensures Ceil(x) as real >= x && Ceil(x) as real - 1.0 < x
  {
  }

  /** An estimate of `t`: never low and at most the growth factor high, or zero below the threshold. */
  ghost predicate Estimates(g: real, t: real, est: real) {
    if t > ZERO_THRESHOLD then t <= est <= g * t else est == 0.0
  }

  /** For every stream and every q the estimate is that of a q-quantile of the stream, which always exists. */
  lemma QuantileAccurate(h: Hist, xs: seq<real>, q: real)
    requires Represents(h, xs) && xs != []
    ensures exists t :: IsQuantile(xs, q, t) && Estimates(h.gamma, t, QuantileOf(h, q))
  {
    hide Sorts, QuantileOf, Rank, IsRank, CountLe, IsQuantile;
    RankInRange(q, |xs|);
    var t := RankExists(xs, Rank(q, |xs|));
    QuantileBound(h, xs, q, t);
    RankMeans(xs, q, t);
  }

  /** Two q-quantiles of one stream are the same sample. */
  lemma QuantileUnique(xs: seq<real>, q: real, t: real, u: real)
    requires IsQuantile(xs, q, t) && IsQuantile(xs, q, u)
    ensures t == u
  {
    if t < u {
      CountMono(xs, t, u);
      SelfCounted(xs, t);
    } else if u < t {
      CountMono(xs, u, t);
      SelfCounted(xs, u);
    }
  }

  lemma {:induction false} SelfCounted(xs: seq<real>, t: real)
    requires t in xs
    ensures CountLe(xs, t) >= 1
  {
    var n := |xs| - 1;
    if xs[n] != t {
      assert t in xs[..n];
      SelfCounted(xs[..n], t);
    }
  }

  // ---------------------------------------------------------------- recording

  /** Both streams' sums together. */
  function Added(a: Sums, b: Sums): (s: Sums) {
    Sums(a.zeroCount + b.zeroCount, a.count + b.count, a.sum + b.sum,
         if a.count == 0 || b.min < a.min then b.min else a.min,
         if a.count == 0 || b.max > a.max then b.max else a.max)
  }

  lemma TotalsAdd(a: Sums, b: Sums, xs: seq<real>, ys: seq<real>)
    requires Totals(a, xs) && Totals(b, ys) && ys != []
    ensures Totals(Added(a, b), xs + ys)
  {
    CountConcat(2.0, xs, ys, 0, ZERO_THRESHOLD);
    SumConcat(xs, ys);
    hide CountIn, CountLe, SumOf, Spans;
    if xs == [] {
      assert xs + ys == ys;
    } else {
      SpansAdd(a.min, a.max, b.min, b.max, xs, ys);
      AttainedAdd(a.min, a.max, b.min, b.max, xs, ys);
    }
  }

  lemma AttainedAdd(lo: real, hi: real, lo': real, hi': real, xs: seq<real>, ys: seq<real>)
    requires lo in xs && hi in xs && lo' in ys && hi' in ys
    ensures (if lo' < lo then lo' else lo) in xs + ys && (if hi' > hi then hi' else hi) in xs + ys
  {
    InEither(if lo' < lo then lo' else lo, xs, ys);
    InEither(if hi' > hi then hi' else hi, xs, ys);
  }

  lemma SpansAdd(lo: real, hi: real, lo': real, hi': real, xs: seq<real>, ys: seq<real>)
    requires Spans(lo, hi, xs) && Spans(lo', hi', ys)
    ensures Spans(if lo' < lo then lo' else lo, if hi' > hi then hi' else hi, xs + ys)
  {
  }

  lemma InEither(x: real, xs: seq<real>, ys: seq<real>)
    requires x in xs || x in ys
    ensures x in xs + ys
  {
  }

  function CopySums(v: real, n: nat): (s: Sums) {
    Sums(if v <= ZERO_THRESHOLD then n else 0, n, v * n as real, v, v)
  }

  lemma NoCopies(xs: seq<real>, v: real)
    ensures xs + Copies(v, 0) == xs
  {
  }

  lemma CopiesTotals(v: real, n: nat)
    requires v >= 0.0 && n > 0
    ensures Totals(CopySums(v, n), Copies(v, n)) && Copies(v, n) != []
  {
    CountCopies(2.0, v, n, 0, ZERO_THRESHOLD);
    SumCopies(v, n);
    hide CountLe, SumOf;
    assert Copies(v, n)[0] == v;
  }

  /** Filing `n` copies under their own index keeps the buckets exact. */
  lemma SortsCopies(g: real, buckets: map<int, nat>, xs: seq<real>, v: real, n: nat, idx: int)
    requires g > 1.0 && Sorts(g, buckets, xs) && n > 0 && (v > ZERO_THRESHOLD ==> IsIndex(g, v, idx))
    ensures Sorts(g, if v > ZERO_THRESHOLD then buckets[idx := At(buckets, idx) + n] else buckets, xs + Copies(v, n))
  {
    if v > ZERO_THRESHOLD {
      IndexUnique(g, v, idx, Index(g, v));
    }
    hide Index, CountIn;
    var after := if v > ZERO_THRESHOLD then buckets[idx := At(buckets, idx) + n] else buckets;
    forall i ensures At(after, i) == CountIn(g, xs + Copies(v, n), i) {
      CountConcat(g, xs, Copies(v, n), i, 0.0);
      CountCopies(g, v, n, i, 0.0);
    }
  }

  class Histogram {
    const gamma: real
    var buckets: map<int, nat>
    var zeroCount: nat
    var count: nat
    var sum: real
    var min: real
    var max: real
    var overflow: bool
    ghost var samples: seq<real>

    ghost function Summary(): (s: Sums)
      reads this`zeroCount, this`count, this`sum, this`min, this`max
    {
      Sums(zeroCount, count, sum, min, max)
    }

    ghost function View(): (h: Hist)
      reads this
    {
      Hist(gamma, buckets, Summary())
    }

    /** `samples` is the observed stream; the totals always describe it, the buckets until one overflows. */
    ghost predicate Valid()
      reads this
    {
      Balanced() && (!overflow ==> Sorts(gamma, buckets, samples))
    }

    /** What holds of every histogram, overflowed or not: no sample is lost from the buckets. */
    ghost predicate Balanced()
      reads this
    {
      && gamma > 1.0 && Totals(Summary(), samples) && |buckets| <= MAX_BUCKETS && Positive(buckets)
      && zeroCount + Mass(buckets) == count
    }

    constructor (accuracy: real)
      ensures Valid() && samples == [] && !overflow
      ensures gamma == 1.0 + if 0.0 < accuracy < 1.0 then accuracy else 0.02
    {
      gamma := 1.0 + if 0.0 < accuracy < 1.0 then accuracy else 0.02;
      buckets, zeroCount, count, sum, min, max, overflow, samples := map[], 0, 0, 0.0, 0.0, 0.0, false, [];
    }

    /** The populated index closest to `idx`. */
    method NearestExisting(idx: int) returns (best: int)
      requires buckets != map[]
      ensures best in buckets && forall k :: k in buckets ==> Distance(best, idx) <= Distance(k, idx)
    {
      NotEmpty(buckets.Keys);
      best :| best in buckets;
      var rest := buckets.Keys - {best};
      while rest != {}
        invariant best in buckets && rest <= buckets.Keys
        invariant forall k :: k in buckets && k !in rest ==> Distance(best, idx) <= Distance(k, idx)
        decreases rest
      {
        NotEmpty(rest);
        var k :| k in rest;
        if Distance(k, idx) < Distance(best, idx) {
          best := k;
        }
        rest := rest - {k};
      }
    }

    /** Adds `n` to a bucket, or to the nearest existing one when the bound is reached. */
    method AddTo(idx: int, n: nat)
      requires n > 0 && |buckets| <= MAX_BUCKETS && Positive(buckets)
      modifies this`buckets, this`overflow
      ensures overflow == (old(overflow) || Full(old(buckets), idx))
      ensures AddedAt(old(buckets), idx, n, buckets)
      ensures |buckets| <= MAX_BUCKETS && Positive(buckets) && Mass(buckets) == Mass(old(buckets)) + n
    {
      hide Mass;
      var at := idx;
      if idx !in buckets && |buckets| >= MAX_BUCKETS {
        overflow := true;
        at := NearestExisting(idx);
      }
      MassAdd(buckets, at, n);
      assert Receives(old(buckets), idx, at);
      buckets := buckets[at := At(buckets, at) + n];
    }

    /** Adds the other histogram's buckets in ascending order. */
    method MergeBuckets(theirs: map<int, nat>)
      requires |buckets| <= MAX_BUCKETS && Positive(theirs) && Positive(buckets)
      modifies this`buckets, this`overflow
      ensures |buckets| <= MAX_BUCKETS && Positive(buckets) && Mass(buckets) == Mass(old(buckets)) + Mass(theirs)
      ensures overflow == (old(overflow) || |old(buckets).Keys + theirs.Keys| > MAX_BUCKETS)
      ensures |old(buckets).Keys + theirs.Keys| <= MAX_BUCKETS ==> AddsUp(old(buckets), theirs, buckets)
    {
      hide *;
      var ks := SortInts(theirs.Keys);
      ghost var ours, lost := buckets, false;
      MergeStart(ours, theirs, ks);
      AscKeys(theirs, ks);
      for n := 0 to |ks|
        invariant |buckets| <= MAX_BUCKETS && Positive(buckets)
        invariant overflow == (old(overflow) || lost)
        invariant Merging(ours, theirs, ks[..n], buckets, lost)
      {
        ghost var before := buckets;
        PositiveAt(theirs, ks[n]);
        AddTo(ks[n], theirs[ks[n]]);
        MergeNext(ours, theirs, ks, n, before, buckets, lost);
        lost := lost || Full(before, ks[n]);
      }
      assert ks[..|ks|] == ks;
      MergeEnd(ours, theirs, ks, buckets, lost);
    }

    /** Folds sums into the histogram's own. */
    method AddSums(s: Sums)
      modifies this`zeroCount, this`count, this`sum, this`min, this`max
      ensures Summary() == Added(old(Summary()), s)
    {
      if count == 0 || s.min < min {
        min := s.min;
      }
      if count == 0 || s.max > max {
        max := s.max;
      }
      count := count + s.count;
      sum := sum + s.sum;
      zeroCount := zeroCount + s.zeroCount;
    }

    /** Records n copies of a sample; a negative one counts as zero. */
    method ObserveN(x: real, n: nat)
      requires Valid()
      modifies this
      ensures Valid() && samples == old(samples) + Copies(if x < 0.0 then 0.0 else x, n)
      ensures overflow == (old(overflow) || (n > 0 && x > ZERO_THRESHOLD && Full(old(buckets), Index(gamma, x))))
    {
      hide Totals, Sorts, Copies, Positive, Mass, Full, Index;
      var v := if x < 0.0 then 0.0 else x;
      if n == 0 {
        NoCopies(samples, v);
        return;
      }
      CopiesTotals(v, n);
      TotalsAdd(Summary(), CopySums(v, n), samples, Copies(v, n));
      AddSums(CopySums(v, n));
      FileSample(v, n, samples);
      samples := samples + Copies(v, n);
    }

    /** Files n copies of a sample under its index, unless it belongs in the zero bucket. */
    method FileSample(v: real, n: nat, ghost xs: seq<real>)
      requires gamma > 1.0 && n > 0 && |buckets| <= MAX_BUCKETS && Positive(buckets)
      requires !overflow ==> Sorts(gamma, buckets, xs)
      modifies this`buckets, this`overflow
      ensures |buckets| <= MAX_BUCKETS && Positive(buckets) && (!overflow ==> Sorts(gamma, buckets, xs + Copies(v, n)))
      ensures overflow == (old(overflow) || (v > ZERO_THRESHOLD && Full(old(buckets), Index(gamma, v))))
      ensures Mass(buckets) == Mass(old(buckets)) + if v > ZERO_THRESHOLD then n else 0
    {
      hide Sorts, Copies, Positive, Pow, Mass;
      if v <= ZERO_THRESHOLD {
        if !overflow { SortsCopies(gamma, buckets, xs, v, n, 0); }
        return;
      }
      var idx := FindIndex(gamma, v);
      IndexUnique(gamma, v, idx, Index(gamma, v));
      if !overflow { SortsCopies(gamma, buckets, xs, v, n, idx); }
      AddTo(idx, n);
    }

    /** The estimate of the q-quantile. */
    method Quantile(q: real) returns (est: real)
      requires gamma > 1.0
      ensures est == QuantileOf(View(), q)
      ensures Valid() && samples == [] ==> est == 0.0
      ensures Valid() && samples != [] && !overflow ==>
                exists t :: IsQuantile(samples, q, t) && Estimates(gamma, t, est)
    {
      hide Asc, Pow, Locate, Rank, Mass, Totals, Sorts, Positive, IsQuantile, Estimates;
      if Valid() {
        CountIsSize(Summary(), samples);
        if samples != [] && !overflow {
          QuantileAccurate(View(), samples, q);
        }
      }
      if count == 0 {
        return 0.0;
      }
      var rank := Rank(q, count);
      if rank <= zeroCount {
        return 0.0;
      }
      est := ScanBuckets(rank);
    }

    /** Walks the buckets in ascending order until the rank is passed. */
    method ScanBuckets(rank: int) returns (est: real)
      requires gamma > 1.0
      ensures est == Locate(View(), Asc(buckets.Keys), rank, zeroCount)
    {
      hide Asc, Pow;
      var cum: nat := zeroCount;
      var ks := SortInts(buckets.Keys);
      for i := 0 to |ks|
        invariant Locate(View(), ks, rank, zeroCount) == Locate(View(), ks[i..], rank, cum)
      {
        assert ks[i..][1..] == ks[i + 1..];
        if rank <= cum + buckets[ks[i]] {
          est := Pow(gamma, ks[i]);
          if est > max {
            est := max;
          }
          if est < min {
            est := min;
          }
          return;
        }
        cum := cum + buckets[ks[i]];
      }
      est := max;
    }

    /**
     Folds another histogram into this one; histograms of different accuracy are refused, and an empty
     one changes nothing. Otherwise the result overflows exactly when one of the two had, or they have too
     many indices between them. Without overflow every bucket holds both counts, and for equal accuracies
     that is the histogram of both streams.
     */
    method Merge(other: Histogram?) returns (ok: bool)
      requires Valid() && (other != null ==> other.Valid())
      modifies this
      ensures ok == (other == null || -MERGE_TOLERANCE <= gamma - other.gamma <= MERGE_TOLERANCE)
      ensures !ok || other == null || old(other.count) == 0 ==>
                Valid() && View() == old(View()) && samples == old(samples) && overflow == old(overflow)
      ensures ok && other != null ==> Balanced() && samples == old(samples) + old(other.samples)
      ensures ok && other != null && gamma == other.gamma ==> Valid()
      ensures ok && other != null && old(other.count) > 0 ==>
                overflow == old(overflow || other.overflow || |buckets.Keys + other.buckets.Keys| > MAX_BUCKETS)
      ensures ok && other != null && old(|buckets.Keys + other.buckets.Keys|) <= MAX_BUCKETS ==>
                AddsUp(old(buckets), old(other.buckets), buckets)
    {
      hide Mass, Positive, Sorts;
      if other == null {
        return true;
      }
      if gamma - other.gamma > MERGE_TOLERANCE || gamma - other.gamma < -MERGE_TOLERANCE {
        return false;
      }
      ok := true;
      if other.count == 0 {
        NoSamples(other.Summary(), other.samples);
        assert samples + other.samples == samples;
        MassNone(other.buckets);
        return;
      }
      Absorb(other);
    }

    /** Adds the sums and the buckets of a histogram that holds samples. */
    method Absorb(other: Histogram)
      requires Valid() && other.Valid() && other.count > 0
      modifies this
      ensures Balanced() && samples == old(samples) + old(other.samples)
      ensures gamma == other.gamma ==> Valid()
      ensures overflow == old(overflow || other.overflow || |buckets.Keys + other.buckets.Keys| > MAX_BUCKETS)
      ensures old(|buckets.Keys + other.buckets.Keys|) <= MAX_BUCKETS ==>
        AddsUp(old(buckets), old(other.buckets), buckets)
    {
      hide Mass, Positive, Sorts, Totals, AddsUp;
      var theirs := other.buckets;
      ghost var ys := other.samples;
      SomeSamples(other.Summary(), ys);
      TotalsAdd(Summary(), other.Summary(), samples, ys);
      overflow := overflow || other.overflow;
      AddSums(Sums(other.zeroCount, other.count, other.sum, other.min, other.max));
      samples := samples + ys;
      MergeBuckets(theirs);
      if !overflow && gamma == other.gamma {
        SortsAdd(gamma, old(buckets), theirs, buckets, old(samples), ys);
      }
    }
  }

  /** The buckets after the indices `ks` of theirs were added to ours. */
  ghost predicate MergedTo(ours: map<int, nat>, theirs: map<int, nat>, ks: seq<int>, buckets: map<int, nat>) {
    CountsTo(ours, theirs, ks, buckets) && buckets.Keys == ours.Keys + Elems(ks)
  }

  ghost predicate CountsTo(ours: map<int, nat>, theirs: map<int, nat>, ks: seq<int>, buckets: map<int, nat>) {
    forall i :: At(buckets, i) == At(ours, i) + if i in ks then At(theirs, i) else 0
  }

  /** Bucket by bucket, `c` counts what `a` and `b` count together. */
  ghost predicate AddsUp(a: map<int, nat>, b: map<int, nat>, c: map<int, nat>) {
    forall i :: At(c, i) == At(a, i) + At(b, i)
  }

  /** The state of a merge after the indices `ks`; `lost` once a count went to a neighbour. */
  ghost predicate Merging(ours: map<int, nat>, theirs: map<int, nat>, ks: seq<int>, buckets: map<int, nat>,
                          lost: bool) {
    && Mass(buckets) == Mass(ours) + Mass(Listed(theirs, ks))
    && if lost then |ours.Keys + theirs.Keys| > MAX_BUCKETS else MergedTo(ours, theirs, ks, buckets)
  }

  /** Some bucket that may receive a count for `idx` received `n`. */
  ghost predicate AddedAt(before: map<int, nat>, idx: int, n: nat, after: map<int, nat>) {
    exists at :: Receives(before, idx, at) && after == before[at := At(before, at) + n]
  }

  lemma AscKeys(theirs: map<int, nat>, ks: seq<int>)
    requires ks == Asc(theirs.Keys)
    ensures Ascending(ks) && forall k :: k in ks <==> k in theirs
  {
    hide Asc;
  }

  lemma MergeStart(ours: map<int, nat>, theirs: map<int, nat>, ks: seq<int>)
    ensures Merging(ours, theirs, ks[..0], ours, false)
  {
    assert Elems(ks[..0]) == {};
  }

  /** One more index: either it had room, or there are too many indices altogether. */
  lemma MergeNext(ours: map<int, nat>, theirs: map<int, nat>, ks: seq<int>, n: nat,
                  before: map<int, nat>, after: map<int, nat>, lost: bool)
    requires n < |ks| && Ascending(ks) && ks[n] in theirs && Merging(ours, theirs, ks[..n], before, lost)
    requires forall k :: k in ks <==> k in theirs
    requires AddedAt(before, ks[n], theirs[ks[n]], after) && Mass(after) == Mass(before) + theirs[ks[n]]
    ensures Merging(ours, theirs, ks[..n + 1], after, lost || Full(before, ks[n]))
  {
    hide MergedTo, Ascending, Mass, Listed, Full;
    MassNext(theirs, ks, n);
    if !lost {
      if Full(before, ks[n]) {
        TooMany(ours, theirs, ks[..n], ks[n], before);
      } else {
        MergeFits(ours, theirs, ks, n, before);
      }
    }
  }

  lemma TooMany(ours: map<int, nat>, theirs: map<int, nat>, done: seq<int>, k: int, before: map<int, nat>)
    requires MergedTo(ours, theirs, done, before) && Full(before, k) && k in theirs
    requires forall i :: i in done ==> i in theirs
    ensures |ours.Keys + theirs.Keys| > MAX_BUCKETS
  {
    hide CountsTo;
    var all := ours.Keys + theirs.Keys;
    forall i | i in before.Keys ensures i in all { assert i in ours.Keys || i in done; }
    SubsetSize(before.Keys, all);
    assert k in all && k !in before.Keys;
  }

  lemma MergeFits(ours: map<int, nat>, theirs: map<int, nat>, ks: seq<int>, n: nat, buckets: map<int, nat>)
    requires n < |ks| && Ascending(ks) && ks[n] in theirs && MergedTo(ours, theirs, ks[..n], buckets)
    ensures MergedTo(ours, theirs, ks[..n + 1], buckets[ks[n] := At(buckets, ks[n]) + theirs[ks[n]]])
  {
    var k, after := ks[n], buckets[ks[n] := At(buckets, ks[n]) + theirs[ks[n]]];
    assert ks[..n + 1] == ks[..n] + [k];
    assert k !in ks[..n];
    hide Ascending;
    forall i ensures At(after, i) == At(ours, i) + if i in ks[..n + 1] then At(theirs, i) else 0 {
      assert i in ks[..n + 1] <==> i in ks[..n] || i == k;
    }
    assert Elems(ks[..n + 1]) == Elems(ks[..n]) + {k};
  }

  lemma MergeEnd(ours: map<int, nat>, theirs: map<int, nat>, ks: seq<int>, buckets: map<int, nat>, lost: bool)
    requires Merging(ours, theirs, ks, buckets, lost) && |buckets| <= MAX_BUCKETS
    requires forall k :: k in ks <==> k in theirs
    ensures lost <==> |ours.Keys + theirs.Keys| > MAX_BUCKETS
    ensures !lost ==> AddsUp(ours, theirs, buckets)
    ensures Mass(buckets) == Mass(ours) + Mass(theirs)
  {
    hide Mass, Listed, MergedTo, AddsUp;
    MassAll(theirs, ks);
    if !lost {
      AllMerged(ours, theirs, ks, buckets);
    }
  }

  lemma AllMerged(ours: map<int, nat>, theirs: map<int, nat>, ks: seq<int>, buckets: map<int, nat>)
    requires MergedTo(ours, theirs, ks, buckets) && forall k :: k in ks <==> k in theirs
    ensures AddsUp(ours, theirs, buckets) && |buckets| == |ours.Keys + theirs.Keys|
  {
    forall k ensures k in Elems(ks) <==> k in theirs.Keys { assert k in ks <==> k in theirs; }
    assert buckets.Keys == ours.Keys + theirs.Keys;
    forall i ensures At(buckets, i) == At(ours, i) + At(theirs, i) { assert i in ks <==> i in theirs; }
  }

  /** With one growth factor, adding buckets is observing both streams. */
  lemma SortsAdd(g: real, ours: map<int, nat>, theirs: map<int, nat>, buckets: map<int, nat>, xs: seq<real>,
                 ys: seq<real>)
    requires g > 1.0 && Sorts(g, ours, xs) && Sorts(g, theirs, ys) && AddsUp(ours, theirs, buckets)
    ensures Sorts(g, buckets, xs + ys)
  {
    hide CountIn;
    forall i ensures At(buckets, i) == CountIn(g, xs + ys, i) {
      CountConcat(g, xs, ys, i, 0.0);
    }
  }

  /** Adding the buckets of growth factor `h` to those of `g` is exact for every pair of streams. */
  ghost predicate MergesExactly(g: real, h: real)
    requires g > 1.0 && h > 1.0
  {
    forall a, b, c, xs, ys :: Sorts(g, a, xs) && Sorts(h, b, ys) && AddsUp(a, b, c) ==> Sorts(g, c, xs + ys)
  }

  lemma SortsOne(g: real, v: real)
    requires g > 1.0 && v > ZERO_THRESHOLD
    ensures Sorts(g, map[], []) && Sorts(g, map[Index(g, v) := 1], [v])
  {
    hide Index;
    forall i ensures CountIn(g, [v], i) == if i == Index(g, v) then 1 else 0 {
      assert [v][..0] == [];
    }
  }

  /** A sample that the two growth factors file differently is misfiled by the merge. */
  lemma Misfiles(g: real, h: real, v: real)
    requires g > 1.0 && h > 1.0 && v > ZERO_THRESHOLD && Index(g, v) != Index(h, v)
    ensures Sorts(h, map[Index(h, v) := 1], [v]) && AddsUp(map[], map[Index(h, v) := 1], map[Index(h, v) := 1])
    ensures !Sorts(g, map[Index(h, v) := 1], [] + [v]) && !MergesExactly(g, h)
  {
    SortsOne(g, v);
    SortsOne(h, v);
    var b := map[Index(h, v) := 1];
    assert [] + [v] == [v];
    assert At(map[Index(g, v) := 1], Index(g, v)) == CountIn(g, [v], Index(g, v)) != At(b, Index(g, v));
    assert Sorts(g, map[], []) && Sorts(h, b, [v]) && AddsUp(map[], b, b);
  }

  /** Merging is exact for every pair of streams exactly when the growth factors are equal. */
  lemma ExactWhenEqual(g: real, h: real)
    requires g > 1.0 && h > 1.0
    ensures MergesExactly(g, h) <==> g == h
  {
    if g == h {
      forall a, b, c, xs, ys | Sorts(g, a, xs) && Sorts(h, b, ys) && AddsUp(a, b, c) ensures Sorts(g, c, xs + ys) {
        SortsAdd(g, a, b, c, xs, ys);
      }
    } else if g < h {
      IndicesDiffer(g, h);
      Misfiles(g, h, h);
    } else {
      IndicesDiffer(h, g);
      Misfiles(g, h, g);
    }
  }

  /** Two accuracies that the merge takes for equal, and a sample it files one bucket too low. */
  lemma CloseAccuraciesMisfile()
    ensures var g, h := 1.02, 1.02 + MERGE_TOLERANCE / 2.0;
            && -MERGE_TOLERANCE < g - h < MERGE_TOLERANCE && !MergesExactly(g, h)
            && Index(g, h) == 2 && Index(h, h) == 1
  {
    var g, h := 1.02, 1.02 + MERGE_TOLERANCE / 2.0;
    IndicesDiffer(g, h);
    PowOne(g);
    IndexOrder(g, h, 2);
    Misfiles(g, h, h);
  }

  // ---------------------------------------------------------------- what the buckets hold in all

  ghost function Mass(buckets: map<int, nat>): (n: nat)
    decreases |buckets|
  {
    if buckets == map[] then 0 else
      NotEmpty(buckets.Keys);
      var k :| k in buckets;
      assert |buckets - {k}| < |buckets| by { assert (buckets - {k}).Keys == buckets.Keys - {k}; }
      buckets[k] + Mass(buckets - {k})
  }

  lemma {:induction false} MassRemove(buckets: map<int, nat>, k: int)
    requires k in buckets
    ensures Mass(buckets) == buckets[k] + Mass(buckets - {k})
    decreases |buckets|
  {
    NotEmpty(buckets.Keys);
    var j :| j in buckets && Mass(buckets) == buckets[j] + Mass(buckets - {j});
    if j != k {
      assert (buckets - {j}).Keys == buckets.Keys - {j};
      MassRemove(buckets - {j}, k);
      assert buckets - {j} - {k} == buckets - {k} - {j};
      assert (buckets - {k}).Keys == buckets.Keys - {k};
      MassRemove(buckets - {k}, j);
    }
  }

  lemma MassAdd(buckets: map<int, nat>, k: int, n: nat)
    ensures Mass(buckets[k := At(buckets, k) + n]) == Mass(buckets) + n
  {
    var after := buckets[k := At(buckets, k) + n];
    MassRemove(after, k);
    assert after - {k} == buckets - {k};
    if k in buckets {
      MassRemove(buckets, k);
    } else {
      assert buckets - {k} == buckets;
    }
  }

  /** The listed part of a bucket map. */
  ghost function Listed(buckets: map<int, nat>, ks: seq<int>): (r: map<int, nat>) {
    map k | k in ks && k in buckets :: buckets[k]
  }

  lemma MassNext(buckets: map<int, nat>, ks: seq<int>, n: nat)
    requires n < |ks| && Ascending(ks) && ks[n] in buckets
    ensures Mass(Listed(buckets, ks[..n + 1])) == Mass(Listed(buckets, ks[..n])) + buckets[ks[n]]
  {
    hide Mass;
    assert ks[..n + 1] == ks[..n] + [ks[n]] && ks[n] !in ks[..n];
    assert Listed(buckets, ks[..n + 1]) == Listed(buckets, ks[..n])[ks[n] := buckets[ks[n]]];
    MassAdd(Listed(buckets, ks[..n]), ks[n], buckets[ks[n]]);
  }

  lemma MassAll(buckets: map<int, nat>, ks: seq<int>)
    requires forall k :: k in ks <==> k in buckets
    ensures Mass(Listed(buckets, ks)) == Mass(buckets)
  {
    hide Mass;
    forall k ensures k in Listed(buckets, ks) <==> k in buckets { assert k in ks <==> k in buckets; }
    assert Listed(buckets, ks) == buckets;
  }

  lemma MassNone(buckets: map<int, nat>)
    requires Mass(buckets) == 0 && Positive(buckets)
    ensures buckets == map[]
  {
    if k :| k in buckets {
      MassRemove(buckets, k);
      assert false;
    }
  }

  lemma PositiveAt(buckets: map<int, nat>, k: int)
    requires Positive(buckets) && k in buckets
    ensures buckets[k] > 0
  {
  }

  /** There is no room for a new bucket at `idx`. */
  predicate Full(buckets: map<int, nat>, idx: int) {
    idx !in buckets && |buckets| >= MAX_BUCKETS
  }

  /** The bucket that takes a count for `idx`: its own, or a closest existing one when there is no room. */
  ghost predicate Receives(buckets: map<int, nat>, idx: int, at: int) {
    if Full(buckets, idx) then at in buckets && forall k :: k in buckets ==> Distance(at, idx) <= Distance(k, idx)
    else at == idx
  }

  function Distance(a: int, b: int): (d: int)
    ensures d >= 0 && (a == b + d || b == a + d)
  {
    if a < b then b - a else a - b
  }

  lemma CountIsSize(s: Sums, xs: seq<real>)
    requires Totals(s, xs)
    ensures s.count == |xs|
  {
  }

  lemma NoSamples(s: Sums, xs: seq<real>)
    requires Totals(s, xs) && s.count == 0
    ensures xs == []
  {
  }

  lemma SomeSamples(s: Sums, xs: seq<real>)
    requires Totals(s, xs) && s.count > 0
    ensures xs != []
  {
  }
}
