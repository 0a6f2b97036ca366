/** The latency histogram of the provider-health record and the 95th percentile read from it. */
module LatencyQuantile {
  import opened Options

  const BOUNDS: seq<real> := [0.1, 0.25, 0.5, 1.0, 2.5, 5.0, 10.0, 30.0]
  const OVERFLOW_SECONDS := 60.0

  /** The bucket a latency is filed under: the first bound that holds it, or one past the last. */
  function Bucket(latency: real): (b: nat)
    ensures b <= |BOUNDS| && (b < |BOUNDS| ==> latency <= BOUNDS[b])
    ensures forall i :: 0 <= i < b ==> BOUNDS[i] < latency
  {
    BucketFrom(latency, 0)
  }

  function BucketFrom(latency: real, start: nat): (b: nat)
    requires start <= |BOUNDS| && forall i :: 0 <= i < start ==> BOUNDS[i] < latency
    ensures b <= |BOUNDS| && (b < |BOUNDS| ==> latency <= BOUNDS[b])
    ensures forall i :: 0 <= i < b ==> BOUNDS[i] < latency
    decreases |BOUNDS| - start
  {
    if start == |BOUNDS| || latency <= BOUNDS[start] then start else BucketFrom(latency, start + 1)
  }

  function UpperBound(bucket: nat): real {
    if bucket < |BOUNDS| then BOUNDS[bucket] else OVERFLOW_SECONDS
  }

  /** What a latency reads as: the least bound not below it, or a minute when it exceeds them all. */
  ghost predicate ReadsAs(x: real, v: real) {
    if exists b <- BOUNDS :: x <= b then x <= v && v in BOUNDS && forall b <- BOUNDS :: x <= b ==> v <= b
    else v == 60.0
  }

  lemma {:induction false} UpperBoundReads(x: real)
    ensures ReadsAs(x, UpperBound(Bucket(x)))
  {
    var b := Bucket(x);
    forall c <- BOUNDS | x <= c ensures b < |BOUNDS| && BOUNDS[b] <= c {
      var i :| 0 <= i < |BOUNDS| && BOUNDS[i] == c;
      assert b <= i;
    }
  }

  ghost function Cumulative(counts: seq<nat>, n: nat): nat
    requires n <= |counts|
  {
    if n == 0 then 0 else Cumulative(counts, n - 1) + counts[n - 1]
  }

  /** The buckets `0..i` hold at least 95 % of the total. */
  ghost predicate Reaches95(counts: seq<nat>, i: nat)
    requires i < |counts|
  {
    Cumulative(counts, i + 1) as real >= 0.95 * Cumulative(counts, |counts|) as real
  }

  /** The first bucket to do so. */
  ghost predicate IsP95Bucket(counts: seq<nat>, i: nat) {
    i < |counts| && Reaches95(counts, i) && forall j :: 0 <= j < i ==> !Reaches95(counts, j)
  }

  method P95FromBuckets(counts: seq<nat>) returns (p95: Option<real>)
    ensures p95.None? <==> Cumulative(counts, |counts|) == 0
    ensures p95.Some? ==> exists i :: IsP95Bucket(counts, i) && p95.value == UpperBound(i)
    ensures forall latencies, x ::
              counts == Counts(latencies) && IsKthSmallest(latencies, Rank95(|latencies|), x) ==>
                p95.Some? && ReadsAs(x, p95.value)
  {
    var total := 0;
    for i := 0 to |counts|
      invariant total == Cumulative(counts, i)
    {
      total := total + counts[i];
    }
    if total == 0 {
      forall latencies, x | counts == Counts(latencies)
        ensures !IsKthSmallest(latencies, Rank95(|latencies|), x)
      {
        CountsTotal(latencies);
      }
      return None;
    }
    var target := 0.95 * total as real;
    var cumulative := 0;
    assert |counts| > 0 && Reaches95(counts, |counts| - 1);
    for i := 0 to |counts|
      invariant cumulative == Cumulative(counts, i)
      invariant forall j :: 0 <= j < i ==> !Reaches95(counts, j)
    {
      cumulative := cumulative + counts[i];
      if cumulative as real >= target {
        assert IsP95Bucket(counts, i);
        forall latencies, x | counts == Counts(latencies) && IsKthSmallest(latencies, Rank95(|latencies|), x)
          ensures ReadsAs(x, UpperBound(i))
        {
          QuantileIsRight(latencies, x, i);
          UpperBoundReads(x);
        }
        return Some(UpperBound(i));
      }
    }
    assert false;
  }

  // ---- ranks ------------------------------------------------------------------------------------

  ghost function CountAtMost(latencies: seq<real>, x: real): nat {
    if latencies == [] then 0
    else CountAtMost(latencies[..|latencies| - 1], x) + (if latencies[|latencies| - 1] <= x then 1 else 0)
  }

  ghost function CountBelow(latencies: seq<real>, x: real): nat {
    if latencies == [] then 0
    else CountBelow(latencies[..|latencies| - 1], x) + (if latencies[|latencies| - 1] < x then 1 else 0)
  }

  /** `x` is the `k`-th smallest latency, ties counted. */
  ghost predicate IsKthSmallest(latencies: seq<real>, k: nat, x: real) {
    x in latencies && CountBelow(latencies, x) < k <= CountAtMost(latencies, x)
  }

  /** ceil(0.95 n) */
  function Rank95(n: nat): nat { (95 * n + 99) / 100 }

  ghost function CountIn(latencies: seq<real>, bucket: nat): nat {
    if latencies == [] then 0
    else CountIn(latencies[..|latencies| - 1], bucket) + (if Bucket(latencies[|latencies| - 1]) == bucket then 1 else 0)
  }

  /** The histogram of a collection of latencies. */
  ghost function Counts(latencies: seq<real>): seq<nat> {
    seq(|BOUNDS| + 1, b requires 0 <= b => CountIn(latencies, b))
  }

  ghost function CountInUpTo(latencies: seq<real>, n: nat): nat {
    if latencies == [] then 0
    else CountInUpTo(latencies[..|latencies| - 1], n) + (if Bucket(latencies[|latencies| - 1]) < n then 1 else 0)
  }

  lemma {:induction false} UpToAddsBucket(latencies: seq<real>, n: nat)
    ensures CountInUpTo(latencies, n + 1) == CountInUpTo(latencies, n) + CountIn(latencies, n)
    ensures CountInUpTo(latencies, 0) == 0
  {
    if latencies != [] { UpToAddsBucket(latencies[..|latencies| - 1], n); }
  }

  lemma {:induction false} CumulativeCounts(latencies: seq<real>, n: nat)
    requires n <= |BOUNDS| + 1
    ensures Cumulative(Counts(latencies), n) == CountInUpTo(latencies, n)
  {
    if n == 0 {
      UpToAddsBucket(latencies, 0);
    } else {
      CumulativeCounts(latencies, n - 1);
      UpToAddsBucket(latencies, n - 1);
    }
  }

  /** Buckets up to that of `x` hold every latency up to `x`, and the ones before it only smaller ones. */
  lemma {:induction false} BucketsBracket(latencies: seq<real>, x: real, n: nat)
    ensures Bucket(x) < n ==> CountAtMost(latencies, x) <= CountInUpTo(latencies, n)
    ensures n <= Bucket(x) ==> CountInUpTo(latencies, n) <= CountBelow(latencies, x)
    ensures CountAtMost(latencies, x) <= |latencies| && (n > |BOUNDS| ==> CountInUpTo(latencies, n) == |latencies|)
  {
    if latencies != [] {
      BucketsBracket(latencies[..|latencies| - 1], x, n);
      BucketMonotone(latencies[|latencies| - 1], x);
      BucketMonotone(x, latencies[|latencies| - 1]);
      hide Bucket;
    }
  }

  lemma {:induction false} CountsTotal(latencies: seq<real>)
    ensures Cumulative(Counts(latencies), |BOUNDS| + 1) == |latencies|
  {
    CumulativeCounts(latencies, |BOUNDS| + 1);
    BucketsBracket(latencies, 0.0, |BOUNDS| + 1);
  }

  lemma BucketMonotone(a: real, b: real)
    ensures a <= b ==> Bucket(a) <= Bucket(b)
  {
  }

  /** The quantile is right: over any non-empty collection of latencies the reported value is the upper bound of
      the bucket that holds the ceil(0.95 n)-th smallest of them. */
  lemma {:induction false} QuantileIsRight(latencies: seq<real>, x: real, i: nat)
    requires latencies != [] && IsKthSmallest(latencies, Rank95(|latencies|), x)
    requires IsP95Bucket(Counts(latencies), i)
    ensures i == Bucket(x)
  {
    RankReached(latencies, x, i);
    RankReached(latencies, x, Bucket(x));
  }

  lemma {:induction false} RankReached(latencies: seq<real>, x: real, i: nat)
    requires latencies != [] && IsKthSmallest(latencies, Rank95(|latencies|), x) && i <= |BOUNDS|
    ensures Reaches95(Counts(latencies), i) <==> Bucket(x) <= i
  {
    var counts := Counts(latencies);
    CumulativeCounts(latencies, |counts|);
    CumulativeCounts(latencies, i + 1);
    BucketsBracket(latencies, x, |counts|);
    BucketsBracket(latencies, x, i + 1);
    RankThreshold(Cumulative(counts, i + 1), |latencies|);
  }

  /** Reaching 95 % of `n` and reaching rank ceil(0.95 n) are the same for whole counts. */
  lemma RankThreshold(c: nat, n: nat)
    ensures c as real >= 0.95 * n as real <==> c >= Rank95(n)
  {
    assert 0.95 * n as real == (95 * n) as real / 100.0;
  }

  /** Every rank is attained, so the statement above is about some latency for every collection. */
  lemma {:induction false} KthSmallestExists(latencies: seq<real>, k: nat)
    requires 1 <= k <= |latencies|
    ensures exists x :: IsKthSmallest(latencies, k, x)
  {
    var init, last := latencies[..|latencies| - 1], latencies[|latencies| - 1];
    if |init| == 0 {
      assert IsKthSmallest(latencies, k, last);
    } else if k <= |init| {
      KthSmallestExists(init, k);
      var x :| IsKthSmallest(init, k, x);
      if last >= x || CountBelow(init, x) + 1 < k {
        assert IsKthSmallest(latencies, k, x);
      } else if k == 1 {
        NoneBelow(init, x, last);
        assert IsKthSmallest(latencies, k, last);
      } else {
        KthSmallestExists(init, k - 1);
        var y :| IsKthSmallest(init, k - 1, y);
        var z := if y < last then last else y;
        CountsMonotone(init, y, last);
        CountsMonotone(init, last, y);
        CountsMonotone(init, last, x);
        assert IsKthSmallest(latencies, k, z);
      }
    } else {
      KthSmallestExists(init, k - 1);
      var y :| IsKthSmallest(init, k - 1, y);
      var z := if y < last then last else y;
      CountsMonotone(init, y, last);
      CountsMonotone(init, last, y);
      CountsBounded(init, z);
      assert IsKthSmallest(latencies, k, z);
    }
  }

  lemma {:induction false} CountsMonotone(latencies: seq<real>, a: real, b: real)
    ensures a <= b ==> CountAtMost(latencies, a) <= CountAtMost(latencies, b)
    ensures a <= b ==> CountBelow(latencies, a) <= CountBelow(latencies, b)
    ensures a < b ==> CountAtMost(latencies, a) <= CountBelow(latencies, b)
    ensures CountBelow(latencies, a) <= CountAtMost(latencies, a)
  {
    if latencies != [] { CountsMonotone(latencies[..|latencies| - 1], a, b); }
  }

  lemma {:induction false} CountsBounded(latencies: seq<real>, a: real)
    ensures CountBelow(latencies, a) <= CountAtMost(latencies, a) <= |latencies|
    ensures a in latencies ==> CountBelow(latencies, a) < CountAtMost(latencies, a)
  {
    if latencies != [] { CountsBounded(latencies[..|latencies| - 1], a); }
  }

  lemma {:induction false} NoneBelow(latencies: seq<real>, x: real, a: real)
    requires CountBelow(latencies, x) == 0 && a < x
    ensures CountBelow(latencies, a) == 0
  {
    CountsMonotone(latencies, a, x);
  }
}
