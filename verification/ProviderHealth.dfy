/** Rolling-window provider health: per-minute buckets that expire, and the snapshot read from them. */
module ProviderHealth {
  import opened Options
  import LatencyQuantile

  const BUCKET := 60

  /** One recorded provider request; `time` in whole seconds. */
  datatype Call = Call(time: int, ok: bool, latency: real)

  datatype Bucket = Bucket(total: nat, errors: nat, latencies: seq<nat>, expiresAt: int)

  datatype Snapshot = Snapshot(callsErrorWindow: nat, errorsErrorWindow: nat, errorRate: real,
                               callsLatencyWindow: nat, p95: Option<real>)

  function BucketStart(time: int): int { time - time % BUCKET }

  lemma BucketStartFacts(time: int)
    ensures BucketStart(time) <= time < BucketStart(time) + BUCKET && BucketStart(time) % BUCKET == 0
  {
  }

  // ---- what the raw log says ----------------------------------------------------------------------

  /** The things a bucket counts. */
  datatype Metric = Calls | Errors | InLatencyBucket(i: nat)

  function Weight(m: Metric, c: Call): nat {
    match m
    case Calls => 1
    case Errors => if c.ok then 0 else 1
    case InLatencyBucket(i) => if LatencyQuantile.Bucket(c.latency) == i then 1 else 0
  }

  function Held(b: Bucket, m: Metric): nat {
    match m
    case Calls => b.total
    case Errors => b.errors
    case InLatencyBucket(i) => if i < |b.latencies| then b.latencies[i] else 0
  }

  const EMPTY_BUCKET := Bucket(0, 0, seq(|LatencyQuantile.BOUNDS| + 1, i => 0), 0)

  /** The hash increments and the new expiry of one recorded call. */
  function Bump(b: Bucket, ok: bool, latency: real, expiresAt: int): (r: Bucket)
    requires |b.latencies| == |LatencyQuantile.BOUNDS| + 1
    ensures |r.latencies| == |b.latencies| && r.expiresAt == expiresAt
    ensures forall m: Metric, time: int :: Held(r, m) == Held(b, m) + Weight(m, Call(time, ok, latency))
  {
    var field := LatencyQuantile.Bucket(latency);
    Bucket(b.total + 1, if ok then b.errors else b.errors + 1, b.latencies[field := b.latencies[field] + 1], expiresAt)
  }

  /** The metric over the calls of the log whose minute starts in `(lo, hi]`. */
  ghost function Tally(log: seq<Call>, m: Metric, lo: int, hi: int): nat {
    if log == [] then 0
    else
      var c := log[|log| - 1];
      Tally(log[..|log| - 1], m, lo, hi) + (if lo < BucketStart(c.time) <= hi then Weight(m, c) else 0)
  }

  /** The calls of the log whose minute starts in `(lo, hi]`, by position. */
  ghost function CallsIn(log: seq<Call>, lo: int, hi: int): set<nat> {
    set n: nat | n < |log| && lo < BucketStart(log[n].time) <= hi
  }

  ghost function FailuresIn(log: seq<Call>, lo: int, hi: int): set<nat> {
    set n: nat | n < |log| && lo < BucketStart(log[n].time) <= hi && !log[n].ok
  }

  /** Counting a metric is counting calls. */
  lemma {:induction false} TallyCountsCalls(log: seq<Call>, lo: int, hi: int)
    ensures Tally(log, Calls, lo, hi) == |CallsIn(log, lo, hi)|
    ensures Tally(log, Errors, lo, hi) == |FailuresIn(log, lo, hi)|
  {
    if log != [] {
      TallyCountsCalls(log[..|log| - 1], lo, hi);
      LastCall(log, lo, hi);
      hide CallsIn, FailuresIn, BucketStart;
    }
  }

  lemma {:induction false} LastCall(log: seq<Call>, lo: int, hi: int)
    requires log != []
    ensures var last := |log| - 1;
            var counts := lo < BucketStart(log[last].time) <= hi;
            && CallsIn(log, lo, hi) == CallsIn(log[..last], lo, hi) + (if counts then {last} else {})
            && FailuresIn(log, lo, hi)
               == FailuresIn(log[..last], lo, hi) + (if counts && !log[last].ok then {last} else {})
            && last !in CallsIn(log[..last], lo, hi) && last !in FailuresIn(log[..last], lo, hi)
  {
    hide BucketStart;
  }

  /** The metric over the calls of one minute. */
  ghost function InMinute(log: seq<Call>, m: Metric, start: int): nat { Tally(log, m, start - BUCKET, start) }

  lemma {:induction false} TallySplits(log: seq<Call>, m: Metric, lo: int, mid: int, hi: int)
    requires lo <= mid <= hi
    ensures Tally(log, m, lo, hi) == Tally(log, m, lo, mid) + Tally(log, m, mid, hi)
  {
    if log != [] { TallySplits(log[..|log| - 1], m, lo, mid, hi); }
  }

  lemma {:induction false} TallyAppend(log: seq<Call>, m: Metric, lo: int, hi: int, c: Call)
    ensures Tally(log + [c], m, lo, hi)
            == Tally(log, m, lo, hi) + if lo < BucketStart(c.time) <= hi then Weight(m, c) else 0
  {
    assert (log + [c])[..|log|] == log;
  }

  lemma {:induction false} OneMoreCall(log: seq<Call>, c: Call, m: Metric, start: int)
    requires start % BUCKET == 0
    ensures InMinute(log + [c], m, start)
            == InMinute(log, m, start) + if start == BucketStart(c.time) then Weight(m, c) else 0
  {
    TallyAppend(log, m, start - BUCKET, start, c);
    BucketStartFacts(c.time);
  }

  /** A window of `w` seconds, as far as `n` whole minutes of buckets can see. */
  function Reach(w: nat, n: nat): nat { if w <= n * BUCKET then w else n * BUCKET }

  lemma {:induction false} TallyUpToMinute(log: seq<Call>, m: Metric, lo: int, start: int)
    requires start % BUCKET == 0 && start - BUCKET <= lo < start
    ensures Tally(log, m, lo, start) == InMinute(log, m, start)
  {
    if log != [] {
      TallyUpToMinute(log[..|log| - 1], m, lo, start);
      BucketStartFacts(log[|log| - 1].time);
    }
  }

  /** One more minute back: it adds its own calls while it starts inside the window, and nothing after that. */
  lemma {:induction false} WindowStep(log: seq<Call>, m: Metric, current: int, w: nat, n: nat)
    requires current % BUCKET == 0
    ensures Tally(log, m, current - Reach(w, n + 1), current)
            == Tally(log, m, current - Reach(w, n), current)
               + if n * BUCKET < w then InMinute(log, m, current - n * BUCKET) else 0
  {
    if n * BUCKET < w {
      var start := current - n * BUCKET;
      TallySplits(log, m, current - Reach(w, n + 1), start, current);
      TallyUpToMinute(log, m, current - Reach(w, n + 1), start);
    }
  }

  lemma {:induction false} EmptyWindow(log: seq<Call>, m: Metric, at: int)
    ensures Tally(log, m, at, at) == 0
  {
    if log != [] { EmptyWindow(log[..|log| - 1], m, at); }
  }

  // ---- agreement with the plain window ----------------------------------------------------------------

  /** Counting over what `n` minutes of buckets reach is counting over the whole window of `w` seconds. */
  ghost predicate SeesWindow(log: seq<Call>, m: Metric, current: int, w: nat, n: nat) {
    Tally(log, m, current - Reach(w, n), current) == Tally(log, m, current - w, current)
  }

  /** The buckets see a whole window of `w` seconds, for every log and every moment, exactly when the longest
      window rounded down to minutes still covers it. */
  lemma WindowSeenIff(w: nat, longest: nat)
    requires w <= longest
    ensures w <= longest / BUCKET * BUCKET
            <==> forall log: seq<Call>, m: Metric, current: int ::
                   current % BUCKET == 0 ==> SeesWindow(log, m, current, w, longest / BUCKET)
  {
    var n := longest / BUCKET;
    if w > n * BUCKET {
      var oldest := Call(-n * BUCKET, true, 0.0);
      OneCall(oldest, Calls, 0 - Reach(w, n), 0);
      OneCall(oldest, Calls, 0 - w, 0);
      assert !SeesWindow([oldest], Calls, 0, w, n);
    }
  }

  lemma {:induction false} OneCall(c: Call, m: Metric, lo: int, hi: int)
    ensures Tally([c], m, lo, hi) == if lo < BucketStart(c.time) <= hi then Weight(m, c) else 0
  {
    TallyAppend([], m, lo, hi, c);
    assert [] + [c] == [c];
  }

  // ---- latencies in a window ----------------------------------------------------------------------------

  ghost function LatenciesIn(log: seq<Call>, lo: int, hi: int): seq<real> {
    if log == [] then []
    else
      var c := log[|log| - 1];
      LatenciesIn(log[..|log| - 1], lo, hi) + (if lo < BucketStart(c.time) <= hi then [c.latency] else [])
  }

  lemma {:induction false} TallyCountsLatencies(log: seq<Call>, lo: int, hi: int, i: nat)
    ensures Tally(log, InLatencyBucket(i), lo, hi) == LatencyQuantile.CountIn(LatenciesIn(log, lo, hi), i)
    ensures Tally(log, Calls, lo, hi) == |LatenciesIn(log, lo, hi)|
  {
    if log != [] {
      var init, c := log[..|log| - 1], log[|log| - 1];
      TallyCountsLatencies(init, lo, hi, i);
      var before := LatenciesIn(init, lo, hi);
      assert (before + [c.latency])[..|before|] == before && before + [] == before;
    }
  }

  /** The p95 field is empty below the minimum or with no calls, and otherwise what the ceil(0.95 n)-th smallest latency
      in the window reads as: the least bound not below it. */
  ghost predicate IsLatencyReading(p95: Option<real>, calls: nat, minCalls: int, log: seq<Call>, lo: int, hi: int) {
    if calls < minCalls || calls == 0 then p95 == None
    else
      && p95.Some?
      && forall x :: LatencyQuantile.IsKthSmallest(LatenciesIn(log, lo, hi), LatencyQuantile.Rank95(calls), x) ==>
                       LatencyQuantile.ReadsAs(x, p95.value)
  }

  /** One count per latency bucket, each that of the window. */
  ghost predicate IsHistogram(counts: seq<nat>, log: seq<Call>, lo: int, hi: int) {
    && |counts| == |LatencyQuantile.BOUNDS| + 1
    && forall i :: 0 <= i < |counts| ==> counts[i] == Tally(log, InLatencyBucket(i), lo, hi)
  }

  method ReadP95(counts: seq<nat>, calls: nat, minCalls: int, ghost log: seq<Call>, ghost lo: int, ghost hi: int)
    returns (p95: Option<real>)
    requires IsHistogram(counts, log, lo, hi) && calls == Tally(log, Calls, lo, hi)
    ensures IsLatencyReading(p95, calls, minCalls, log, lo, hi)
  {
    if calls < minCalls {
      return None;
    }
    ghost var latencies := LatenciesIn(log, lo, hi);
    forall i | 0 <= i < |counts| ensures counts[i] == LatencyQuantile.Counts(latencies)[i] {
      TallyCountsLatencies(log, lo, hi, i);
    }
    assert counts == LatencyQuantile.Counts(latencies);
    TallyCountsLatencies(log, lo, hi, 0);
    LatencyQuantile.CountsTotal(latencies);
    p95 := LatencyQuantile.P95FromBuckets(counts);
  }

  /** The error rate is taken by dividing by the number of calls whenever there are enough of them, so also when none
      are enough. */
  ghost predicate DividesByZero(log: seq<Call>, minCalls: int, lo: int, hi: int) {
    Tally(log, Calls, lo, hi) >= minCalls && Tally(log, Calls, lo, hi) == 0
  }

  /** Without a recorded call every minimum that asks for none makes the snapshot fail. */
  lemma NoCallsNoMinimumFails(minCalls: int, lo: int, hi: int)
    ensures DividesByZero([], minCalls, lo, hi) <==> minCalls <= 0
  {
  }

  // ---- the record -----------------------------------------------------------------------------------

  class HealthRecord {
    const errorWindow: nat
    const latencyWindow: nat
    const minCalls: int
    var buckets: map<int, Bucket>
    ghost var log: seq<Call>   // every call whose write went through
    ghost var lastTime: int    // time of the last operation

    constructor (errorWindow: nat, latencyWindow: nat, minCalls: int, created: int)
      ensures Valid() && log == [] && lastTime == created
      ensures this.errorWindow == errorWindow && this.latencyWindow == latencyWindow && this.minCalls == minCalls
    {
      this.errorWindow, this.latencyWindow, this.minCalls := errorWindow, latencyWindow, minCalls;
      buckets, log, lastTime := map[], [], created;
    }

    function MaxWindow(): nat { if errorWindow < latencyWindow then latencyWindow else errorWindow }

    function Ttl(): nat { MaxWindow() + 2 * BUCKET }

    /** Every bucket agrees with the log on every metric, outlives its minute by the longest window and more,
        and a minute without a bucket has no calls. */
    ghost predicate Valid()
      reads this
    {
      forall start: int :: start % BUCKET == 0 ==> BucketAgrees(start)
    }

    ghost predicate BucketAgrees(start: int)
      reads this
    {
      && (forall m: Metric :: Stored(start, m) == InMinute(log, m, start))
      && (start in buckets ==>
            |buckets[start].latencies| == |LatencyQuantile.BOUNDS| + 1 && start + Ttl() <= buckets[start].expiresAt)
    }

    /** What the buckets hold, expired or not. */
    function Stored(start: int, m: Metric): nat
      reads this`buckets
    {
      if start !in buckets then 0 else Held(buckets[start], m)
    }

    /** Present and not expired. */
    predicate Live(start: int, now: int)
      reads this`buckets
    {
      start in buckets && now < buckets[start].expiresAt
    }

    /** `record_provider_call`; a failed write changes nothing. */
    method RecordCall(ok: bool, latency: real, now: int, writable: bool)
      requires Valid() && lastTime <= now
      modifies this
      ensures Valid() && lastTime <= now
      ensures log == old(log) + (if writable then [Call(now, ok, latency)] else [])
    {
      if !writable {
        return;
      }
      var start := BucketStart(now);
      BucketStartFacts(now);
      assert BucketAgrees(start);
      var b := Bump(if Live(start, now) then buckets[start] else EMPTY_BUCKET, ok, latency, now + Ttl());
      ghost var c, before := Call(now, ok, latency), log;
      assert forall m: Metric :: Held(b, m) == Stored(start, m) + Weight(m, c);
      hide Tally, BucketStart, InMinute, Bump, Weight, Held;
      buckets := buckets[start := b];
      log := log + [c];
      lastTime := now;
      forall s: int | s % BUCKET == 0 ensures BucketAgrees(s) {
        assert old(BucketAgrees(s));
        forall m: Metric ensures Stored(s, m) == InMinute(log, m, s) {
          OneMoreCall(before, c, m, s);
          assert Stored(s, m) == old(Stored(s, m)) + if s == start then Weight(m, c) else 0;
        }
      }
    }

    /** How many whole minutes of buckets a snapshot reads. */
    function Minutes(): nat { MaxWindow() / BUCKET }

    /** `get_provider_health`: None where the source divides by zero, with no call in the error window and a
        minimum that asks for none. */
    method GetHealth(now: int) returns (snapshot: Option<Snapshot>)
      requires Valid() && lastTime <= now
      ensures var current, n := BucketStart(now), Minutes();
              var errorReach, latencyReach := Reach(errorWindow, n), Reach(latencyWindow, n);
              var calls := |CallsIn(log, current - errorReach, current)|;
              var errors := |FailuresIn(log, current - errorReach, current)|;
              && (snapshot.None? <==> calls == 0 && minCalls <= 0)
              && (snapshot.None? <==> DividesByZero(log, minCalls, current - errorReach, current))
              && (snapshot.Some? ==>
                    var s := snapshot.value;
                    && s.callsErrorWindow == calls && s.errorsErrorWindow == errors
                    && s.callsLatencyWindow == |CallsIn(log, current - latencyReach, current)|
                    && s.errorRate == (if calls >= minCalls then errors as real / calls as real else 0.0)
                    && IsLatencyReading(s.p95, s.callsLatencyWindow, minCalls, log, current - latencyReach, current))
    {
      hide IsLatencyReading, Tally, Reach, BucketStart;
      var calls, errors, latencyCalls, latencies := SumBuckets(now);
      TallyCountsCalls(log, BucketStart(now) - Reach(errorWindow, Minutes()), BucketStart(now));
      TallyCountsCalls(log, BucketStart(now) - Reach(latencyWindow, Minutes()), BucketStart(now));
      if calls >= minCalls && calls == 0 {
        return None;
      }
      var errorRate := if calls >= minCalls then errors as real / calls as real else 0.0;
      ghost var current := BucketStart(now);
      var p95 := ReadP95(latencies, latencyCalls, minCalls, log, current - Reach(latencyWindow, Minutes()), current);
      return Some(Snapshot(calls, errors, errorRate, latencyCalls, p95));
    }

    method SumBuckets(now: int) returns (calls: nat, errors: nat, latencyCalls: nat, latencies: seq<nat>)
      requires Valid() && lastTime <= now
      ensures var current, n := BucketStart(now), Minutes();
              var errorReach, latencyReach := Reach(errorWindow, n), Reach(latencyWindow, n);
              && calls == Tally(log, Calls, current - errorReach, current)
              && errors == Tally(log, Errors, current - errorReach, current)
              && latencyCalls == Tally(log, Calls, current - latencyReach, current)
              && IsHistogram(latencies, log, current - latencyReach, current)
    {
      var current := BucketStart(now);
      calls, errors, latencyCalls := 0, 0, 0;
      latencies := seq(|LatencyQuantile.BOUNDS| + 1, i => 0);
      StartEmpty(log, current);
      assert IsHistogram(latencies, log, current - Reach(latencyWindow, 0), current);
      hide Tally, BucketStart, Valid, BucketAgrees, Reach;
      for n := 0 to Minutes()
        invariant calls == Tally(log, Calls, current - Reach(errorWindow, n), current)
        invariant errors == Tally(log, Errors, current - Reach(errorWindow, n), current)
        invariant latencyCalls == Tally(log, Calls, current - Reach(latencyWindow, n), current)
        invariant IsHistogram(latencies, log, current - Reach(latencyWindow, n), current)
      {
        MinuteCounted(n, now, Calls, errorWindow);
        MinuteCounted(n, now, Errors, errorWindow);
        MinuteCounted(n, now, Calls, latencyWindow);
        ghost var before := latencies;
        var start := current - n * BUCKET;
        if Live(start, now) {
          var age := current - start;
          var bucket := buckets[start];
          if age < errorWindow {
            calls, errors := calls + bucket.total, errors + bucket.errors;
          }
          if age < latencyWindow {
            latencyCalls := latencyCalls + bucket.total;
            latencies := AddCounts(latencies, bucket.latencies);
          }
        }
        HistogramCounted(n, now, before, latencies);
      }
    }

    /** With that minute's latencies added, a histogram of the minutes so far is one of a minute more. */
    lemma {:induction false} HistogramCounted(n: nat, now: int, before: seq<nat>, after: seq<nat>)
      requires Valid() && n < Minutes()
      requires var current := BucketStart(now); IsHistogram(before, log, current - Reach(latencyWindow, n), current)
      requires |after| == |before| == |LatencyQuantile.BOUNDS| + 1
      requires var start := BucketStart(now) - n * BUCKET;
               forall i :: 0 <= i < |after| ==>
                 after[i] == before[i] + if Live(start, now) && n * BUCKET < latencyWindow
                                         then Stored(start, InLatencyBucket(i)) else 0
      ensures var current := BucketStart(now); IsHistogram(after, log, current - Reach(latencyWindow, n + 1), current)
    {
      hide Tally, BucketStart, Valid, BucketAgrees, Reach, Live, Stored;
      forall i | 0 <= i < |after| ensures Counted(n, now, InLatencyBucket(i), latencyWindow) {
        MinuteCounted(n, now, InLatencyBucket(i), latencyWindow);
      }
    }

    /** The time to live never drops a bucket that a snapshot still counts. */
    lemma InWindowBucketIsLive(n: nat, now: int)
      requires Valid() && n < Minutes()
      ensures var start := BucketStart(now) - n * BUCKET;
              BucketAgrees(start) && (start in buckets ==> Live(start, now))
    {
      BucketStartFacts(now);
      var start := BucketStart(now) - n * BUCKET;
      assert BucketAgrees(start);
      assert (n + 1) * BUCKET <= MaxWindow();
    }

    /** What a snapshot adds for the `n`-th minute back is that minute's share of the window. */
    ghost predicate Counted(n: nat, now: int, m: Metric, w: nat)
      reads this
    {
      var current := BucketStart(now);
      Tally(log, m, current - Reach(w, n + 1), current)
      == Tally(log, m, current - Reach(w, n), current)
         + if Live(current - n * BUCKET, now) && n * BUCKET < w then Stored(current - n * BUCKET, m) else 0
    }

    lemma {:induction false} MinuteCounted(n: nat, now: int, m: Metric, w: nat)
      requires Valid() && n < Minutes()
      ensures Counted(n, now, m, w)
      ensures var start := BucketStart(now) - n * BUCKET;
              start in buckets ==> |buckets[start].latencies| == |LatencyQuantile.BOUNDS| + 1
    {
      BucketStartFacts(now);
      InWindowBucketIsLive(n, now);
      WindowStep(log, m, BucketStart(now), w, n);
    }
  }

  lemma {:induction false} StartEmpty(log: seq<Call>, current: int)
    ensures forall m: Metric :: Tally(log, m, current, current) == 0
  {
    forall m: Metric ensures Tally(log, m, current, current) == 0 {
      EmptyWindow(log, m, current);
    }
  }

  method AddCounts(a: seq<nat>, b: seq<nat>) returns (sum: seq<nat>)
    requires |a| == |b|
    ensures |sum| == |a| && forall i :: 0 <= i < |a| ==> sum[i] == a[i] + b[i]
  {
    sum := a;
    for i := 0 to |a|
      invariant |sum| == |a| && forall j :: 0 <= j < |a| ==> sum[j] == if j < i then a[j] + b[j] else a[j]
    {
      sum := sum[i := sum[i] + b[i]];
    }
  }
}
