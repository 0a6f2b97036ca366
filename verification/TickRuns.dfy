/** Batch view of a tick stream: its maximal runs of equal-minute ticks, and the summary of each run. */
module TickRuns {

  /** One five-second real-time bar; `time` in whole seconds. */
  datatype Tick = Tick(time: int, open: real, high: real, low: real, close: real, volume: int, wap: real)

  datatype Candle = Candle(minute: int, open: real, high: real, low: real, close: real, volume: nat, wapSum: real,
                           count: nat)

  function Minute(time: int): int { time - time % 60 }

  function Clamped(volume: int): (v: nat)
    ensures v >= volume && (v == 0 || v == volume)
  {
    if volume < 0 then 0 else volume
  }

  ghost function Volume(ticks: seq<Tick>): nat {
    if ticks == [] then 0 else Volume(ticks[..|ticks| - 1]) + Clamped(ticks[|ticks| - 1].volume)
  }

  ghost function WapSum(ticks: seq<Tick>): real {
    if ticks == [] then 0.0
    else WapSum(ticks[..|ticks| - 1]) + ticks[|ticks| - 1].wap * Clamped(ticks[|ticks| - 1].volume) as real
  }

  ghost function High(ticks: seq<Tick>): (h: real)
    requires ticks != []
    ensures exists i :: 0 <= i < |ticks| && ticks[i].high == h
    ensures forall i :: 0 <= i < |ticks| ==> ticks[i].high <= h
  {
    var last := ticks[|ticks| - 1];
    if |ticks| == 1 then last.high
    else
      var h := High(ticks[..|ticks| - 1]);
      if h < last.high then last.high else h
  }

  ghost function Low(ticks: seq<Tick>): (l: real)
    requires ticks != []
    ensures exists i :: 0 <= i < |ticks| && ticks[i].low == l
    ensures forall i :: 0 <= i < |ticks| ==> l <= ticks[i].low
  {
    var last := ticks[|ticks| - 1];
    if |ticks| == 1 then last.low
    else
      var l := Low(ticks[..|ticks| - 1]);
      if last.low < l then last.low else l
  }

  /** First open, highest high, lowest low, last close, sum of clamped volumes, number of ticks. */
  ghost function Summary(run: seq<Tick>): Candle
    requires run != []
  {
    Candle(Minute(run[0].time), run[0].open, High(run), Low(run), run[|run| - 1].close, Volume(run), WapSum(run), |run|)
  }

  lemma {:induction false} SummaryOfOne(t: Tick)
    ensures var v := Clamped(t.volume);
            Summary([t]) == Candle(Minute(t.time), t.open, t.high, t.low, t.close, v, t.wap * v as real, 1)
  {
    var one := [t];
    assert one[..|one| - 1] == [] && one[|one| - 1] == t;
    assert Volume([]) == 0 && WapSum([]) == 0.0;
    assert Volume(one) == Clamped(t.volume) && WapSum(one) == t.wap * Clamped(t.volume) as real;
  }

  lemma {:induction false} SummaryFields(run: seq<Tick>)
    requires run != []
    ensures var c := Summary(run);
            && c.minute == Minute(run[0].time) && c.count == |run| && c.volume == Volume(run)
            && c.open == run[0].open && c.close == run[|run| - 1].close
            && (forall i :: 0 <= i < |run| ==> c.low <= run[i].low && run[i].high <= c.high)
            && (exists i :: 0 <= i < |run| && run[i].low == c.low)
            && (exists i :: 0 <= i < |run| && run[i].high == c.high)
  {
    hide High, Low, Volume, WapSum;
  }

  /** What one more tick does to the summary of its run. */
  lemma {:induction false} SummaryOfExtension(run: seq<Tick>, t: Tick)
    requires run != []
    ensures var c := Summary(run);
            var v := Clamped(t.volume);
            var high, low := if c.high < t.high then t.high else c.high, if t.low < c.low then t.low else c.low;
            Summary(run + [t])
            == Candle(c.minute, c.open, high, low, t.close, c.volume + v, c.wapSum + t.wap * v as real, c.count + 1)
  {
    var longer := run + [t];
    assert longer[..|longer| - 1] == run && longer[|longer| - 1] == t && longer[0] == run[0];
  }

  // ---- runs -----------------------------------------------------------------------------------

  /** The stream so far: its finished runs, and the one still open. */
  datatype Split = Split(closed: seq<seq<Tick>>, open: seq<Tick>)

  /** Does `t` roll the minute over, given the open run? */
  predicate Rolls(open: seq<Tick>, t: Tick) {
    open != [] && Minute(open[0].time) != Minute(t.time)
  }

  ghost function Extend(s: Split, t: Tick): Split {
    if Rolls(s.open, t) then Split(s.closed + [s.open], [t]) else Split(s.closed, s.open + [t])
  }

  /** The split grown tick by tick. */
  ghost function Runs(ticks: seq<Tick>): Split {
    if ticks == [] then Split([], []) else Extend(Runs(ticks[..|ticks| - 1]), ticks[|ticks| - 1])
  }

  lemma {:induction false} RunsExtend(ticks: seq<Tick>, t: Tick)
    ensures Runs(ticks + [t]) == Extend(Runs(ticks), t)
  {
    assert (ticks + [t])[..|ticks|] == ticks;
  }

  ghost function Flatten(rs: seq<seq<Tick>>): seq<Tick> {
    if rs == [] then [] else Flatten(rs[..|rs| - 1]) + rs[|rs| - 1]
  }

  /** A run: not empty, and all its ticks share a minute. */
  ghost predicate OneMinute(run: seq<Tick>) {
    run != [] && forall i :: 0 <= i < |run| ==> Minute(run[i].time) == Minute(run[0].time)
  }

  ghost predicate Differ(a: seq<Tick>, b: seq<Tick>) {
    a != [] && b != [] && Minute(a[0].time) != Minute(b[0].time)
  }

  /** Runs that follow each other and cannot be merged. */
  ghost predicate MaximalRuns(rs: seq<seq<Tick>>) {
    rs == [] || (OneMinute(rs[|rs| - 1]) && MaximalRuns(rs[..|rs| - 1])
                 && (|rs| >= 2 ==> Differ(rs[|rs| - 2], rs[|rs| - 1])))
  }

  /** The stream cut into runs of one minute each, none of which can be merged with its neighbour. */
  ghost predicate IsMaximalSplit(s: Split, ticks: seq<Tick>) {
    && Flatten(s.closed) + s.open == ticks
    && MaximalRuns(s.closed)
    && (if s.open == [] then s.closed == []
        else OneMinute(s.open) && (s.closed != [] ==> Differ(s.closed[|s.closed| - 1], s.open)))
  }

  lemma {:induction false} ExtendKeepsMaximal(s: Split, ticks: seq<Tick>, t: Tick)
    requires IsMaximalSplit(s, ticks)
    ensures IsMaximalSplit(Extend(s, t), ticks + [t])
  {
    if Rolls(s.open, t) {
      var closed := s.closed + [s.open];
      assert closed[..|closed| - 1] == s.closed;
    }
  }

  lemma {:induction false} RunsAreMaximal(ticks: seq<Tick>)
    ensures IsMaximalSplit(Runs(ticks), ticks)
  {
    if ticks != [] {
      var init, t := ticks[..|ticks| - 1], ticks[|ticks| - 1];
      RunsAreMaximal(init);
      ExtendKeepsMaximal(Runs(init), init, t);
      assert ticks == init + [t];
    }
  }

  /** The split one tick earlier. */
  ghost function Shorten(s: Split): Split
    requires s.open != []
  {
    if |s.open| > 1 then Split(s.closed, s.open[..|s.open| - 1])
    else if s.closed == [] then Split([], [])
    else Split(s.closed[..|s.closed| - 1], s.closed[|s.closed| - 1])
  }

  lemma {:induction false} ShortenKeepsMaximal(s: Split, ticks: seq<Tick>)
    requires IsMaximalSplit(s, ticks) && ticks != []
    ensures s.open != [] && IsMaximalSplit(Shorten(s), ticks[..|ticks| - 1])
    ensures s == Extend(Shorten(s), ticks[|ticks| - 1])
  {
    assert s.open != [] by { assert Flatten([]) == []; }
    LastOf(Flatten(s.closed), s.open);
    if |s.open| > 1 {
      hide Flatten, MaximalRuns;
      assert Minute(s.open[0].time) == Minute(s.open[|s.open| - 1].time);
    } else if s.closed != [] {
      var last := s.closed[|s.closed| - 1];
      LastRunReopens(s.closed);
      hide Flatten, MaximalRuns;
      assert s.open[..0] == [] && Flatten(s.closed) + [] == Flatten(s.closed);
      assert s.closed == s.closed[..|s.closed| - 1] + [last];
    }
  }

  lemma {:induction false} LastOf(a: seq<Tick>, b: seq<Tick>)
    requires b != []
    ensures var last := |b| - 1;
            && (a + b)[..|a + b| - 1] == a + b[..last] && (a + b)[|a + b| - 1] == b[last] && b == b[..last] + [b[last]]
  {
  }

  lemma {:induction false} LastRunReopens(closed: seq<seq<Tick>>)
    requires closed != [] && MaximalRuns(closed)
    ensures var init, last := closed[..|closed| - 1], closed[|closed| - 1];
            && OneMinute(last) && MaximalRuns(init) && (init != [] ==> Differ(init[|init| - 1], last))
            && Flatten(closed) == Flatten(init) + last
  {
  }

  /** There is only one such split, so `Runs` is the batch answer and not just one way to fold. */
  lemma {:induction false} MaximalSplitIsRuns(s: Split, ticks: seq<Tick>)
    requires IsMaximalSplit(s, ticks)
    ensures s == Runs(ticks)
    decreases |ticks|
  {
    if ticks != [] {
      ShortenKeepsMaximal(s, ticks);
      MaximalSplitIsRuns(Shorten(s), ticks[..|ticks| - 1]);
    } else {
      NoEmptyRuns(s.closed);
    }
  }

  lemma {:induction false} NoEmptyRuns(rs: seq<seq<Tick>>)
    requires MaximalRuns(rs)
    ensures forall i :: 0 <= i < |rs| ==> rs[i] != []
    ensures Flatten(rs) == [] <==> rs == []
  {
    if rs != [] { NoEmptyRuns(rs[..|rs| - 1]); }
  }

  // ---- conservation and VWAP --------------------------------------------------------------------

  ghost function Summaries(rs: seq<seq<Tick>>): (cs: seq<Candle>)
    requires forall i :: 0 <= i < |rs| ==> rs[i] != []
    ensures |cs| == |rs| && forall i :: 0 <= i < |rs| ==> cs[i] == Summary(rs[i])
  {
    seq(|rs|, i requires 0 <= i < |rs| => Summary(rs[i]))
  }

  ghost function TotalVolume(candles: seq<Candle>): nat {
    if candles == [] then 0 else TotalVolume(candles[..|candles| - 1]) + candles[|candles| - 1].volume
  }

  ghost function TotalCount(candles: seq<Candle>): nat {
    if candles == [] then 0 else TotalCount(candles[..|candles| - 1]) + candles[|candles| - 1].count
  }

  lemma {:induction false} VolumeOfConcat(a: seq<Tick>, b: seq<Tick>)
    ensures Volume(a + b) == Volume(a) + Volume(b)
  {
    if b == [] {
      assert a + b == a;
    } else {
      VolumeOfConcat(a, b[..|b| - 1]);
      assert (a + b)[..|a + b| - 1] == a + b[..|b| - 1];
    }
  }

  lemma {:induction false} FlattenConserves(rs: seq<seq<Tick>>)
    requires forall i :: 0 <= i < |rs| ==> rs[i] != []
    ensures TotalVolume(Summaries(rs)) == Volume(Flatten(rs))
    ensures TotalCount(Summaries(rs)) == |Flatten(rs)|
  {
    if rs != [] {
      var front := rs[..|rs| - 1];
      FlattenConserves(front);
      VolumeOfConcat(Flatten(front), rs[|rs| - 1]);
      assert Summaries(rs)[..|rs| - 1] == Summaries(front);
    }
  }

  /** No tick and no (clamped) volume is lost or counted twice: the finished candles and the open run account
      for the whole stream. */
  lemma {:induction false} CandlesConserveTicks(ticks: seq<Tick>)
    ensures var s := Runs(ticks);
            && (forall i :: 0 <= i < |s.closed| ==> s.closed[i] != [])
            && TotalVolume(Summaries(s.closed)) + Volume(s.open) == Volume(ticks)
            && TotalCount(Summaries(s.closed)) + |s.open| == |ticks|
  {
    var s := Runs(ticks);
    RunsAreMaximal(ticks);
    NoEmptyRuns(s.closed);
    FlattenConserves(s.closed);
    VolumeOfConcat(Flatten(s.closed), s.open);
  }

  function Vwap(c: Candle): real {
    if c.volume > 0 then c.wapSum / c.volume as real else c.close
  }

  /** The price of a minute is its turnover over its volume, and without volume its last close. */
  lemma {:induction false} VwapIsWeighted(run: seq<Tick>)
    requires run != []
    ensures var vwap := Vwap(Summary(run));
            if Volume(run) > 0 then vwap * Volume(run) as real == WapSum(run) else vwap == run[|run| - 1].close
  {
    if Volume(run) > 0 {
      assert Summary(run).volume == Volume(run);
      hide Volume, WapSum, High, Low;
      Quotient(WapSum(run), Volume(run) as real);
    }
  }

  lemma Quotient(sum: real, volume: real)
    requires volume > 0.0
    ensures sum / volume * volume == sum
  {
  }

  ghost predicate SaneTick(t: Tick) {
    t.low <= t.wap <= t.high && t.low <= t.close <= t.high
  }

  /** `sum` could be the total of `volume` shares each priced between `lo` and `hi`. */
  ghost predicate Weighted(lo: real, sum: real, hi: real, volume: nat) {
    lo * volume as real <= sum <= hi * volume as real
  }

  /** A minute's volume-weighted price lies between its low and its high. */
  lemma {:induction false} VwapWithinRange(run: seq<Tick>)
    requires run != [] && forall i :: 0 <= i < |run| ==> SaneTick(run[i])
    ensures Low(run) <= Vwap(Summary(run)) <= High(run)
  {
    hide Weighted;
    forall i | 0 <= i < |run| ensures Low(run) <= run[i].wap <= High(run) {
      assert SaneTick(run[i]);
    }
    WapSumWithin(run, Low(run), High(run));
    assert SaneTick(run[|run| - 1]);
    if Volume(run) > 0 {
      MeanBetween(Low(run), WapSum(run), High(run), Volume(run));
    }
  }

  lemma {:induction false} WapSumWithin(run: seq<Tick>, lo: real, hi: real)
    requires forall i :: 0 <= i < |run| ==> lo <= run[i].wap <= hi
    ensures Weighted(lo, WapSum(run), hi, Volume(run))
  {
    if run != [] {
      var init, t := run[..|run| - 1], run[|run| - 1];
      WapSumWithin(init, lo, hi);
      AddWeighted(lo, WapSum(init), hi, Volume(init), t.wap, Clamped(t.volume));
    }
  }

  lemma AddWeighted(lo: real, sum: real, hi: real, u: nat, w: real, v: nat)
    requires Weighted(lo, sum, hi, u) && lo <= w <= hi
    ensures Weighted(lo, sum + w * v as real, hi, u + v)
  {
    var x, y := u as real, v as real;
    assert (u + v) as real == x + y;
    assert lo * y <= w * y <= hi * y;
    assert lo * (x + y) == lo * x + lo * y && hi * (x + y) == hi * x + hi * y;
  }

  lemma MeanBetween(lo: real, sum: real, hi: real, volume: nat)
    requires volume > 0 && Weighted(lo, sum, hi, volume)
    ensures lo <= sum / volume as real <= hi
  {
    var v := volume as real;
    var mean := sum / v;
    assert mean * v == sum;
  }
}
