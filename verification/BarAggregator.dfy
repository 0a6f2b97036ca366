/** Streaming one-minute bars from five-second ticks, with the session accumulators. */
module BarAggregator {
  import opened Options
  import opened TickRuns

  datatype Session = Closed | Pre | Regular | Post

  /** What the scanner receives when a minute is complete; VWAP and elapsed minutes before rounding. */
  datatype MinuteBar = MinuteBar(
    minute: int, symbol: string, open: real, high: real, low: real, close: real,
    volume: nat, vwap: real, barCount: nat, session: Session,
    sessionVolume: nat, minutesElapsed: real, priorClose: real, avgDailyVolume: real
  )

  // ---- sessions of a stream ---------------------------------------------------------------------

  /** The last tick of a non-empty stream starts a session: its session is not "closed" and differs from that
      of the tick before it. */
  ghost predicate Resets(ticks: seq<Tick>, sessionFor: int -> Session)
    requires ticks != []
  {
    var now := sessionFor(ticks[|ticks| - 1].time);
    now != Closed && now != SessionBefore(ticks[..|ticks| - 1], sessionFor)
  }

  ghost function SessionBefore(ticks: seq<Tick>, sessionFor: int -> Session): Session {
    if ticks == [] then Closed else sessionFor(ticks[|ticks| - 1].time)
  }

  /** The ticks since the last reset, that one included; the whole stream before the first reset. */
  ghost function SessionTicks(ticks: seq<Tick>, sessionFor: int -> Session): seq<Tick> {
    if ticks == [] then []
    else if Resets(ticks, sessionFor) then [ticks[|ticks| - 1]]
    else SessionTicks(ticks[..|ticks| - 1], sessionFor) + [ticks[|ticks| - 1]]
  }

  /** The minute of the last reset, if there was one. */
  ghost function SessionStart(ticks: seq<Tick>, sessionFor: int -> Session): Option<int> {
    if ticks == [] then None
    else if Resets(ticks, sessionFor) then Some(Minute(ticks[|ticks| - 1].time))
    else SessionStart(ticks[..|ticks| - 1], sessionFor)
  }

  /** Inside a session there is always a recorded start. */
  lemma {:induction false} OpenSessionHasStart(ticks: seq<Tick>, sessionFor: int -> Session)
    requires SessionBefore(ticks, sessionFor) != Closed
    ensures SessionStart(ticks, sessionFor).Some?
  {
    if !Resets(ticks, sessionFor) {
      OpenSessionHasStart(ticks[..|ticks| - 1], sessionFor);
    }
  }

  ghost predicate NonDecreasing(ticks: seq<Tick>) {
    forall i, j :: 0 <= i < j < |ticks| ==> ticks[i].time <= ticks[j].time
  }

  lemma {:induction false} StartNotLater(ticks: seq<Tick>, sessionFor: int -> Session, time: int)
    requires forall i :: 0 <= i < |ticks| ==> ticks[i].time <= time
    ensures SessionStart(ticks, sessionFor).Some? ==> SessionStart(ticks, sessionFor).value <= Minute(time)
  {
    if ticks != [] {
      MinuteMonotone(ticks[|ticks| - 1].time, time);
      StartNotLater(ticks[..|ticks| - 1], sessionFor, time);
    }
  }

  lemma MinuteMonotone(a: int, b: int)
    requires a <= b
    ensures Minute(a) <= Minute(b) && Minute(a) <= a < Minute(a) + 60
    ensures Minute(a) % 60 == 0 && (Minute(a) < Minute(b) ==> Minute(a) + 60 <= Minute(b))
  {
  }

  function Elapsed(minute: int, start: Option<int>): real {
    if start.Some? then (minute - start.value) as real / 60.0 + 1.0 else 1.0
  }

  /** The bar emitted when tick `t` rolls over the stream `ticks`: the summary of the open run, with the
      accumulators as they stand once `t` has been counted. */
  ghost function Emitted(ticks: seq<Tick>, t: Tick, sessionFor: int -> Session, symbol: string, priorClose: real,
                         avgDailyVolume: real): MinuteBar
    requires Rolls(Runs(ticks).open, t)
  {
    var run := Runs(ticks).open;
    var c, minute := Summary(run), Minute(run[0].time);
    MinuteBar(minute, symbol, c.open, c.high, c.low, c.close, c.volume, Vwap(c), c.count,
              sessionFor(run[0].time), Volume(SessionTicks(ticks + [t], sessionFor)),
              Elapsed(minute, SessionStart(ticks + [t], sessionFor)), priorClose, avgDailyVolume)
  }

  /** What a bar says of the ticks of its minute. */
  ghost predicate Describes(bar: MinuteBar, run: seq<Tick>) {
    && run != [] && bar.minute == Minute(run[0].time) && bar.barCount == |run|
    && bar.open == run[0].open && bar.close == run[|run| - 1].close
    && (forall i :: 0 <= i < |run| ==> bar.low <= run[i].low && run[i].high <= bar.high)
    && (exists i :: 0 <= i < |run| && run[i].low == bar.low) && (exists i :: 0 <= i < |run| && run[i].high == bar.high)
    && bar.volume == Volume(run)
    && (if Volume(run) > 0 then bar.vwap * Volume(run) as real == WapSum(run) else bar.vwap == run[|run| - 1].close)
  }

  lemma {:induction false} EmittedDescribes(ticks: seq<Tick>, t: Tick, sessionFor: int -> Session, symbol: string,
                                            priorClose: real, avgDailyVolume: real)
    requires Rolls(Runs(ticks).open, t)
    ensures Describes(Emitted(ticks, t, sessionFor, symbol, priorClose, avgDailyVolume), Runs(ticks).open)
  {
    hide Runs, Summary, High, Low, Volume, WapSum, Vwap, SessionTicks, SessionStart, Elapsed;
    SummaryFields(Runs(ticks).open);
    VwapIsWeighted(Runs(ticks).open);
  }

  /** The last tick's session, as far back as it goes without a break: what the session accumulators cover. */
  lemma {:induction false} SessionIsLongestStretch(ticks: seq<Tick>, sessionFor: int -> Session) returns (k: nat)
    requires SessionBefore(ticks, sessionFor) != Closed
    ensures IsLongestStretch(ticks, sessionFor, k)
    ensures SessionTicks(ticks, sessionFor) == ticks[k..]
    ensures SessionStart(ticks, sessionFor) == Some(Minute(ticks[k].time))
  {
    var last := |ticks| - 1;
    if Resets(ticks, sessionFor) {
      k := last;
    } else {
      k := SessionIsLongestStretch(ticks[..last], sessionFor);
      assert ticks[..last][k..] + [ticks[last]] == ticks[k..];
    }
  }

  /** From the `k`-th on all ticks are in the session of the last, and the one before is not. */
  ghost predicate IsLongestStretch(ticks: seq<Tick>, sessionFor: int -> Session, k: nat) {
    && k < |ticks|
    && (forall i :: k <= i < |ticks| ==> sessionFor(ticks[i].time) == sessionFor(ticks[|ticks| - 1].time))
    && (k > 0 ==> sessionFor(ticks[k - 1].time) != sessionFor(ticks[|ticks| - 1].time))
  }

  /** Unless the market is closed, the session fields of an emitted bar are those of the stretch of one session that
      ends with the rolling tick: its volume, and one more than the minutes from its first tick to the bar. */
  lemma {:induction false} EmittedCoversStretch(ticks: seq<Tick>, t: Tick, sessionFor: int -> Session, symbol: string,
                                                priorClose: real, avgDailyVolume: real)
    requires Rolls(Runs(ticks).open, t) && sessionFor(t.time) != Closed
    ensures var all, bar := ticks + [t], Emitted(ticks, t, sessionFor, symbol, priorClose, avgDailyVolume);
            exists k: nat :: IsLongestStretch(all, sessionFor, k) && bar.sessionVolume == Volume(all[k..])
                             && 60.0 * (bar.minutesElapsed - 1.0) == (bar.minute - Minute(all[k].time)) as real
  {
    var k := SessionIsLongestStretch(ticks + [t], sessionFor);
    hide Runs, Summary, Vwap, Volume, SessionTicks, SessionStart, SessionBefore;
  }

  /** In a stream that never goes back in time, "minutes into the session" of an emitted bar is at least one
      exactly when the tick that rolled the minute over did not open a new session itself. */
  lemma {:induction false} ElapsedAtLeastOneIff(ticks: seq<Tick>, t: Tick, sessionFor: int -> Session, symbol: string,
                                                priorClose: real, avgDailyVolume: real)
    requires NonDecreasing(ticks + [t]) && Rolls(Runs(ticks).open, t)
    ensures Emitted(ticks, t, sessionFor, symbol, priorClose, avgDailyVolume).minutesElapsed >= 1.0
            <==> !Resets(ticks + [t], sessionFor)
  {
    var all, run := ticks + [t], Runs(ticks).open;
    RunsAreMaximal(ticks);
    var last := run[|run| - 1];
    assert last == ticks[|ticks| - 1] && all[|ticks| - 1] == last && all[|ticks|] == t;
    assert Minute(last.time) == Minute(run[0].time);
    MinuteMonotone(last.time, t.time);
    assert all[..|all| - 1] == ticks;
    forall i | 0 <= i < |ticks| ensures ticks[i].time <= last.time {
      assert all[i] == ticks[i];
    }
    StartNotLater(ticks, sessionFor, last.time);
  }

  /** The emitted session volume already counts the tick of the next minute: inside a session it is ahead of
      the volume up to the bar's own end by exactly that tick, and at a session start it is that tick alone. */
  lemma {:induction false} EmittedSessionVolumeIsAhead(ticks: seq<Tick>, t: Tick, sessionFor: int -> Session,
                                                       symbol: string, priorClose: real, avgDailyVolume: real)
    requires Rolls(Runs(ticks).open, t)
    ensures Emitted(ticks, t, sessionFor, symbol, priorClose, avgDailyVolume).sessionVolume
            == Clamped(t.volume)
               + if Resets(ticks + [t], sessionFor) then 0 else Volume(SessionTicks(ticks, sessionFor))
  {
    assert (ticks + [t])[..|ticks|] == ticks;
    VolumeOfOne(t);
    VolumeOfConcat(SessionTicks(ticks, sessionFor), [t]);
  }

  /** So it is the cumulative volume of the bar's own session, up to the bar's end, exactly when the rolling tick adds
      nothing, or opens a session and happens to bring the volume it discards. */
  lemma {:induction false} EmittedSessionVolumeRightIff(ticks: seq<Tick>, t: Tick, sessionFor: int -> Session,
                                                        symbol: string, priorClose: real, avgDailyVolume: real)
    requires Rolls(Runs(ticks).open, t)
    ensures var soFar := Volume(SessionTicks(ticks, sessionFor));
            Emitted(ticks, t, sessionFor, symbol, priorClose, avgDailyVolume).sessionVolume == soFar
            <==> Clamped(t.volume) == if Resets(ticks + [t], sessionFor) then soFar else 0
  {
    EmittedSessionVolumeIsAhead(ticks, t, sessionFor, symbol, priorClose, avgDailyVolume);
  }

  // A pre-market tick of five shares, and the first tick of the regular session a minute later, of seven.
  const LAST_PRE := Tick(0, 1.0, 1.0, 1.0, 1.0, 5, 1.0)
  const FIRST_REGULAR := Tick(60, 1.0, 1.0, 1.0, 1.0, 7, 1.0)

  function PreThenRegular(time: int): Session { if time < 60 then Pre else Regular }

  /** The pre-market bar comes out 0 minutes into its session instead of 1, with a session volume of 7 instead of 5. */
  lemma BoundaryBarIsWrong()
    ensures var ticks := [LAST_PRE];
            && Rolls(Runs(ticks).open, FIRST_REGULAR) && Volume(SessionTicks(ticks, PreThenRegular)) == 5
            && var bar := Emitted(ticks, FIRST_REGULAR, PreThenRegular, "AAPL", 1.0, 1.0);
               bar.session == Pre && bar.minutesElapsed == 0.0 && bar.sessionVolume == 7
  {
    FirstTick(LAST_PRE, PreThenRegular);
    hide Runs, Volume, SessionTicks, SessionStart, SessionBefore, Emitted;
    EmittedAt([LAST_PRE], FIRST_REGULAR, PreThenRegular, "AAPL", 1.0, 1.0);
  }

  /** The first tick of a stream opens its first run, and its first session unless it is closed. */
  lemma {:induction false} FirstTick(t: Tick, sessionFor: int -> Session)
    ensures var now := sessionFor(t.time);
            && Runs([t]).open == [t] && SessionBefore([t], sessionFor) == now
            && Volume(SessionTicks([t], sessionFor)) == Clamped(t.volume)
            && SessionStart([t], sessionFor) == if now == Closed then None else Some(Minute(t.time))
  {
    assert Volume(SessionTicks([], sessionFor)) == 0 && SessionStart([], sessionFor) == None;
    assert SessionBefore([], sessionFor) == Closed && Runs([]) == Split([], []);
    hide Runs, Volume, SessionTicks, SessionStart, SessionBefore;
    assert [] + [t] == [t];
    RunsExtend([], t);
    SessionExtends([], t, sessionFor);
  }

  /** The session fields of an emitted bar, from the session as it stood before the rolling tick. */
  lemma {:induction false} EmittedAt(ticks: seq<Tick>, t: Tick, sessionFor: int -> Session, symbol: string,
                                     priorClose: real, avgDailyVolume: real)
    requires Rolls(Runs(ticks).open, t)
    ensures var now, run := sessionFor(t.time), Runs(ticks).open;
            var resets := now != Closed && now != SessionBefore(ticks, sessionFor);
            var bar := Emitted(ticks, t, sessionFor, symbol, priorClose, avgDailyVolume);
            && bar.session == sessionFor(run[0].time)
            && bar.sessionVolume == Clamped(t.volume) + (if resets then 0 else Volume(SessionTicks(ticks, sessionFor)))
            && bar.minutesElapsed == Elapsed(Minute(run[0].time), if resets then Some(Minute(t.time))
                                                                  else SessionStart(ticks, sessionFor))
  {
    hide Runs, Summary, Vwap, Volume, SessionTicks, SessionStart, SessionBefore, Elapsed;
    SessionExtends(ticks, t, sessionFor);
  }

  lemma {:induction false} SessionExtends(ticks: seq<Tick>, t: Tick, sessionFor: int -> Session)
    ensures var now := sessionFor(t.time);
            var resets := now != Closed && now != SessionBefore(ticks, sessionFor);
            && SessionBefore(ticks + [t], sessionFor) == now
            && Volume(SessionTicks(ticks + [t], sessionFor))
                == Clamped(t.volume) + (if resets then 0 else Volume(SessionTicks(ticks, sessionFor)))
            && SessionStart(ticks + [t], sessionFor)
                == (if resets then Some(Minute(t.time)) else SessionStart(ticks, sessionFor))
  {
    assert (ticks + [t])[..|ticks|] == ticks;
    VolumeOfOne(t);
    VolumeOfConcat(SessionTicks(ticks, sessionFor), [t]);
  }

  lemma {:induction false} VolumeOfOne(t: Tick)
    ensures Volume([t]) == Clamped(t.volume)
  {
    assert [t][..0] == [];
  }

  // ---- the aggregator ---------------------------------------------------------------------------

  class Aggregator {
    const symbol: string
    const priorClose: real
    const avgDailyVolume: real
    const sessionFor: int -> Session

    var currentMinute: Option<int>
    var currentSession: Session
    var open: real
    var high: real
    var low: real
    var close: real
    var volume: nat
    var wapSum: real
    var barCount: nat
    var sessionVolume: nat
    var lastSession: Session
    var sessionStart: Option<int>

    ghost var history: seq<Tick>       // every tick ever fed
    ghost var emitted: seq<MinuteBar>  // every bar ever returned

    constructor (symbol: string, priorClose: real, avgDailyVolume: real, sessionFor: int -> Session)
      ensures Valid() && history == [] && emitted == []
      ensures this.sessionFor == sessionFor && this.symbol == symbol
      ensures this.priorClose == priorClose && this.avgDailyVolume == avgDailyVolume
    {
      this.symbol, this.priorClose, this.avgDailyVolume := symbol, priorClose, avgDailyVolume;
      this.sessionFor := sessionFor;
      currentMinute, currentSession := None, Closed;
      open, high, low, close, volume, wapSum, barCount := 0.0, 0.0, 0.0, 0.0, 0, 0.0, 0;
      sessionVolume, lastSession, sessionStart := 0, Closed, None;
      history, emitted := [], [];
    }

    /** Streaming equals batch: the fields are the summary of the open run of the whole history, the bars
        emitted are the summaries of its finished runs, and the session fields are those of its last session. */
    ghost predicate Valid()
      reads this
    {
      && OpenRunIs(Runs(history).open)
      && |emitted| == |Runs(history).closed|
      && (forall i :: 0 <= i < |emitted| ==> IsBarOf(emitted[i], Runs(history).closed[i]))
      && SessionIs(history)
    }

    ghost predicate OpenRunIs(run: seq<Tick>)
      reads this
    {
      if run == [] then currentMinute == None
      else
        var c := Summary(run);
        && currentMinute == Some(Minute(run[0].time)) && currentSession == sessionFor(run[0].time)
        && open == c.open && high == c.high && low == c.low && close == c.close
        && volume == c.volume && wapSum == c.wapSum && barCount == c.count
    }

    ghost predicate SessionIs(ticks: seq<Tick>)
      reads this
    {
      && sessionVolume == Volume(SessionTicks(ticks, sessionFor))
      && sessionStart == SessionStart(ticks, sessionFor)
      && lastSession == SessionBefore(ticks, sessionFor)
    }

    ghost predicate IsBarOf(bar: MinuteBar, run: seq<Tick>) {
      && Describes(bar, run) && bar.session == sessionFor(run[0].time)
      && bar.symbol == symbol && bar.priorClose == priorClose && bar.avgDailyVolume == avgDailyVolume
    }

    method Update(tick: Tick) returns (completed: Option<MinuteBar>)
      requires Valid()
      modifies this
      ensures Valid() && history == old(history) + [tick]
      ensures completed == if Rolls(Runs(old(history)).open, tick)
                           then Some(Emitted(old(history), tick, sessionFor, symbol, priorClose, avgDailyVolume))
                           else None
      ensures completed.Some? ==> IsBarOf(completed.value, Runs(old(history)).open)
      ensures emitted == old(emitted) + (if completed.Some? then [completed.value] else [])
    {
      hide Runs, Describes, Summary, Volume, SessionTicks, SessionStart, SessionBefore;
      ghost var fed, before := history, Runs(history);
      RunsExtend(history, tick);
      var session := sessionFor(tick.time);
      var tickVolume := Clamped(tick.volume);
      CountSession(tick, session, tickVolume);
      var minute := Minute(tick.time);
      completed := None;
      history := history + [tick];
      if currentMinute == None {
        OpenNewMinute(minute, tick, tickVolume, session);
        assert before.open + [tick] == [tick];
      } else if minute != currentMinute.value {
        completed := Some(EmitBar());
        EmittedDescribes(fed, tick, sessionFor, symbol, priorClose, avgDailyVolume);
        emitted := emitted + [completed.value];
        OpenNewMinute(minute, tick, tickVolume, session);
      } else {
        Accumulate(tick, tickVolume, before.open);
      }
    }

    /** Resets the session accumulators at a session boundary and counts the tick. */
    method CountSession(tick: Tick, session: Session, tickVolume: nat)
      requires SessionIs(history) && session == sessionFor(tick.time) && tickVolume == Clamped(tick.volume)
      modifies this`sessionVolume, this`sessionStart, this`lastSession
      ensures SessionIs(history + [tick])
    {
      hide Volume, SessionTicks, SessionStart;
      SessionExtends(history, tick, sessionFor);
      if session != lastSession && session != Closed {
        sessionVolume := 0;
        sessionStart := None;
      } else if session != Closed {
        OpenSessionHasStart(history, sessionFor);
      }
      lastSession := session;
      sessionVolume := sessionVolume + tickVolume;
      if sessionStart == None && session != Closed {
        sessionStart := Some(Minute(tick.time));
      }
    }

    method OpenNewMinute(minute: int, tick: Tick, tickVolume: nat, session: Session)
      requires minute == Minute(tick.time) && tickVolume == Clamped(tick.volume) && session == sessionFor(tick.time)
      modifies this`currentMinute, this`currentSession, this`open, this`high, this`low, this`close, this`volume,
          this`wapSum, this`barCount
      ensures OpenRunIs([tick])
    {
      currentMinute, currentSession := Some(minute), session;
      open, high, low, close := tick.open, tick.high, tick.low, tick.close;
      volume, wapSum, barCount := tickVolume, tick.wap * tickVolume as real, 1;
      hide Summary;
      SummaryOfOne(tick);
    }

    method Accumulate(tick: Tick, tickVolume: nat, ghost run: seq<Tick>)
      requires run != [] && OpenRunIs(run) && tickVolume == Clamped(tick.volume)
      modifies this`high, this`low, this`close, this`volume, this`wapSum, this`barCount
      ensures OpenRunIs(run + [tick])
    {
      high := if high < tick.high then tick.high else high;
      low := if tick.low < low then tick.low else low;
      close := tick.close;
      volume := volume + tickVolume;
      wapSum := wapSum + tick.wap * tickVolume as real;
      barCount := barCount + 1;
      hide Summary;
      SummaryOfExtension(run, tick);
    }

    function EmitBar(): MinuteBar
      requires currentMinute.Some?
      reads this
    {
      var minutesElapsed := Elapsed(currentMinute.value, sessionStart);
      var vwap := if volume > 0 then wapSum / volume as real else close;
      MinuteBar(currentMinute.value, symbol, open, high, low, close, volume, vwap, barCount, currentSession,
                sessionVolume, minutesElapsed, priorClose, avgDailyVolume)
    }
  }
}
