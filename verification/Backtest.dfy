/** The day-by-day replay of a strategy against scanner signals. */
module Backtest {
  import opened Options
  import opened TradeSimulation
  import BacktestStats

  datatype Signal = Signal(ticker: string, previousClose: Option<real>)

  datatype Strategy = Strategy(stopPct: real, riskReward: real, entryType: EntryType, limitOffsetPct: real)

  datatype Completed = Completed(entryDate: int, exitDate: int, filled: Filled, resultR: real)

  /** One record per signal; no outcome when there was no bar to enter on or the limit was not reached. */
  datatype Trade = Trade(signal: Signal, signalDate: int, outcome: Option<Completed>)

  datatype Result = Result(totalSignals: nat, totalTrades: nat, skippedNoData: nat, exitedOnDataEnd: nat,
                           stats: Option<BacktestStats.Stats>, trades: seq<Trade>)

  /** Daily bars of each ticker, in date order. */
  type Market = string -> seq<DayBar>

  function Between(bars: seq<DayBar>, lo: int, hi: int): (r: seq<DayBar>)
    ensures forall i :: 0 <= i < |r| ==> lo <= r[i].date <= hi
  {
    if bars == [] then []
    else
      var last := bars[|bars| - 1];
      Between(bars[..|bars| - 1], lo, hi) + (if lo <= last.date <= hi then [last] else [])
  }

  /** The bars a signal may enter on: the eight days after it. */
  function EntryBars(bars: seq<DayBar>, signalDate: int): seq<DayBar> {
    Between(bars, signalDate + 1, signalDate + 1 + 7)
  }

  /** The bars a trade is replayed on: from the day after its entry, with room for weekends and holidays. */
  function LaterBars(bars: seq<DayBar>, entryDate: int, maxHold: int): seq<DayBar> {
    Between(bars, entryDate + 1, entryDate + maxHold * 2 + 14)
  }

  /** Enter on the first entry bar if the entry type fills there, and leave where the replay says. */
  ghost function OutcomeOn(entryBar: DayBar, later: seq<DayBar>, previousClose: Option<real>, strategy: Strategy,
                           maxHold: int): Option<Completed> {
    match EntryFill(entryBar.open, strategy.entryType, strategy.limitOffsetPct, previousClose)
    case None => None
    case Some(entry) =>
      var stop, target := StopPrice(entry, strategy.stopPct), TargetPrice(entry, strategy.stopPct, strategy.riskReward);
      var exit := ExitOf(later, entry, stop, target, maxHold);
      ExitDateIsPriceBar(later, entryBar.date, entry, stop, target, maxHold);
      Some(Completed(entryBar.date, ExitDate(later, entryBar.date, exit), Filled(entry, stop, target, exit),
                     ResultR(entry, exit.price, stop)))
  }

  ghost function TradeOf(signal: Signal, date: int, bars: seq<DayBar>, strategy: Strategy, maxHold: int): Trade {
    var entryBars := EntryBars(bars, date);
    Trade(signal, date, if entryBars == [] then None
                        else
                          var later := LaterBars(bars, entryBars[0].date, maxHold);
                          OutcomeOn(entryBars[0], later, signal.previousClose, strategy, maxHold))
  }

  lemma {:induction false} OutcomeDatesInOrder(entryBar: DayBar, later: seq<DayBar>, previousClose: Option<real>,
                                               strategy: Strategy, maxHold: int)
    requires forall i :: 0 <= i < |later| ==> entryBar.date < later[i].date
    ensures var o := OutcomeOn(entryBar, later, previousClose, strategy, maxHold);
            o.Some? ==>
              var c := o.value;
              && c.entryDate == entryBar.date <= c.exitDate && (c.exitDate == c.entryDate <==> later == [])
              && (later == [] ==> c.filled.exit.price == c.filled.entry && c.resultR == 0.0)
  {
    var fill := EntryFill(entryBar.open, strategy.entryType, strategy.limitOffsetPct, previousClose);
    if fill.Some? {
      var entry := fill.value;
      var stop, target := StopPrice(entry, strategy.stopPct), TargetPrice(entry, strategy.stopPct, strategy.riskReward);
      hide StopPrice, TargetPrice, ExitOf;
      ExitDateIsPriceBar(later, entryBar.date, entry, stop, target, maxHold);
    }
  }

  /** A trade is entered after its signal, within eight days, and left on its entry day exactly when there is no
      later bar to replay, in which case it is flat; otherwise it is left after it is entered. */
  lemma {:induction false} TradeDatesInOrder(signal: Signal, date: int, bars: seq<DayBar>, strategy: Strategy,
                                             maxHold: int)
    ensures var t := TradeOf(signal, date, bars, strategy, maxHold);
            t.outcome.Some? ==>
              var c := t.outcome.value;
              && date < c.entryDate <= date + 8 && c.entryDate <= c.exitDate
              && (c.exitDate == c.entryDate <==> LaterBars(bars, c.entryDate, maxHold) == [])
              && (c.exitDate == c.entryDate ==> c.filled.exit.price == c.filled.entry && c.resultR == 0.0)
  {
    hide OutcomeOn;
    var entryBars := EntryBars(bars, date);
    if entryBars != [] {
      var later := LaterBars(bars, entryBars[0].date, maxHold);
      OutcomeDatesInOrder(entryBars[0], later, signal.previousClose, strategy, maxHold);
    }
  }

  lemma {:induction false} BetweenOfBetween(bars: seq<DayBar>, lo: int, hi: int, from: int, horizon: int)
    requires from <= lo && hi <= horizon
    ensures Between(Between(bars, from, horizon), lo, hi) == Between(bars, lo, hi)
  {
    if bars == [] {
      assert Between(bars, from, horizon) == [];
    } else {
      var init, last := bars[..|bars| - 1], bars[|bars| - 1];
      BetweenOfBetween(init, lo, hi, from, horizon);
      var kept := Between(init, from, horizon);
      if from <= last.date <= horizon {
        assert (kept + [last])[..|kept|] == kept;
      } else {
        assert kept + [] == kept;
      }
    }
  }

  ghost predicate DateOrder(bars: seq<DayBar>) {
    forall i, j :: 0 <= i < j < |bars| ==> bars[i].date < bars[j].date
  }

  /** `bars[i..j]` are the bars dated in `[lo, hi]`. */
  ghost predicate IsStretch(bars: seq<DayBar>, lo: int, hi: int, i: nat, j: nat) {
    && i <= j <= |bars|
    && (forall k :: 0 <= k < i ==> bars[k].date < lo)
    && (forall k :: i <= k < j ==> lo <= bars[k].date <= hi)
    && (forall k :: j <= k < |bars| ==> hi < bars[k].date)
  }

  /** Of bars in date order the query takes out a contiguous stretch, and all of it. */
  lemma {:induction false} BetweenIsStretch(bars: seq<DayBar>, lo: int, hi: int) returns (i: nat, j: nat)
    requires DateOrder(bars)
    ensures IsStretch(bars, lo, hi, i, j) && Between(bars, lo, hi) == bars[i..j]
  {
    if bars == [] {
      i, j := 0, 0;
    } else {
      var last := |bars| - 1;
      assert DateOrder(bars[..last]);
      hide IsStretch, DateOrder;
      i, j := BetweenIsStretch(bars[..last], lo, hi);
      StretchGrows(bars, lo, hi, i, j);
      Slices(bars, i, j);
      if bars[last].date < lo {
        i, j := |bars|, |bars|;
      } else if bars[last].date <= hi {
        j := |bars|;
      }
    }
  }

  lemma {:induction false} Slices(bars: seq<DayBar>, i: nat, j: nat)
    requires bars != [] && i <= j < |bars|
    ensures var last := |bars| - 1;
            bars[..last][i..j] + [] == bars[i..j] && bars[..last][i..last] + [bars[last]] == bars[i..|bars|]
  {
  }

  /** One more bar, later than the rest: before the stretch and so all of them, in it, or after it. */
  lemma {:induction false} StretchGrows(bars: seq<DayBar>, lo: int, hi: int, i: nat, j: nat)
    requires bars != [] && DateOrder(bars) && IsStretch(bars[..|bars| - 1], lo, hi, i, j)
    ensures var last := |bars| - 1;
            && i <= j <= last
            && if bars[last].date < lo then i == j && IsStretch(bars, lo, hi, |bars|, |bars|)
            else if bars[last].date <= hi then j == last && IsStretch(bars, lo, hi, i, |bars|)
            else IsStretch(bars, lo, hi, i, j)
  {
    var last := |bars| - 1;
    var init := bars[..last];
    assert forall k :: 0 <= k < last ==> init[k] == bars[k] && bars[k].date < bars[last].date;
    assert i < last ==> init[i].date < bars[last].date;
    assert j < last ==> init[j].date < bars[last].date;
  }

  /** The `i`-th bar is the first after the signal, comes within eight days, and the entry order fills at its open. */
  ghost predicate EntersAt(signal: Signal, date: int, bars: seq<DayBar>, strategy: Strategy, i: nat) {
    && i < |bars| && date < bars[i].date <= date + 8 && (i > 0 ==> bars[i - 1].date <= date)
    && Fills(bars[i].open, strategy.entryType, strategy.limitOffsetPct, signal.previousClose)
  }

  /** What became of a trade entered on the `i`-th bar: entered at its open, bracketed as the strategy says, and
      replayed on the bars after it up to the `j`-th, the first to come more than twice the holding limit and fourteen
      days later. */
  ghost predicate IsTradeOn(c: Completed, bars: seq<DayBar>, strategy: Strategy, maxHold: int, i: nat, j: nat) {
    && i < j <= |bars|
    && (forall k :: i < k < j ==> bars[k].date <= bars[i].date + 2 * maxHold + 14)
    && (forall k :: j <= k < |bars| ==> bars[i].date + 2 * maxHold + 14 < bars[k].date)
    && var f := c.filled;
       && c.entryDate == bars[i].date && f.entry == bars[i].open && Brackets(f, strategy.stopPct, strategy.riskReward)
       && f.exit == ExitOf(bars[i + 1..j], f.entry, f.stop, f.target, maxHold)
       && if f.entry > f.stop then c.resultR * (f.entry - f.stop) == f.exit.price - f.entry else c.resultR == 0.0
  }

  /** For bars in date order, a signal becomes a trade exactly if its first later bar comes within eight days and fills
      the order, and then the trade is entered there and replayed on the bars that follow. */
  lemma {:induction false} TradeIsOnBars(signal: Signal, date: int, bars: seq<DayBar>, strategy: Strategy, maxHold: int)
    requires DateOrder(bars)
    ensures var t := TradeOf(signal, date, bars, strategy, maxHold);
            if t.outcome.None? then forall i: nat :: !EntersAt(signal, date, bars, strategy, i)
            else exists i: nat, j: nat :: EntersAt(signal, date, bars, strategy, i)
                                          && IsTradeOn(t.outcome.value, bars, strategy, maxHold, i, j)
  {
    hide Between, Fills, EntryFill, IsTradeOn, IsStretch, OutcomeOn;
    var i, end := BetweenIsStretch(bars, date + 1, date + 8);
    FirstAfterIsStretchStart(signal, date, bars, strategy, i, end);
    assert EntryBars(bars, date) == bars[i..end];
    if i < end {
      var hi := bars[i].date + maxHold * 2 + 14;
      var from, till := BetweenIsStretch(bars, bars[i].date + 1, hi);
      LaterStretch(bars, i, hi, from, till);
      hide DateOrder;
      var j := if from < till then till else i + 1;
      assert LaterBars(bars, bars[i].date, maxHold) == bars[i + 1..j];
      OutcomeIsOn(signal, bars, strategy, maxHold, i, j);
    }
  }

  lemma {:induction false} FirstAfterIsStretchStart(signal: Signal, date: int, bars: seq<DayBar>, strategy: Strategy,
                                                    i: nat, end: nat)
    requires DateOrder(bars) && IsStretch(bars, date + 1, date + 8, i, end)
    ensures i <= end <= |bars|
    ensures forall k: nat :: EntersAt(signal, date, bars, strategy, k) ==> k == i < end
    ensures i < end && Fills(bars[i].open, strategy.entryType, strategy.limitOffsetPct, signal.previousClose) ==>
              EntersAt(signal, date, bars, strategy, i)
  {
    hide Fills;
  }

  /** The bars after the entry up to a day start right after it. */
  lemma {:induction false} LaterStretch(bars: seq<DayBar>, i: nat, hi: int, from: nat, j: nat)
    requires DateOrder(bars) && i < |bars| && IsStretch(bars, bars[i].date + 1, hi, from, j)
    ensures from <= j <= |bars| && forall k :: i < k < j ==> bars[k].date <= hi
    ensures from < j ==> from == i + 1
    ensures bars[from..j] == if from < j then bars[i + 1..j] else []
    ensures forall k :: (if from < j then j else i + 1) <= k < |bars| ==> hi < bars[k].date
  {
    assert i + 1 < |bars| ==> bars[i].date < bars[i + 1].date;
    assert i < from < |bars| ==> bars[i].date < bars[from].date;
    assert from < i ==> bars[from].date < bars[i].date;
    forall k | (if from < j then j else i + 1) <= k < |bars| ensures hi < bars[k].date {
      assert bars[i].date < bars[k].date;
    }
  }

  lemma {:induction false} OutcomeIsOn(signal: Signal, bars: seq<DayBar>, strategy: Strategy, maxHold: int, i: nat,
                                       j: nat)
    requires i < j <= |bars|
    requires forall k :: i < k < j ==> bars[k].date <= bars[i].date + 2 * maxHold + 14
    requires forall k :: j <= k < |bars| ==> bars[i].date + 2 * maxHold + 14 < bars[k].date
    ensures var o := OutcomeOn(bars[i], bars[i + 1..j], signal.previousClose, strategy, maxHold);
            && (o.Some? <==> Fills(bars[i].open, strategy.entryType, strategy.limitOffsetPct, signal.previousClose))
            && (o.Some? ==> IsTradeOn(o.value, bars, strategy, maxHold, i, j))
  {
    var o := OutcomeOn(bars[i], bars[i + 1..j], signal.previousClose, strategy, maxHold);
    FillsIff(bars[i].open, strategy.entryType, strategy.limitOffsetPct, signal.previousClose);
    BracketOf(bars[i].open, strategy.stopPct, strategy.riskReward);
    hide ExitOf, EntryFill, Fills, StopPrice, TargetPrice, ResultR;
    if o.Some? {
      var f := o.value.filled;
      ResultScales(f.entry, f.exit.price, f.stop);
    }
  }

  /** No trade looks at its past or beyond its own window: two histories of the ticker that agree from the
      day after the signal to the end of that window give the same trade. */
  lemma {:induction false} TradeSeesOnlyItsWindow(signal: Signal, date: int, a: seq<DayBar>, b: seq<DayBar>,
                                                  strategy: Strategy, maxHold: int, horizon: int)
    requires date + 8 <= horizon && date + 8 + maxHold * 2 + 14 <= horizon
    requires Between(a, date + 1, horizon) == Between(b, date + 1, horizon)
    ensures TradeOf(signal, date, a, strategy, maxHold) == TradeOf(signal, date, b, strategy, maxHold)
  {
    hide OutcomeOn, Between;
    BetweenOfBetween(a, date + 1, date + 8, date + 1, horizon);
    BetweenOfBetween(b, date + 1, date + 8, date + 1, horizon);
    var entryBars := EntryBars(a, date);
    if entryBars != [] {
      var entryDate := entryBars[0].date;
      BetweenOfBetween(a, entryDate + 1, entryDate + maxHold * 2 + 14, date + 1, horizon);
      BetweenOfBetween(b, entryDate + 1, entryDate + maxHold * 2 + 14, date + 1, horizon);
    }
  }

  // ---- the whole run --------------------------------------------------------------------------------

  ghost function DayTrades(signals: seq<Signal>, date: int, market: Market, strategy: Strategy,
                           maxHold: int): seq<Trade> {
    if signals == [] then []
    else DayTrades(signals[..|signals| - 1], date, market, strategy, maxHold)
         + [TradeOf(signals[|signals| - 1], date, market(signals[|signals| - 1].ticker), strategy, maxHold)]
  }

  /** The trades of the days `[start, end)`, in signal order. */
  ghost function AllTrades(signalsOn: int -> seq<Signal>, start: int, end: int, market: Market, strategy: Strategy,
                           maxHold: int): seq<Trade>
    decreases end - start
  {
    if end <= start then []
    else AllTrades(signalsOn, start, end - 1, market, strategy, maxHold)
         + DayTrades(signalsOn(end - 1), end - 1, market, strategy, maxHold)
  }

  lemma {:induction false} NoTradesYet(signalsOn: int -> seq<Signal>, start: int, end: int, market: Market,
                                       strategy: Strategy, maxHold: int)
    ensures AllTrades(signalsOn, start, start, market, strategy, maxHold) == [] && Skipped([]) == OnDataEnd([]) == 0
    ensures end <= start ==> AllTrades(signalsOn, start, end, market, strategy, maxHold) == []
  {
  }

  lemma {:induction false} NextDay(signalsOn: int -> seq<Signal>, start: int, day: int, market: Market,
                                   strategy: Strategy, maxHold: int)
    requires start <= day
    ensures AllTrades(signalsOn, start, day + 1, market, strategy, maxHold)
            == AllTrades(signalsOn, start, day, market, strategy, maxHold)
                + DayTrades(signalsOn(day), day, market, strategy, maxHold)
  {
  }

  ghost function Skipped(trades: seq<Trade>): nat {
    if trades == [] then 0 else Skipped(trades[..|trades| - 1]) + (if trades[|trades| - 1].outcome.None? then 1 else 0)
  }

  ghost function OnDataEnd(trades: seq<Trade>): nat {
    if trades == [] then 0
    else OnDataEnd(trades[..|trades| - 1]) + (if EndsWithData(trades[|trades| - 1]) then 1 else 0)
  }

  /** The signals that became no trade, and the trades left at the end of the data, by position. */
  ghost function NoTrade(trades: seq<Trade>): set<nat> { set i: nat | i < |trades| && trades[i].outcome.None? }

  ghost function LeftAtDataEnd(trades: seq<Trade>): set<nat> {
    set i: nat | i < |trades| && trades[i].outcome.Some? && trades[i].outcome.value.filled.exit.reason.DataEnd?
  }

  lemma {:induction false} CountersAreSizes(trades: seq<Trade>)
    ensures Skipped(trades) == |NoTrade(trades)| && OnDataEnd(trades) == |LeftAtDataEnd(trades)|
  {
    if trades != [] {
      CountersAreSizes(trades[..|trades| - 1]);
      LastCounted(trades);
      hide NoTrade, LeftAtDataEnd;
    }
  }

  lemma {:induction false} LastCounted(trades: seq<Trade>)
    requires trades != []
    ensures var last := |trades| - 1;
            && NoTrade(trades) == NoTrade(trades[..last]) + (if trades[last].outcome.None? then {last} else {})
            && LeftAtDataEnd(trades)
               == LeftAtDataEnd(trades[..last]) + (if EndsWithData(trades[last]) then {last} else {})
            && last !in NoTrade(trades[..last]) && last !in LeftAtDataEnd(trades[..last])
  {
  }

  predicate EndsWithData(t: Trade) {
    t.outcome.Some? && t.outcome.value.filled.exit.reason.DataEnd?
  }

  /** The R results of the trades that were entered. */
  function Results(trades: seq<Trade>): seq<real> {
    if trades == [] then []
    else
      var last := trades[|trades| - 1];
      Results(trades[..|trades| - 1]) + (if last.outcome.Some? then [last.outcome.value.resultR] else [])
  }

  /** Every signal is accounted for exactly once, as a trade or as skipped. */
  lemma {:induction false} EverySignalCounted(trades: seq<Trade>)
    ensures |Results(trades)| + Skipped(trades) == |trades| && OnDataEnd(trades) <= |Results(trades)|
  {
    if trades != [] { EverySignalCounted(trades[..|trades| - 1]); }
  }

  /** None when the strategy's stop percentage is not positive, which the source refuses. */
  method RunBacktest(signalsOn: int -> seq<Signal>, startDate: int, endDate: int, market: Market, strategy: Strategy,
                     maxHold: int)
    returns (r: Option<Result>)
    ensures r.None? <==> strategy.stopPct <= 0.0
    ensures r.Some? ==>
              var trades := AllTrades(signalsOn, startDate, endDate + 1, market, strategy, maxHold);
              && r.value.trades == trades && r.value.totalSignals == |trades|
              && r.value.skippedNoData == |NoTrade(trades)| && r.value.exitedOnDataEnd == |LeftAtDataEnd(trades)|
              && r.value.totalTrades == |trades| - |NoTrade(trades)| == |Results(trades)|
              && BacktestStats.AreStatsOf(r.value.stats, Results(trades))
  {
    if strategy.stopPct <= 0.0 {
      return None;
    }
    hide AllTrades, DayTrades, Skipped, OnDataEnd, NoTrade, LeftAtDataEnd, Results, BacktestStats.AreStatsOf;
    NoTradesYet(signalsOn, startDate, endDate + 1, market, strategy, maxHold);
    var totalSignals, skipped, dataEnd, trades := 0, 0, 0, [];
    var cursor := startDate;
    while cursor <= endDate
      invariant startDate <= cursor && (cursor <= endDate + 1 || cursor == startDate)
      invariant trades == AllTrades(signalsOn, startDate, cursor, market, strategy, maxHold)
      invariant totalSignals == |trades| && skipped == Skipped(trades) && dataEnd == OnDataEnd(trades)
      decreases endDate - cursor
    {
      var signals := signalsOn(cursor);
      totalSignals := totalSignals + |signals|;
      trades, skipped, dataEnd := ReplayDay(trades, skipped, dataEnd, signals, cursor, market, strategy, maxHold);
      NextDay(signalsOn, startDate, cursor, market, strategy, maxHold);
      cursor := cursor + 1;
    }
    EverySignalCounted(trades);
    CountersAreSizes(trades);
    var stats := BacktestStats.ComputeStats(Results(trades));
    return Some(Result(totalSignals, |Results(trades)|, skipped, dataEnd, stats, trades));
  }

  method ReplayDay(before: seq<Trade>, skippedBefore: nat, dataEndBefore: nat, signals: seq<Signal>, date: int,
                   market: Market, strategy: Strategy, maxHold: int)
    returns (trades: seq<Trade>, skipped: nat, dataEnd: nat)
    requires skippedBefore == Skipped(before) && dataEndBefore == OnDataEnd(before)
    ensures trades == before + DayTrades(signals, date, market, strategy, maxHold) && |trades| == |before| + |signals|
    ensures skipped == Skipped(trades) && dataEnd == OnDataEnd(trades)
  {
    hide TradeOf;
    trades, skipped, dataEnd := before, skippedBefore, dataEndBefore;
    for i := 0 to |signals|
      invariant trades == before + DayTrades(signals[..i], date, market, strategy, maxHold) && |trades| == |before| + i
      invariant skipped == Skipped(trades) && dataEnd == OnDataEnd(trades)
    {
      var trade := ReplaySignal(signals[i], date, market(signals[i].ticker), strategy, maxHold);
      assert signals[..i + 1][..i] == signals[..i];
      assert (trades + [trade])[..|trades|] == trades;
      if trade.outcome.None? {
        skipped := skipped + 1;
      }
      if EndsWithData(trade) {
        dataEnd := dataEnd + 1;
      }
      trades := trades + [trade];
    }
    assert signals[..|signals|] == signals;
  }

  method ReplaySignal(signal: Signal, date: int, bars: seq<DayBar>, strategy: Strategy, maxHold: int)
    returns (trade: Trade)
    ensures trade == TradeOf(signal, date, bars, strategy, maxHold)
  {
    var entryBars := EntryBars(bars, date);
    if entryBars == [] {
      return Trade(signal, date, None);
    }
    var entryBar := entryBars[0];
    var later := LaterBars(bars, entryBar.date, maxHold);
    var filled := SimulateTrade(entryBar.open, later, strategy.stopPct, strategy.riskReward, strategy.entryType,
                                strategy.limitOffsetPct, maxHold, signal.previousClose);
    if filled.None? {
      return Trade(signal, date, None);
    }
    var f := filled.value;
    hide ExitOf, StopPrice, TargetPrice, EntryFill;
    ExitDateIsPriceBar(later, entryBar.date, f.entry, f.stop, f.target, maxHold);
    return Trade(signal, date, Some(Completed(entryBar.date, ExitDate(later, entryBar.date, f.exit), f,
                                              ResultR(f.entry, f.exit.price, f.stop))));
  }
}
