/** Replay of one simulated trade over daily bars: stop, target, time stop, or the end of the data. */
module TradeSimulation {
  import opened Options

  datatype DayBar = DayBar(date: int, open: real, high: real, low: real, close: real)

  datatype EntryType = Market | Limit

  datatype ExitReason = StopHit | TargetHit | TimeStop | DataEnd

  datatype Exit = Exit(price: real, reason: ExitReason, hold: nat)

  /** None when there is no fill: the source's "no_entry_bar". */
  datatype Filled = Filled(entry: real, stop: real, target: real, exit: Exit)

  function StopPrice(entry: real, stopPct: real): real { entry - entry * stopPct / 100.0 }

  function TargetPrice(entry: real, stopPct: real, riskReward: real): real {
    entry + entry * stopPct / 100.0 * riskReward
  }

  function EntryFill(open: real, entryType: EntryType, limitOffsetPct: real,
                     previousClose: Option<real>): Option<real> {
    if entryType.Market? then Some(open)
    else if previousClose.None? then None
    else if open > previousClose.value * (1.0 + limitOffsetPct / 100.0) then None
    else Some(open)
  }

  /** A market order always fills at the open; a limit order does just if the open is at most the offset, in percent,
      above a known previous close. */
  ghost predicate Fills(open: real, entryType: EntryType, limitOffsetPct: real, previousClose: Option<real>) {
    entryType.Market?
    || (previousClose.Some? && 100.0 * (open - previousClose.value) <= limitOffsetPct * previousClose.value)
  }

  lemma {:induction false} FillsIff(open: real, entryType: EntryType, limitOffsetPct: real, previousClose: Option<real>)
    ensures EntryFill(open, entryType, limitOffsetPct, previousClose)
            == if Fills(open, entryType, limitOffsetPct, previousClose) then Some(open) else None
  {
    if previousClose.Some? {
      var close := previousClose.value;
      assert close * (1.0 + limitOffsetPct / 100.0) == close + limitOffsetPct * close / 100.0;
    }
  }

  /** The stop is `stopPct` percent of the entry below it, and the target `riskReward` times that far above. */
  ghost predicate Brackets(f: Filled, stopPct: real, riskReward: real) {
    100.0 * (f.entry - f.stop) == stopPct * f.entry && f.target - f.entry == riskReward * (f.entry - f.stop)
  }

  lemma BracketOf(entry: real, stopPct: real, riskReward: real)
    ensures var stop, target := StopPrice(entry, stopPct), TargetPrice(entry, stopPct, riskReward);
            100.0 * (entry - stop) == stopPct * entry && target - entry == riskReward * (entry - stop)
  {
  }

  // ---- what the exit has to be ------------------------------------------------------------------

  predicate Touches(bar: DayBar, stop: real, target: real) {
    bar.low <= stop || bar.high >= target
  }

  /** The least index of a bar that touches either price, or the number of bars. */
  ghost function FirstTouch(bars: seq<DayBar>, stop: real, target: real): (k: nat)
    ensures k <= |bars| && (forall i :: 0 <= i < k ==> !Touches(bars[i], stop, target))
    ensures k < |bars| ==> Touches(bars[k], stop, target)
  {
    if bars == [] then 0
    else
      var k := FirstTouch(bars[..|bars| - 1], stop, target);
      if k < |bars| - 1 || Touches(bars[|bars| - 1], stop, target) then k else k + 1
  }

  /** The loop counts a session before it compares with the limit, so a limit below one acts as one. */
  function Sessions(maxHold: int): nat { if maxHold < 1 then 1 else maxHold }

  /** Touched within the allowed sessions: out at the stop if the bar reached it, else at the target.
      Otherwise out at the next open (the last close if there is no next bar) when the sessions are used up,
      and at the last close when the data ends first. */
  ghost function ExitOf(bars: seq<DayBar>, entry: real, stop: real, target: real, maxHold: int): Exit {
    var k, sessions := FirstTouch(bars, stop, target), Sessions(maxHold);
    if k < |bars| && k < sessions then
      if bars[k].low <= stop then Exit(stop, StopHit, k + 1) else Exit(target, TargetHit, k + 1)
    else if sessions <= |bars| then
      Exit(if sessions < |bars| then bars[sessions].open else bars[sessions - 1].close, TimeStop, sessions)
    else Exit(if bars == [] then entry else bars[|bars| - 1].close, DataEnd, |bars|)
  }

  method SimulateTrade(entryOpen: real, bars: seq<DayBar>, stopPct: real, riskReward: real, entryType: EntryType,
                       limitOffsetPct: real, maxHold: int, previousClose: Option<real>)
    returns (r: Option<Filled>)
    ensures r == match EntryFill(entryOpen, entryType, limitOffsetPct, previousClose)
                 case None => None
                 case Some(entry) =>
                   var stop, target := StopPrice(entry, stopPct), TargetPrice(entry, stopPct, riskReward);
                   Some(Filled(entry, stop, target, ExitOf(bars, entry, stop, target, maxHold)))
    ensures r.Some? <==> Fills(entryOpen, entryType, limitOffsetPct, previousClose)
    ensures r.Some? ==> r.value.entry == entryOpen && Brackets(r.value, stopPct, riskReward)
  {
    var entry := entryOpen;
    FillsIff(entryOpen, entryType, limitOffsetPct, previousClose);
    if entryType.Limit? {
      if previousClose.None? {
        return None;
      }
      var limitPrice := previousClose.value * (1.0 + limitOffsetPct / 100.0);
      if entryOpen > limitPrice {
        return None;
      }
    }
    var stopDistance := entry * stopPct / 100.0;
    var stop := entry - stopDistance;
    var target := entry + stopDistance * riskReward;
    assert stop == StopPrice(entry, stopPct) && target == TargetPrice(entry, stopPct, riskReward);
    BracketOf(entry, stopPct, riskReward);
    hide StopPrice, TargetPrice, ExitOf;
    var exit := WalkBars(bars, entry, stop, target, maxHold);
    return Some(Filled(entry, stop, target, exit));
  }

  method WalkBars(bars: seq<DayBar>, entry: real, stop: real, target: real, maxHold: int) returns (exit: Exit)
    ensures exit == ExitOf(bars, entry, stop, target, maxHold)
  {
    if bars == [] {
      return Exit(entry, DataEnd, 0);
    }
    var hold := 0;
    for i := 0 to |bars|
      invariant hold == i && (i == 0 || i < Sessions(maxHold))
      invariant forall j :: 0 <= j < i ==> !Touches(bars[j], stop, target)
    {
      hold := hold + 1;
      var bar := bars[i];
      if bar.low <= stop {
        return Exit(stop, StopHit, hold);
      }
      if bar.high >= target {
        return Exit(target, TargetHit, hold);
      }
      if hold >= maxHold {
        return Exit(if i + 1 < |bars| then bars[i + 1].open else bar.close, TimeStop, hold);
      }
    }
    return Exit(bars[|bars| - 1].close, DataEnd, hold);
  }

  // ---- no look-ahead ----------------------------------------------------------------------------

  function Take(bars: seq<DayBar>, n: nat): seq<DayBar> { if n <= |bars| then bars[..n] else bars }

  /** Only the first `maxHold + 1` bars can matter: two futures that agree on them give the same trade. */
  lemma {:induction false} NoLookAhead(a: seq<DayBar>, b: seq<DayBar>, entry: real, stop: real, target: real,
                                       maxHold: int)
    requires Take(a, Sessions(maxHold) + 1) == Take(b, Sessions(maxHold) + 1)
    ensures ExitOf(a, entry, stop, target, maxHold) == ExitOf(b, entry, stop, target, maxHold)
  {
    var n := Sessions(maxHold) + 1;
    var j, k := FirstTouch(a, stop, target), FirstTouch(b, stop, target);
    assert forall i :: 0 <= i < n && i < |a| ==> i < |b| && a[i] == Take(a, n)[i] == b[i];
    assert forall i :: 0 <= i < n && i < |b| ==> i < |a| && b[i] == Take(b, n)[i];
    assert j < n && j < |a| ==> k == j;
    assert k < n && k < |b| ==> k == j;
  }

  // ---- stop first is the worst case -----------------------------------------------------------------

  /** Profit in units of the initial risk. */
  function ResultR(entry: real, exitPrice: real, stop: real): real {
    if entry - stop > 0.0 then (exitPrice - entry) / (entry - stop) else 0.0
  }

  /** The result times the risk is the gain. */
  lemma ResultScales(entry: real, exitPrice: real, stop: real)
    ensures entry > stop ==> ResultR(entry, exitPrice, stop) * (entry - stop) == exitPrice - entry
    ensures entry <= stop ==> ResultR(entry, exitPrice, stop) == 0.0
  {
    if entry > stop {
      var risk := entry - stop;
      assert (exitPrice - entry) / risk * risk == exitPrice - entry;
    }
  }

  /** The replay by someone who knows, for every bar touching both prices, which was touched first: bar by bar from
      the `i`-th, out at the price touched first, at the time stop, or at the end of the data. */
  ghost function OracleWalk(bars: seq<DayBar>, i: nat, entry: real, stop: real, target: real, maxHold: int,
                            targetFirst: nat -> bool): Exit
    requires i <= |bars|
    decreases |bars| - i
  {
    if i == |bars| then Exit(if bars == [] then entry else bars[|bars| - 1].close, DataEnd, |bars|)
    else
      var bar := bars[i];
      if bar.low <= stop && bar.high >= target then
        if targetFirst(i) then Exit(target, TargetHit, i + 1) else Exit(stop, StopHit, i + 1)
      else if bar.low <= stop then Exit(stop, StopHit, i + 1)
      else if bar.high >= target then Exit(target, TargetHit, i + 1)
      else if i + 1 >= maxHold then
        Exit(if i + 1 < |bars| then bars[i + 1].open else bar.close, TimeStop, i + 1)
      else OracleWalk(bars, i + 1, entry, stop, target, maxHold, targetFirst)
  }

  /** The bar that ends the replay touches both prices, and the oracle saw the target first. */
  ghost predicate TargetWasFirst(bars: seq<DayBar>, stop: real, target: real, maxHold: int, targetFirst: nat -> bool) {
    var k := FirstTouch(bars, stop, target);
    k < |bars| && k < Sessions(maxHold) && bars[k].low <= stop && bars[k].high >= target && targetFirst(k)
  }

  /** A walk that has touched nothing yet ends where the replay ends, and differs only on such a bar. */
  lemma {:induction false} OracleWalkEnds(bars: seq<DayBar>, i: nat, entry: real, stop: real, target: real,
                                          maxHold: int, targetFirst: nat -> bool)
    requires i <= |bars| && (i == 0 || i < Sessions(maxHold))
    requires forall j :: 0 <= j < i ==> !Touches(bars[j], stop, target)
    ensures var ours, walk := ExitOf(bars, entry, stop, target, maxHold),
                              OracleWalk(bars, i, entry, stop, target, maxHold, targetFirst);
            && walk.hold == ours.hold
            && if TargetWasFirst(bars, stop, target, maxHold, targetFirst)
               then ours.price == stop && walk.price == target else walk == ours
    decreases |bars| - i
  {
    if i < |bars| && !Touches(bars[i], stop, target) && i + 1 < maxHold {
      OracleWalkEnds(bars, i + 1, entry, stop, target, maxHold, targetFirst);
    }
  }

  /** Whatever the true order inside the bars, the trade ends on the same bar and the replay's R is no greater; it is
      smaller exactly when that bar touched both prices, the target first, and the reward is worth more than -1. */
  lemma {:induction false} StopFirstIsWorst(bars: seq<DayBar>, entry: real, stopPct: real, riskReward: real,
                                            maxHold: int, targetFirst: nat -> bool)
    ensures var stop, target := StopPrice(entry, stopPct), TargetPrice(entry, stopPct, riskReward);
            var ours := ExitOf(bars, entry, stop, target, maxHold);
            var truth := OracleWalk(bars, 0, entry, stop, target, maxHold, targetFirst);
            var oursR, truthR := ResultR(entry, ours.price, stop), ResultR(entry, truth.price, stop);
            && ours.hold == truth.hold
            && (riskReward >= -1.0 ==> oursR <= truthR)
            && (oursR < truthR <==>
                  entry > stop && riskReward > -1.0 && TargetWasFirst(bars, stop, target, maxHold, targetFirst))
  {
    var stop, target := StopPrice(entry, stopPct), TargetPrice(entry, stopPct, riskReward);
    ExitR(entry, stopPct, riskReward);
    hide ExitOf, OracleWalk, TargetWasFirst, StopPrice, TargetPrice;
    OracleWalkEnds(bars, 0, entry, stop, target, maxHold, targetFirst);
  }

  lemma ExitR(entry: real, stopPct: real, riskReward: real)
    ensures var stop, target := StopPrice(entry, stopPct), TargetPrice(entry, stopPct, riskReward);
            entry - stop > 0.0 ==> ResultR(entry, stop, stop) == -1.0 && ResultR(entry, target, stop) == riskReward
  {
    var distance := entry * stopPct / 100.0;
    if distance > 0.0 {
      Ratio(riskReward, distance);
      Ratio(-1.0, distance);
    }
  }

  lemma Ratio(x: real, d: real)
    requires d > 0.0
    ensures d * x / d == x
  {
  }

  lemma RatioMonotone(a: real, b: real, d: real)
    requires d > 0.0 && a < b
    ensures a / d < b / d
  {
    assert (a / d) * d == a && (b / d) * d == b;
  }

  /** Next-open exits can gap anywhere; every other exit is worth -1 at the stop, the reward ratio at the
      target, and strictly in between otherwise. */
  lemma {:induction false} ResultWithinBounds(bars: seq<DayBar>, entry: real, stopPct: real, riskReward: real,
                                              maxHold: int)
    requires entry > 0.0 && stopPct > 0.0 && riskReward > 0.0
    requires forall i :: 0 <= i < |bars| ==> bars[i].low <= bars[i].close <= bars[i].high
    ensures var stop, target := StopPrice(entry, stopPct), TargetPrice(entry, stopPct, riskReward);
            var exit := ExitOf(bars, entry, stop, target, maxHold);
            var r := ResultR(entry, exit.price, stop);
            && (exit.reason.StopHit? ==> r == -1.0)
            && (exit.reason.TargetHit? ==> r == riskReward)
            && (exit.reason.DataEnd? || (exit.reason.TimeStop? && exit.hold == |bars|) ==> -1.0 < r < riskReward)
  {
    var distance := entry * stopPct / 100.0;
    assert entry * stopPct > 0.0;
    var stop, target := StopPrice(entry, stopPct), TargetPrice(entry, stopPct, riskReward);
    ExitR(entry, stopPct, riskReward);
    var exit := ExitOf(bars, entry, stop, target, maxHold);
    if exit.reason.DataEnd? || (exit.reason.TimeStop? && exit.hold == |bars|) {
      assert distance * riskReward > 0.0;
      if bars != [] {
        assert !Touches(bars[|bars| - 1], stop, target);
      }
      RatioMonotone(stop - entry, exit.price - entry, distance);
      RatioMonotone(exit.price - entry, target - entry, distance);
    }
  }

  // ---- the date the caller re-derives -----------------------------------------------------------------

  /** The caller's exit date, from the number of sessions held and the reason only. */
  function ExitDate(bars: seq<DayBar>, entryDate: int, exit: Exit): int
    requires exit.hold <= |bars|
  {
    if exit.hold == 0 then entryDate
    else if exit.reason.TimeStop? then
      if exit.hold < |bars| then bars[exit.hold].date else bars[|bars| - 1].date
    else bars[exit.hold - 1].date
  }

  /** A bar that accounts for an exit: its own touch, its open, or its close set the price. */
  ghost predicate SetsPrice(bar: DayBar, exit: Exit, stop: real, target: real) {
    match exit.reason
    case StopHit => bar.low <= stop && exit.price == stop
    case TargetHit => bar.high >= target && bar.low > stop && exit.price == target
    case TimeStop => exit.price == bar.open || exit.price == bar.close
    case DataEnd => exit.price == bar.close
  }

  /** Every index the caller uses is in range, and the date it reads is that of the very bar whose price the
      replay used; with no bars at all the trade is flat on its entry day. */
  lemma {:induction false} ExitDateIsPriceBar(bars: seq<DayBar>, entryDate: int, entry: real, stop: real, target: real,
                                              maxHold: int)
    ensures var exit := ExitOf(bars, entry, stop, target, maxHold);
            && exit.hold <= |bars|
            && (if bars == [] then ExitDate(bars, entryDate, exit) == entryDate && exit.price == entry
                else exists i :: 0 <= i < |bars| && ExitDate(bars, entryDate, exit) == bars[i].date
                                 && SetsPrice(bars[i], exit, stop, target)
                                 && (i == exit.hold - 1
                                     || (exit.reason.TimeStop? && i == exit.hold && exit.price == bars[i].open)))
  {
    var exit := ExitOf(bars, entry, stop, target, maxHold);
    if bars != [] {
      var i := if exit.reason.TimeStop? && exit.hold < |bars| then exit.hold else exit.hold - 1;
      assert SetsPrice(bars[i], exit, stop, target);
    }
  }
}
