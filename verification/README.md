# MarketHawk: models and proofs

MarketHawk is a trading cockpit: it downloads price history, aggregates live ticks, scans, replays strategies
against past signals, and places automatic orders. This project models the parts of it that hold state, loops and
arithmetic, and proves what they promise.

| file | models |
|---|---|
| `Pacing.dfy` | the sliding-window limiter in front of every historical request to Interactive Brokers |
| `ChunkedFetch.dfy`, `Bars.dfy`, `Sorting.dfy` | the backwards chunk walk of a historical download |
| `Pagination.dfy` | the page-by-page download from Polygon |
| `TickRuns.dfy`, `BarAggregator.dfy` | one-minute bars from five-second ticks, streaming against batch |
| `ScannerLoops.dfy` | the coroutines of the live scanner as interleaved steps |
| `TradeSimulation.dfy`, `BacktestStats.dfy`, `Backtest.dfy` | the replay of a strategy, its statistics, the day-by-day run |
| `OrderMachine.dfy`, `Workers.dfy`, `Sizing.dfy` | the life of automatic orders, concurrent workers, position sizes |
| `ProviderHealth.dfy`, `LatencyQuantile.dfy` | rolling health windows in expiring minute buckets, and the 95th percentile |
| `Coverage.dfy` | how much of a history is there, and the quality score and grade |
| `Similarity.dfy`, `Wilson.dfy`, `Roots.dfy` | cosine similarity of embeddings, the Wilson interval of a win rate |

Numbers the program keeps as `float` or `Decimal` are exact reals here, and a square root is a non-negative real with
the right square. Times are whole seconds (milliseconds for Polygon, reals for the pacing clock), calendar days are day
numbers. What the outside world decides is a parameter: what a provider answers, how long a sleep really takes, whether
a broker accepts, which coroutine goes next. A class of the program whose methods update its fields is a class here; its
methods are proved against functions of the old state or of a ghost history, and the properties are lemmas about those
functions. Lemmas about sequences and datatypes switch automatic induction off, so that every inductive step is written
out.

## What turned out different from what the code or its comments suggest

- The step back over an empty chunk is safe exactly when an empty answer goes back at least that far
  (`ChunkedFetch.EmptyDepthNeeded`). Half-hour to four-hour bars are asked for by the month and stepped over by thirty
  days, so an empty February can hide two days of bars (`ChunkedFetch.FebruaryLeavesHole`); with a provider that answers
  calendar durations these are the only unsafe bar sizes (`ChunkedFetch.CalendarSafeIff`). Whatever a provider's empty
  answers mean, the bars stepped over are the only ones missing (`ChunkedFetch.WalkMissesOnlySkipped`).
- A download can lose the bar stamped exactly at its start. `ChunkedFetch.FirstBarSafeIff` says for which store, start,
  end and step that can happen; `ChunkedFetch.FirstBarLost` is a concrete case on one-second bars, and
  `ChunkedFetch.DayRangeKeepsFirstBar` shows that date ranges of coarser bars are safe.
- Newest-first pagination asks next for what it already has. `Pagination.DescendingPagesRightIff` says exactly when the
  result is right all the same.
- The session volume and the elapsed minutes of an emitted bar already count the tick of the next minute
  (`backend/live_scanner/bar_aggregator.py:77-98`), although the fields are documented as the cumulative volume since the
  session start and as minutes, at least one, into the session (lines 30-31). `BarAggregator.EmittedSessionVolumeRightIff`
  and `BarAggregator.ElapsedAtLeastOneIff` say exactly when they are right; `BarAggregator.BoundaryBarIsWrong` is a stream
  of two ticks for which neither is.
- A symbol that stays subscribed can still lose its aggregator, when a watchlist pass drops it and takes it up again
  while the symbols are resubscribed after a reconnect: `ScannerLoops.KeepsAggregatorIff` gives the exact condition,
  `ScannerLoops.AggregatorCanBeReplaced` reaches the state in which it fails, from a disconnect and a reconnect that
  succeeds.
- The Redis lock is not what keeps orders unique: without the table's unique constraint a key has one row in every
  interleaving exactly when it starts with at most one, and either that one is there already, or its strategy has no
  room, or no two workers share the key (`Workers.OneRowPerKeyIff`, with a run in `Workers.LockAloneIsNotEnough`). With
  the constraint, and whatever orders are there already, a strategy's limit holds in every interleaving exactly when it
  has been reached, or leaves room for all distinct keys of the workers that have no order yet
  (`Workers.StrategyLimitHoldsIff`, with a run in `Workers.StrategyLimitCanBeExceeded`).
- Health windows that are no multiple of a minute can miss calls at their far end: `ProviderHealth.WindowSeenIff`.
  `get_provider_health` says it never raises, but divides by zero exactly when the minimum number of calls is not positive
  and there are none (`ProviderHealth.HealthRecord.GetHealth`, `ProviderHealth.NoCallsNoMinimumFails`).
- The coverage of a ticker with bars is never below 55, whatever is missing (`Coverage.CoverageBounds`), so a ticker
  without bad bars is never graded F (`Coverage.GradeBounds`).
- A comment bounds the search for an entry bar to about five calendar days; the code looks at eight
  (`backend/app/services/backtest_service.py:450-455`). The model follows the code.

## Model

| member | source | states |
|---|---|---|
| Pacing.PacingGuard.Wait | backend/app/providers/ibkr.py:110-135 | every call adds one grant at a time between call and return and keeps the whole history on pace; the deque stays within max + 1; a request that may go at once is not delayed, and no call asks for more sleep than is left of the delay and of ten minutes and a second since the max-th last grant; a limit below one fails as the source does |
| Pacing.PacingGuard.Prune | backend/app/providers/ibkr.py:119-122 | drops from the deque exactly what is older than ten minutes, so that the deque stays the recent end of the history |
| Pacing.AtMostMaxPerWindow | backend/app/providers/ibkr.py:95-102 | on a paced history no ten-minute window, wherever it starts, holds more than max grants |
| Pacing.WindowRuleIsPaced | backend/app/providers/ibkr.py:95-102 | conversely, an ascending history with at most max grants in every ten minutes is paced: the invariant asks for nothing more |
| Pacing.PaceExtends | backend/app/providers/ibkr.py:115-135 | the three facts about a new stamp that keep the whole history on pace |
| ChunkedFetch.FetchBarsChunked | backend/app/providers/ibkr.py:554-729 | the loop, for every provider whose answers are windows of the store that end where asked: strictly ascending, unaltered, and exactly the stored bars from the start on in (frontier, end] except those in steps taken over empty answers; nothing is missing if the provider answers calendar durations and the bars are not asked for by the month, and then the result is every stored bar of the dates asked for after the frontier; complete exits have their frontier at or before the start; each request had its own grant of the guard |
| ChunkedFetch.RangeIsAsked | backend/app/providers/ibkr.py:573-592 | the range runs from midnight of the first date, or ten years back, to the last second of the last date, and never into the future |
| ChunkedFetch.RequestChunk | backend/app/providers/ibkr.py:627-721 | one round: what each kind of answer does to the collected bars, the empty count and the next chunk end |
| ChunkedFetch.WalkMissesOnlySkipped | backend/app/providers/ibkr.py:623-721 | at every exit, whatever the depth of the answers, nothing is repeated, altered or out of range, and of the stored bars after the frontier exactly those in the steps taken over empty answers are missing |
| ChunkedFetch.CollectNew | backend/app/providers/ibkr.py:686-708 | keeps of a chunk what is neither seen, nor repeated, nor before the start |
| ChunkedFetch.WalkLeavesNoHole | backend/app/providers/ibkr.py:623-721 | at every exit, with any faithful provider, nothing is missing and nothing repeated after the frontier |
| ChunkedFetch.RoundGoesBack | backend/app/providers/ibkr.py:681-721 | the chunk end falls by at least a second a round, so the walk ends |
| ChunkedFetch.ChunkJoins | backend/app/providers/ibkr.py:686-721 | a non-empty chunk joins on without a gap |
| ChunkedFetch.DownloadIsComplete | backend/app/providers/ibkr.py:597-729 | on a complete exit every stored bar after the start is there; only the bar exactly at the start can be missing |
| ChunkedFetch.FirstBarSafeIff | backend/app/providers/ibkr.py:623-721 | the bar at the start is kept with every faithful provider if and only if no chunk can end on the start: a condition on the dates, the stored bars and the depth of a chunk that is not empty |
| ChunkedFetch.EmptyDepthNeeded | backend/app/providers/ibkr.py:601-615 | every complete exit, of every provider and range, has all bars after the start if and only if empty answers go back at least the step taken over them; nothing is asked of the depth of other answers |
| ChunkedFetch.StepIsSpan | backend/app/providers/ibkr.py:601-615 | for every bar size the step over an empty chunk is the calendar length of the duration asked for, computed from its count and unit, but thirty days for a month |
| ChunkedFetch.ChunkHoldsBars | backend/app/providers/ibkr.py:77-93 | no chunk is for more than 2016 bars; one of bars up to half an hour has room for at least 1344, one of larger bars for 130 to 672 |
| ChunkedFetch.CalendarSafeIff | backend/app/providers/ibkr.py:79-93 | with a provider whose empty answers go back the calendar length of the duration, complete exits have all bars after the start for every range if and only if the bars are not of 30 minutes, 1, 2 or 4 hours |
| ChunkedFetch.FebruaryLeavesHole | backend/app/providers/ibkr.py:603-615 | a provider whose empty month goes back 28 days makes the thirty-day step leave a hole |
| ChunkedFetch.FirstBarLost | backend/app/providers/ibkr.py:719-721 | a concrete download on one-second bars that ends as if complete without its first bar |
| ChunkedFetch.DayRangeKeepsFirstBar | backend/app/providers/ibkr.py:573-592 | a past date range of bars of two seconds or more that divide the day is downloaded with its first bar |
| ChunkedFetch.FiveEmptyMeansEmpty | backend/app/providers/ibkr.py:669-682 | giving up after five empty chunks means the store is empty for five steps back to back |
| Bars.ListingUnique | backend/app/providers/ibkr.py:723-729 | the listing of a stretch of the store is unique, so the download contract pins the result |
| Bars.SortGivesListing | backend/app/providers/ibkr.py:723-724 | sorting the collected bars gives that listing |
| Pagination.GetBars | backend/app/providers/massive.py:162-200 | the loop ends and returns the whole range oldest first when paginating; otherwise the first limit bars of the range in the order asked for, or all of a shorter one |
| Pagination.RangeFromStore | backend/app/providers/massive.py:162-176 | the range consists of exactly the stored bars between its two ends, both included |
| Pagination.AscendingPagesAreTheRange | backend/app/providers/massive.py:168-193 | oldest first, the pages add up to exactly the range, in order, whatever the limit |
| Pagination.RangeResumes | backend/app/providers/massive.py:192-193 | asking again from a millisecond past a bar gives exactly the bars after it |
| Pagination.DescendingPagesRepeat | backend/app/providers/massive.py:168-193 | newest first, a full page is followed by itself without its last bar |
| Pagination.DescendingPagesRightIff | backend/app/providers/massive.py:168-193 | newest first is right exactly when the range does not fill a page, or is one bar asked for singly |
| BarAggregator.Aggregator.constructor | backend/live_scanner/bar_aggregator.py:44-58 | a new aggregator agrees with the empty stream |
| BarAggregator.Aggregator.Update | backend/live_scanner/bar_aggregator.py:64-109 | streaming equals batch: after any stream every emitted bar describes the ticks of its finished minute run: first open, last close, extreme prices, clamped volume, number of ticks, and a VWAP that times the volume is the turnover, or the last close without volume; the fields are the summary of the open run, and the session fields those of the last session |
| BarAggregator.EmittedCoversStretch | backend/live_scanner/bar_aggregator.py:76-133 | unless the market is closed, an emitted bar's session volume is that of the longest stretch of one session that ends with the rolling tick, and its elapsed minutes are one more than those from the first tick of that stretch to the bar |
| BarAggregator.Aggregator.CountSession | backend/live_scanner/bar_aggregator.py:76-90 | resets and counts the session accumulators as the definition over the whole stream says |
| BarAggregator.Aggregator.OpenNewMinute | backend/live_scanner/bar_aggregator.py:115-124 | the fields become the summary of the run of this tick alone |
| BarAggregator.Aggregator.Accumulate | backend/live_scanner/bar_aggregator.py:101-107 | the fields become the summary of the run with this tick |
| BarAggregator.ElapsedAtLeastOneIff | backend/live_scanner/bar_aggregator.py:126-133 | in a stream that never goes back in time, the elapsed minutes of an emitted bar are at least one exactly when the rolling tick opened no session |
| BarAggregator.EmittedSessionVolumeIsAhead | backend/live_scanner/bar_aggregator.py:76-98 | the emitted session volume is ahead by the rolling tick, and at a session start is that tick alone |
| BarAggregator.EmittedSessionVolumeRightIff | backend/live_scanner/bar_aggregator.py:30-30 | the emitted session volume is that of the bar's session up to the bar's end exactly when the rolling tick adds none, or opens a session with the very volume it discards |
| BarAggregator.BoundaryBarIsWrong | backend/live_scanner/bar_aggregator.py:30-31 | a two-tick stream whose emitted bar is 0 minutes into its session, with a session volume of 7 instead of 5 |
| BarAggregator.OpenSessionHasStart | backend/live_scanner/bar_aggregator.py:88-90 | inside a session there is always a recorded start |
| TickRuns.RunsAreMaximal | backend/live_scanner/bar_aggregator.py:94-107 | the split grown tick by tick consists of runs of one minute each that cannot be merged, and is the stream again when joined |
| TickRuns.MaximalSplitIsRuns | backend/live_scanner/bar_aggregator.py:94-107 | there is only one such split |
| TickRuns.CandlesConserveTicks | backend/live_scanner/bar_aggregator.py:82-107 | ticks and clamped volume are conserved |
| TickRuns.VwapIsWeighted | backend/live_scanner/bar_aggregator.py:135-135 | VWAP times volume is the turnover of the minute; without volume it is the last close |
| TickRuns.VwapWithinRange | backend/live_scanner/bar_aggregator.py:135-135 | the unrounded VWAP of a minute lies between its low and its high |
| ScannerLoops.RunKeepsInvariant | backend/live_scanner/main.py:140-237 | at every await of every interleaving the two registers of subscriptions agree, every subscribed symbol has an aggregator, at most the newest reconnect task is unfinished, and a pass just ended leaves exactly the fetched watchlist subscribed |
| ScannerLoops.ReachableIsSound | backend/live_scanner/main.py:316-319 | so that invariant holds of every state reachable from the empty registers the scanner starts with |
| ScannerLoops.LossIsAnswered | backend/live_scanner/main.py:212-224 | every loss, the first or a later one, reported or not, leaves the newest reconnect task running: a new one exactly if all earlier ones were done |
| ScannerLoops.OutageEndsInResubscribing | backend/live_scanner/main.py:173-237 | from any sound state, an outage whose reconnect succeeds has every registered symbol ahead of the process coroutine |
| ScannerLoops.ResubscribeVisitsAll | backend/live_scanner/main.py:226-237 | resubscribing passes over no symbol: each call that returns or raises takes off its own, nothing else touches the rest, and seed data is asked for exactly without an aggregator |
| ScannerLoops.RecoveryIsEarned | backend/live_scanner/main.py:182-191 | a recovery tag is queued exactly when a running reconnect task succeeds, and taken exactly by a recovery |
| ScannerLoops.SeedAskedIffMissing | backend/live_scanner/main.py:158-170 | the sync coroutine unsubscribes only symbols off the watchlist, subscribes only symbols not subscribed, and asks for seed data exactly for those without an aggregator |
| ScannerLoops.KeepsAggregatorIff | backend/live_scanner/main.py:89-134 | a subscribed symbol keeps its very aggregator while it stays subscribed, through any number of reconnects, if and only if the process coroutine is not then awaiting its seed data |
| ScannerLoops.AggregatorCanBeReplaced | backend/live_scanner/main.py:226-232 | a run from the empty registers, through a disconnect, a successful reconnect and two watchlist passes, reaches the state in which a subscribed symbol is about to lose its aggregator |
| ScannerLoops.Scanner.constructor | backend/live_scanner/main.py:316-319 | the shared registers start empty, with both coroutines at their first await and no reconnect task |
| ScannerLoops.Scanner.ReadWatchlist | backend/live_scanner/main.py:156-170 | the sync coroutine from the fetched watchlist to its next await is the step of that name, and keeps the invariant |
| ScannerLoops.Scanner.DropGone | backend/live_scanner/main.py:158-162 | the unsubscribing loop goes to the first listed symbol that has left the watchlist |
| ScannerLoops.Scanner.AddMissing | backend/live_scanner/main.py:164-170 | the subscribing loop goes to the first symbol not subscribed, and asks for seed data only without an aggregator |
| ScannerLoops.Scanner.Unsubscribed | backend/live_scanner/main.py:132-162 | aggregator and both registers lose the symbol in one step, and the loop goes on |
| ScannerLoops.Scanner.Seeded | backend/live_scanner/main.py:98-117 | a new aggregator is installed whether or not there is one by now |
| ScannerLoops.Scanner.Subscribed | backend/live_scanner/main.py:164-170 | both registers gain the symbol in one step, and the loop goes on |
| ScannerLoops.Scanner.GatewayRecovered | backend/live_scanner/main.py:226-237 | resubscribing works through a snapshot of the registered items |
| ScannerLoops.Scanner.ReSeeded | backend/live_scanner/main.py:98-117 | the same installation on the resubscribing side |
| ScannerLoops.Scanner.ReAdded | backend/live_scanner/main.py:228-232 | the next item follows whether the call returned or raised |
| ScannerLoops.Scanner.LossReported | backend/live_scanner/main.py:212-224 | after a loss the newest reconnect task exists and is unfinished; one was added exactly if all were done |
| TradeSimulation.SimulateTrade | backend/app/services/backtest_service.py:118-207 | the replay equals its declarative form: fill, first touching bar within the allowed sessions, else time stop, else end of data; a limit order fills exactly if the open is at most the offset above a known previous close; the stop is stop_pct percent below the open and the target risk_reward times that above |
| TradeSimulation.WalkBars | backend/app/services/backtest_service.py:163-207 | the loop finds the exit that the first touch, the time stop or the end of the data determines |
| TradeSimulation.NoLookAhead | backend/app/services/backtest_service.py:166-203 | only the first max_hold_sessions + 1 bars matter |
| TradeSimulation.StopFirstIsWorst | backend/app/services/backtest_service.py:173-188 | against a bar-by-bar walk that asks an oracle which price came first, for any oracle the trade ends on the same bar and the replay's R is no greater; it is smaller exactly when that bar touched both prices, the target first, and the reward is above -1 |
| TradeSimulation.OracleWalkEnds | backend/app/services/backtest_service.py:163-207 | such a walk ends where the replay ends, with the same price and reason unless the target came first on a bar touching both |
| TradeSimulation.ResultWithinBounds | backend/app/services/backtest_service.py:546-556 | R is -1 at a stop, the reward ratio at a target, and strictly between for every exit at a close |
| TradeSimulation.ExitDateIsPriceBar | backend/app/services/backtest_service.py:512-536 | every index of the caller is in range and the exit date is that of the bar whose price was used |
| BacktestStats.ComputeStats | backend/app/services/backtest_service.py:210-260 | wins and losses are the numbers of positive and negative results, rate and expectancy their shares, profit factor and drawdown what they are defined to be, and all absent for no trades |
| BacktestStats.MaxDrawdown | backend/app/services/backtest_service.py:235-245 | the one-pass drawdown is the largest fall of the equity curve over all pairs of points |
| BacktestStats.DrawdownWithinGrossLoss | backend/app/services/backtest_service.py:221-245 | it is never negative and never deeper than the gross loss |
| BacktestStats.FactorAboveOneIffExpectancyPositive | backend/app/services/backtest_service.py:221-233 | with a loss on the books the profit factor exceeds one exactly when the expectancy is positive; expectancy times trades is profit less loss |
| Backtest.RunBacktest | backend/app/services/backtest_service.py:335-583 | the run yields the declarative trade of every signal of every day in order, the counters are the numbers of trades they speak of, and the statistics are those of their results |
| Backtest.ReplayDay | backend/app/services/backtest_service.py:441-561 | the trades of one day's signals are appended in order with both counters |
| Backtest.ReplaySignal | backend/app/services/backtest_service.py:449-561 | the body of the loop yields the declarative trade of the signal |
| Backtest.TradeDatesInOrder | backend/app/services/backtest_service.py:449-536 | a trade enters within eight days after its signal and leaves later, unless there is no later bar, when it is flat |
| Backtest.TradeIsOnBars | backend/app/services/backtest_service.py:449-561 | on bars in date order a signal becomes a trade exactly if the first bar after it comes within eight days and fills the order; the trade is then entered at that open and replayed on exactly the bars that follow it within twice the holding limit and fourteen days |
| Backtest.BetweenIsStretch | backend/app/services/backtest_service.py:450-498 | on bars in date order a query takes out one contiguous stretch, and every bar in range |
| Backtest.TradeSeesOnlyItsWindow | backend/app/services/backtest_service.py:449-498 | two histories that agree from the day after the signal to the end of the window give the same trade |
| Backtest.EverySignalCounted | backend/app/services/backtest_service.py:439-580 | every signal is counted once, as a trade or as skipped |
| Sizing.QuantityIsLargest | backend/app/services/auto_trade_service.py:566-598 | the quantity is the largest whole number of shares whose stop risk fits the equity budget and whose value fits the cap, with the defaults for unset columns; the recorded risk is what they lose at the stop |
| Sizing.ShareAffordableIff | backend/app/services/auto_trade_service.py:566-598 | with a positive stop percentage there is a share to trade exactly if the terms are usable and one share fits |
| Sizing.StopAndTargetStraddle | backend/app/services/auto_trade_service.py:580-596 | stop and target lie on either side of the entry, the risk is the stop percentage of the entry and the reward the ratio times the risk; a limit price is off the trigger by the offset, above it for a long and below for a short |
| Sizing.GuardNotionalWithinCap | backend/app/providers/ibkr_orders.py:287-304 | the notional the broker guard sees is at most the cap stretched to the target of a long or the stop of a short |
| Sizing.SizedOrderAcceptedIff | backend/app/providers/ibkr_orders.py:282-310 | a sized order passes the guards exactly when the risk buys a share, the quantity is not too large, and neither is its value stretched from the entry to the highest price of the bracket |
| Sizing.CappedOrderAcceptedIff | backend/app/providers/ibkr_orders.py:282-310 | with a cap whose stretch fits the notional limit, only a risk too small for a share or too many shares can be refused |
| OrderMachine.RunKeepsInvariant | backend/app/services/auto_trade_service.py:363-407 | over any serial run of creations, approvals, rejections, cancellations, submissions, fills and deletions: active orders, and non-void orders of any one day by creation or event date, stay within the strategy's limits; keys are unique; a deleted strategy has no active order |
| OrderMachine.CreateKeepsLimits | backend/app/services/auto_trade_service.py:375-405 | the two counts are checked strictly enough for the row about to be added, even over midnight |
| OrderMachine.StatusNeverRevives | backend/app/models/auto_trade_order.py:25-35 | no step makes an order active again, un-voids it, or moves a finished one |
| OrderMachine.RunIsAuditTrail | backend/app/models/auto_trade_order.py:38-44 | a run only adds rows and changes statuses |
| OrderMachine.UnapprovedIsNeverSubmitted | backend/app/routers/auto_trading.py:239-305 | over any run in which nobody approves it, an order that waits for approval only waits, is rejected or cancelled |
| OrderMachine.PositionsOpenByFill | backend/app/tasks/trading.py:127-300 | a position opens only by a fill of a submitted order and closes only by an exit |
| OrderMachine.TradingDesk.MaybeExecute | backend/app/services/auto_trade_service.py:96-209 | creates an order exactly when the strategy is active, a live one has its kill switch on and a cap, its key is free that day, gate, lock, session and quote are there, trades and open positions are below the limits, and one share fits; the row's quantity is the largest that fits the equity budget and the cap, its status what the strategy calls for; the limits are kept |
| OrderMachine.TradingDesk.SubmitToBroker | backend/app/services/auto_trade_service.py:503-547 | the order is submitted if the broker accepts and an error otherwise |
| OrderMachine.TradingDesk.ApproveOrder | backend/app/routers/auto_trading.py:239-255 | moves a waiting order to submitted on paper or to pending otherwise, and nothing else |
| OrderMachine.TradingDesk.RejectOrder | backend/app/routers/auto_trading.py:260-280 | rejects exactly the orders that wait for approval |
| OrderMachine.TradingDesk.CancelOrder | backend/app/services/auto_trade_service.py:797-841 | cancels an active order unless it is at a broker that refuses |
| OrderMachine.TradingDesk.SubmitApprovedOrder | backend/app/tasks/trading.py:93-104 | submits only a pending order, so that a repeated task does not submit twice |
| OrderMachine.TradingDesk.DeleteStrategy | backend/app/routers/auto_trading.py:161-192 | deactivates exactly a strategy without active orders |
| Workers.AtMostOnePerKey | backend/app/services/auto_trade_service.py:115-209 | whatever the interleaving, the lock lapses, the failures and the orders already there: at most one order and at most one bracket per symbol, strategy and date, and no more brackets than rows |
| Workers.RunKeepsAccount | backend/app/services/auto_trade_service.py:170-203 | every bracket sent, and every worker about to send, has a committed row of its own |
| Workers.LockExcludes | backend/app/services/auto_trade_service.py:125-209 | as long as no lock lapses, whatever fails, at most one worker per key is past the lock, the lock is held exactly while one is, and a left-over lock lets nobody past |
| Workers.AloneItPlacesTheOrder | backend/app/services/auto_trade_service.py:96-209 | a worker left alone with its key free and room in its strategy adds its row, sends its bracket if it is to, and gives the lock back |
| Workers.StrategyLimitHoldsIff | backend/app/services/auto_trade_service.py:117-181 | with the constraint, from any table and any locks, a strategy's limit holds in every interleaving if and only if it has been reached or leaves room for every distinct key of the workers without a row; if it does neither and no lock was left over, a run without any lapse fills a row for each such key |
| Workers.OneRowPerKeyIff | backend/app/services/auto_trade_service.py:117-209 | without the constraint, from any table and any locks, a key has at most one row in every interleaving if and only if it starts with at most one, and either that one is there already, or its strategy has no room, or no two workers share the key |
| Workers.LockAloneIsNotEnough | backend/app/services/auto_trade_service.py:117-209 | without the unique constraint a run in which no lock lapses yields two rows and two brackets for one key |
| Workers.StrategyLimitCanBeExceeded | backend/app/services/auto_trade_service.py:123-132 | with the constraint, two workers on different tickers can exceed a strategy's limit |
| ProviderHealth.HealthRecord.constructor | backend/app/core/provider_health.py:36-47 | an empty record agrees with the empty log |
| ProviderHealth.HealthRecord.RecordCall | backend/app/core/provider_health.py:86-116 | every minute bucket keeps agreeing with the raw call log on calls, errors and each latency bucket |
| ProviderHealth.TallyCountsCalls | backend/app/core/provider_health.py:96-116 | what a bucket adds up under calls and errors is the number of calls, and of failed calls, of the log |
| ProviderHealth.HealthRecord.GetHealth | backend/app/core/provider_health.py:224-268 | calls and errors are the numbers of calls and of failed calls in the raw log over the minutes the windows reach, the error rate their quotient, and the percentile the least bucket bound not below the ceil(0.95 n)-th smallest latency, or 60 when it exceeds them all |
| ProviderHealth.NoCallsNoMinimumFails | backend/app/core/provider_health.py:265-266 | without a recorded call the error rate is a division by zero exactly when the minimum is not positive |
| ProviderHealth.HealthRecord.SumBuckets | backend/app/core/provider_health.py:233-264 | the loop over the buckets sums what the raw log holds |
| ProviderHealth.HealthRecord.InWindowBucketIsLive | backend/app/core/provider_health.py:100-113 | expiry never drops a bucket that a snapshot still counts |
| ProviderHealth.WindowSeenIff | backend/app/core/provider_health.py:233-235 | the buckets see a whole window, for every log and moment, exactly when the longest window in whole minutes covers it |
| LatencyQuantile.P95FromBuckets | backend/app/core/provider_health.py:179-198 | for any latencies filed in the buckets, the value read is the least bound not below the ceil(0.95 n)-th smallest of them, or 60 when it exceeds every bound; nothing from an empty histogram |
| LatencyQuantile.Bucket | backend/app/core/provider_health.py:62-66 | a latency is filed under the first bound that holds it |
| LatencyQuantile.QuantileIsRight | backend/app/core/provider_health.py:179-198 | for any latencies the bucket read is that of the ceil(0.95 n)-th smallest |
| LatencyQuantile.KthSmallestExists | backend/app/core/provider_health.py:179-198 | that latency exists for every non-empty collection |
| Coverage.GroupByDate | backend/app/services/data_quality.py:117-119 | one entry per date with bars, holding their number |
| Coverage.DaysHoldEveryBar | backend/app/services/data_quality.py:117-119 | the grouping loses no bar and counts none twice |
| Coverage.P90IsRank | backend/app/services/data_quality.py:121-123 | the yardstick is the count of some day, fewer than a tenth of the days exceed it and at least a tenth reach it |
| Coverage.EstimateExpectedBars | backend/app/services/data_quality.py:62-186 | expected bars and day counts are those of the classification of each day, and the stored partial days are the first thirty, worst first |
| Coverage.WorstAreWorst | backend/app/services/data_quality.py:174-184 | the stored partial days descend by shortfall, are at most thirty, and none left out lacks more than any of them |
| Coverage.KindsPartitionDays | backend/app/services/data_quality.py:127-172 | full, stub, partial and holiday days partition the dates, and stocks have only full and holiday days |
| Coverage.DayExpectation | backend/app/services/data_quality.py:127-172 | a day is expected to hold nothing on a full close, its own bars on a short session, for a stock or below half the yardstick, and the yardstick otherwise |
| Coverage.ExpectedBalances | backend/app/services/data_quality.py:133-172 | expected plus surplus plus closed-day bars equals actual plus shortfall |
| Coverage.CoverageBounds | backend/app/services/data_quality.py:287-292 | coverage of any non-empty bar set is between 55 and 100, is 100 exactly when surplus and closed-day bars make up for the shortfall, and always for stocks; below 100 it is the actual bars as a percentage of the expected |
| Coverage.FiftyFiveIsAttained | backend/app/services/data_quality.py:117-186 | ten futures days that reach the lower bound |
| Coverage.CountBadBars | backend/app/services/data_quality.py:294-312 | counts the bars that fail the sanity conditions |
| Coverage.BadBars | backend/app/services/data_quality.py:301-311 | none fails exactly when all prices are positive with the low lowest and the high highest |
| Coverage.GradeBounds | backend/app/services/data_quality.py:286-328 | scores stay within 33 and 100, a ticker without bad bars is never graded F nor without gaps below C, and an F takes more than 13 bad bars in 30 |
| Coverage.ScoreCosts | backend/app/services/data_quality.py:313-328 | bad bars cost thirty points times their share, each gap up to the twentieth half a point, and a point of coverage is worth six tenths |
| Coverage.CleanGrades | backend/app/services/data_quality.py:325-328 | without bad bars and gaps the grade is A from 275 thirds of coverage on, B from 75, and C otherwise |
| Coverage.UniverseScore | backend/app/services/data_quality.py:493-509 | the overall score times the total weight is the weighted sum, and zero without bars |
| Coverage.OverallWithinScores | backend/app/services/data_quality.py:493-509 | the overall score lies within any bounds on the scores of the tickers that have bars |
| Similarity.CauchySchwarz | backend/app/services/embedding_service.py:179-186 | the inner product stays within the product of the norms and reaches it only for vectors of one direction |
| Similarity.SimilarityWithinOne | backend/app/services/embedding_service.py:179-186 | similarity lies in [-1, 1] for all vectors, times both norms is the inner product, is 1 exactly for non-zero vectors of one length and direction, and 0 for vectors of different length or a zero vector |
| Similarity.SimilarToItself | backend/app/services/embedding_service.py:179-186 | a non-zero vector has similarity 1 with itself |
| Similarity.NormalizedHasUnitNorm | backend/app/services/embedding_service.py:189-193 | normalising gives norm one, unless all entries are zero, when it changes nothing |
| Similarity.NormalizingKeepsSimilarity | backend/app/services/embedding_service.py:179-193 | similarity does not change when a vector is normalised |
| Wilson.IntervalIsPlausible | backend/app/services/explanation_trait_performance.py:243-254 | the interval consists of exactly the rates within 1.96 standard errors of the observed one, the definition of the score interval |
| Wilson.IntervalHoldsRate | backend/app/services/explanation_trait_performance.py:243-254 | for every sample 0 <= lower <= rate <= upper <= 1, with 0 only without a success and 1 only without a failure |
| Wilson.IntervalMirrors | backend/app/services/explanation_trait_performance.py:243-254 | counting failures instead of successes mirrors the interval |
| Wilson.SpreadIsPositive | backend/app/services/explanation_trait_performance.py:250-250 | the square root is always taken of a positive number |

## Left out

- Network, Interactive Brokers, Polygon, Redis and SQL calls: only their answers, as parameters or abstract stores.
- Connection back-off, the pause of health writes after a Redis failure, partially executed pipelines, the merging of breaker states, logging, metrics, WebSocket and push delivery.
- Floating-point rounding, the rounding of reported values, time zones, calendar and date parsing.
- Concurrent callers of the pacing guard: the provider keeps one request open.
- The upper bound Polygon puts on a page, and the errors its client raises.
- The gap detection and the report fields that are copied through.
- session_for_ts, the quality gate, the trigger price, the side and the account equity: parameters of the steps that use them.
- OrderMachine.RunKeepsInvariant: the endpoint that updates a strategy (backend/app/routers/auto_trading.py:53-70, 138-157) is not a step of the run; it can lower the limits, or switch a strategy off while it has active orders, so limits and the clause about deleted strategies are those of a run without it.
- Brackets sent by the task for approved orders: serial steps of OrderMachine only.
- A process that dies between committing an order and its next commit leaves the status as committed; the serial model takes a creation as one step.
- Fill polling beyond its status changes, simulated paper exits, the trade journal, slippage arithmetic.
- Placement and cancellation of the three legs of a bracket at the broker.
- Mean and median holding times.
- The queue bound, the watchdog, and bar and quote messages of the live scanner, which change none of the shared registers.
- The order of semantic search results, the hash embedding, trait aggregation and confidence buckets.
- Frontend, schemas, most routers, LLM and narrative services, indicators, migrations: they would add only easy members.
