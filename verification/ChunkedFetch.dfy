/** The backwards chunk walk of the IBKR provider.

    Times are whole seconds.  The environment answers each request as it likes: it may lose the
    connection, time out, fail, or return every stored bar of a window `(reach, end]`.  For completeness only
    the window of an empty chunk has to be as deep as the step the walk takes back over it. */
module ChunkedFetch {
  import opened Bars
  import opened Options
  import opened Sorting
  import Pacing

  const DAY := 86400
  const MAX_CONSECUTIVE_EMPTY: nat := 5

  datatype Reply = TimedOut | Failed | Chunk(bars: seq<Bar>)

  /** What round `n` meets when it asks for the chunk that ends at `end`. */
  datatype Environment = Environment(
    connected: nat -> bool,
    reply: (nat, int) -> Reply,
    ghost reach: (nat, int) -> int,
    ghost depth: nat   // how far back a chunk that is not empty goes at least
  )

  /** What comes back is exactly what is stored in some window that ends where the request asked. */
  ghost predicate Honest(env: Environment, store: Store) {
    forall n: nat, end: int :: env.reply(n, end).Chunk? ==>
      var bars := env.reply(n, end).bars;
      IsWindow(bars, store, if bars == [] then 0 else env.depth, env.reach(n, end), end)
  }

  /** And the window of an empty chunk goes back at least `back` seconds. */
  ghost predicate Faithful(env: Environment, store: Store, back: nat) {
    && Honest(env, store)
    && forall n: nat, end: int :: env.reply(n, end) == Chunk([]) ==> env.reach(n, end) <= end - back
  }

  /** Any order and any repetition, but exactly the stored bars of `(lo, hi]`, with `lo` at least `back` before `hi`. */
  ghost predicate IsWindow(bars: seq<Bar>, store: Store, back: nat, lo: int, hi: int) {
    lo <= hi - back && FromStore(bars, store) && Stamps(bars) == Stored(store, lo, hi)
  }

  datatype Exit =
    | NotConnected        // no connection to start with
    | LostConnection
    | RequestTimedOut
    | RequestFailed
    | FiveEmptyChunks
    | NothingNew          // every bar of the chunk was seen before or precedes the start
    | OldestAtStart       // the chunk held the bar at the start
    | ReachedStart        // the loop guard: the next chunk would end at or before the start

  predicate Complete(exit: Exit) {
    exit.NothingNew? || exit.OldestAtStart? || exit.ReachedStart?
  }

  // ---- the date range and the step ------------------------------------------------------------

  function EndOfRange(toDate: Option<int>, now: int): int {
    if toDate.Some? then (if toDate.value + DAY - 1 <= now then toDate.value + DAY - 1 else now) else now
  }

  function StartOfRange(fromDate: Option<int>, end: int): int {
    if fromDate.Some? then fromDate.value else end - 3650 * DAY
  }

  function MaxDuration(barSize: string): string {
    if barSize == "1 secs" then "1800 S"
    else if barSize == "5 secs" then "7200 S"
    else if barSize == "1 min" then "1 D"
    else if barSize == "2 mins" then "2 D"
    else if barSize == "5 mins" then "1 W"
    else if barSize == "15 mins" then "2 W"
    else if barSize == "30 mins" then "1 M"
    else if barSize == "1 hour" then "1 M"
    else if barSize == "2 hours" then "1 M"
    else if barSize == "4 hours" then "1 M"
    else if barSize == "1 day" then "1 Y"
    else if barSize == "1 week" then "5 Y"
    else if barSize == "1 month" then "10 Y"
    else "1 Y"
  }

  function EmptyStep(duration: string): nat {
    if duration == "1800 S" then 1800
    else if duration == "7200 S" then 7200
    else if duration == "1 D" then DAY
    else if duration == "2 D" then 2 * DAY
    else if duration == "1 W" then 7 * DAY
    else if duration == "2 W" then 14 * DAY
    else if duration == "1 M" then 30 * DAY
    else if duration == "1 Y" then 365 * DAY
    else if duration == "5 Y" then 5 * 365 * DAY
    else if duration == "10 Y" then 10 * 365 * DAY
    else DAY
  }

  // ---- what durations mean ----------------------------------------------------------------------

  function Decimal(digits: string): nat {
    if digits == "" then 0
    else
      var last := digits[|digits| - 1];
      10 * Decimal(digits[..|digits| - 1]) + if '0' <= last <= '9' then (last - '0') as int else 0
  }

  /** Seconds, days, weeks, months of February, years. */
  function UnitSeconds(unit: char): nat {
    match unit
    case 'S' => 1
    case 'D' => 86400
    case 'W' => 7 * 86400
    case 'M' => 28 * 86400
    case 'Y' => 365 * 86400
    case _ => 0
  }

  /** The shortest time on the calendar that a duration of so many units, such as "2 W", can mean. */
  function CalendarSpan(duration: string): nat {
    if |duration| < 2 then 0 else Decimal(duration[..|duration| - 2]) * UnitSeconds(duration[|duration| - 1])
  }

  /** The bar sizes that are asked for by the month. */
  predicate ByTheMonth(barSize: string) { barSize in ["30 mins", "1 hour", "2 hours", "4 hours"] }

  lemma {:induction false} OneDigit(digits: string, last: char)
    ensures Decimal(digits + [last]) == 10 * Decimal(digits) + if '0' <= last <= '9' then (last - '0') as int else 0
  {
    assert (digits + [last])[..|digits|] == digits;
  }

  lemma {:induction false} Spans(digits: string, unit: char)
    ensures CalendarSpan(digits + [' ', unit]) == Decimal(digits) * UnitSeconds(unit)
  {
    var duration := digits + [' ', unit];
    assert duration[..|duration| - 2] == digits;
  }

  lemma SmallNumbers()
    ensures Decimal("1") == 1 && Decimal("2") == 2 && Decimal("5") == 5 && Decimal("7") == 7
  {
    assert Decimal("") == 0;
    hide Decimal;
    OneDigit("", '1');
    OneDigit("", '2');
    OneDigit("", '5');
    OneDigit("", '7');
    assert "" + ['1'] == "1" && "" + ['2'] == "2" && "" + ['5'] == "5" && "" + ['7'] == "7";
  }

  lemma LargerNumbers()
    ensures Decimal("10") == 10 && Decimal("1800") == 1800 && Decimal("7200") == 7200
  {
    hide Decimal;
    SmallNumbers();
    OneDigit("1", '0');
    OneDigit("1", '8');
    OneDigit("7", '2');
    assert "1" + ['0'] == "10" && "1" + ['8'] == "18" && "7" + ['2'] == "72";
    Hundred("18");
    Hundred("72");
    assert "18" + ['0', '0'] == "1800" && "72" + ['0', '0'] == "7200";
  }

  lemma {:induction false} Hundred(digits: string)
    ensures Decimal(digits + ['0', '0']) == 100 * Decimal(digits)
  {
    hide Decimal;
    OneDigit(digits, '0');
    OneDigit(digits + ['0'], '0');
    assert digits + ['0', '0'] == digits + ['0'] + ['0'];
  }

  /** The spans of the durations that are asked for. */
  lemma DurationSpans()
    ensures CalendarSpan("1800 S") == 1800 && CalendarSpan("7200 S") == 7200
    ensures CalendarSpan("1 D") == 86400 && CalendarSpan("2 D") == 2 * 86400
    ensures CalendarSpan("1 W") == 7 * 86400 && CalendarSpan("2 W") == 14 * 86400
    ensures CalendarSpan("1 M") == 28 * 86400
    ensures CalendarSpan("1 Y") == 365 * 86400 && CalendarSpan("5 Y") == 5 * 365 * 86400
    ensures CalendarSpan("10 Y") == 10 * 365 * 86400
  {
    SmallNumbers();
    LargerNumbers();
    Spans("1800", 'S');
    Spans("7200", 'S');
    Spans("1", 'D');
    Spans("2", 'D');
    Spans("1", 'W');
    Spans("2", 'W');
    Spans("1", 'M');
    Spans("1", 'Y');
    Spans("5", 'Y');
    Spans("10", 'Y');
    hide Decimal, CalendarSpan;
    assert "1800" + [' ', 'S'] == "1800 S" && "7200" + [' ', 'S'] == "7200 S";
    assert "1" + [' ', 'D'] == "1 D" && "2" + [' ', 'D'] == "2 D" && "1" + [' ', 'W'] == "1 W";
    assert "2" + [' ', 'W'] == "2 W" && "1" + [' ', 'M'] == "1 M" && "1" + [' ', 'Y'] == "1 Y";
    assert "5" + [' ', 'Y'] == "5 Y" && "10" + [' ', 'Y'] == "10 Y";
  }

  /** The step back over an empty chunk is exactly the span of the duration asked for, but for months, which it takes to
      be of thirty days. */
  lemma StepIsSpan(barSize: string)
    ensures var duration := MaxDuration(barSize);
            EmptyStep(duration) == if ByTheMonth(barSize) then 30 * 86400 else CalendarSpan(duration)
    ensures ByTheMonth(barSize) ==> CalendarSpan(MaxDuration(barSize)) == 28 * 86400
  {
    DurationSpans();
    hide CalendarSpan;
  }

  function BarSeconds(barSize: string): nat {
    if barSize == "1 secs" then 1
    else if barSize == "5 secs" then 5
    else if barSize == "1 min" then 60
    else if barSize == "2 mins" then 120
    else if barSize == "5 mins" then 300
    else if barSize == "15 mins" then 900
    else if barSize == "30 mins" then 1800
    else if barSize == "1 hour" then 3600
    else if barSize == "2 hours" then 7200
    else if barSize == "4 hours" then 14400
    else if barSize == "1 day" then 86400
    else if barSize == "1 week" then 7 * 86400
    else if barSize == "1 month" then 28 * 86400
    else 0
  }

  /** No request is for more than 2016 bars: a chunk of half-hour or smaller bars has room for at least 1344 of them,
      and one of larger bars for 130 to 672. */
  lemma ChunkHoldsBars(barSize: string)
    ensures var bar, chunk := BarSeconds(barSize), CalendarSpan(MaxDuration(barSize));
            if bar <= 1800 then 1344 * bar <= chunk && (bar > 0 ==> chunk <= 2016 * bar)
            else 130 * bar <= chunk <= 672 * bar
  {
    DurationSpans();
    hide CalendarSpan;
  }

  // ---- the walk as a function ------------------------------------------------------------------

  /** The bars of a chunk that are neither seen before, nor repeated, nor before the start. */
  ghost function NewBars(bars: seq<Bar>, seen: set<int>, start: int): (r: seq<Bar>) {
    if bars == [] then []
    else
      var r, b := NewBars(bars[..|bars| - 1], seen, start), bars[|bars| - 1];
      if b.ts in seen || (exists i :: 0 <= i < |r| && r[i].ts == b.ts) || b.ts < start then r else r + [b]
  }

  function Oldest(bars: seq<Bar>): (t: int)
    requires bars != []
    ensures exists i :: 0 <= i < |bars| && bars[i].ts == t
    ensures forall i :: 0 <= i < |bars| ==> t <= bars[i].ts
  {
    if |bars| == 1 then bars[0].ts
    else
      var t := Oldest(bars[..|bars| - 1]);
      if bars[|bars| - 1].ts < t then bars[|bars| - 1].ts else t
  }

  /** How a walk ended: the bars in the order collected, why it stopped, and the instant after which
      nothing of the range is missing. */
  datatype Outcome = Outcome(got: seq<Bar>, exit: Exit, frontier: int)

  datatype RoundResult = Stop(outcome: Outcome) | GoOn(chunkEnd: int, empties: nat, got: seq<Bar>)

  /** One round of the loop, after its guard. */
  ghost function Round(env: Environment, start: int, step: nat, chunkEnd: int, empties: nat, round: nat,
                       got: seq<Bar>): RoundResult {
    if !env.connected(round) then Stop(Outcome(got, LostConnection, chunkEnd))
    else
      match env.reply(round, chunkEnd)
      case TimedOut => Stop(Outcome(got, RequestTimedOut, chunkEnd))
      case Failed => Stop(Outcome(got, RequestFailed, chunkEnd))
      case Chunk(bars) =>
        if bars == [] then
          if empties + 1 >= MAX_CONSECUTIVE_EMPTY then Stop(Outcome(got, FiveEmptyChunks, chunkEnd))
          else GoOn(chunkEnd - step, empties + 1, got)
        else
          var added := NewBars(bars, Stamps(got), start);
          if added == [] then Stop(Outcome(got, NothingNew, start - 1))
          else if Oldest(added) <= start then Stop(Outcome(got + added, OldestAtStart, start - 1))
          else GoOn(Oldest(added) - 1, 0, got + added)
  }

  ghost function Walk(env: Environment, store: Store, start: int, step: nat,
                      chunkEnd: int, empties: nat, round: nat, got: seq<Bar>): Outcome
    requires step >= 1 && Honest(env, store)
    decreases chunkEnd - start
  {
    if chunkEnd <= start then Outcome(got, ReachedStart, chunkEnd)
    else
      match Round(env, start, step, chunkEnd, empties, round, got)
      case Stop(outcome) => outcome
      case GoOn(next, empties', got') =>
        RoundGoesBack(env, store, start, step, chunkEnd, empties, round, got);
        Walk(env, store, start, step, next, empties', round + 1, got')
  }

  /** The chunk end falls at least a second a round, so the walk ends. */
  lemma {:induction false} RoundGoesBack(env: Environment, store: Store, start: int, step: nat, chunkEnd: int,
                                         empties: nat, round: nat, got: seq<Bar>)
    requires step >= 1 && Honest(env, store)
    ensures var r := Round(env, start, step, chunkEnd, empties, round, got);
            r.GoOn? ==> r.chunkEnd <= chunkEnd - 1
  {
    var r := Round(env, start, step, chunkEnd, empties, round, got);
    if r.GoOn? && env.reply(round, chunkEnd).bars != [] {
      var bars := env.reply(round, chunkEnd).bars;
      assert IsWindow(bars, store, env.depth, env.reach(round, chunkEnd), chunkEnd);
      NewBarsExactly(bars, Stamps(got), start, store);
      assert Oldest(NewBars(bars, Stamps(got), start)) in Stamps(NewBars(bars, Stamps(got), start));
    }
  }

  lemma {:induction false} NewBarsFromStore(bars: seq<Bar>, seen: set<int>, start: int, store: Store)
    requires FromStore(bars, store)
    ensures var r := NewBars(bars, seen, start);
            Distinct(r) && FromStore(r, store)
  {
    if bars != [] { NewBarsFromStore(bars[..|bars| - 1], seen, start, store); }
  }

  ghost function NewStamps(bars: seq<Bar>, seen: set<int>, start: int): set<int> {
    set t | t in Stamps(bars) && t !in seen && start <= t
  }

  lemma {:induction false} NewBarsStamps(bars: seq<Bar>, seen: set<int>, start: int)
    ensures Stamps(NewBars(bars, seen, start)) == NewStamps(bars, seen, start)
  {
    if bars == [] {
      StampsEmptyIff([]);
    } else {
      var init, b := bars[..|bars| - 1], bars[|bars| - 1];
      NewBarsStamps(init, seen, start);
      var p := NewBars(init, seen, start);
      assert bars == init + [b];
      OneMoreBar(init, b, seen, start, p);
    }
  }

  lemma {:induction false} OneMoreBar(init: seq<Bar>, b: Bar, seen: set<int>, start: int, p: seq<Bar>)
    requires Stamps(p) == NewStamps(init, seen, start)
    ensures (exists i :: 0 <= i < |p| && p[i].ts == b.ts) <==> b.ts in Stamps(p)
    ensures Stamps(if b.ts in seen || b.ts in Stamps(p) || b.ts < start then p else p + [b])
            == NewStamps(init + [b], seen, start)
  {
    StampsOfOne(b);
    StampsOfConcat(init, [b]);
    StampsOfConcat(p, [b]);
    assert (exists i :: 0 <= i < |p| && p[i].ts == b.ts) <==> b.ts in Stamps(p);
    hide Stamps;
  }

  lemma {:induction false} NewBarsExactly(bars: seq<Bar>, seen: set<int>, start: int, store: Store)
    requires FromStore(bars, store)
    ensures var r := NewBars(bars, seen, start);
            Distinct(r) && FromStore(r, store) && Stamps(r) == NewStamps(bars, seen, start)
  {
    hide NewBars, Distinct, FromStore, Stamps, NewStamps;
    NewBarsFromStore(bars, seen, start, store);
    NewBarsStamps(bars, seen, start);
  }

  // ---- what a walk has collected --------------------------------------------------------------

  function Max(a: int, b: int): int { if a < b then b else a }

  /** `got` holds, once each and unaltered, every stored bar at or after the start in `(frontier, end]`, but none of
      those at `skipped`. */
  ghost predicate CollectedBut(got: seq<Bar>, store: Store, start: int, frontier: int, end: int, skipped: set<int>) {
    && Distinct(got) && FromStore(got, store)
    && Stamps(got) == Stored(store, Max(start - 1, frontier), end) - skipped
    && forall t <- skipped :: frontier < t
  }

  ghost predicate Collected(got: seq<Bar>, store: Store, start: int, frontier: int, end: int) {
    CollectedBut(got, store, start, frontier, end, {})
  }

  /** What is new in a chunk is what the store holds in its window from the start on. */
  lemma {:induction false} NewInWindow(bars: seq<Bar>, store: Store, start: int, depth: nat, lo: int, chunkEnd: int,
                                       got: seq<Bar>, end: int, skipped: set<int>)
    requires IsWindow(bars, store, depth, lo, chunkEnd)
    requires CollectedBut(got, store, start, chunkEnd, end, skipped) && start < chunkEnd
    ensures NewStamps(bars, Stamps(got), start) == Stored(store, Max(start - 1, lo), chunkEnd)
    ensures bars != [] ==> lo < chunkEnd
  {
    hide Stamps, Distinct, FromStore;
    if bars != [] {
      StampsEmptyIff(bars);
    }
  }

  lemma {:induction false} JoinsBelow(got: seq<Bar>, added: seq<Bar>, store: Store, start: int, bottom: int,
                                      chunkEnd: int, end: int, skipped: set<int>)
    requires CollectedBut(got, store, start, chunkEnd, end, skipped)
    requires Distinct(added) && FromStore(added, store) && Stamps(added) == Stored(store, bottom, chunkEnd)
    requires start - 1 <= bottom < chunkEnd <= end && start < chunkEnd
    ensures CollectedBut(got + added, store, start, bottom, end, skipped)
  {
    StampsOfConcat(got, added);
    forall i, j | 0 <= i < |got| && 0 <= j < |added| ensures got[i].ts != added[j].ts {
      assert got[i].ts in Stamps(got) && added[j].ts in Stamps(added);
    }
    hide Stamps;
    assert Stored(store, Max(start - 1, bottom), end) - skipped
           == (Stored(store, Max(start - 1, chunkEnd), end) - skipped) + Stored(store, bottom, chunkEnd);
  }

  lemma {:induction false} OldestBounds(added: seq<Bar>, store: Store, lo: int, hi: int)
    requires added != [] && Stamps(added) == Stored(store, lo, hi)
    ensures lo < Oldest(added) <= hi && Stored(store, lo, hi) == Stored(store, Oldest(added) - 1, hi)
  {
    var oldest := Oldest(added);
    assert oldest in Stamps(added);
    forall t | t in Stamps(added) ensures oldest <= t {}
  }

  /** A non-empty chunk joins on without a gap: what was collected now reaches down past its oldest new bar. */
  lemma {:induction false} ChunkJoins(bars: seq<Bar>, store: Store, start: int, depth: nat, lo: int, chunkEnd: int,
                                      got: seq<Bar>, end: int, skipped: set<int>)
    requires bars != [] && IsWindow(bars, store, depth, lo, chunkEnd)
    requires CollectedBut(got, store, start, chunkEnd, end, skipped) && start < chunkEnd <= end
    ensures var added := NewBars(bars, Stamps(got), start);
            if added == [] then CollectedBut(got, store, start, start - 1, end, skipped)
            else start <= Oldest(added) <= chunkEnd
                 && CollectedBut(got + added, store, start, Oldest(added) - 1, end, skipped)
  {
    var added := NewBars(bars, Stamps(got), start);
    assert FromStore(bars, store);
    NewBarsExactly(bars, Stamps(got), start, store);
    NewInWindow(bars, store, start, depth, lo, chunkEnd, got, end, skipped);
    assert Stamps(bars) == Stored(store, lo, chunkEnd);
    hide NewBars, NewStamps, CollectedBut, Distinct, FromStore, IsWindow, Stored;
    if added == [] {
      StampsEmptyIff(added);
      OnlyBeforeStart(bars, store, start, lo, chunkEnd);
      hide Stamps;
      JoinsBelow(got, added, store, start, start - 1, chunkEnd, end, skipped);
      assert got + added == got;
    } else {
      hide Stamps;
      OldestBounds(added, store, Max(start - 1, lo), chunkEnd);
      JoinsBelow(got, added, store, start, Oldest(added) - 1, chunkEnd, end, skipped);
    }
  }

  /** If a window with bars has none from the start on, it goes back past the start. */
  lemma {:induction false} OnlyBeforeStart(bars: seq<Bar>, store: Store, start: int, lo: int, chunkEnd: int)
    requires bars != [] && Stamps(bars) == Stored(store, lo, chunkEnd)
    requires Stored(store, Max(start - 1, lo), chunkEnd) == {}
    ensures Stored(store, start - 1, chunkEnd) == {}
  {
    assert bars[0].ts in Stored(store, lo, chunkEnd);
    assert bars[0].ts !in Stored(store, Max(start - 1, lo), chunkEnd);
  }

  /** What the step back over an empty answer passes over. */
  ghost function SteppedOver(env: Environment, store: Store, step: nat, chunkEnd: int, round: nat): set<int> {
    if env.connected(round) && env.reply(round, chunkEnd) == Chunk([]) then Stored(store, chunkEnd - step, chunkEnd)
    else {}
  }

  /** What the steps of a whole walk pass over. */
  ghost function Skipped(env: Environment, store: Store, start: int, step: nat,
                         chunkEnd: int, empties: nat, round: nat, got: seq<Bar>): set<int>
    requires step >= 1 && Honest(env, store)
    decreases chunkEnd - start
  {
    if chunkEnd <= start then {}
    else
      match Round(env, start, step, chunkEnd, empties, round, got)
      case Stop(_) => {}
      case GoOn(next, empties', got') =>
        RoundGoesBack(env, store, start, step, chunkEnd, empties, round, got);
        SteppedOver(env, store, step, chunkEnd, round)
        + Skipped(env, store, start, step, next, empties', round + 1, got')
  }

  lemma {:induction false} StepsOver(store: Store, start: int, chunkEnd: int, step: nat, got: seq<Bar>, end: int,
                                     skipped: set<int>)
    requires CollectedBut(got, store, start, chunkEnd, end, skipped) && chunkEnd <= end
    ensures CollectedBut(got, store, start, chunkEnd - step, end, skipped + Stored(store, chunkEnd - step, chunkEnd))
  {
    assert Stored(store, Max(start - 1, chunkEnd - step), end)
           <= Stored(store, Max(start - 1, chunkEnd), end) + Stored(store, chunkEnd - step, chunkEnd);
  }

  /** A complete exit has its frontier at or before the start, and every other exit after it. */
  ghost predicate GoodExit(o: Outcome, start: int) {
    && (Complete(o.exit) <==> o.frontier <= start)
    && (o.exit.NothingNew? || o.exit.OldestAtStart? ==> o.frontier == start - 1)
  }

  lemma {:induction false} RoundCollects(env: Environment, store: Store, start: int, step: nat, chunkEnd: int,
                                         empties: nat, round: nat, got: seq<Bar>, end: int, skipped: set<int>)
    requires step >= 1 && Honest(env, store)
    requires CollectedBut(got, store, start, chunkEnd, end, skipped) && start < chunkEnd <= end
    ensures match Round(env, start, step, chunkEnd, empties, round, got)
            case Stop(o) => CollectedBut(o.got, store, start, o.frontier, end, skipped) && GoodExit(o, start)
            case GoOn(next, _, got') =>
              && CollectedBut(got', store, start, next, end, skipped + SteppedOver(env, store, step, chunkEnd, round))
              && next <= end
  {
    hide NewBars, CollectedBut, Stamps, Oldest;
    if env.connected(round) && env.reply(round, chunkEnd).Chunk? {
      var bars, lo := env.reply(round, chunkEnd).bars, env.reach(round, chunkEnd);
      assert IsWindow(bars, store, if bars == [] then 0 else env.depth, lo, chunkEnd);
      hide IsWindow, Honest;
      if bars == [] {
        StepsOver(store, start, chunkEnd, step, got, end, skipped);
      } else {
        ChunkJoins(bars, store, start, env.depth, lo, chunkEnd, got, end, skipped);
        assert skipped + {} == skipped;
      }
    }
    assert skipped + {} == skipped;
  }

  /** Whatever the depth of its empty answers, with an honest provider nothing is altered, repeated or out of the range,
      and at every exit the walk has all stored bars of `(frontier, end]` except exactly those it stepped over. */
  lemma {:induction false} WalkMissesOnlySkipped(env: Environment, store: Store, start: int, step: nat, chunkEnd: int,
                                                 empties: nat, round: nat, got: seq<Bar>, end: int, skipped: set<int>)
    requires step >= 1 && Honest(env, store)
    requires CollectedBut(got, store, start, chunkEnd, end, skipped) && chunkEnd <= end
    ensures var o := Walk(env, store, start, step, chunkEnd, empties, round, got);
            var over := Skipped(env, store, start, step, chunkEnd, empties, round, got);
            CollectedBut(o.got, store, start, o.frontier, end, skipped + over) && GoodExit(o, start)
    decreases chunkEnd - start
  {
    hide CollectedBut, Honest, Round, SteppedOver;
    if chunkEnd > start {
      RoundCollects(env, store, start, step, chunkEnd, empties, round, got, end, skipped);
      RoundGoesBack(env, store, start, step, chunkEnd, empties, round, got);
      match Round(env, start, step, chunkEnd, empties, round, got)
      case Stop(_) => assert skipped + {} == skipped;
      case GoOn(next, empties', got') =>
        var here := SteppedOver(env, store, step, chunkEnd, round);
        var later := Skipped(env, store, start, step, next, empties', round + 1, got');
        WalkMissesOnlySkipped(env, store, start, step, next, empties', round + 1, got', end, skipped + here);
        assert skipped + here + later == skipped + (here + later);
    } else {
      assert skipped + {} == skipped;
    }
  }

  /** Nothing is stored in the step over an empty answer that goes back far enough. */
  lemma {:induction false} NothingSteppedOver(env: Environment, store: Store, step: nat, chunkEnd: int, round: nat)
    requires Faithful(env, store, step)
    ensures SteppedOver(env, store, step, chunkEnd, round) == {}
  {
    if env.connected(round) && env.reply(round, chunkEnd) == Chunk([]) {
      var lo := env.reach(round, chunkEnd);
      assert IsWindow([], store, 0, lo, chunkEnd) && lo <= chunkEnd - step;
      assert Stored(store, chunkEnd - step, chunkEnd) <= Stored(store, lo, chunkEnd);
    }
  }

  lemma {:induction false} NothingSkipped(env: Environment, store: Store, start: int, step: nat,
                                          chunkEnd: int, empties: nat, round: nat, got: seq<Bar>)
    requires step >= 1 && Faithful(env, store, step)
    ensures Skipped(env, store, start, step, chunkEnd, empties, round, got) == {}
    decreases chunkEnd - start
  {
    if chunkEnd > start {
      RoundGoesBack(env, store, start, step, chunkEnd, empties, round, got);
      NothingSteppedOver(env, store, step, chunkEnd, round);
      hide Faithful, Honest, Round, SteppedOver;
      match Round(env, start, step, chunkEnd, empties, round, got)
      case Stop(_) =>
      case GoOn(next, empties', got') =>
        NothingSkipped(env, store, start, step, next, empties', round + 1, got');
    }
  }

  lemma {:induction false} RoundLeavesNoHole(env: Environment, store: Store, start: int, step: nat, chunkEnd: int,
                                             empties: nat, round: nat, got: seq<Bar>, end: int)
    requires step >= 1 && Faithful(env, store, step)
    requires Collected(got, store, start, chunkEnd, end) && start < chunkEnd <= end
    ensures match Round(env, start, step, chunkEnd, empties, round, got)
            case Stop(o) => Collected(o.got, store, start, o.frontier, end) && GoodExit(o, start)
            case GoOn(next, _, got') => Collected(got', store, start, next, end) && next <= end
  {
    RoundCollects(env, store, start, step, chunkEnd, empties, round, got, end, {});
    NothingSteppedOver(env, store, step, chunkEnd, round);
    hide Round, CollectedBut, SteppedOver;
  }

  /** No hole at any exit, with a faithful provider: the walk has exactly the stored bars of `(frontier, end]`, and the
      exits that count as complete have their frontier at or before the start. */
  lemma {:induction false} WalkLeavesNoHole(env: Environment, store: Store, start: int, step: nat,
                                            chunkEnd: int, empties: nat, round: nat, got: seq<Bar>, end: int)
    requires step >= 1 && Faithful(env, store, step)
    requires Collected(got, store, start, chunkEnd, end) && chunkEnd <= end
    ensures var o := Walk(env, store, start, step, chunkEnd, empties, round, got);
            Collected(o.got, store, start, o.frontier, end) && GoodExit(o, start)
  {
    WalkMissesOnlySkipped(env, store, start, step, chunkEnd, empties, round, got, end, {});
    NothingSkipped(env, store, start, step, chunkEnd, empties, round, got);
    hide Walk, Skipped, CollectedBut;
  }

  /** Whole downloads, from an empty start: on a complete exit every bar of `(start, end]` is there, and the bar
      stamped exactly `start` is the only one that can be missing. */
  lemma {:induction false} DownloadIsComplete(env: Environment, store: Store, start: int, step: nat, end: int)
    requires step >= 1 && Faithful(env, store, step)
    ensures var o := Walk(env, store, start, step, end, 0, 0, []);
            && Collected(o.got, store, start, o.frontier, end)
            && (Complete(o.exit) ==> Stored(store, start, end) <= Stamps(o.got) <= Stored(store, start - 1, end))
            && (Complete(o.exit) && (o.frontier == start ==> start !in store)
                ==> Stamps(o.got) == Stored(store, start - 1, end))
  {
    assert Honest(env, store);
    hide Walk, Faithful, Honest, CollectedBut;
    assert Collected([], store, start, end, end) by { NothingYet(store, start, end); }
    WalkLeavesNoHole(env, store, start, step, end, 0, 0, [], end);
    var o := Walk(env, store, start, step, end, 0, 0, []);
    CollectedAll(o.got, store, start, o.frontier, end);
    hide Stamps, Collected;
    if o.frontier < start { assert Max(start - 1, o.frontier) == start - 1; }
    if o.frontier == start && start !in store {
      assert Stored(store, start, end) == Stored(store, start - 1, end);
    }
  }

  lemma {:induction false} NothingYet(store: Store, start: int, end: int)
    ensures CollectedBut([], store, start, end, end, {})
  {
    StampsEmptyIff([]);
  }

  lemma {:induction false} CollectedAll(got: seq<Bar>, store: Store, start: int, frontier: int, end: int)
    requires Collected(got, store, start, frontier, end)
    ensures Stamps(got) == Stored(store, Max(start - 1, frontier), end)
  {
  }

  /** Nothing is stored in the `n` steps that follow `from`. */
  ghost predicate EmptyRun(store: Store, from: int, step: nat, n: nat) {
    Stored(store, from, from + n * step) == {}
  }

  /** Five empty chunks in a row mean the store really is empty for five steps back to back. */
  lemma {:induction false} FiveEmptyMeansEmpty(env: Environment, store: Store, start: int, step: nat,
                                               chunkEnd: int, empties: nat, round: nat, got: seq<Bar>)
    requires step >= 1 && Faithful(env, store, step) && empties < MAX_CONSECUTIVE_EMPTY
    requires EmptyRun(store, chunkEnd, step, empties)
    ensures var o := Walk(env, store, start, step, chunkEnd, empties, round, got);
            o.exit.FiveEmptyChunks? ==> EmptyRun(store, o.frontier - step, step, MAX_CONSECUTIVE_EMPTY)
    decreases chunkEnd - start
  {
    if chunkEnd > start {
      EmptyRunGrows(env, store, start, step, chunkEnd, empties, round, got);
      RoundGoesBack(env, store, start, step, chunkEnd, empties, round, got);
      match Round(env, start, step, chunkEnd, empties, round, got)
      case Stop(_) =>
      case GoOn(next, empties', got') => FiveEmptyMeansEmpty(env, store, start, step, next, empties', round + 1, got');
    }
  }

  lemma {:induction false} EmptyRunGrows(env: Environment, store: Store, start: int, step: nat, chunkEnd: int,
                                         empties: nat, round: nat, got: seq<Bar>)
    requires step >= 1 && Faithful(env, store, step) && empties < MAX_CONSECUTIVE_EMPTY
    requires EmptyRun(store, chunkEnd, step, empties)
    ensures match Round(env, start, step, chunkEnd, empties, round, got)
            case Stop(o) => o.exit.FiveEmptyChunks? ==> EmptyRun(store, o.frontier - step, step, MAX_CONSECUTIVE_EMPTY)
            case GoOn(next, empties', _) => empties' < MAX_CONSECUTIVE_EMPTY && EmptyRun(store, next, step, empties')
  {
    if env.connected(round) && env.reply(round, chunkEnd).Chunk? && env.reply(round, chunkEnd).bars == [] {
      var lo := env.reach(round, chunkEnd);
      assert IsWindow([], store, 0, lo, chunkEnd) && env.reply(round, chunkEnd) == Chunk([]) && lo <= chunkEnd - step;
      var longer := Stored(store, chunkEnd - step, chunkEnd + empties * step);
      assert longer <= Stored(store, lo, chunkEnd) + Stored(store, chunkEnd, chunkEnd + empties * step);
      assert (chunkEnd - step) + (empties + 1) * step == chunkEnd + empties * step;
    }
  }

  // ---- when the first bar is safe ---------------------------------------------------------------

  /** Some chunk can end exactly on the start: `k` empty steps below the end of the range, or below a bar. */
  ghost predicate Exposed(store: Store, start: int, step: nat, depth: nat, end: int) {
    exists k: nat :: k < MAX_CONSECUTIVE_EMPTY && ExposedBy(store, start, step, depth, end, k)
  }

  ghost predicate ExposedBy(store: Store, start: int, step: nat, depth: nat, end: int, k: nat) {
    EmptyRun(store, start, step, k) && Landing(store, start, depth, end, start + k * step)
  }

  /** A chunk can end at `t` other than by a step back over an empty chunk. */
  ghost predicate Landing(store: Store, start: int, depth: nat, end: int, t: int) {
    t == end || (t + 1 in store && t + 1 <= end && start + depth <= end)
  }

  /** However a walk arrived at a chunk end: by empty steps from a landing. */
  ghost predicate Trail(store: Store, start: int, step: nat, depth: nat, end: int, chunkEnd: int, empties: nat) {
    EmptyRun(store, chunkEnd, step, empties) && Landing(store, start, depth, end, chunkEnd + empties * step)
  }

  lemma {:induction false} WalkKeepsTrail(env: Environment, store: Store, start: int, step: nat, chunkEnd: int,
                                          empties: nat, round: nat, got: seq<Bar>, end: int)
    requires step >= 1 && Faithful(env, store, step) && start in store && chunkEnd <= end
    requires Collected(got, store, start, chunkEnd, end)
    requires empties < MAX_CONSECUTIVE_EMPTY && Trail(store, start, step, env.depth, end, chunkEnd, empties)
    ensures Walk(env, store, start, step, chunkEnd, empties, round, got).frontier == start
        ==> Exposed(store, start, step, env.depth, end)
    decreases chunkEnd - start
  {
    if chunkEnd > start {
      RoundLeavesNoHole(env, store, start, step, chunkEnd, empties, round, got, end);
      RoundKeepsTrail(env, store, start, step, chunkEnd, empties, round, got, end);
      RoundGoesBack(env, store, start, step, chunkEnd, empties, round, got);
      hide Collected, Trail, Exposed;
      match Round(env, start, step, chunkEnd, empties, round, got)
      case Stop(_) =>
      case GoOn(next, empties', got') => WalkKeepsTrail(env, store, start, step, next, empties', round + 1, got', end);
    } else if chunkEnd == start {
      assert ExposedBy(store, start, step, env.depth, end, empties);
    }
  }

  lemma {:induction false} RoundKeepsTrail(env: Environment, store: Store, start: int, step: nat, chunkEnd: int,
                        empties: nat, round: nat, got: seq<Bar>, end: int)
    requires step >= 1 && Faithful(env, store, step) && start in store && start < chunkEnd <= end
    requires Collected(got, store, start, chunkEnd, end)
    requires empties < MAX_CONSECUTIVE_EMPTY && Trail(store, start, step, env.depth, end, chunkEnd, empties)
    ensures match Round(env, start, step, chunkEnd, empties, round, got)
            case Stop(_) => true
            case GoOn(next, empties', _) =>
              empties' < MAX_CONSECUTIVE_EMPTY && Trail(store, start, step, env.depth, end, next, empties')
  {
    if env.connected(round) && env.reply(round, chunkEnd).Chunk? {
      var bars, lo := env.reply(round, chunkEnd).bars, env.reach(round, chunkEnd);
      assert IsWindow(bars, store, if bars == [] then 0 else env.depth, lo, chunkEnd);
      if bars == [] {
        EmptyRunGrows(env, store, start, step, chunkEnd, empties, round, got);
        hide EmptyRun, Collected, Faithful, Honest, IsWindow;
        assert chunkEnd - step + (empties + 1) * step == chunkEnd + empties * step;
      } else {
        ChunkLands(bars, store, start, step, env.depth, lo, chunkEnd, got, end);
        hide NewBars, Collected, Faithful, Honest, IsWindow;
      }
    }
  }

  /** Below a bar that is the oldest new one of a chunk, and not the start itself, a chunk end is a landing. */
  lemma {:induction false} ChunkLands(bars: seq<Bar>, store: Store, start: int, step: nat, depth: nat, lo: int,
                                      chunkEnd: int, got: seq<Bar>, end: int)
    requires IsWindow(bars, store, depth, lo, chunkEnd) && start in store && start < chunkEnd <= end
    requires Collected(got, store, start, chunkEnd, end)
    ensures var added := NewBars(bars, Stamps(got), start);
            added != [] && Oldest(added) > start ==> Trail(store, start, step, depth, end, Oldest(added) - 1, 0)
  {
    var added := NewBars(bars, Stamps(got), start);
    NewBarsExactly(bars, Stamps(got), start, store);
    hide NewBars;
    if added != [] && Oldest(added) > start {
      assert Oldest(added) in Stamps(added);
      assert start !in Stamps(added);
      assert start !in Stored(store, lo, chunkEnd);
    }
  }

  /** The provider whose answer to every request that ends at `end` goes back to `reach(end)`. */
  ghost function Serving(store: Store, reach: int -> int, depth: nat): Environment {
    Environment((n: nat) => true,
                (n: nat, end: int) => Chunk(Listing(store, reach(end), end)),
                (n: nat, end: int) => reach(end),
                depth)
  }

  /** The one that answers from the start of the range whenever it may. */
  ghost function FromStart(store: Store, start: int, step: nat, depth: nat): Environment {
    Serving(store, (end: int) => ReachOf(store, start, step, depth, end), depth)
  }

  ghost function ReachOf(store: Store, start: int, step: nat, depth: nat, end: int): int {
    if start <= end - (if Stored(store, start, end) == {} then step else depth) then start else end - step - depth
  }

  ghost function Listing(store: Store, lo: int, hi: int): (bars: seq<Bar>)
    ensures FromStore(bars, store) && Stamps(bars) == Stored(store, lo, hi)
    decreases hi - lo
  {
    if hi <= lo then []
    else if hi !in store then
      var bars := Listing(store, lo, hi - 1);
      assert Stored(store, lo, hi) == Stored(store, lo, hi - 1);
      bars
    else
      var bars := Listing(store, lo, hi - 1);
      assert Stored(store, lo, hi) == Stored(store, lo, hi - 1) + {hi};
      StampsOfOne(store[hi]);
      StampsOfConcat(bars, [store[hi]]);
      bars + [store[hi]]
  }

  lemma {:induction false} FromStartIsFaithful(store: Store, start: int, step: nat, depth: nat)
    ensures var env := FromStart(store, start, step, depth);
            Honest(env, store) && Faithful(env, store, step) && env.depth == depth
  {
    var env := FromStart(store, start, step, depth);
    forall n: nat, end: int
      ensures env.reply(n, end).Chunk?
      ensures var bars := env.reply(n, end).bars;
              IsWindow(bars, store, if bars == [] then step else depth, env.reach(n, end), end)
    {
      var lo := ReachOf(store, start, step, depth, end);
      assert env.reply(n, end) == Chunk(Listing(store, lo, end)) && env.reach(n, end) == lo;
      StampsEmptyIff(Listing(store, lo, end));
    }
  }

  lemma {:induction false} EmptyRound(store: Store, start: int, step: nat, depth: nat, k: nat, empties: nat, round: nat,
                                      got: seq<Bar>)
    requires step >= 1 && k > 0 && EmptyRun(store, start, step, k) && empties + 1 < MAX_CONSECUTIVE_EMPTY
    ensures Round(FromStart(store, start, step, depth), start, step, start + k * step, empties, round, got)
            == GoOn(start + (k - 1) * step, empties + 1, got)
    ensures EmptyRun(store, start, step, k - 1) && start + k * step > start
  {
    var env, chunkEnd := FromStart(store, start, step, depth), start + k * step;
    StepsDown(start, step, k);
    assert env.connected(round) && env.reply(round, chunkEnd) == Chunk(Listing(store, start, chunkEnd));
    StampsEmptyIff(Listing(store, start, chunkEnd));
    assert Stored(store, start, start + (k - 1) * step) <= Stored(store, start, chunkEnd);
    hide FromStart, Listing, Stamps, NewBars;
  }

  /** From `k` steps above the start, with nothing stored between, that provider walks right onto the start. */
  lemma {:induction false} WalksOntoStart(store: Store, start: int, step: nat, depth: nat, k: nat, empties: nat,
                                          round: nat, got: seq<Bar>)
    requires step >= 1 && EmptyRun(store, start, step, k) && empties + k < MAX_CONSECUTIVE_EMPTY
    ensures Faithful(FromStart(store, start, step, depth), store, step)
    ensures Walk(FromStart(store, start, step, depth), store, start, step, start + k * step, empties, round, got)
            == Outcome(got, ReachedStart, start)
    decreases k
  {
    FromStartIsFaithful(store, start, step, depth);
    hide Round, FromStart, Faithful, Honest, EmptyRun;
    if k > 0 {
      EmptyRound(store, start, step, depth, k, empties, round, got);
      WalkGoesOn(FromStart(store, start, step, depth), store, start, step, start + k * step, empties, round, got);
      hide Walk;
      WalksOntoStart(store, start, step, depth, k - 1, empties + 1, round + 1, got);
    }
  }

  lemma StepsDown(start: int, step: nat, k: nat)
    requires step >= 1 && k > 0
    ensures start + k * step - step == start + (k - 1) * step >= start && start + k * step > start
  {
  }

  lemma {:induction false} OldestIsFirst(store: Store, start: int, end: int, first: int, added: seq<Bar>)
    requires start < first <= end && first in store && Stored(store, start, first - 1) == {}
    requires Stamps(added) == Stored(store, start, end)
    ensures added != [] && Oldest(added) == first && start !in Stamps(added)
  {
    StampsEmptyIff(added);
    assert first in Stamps(added);
    assert Oldest(added) in Stamps(added);
    assert Oldest(added) !in Stored(store, start, first - 1);
  }

  lemma {:induction false} AddedFromEmpty(bars: seq<Bar>, store: Store, start: int, end: int)
    requires FromStore(bars, store) && Stamps(bars) == Stored(store, start, end)
    ensures Stamps(NewBars(bars, Stamps([]), start)) == Stored(store, start, end)
    ensures Stored(store, start, end) != {} ==> bars != []
  {
    NewBarsExactly(bars, Stamps([]), start, store);
    StampsEmptyIff(bars);
  }

  /** Its answer to the first request, when that ends on the range: everything after the start, so that the next
      chunk ends just below the first bar there is. */
  lemma {:induction false} FirstChunk(store: Store, start: int, step: nat, depth: nat, end: int, first: int)
    requires start + depth <= end && start < first <= end && first in store && Stored(store, start, first - 1) == {}
    ensures var r := Round(FromStart(store, start, step, depth), start, step, end, 0, 0, []);
            r.GoOn? && r.chunkEnd == first - 1 && r.empties == 0 && start !in Stamps(r.got)
  {
    var env, bars := FromStart(store, start, step, depth), Listing(store, start, end);
    assert first in Stored(store, start, end);
    assert env.connected(0) && env.reply(0, end) == Chunk(bars);
    AddedFromEmpty(bars, store, start, end);
    OldestIsFirst(store, start, end, first, NewBars(bars, Stamps([]), start));
    hide NewBars, FromStart, Listing, Stamps, Stored, FromStore, Oldest, Round;
    RoundGoesOn(env, start, step, end, 0, 0, [], bars);
    assert [] + NewBars(bars, Stamps([]), start) == NewBars(bars, Stamps([]), start);
  }

  lemma {:induction false} RoundGoesOn(env: Environment, start: int, step: nat, chunkEnd: int, empties: nat,
                                       round: nat, got: seq<Bar>, bars: seq<Bar>)
    requires env.connected(round) && env.reply(round, chunkEnd) == Chunk(bars) && bars != []
    requires var added := NewBars(bars, Stamps(got), start); added != [] && Oldest(added) > start
    ensures var added := NewBars(bars, Stamps(got), start);
            Round(env, start, step, chunkEnd, empties, round, got) == GoOn(Oldest(added) - 1, 0, got + added)
  {
    hide NewBars, Stamps, Oldest;
  }

  ghost predicate LosesStart(store: Store, start: int, step: nat, depth: nat, end: int)
    requires step >= 1 && Faithful(FromStart(store, start, step, depth), store, step)
  {
    var o := Walk(FromStart(store, start, step, depth), store, start, step, end, 0, 0, []);
    Complete(o.exit) && start !in Stamps(o.got)
  }

  lemma {:induction false} LostByEmptySteps(store: Store, start: int, step: nat, depth: nat, k: nat)
    requires step >= 1 && EmptyRun(store, start, step, k) && k < MAX_CONSECUTIVE_EMPTY
    ensures Faithful(FromStart(store, start, step, depth), store, step)
    ensures LosesStart(store, start, step, depth, start + k * step)
  {
    WalksOntoStart(store, start, step, depth, k, 0, 0, []);
    hide Walk, Round, FromStart, Faithful, Honest;
    StampsEmptyIff([]);
  }

  lemma {:induction false} LostBelowBar(store: Store, start: int, step: nat, depth: nat, end: int, k: nat, t: int)
    requires step >= 1 && EmptyRun(store, start, step, k) && k < MAX_CONSECUTIVE_EMPTY
    requires t == start + k * step && start <= t && t + 1 in store && t + 1 <= end && start + depth <= end
    ensures Faithful(FromStart(store, start, step, depth), store, step)
    ensures LosesStart(store, start, step, depth, end)
  {
    FromStartIsFaithful(store, start, step, depth);
    var env := FromStart(store, start, step, depth);
    hide Round, FromStart, Faithful, Honest, EmptyRun, Stamps, Walk;
    NothingBefore(store, start, t, step, k);
    FirstChunk(store, start, step, depth, end, t + 1);
    WalkGoesOn(env, store, start, step, end, 0, 0, []);
    WalksOntoStart(store, start, step, depth, k, 0, 1, Round(env, start, step, end, 0, 0, []).got);
  }

  /** Exposed means lost: some faithful provider makes the walk stop as if complete without the bar at the start. */
  lemma {:induction false} ExposedIsLost(store: Store, start: int, step: nat, depth: nat, end: int)
    requires step >= 1 && Exposed(store, start, step, depth, end)
    ensures Faithful(FromStart(store, start, step, depth), store, step)
    ensures LosesStart(store, start, step, depth, end)
  {
    FromStartIsFaithful(store, start, step, depth);
    var k: nat :| k < MAX_CONSECUTIVE_EMPTY && ExposedBy(store, start, step, depth, end, k);
    var t := start + k * step;
    hide LosesStart, FromStart, Faithful, Honest, EmptyRun;
    if t == end {
      LostByEmptySteps(store, start, step, depth, k);
    } else {
      StepsUp(start, step, k);
      LostBelowBar(store, start, step, depth, end, k, t);
    }
  }

  lemma {:induction false} NothingBefore(store: Store, start: int, t: int, step: nat, k: nat)
    requires EmptyRun(store, start, step, k) && t == start + k * step
    ensures Stored(store, start, t) == {}
  {
  }

  lemma {:induction false} WalkGoesOn(env: Environment, store: Store, start: int, step: nat, chunkEnd: int,
                                      empties: nat, round: nat, got: seq<Bar>)
    requires step >= 1 && Honest(env, store) && chunkEnd > start
    ensures var r := Round(env, start, step, chunkEnd, empties, round, got);
            r.GoOn? ==> Walk(env, store, start, step, chunkEnd, empties, round, got)
                        == Walk(env, store, start, step, r.chunkEnd, r.empties, round + 1, r.got)
  {
    hide Round, Honest;
  }

  lemma {:induction false} WalkStops(env: Environment, store: Store, start: int, step: nat, chunkEnd: int,
                                     empties: nat, round: nat, got: seq<Bar>)
    requires step >= 1 && Honest(env, store)
    ensures var o := Walk(env, store, start, step, chunkEnd, empties, round, got);
            if chunkEnd <= start then o == Outcome(got, ReachedStart, chunkEnd)
            else var r := Round(env, start, step, chunkEnd, empties, round, got); r.Stop? ==> o == r.outcome
  {
    hide Round, Honest;
  }

  lemma StepsUp(start: int, step: nat, k: nat)
    ensures start + k * step >= start
  {
  }

  /** The bar at the start is safe with every faithful provider exactly when the range is not exposed. */
  lemma {:induction false} FirstBarSafeIff(store: Store, start: int, step: nat, depth: nat, end: int)
    requires step >= 1 && start in store && start <= end
    ensures !Exposed(store, start, step, depth, end)
            <==> forall env: Environment :: Faithful(env, store, step) && env.depth == depth ==>
                   var o := Walk(env, store, start, step, end, 0, 0, []);
                   Complete(o.exit) ==> start in Stamps(o.got)
  {
    if Exposed(store, start, step, depth, end) {
      ExposedIsLost(store, start, step, depth, end);
    } else {
      forall env: Environment | Faithful(env, store, step) && env.depth == depth
        ensures var o := Walk(env, store, start, step, end, 0, 0, []);
                Complete(o.exit) ==> start in Stamps(o.got)
      {
        NotExposedIsSafe(env, store, start, step, end);
        DownloadIsComplete(env, store, start, step, end);
        assert start in Stored(store, start - 1, end);
      }
    }
  }

  lemma {:induction false} NotExposedIsSafe(env: Environment, store: Store, start: int, step: nat, end: int)
    requires step >= 1 && start in store && Faithful(env, store, step) && !Exposed(store, start, step, env.depth, end)
    ensures Walk(env, store, start, step, end, 0, 0, []).frontier != start
  {
    WalkKeepsTrail(env, store, start, step, end, 0, 0, [], end);
  }

  /** `t` lies a whole number of `g`-second bars from `start`. */
  ghost predicate OnGrid(t: int, start: int, g: int) {
    exists k :: t == start + k * g
  }

  /** On bars of two seconds or more, a range that ends one second before a bar could start is never exposed. */
  lemma {:induction false} OffGridNotExposed(store: Store, start: int, step: nat, depth: nat, g: int, m: nat, end: int)
    requires g >= 2 && step == m * g && OnGrid(end + 1, start, g)
    requires forall t :: t in store ==> OnGrid(t, start, g)
    ensures !Exposed(store, start, step, depth, end)
  {
    if Exposed(store, start, step, depth, end) {
      var k: nat :| k < MAX_CONSECUTIVE_EMPTY && ExposedBy(store, start, step, depth, end, k);
      var t := start + k * step;
      StepsAlongGrid(start, g, m, k);
      NextIsOffGrid(t, start, g);
    }
  }

  lemma StepsAlongGrid(start: int, g: int, m: nat, k: nat)
    ensures OnGrid(start + k * (m * g), start, g)
  {
    assert k * (m * g) == (k * m) * g;
  }

  lemma NextIsOffGrid(t: int, start: int, g: int)
    requires g >= 2 && OnGrid(t, start, g)
    ensures !OnGrid(t + 1, start, g)
  {
    var k :| t == start + k * g;
    forall j ensures t + 1 != start + j * g {
      assert (j - k) * g == j * g - k * g;
      NoMultipleIsOne(j - k, g);
    }
  }

  lemma NoMultipleIsOne(n: int, g: int)
    requires g >= 2
    ensures n * g != 1
  {
    if n >= 1 { assert n * g >= g; } else { assert n * g <= 0; }
  }

  /** A download between two dates, with the last day already over, of bars of 5, 60, ... seconds that start on
      the day: complete from midnight of the first date on, first bar included. */
  lemma {:induction false} DayRangeKeepsFirstBar(env: Environment, store: Store, barSize: string, g: int, m: nat,
                                                 perDay: nat, fromDate: int, toDate: int, days: nat, now: int)
    requires Faithful(env, store, EmptyStep(MaxDuration(barSize)))
    requires g >= 2 && DAY == perDay * g && EmptyStep(MaxDuration(barSize)) == m * g
    requires toDate == fromDate + days * DAY && toDate + DAY - 1 <= now
    requires forall t :: t in store ==> OnGrid(t, fromDate, g)
    ensures var end := EndOfRange(Some(toDate), now);
            var start, step := StartOfRange(Some(fromDate), end), EmptyStep(MaxDuration(barSize));
            var o := Walk(env, store, start, step, end, 0, 0, []);
            Complete(o.exit) ==> Stamps(o.got) == Stored(store, fromDate - 1, end)
  {
    var step, end := EmptyStep(MaxDuration(barSize)), EndOfRange(Some(toDate), now);
    EndOfDayOnGrid(g, perDay, days);
    assert end + 1 == fromDate + (days * perDay + perDay) * g;
    OffGridNotExposed(store, fromDate, step, env.depth, g, m, end);
    hide EmptyStep, MaxDuration, Exposed, Walk;
    if fromDate in store { NotExposedIsSafe(env, store, fromDate, step, end); }
    DownloadIsComplete(env, store, fromDate, step, end);
  }

  lemma EndOfDayOnGrid(g: int, perDay: nat, days: nat)
    requires DAY == perDay * g
    ensures (days * perDay + perDay) * g == days * DAY + DAY
  {
    assert (days * perDay + perDay) * g == days * (perDay * g) + perDay * g;
  }

  // One-second data with a bar at 0 and one at 1, asked for up to 1800: one half-hour chunk.
  const TWO_BARS: Store := map[0 := Bar(0, 1.0, 1.0, 1.0, 1.0, 1), 1 := Bar(1, 1.0, 1.0, 1.0, 1.0, 1)]

  /** On one-second bars the first bar can be lost: the walk is answered with `(0, 1800]`, gets the bar at 1, moves
      its chunk end back to 0, and stops there as if complete. */
  lemma FirstBarLost()
    ensures EmptyStep(MaxDuration("1 secs")) == 1800
    ensures exists env: Environment :: Faithful(env, TWO_BARS, 1800) && env.depth == 1800 &&
              var o := Walk(env, TWO_BARS, 0, 1800, 1800, 0, 0, []);
              Complete(o.exit) && 0 in TWO_BARS && 0 !in Stamps(o.got)
  {
    assert ExposedBy(TWO_BARS, 0, 1800, 1800, 1800, 0);
    ExposedIsLost(TWO_BARS, 0, 1800, 1800, 1800);
  }

  // ---- how deep an empty chunk has to be -----------------------------------------------------------

  /** If the walk ends as if complete, it has every bar after the start. */
  ghost predicate NoHole(env: Environment, store: Store, start: int, step: nat, end: int)
    requires step >= 1 && Honest(env, store)
  {
    var o := Walk(env, store, start, step, end, 0, 0, []);
    Complete(o.exit) ==> Stored(store, start, end) <= Stamps(o.got)
  }

  ghost function OneBar(t: int): Store { map[t := Bar(t, 1.0, 1.0, 1.0, 1.0, 1)] }

  /** The provider whose first answer is empty and goes back `back` seconds from `step`, one second short of its bar. */
  ghost function Shallow(step: nat, depth: nat, back: nat): Environment {
    Serving(OneBar(step - back), (end: int) => if end == step then step - back else end - back - depth, depth)
  }

  lemma {:induction false} ShallowLeavesHole(step: nat, depth: nat, back: nat)
    requires back < step
    ensures var env, store := Shallow(step, depth, back), OneBar(step - back);
            Faithful(env, store, back) && !NoHole(env, store, 0, step, step)
  {
    var env, store := Shallow(step, depth, back), OneBar(step - back);
    forall n: nat, end: int
      ensures env.reply(n, end).Chunk?
      ensures var bars := env.reply(n, end).bars;
              IsWindow(bars, store, if bars == [] then back else depth, env.reach(n, end), end)
    {
      var lo := if end == step then step - back else end - back - depth;
      assert env.reply(n, end) == Chunk(Listing(store, lo, end)) && env.reach(n, end) == lo;
      StampsEmptyIff(Listing(store, lo, end));
    }
    StampsEmptyIff(env.reply(0, step).bars);
    assert Round(env, 0, step, step, 0, 0, []) == GoOn(0, 1, []);
    WalkGoesOn(env, store, 0, step, step, 0, 0, []);
    hide Round, Shallow;
    assert step - back in Stored(store, 0, step);
  }

  /** The step over an empty chunk is safe with every provider and for every range exactly when empty chunks go back
      at least that far, however deep the others are. */
  lemma {:induction false} EmptyDepthNeeded(step: nat, depth: nat, back: nat)
    requires step >= 1
    ensures back >= step
            <==> forall env: Environment, store: Store, start: int, end: int ::
                   Faithful(env, store, back) && env.depth == depth ==> NoHole(env, store, start, step, end)
  {
    if back < step {
      ShallowLeavesHole(step, depth, back);
      assert Shallow(step, depth, back).depth == depth;
    } else {
      forall env: Environment, store: Store, start: int, end: int | Faithful(env, store, back)
        ensures NoHole(env, store, start, step, end)
      {
        assert Faithful(env, store, step);
        DownloadIsComplete(env, store, start, step, end);
      }
    }
  }

  /** Half-hour and longer intraday bars are asked for by the month and stepped over by thirty days: a provider whose
      empty February goes back 28 days leaves a hole. */
  lemma FebruaryLeavesHole()
    ensures EmptyStep(MaxDuration("1 hour")) == 30 * DAY
    ensures var env, store := Shallow(30 * DAY, 28 * DAY, 28 * DAY), OneBar(2 * DAY);
            Faithful(env, store, 28 * DAY) && env.depth == 28 * DAY && !NoHole(env, store, 0, 30 * DAY, 30 * DAY)
  {
    ShallowLeavesHole(30 * DAY, 28 * DAY, 28 * DAY);
  }

  /** With a provider that answers calendar durations, a download that ends as if complete has every bar after its
      start, whatever the range, exactly for the bar sizes that are not asked for by the month. */
  lemma {:induction false} CalendarSafeIff(barSize: string, depth: nat)
    ensures !ByTheMonth(barSize)
            <==> forall env: Environment, store: Store, start: int, end: int ::
                   Faithful(env, store, CalendarSpan(MaxDuration(barSize))) && env.depth == depth ==>
                     NoHole(env, store, start, EmptyStep(MaxDuration(barSize)), end)
  {
    var duration := MaxDuration(barSize);
    StepIsSpan(barSize);
    hide NoHole, Faithful, Honest, MaxDuration, CalendarSpan;
    EmptyDepthNeeded(EmptyStep(duration), depth, CalendarSpan(duration));
  }

  /** A moment belongs to the range asked for: from midnight of the first date, or else ten years back, to the last
      second of the last date, and not in the future. */
  ghost predicate Asked(fromDate: Option<int>, toDate: Option<int>, now: int, t: int) {
    && t <= now && (toDate.Some? ==> t < toDate.value + 86400)
    && (fromDate.Some? ==> fromDate.value <= t)
    && (fromDate.None? ==> now - 3650 * 86400 <= t || (toDate.Some? && toDate.value + 86399 - 3650 * 86400 <= t))
  }

  lemma RangeIsAsked(fromDate: Option<int>, toDate: Option<int>, now: int, t: int)
    ensures var end := EndOfRange(toDate, now);
            StartOfRange(fromDate, end) <= t <= end <==> Asked(fromDate, toDate, now, t)
  {
  }

  // ---- the download itself --------------------------------------------------------------------

  /** Every request has its own grant of the pacing guard.  What comes back is, for any honest provider, the listing of
      the stretch the walk covered without the bars it stepped over, and for a faithful one that listing in full: so for
      one that answers calendar durations, unless the bars are asked for by the month. */
  method FetchBarsChunked(env: Environment, ghost store: Store, connectedAtStart: bool, barSize: string,
                          fromDate: Option<int>, toDate: Option<int>, now: int,
                          guard: Pacing.PacingGuard, clock: Pacing.Clock)
    returns (allBars: seq<Bar>, exit: Exit, ghost outcome: Outcome, ghost requests: nat)
    requires Honest(env, store)
    requires guard.Valid(clock) && guard.max >= 1
    modifies guard, clock
    ensures guard.Valid(clock) && |guard.grants| == old(|guard.grants|) + requests
    ensures var end := EndOfRange(toDate, now);
            var start, step := StartOfRange(fromDate, end), EmptyStep(MaxDuration(barSize));
            if !connectedAtStart then allBars == [] && exit == NotConnected && requests == 0
            else
              && outcome == Walk(env, store, start, step, end, 0, 0, [])
              && exit == outcome.exit && GoodExit(outcome, start)
              && Ascending(allBars)
              && CollectedBut(allBars, store, start, outcome.frontier, end,
                              Skipped(env, store, start, step, end, 0, 0, []))
              && (Faithful(env, store, step) ==> IsListing(allBars, store, Max(start - 1, outcome.frontier), end))
    ensures connectedAtStart && !ByTheMonth(barSize) && Faithful(env, store, CalendarSpan(MaxDuration(barSize))) ==>
              ListsAsked(allBars, store, fromDate, toDate, now, outcome.frontier)
    ensures connectedAtStart && Complete(exit) ==> outcome.frontier <= StartOfRange(fromDate, EndOfRange(toDate, now))
  {
    if !connectedAtStart {
      return [], NotConnected, Outcome([], NotConnected, 0), 0;
    }
    var end := EndOfRange(toDate, now);
    var start := StartOfRange(fromDate, end);
    var step := EmptyStep(MaxDuration(barSize));
    ghost var walk := Walk(env, store, start, step, end, 0, 0, []);
    ghost var over := Skipped(env, store, start, step, end, 0, 0, []);
    WholeWalk(env, store, start, step, end);
    assert GoodExit(walk, start);
    assert Complete(walk.exit) ==> walk.frontier <= start;
    hide Walk, Round, Skipped, CollectedBut, GoodExit, Faithful, Honest, CalendarSpan, EmptyStep, MaxDuration;
    hide IsListing, ListsAsked, StartOfRange, EndOfRange;

    allBars, exit, requests := [], ReachedStart, 0;
    var chunkEnd, empties, round: nat := end, 0, 0;
    while chunkEnd > start
      invariant guard.Valid(clock) && |guard.grants| == old(|guard.grants|) + requests
      invariant walk == Walk(env, store, start, step, chunkEnd, empties, round, allBars)
      decreases chunkEnd - start
    {
      var _ := guard.Wait(clock);
      requests := requests + 1;
      RoundGoesBack(env, store, start, step, chunkEnd, empties, round, allBars);
      WalkGoesOn(env, store, start, step, chunkEnd, empties, round, allBars);
      WalkStops(env, store, start, step, chunkEnd, empties, round, allBars);
      var stop;
      stop, chunkEnd, empties, allBars := RequestChunk(env, start, step, chunkEnd, empties, round, allBars);
      if stop.Some? {
        exit := stop.value;
        break;
      }
      round := round + 1;
    }
    outcome := walk;
    WalkStops(env, store, start, step, chunkEnd, empties, round, allBars);
    SortedListing(allBars, store, start, outcome.frontier, end, over);
    allBars := SortBy(allBars, StampOf);
    StepIsSpan(barSize);
    if IsListing(allBars, store, Max(start - 1, outcome.frontier), end) {
      ListingListsAsked(allBars, store, fromDate, toDate, now, outcome.frontier);
    }
  }

  /** Strictly ascending, unaltered, and exactly the bars stored for the moments asked for that are after `frontier`. */
  ghost predicate ListsAsked(bars: seq<Bar>, store: Store, fromDate: Option<int>, toDate: Option<int>, now: int,
                             frontier: int) {
    && Ascending(bars) && FromStore(bars, store)
    && forall t :: t in Stamps(bars) <==> t in store && frontier < t && Asked(fromDate, toDate, now, t)
  }

  lemma {:induction false} ListingListsAsked(bars: seq<Bar>, store: Store, fromDate: Option<int>, toDate: Option<int>,
                                             now: int, frontier: int)
    requires var end := EndOfRange(toDate, now);
             IsListing(bars, store, Max(StartOfRange(fromDate, end) - 1, frontier), end)
    ensures ListsAsked(bars, store, fromDate, toDate, now, frontier)
  {
    forall t ensures t in Stamps(bars) <==> t in store && frontier < t && Asked(fromDate, toDate, now, t) {
      RangeIsAsked(fromDate, toDate, now, t);
    }
  }

  lemma {:induction false} WholeWalk(env: Environment, store: Store, start: int, step: nat, end: int)
    requires step >= 1 && Honest(env, store)
    ensures var o := Walk(env, store, start, step, end, 0, 0, []);
            var over := Skipped(env, store, start, step, end, 0, 0, []);
            && CollectedBut(o.got, store, start, o.frontier, end, over) && GoodExit(o, start)
            && (Faithful(env, store, step) ==> over == {})
  {
    hide Walk, Skipped, Faithful, Honest, CollectedBut;
    assert CollectedBut([], store, start, end, end, {}) by { NothingYet(store, start, end); }
    WalkMissesOnlySkipped(env, store, start, step, end, 0, 0, [], end, {});
    var over := Skipped(env, store, start, step, end, 0, 0, []);
    assert {} + over == over;
    if Faithful(env, store, step) { NothingSkipped(env, store, start, step, end, 0, 0, []); }
  }

  lemma {:induction false} SortedListing(got: seq<Bar>, store: Store, start: int, frontier: int, end: int,
                                         skipped: set<int>)
    requires CollectedBut(got, store, start, frontier, end, skipped)
    ensures var sorted := SortBy(got, StampOf);
            && Ascending(sorted) && CollectedBut(sorted, store, start, frontier, end, skipped)
            && (skipped == {} ==> IsListing(sorted, store, Max(start - 1, frontier), end))
  {
    SortOnlyOrders(got, store);
  }

  /** One request and what the walk makes of the answer; `stop` says why the loop breaks, if it does. */
  method RequestChunk(env: Environment, start: int, step: nat, chunkEnd: int, empties: nat, round: nat, got: seq<Bar>)
    returns (stop: Option<Exit>, nextEnd: int, nowEmpties: nat, allBars: seq<Bar>)
    ensures match Round(env, start, step, chunkEnd, empties, round, got)
            case Stop(o) => stop == Some(o.exit) && allBars == o.got
            case GoOn(next, empties', got') =>
              stop == None && nextEnd == next && nowEmpties == empties' && allBars == got'
  {
    stop, nextEnd, nowEmpties, allBars := None, chunkEnd, empties, got;
    if !env.connected(round) {
      stop := Some(LostConnection);
      return;
    }
    var reply := env.reply(round, chunkEnd);
    if reply.TimedOut? {
      stop := Some(RequestTimedOut);
    } else if reply.Failed? {
      stop := Some(RequestFailed);
    } else if reply.bars == [] {
      nowEmpties := empties + 1;
      if nowEmpties >= MAX_CONSECUTIVE_EMPTY {
        stop := Some(FiveEmptyChunks);
      } else {
        nextEnd := chunkEnd - step;
      }
    } else {
      nowEmpties := 0;
      var newBars := CollectNew(reply.bars, got, start);
      if newBars == [] {
        stop := Some(NothingNew);
      } else {
        allBars := got + newBars;
        var oldest := OldestOf(newBars);
        if oldest <= start {
          stop := Some(OldestAtStart);
        } else {
          nextEnd := oldest - 1;
        }
      }
    }
  }

  method CollectNew(bars: seq<Bar>, got: seq<Bar>, start: int) returns (newBars: seq<Bar>)
    ensures newBars == NewBars(bars, Stamps(got), start)
  {
    var seen := set b | b in got :: b.ts;
    assert seen == Stamps(got);
    newBars := [];
    for i := 0 to |bars|
      invariant newBars == NewBars(bars[..i], Stamps(got), start) && seen == Stamps(got) + Stamps(newBars)
    {
      var b := bars[i];
      assert bars[..i + 1][..i] == bars[..i];
      assert b.ts in Stamps(newBars) <==> exists k :: 0 <= k < |newBars| && newBars[k].ts == b.ts;
      if b.ts !in seen && start <= b.ts {
        StampsOfConcat(newBars, [b]);
        StampsOfOne(b);
        newBars, seen := newBars + [b], seen + {b.ts};
      }
    }
    assert bars[..|bars|] == bars;
  }

  method OldestOf(bars: seq<Bar>) returns (oldest: int)
    requires bars != []
    ensures oldest == Oldest(bars)
  {
    oldest := bars[0].ts;
    for i := 1 to |bars|
      invariant oldest == Oldest(bars[..i])
    {
      assert bars[..i + 1][..i] == bars[..i];
      if bars[i].ts < oldest { oldest := bars[i].ts; }
    }
    assert bars[..|bars|] == bars;
  }
}
