/** How much of a ticker's history the stored bars cover: the per-day yardstick, the score and the grade. */
module Coverage {
  import opened Options
  import opened Bars
  import opened Roots
  import opened Sorting

  const SECONDS_PER_DAY := 86400

  datatype Holiday = FullClose | EarlyClose | LateOpen | OtherEvent

  /** How one calendar day enters the expected count. */
  datatype Kind =
    | Closed        // the market was shut; the day is skipped
    | Abbreviated   // a short session: what is there is what is expected
    | Organic       // a stock day: likewise
    | Stub          // less than half the yardstick: likewise
    | Partial       // half the yardstick or more, but short of it
    | Full

  datatype Day = Day(date: int, bars: nat)

  datatype PartialDay = PartialDay(date: int, actual: nat, expected: nat, shortfall: nat)

  /** `partialDays` holds the worst of the `partialCount` partial days. */
  datatype Detail = Detail(p90: nat, fullDays: nat, stubDays: nat, partialCount: nat, partialDays: seq<PartialDay>,
                           holidayDays: nat)

  /** What the classification of a day depends on besides its own count. */
  datatype Rule = Rule(p90: nat, holidays: map<int, Holiday>, isFutures: bool)

  function DateOf(ts: int): int { ts / SECONDS_PER_DAY }

  // ---- bars per day -------------------------------------------------------------------------------------

  ghost function BarsOn(timestamps: seq<int>, date: int): nat {
    if timestamps == [] then 0
    else BarsOn(timestamps[..|timestamps| - 1], date) + (if DateOf(timestamps[|timestamps| - 1]) == date then 1 else 0)
  }

  ghost predicate DistinctDates(days: seq<Day>) {
    forall i, j :: 0 <= i < j < |days| ==> days[i].date != days[j].date
  }

  ghost predicate Covers(days: seq<Day>, date: int) {
    exists i :: 0 <= i < |days| && days[i].date == date
  }

  /** One entry for every date that has bars, with their number. */
  ghost predicate IsGrouping(days: seq<Day>, timestamps: seq<int>) {
    DistinctDates(days)
    && (forall i :: 0 <= i < |days| ==> days[i].bars == BarsOn(timestamps, days[i].date) > 0)
    && (forall i :: 0 <= i < |timestamps| ==> Covers(days, DateOf(timestamps[i])))
  }

  lemma NoBars()
    ensures forall d :: BarsOn([], d) == 0
  {
  }

  lemma {:induction false} OneBarAdds(timestamps: seq<int>, i: nat)
    requires i < |timestamps|
    ensures forall d :: BarsOn(timestamps[..i + 1], d)
                        == BarsOn(timestamps[..i], d) + if DateOf(timestamps[i]) == d then 1 else 0
  {
    assert timestamps[..i + 1][..i] == timestamps[..i];
  }

  /** The dates in the order in which they first occur, as an insertion-ordered dictionary lists them. */
  method GroupByDate(timestamps: seq<int>) returns (days: seq<Day>)
    ensures IsGrouping(days, timestamps)
  {
    var byDate: map<int, nat>, order: seq<int> := map[], [];
    hide BarsOn;
    NoBars();
    assert timestamps[..0] == [];
    for i := 0 to |timestamps|
      invariant forall j, k :: 0 <= j < k < |order| ==> order[j] != order[k]
      invariant forall j :: 0 <= j < |order| ==> order[j] in byDate
      invariant forall d <- byDate :: d in order
      invariant forall d :: BarsOn(timestamps[..i], d) == if d in byDate then byDate[d] else 0
      invariant forall d <- byDate :: byDate[d] > 0
      invariant forall j :: 0 <= j < i ==> DateOf(timestamps[j]) in byDate
    {
      OneBarAdds(timestamps, i);
      var date := DateOf(timestamps[i]);
      if date in byDate {
        byDate := byDate[date := byDate[date] + 1];
      } else {
        byDate, order := byDate[date := 1], order + [date];
      }
    }
    assert timestamps[..|timestamps|] == timestamps;
    days := seq(|order|, i requires 0 <= i < |order| => Day(order[i], byDate[order[i]]));
    forall j | 0 <= j < |timestamps| ensures Covers(days, DateOf(timestamps[j])) {
      assert DateOf(timestamps[j]) in order;
      var i :| 0 <= i < |order| && order[i] == DateOf(timestamps[j]);
      assert days[i].date == DateOf(timestamps[j]);
    }
  }

  // ---- the yardstick ------------------------------------------------------------------------------------

  function Itself(v: nat): int { v }

  function Counts(days: seq<Day>): (r: seq<nat>)
    ensures |r| == |days|
  {
    seq(|days|, i requires 0 <= i < |days| => days[i].bars)
  }

  function Min(a: int, b: int): (m: int)
    ensures m <= a && m <= b && (m == a || m == b)
  {
    if a <= b then a else b
  }

  function P90Index(n: nat): (i: nat)
    requires n > 0
    ensures i < n && 9 * n - 10 < 10 * i <= 9 * n
  {
    Min((n as real * 0.90).Floor, n - 1)
  }

  function P90(days: seq<Day>): nat
    requires days != []
  {
    SortBy(Counts(days), Itself)[P90Index(|days|)]
  }

  /** How many of the values exceed `x`. */
  ghost function CountAbove(values: seq<nat>, x: int): nat {
    if values == [] then 0
    else CountAbove(values[..|values| - 1], x) + (if values[|values| - 1] > x then 1 else 0)
  }

  lemma {:induction false} CountAboveInsert(values: seq<nat>, v: nat, x: int)
    ensures CountAbove(Insert(values, v, Itself), x) == CountAbove(values, x) + if v > x then 1 else 0
  {
    var r := Insert(values, v, Itself);
    if values != [] && values[|values| - 1] > v {
      CountAboveInsert(values[..|values| - 1], v, x);
      assert r[..|r| - 1] == Insert(values[..|values| - 1], v, Itself);
    } else {
      assert r[..|r| - 1] == values;
    }
  }

  lemma {:induction false} CountAboveSorted(values: seq<nat>, x: int)
    ensures CountAbove(SortBy(values, Itself), x) == CountAbove(values, x)
  {
    if values != [] {
      CountAboveSorted(values[..|values| - 1], x);
      CountAboveInsert(SortBy(values[..|values| - 1], Itself), values[|values| - 1], x);
    }
  }

  /** In ascending order the values that exceed `x` come last. */
  lemma {:induction false} CountAboveFromEnd(values: seq<nat>, x: int, k: nat)
    requires Ascends(values, Itself) && k <= |values|
    ensures (k < |values| ==> values[k] > x) ==> CountAbove(values, x) >= |values| - k
    ensures (k > 0 ==> values[k - 1] <= x) ==> CountAbove(values, x) <= |values| - k
  {
    if values != [] {
      var init := values[..|values| - 1];
      if k < |values| {
        CountAboveFromEnd(init, x, k);
      } else {
        CountAboveFromEnd(init, x, k - 1);
      }
    }
  }

  lemma {:induction false} RankInSorted(values: seq<nat>, k: nat)
    requires k < |values|
    ensures SortBy(values, Itself)[k] in values
    ensures CountAbove(values, SortBy(values, Itself)[k]) < |values| - k
    ensures CountAbove(values, SortBy(values, Itself)[k] as int - 1) >= |values| - k
  {
    hide SortBy, CountAbove, Ascends;
    var sorted := SortBy(values, Itself);
    var x: int := sorted[k];
    SortAscends(values, Itself);
    SortPermutes(values, Itself);
    assert x in values by { assert x in multiset(sorted); }
    CountAboveSorted(values, x);
    CountAboveSorted(values, x - 1);
    CountAboveFromEnd(sorted, x, k + 1);
    CountAboveFromEnd(sorted, x - 1, k);
  }

  /** The yardstick is the count of one of the days, fewer than a tenth of the days exceed it, and at least a
      tenth reach it. */
  lemma {:induction false} P90IsRank(days: seq<Day>)
    requires days != []
    ensures P90(days) in Counts(days)
    ensures 10 * CountAbove(Counts(days), P90(days)) < |days|
    ensures 10 * CountAbove(Counts(days), P90(days) as int - 1) >= |days|
  {
    hide SortBy, CountAbove, P90Index;
    RankInSorted(Counts(days), P90Index(|days|));
  }

  // ---- expected bars ------------------------------------------------------------------------------------

  function HolidayOn(rule: Rule, date: int): Option<Holiday> {
    if date in rule.holidays then Some(rule.holidays[date]) else None
  }

  function KindOf(rule: Rule, day: Day): Kind {
    var holiday := HolidayOn(rule, day.date);
    if holiday == Some(FullClose) then Closed
    else if holiday == Some(EarlyClose) || holiday == Some(LateOpen) then Abbreviated
    else if !rule.isFutures then Organic
    else if day.bars as real < rule.p90 as real * 0.5 then Stub
    else if day.bars < rule.p90 then Partial
    else Full
  }

  /** What a day adds to each total kept about the days. */
  datatype Total = Expected | Actual | Shortfall | Surplus | ClosedBars | Days(kind: Kind)

  ghost function Adds(rule: Rule, day: Day, total: Total): nat {
    var kind := KindOf(rule, day);
    match total
    case Expected => if kind.Closed? then 0 else if kind.Partial? || kind.Full? then rule.p90 else day.bars
    case Actual => day.bars
    case Shortfall => if kind.Partial? then rule.p90 - day.bars else 0
    case Surplus => if kind.Full? then day.bars - rule.p90 else 0
    case ClosedBars => if kind.Closed? then day.bars else 0
    case Days(k) => if kind == k then 1 else 0
  }

  ghost function Sum(rule: Rule, days: seq<Day>, total: Total): nat {
    if days == [] then 0
    else Sum(rule, days[..|days| - 1], total) + Adds(rule, days[|days| - 1], total)
  }

  /** What a day adds to the expectation, whatever its kind is called: nothing when the market was shut all day; its own
      bars when the session was short, for a stock, or below half the yardstick; and the yardstick otherwise. */
  lemma DayExpectation(rule: Rule, day: Day)
    ensures var shut := day.date in rule.holidays && rule.holidays[day.date] == FullClose;
            var short := day.date in rule.holidays && rule.holidays[day.date] in {EarlyClose, LateOpen};
            && Adds(rule, day, Expected)
               == (if shut then 0
                   else if short || !rule.isFutures || 2 * day.bars < rule.p90 then day.bars else rule.p90)
            && Adds(rule, day, Shortfall)
               == (if !shut && !short && rule.isFutures && rule.p90 <= 2 * day.bars && day.bars < rule.p90
                   then rule.p90 - day.bars else 0)
            && (Adds(rule, day, Days(Closed)) + Adds(rule, day, Days(Abbreviated)) == 1 <==> shut || short)
            && (Adds(rule, day, Days(Stub)) == 1
                <==> !shut && !short && rule.isFutures && 2 * day.bars < rule.p90)
  {
  }

  /** The partial days, each with what it lacks. */
  ghost function PartialDays(rule: Rule, days: seq<Day>): seq<PartialDay> {
    if days == [] then []
    else
      var day := days[|days| - 1];
      PartialDays(rule, days[..|days| - 1])
      + (if KindOf(rule, day).Partial? then [PartialDay(day.date, day.bars, rule.p90, rule.p90 - day.bars)] else [])
  }

  /** The totals of the first `i` days that the loop below keeps. */
  ghost predicate Tallied(rule: Rule, days: seq<Day>, expected: nat, full: nat, stub: nat, holiday: nat,
                          partial: seq<PartialDay>)
  {
    && expected == Sum(rule, days, Expected)
    && full == Sum(rule, days, Days(Full)) + Sum(rule, days, Days(Organic))
    && stub == Sum(rule, days, Days(Stub))
    && holiday == Sum(rule, days, Days(Closed)) + Sum(rule, days, Days(Abbreviated))
    && partial == PartialDays(rule, days)
  }

  lemma {:induction false} OneDayTallied(rule: Rule, days: seq<Day>, i: nat, expected: nat, full: nat, stub: nat,
                                         holiday: nat, partial: seq<PartialDay>)
    requires i < |days| && Tallied(rule, days[..i], expected, full, stub, holiday, partial)
    ensures var day := days[i]; var kind := KindOf(rule, day);
            Tallied(rule, days[..i + 1], expected + Adds(rule, day, Expected),
                    full + if kind.Full? || kind.Organic? then 1 else 0,
                    stub + if kind.Stub? then 1 else 0,
                    holiday + if kind.Closed? || kind.Abbreviated? then 1 else 0,
                    partial + if !kind.Partial? then []
                              else [PartialDay(day.date, day.bars, rule.p90, rule.p90 - day.bars)])
  {
    hide KindOf;
    assert days[..i + 1][..i] == days[..i];
  }

  const MAX_STORED := 30

  function MinusShortfall(d: PartialDay): int { -(d.shortfall as int) }

  /** Worst first, and no more than are stored. */
  function Worst(partial: seq<PartialDay>): seq<PartialDay> {
    SortBy(partial, MinusShortfall)[..Min(|partial|, MAX_STORED)]
  }

  /** The stored days are partial days in descending order of shortfall, and together with the days left out, none of
      which lacks more than any of them, they are all the partial days. */
  lemma {:induction false} WorstAreWorst(partial: seq<PartialDay>)
    ensures |Worst(partial)| == Min(|partial|, MAX_STORED)
    ensures exists rest ::
              multiset(Worst(partial)) + multiset(rest) == multiset(partial) && Descends(Worst(partial) + rest)
  {
    var ranked, n := SortBy(partial, MinusShortfall), Min(|partial|, MAX_STORED);
    SortPermutes(partial, MinusShortfall);
    SortAscends(partial, MinusShortfall);
    assert ranked == ranked[..n] + ranked[n..];
    assert Descends(ranked[..n] + ranked[n..]) by {
      assert forall i, j :: 0 <= i < j < |ranked| ==> MinusShortfall(ranked[i]) <= MinusShortfall(ranked[j]);
    }
  }

  ghost predicate Descends(partial: seq<PartialDay>) {
    forall i, j :: 0 <= i < j < |partial| ==> partial[i].shortfall >= partial[j].shortfall
  }

  method EstimateExpectedBars(timestamps: seq<int>, holidays: map<int, Holiday>, isFutures: bool)
    returns (expected: nat, detail: Detail, ghost days: seq<Day>)
    ensures IsGrouping(days, timestamps)
    ensures timestamps == [] ==> expected == 0 && detail == Detail(0, 0, 0, 0, [], 0)
    ensures timestamps != [] ==> days != []
    ensures timestamps != [] ==> (var rule := Rule(P90(days), holidays, isFutures);
              var partial := PartialDays(rule, days);
              && Tallied(rule, days, expected, detail.fullDays, detail.stubDays, detail.holidayDays, partial)
              && detail.p90 == rule.p90
              && detail.partialCount == |partial| && detail.partialDays == Worst(partial))
  {
    var byDate := GroupByDate(timestamps);
    days := byDate;
    expected := 0;
    if timestamps == [] {
      detail := Detail(0, 0, 0, 0, [], 0);
      return;
    }
    assert Covers(days, DateOf(timestamps[0]));
    var p90 := P90(byDate);
    var fullDays, stubDays, holidayDays, partialDays: seq<PartialDay> := 0, 0, 0, [];
    ghost var rule := Rule(p90, holidays, isFutures);
    assert Tallied(rule, days[..0], expected, fullDays, stubDays, holidayDays, partialDays);
    hide IsGrouping, P90, Covers, Tallied;
    for i := 0 to |byDate|
      invariant Tallied(rule, days[..i], expected, fullDays, stubDays, holidayDays, partialDays)
    {
      OneDayTallied(rule, days, i, expected, fullDays, stubDays, holidayDays, partialDays);
      var date, count := byDate[i].date, byDate[i].bars;
      var holiday := if date in holidays then Some(holidays[date]) else None;
      if holiday == Some(FullClose) {
        holidayDays := holidayDays + 1;
      } else if holiday == Some(EarlyClose) || holiday == Some(LateOpen) {
        expected, holidayDays := expected + count, holidayDays + 1;
      } else if !isFutures {
        expected, fullDays := expected + count, fullDays + 1;
      } else if count as real < p90 as real * 0.5 {
        expected, stubDays := expected + count, stubDays + 1;
      } else if count < p90 {
        expected := expected + p90;
        partialDays := partialDays + [PartialDay(date, count, p90, p90 - count)];
      } else {
        expected, fullDays := expected + p90, fullDays + 1;
      }
    }
    assert days[..|days|] == days;
    detail := Detail(p90, fullDays, stubDays, |partialDays|, Worst(partialDays), holidayDays);
  }

  // ---- what the estimate means --------------------------------------------------------------------------

  /** How many timestamps fall on one of the listed days. */
  ghost function CountCovered(timestamps: seq<int>, days: seq<Day>): nat {
    if timestamps == [] then 0
    else CountCovered(timestamps[..|timestamps| - 1], days)
         + (if Covers(days, DateOf(timestamps[|timestamps| - 1])) then 1 else 0)
  }

  lemma {:induction false} OneMoreDay(timestamps: seq<int>, days: seq<Day>)
    requires days != [] && DistinctDates(days)
    ensures CountCovered(timestamps, days)
            == CountCovered(timestamps, days[..|days| - 1]) + BarsOn(timestamps, days[|days| - 1].date)
  {
    if timestamps != [] {
      OneMoreDay(timestamps[..|timestamps| - 1], days);
      OneDay(days, DateOf(timestamps[|timestamps| - 1]));
      hide Covers, DistinctDates;
    }
  }

  lemma {:induction false} OneDay(days: seq<Day>, date: int)
    requires days != [] && DistinctDates(days)
    ensures var init, last := days[..|days| - 1], days[|days| - 1].date;
            (Covers(days, date) <==> Covers(init, date) || last == date) && !Covers(init, last)
  {
    var init := days[..|days| - 1];
    if Covers(init, date) {
      var i :| 0 <= i < |init| && init[i].date == date;
      assert days[i].date == date;
    }
    if date == days[|days| - 1].date {
      assert days[|days| - 1].date == date;
    }
  }

  lemma {:induction false} NoDayCoversNone(timestamps: seq<int>)
    ensures CountCovered(timestamps, []) == 0
  {
    if timestamps != [] { NoDayCoversNone(timestamps[..|timestamps| - 1]); }
  }

  lemma {:induction false} AllCovered(timestamps: seq<int>, days: seq<Day>)
    requires forall i :: 0 <= i < |timestamps| ==> Covers(days, DateOf(timestamps[i]))
    ensures CountCovered(timestamps, days) == |timestamps|
  {
    if timestamps != [] { AllCovered(timestamps[..|timestamps| - 1], days); }
  }

  lemma {:induction false} BarsAreCovered(rule: Rule, timestamps: seq<int>, days: seq<Day>)
    requires DistinctDates(days) && forall i :: 0 <= i < |days| ==> days[i].bars == BarsOn(timestamps, days[i].date)
    ensures Sum(rule, days, Actual) == CountCovered(timestamps, days)
  {
    if days == [] {
      NoDayCoversNone(timestamps);
    } else {
      BarsAreCovered(rule, timestamps, days[..|days| - 1]);
      OneMoreDay(timestamps, days);
    }
  }

  /** No bar is lost or counted twice by the grouping. */
  lemma {:induction false} DaysHoldEveryBar(rule: Rule, timestamps: seq<int>, days: seq<Day>)
    requires IsGrouping(days, timestamps)
    ensures Sum(rule, days, Actual) == |timestamps|
  {
    BarsAreCovered(rule, timestamps, days);
    AllCovered(timestamps, days);
  }

  /** Every day is of exactly one kind. */
  lemma {:induction false} KindsPartitionDays(rule: Rule, days: seq<Day>)
    ensures Sum(rule, days, Days(Full)) + Sum(rule, days, Days(Organic)) + Sum(rule, days, Days(Stub))
            + |PartialDays(rule, days)| + Sum(rule, days, Days(Closed)) + Sum(rule, days, Days(Abbreviated)) == |days|
    ensures rule.isFutures ==> Sum(rule, days, Days(Organic)) == 0
    ensures !rule.isFutures ==>
              Sum(rule, days, Days(Full)) + Sum(rule, days, Days(Stub)) + |PartialDays(rule, days)| == 0
  {
    if days != [] { KindsPartitionDays(rule, days[..|days| - 1]); }
  }

  /** What is expected and what is there differ by the shortfall of the partial days on one side, and the surplus
      of the full days and the bars of the closed days on the other. */
  lemma {:induction false} ExpectedBalances(rule: Rule, days: seq<Day>)
    ensures Sum(rule, days, Expected) + Sum(rule, days, Surplus) + Sum(rule, days, ClosedBars)
            == Sum(rule, days, Actual) + Sum(rule, days, Shortfall)
    ensures !rule.isFutures ==> Sum(rule, days, Shortfall) == Sum(rule, days, Surplus) == 0
  {
    if days != [] { ExpectedBalances(rule, days[..|days| - 1]); }
  }

  /** A day that reaches the yardstick outweighs nine that just miss being stubs. */
  lemma {:induction false} ExpectedWithinBars(rule: Rule, days: seq<Day>)
    ensures 20 * Sum(rule, days, Actual)
            >= 11 * Sum(rule, days, Expected)
                + Times(rule.p90, 10 * CountAbove(Counts(days), rule.p90 as int - 1) - |days|)
  {
    if days == [] {
      TimesAdds(rule.p90, 0);
    } else {
      var init, last := days[..|days| - 1], days[|days| - 1];
      ExpectedWithinBars(rule, init);
      assert Counts(days)[..|init|] == Counts(init);
      DayWithinBars(rule, last);
      TimesAdds(rule.p90, 10 * CountAbove(Counts(init), rule.p90 as int - 1) - |init|);
      hide Times, Adds;
    }
  }

  ghost function Times(a: int, b: int): int { a * b }

  lemma TimesAdds(a: int, b: int)
    ensures Times(a, b - 1) == Times(a, b) - a && Times(a, b + 9) == Times(a, b) + 9 * a && Times(a, 0) == 0
  {
  }

  lemma TimesNonNegative(a: int, b: int)
    requires a >= 0 && b >= 0
    ensures Times(a, b) >= 0
  {
  }

  lemma {:induction false} DayWithinBars(rule: Rule, day: Day)
    ensures 20 * day.bars - 11 * Adds(rule, day, Expected)
            >= if day.bars >= rule.p90 then 9 * (rule.p90 as int) else -(rule.p90 as int)
  {
  }

  function CoveragePct(actual: nat, expected: nat): real {
    var pct := if expected > 0 then actual as real / expected as real * 100.0 else 100.0;
    if pct < 100.0 then pct else 100.0
  }

  ghost predicate IsPercentage(pct: real, part: nat, whole: nat) { pct * whole as real == 100.0 * part as real }

  /** Whatever the bars and the holidays, coverage lies between 55 and 100; it is 100 exactly when surplus and
      closed-day bars make up for the shortfall, and so for every stock. */
  lemma {:induction false} CoverageBounds(timestamps: seq<int>, days: seq<Day>, rule: Rule)
    requires timestamps != [] && IsGrouping(days, timestamps) && days != [] && rule.p90 == P90(days)
    ensures var pct := CoveragePct(|timestamps|, Sum(rule, days, Expected));
            && 55.0 <= pct <= 100.0
            && (pct == 100.0 <==> Sum(rule, days, Shortfall) <= Sum(rule, days, Surplus) + Sum(rule, days, ClosedBars))
            && (!rule.isFutures ==> pct == 100.0)
            && (pct < 100.0 ==> IsPercentage(pct, |timestamps|, Sum(rule, days, Expected)))
  {
    hide P90, IsGrouping;
    DaysHoldEveryBar(rule, timestamps, days);
    ExpectedBalances(rule, days);
    ExpectedWithinBars(rule, days);
    P90IsRank(days);
    TimesNonNegative(rule.p90, 10 * CountAbove(Counts(days), rule.p90 as int - 1) - |days|);
    var actual, expected := |timestamps|, Sum(rule, days, Expected);
    hide Sum, CountAbove, Counts, Times, CoveragePct, IsPercentage;
    PctBounds(actual, expected);
  }

  lemma PctBounds(actual: nat, expected: nat)
    requires 20 * actual >= 11 * expected
    ensures var pct := CoveragePct(actual, expected);
            && 55.0 <= pct <= 100.0 && (pct == 100.0 <==> actual >= expected)
            && (pct < 100.0 ==> IsPercentage(pct, actual, expected))
  {
    if expected > 0 {
      RatioBound(actual as real, expected as real);
    }
  }

  lemma RatioBound(a: real, e: real)
    requires e > 0.0 && 20.0 * a >= 11.0 * e
    ensures a / e * 100.0 >= 55.0
    ensures a / e * 100.0 >= 100.0 <==> a >= e
    ensures a / e * 100.0 * e == 100.0 * a
  {
    SameSign(a / e - 0.55, e);
    SameSign(a / e - 1.0, e);
    assert a / e * e == a;
  }

  /** One day of two bars and `n` days of one. */
  ghost function HalfDays(n: nat): (days: seq<Day>)
    ensures |days| == n + 1
  {
    if n == 0 then [Day(0, 2)] else HalfDays(n - 1) + [Day(n, 1)]
  }

  lemma {:induction false} HalfDaysTotals(n: nat)
    ensures var rule := Rule(2, map[], true);
            Sum(rule, HalfDays(n), Expected) == 2 * n + 2 && Sum(rule, HalfDays(n), Actual) == n + 2
  {
    if n == 0 {
      assert HalfDays(0)[..0] == [];
    } else {
      HalfDaysTotals(n - 1);
      assert HalfDays(n)[..n] == HalfDays(n - 1);
    }
  }

  lemma {:induction false} HalfDaysCounts(n: nat)
    ensures var values := Counts(HalfDays(n));
            CountAbove(values, 1) == 1 && CountAbove(values, 2) == 0 && forall i :: 0 <= i <= n ==> 1 <= values[i] <= 2
  {
    var values := Counts(HalfDays(n));
    if n == 0 {
      assert values[..0] == [];
    } else {
      HalfDaysCounts(n - 1);
      assert values[..n] == Counts(HalfDays(n - 1));
    }
  }

  /** The lower bound is attained: nine futures days at half the yardstick and one at it. */
  lemma FiftyFiveIsAttained()
    ensures var days := HalfDays(9);
            var rule := Rule(P90(days), map[], true);
            CoveragePct(Sum(rule, days, Actual), Sum(rule, days, Expected)) == 55.0
  {
    hide P90, Sum, CountAbove, Counts;
    HalfDaysTotals(9);
    HalfDaysCounts(9);
    P90IsRank(HalfDays(9));
  }

  // ---- score and grade ----------------------------------------------------------------------------------

  datatype Grade = A | B | C | D | F

  function ScoreToGrade(score: real): Grade {
    if score >= 95.0 then A
    else if score >= 85.0 then B
    else if score >= 70.0 then C
    else if score >= 50.0 then D
    else F
  }

  predicate IsBad(b: Bar) {
    b.high < b.low || b.high < b.open || b.high < b.close || b.low > b.open || b.low > b.close
    || b.open <= 0.0 || b.close <= 0.0 || b.high <= 0.0 || b.low <= 0.0
  }

  ghost function Bad(rows: seq<Bar>): nat {
    if rows == [] then 0 else Bad(rows[..|rows| - 1]) + if IsBad(rows[|rows| - 1]) then 1 else 0
  }

  method CountBadBars(rows: seq<Bar>) returns (bad: nat)
    ensures bad == Bad(rows)
  {
    bad := 0;
    for i := 0 to |rows|
      invariant bad == Bad(rows[..i])
    {
      assert rows[..i + 1][..i] == rows[..i];
      if IsBad(rows[i]) {
        bad := bad + 1;
      }
    }
    assert rows[..|rows|] == rows;
  }

  /** No bad bar: all prices positive, the low lowest and the high highest. */
  lemma {:induction false} BadBars(rows: seq<Bar>)
    ensures Bad(rows) <= |rows|
    ensures Bad(rows) == 0 <==> forall i :: 0 <= i < |rows| ==>
              0.0 < rows[i].low <= rows[i].open <= rows[i].high && rows[i].low <= rows[i].close <= rows[i].high
  {
    if rows != [] { BadBars(rows[..|rows| - 1]); }
  }

  function IntegrityPct(actual: nat, bad: nat): real {
    if actual > 0 then (actual - bad) as real / actual as real * 100.0 else 100.0
  }

  function ContinuityScore(gaps: nat): real {
    var score := 100.0 - (gaps * 5) as real;
    if score > 0.0 then score else 0.0
  }

  function Score(coverage: real, integrity: real, continuity: real): real {
    coverage * 0.60 + integrity * 0.30 + continuity * 0.10
  }

  /** No ticker with bars scores below 33, one without bad bars is never graded F, one without bad bars and gaps
      at least C, and an F takes more than 13 bad bars in 30. */
  lemma {:induction false} GradeBounds(rows: seq<Bar>, days: seq<Day>, rule: Rule, gaps: nat)
    requires rows != [] && IsGrouping(days, TimesOf(rows)) && days != [] && rule.p90 == P90(days)
    ensures var score := Score(CoveragePct(|rows|, Sum(rule, days, Expected)),
                               IntegrityPct(|rows|, Bad(rows)), ContinuityScore(gaps));
            && 33.0 <= score <= 100.0
            && (Bad(rows) == 0 ==> ScoreToGrade(score) != F)
            && (Bad(rows) == 0 && gaps == 0 ==> ScoreToGrade(score) != F && ScoreToGrade(score) != D)
            && (ScoreToGrade(score) == F ==> 30 * Bad(rows) > 13 * |rows|)
  {
    hide P90, IsGrouping, Sum, CoveragePct, Bad;
    CoverageBounds(TimesOf(rows), days, rule);
    BadBars(rows);
    Share(Bad(rows), |rows|);
  }

  /** What bad bars and gaps cost: thirty points times the share of bad bars, and half a point for each gap up to the
      twentieth, while a point of coverage is worth six tenths. */
  lemma {:induction false} ScoreCosts(actual: nat, bad: nat, coverage: real, gaps: nat)
    requires bad <= actual && actual > 0
    ensures var score := Score(coverage, IntegrityPct(actual, bad), ContinuityScore(gaps));
            && (score - Score(coverage, IntegrityPct(actual, 0), ContinuityScore(gaps))) * actual as real
               == -30.0 * bad as real
            && Score(coverage, IntegrityPct(actual, bad), ContinuityScore(gaps + 1))
               == score - (if gaps < 20 then 0.5 else 0.0)
            && Score(coverage + 1.0, IntegrityPct(actual, bad), ContinuityScore(gaps)) == score + 0.6
            && Score(100.0, IntegrityPct(actual, 0), ContinuityScore(0)) == 100.0
  {
    Share(bad, actual);
    Share(0, actual);
    var i, j, a := IntegrityPct(actual, bad), IntegrityPct(actual, 0), actual as real;
    hide IntegrityPct;
    Weighs(i, a, (actual - bad) as real);
  }

  /** Without bad bars and gaps the grade is a matter of coverage alone: A from 275 thirds, B from 75, and C below. */
  lemma CleanGrades(coverage: real)
    requires 55.0 <= coverage <= 100.0
    ensures var grade := ScoreToGrade(Score(coverage, 100.0, 100.0));
            && (grade == A <==> 3.0 * coverage >= 275.0) && (grade in {A, B} <==> coverage >= 75.0)
            && grade in {A, B, C}
  {
  }

  lemma Weighs(i: real, a: real, g: real)
    requires i * a == 100.0 * g
    ensures (i - 100.0) * 0.30 * a == 30.0 * g - 30.0 * a
  {
  }

  ghost function TimesOf(rows: seq<Bar>): (timestamps: seq<int>)
    ensures |timestamps| == |rows|
  {
    seq(|rows|, i requires 0 <= i < |rows| => rows[i].ts)
  }

  lemma Share(bad: nat, actual: nat)
    requires bad <= actual && actual > 0
    ensures 0.0 <= IntegrityPct(actual, bad) <= 100.0 && (bad == 0 ==> IntegrityPct(actual, bad) == 100.0)
    ensures IntegrityPct(actual, bad) * 3.0 < 170.0 ==> 30 * bad > 13 * actual
    ensures IntegrityPct(actual, bad) * actual as real == 100.0 * (actual - bad) as real
  {
    var a, g := actual as real, (actual - bad) as real;
    SameSign(g / a, a);
    SameSign(1.0 - g / a, a);
    SameSign(g / a * 300.0 - 170.0, a);
    assert g / a * a == g;
  }

  // ---- the universe ------------------------------------------------------------------------------------

  datatype TickerResult = TickerResult(score: real, actualBars: nat)

  ghost function Weight(results: seq<TickerResult>): nat {
    if results == [] then 0 else Weight(results[..|results| - 1]) + results[|results| - 1].actualBars
  }

  ghost function Weighted(results: seq<TickerResult>): real {
    if results == [] then 0.0
    else Weighted(results[..|results| - 1]) + results[|results| - 1].score * results[|results| - 1].actualBars as real
  }

  method UniverseScore(results: seq<TickerResult>) returns (overall: real)
    ensures Weight(results) == 0 ==> overall == 0.0
    ensures overall * Weight(results) as real == Weighted(results)
  {
    var total, sum := 0, 0.0;
    for i := 0 to |results|
      invariant total == Weight(results[..i]) && sum == Weighted(results[..i])
      invariant total == 0 ==> sum == 0.0
    {
      assert results[..i + 1][..i] == results[..i];
      if results[i].actualBars != 0 {
        total, sum := total + results[i].actualBars, sum + results[i].score * results[i].actualBars as real;
      }
    }
    assert results[..|results|] == results;
    overall := if total > 0 then sum / total as real else 0.0;
  }

  /** The overall score lies within any bounds on the scores of the tickers that have bars. */
  lemma {:induction false} OverallWithinScores(results: seq<TickerResult>, overall: real, lo: real, hi: real)
    requires Weight(results) > 0 && overall * Weight(results) as real == Weighted(results)
    requires forall r <- results :: r.actualBars > 0 ==> lo <= r.score <= hi
    ensures lo <= overall <= hi
  {
    WeightedWithin(results, lo, hi);
    SameSign(overall - lo, Weight(results) as real);
    SameSign(hi - overall, Weight(results) as real);
  }

  lemma {:induction false} WeightedWithin(results: seq<TickerResult>, lo: real, hi: real)
    requires forall r <- results :: r.actualBars > 0 ==> lo <= r.score <= hi
    ensures lo * Weight(results) as real <= Weighted(results) <= hi * Weight(results) as real
  {
    if results != [] {
      var init, last := results[..|results| - 1], results[|results| - 1];
      WeightedWithin(init, lo, hi);
      MeanStep(lo, hi, Weighted(init), Weight(init) as real, last.score, last.actualBars as real);
      assert Weight(results) as real == Weight(init) as real + last.actualBars as real;
    }
  }

  lemma MeanStep(lo: real, hi: real, sum: real, weight: real, x: real, w: real)
    requires lo * weight <= sum <= hi * weight && w >= 0.0 && (w > 0.0 ==> lo <= x <= hi)
    ensures lo * (weight + w) <= sum + x * w <= hi * (weight + w)
  {
    Distributes(lo, weight, w);
    Distributes(hi, weight, w);
    if w == 0.0 {
      assert lo * w == 0.0 && hi * w == 0.0 && x * w == 0.0;
    } else {
      Scales(lo, x, w);
      Scales(x, hi, w);
    }
  }

  lemma Distributes(a: real, b: real, c: real)
    ensures a * (b + c) == a * b + a * c
  {
  }

  lemma Scales(a: real, b: real, w: real)
    requires a <= b && w > 0.0
    ensures a * w <= b * w
  {
    SameSign(b - a, w);
    assert (b - a) * w == b * w - a * w;
  }
}
