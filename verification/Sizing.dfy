/** Position sizing of an automatic order, and the notional guard at the broker. */
module Sizing {
  import opened Options

  datatype Side = Long | Short

  datatype EntryType = Market | Limit

  /** Strategy columns; zero counts as unset where the source writes `x or default`. */
  datatype Terms = Terms(
    riskPct: real, stopPct: real, riskReward: real, limitOffsetPct: real,
    maxPositionUsd: Option<real>, entryType: EntryType
  )

  /** Prices before rounding to cents; `entry` is the price sized on, `limitPrice` what a limit order carries. */
  datatype Position = Position(quantity: int, entry: real, limitPrice: Option<real>, stop: real, target: real,
                               stopDistance: real, riskUsd: real)

  function OrDefault(x: real, default: real): real { if x == 0.0 then default else x }

  function RiskPct(t: Terms): real { OrDefault(t.riskPct, 1.0) }
  function StopPct(t: Terms): real { OrDefault(t.stopPct, 2.0) }
  function RiskReward(t: Terms): real { OrDefault(t.riskReward, 2.0) }

  /** A cap of zero is no cap. */
  function Cap(t: Terms): Option<real> {
    if t.maxPositionUsd.Some? && t.maxPositionUsd.value != 0.0 then t.maxPositionUsd else None
  }

  /** `int(x)`: towards zero. */
  function Truncate(x: real): int { if x >= 0.0 then x.Floor else -((-x).Floor) }

  function EntryPrice(t: Terms, trigger: real, side: Side): real {
    if t.entryType.Limit? && t.limitOffsetPct != 0.0 then
      if side.Long? then trigger * (1.0 + t.limitOffsetPct / 100.0) else trigger * (1.0 - t.limitOffsetPct / 100.0)
    else trigger
  }

  function Lesser(a: real, b: real): real { if b < a then b else a }

  /** The equity share to risk, clamped to the risk of a position of the capped size. */
  function RiskAmount(t: Terms, equity: real): real {
    var budget := equity * RiskPct(t) / 100.0;
    if Cap(t).None? then budget else Lesser(budget, Cap(t).value * StopPct(t) / 100.0)
  }

  function Calculate(t: Terms, trigger: real, side: Side, equity: real): Position {
    var risk := RiskAmount(t, equity);
    var entry := EntryPrice(t, trigger, side);
    var distance := entry * StopPct(t) / 100.0;
    var reward := distance * RiskReward(t);
    var stop := if side.Long? then entry - distance else entry + distance;
    var target := if side.Long? then entry + reward else entry - reward;
    var quantity := if distance > 0.0 then Truncate(risk / distance) else 0;
    var limitPrice := if t.entryType.Limit? then Some(entry) else None;
    Position(quantity, entry, limitPrice, stop, target, distance, quantity as real * distance)
  }

  /** What the sizing expects of a usable strategy and quote. */
  predicate Usable(t: Terms, trigger: real, side: Side, equity: real) {
    && trigger > 0.0 && equity > 0.0 && RiskPct(t) > 0.0 && StopPct(t) > 0.0
    && EntryPrice(t, trigger, side) > 0.0 && (Cap(t).Some? ==> Cap(t).value > 0.0)
  }

  /** A number of shares whose loss at the stop, 2 percent of the entry by default, fits the budget, 1 percent of the
      equity by default, and whose value fits the cap, if there is one and it is not zero. */
  ghost predicate Fits(t: Terms, trigger: real, side: Side, equity: real, shares: int) {
    var entry := EntryPrice(t, trigger, side);
    var stopPct, riskPct := if t.stopPct == 0.0 then 2.0 else t.stopPct, if t.riskPct == 0.0 then 1.0 else t.riskPct;
    && shares as real * (entry * stopPct / 100.0) <= equity * riskPct / 100.0
    && match t.maxPositionUsd
       case None => true
       case Some(cap) => cap != 0.0 ==> shares as real * entry <= cap
  }

  /** The quantity is the largest whole number of shares that fits, and the risk on record is what they lose at the
      stop. */
  lemma {:induction false} QuantityIsLargest(t: Terms, trigger: real, side: Side, equity: real)
    requires Usable(t, trigger, side, equity)
    ensures var q := Calculate(t, trigger, side, equity).quantity;
            q >= 0 && Fits(t, trigger, side, equity, q)
            && 100.0 * Calculate(t, trigger, side, equity).riskUsd
               == q as real * (StopPct(t) * EntryPrice(t, trigger, side))
            && forall shares: int :: Fits(t, trigger, side, equity, shares) ==> shares <= q
  {
    hide Calculate, RiskAmount, Truncate, Fits, Usable, EntryPrice, StopPct;
    var p := Calculate(t, trigger, side, equity);
    RiskOnRecord(t, trigger, side, equity);
    PositiveAmounts(t, trigger, side, equity);
    FloorQuotient(RiskAmount(t, equity), p.stopDistance);
    FitsIff(t, trigger, side, equity, p.quantity);
    forall shares: int | Fits(t, trigger, side, equity, shares) ensures shares <= p.quantity {
      FitsIff(t, trigger, side, equity, shares);
      FloorLargest(RiskAmount(t, equity), p.stopDistance, shares);
    }
  }

  lemma {:induction false} RiskOnRecord(t: Terms, trigger: real, side: Side, equity: real)
    ensures var p := Calculate(t, trigger, side, equity);
            100.0 * p.riskUsd == p.quantity as real * (StopPct(t) * EntryPrice(t, trigger, side))
  {
    var p := Calculate(t, trigger, side, equity);
    var n, entry, stopPct := p.quantity as real, EntryPrice(t, trigger, side), StopPct(t);
    assert p.riskUsd == n * (entry * stopPct / 100.0);
    hide Calculate, EntryPrice, StopPct;
    Percent(n, entry, stopPct);
  }

  lemma Percent(n: real, e: real, s: real)
    ensures 100.0 * (n * (e * s / 100.0)) == n * (s * e)
  {
    assert n * (e * s / 100.0) == n * (e * s) / 100.0;
  }

  lemma {:induction false} PositiveAmounts(t: Terms, trigger: real, side: Side, equity: real)
    requires Usable(t, trigger, side, equity)
    ensures var p := Calculate(t, trigger, side, equity);
            && RiskAmount(t, equity) > 0.0 && p.stopDistance > 0.0
            && p.quantity == Truncate(RiskAmount(t, equity) / p.stopDistance)
  {
    assert equity * RiskPct(t) > 0.0 && EntryPrice(t, trigger, side) * StopPct(t) > 0.0;
    if Cap(t).Some? { assert Cap(t).value * StopPct(t) > 0.0; }
  }

  /** Fitting both limits is fitting the smaller of the two risk amounts. */
  lemma {:induction false} FitsIff(t: Terms, trigger: real, side: Side, equity: real, shares: int)
    requires Usable(t, trigger, side, equity)
    ensures Fits(t, trigger, side, equity, shares)
            <==> shares as real * Calculate(t, trigger, side, equity).stopDistance <= RiskAmount(t, equity)
  {
    var n, entry, stopPct := shares as real, EntryPrice(t, trigger, side), StopPct(t);
    var distance := entry * stopPct / 100.0;
    assert Calculate(t, trigger, side, equity).stopDistance == distance;
    FitsMeans(t, trigger, side, equity, shares);
    hide Calculate, EntryPrice, StopPct, RiskPct, Usable, Fits;
    if Cap(t).Some? {
      ScaleBoth(n * entry, Cap(t).value, stopPct);
      Regroup(n, entry, stopPct);
      assert n * entry <= Cap(t).value <==> n * distance <= Cap(t).value * stopPct / 100.0;
    }
  }

  lemma {:induction false} FitsMeans(t: Terms, trigger: real, side: Side, equity: real, shares: int)
    ensures var n, entry := shares as real, EntryPrice(t, trigger, side);
            Fits(t, trigger, side, equity, shares)
            <==> n * (entry * StopPct(t) / 100.0) <= equity * RiskPct(t) / 100.0
                 && (Cap(t).Some? ==> n * entry <= Cap(t).value)
  {
    hide EntryPrice;
  }

  lemma Regroup(n: real, e: real, s: real)
    ensures n * e * s / 100.0 == n * (e * s / 100.0)
  {
    assert n * e * s == n * (e * s);
  }

  lemma ScaleBoth(a: real, b: real, s: real)
    requires s > 0.0
    ensures a <= b <==> a * s / 100.0 <= b * s / 100.0
  {
    if a <= b {
      ScaledMonotone(a, b, s);
    } else {
      assert (a - b) * s > 0.0;
      assert (a - b) * s == a * s - b * s;
    }
  }

  lemma ScaledMonotone(a: real, b: real, s: real)
    requires a <= b && s >= 0.0
    ensures a * s <= b * s
  {
    assert (b - a) * s >= 0.0;
  }

  lemma FloorQuotient(x: real, d: real)
    requires x >= 0.0 && d > 0.0
    ensures var q := Truncate(x / d);
            q >= 0 && q as real * d <= x < (q + 1) as real * d
  {
    var ratio := x / d;
    assert ratio * d == x && ratio >= 0.0;
    var q := ratio.Floor;
    ScaledMonotone(q as real, ratio, d);
    assert ((q + 1) as real - ratio) * d > 0.0;
    assert ((q + 1) as real - ratio) * d == (q + 1) as real * d - ratio * d;
  }

  lemma FloorLargest(x: real, d: real, n: int)
    requires x >= 0.0 && d > 0.0 && n as real * d <= x
    ensures n <= Truncate(x / d)
  {
    FloorQuotient(x, d);
    var q := Truncate(x / d);
    ScaledMonotone(if n <= q then 0.0 else (q + 1) as real, if n <= q then 0.0 else n as real, d);
  }

  /** A quantity of at least one share takes usable terms, given a positive stop percentage, and one share that fits. */
  lemma {:induction false} ShareAffordableIff(t: Terms, trigger: real, side: Side, equity: real)
    requires trigger > 0.0 && equity > 0.0 && StopPct(t) > 0.0
    ensures Calculate(t, trigger, side, equity).quantity > 0
            <==> Usable(t, trigger, side, equity) && Fits(t, trigger, side, equity, 1)
  {
    if Usable(t, trigger, side, equity) {
      QuantityIsLargest(t, trigger, side, equity);
      hide Calculate, Usable;
      if Calculate(t, trigger, side, equity).quantity > 0 {
        FewerFit(t, trigger, side, equity, Calculate(t, trigger, side, equity).quantity, 1);
      }
    } else {
      UnusableBuysNothing(t, trigger, side, equity);
    }
  }

  lemma {:induction false} FewerFit(t: Terms, trigger: real, side: Side, equity: real, shares: int, fewer: int)
    requires fewer <= shares && Fits(t, trigger, side, equity, shares)
    requires EntryPrice(t, trigger, side) > 0.0 && StopPct(t) > 0.0
    ensures Fits(t, trigger, side, equity, fewer)
  {
    var entry, stopPct := EntryPrice(t, trigger, side), StopPct(t);
    FitsMeans(t, trigger, side, equity, shares);
    FitsMeans(t, trigger, side, equity, fewer);
    hide Fits, EntryPrice, StopPct, RiskPct, Cap;
    PositiveFactor(entry, stopPct);
    CostsLess(shares as real, fewer as real, entry * stopPct / 100.0, equity * RiskPct(t) / 100.0);
    if Cap(t).Some? { CostsLess(shares as real, fewer as real, entry, Cap(t).value); }
  }

  lemma CostsLess(shares: real, fewer: real, price: real, budget: real)
    requires fewer <= shares && price > 0.0 && shares * price <= budget
    ensures fewer * price <= budget
  {
    ScaledMonotone(fewer, shares, price);
  }

  lemma {:induction false} UnusableBuysNothing(t: Terms, trigger: real, side: Side, equity: real)
    requires trigger > 0.0 && equity > 0.0 && StopPct(t) > 0.0 && !Usable(t, trigger, side, equity)
    ensures Calculate(t, trigger, side, equity).quantity <= 0
  {
    var entry, stopPct, risk := EntryPrice(t, trigger, side), StopPct(t), RiskAmount(t, equity);
    var distance := entry * stopPct / 100.0;
    if distance > 0.0 {
      PositiveFactor(entry, stopPct);
      PositiveFactor(RiskPct(t), equity);
      if Cap(t).Some? { PositiveFactor(Cap(t).value, stopPct); }
      assert risk <= 0.0;
      QuotientNotPositive(risk, distance);
    }
  }

  lemma PositiveFactor(a: real, b: real)
    requires b > 0.0
    ensures a * b > 0.0 <==> a > 0.0
  {
    if a > 0.0 {
      assert a * b > 0.0;
    } else {
      assert (-a) * b >= 0.0;
    }
  }

  lemma QuotientNotPositive(x: real, d: real)
    requires x <= 0.0 && d > 0.0
    ensures Truncate(x / d) <= 0
  {
    var q := x / d;
    assert q * d == x;
    PositiveFactor(q, d);
  }

  /** Stop and target lie on either side of the entry, and the reward is `riskReward` times the risk, which is `stopPct`
      percent of the entry; a limit price is off the trigger by the offset, above for a long and below for a short. */
  lemma {:induction false} StopAndTargetStraddle(t: Terms, trigger: real, side: Side, equity: real)
    requires Usable(t, trigger, side, equity) && RiskReward(t) > 0.0
    ensures var p := Calculate(t, trigger, side, equity);
            && (if side.Long? then p.stop < p.entry < p.target else p.target < p.entry < p.stop)
            && (if side.Long? then p.target - p.entry == RiskReward(t) * (p.entry - p.stop)
                else p.entry - p.target == RiskReward(t) * (p.stop - p.entry))
            && 100.0 * (if side.Long? then p.entry - p.stop else p.stop - p.entry) == StopPct(t) * p.entry
            && p.limitPrice == (if t.entryType.Limit? then Some(p.entry) else None)
            && 100.0 * (if side.Long? then p.entry - trigger else trigger - p.entry)
               == (if t.entryType.Limit? then t.limitOffsetPct * trigger else 0.0)
  {
    PositiveAmounts(t, trigger, side, equity);
    var p := Calculate(t, trigger, side, equity);
    assert p.stopDistance * RiskReward(t) > 0.0;
  }

  // ---- the broker's guard -----------------------------------------------------------------------------

  datatype Limits = Limits(maxNotional: real, maxQuantity: int)

  /** The highest of the prices at hand; a market order has no entry price. */
  function PriceBasis(limitPrice: Option<real>, stop: real, target: real): real {
    var top := if target < stop then stop else target;
    if limitPrice.Some? && top < limitPrice.value then limitPrice.value else top
  }

  /** The guards at the head of `place_bracket_order`, after the kill switch and the arming flag. */
  predicate Accepted(quantity: int, limitPrice: Option<real>, stop: real, target: real, limits: Limits) {
    var basis := PriceBasis(limitPrice, stop, target);
    quantity > 0 && basis > 0.0 && quantity as real * basis <= limits.maxNotional && quantity <= limits.maxQuantity
  }

  /** The notional the guard sees is at most the strategy's cap, stretched to the target of a long and to the
      stop of a short. */
  lemma {:induction false} GuardNotionalWithinCap(t: Terms, trigger: real, side: Side, equity: real)
    requires Usable(t, trigger, side, equity) && RiskReward(t) > 0.0 && Cap(t).Some?
    ensures var p := Calculate(t, trigger, side, equity);
            p.quantity as real * PriceBasis(p.limitPrice, p.stop, p.target) <= Cap(t).value * Stretch(t, side)
  {
    QuantityIsLargest(t, trigger, side, equity);
    BasisIsStretchedEntry(t, trigger, side, equity);
    var p := Calculate(t, trigger, side, equity);
    var shares, entry, cap, stretch := p.quantity as real, EntryPrice(t, trigger, side), Cap(t).value, Stretch(t, side);
    hide Calculate, PriceBasis, Usable, Fits, EntryPrice, Cap, Stretch, StopPct, RiskReward, RiskPct, RiskAmount;
    FitsMeans(t, trigger, side, equity, p.quantity);
    assert shares * entry <= cap;
    ScaledNotional(shares, entry, PriceBasis(p.limitPrice, p.stop, p.target), cap, stretch);
  }

  /** How far the highest price of a bracket lies above its entry. */
  function Stretch(t: Terms, side: Side): real {
    if side.Long? then 1.0 + StopPct(t) / 100.0 * RiskReward(t) else 1.0 + StopPct(t) / 100.0
  }

  lemma {:induction false} BasisIsStretchedEntry(t: Terms, trigger: real, side: Side, equity: real)
    requires Usable(t, trigger, side, equity) && RiskReward(t) > 0.0
    ensures var p := Calculate(t, trigger, side, equity);
            && PriceBasis(p.limitPrice, p.stop, p.target) == EntryPrice(t, trigger, side) * Stretch(t, side)
            && Stretch(t, side) > 0.0
  {
    var p := Calculate(t, trigger, side, equity);
    var entry, stopPct, rr := EntryPrice(t, trigger, side), StopPct(t), RiskReward(t);
    StopAndTargetStraddle(t, trigger, side, equity);
    assert p.entry == entry && (p.limitPrice.Some? ==> p.limitPrice.value == entry);
    assert side.Long? ==> p.target == entry + entry * stopPct / 100.0 * rr;
    assert side.Short? ==> p.stop == entry + entry * stopPct / 100.0;
    assert stopPct > 0.0;
    hide Calculate, EntryPrice, StopPct, RiskReward, Usable;
    assert PriceBasis(p.limitPrice, p.stop, p.target) == if side.Long? then p.target else p.stop;
    hide PriceBasis;
    Stretched(entry, stopPct, rr);
  }

  lemma ScaledNotional(n: real, e: real, basis: real, cap: real, stretch: real)
    requires n * e <= cap && stretch > 0.0 && basis == e * stretch
    ensures n * basis <= cap * stretch
  {
    ScaledMonotone(n * e, cap, stretch);
    assert n * (e * stretch) == n * e * stretch;
  }

  lemma Stretched(e: real, s: real, r: real)
    requires s > 0.0 && r > 0.0
    ensures e + e * s / 100.0 * r == e * (1.0 + s / 100.0 * r) && s / 100.0 * r > 0.0
    ensures e + e * s / 100.0 == e * (1.0 + s / 100.0)
  {
    assert e * s / 100.0 == e * (s / 100.0);
    assert e * (s / 100.0) * r == e * (s / 100.0 * r);
  }

  /** A sized order passes the guards exactly when the risk buys a share, the shares are not too many, and their value,
      stretched from the entry price to the highest price of the bracket, is not too much. */
  lemma {:induction false} SizedOrderAcceptedIff(t: Terms, trigger: real, side: Side, equity: real, limits: Limits)
    requires Usable(t, trigger, side, equity) && RiskReward(t) > 0.0
    ensures var p := Calculate(t, trigger, side, equity);
            Accepted(p.quantity, p.limitPrice, p.stop, p.target, limits)
            <==> RiskAmount(t, equity) >= p.stopDistance && p.quantity <= limits.maxQuantity
                 && p.quantity as real * (EntryPrice(t, trigger, side) * Stretch(t, side)) <= limits.maxNotional
  {
    StopAndTargetStraddle(t, trigger, side, equity);
    BasisIsStretchedEntry(t, trigger, side, equity);
    var p := Calculate(t, trigger, side, equity);
    assert PriceBasis(p.limitPrice, p.stop, p.target) > 0.0;
    hide Calculate, RiskAmount, Truncate, Usable, PriceBasis, EntryPrice, Stretch;
    PositiveAmounts(t, trigger, side, equity);
    QuantityPositiveIff(RiskAmount(t, equity), p.stopDistance);
  }

  /** With a cap whose stretch fits the notional limit, the notional guard never refuses: what is left to fail is a
      risk too small for one share, or too many shares. */
  lemma {:induction false} CappedOrderAcceptedIff(t: Terms, trigger: real, side: Side, equity: real, limits: Limits)
    requires Usable(t, trigger, side, equity) && RiskReward(t) > 0.0
    requires Cap(t).Some? && Cap(t).value * Stretch(t, side) <= limits.maxNotional
    ensures var p := Calculate(t, trigger, side, equity);
            Accepted(p.quantity, p.limitPrice, p.stop, p.target, limits)
            <==> RiskAmount(t, equity) >= p.stopDistance && p.quantity <= limits.maxQuantity
  {
    GuardNotionalWithinCap(t, trigger, side, equity);
    BasisIsStretchedEntry(t, trigger, side, equity);
    SizedOrderAcceptedIff(t, trigger, side, equity, limits);
    hide Calculate, RiskAmount, Usable, PriceBasis, EntryPrice, Stretch;
  }

  lemma QuantityPositiveIff(x: real, d: real)
    requires x >= 0.0 && d > 0.0
    ensures Truncate(x / d) > 0 <==> x >= d
  {
    var q := Truncate(x / d);
    FloorQuotient(x, d);
    if x >= d {
      FloorLargest(x, d, 1);
    } else if q >= 1 {
      hide Truncate;
      ScaledMonotone(1.0, q as real, d);
    }
  }
}
