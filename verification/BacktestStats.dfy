/** Aggregate statistics of a replay, from the R results in trade order. */
module BacktestStats {
  import opened Options

  ghost function Sum(rs: seq<real>): real {
    if rs == [] then 0.0 else Sum(rs[..|rs| - 1]) + rs[|rs| - 1]
  }

  function Positive(r: real): real { if r > 0.0 then r else 0.0 }

  ghost function GrossProfit(rs: seq<real>): real {
    if rs == [] then 0.0 else GrossProfit(rs[..|rs| - 1]) + Positive(rs[|rs| - 1])
  }

  ghost function GrossLoss(rs: seq<real>): real {
    if rs == [] then 0.0 else GrossLoss(rs[..|rs| - 1]) + Positive(-rs[|rs| - 1])
  }

  ghost function Wins(rs: seq<real>): nat {
    if rs == [] then 0 else Wins(rs[..|rs| - 1]) + (if rs[|rs| - 1] > 0.0 then 1 else 0)
  }

  ghost function Losses(rs: seq<real>): nat {
    if rs == [] then 0 else Losses(rs[..|rs| - 1]) + (if rs[|rs| - 1] < 0.0 then 1 else 0)
  }

  /** The trades that won, and those that lost, by position. */
  ghost function Winners(rs: seq<real>): set<nat> { set i: nat | i < |rs| && rs[i] > 0.0 }

  ghost function Losers(rs: seq<real>): set<nat> { set i: nat | i < |rs| && rs[i] < 0.0 }

  lemma {:induction false} CountsAreSizes(rs: seq<real>)
    ensures Wins(rs) == |Winners(rs)| && Losses(rs) == |Losers(rs)|
  {
    if rs != [] {
      CountsAreSizes(rs[..|rs| - 1]);
      LastTrade(rs);
      hide Winners, Losers;
    }
  }

  lemma {:induction false} LastTrade(rs: seq<real>)
    requires rs != []
    ensures var last := |rs| - 1;
            && Winners(rs) == Winners(rs[..last]) + (if rs[last] > 0.0 then {last} else {})
            && Losers(rs) == Losers(rs[..last]) + (if rs[last] < 0.0 then {last} else {})
            && last !in Winners(rs[..last]) && last !in Losers(rs[..last])
  {
  }

  /** The fall of the equity curve from trade `i` to trade `j`; position 0 is the start. */
  ghost function Drop(rs: seq<real>, i: nat, j: nat): real
    requires i <= j <= |rs|
  {
    Sum(rs[..i]) - Sum(rs[..j])
  }

  /** The largest fall from any point of the curve to any later point. */
  ghost predicate IsMaxDrawdown(rs: seq<real>, drawdown: real) {
    && (exists i, j :: 0 <= i <= j <= |rs| && Drop(rs, i, j) == drawdown)
    && (forall i, j :: 0 <= i <= j <= |rs| ==> Drop(rs, i, j) <= drawdown)
  }

  datatype ProfitFactor = Undefined | Infinite | Factor(value: real)

  datatype Stats = Stats(wins: nat, losses: nat, winRate: real, profitFactor: ProfitFactor, expectancy: real,
                         maxDrawdown: real)

  /** None for no trades; otherwise the counts, the averages, the drawdown and the factor, each as it is defined. */
  ghost predicate AreStatsOf(stats: Option<Stats>, rs: seq<real>) {
    && (stats.None? <==> rs == [])
    && (stats.Some? ==>
          var s := stats.value;
          && s.wins == |Winners(rs)| && s.losses == |Losers(rs)|
          && s.winRate * |rs| as real == |Winners(rs)| as real
          && s.expectancy * |rs| as real == Sum(rs)
          && IsMaxDrawdown(rs, s.maxDrawdown)
          && match s.profitFactor
             case Undefined => Winners(rs) == {} && Losers(rs) == {}
             case Infinite => Winners(rs) != {} && Losers(rs) == {}
             case Factor(f) => Losers(rs) != {} && GrossLoss(rs) > 0.0 && f * GrossLoss(rs) == GrossProfit(rs))
  }

  method ComputeStats(rs: seq<real>) returns (stats: Option<Stats>)
    ensures AreStatsOf(stats, rs)
  {
    hide Winners, Losers, Sum, GrossProfit, GrossLoss, Wins, Losses, IsMaxDrawdown, Over;
    if rs == [] {
      return None;
    }
    var wins, losses, grossProfit, grossLoss, total := Tally(rs);
    LossesIffGrossLoss(rs);
    CountsAreSizes(rs);
    var factor := if grossLoss > 0.0 then Factor(Over(grossProfit, grossLoss)) else if wins > 0 then Infinite
                  else Undefined;
    var drawdown := MaxDrawdown(rs);
    var n := |rs| as real;
    return Some(Stats(wins, losses, Over(wins as real, n), factor, Over(total, n), drawdown));
  }

  function Over(x: real, n: real): (q: real)
    requires n > 0.0
    ensures q * n == x
  {
    x / n
  }

  method Tally(rs: seq<real>) returns (wins: nat, losses: nat, grossProfit: real, grossLoss: real, total: real)
    ensures wins == Wins(rs) && losses == Losses(rs)
    ensures grossProfit == GrossProfit(rs) && grossLoss == GrossLoss(rs) && total == Sum(rs)
  {
    wins, losses, grossProfit, grossLoss, total := 0, 0, 0.0, 0.0, 0.0;
    for i := 0 to |rs|
      invariant wins == Wins(rs[..i]) && losses == Losses(rs[..i])
      invariant grossProfit == GrossProfit(rs[..i]) && grossLoss == GrossLoss(rs[..i]) && total == Sum(rs[..i])
    {
      assert rs[..i + 1][..i] == rs[..i];
      total := total + rs[i];
      if rs[i] > 0.0 {
        wins, grossProfit := wins + 1, grossProfit + rs[i];
      }
      if rs[i] < 0.0 {
        losses, grossLoss := losses + 1, grossLoss - rs[i];
      }
    }
    assert rs[..|rs|] == rs;
  }

  /** One pass over the curve, keeping its peak: the result is the maximum over all pairs. */
  method MaxDrawdown(rs: seq<real>) returns (maxDd: real)
    ensures IsMaxDrawdown(rs, maxDd)
  {
    var cumulative, peak := 0.0, 0.0;
    maxDd := 0.0;
    ghost var top, from, till := 0, 0, 0;
    assert rs[..0] == [];
    for n := 0 to |rs|
      invariant cumulative == Sum(rs[..n])
      invariant 0 <= top <= n && peak == Sum(rs[..top]) && forall i :: 0 <= i <= n ==> Sum(rs[..i]) <= peak
      invariant 0 <= from <= till <= n && maxDd == Drop(rs, from, till)
      invariant forall i, j :: 0 <= i <= j <= n ==> Drop(rs, i, j) <= maxDd
    {
      assert rs[..n + 1][..n] == rs[..n];
      cumulative := cumulative + rs[n];
      if cumulative > peak {
        peak, top := cumulative, n + 1;
      }
      var dd := peak - cumulative;
      if dd > maxDd {
        maxDd, from, till := dd, top, n + 1;
      }
    }
  }

  lemma {:induction false} SumIsProfitMinusLoss(rs: seq<real>)
    ensures Sum(rs) == GrossProfit(rs) - GrossLoss(rs) && GrossProfit(rs) >= 0.0 && GrossLoss(rs) >= 0.0
  {
    if rs != [] { SumIsProfitMinusLoss(rs[..|rs| - 1]); }
  }

  lemma {:induction false} LossesIffGrossLoss(rs: seq<real>)
    ensures GrossLoss(rs) >= 0.0 && (Losses(rs) > 0 <==> GrossLoss(rs) > 0.0)
  {
    if rs != [] { LossesIffGrossLoss(rs[..|rs| - 1]); }
  }

  /** With a loss on the books, the profit factor exceeds one exactly when the expectancy is positive, and
      expectancy times trades is what was won less what was lost. */
  lemma {:induction false} FactorAboveOneIffExpectancyPositive(rs: seq<real>)
    requires Losses(rs) > 0
    ensures GrossLoss(rs) > 0.0
    ensures GrossProfit(rs) / GrossLoss(rs) > 1.0 <==> Sum(rs) / |rs| as real > 0.0
    ensures Sum(rs) / |rs| as real * |rs| as real == GrossProfit(rs) - GrossLoss(rs)
  {
    SumIsProfitMinusLoss(rs);
    LossesIffGrossLoss(rs);
    QuotientSign(GrossProfit(rs), GrossLoss(rs));
    QuotientSign(Sum(rs), |rs| as real);
  }

  lemma QuotientSign(x: real, n: real)
    requires n > 0.0
    ensures x / n * n == x
    ensures (x / n > 0.0 <==> x > 0.0) && (x / n > 1.0 <==> x > n)
  {
    var q := x / n;
    assert q * n == x && (q - 1.0) * n == x - n;
    ProductSign(q, n);
    ProductSign(q - 1.0, n);
  }

  lemma ProductSign(q: real, n: real)
    requires n > 0.0
    ensures q * n > 0.0 <==> q > 0.0
  {
    if q > 0.0 {
      assert q * n > 0.0;
    } else {
      assert (-q) * n >= 0.0;
    }
  }

  /** No drawdown is deeper than everything ever lost. */
  lemma {:induction false} DrawdownWithinGrossLoss(rs: seq<real>, drawdown: real)
    requires IsMaxDrawdown(rs, drawdown)
    ensures 0.0 <= drawdown <= GrossLoss(rs)
  {
    assert Drop(rs, 0, 0) == 0.0;
    var i, j :| 0 <= i <= j <= |rs| && Drop(rs, i, j) == drawdown;
    DropWithinLoss(rs, i, j);
    assert rs[..|rs|] == rs;
    LossGrows(rs, i, j);
    LossGrows(rs, j, |rs|);
  }

  lemma {:induction false} DropWithinLoss(rs: seq<real>, i: nat, j: nat)
    requires i <= j <= |rs|
    ensures Drop(rs, i, j) <= GrossLoss(rs[..j]) - GrossLoss(rs[..i])
    decreases j - i
  {
    if i < j {
      DropWithinLoss(rs, i, j - 1);
      assert rs[..j][..j - 1] == rs[..j - 1];
    }
  }

  lemma {:induction false} LossGrows(rs: seq<real>, i: nat, j: nat)
    requires i <= j <= |rs|
    ensures 0.0 <= GrossLoss(rs[..i]) <= GrossLoss(rs[..j])
    decreases j
  {
    if i < j {
      LossGrows(rs, i, j - 1);
      assert rs[..j][..j - 1] == rs[..j - 1];
    } else if i > 0 {
      LossGrows(rs, i - 1, i - 1);
      assert rs[..i][..i - 1] == rs[..i - 1];
    }
  }
}
