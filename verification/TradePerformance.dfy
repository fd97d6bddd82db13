/** Win and loss aggregates of an account's trades, as the P&L summary derives them. */
module TradePerformance {
  import opened Common
  import opened PaperEngine
  import opened PaperLedger

  predicate IsWin(t: Trade) { t.realizedPnL > 0.0 }

  predicate IsLoss(t: Trade) { t.realizedPnL < 0.0 }

  datatype Performance = Performance(
    grossProfit: real, grossLoss: real, winRate: Option<real>, profitFactor: Option<real>, expectancy: Option<real>)

  function GrossProfit(trades: seq<Trade>): real { Sum(Filter(trades, IsWin), RealizedOf) }

  function GrossLoss(trades: seq<Trade>): real { Sum(Filter(trades, IsLoss), RealizedOf) }

  function AverageOf(total: real, n: nat): Option<real> {
    if n > 0 then Some(total / n as real) else None
  }

  function Summarize(trades: seq<Trade>): Performance {
    var wins, losses := |Filter(trades, IsWin)|, |Filter(trades, IsLoss)|;
    var grossProfit, grossLoss := GrossProfit(trades), GrossLoss(trades);
    var avgWin, avgLoss := AverageOf(grossProfit, wins), AverageOf(grossLoss, losses);
    Performance(
      grossProfit, grossLoss,
      if wins + losses > 0 then Some(Share(wins, losses)) else None,
      if grossLoss < 0.0 then Some(grossProfit / -grossLoss) else None,
      if wins + losses > 0 && avgWin.Some? && avgLoss.Some? then
        Some(Blend(Share(wins, losses), avgWin.value, avgLoss.value))
      else None)
  }

  function Share(wins: nat, losses: nat): real
    requires wins + losses > 0
  {
    wins as real / (wins + losses) as real
  }

  function Blend(rate: real, avgWin: real, avgLoss: real): real {
    rate * avgWin + (1.0 - rate) * avgLoss
  }

  function Gain(t: Trade): real { if t.realizedPnL > 0.0 then t.realizedPnL else 0.0 }

  function Loss(t: Trade): real { if t.realizedPnL < 0.0 then -t.realizedPnL else 0.0 }

  /** For every trade list, gross profit is the sum of the gains and gross loss that of the
      losses as a negative number; they add up to realized P&L, neither has the other's sign,
      and each is zero exactly when there is no such trade. */
  lemma {:induction false} GrossesAddUp(trades: seq<Trade>)
    ensures Summarize(trades).grossProfit == GrossProfit(trades) == Sum(trades, Gain)
    ensures Summarize(trades).grossLoss == GrossLoss(trades) == -Sum(trades, Loss)
    ensures GrossProfit(trades) + GrossLoss(trades) == Sum(trades, RealizedOf)
    ensures GrossProfit(trades) >= 0.0 >= GrossLoss(trades)
    ensures GrossProfit(trades) == 0.0 <==> Filter(trades, IsWin) == []
    ensures GrossLoss(trades) == 0.0 <==> Filter(trades, IsLoss) == []
  {
    if trades != [] {
      GrossesAddUp(Init(trades));
      hide Filter, AverageOf, Share, Blend;
      SumFilterStep(trades, IsWin, RealizedOf);
      SumFilterStep(trades, IsLoss, RealizedOf);
    }
  }

  lemma ShareOfDecided(wins: nat, losses: nat)
    requires wins + losses > 0
    ensures Share(wins, losses) * (wins + losses) as real == wins as real
    ensures (1.0 - Share(wins, losses)) * (wins + losses) as real == losses as real
  {
    var n, rate := (wins + losses) as real, Share(wins, losses);
    assert rate * n == wins as real;
    assert (1.0 - rate) * n == n - rate * n;
  }

  lemma BlendOfAverages(gp: real, gl: real, wins: nat, losses: nat)
    requires wins > 0 && losses > 0
    ensures Blend(Share(wins, losses), gp / wins as real, gl / losses as real) * (wins + losses) as real == gp + gl
  {
    hide Share;
    ShareOfDecided(wins, losses);
    var n, rate, x, y := (wins + losses) as real, Share(wins, losses), gp / wins as real, gl / losses as real;
    assert x * wins as real == gp && y * losses as real == gl;
    Regroup(rate, x, n);
    Regroup(1.0 - rate, y, n);
    assert Blend(rate, x, y) * n == rate * x * n + (1.0 - rate) * y * n;
  }

  lemma Regroup(a: real, b: real, n: real)
    ensures a * b * n == b * (a * n)
  {
  }

  /** With wins and losses both present, expectancy is the mean realized P&L of a decided
      trade: multiplied by their number it gives realized P&L back. */
  lemma ExpectancyIsMeanOfDecidedTrades(trades: seq<Trade>)
    ensures var s, wins, losses := Summarize(trades), |Filter(trades, IsWin)|, |Filter(trades, IsLoss)|;
            && (s.expectancy.Some? <==> wins > 0 && losses > 0)
            && (s.expectancy.Some? ==> s.expectancy.value * (wins + losses) as real == Sum(trades, RealizedOf))
            && (s.winRate == None <==> wins + losses == 0)
            && (s.winRate.Some? ==> s.winRate.value * (wins + losses) as real == wins as real)
  {
    hide Share, Blend, GrossProfit, GrossLoss, Filter, Sum;
    GrossesAddUp(trades);
    var wins, losses := |Filter(trades, IsWin)|, |Filter(trades, IsLoss)|;
    if wins > 0 && losses > 0 {
      BlendOfAverages(GrossProfit(trades), GrossLoss(trades), wins, losses);
    }
    if wins + losses > 0 {
      ShareOfDecided(wins, losses);
    }
  }

  /** The profit factor exists exactly when some trade lost; it is how often the gains cover the
      losses, and exceeds 1 exactly when the trades made money overall. */
  lemma ProfitFactorAboveOneIff(trades: seq<Trade>)
    ensures var s := Summarize(trades);
            && (s.profitFactor.Some? <==> Filter(trades, IsLoss) != [])
            && (s.profitFactor.Some? ==> s.profitFactor.value * Sum(trades, Loss) == Sum(trades, Gain))
            && (s.profitFactor.Some? ==> (s.profitFactor.value > 1.0 <==> Sum(trades, RealizedOf) > 0.0))
  {
    hide Share, Blend, GrossProfit, GrossLoss, Filter, Sum, Gain, Loss;
    GrossesAddUp(trades);
    var s := Summarize(trades);
    if s.grossLoss < 0.0 {
      QuotientAboveOne(s.grossProfit, -s.grossLoss);
    }
  }

  lemma QuotientAboveOne(x: real, y: real)
    requires y > 0.0
    ensures x / y > 1.0 <==> x > y
    ensures x / y * y == x
  {
    var z := x / y;
    assert z * y == x;
    if z > 1.0 {
      assert (z - 1.0) * y > 0.0;
    } else {
      assert (1.0 - z) * y >= 0.0;
    }
  }
}
