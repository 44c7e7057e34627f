/** The arithmetic of the investment tracker: what each holding cost, what
    it is worth now, its gain or loss, and the portfolio totals. */
module Portfolio {
  import opened Records
  import opened Lists

  /** `shares * purchase_price` */
  function Cost(inv: Investment): real { inv.shares * inv.purchasePrice }

  /** `shares * current_price` */
  function Value(inv: Investment): real { inv.shares * inv.currentPrice }

  /** `calculateGainLoss`: current value minus purchase cost, which is the
      number of shares times the change in price. */
  function GainLoss(inv: Investment): (g: real)
    ensures g == inv.shares * (inv.currentPrice - inv.purchasePrice)
  {
    Value(inv) - Cost(inv)
  }

  /** `calculateGainLossPercentage`: the gain or loss as a percentage of the
      cost; scaling it back by the cost gives 100 times the gain or loss. */
  function GainLossPercentage(inv: Investment): (p: real)
    requires Cost(inv) != 0.0
    ensures p * Cost(inv) == 100.0 * GainLoss(inv)
  {
    (GainLoss(inv) / Cost(inv)) * 100.0
  }

  /** `totalInvestmentValue` */
  function TotalValue(invs: seq<Investment>): real { Sum(invs, Value) }

  /** `totalInvestmentCost` */
  function TotalCost(invs: seq<Investment>): real { Sum(invs, Cost) }

  /** `totalGainLoss` */
  function TotalGainLoss(invs: seq<Investment>): real { TotalValue(invs) - TotalCost(invs) }

  /** The colour and arrow of a figure: gain (green, up) when it is at
      least 0, loss (red, down) otherwise. */
  datatype Trend = Up | Down

  function TrendOf(x: real): Trend { if x >= 0.0 then Up else Down }

  /** The portfolio's gain or loss is the sum of the holdings' gains and
      losses. */
  lemma {:induction false} TotalGainLossIsSumOfGains(invs: seq<Investment>)
    ensures TotalGainLoss(invs) == Sum(invs, GainLoss)
    decreases |invs|
  {
    if invs != [] {
      TotalGainLossIsSumOfGains(invs[..|invs| - 1]);
    }
  }

  /** For a holding of a positive number of shares, the figure shows a gain
      exactly when the current price is at least the purchase price. */
  lemma GainLossSign(inv: Investment)
    requires inv.shares > 0.0
    ensures GainLoss(inv) >= 0.0 <==> inv.currentPrice >= inv.purchasePrice
    ensures TrendOf(GainLoss(inv)) == Up <==> inv.currentPrice >= inv.purchasePrice
  {
    var d := inv.currentPrice - inv.purchasePrice;
    if d < 0.0 {
      assert inv.shares * d < 0.0;
    } else {
      assert inv.shares * d >= 0.0;
    }
  }

  /** With a positive cost the percentage has the sign of the gain or loss,
      so both figures take the same display branch. */
  lemma PercentageTrendMatchesGainLoss(inv: Investment)
    requires Cost(inv) > 0.0
    ensures GainLossPercentage(inv) >= 0.0 <==> GainLoss(inv) >= 0.0
    ensures GainLossPercentage(inv) > 0.0 <==> GainLoss(inv) > 0.0
    ensures TrendOf(GainLossPercentage(inv)) == TrendOf(GainLoss(inv))
  {
    var p, c, g := GainLossPercentage(inv), Cost(inv), GainLoss(inv);
    assert p * c == 100.0 * g;
    if p < 0.0 {
      assert p * c < 0.0;
    } else if p == 0.0 {
      assert p * c == 0.0;
    } else {
      assert p * c > 0.0;
    }
  }

  /** Putting a holding at the front of the portfolio (a successful add)
      raises value, cost and gain or loss by that holding's own. */
  lemma AddHoldingShiftsTotals(h: Investment, invs: seq<Investment>)
    ensures TotalValue([h] + invs) == Value(h) + TotalValue(invs)
    ensures TotalCost([h] + invs) == Cost(h) + TotalCost(invs)
    ensures TotalGainLoss([h] + invs) == GainLoss(h) + TotalGainLoss(invs)
  {
    SumConcat([h], invs, Value);
    SumConcat([h], invs, Cost);
    assert [h][..0] == [];
  }

  /** 10 shares bought at 100 and now at 150; and the empty portfolio. */
  lemma HoldingExample()
    ensures var inv := Investment("1", "AAPL", 10.0, 100.0, 150.0, "", "u");
      Cost(inv) == 1000.0 && Value(inv) == 1500.0 && GainLoss(inv) == 500.0
      && GainLossPercentage(inv) == 50.0
    ensures TotalValue([]) == 0.0 && TotalCost([]) == 0.0 && TotalGainLoss([]) == 0.0
  {
  }
}
