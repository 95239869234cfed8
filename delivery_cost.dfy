/** The delivery (CNC) charge calculator: the same shape as the intraday one, with
    no brokerage, STT on the whole turnover and a flat depository charge on a sale. */
module DeliveryCost {
  import opened PyNum
  import IntradayCost

  /** Flat depository-participant charge levied when there is a sell leg. */
  const DP_CHARGE: real := 15.93

  /** Every figure the calculator object holds after construction. */
  datatype Charges = Charges(
    buyingPrice: real,
    sellingPrice: real,
    quantity: int,
    profitOrLoss: real,
    turnover: real,
    brokerageCharges: real,
    sttTotal: real,
    netTransactionCharges: real,
    dpCharges: real,
    stampDuty: real,
    sebiCharges: real,
    gst: real,
    totalTaxAndCharges: real,
    netPL: real)

  /** The constructor followed by `equity_charges`. */
  function Compute(buyingPrice: real, sellingPrice: real, quantity: int): (c: Charges)
    ensures c.buyingPrice == buyingPrice && c.sellingPrice == sellingPrice && c.quantity == quantity
  {
    var q := quantity as real;
    var profitOrLoss := (sellingPrice - buyingPrice) * q;
    var turnover := (buyingPrice + sellingPrice) * q;
    var brokerage := 0.0;
    var stt := (0.1 / 100.0) * turnover;
    var transaction := Round2((0.00345 / 100.0) * turnover);
    var dp := if sellingPrice != 0.0 then DP_CHARGE else 0.0;
    var stamp := Round2((1500.0 / 10000000.0) * buyingPrice * q);
    var sebi := Round2(((turnover / 10000000.0) * 10.0) * 1.18);
    var gst := 0.18 * (brokerage + transaction + sebi / 1.18);
    var total := brokerage + stt + transaction + dp + stamp + gst + sebi;
    Charges(buyingPrice, sellingPrice, quantity, profitOrLoss, turnover, brokerage, stt,
            transaction, dp, stamp, sebi, gst, total, profitOrLoss - total)
  }

  /** Brokerage is zero, STT is 0.1% of turnover, and the depository charge is levied
      exactly when there is a (non-zero) selling price. */
  lemma BrokerageSttAndDp(b: real, s: real, q: int)
    ensures var c := Compute(b, s, q);
      && c.brokerageCharges == 0.0
      && c.sttTotal == 0.001 * c.turnover
      && (c.dpCharges == DP_CHARGE <==> s != 0.0)
      && (c.dpCharges == 0.0 <==> s == 0.0)
      && c.stampDuty == Round2(0.00015 * b * q as real)
  {
  }

  /** The exchange charge, the SEBI fee and the GST rule are the intraday calculator's. */
  lemma SharedLeviesMatchIntraday(b: real, s: real, q: int)
    ensures var d, i := Compute(b, s, q), IntradayCost.Compute(b, s, q);
      && d.profitOrLoss == i.profitOrLoss && d.turnover == i.turnover
      && d.netTransactionCharges == i.netTransactionCharges
      && d.sebiCharges == i.sebiCharges
      && d.gst == 0.18 * (d.brokerageCharges + d.netTransactionCharges + d.sebiCharges / 1.18)
  {
  }

  /** The total is exactly the seven components, and the net P&L is gross minus the total. */
  lemma TotalIsSumOfComponents(b: real, s: real, q: int)
    ensures var c := Compute(b, s, q);
      && c.totalTaxAndCharges == c.brokerageCharges + c.sttTotal + c.netTransactionCharges
           + c.dpCharges + c.stampDuty + c.gst + c.sebiCharges
      && c.netPL == c.profitOrLoss - c.totalTaxAndCharges
  {
  }

  /** With non-negative inputs and a sale, the charges are at least the depository
      charge, so the net P&L is at least that far below the gross P&L. */
  lemma {:induction false} SaleCostsAtLeastDp(b: real, s: real, q: int)
    requires b >= 0.0 && s >= 0.0 && q >= 0
    ensures var c := Compute(b, s, q);
      && c.totalTaxAndCharges >= 0.0
      && (s != 0.0 ==> c.totalTaxAndCharges >= DP_CHARGE && c.netPL <= c.profitOrLoss - DP_CHARGE)
  {
    var qr := q as real;
    assert (b + s) * qr >= 0.0 by { MulNonNeg(b + s, qr); }
    assert b * qr >= 0.0 by { MulNonNeg(b, qr); }
    assert (1500.0 / 10000000.0) * b * qr == (1500.0 / 10000000.0) * (b * qr);
  }

  /** Buying and selling ten shares at 100: the delivery schedule charges 18.1626 with
      no brokerage, the intraday one 0.8456 of which 0.6 is brokerage. */
  lemma {:induction false} HundredByTenExample()
    ensures Compute(100.0, 100.0, 10).totalTaxAndCharges == 18.1626
    ensures Compute(100.0, 100.0, 10).brokerageCharges == 0.0
    ensures IntradayCost.Compute(100.0, 100.0, 10).totalTaxAndCharges == 0.8456
    ensures IntradayCost.Compute(100.0, 100.0, 10).brokerageCharges == 0.6
  {
    assert (0.069 * 100.0 + 0.5).Floor == 7;
    assert (0.15 * 100.0 + 0.5).Floor == 15;
    assert (0.03 * 100.0 + 0.5).Floor == 3;
    assert (0.00236 * 100.0 + 0.5).Floor == 0;
  }
}
