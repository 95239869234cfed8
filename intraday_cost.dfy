/** The intraday (MIS) charge calculator: a closed-form schedule of brokerage,
    taxes and levies over one buy leg and one sell leg of the same quantity. */
module IntradayCost {
  import opened PyNum

  /** Brokerage is 0.03% of turnover, capped at this amount. */
  const BROKERAGE_CAP: real := 40.0

  /** Every figure the calculator object holds after construction. */
  datatype Charges = Charges(
    buyingPrice: real,
    sellingPrice: real,
    quantity: int,
    profitOrLoss: real,
    turnover: real,
    brokerageCharges: real,
    sttTotal: real,
    netTransactionCharges: real,
    clearingCharges: real,
    stampDuty: real,
    sebiCharges: real,
    gst: real,
    totalTaxAndCharges: real,
    netPL: real)

  /** The constructor followed by `equity_charges`. */
  function Compute(buyingPrice: real, sellingPrice: real, quantity: int): (c: Charges)
    ensures c.buyingPrice == buyingPrice && c.sellingPrice == sellingPrice && c.quantity == quantity
  {
    var q := quantity as real;
    var profitOrLoss := (sellingPrice - buyingPrice) * q;
    var turnover := (buyingPrice + sellingPrice) * q;
    var brokerage := if turnover * (0.03 / 100.0) < BROKERAGE_CAP then turnover * (0.03 / 100.0) else BROKERAGE_CAP;
    var stt := (0.025 / 100.0) * sellingPrice;
    var transaction := Round2((0.00345 / 100.0) * turnover);
    var clearing := 0.0;
    var stamp := Round2((300.0 / 10000000.0) * buyingPrice * q);
    var sebi := Round2(((turnover / 10000000.0) * 10.0) * 1.18);
    var gst := 0.18 * (brokerage + transaction + sebi / 1.18);
    var total := brokerage + stt + transaction + clearing + stamp + gst + sebi;
    Charges(buyingPrice, sellingPrice, quantity, profitOrLoss, turnover, brokerage, stt,
            transaction, clearing, stamp, sebi, gst, total, profitOrLoss - total)
  }

  /** Gross P&L and turnover are the two legs' difference and sum, times the quantity. */
  lemma GrossAndTurnover(b: real, s: real, q: int)
    ensures Compute(b, s, q).profitOrLoss == (s - b) * q as real
    ensures Compute(b, s, q).turnover == (b + s) * q as real
  {
  }

  /** Brokerage is the smaller of 0.03% of turnover and the cap, so it never exceeds the cap. */
  lemma BrokerageCapped(b: real, s: real, q: int)
    ensures var c := Compute(b, s, q);
      && c.brokerageCharges <= BROKERAGE_CAP
      && c.brokerageCharges <= 0.0003 * c.turnover
      && (c.brokerageCharges == BROKERAGE_CAP || c.brokerageCharges == 0.0003 * c.turnover)
  {
  }

  /** STT is charged on the per-unit selling price alone (the quantity does not enter it),
      and clearing charges are always zero. */
  lemma SttIgnoresQuantity(b: real, s: real, q1: int, q2: int)
    ensures Compute(b, s, q1).sttTotal == Compute(b, s, q2).sttTotal == 0.00025 * s
    ensures Compute(b, s, q1).clearingCharges == 0.0
  {
  }

  /** The levies: stamp duty on the buy notional, SEBI fees on turnover, GST on the
      brokerage, the exchange charge and the SEBI fee before its own 18%. */
  lemma Levies(b: real, s: real, q: int)
    ensures var c := Compute(b, s, q);
      && c.stampDuty == Round2(0.00003 * b * q as real)
      && c.sebiCharges == Round2(c.turnover * 0.000001 * 1.18)
      && c.netTransactionCharges == Round2(0.0000345 * c.turnover)
      && c.gst == 0.18 * (c.brokerageCharges + c.netTransactionCharges + c.sebiCharges / 1.18)
  {
  }

  /** The total is exactly the seven components, and the net P&L is gross minus the total. */
  lemma TotalIsSumOfComponents(b: real, s: real, q: int)
    ensures var c := Compute(b, s, q);
      && c.totalTaxAndCharges == c.brokerageCharges + c.sttTotal + c.netTransactionCharges
           + c.clearingCharges + c.stampDuty + c.gst + c.sebiCharges
      && c.netPL == c.profitOrLoss - c.totalTaxAndCharges
  {
  }

  /** With non-negative prices and quantity every component is non-negative, so the
      charges only ever reduce the gross P&L. */
  lemma {:induction false} ChargesNonNegative(b: real, s: real, q: int)
    requires b >= 0.0 && s >= 0.0 && q >= 0
    ensures var c := Compute(b, s, q);
      && c.brokerageCharges >= 0.0 && c.sttTotal >= 0.0 && c.netTransactionCharges >= 0.0
      && c.stampDuty >= 0.0 && c.sebiCharges >= 0.0 && c.gst >= 0.0
      && c.totalTaxAndCharges >= 0.0
      && c.netPL <= c.profitOrLoss
  {
    var qr := q as real;
    assert (b + s) * qr >= 0.0 by { MulNonNeg(b + s, qr); }
    assert b * qr >= 0.0 by { MulNonNeg(b, qr); }
    assert (300.0 / 10000000.0) * b * qr == (300.0 / 10000000.0) * (b * qr);
  }
}
