/** A trade stage: an open position bought this session (`Position`) or one carried
    over from an earlier session (`Holding`). Both share the stage logic; they differ
    in the per-rung incremental return and in that only a holding is persisted. */
module Stages {
  import opened PyNum
  import Settings
  import opened Ladder
  import Instruments

  datatype PositionType = Long | Short
  datatype ProductType = Delivery | Intraday

  /** Which subclass a stage object is. */
  datatype Kind = PositionKind | HoldingKind

  /** What `breached()` returns: True after a sale, False after moving the trigger, and
      None when the stage is not evaluated (not LONG, or no price observed yet). */
  datatype Verdict = Sold | Kept | NotEvaluated

  /** The `incremental_return` property of each subclass. */
  function IncrementalReturnOf(kind: Kind): real {
    if kind == PositionKind then Settings.INTRADAY_INCREMENTAL_RETURN else Settings.DELIVERY_INCREMENTAL_RETURN
  }

  /** The exit rule of `breached` for a LONG stage at observed price `last`: below the
      trigger's hysteresis band when there is a trigger, otherwise a truthy indicator
      price below the reference price. */
  predicate ExitSignal(kind: Kind, last: real, trigger: Option<real>, indicator: Option<real>, positionPrice: real) {
    if trigger.Some? then last < trigger.value / (1.0 + IncrementalReturnOf(kind) / 2.0)
    else Truthy(indicator) && indicator.value < positionPrice
  }

  /** The hysteresis band sits half an increment below the trigger: trigger / 1.004 for
      a position and trigger / 1.003 for a holding; with a trigger the indicator plays
      no part. */
  lemma BreachBand(kind: Kind, last: real, t: real, indicator: Option<real>, positionPrice: real)
    requires t > 0.0
    ensures 1.0 + IncrementalReturnOf(kind) / 2.0 == (if kind == PositionKind then 1.004 else 1.003)
    ensures ExitSignal(kind, last, Some(t), indicator, positionPrice)
        <==> last * (1.0 + IncrementalReturnOf(kind) / 2.0) < t
    ensures ExitSignal(kind, last, Some(t), indicator, positionPrice) ==> last < t
  {
    var f := 1.0 + IncrementalReturnOf(kind) / 2.0;
    assert f > 1.0;
    assert (t / f) * f == t;
    if last < t / f {
      assert last * f < (t / f) * f;
    } else {
      assert last * f >= (t / f) * f;
    }
  }

  /** The last observed price after `breached` reads the instrument: a truthy latest
      price replaces it, a missing or zero one leaves it. */
  function Observe(latest: Option<real>, last: Option<real>): Option<real> {
    if Truthy(latest) then latest else last
  }

  /** The verdict of `breached` once the instrument is known. */
  function Judge(kind: Kind, positionType: PositionType, observed: Option<real>, trigger: Option<real>,
                 indicator: Option<real>, positionPrice: real): Verdict
  {
    if positionType == Long && observed.Some? then
      if ExitSignal(kind, observed.value, trigger, indicator, positionPrice) then Sold else Kept
    else NotEvaluated
  }

  /** Only a LONG stage with an observed price is evaluated; it is sold under a trigger
      only once the price has fallen below the trigger, and without one only on an
      indicator price below the reference price. A SHORT stage is never sold here. */
  lemma JudgeMeaning(kind: Kind, positionType: PositionType, observed: Option<real>, trigger: Option<real>,
                     indicator: Option<real>, positionPrice: real)
    ensures var v := Judge(kind, positionType, observed, trigger, indicator, positionPrice);
      && (v == NotEvaluated <==> positionType == Short || observed.None?)
      && (v == Sold && trigger.Some? && trigger.value > 0.0 ==> observed.value < trigger.value)
      && (v == Sold && trigger.None? ==> Truthy(indicator) && indicator.value < positionPrice)
  {
    if positionType == Long && observed.Some? && trigger.Some? && trigger.value > 0.0 {
      BreachBand(kind, observed.value, trigger.value, indicator, positionPrice);
    }
  }

  /** Once a price has been observed it stays observed. */
  lemma ObservedPersists(latest: Option<real>, last: Option<real>)
    ensures last.Some? ==> Observe(latest, last).Some?
    ensures Observe(latest, last).Some? && Observe(latest, last) != last ==> Truthy(latest)
  {
  }

  // ---------------------------------------------------------------------------
  // Holding documents

  /** The trade fields a stage is built from. */
  datatype TradeFields = TradeFields(buyPrice: real, positionPrice: real, quantity: int,
                                     productType: ProductType, positionType: PositionType, symbol: string)

  /** The holding collection's document; enums are stored by their value. */
  datatype HoldingDoc = HoldingDoc(buyPrice: real, positionPrice: real, quantity: int,
                                   productType: string, positionType: string, symbol: string)

  /** The stored value of each enum member. constants/enums is not part of this model,
      so these strings stand in for its values; the model relies only on the values of
      distinct members being distinct (`CodesInjective`). */
  function ProductCode(p: ProductType): string {
    if p == Delivery then "DELIVERY" else "INTRADAY"
  }

  function PositionCode(p: PositionType): string {
    if p == Long then "LONG" else "SHORT"
  }

  /** `ProductType(value)`: raises (None here) on a value that is no member's. */
  function DecodeProduct(code: string): (r: Option<ProductType>)
    ensures r.Some? ==> ProductCode(r.value) == code
    ensures forall p :: ProductCode(p) == code ==> r == Some(p)
  {
    if code == ProductCode(Delivery) then Some(Delivery)
    else if code == ProductCode(Intraday) then Some(Intraday)
    else None
  }

  /** `PositionType(value)`: raises (None here) on a value that is no member's. */
  function DecodePosition(code: string): (r: Option<PositionType>)
    ensures r.Some? ==> PositionCode(r.value) == code
    ensures forall p :: PositionCode(p) == code ==> r == Some(p)
  {
    if code == PositionCode(Long) then Some(Long)
    else if code == PositionCode(Short) then Some(Short)
    else None
  }

  /** `Holding.json()` on the stage's fields. */
  function Encode(f: TradeFields): HoldingDoc {
    HoldingDoc(f.buyPrice, f.positionPrice, f.quantity, ProductCode(f.productType), PositionCode(f.positionType), f.symbol)
  }

  /** The field decoding of `Holding.to_object`; None where an enum constructor raises. */
  function Decode(d: HoldingDoc): Option<TradeFields> {
    var product, position := DecodeProduct(d.productType), DecodePosition(d.positionType);
    if product.None? || position.None? then None
    else Some(TradeFields(d.buyPrice, d.positionPrice, d.quantity, product.value, position.value, d.symbol))
  }

  /** `to_object(json())` reproduces every persisted field, and a document that decodes
      is the encoding of what it decodes to. */
  lemma HoldingRoundTrip(f: TradeFields, d: HoldingDoc)
    ensures Decode(Encode(f)) == Some(f)
    ensures Decode(d).Some? ==> Encode(Decode(d).value) == d
  {
  }

  /** Distinct enum members are stored as distinct values. */
  lemma CodesInjective(p1: ProductType, p2: ProductType, t1: PositionType, t2: PositionType)
    ensures ProductCode(p1) == ProductCode(p2) ==> p1 == p2
    ensures PositionCode(t1) == PositionCode(t2) ==> t1 == t2
  {
    var r1, r2 := DecodeProduct(ProductCode(p1)), DecodePosition(PositionCode(t1));
  }

  // ---------------------------------------------------------------------------
  // What a review leaves behind

  /** A stage's state and its instrument's, as `breached()` reads them. */
  datatype StageView = StageView(lastPrice: Option<real>, trigger: Option<real>, stock: Instruments.Snap)

  function ViewOf(st: Stage, s: Instruments.StockInfo): StageView
    reads st, s
  {
    StageView(st.lastPrice, st.trigger, s.Snapshot())
  }

  /** What `breached()` reads of each stage under its key: its own state and the
      tracked instrument of that key (a placeholder where none is tracked). */
  ghost function ViewsOf(stages: map<string, Stage>, stocks: map<string, Instruments.StockInfo>): (r: map<string, StageView>)
    reads stages.Values, stocks.Values
    ensures r.Keys == stages.Keys
  {
    map k | k in stages ::
      if k in stocks then ViewOf(stages[k], stocks[k])
      else StageView(None, None, Instruments.Snap(0.0, None, None, None, None, None, None, [], None))
  }

  /** The state `after` that `breached()` leaves stage `st` in, from the state `v`, when
      it returns normally (`createdAt` is the instrument's creation day): the observed
      price is recorded; the stage is reported sold exactly when its verdict is Sold,
      and then the instrument's wallet gains the sale's net P&L at the latest price and
      nothing else moves; on any other verdict the instrument is as it was, and the
      trigger is reset by the ladder when the stage is kept. */
  predicate Outcome(st: Stage, createdAt: int, v: StageView, after: StageView, sold: bool, today: int, holidays: seq<int>) {
    var days := NumberOfDays(createdAt, today, holidays);
    var observed := Observe(v.stock.latestPrice, v.lastPrice);
    var verdict := Judge(st.kind, st.positionType, observed, v.trigger, v.stock.latestIndicatorPrice, st.positionPrice);
    && after.lastPrice == observed
    && (sold <==> verdict == Sold)
    && (verdict == Sold ==>
          && after.trigger == v.trigger && v.stock.latestPrice.Some? && st.quantity != 0
          && after.stock == v.stock.(wallet := v.stock.wallet + NetPL(days, st.buyPrice, v.stock.latestPrice.value, st.quantity)))
    && (verdict != Sold ==> after.stock == v.stock)
    && (verdict == NotEvaluated ==> after.trigger == v.trigger)
    && (verdict == Kept ==>
          && st.quantity != 0
          && SearchResult(after.trigger, true) == SetTriggerOutcome(true, st.LadderFor(observed.value, v.stock.wallet, days), v.trigger))
  }

  /** Stage `st`, on instrument `s`, was reviewed from the state `v` and `breached()`
      returned normally. */
  predicate Reviewed(st: Stage, s: Instruments.StockInfo, v: StageView, sold: bool, today: int, holidays: seq<int>)
    reads st, s
  {
    st.stock == s && Outcome(st, s.createdAt, v, ViewOf(st, s), sold, today, holidays)
  }

  // ---------------------------------------------------------------------------
  // The stage

  class Stage {
    const kind: Kind
    const buyPrice: real
    const positionPrice: real
    const quantity: int
    const productType: ProductType
    const positionType: PositionType
    const symbol: string
    const stock: Instruments.StockInfo?
    var lastPrice: Option<real>
    var trigger: Option<real>

    /** `Position(buy_price, position_price, quantity, product_type, position_type, symbol, stock)`. */
    constructor Position(buyPrice: real, positionPrice: real, quantity: int, productType: ProductType,
                         positionType: PositionType, symbol: string, stock: Instruments.StockInfo?)
      ensures kind == PositionKind && Fields() == TradeFields(buyPrice, positionPrice, quantity, productType, positionType, symbol)
      ensures this.stock == stock && lastPrice.None? && trigger.None?
    {
      kind := PositionKind;
      this.buyPrice := buyPrice;
      this.positionPrice := positionPrice;
      this.quantity := quantity;
      this.productType := productType;
      this.positionType := positionType;
      this.symbol := symbol;
      this.stock := stock;
      lastPrice := None;
      trigger := None;
    }

    /** `Holding(buy_price, position_price, quantity, product_type, position_type, symbol, stock)`. */
    constructor Holding(buyPrice: real, positionPrice: real, quantity: int, productType: ProductType,
                        positionType: PositionType, symbol: string, stock: Instruments.StockInfo?)
      ensures kind == HoldingKind && Fields() == TradeFields(buyPrice, positionPrice, quantity, productType, positionType, symbol)
      ensures this.stock == stock && lastPrice.None? && trigger.None?
    {
      kind := HoldingKind;
      this.buyPrice := buyPrice;
      this.positionPrice := positionPrice;
      this.quantity := quantity;
      this.productType := productType;
      this.positionType := positionType;
      this.symbol := symbol;
      this.stock := stock;
      lastPrice := None;
      trigger := None;
    }

    /** `Holding.to_object(doc)` once the enums decode, followed by the start-up link to
        the instrument `stock` (null when the symbol is not tracked): no trigger, since
        none is persisted. */
    constructor FromDoc(f: TradeFields, stock: Instruments.StockInfo?)
      ensures kind == HoldingKind && Fields() == f
      ensures this.stock == stock && lastPrice.None? && trigger.None?
    {
      kind := HoldingKind;
      buyPrice := f.buyPrice;
      positionPrice := f.positionPrice;
      quantity := f.quantity;
      productType := f.productType;
      positionType := f.positionType;
      symbol := f.symbol;
      this.stock := stock;
      lastPrice := None;
      trigger := None;
    }

    function Fields(): TradeFields {
      TradeFields(buyPrice, positionPrice, quantity, productType, positionType, symbol)
    }

    /** `Holding.json()`. */
    function Json(): (d: HoldingDoc)
      requires kind == HoldingKind
      ensures Decode(d) == Some(Fields())
    {
      HoldingRoundTrip(Fields(), Encode(Fields()));
      Encode(Fields())
    }

    function IncrementalReturn(): real {
      IncrementalReturnOf(kind)
    }

    /** `invested_amount`: the reference price times the size, whatever the direction. */
    function InvestedAmount(): (r: real)
      ensures positionPrice >= 0.0 ==> r >= 0.0
      ensures quantity == 0 ==> r == 0.0
      ensures r == positionPrice * (if quantity < 0 then -quantity else quantity) as real
    {
      positionPrice * (if quantity < 0 then -quantity else quantity) as real
    }

    /** The (buying, selling) legs: a LONG stage buys at the reference price and sells at
        the observed price, a SHORT stage the other way round. */
    function Legs(stockPrice: real): (real, real) {
      if positionType == Long then (positionPrice, stockPrice) else (stockPrice, positionPrice)
    }

    /** The ladder `set_trigger` climbs at an observed price, given the instrument's
        wallet and the business days held. */
    function LadderFor(stockPrice: real, wallet: real, days: int): Rungs
      requires quantity != 0
    {
      var (b, s) := Legs(stockPrice);
      var q := quantity as real;
      Rungs(b + TransactionCost(days, b, s, quantity) / q, CurrentExpectedReturn(days), IncrementalReturn(), wallet / q, s)
    }

    /** `set_trigger(stock_price)`: search the ladder for the highest rung already
        cleared, then ratchet. `ok` is false where the source raises: no instrument
        (AttributeError), a zero quantity or a zero denominator (ZeroDivisionError); and
        where the source would loop forever (see `Ladder.LadderNeverEnds`). */
    method SetTrigger(stockPrice: real, today: int, holidays: seq<int>) returns (ok: bool)
      modifies this
      ensures lastPrice == old(lastPrice)
      ensures stock == null || quantity == 0 ==> !ok && trigger == old(trigger)
      ensures stock != null && quantity != 0 ==>
        SearchResult(trigger, ok)
          == SetTriggerOutcome(positionType == Long,
                               LadderFor(stockPrice, stock.wallet, NumberOfDays(stock.createdAt, today, holidays)),
                               old(trigger))
    {
      if stock == null || quantity == 0 {
        return false;
      }
      var l := LadderFor(stockPrice, stock.wallet, NumberOfDays(stock.createdAt, today, holidays));
      trigger, ok := Climb(positionType == Long, l, trigger);
    }

    /** `sell()`: the broker's sell order (its outcome is ignored), then the realised
        P&L at the instrument's latest price is added to the instrument's wallet. `ok`
        is false where the source raises: no instrument, no latest price, a zero
        quantity. */
    method Sell(today: int, holidays: seq<int>) returns (ok: bool)
      modifies stock
      ensures ok <==> stock != null && stock.latestPrice.Some? && quantity != 0
      ensures stock != null ==> stock.WalletOnly()
      ensures ok ==>
        stock.wallet == old(stock.wallet) + NetPL(NumberOfDays(stock.createdAt, today, holidays), buyPrice, stock.latestPrice.value, quantity)
      ensures !ok && stock != null ==> stock.wallet == old(stock.wallet)
    {
      if stock == null || stock.latestPrice.None? || quantity == 0 {
        return false;
      }
      var days := NumberOfDays(stock.createdAt, today, holidays);
      stock.wallet := stock.wallet + SaleCredit(days, buyPrice, stock.latestPrice.value, quantity);
      ok := true;
    }

    /** `breached()`: record a truthy latest price as the last observed price; for a
        LONG stage with an observed price, sell on the exit signal, otherwise move the
        trigger to the observed price. `ok` is false where the source raises. */
    method Breached(today: int, holidays: seq<int>) returns (verdict: Verdict, ok: bool)
      modifies this, stock
      ensures stock == null ==> verdict == NotEvaluated && !ok && unchanged(this)
      ensures stock != null ==> stock.WalletOnly()
      ensures stock != null ==>
        && lastPrice == Observe(stock.latestPrice, old(lastPrice))
        && verdict == Judge(kind, positionType, lastPrice, old(trigger), stock.latestIndicatorPrice, positionPrice)
      ensures verdict == NotEvaluated && stock != null ==> ok && trigger == old(trigger) && stock.wallet == old(stock.wallet)
      ensures verdict == Sold ==>
        && trigger == old(trigger)
        && (ok <==> stock.latestPrice.Some? && quantity != 0)
        && (ok ==>
              stock.wallet == old(stock.wallet) + NetPL(NumberOfDays(stock.createdAt, today, holidays), buyPrice, stock.latestPrice.value, quantity))
      ensures verdict == Kept ==> stock.wallet == old(stock.wallet)
      ensures verdict == Kept && quantity == 0 ==> !ok && trigger == old(trigger)
      ensures verdict == Kept && quantity != 0 ==>
        SearchResult(trigger, ok)
          == SetTriggerOutcome(true, LadderFor(lastPrice.value, stock.wallet, NumberOfDays(stock.createdAt, today, holidays)),
                               old(trigger))
      ensures stock != null && ok ==> Reviewed(this, stock, old(ViewOf(this, stock)), verdict == Sold, today, holidays)
    {
      if stock == null {
        return NotEvaluated, false;
      }
      var latest := stock.latestPrice;
      if Truthy(latest) {
        lastPrice := latest;
      }
      if positionType == Long && lastPrice.Some? {
        if ExitSignal(kind, lastPrice.value, trigger, stock.latestIndicatorPrice, positionPrice) {
          ok := Sell(today, holidays);
          return Sold, ok;
        }
        ok := SetTrigger(lastPrice.value, today, holidays);
        return Kept, ok;
      }
      return NotEvaluated, true;
    }
  }
}
