/** The decisions of the intraday buying pass, and what the pass leaves behind on each
    tracked key, stated over values and maps so that the account's methods can be
    specified by them. */
module Buying {
  import opened PyNum
  import opened Instruments
  import opened Stages

  /** The amount each purchase is sized to. */
  const BUDGET: real := 5000.0

  /** The broker's answer to a market buy of `quantity` shares of `symbol`: whether the
      order was placed (`long()` returns False when the broker call raises). */
  type Broker = (string, int) -> bool

  /** `int(5000 / indicator)`: None where the source raises (the indicator is None, a
      TypeError, or zero, a ZeroDivisionError). */
  function BudgetQuantity(indicator: Option<real>): (r: Option<int>)
    ensures r.Some? <==> indicator.Some? && indicator.value != 0.0
    ensures r.Some? && indicator.value > 0.0 ==> r.value >= 0
  {
    if indicator.None? || indicator.value == 0.0 then None
    else Some(Trunc(BUDGET / indicator.value))
  }

  /** For a positive indicator price the quantity is the largest whole number of shares
      the budget buys at that price. */
  lemma BudgetQuantityIsLargestAffordable(p: real)
    requires p > 0.0
    ensures var q := BudgetQuantity(Some(p)).value;
      q as real * p <= BUDGET < (q + 1) as real * p
  {
    var x := BUDGET / p;
    var q := Trunc(x);
    assert x * p == BUDGET;
    assert q as real * p <= x * p;
    assert x * p < (q + 1) as real * p;
  }

  /** What `buy_stocks` does with one key, given whether the key is held and what
      `whether_buy` answered: nothing, buy the budget quantity, or raise. */
  datatype Action = Skip | Buy(quantity: int) | Raise

  function Decide(held: bool, buy: bool, indicator: Option<real>, symbol: string, broker: Broker): (a: Action)
    ensures a.Buy? ==> buy && !held && BudgetQuantity(indicator) == Some(a.quantity) && broker(symbol, a.quantity)
    ensures a.Raise? <==> buy && !held && BudgetQuantity(indicator).None?
    ensures a == Skip <==> !buy || held || (BudgetQuantity(indicator).Some? && !broker(symbol, BudgetQuantity(indicator).value))
  {
    if !buy || held then Skip
    else
      var q := BudgetQuantity(indicator);
      if q.None? then Raise
      else if broker(symbol, q.value) then Buy(q.value)
      else Skip
  }

  /** A buy never targets a symbol already held. */
  lemma NoBuyWhenHeld(buy: bool, indicator: Option<real>, symbol: string, broker: Broker)
    ensures !Decide(true, buy, indicator, symbol, broker).Buy?
    ensures Decide(true, buy, indicator, symbol, broker) == Skip
  {
  }

  /** Each tracked instrument is filed under its own symbol, so distinct keys hold
      distinct instruments. */
  predicate KeyedBySymbol(stocks: map<string, StockInfo>) {
    forall k :: k in stocks ==> stocks[k].symbol == k
  }

  predicate AllValid(stocks: map<string, StockInfo>)
    reads stocks.Values
  {
    forall k :: k in stocks ==> stocks[k].Valid()
  }

  /** The documents of each instrument, by key. */
  function JsonsOf(stocks: map<string, StockInfo>): (r: map<string, StockDoc>)
    reads stocks.Values
    ensures r.Keys == stocks.Keys
  {
    map k | k in stocks :: stocks[k].Json()
  }

  /** `whether_buy` either did not get to run on the instrument or ran on it. */
  predicate AtMostEvaluated(now: Snap, before: Snap, smooth: Smoother) {
    now == before || (before.frame.Some? && now == AfterEvaluation(before, smooth))
  }

  /** What the buying pass did for one tracked key, from the instrument's state
      `before`, whether the key had a position (`open0`), and the position under it
      before and after: a key that had a position is left alone; a pass that did not
      raise visited every other key; a pass that raised visited some of them and
      stopped at one, which it may have evaluated but opened nothing for. */
  predicate KeyOutcome(k: string, s: StockInfo, before: Snap, open0: bool, ok: bool, held: bool,
                       entry0: Option<Stage>, entry: Option<Stage>, smooth: Smoother, broker: Broker)
    reads s, if entry.Some? then {entry.value} else {}
  {
    if open0 then s.Snapshot() == before && entry == entry0
    else if ok then Visited(k, s, before, held, entry, smooth, broker)
    else Visited(k, s, before, held, entry, smooth, broker) || (entry.None? && AtMostEvaluated(s.Snapshot(), before, smooth))
  }

  /** `p` is the position `buy_stocks` opens on `s` under `key`: LONG, DELIVERY, bought
      at the latest price, referenced to the indicator price, sized to the budget. */
  predicate Opened(key: string, s: StockInfo, quantity: int, p: Stage)
    reads s, p
  {
    && s.latestPrice.Some? && s.latestIndicatorPrice.Some?
    && p.kind == PositionKind
    && p.Fields() == TradeFields(s.latestPrice.value, s.latestIndicatorPrice.value, quantity, Delivery, Long, key)
    && p.stock == s && p.lastPrice.None? && p.trigger.None?
  }

  /** The position a map holds under a key, if any. */
  function Entry(positions: map<string, Stage>, k: string): Option<Stage> {
    if k in positions then Some(positions[k]) else None
  }

  /** After the buying pass visited key `k` with instrument `s`, which was in state
      `before`: `whether_buy` ran, its answer was acted on without raising, and `entry`
      (the position under `k`) is present exactly when a buy was placed, and is then the
      position `buy_stocks` opens. */
  predicate Visited(k: string, s: StockInfo, before: Snap, held: bool, entry: Option<Stage>,
                    smooth: Smoother, broker: Broker)
    reads s, if entry.Some? then {entry.value} else {}
  {
    && before.frame.Some?
    && s.Snapshot() == AfterEvaluation(before, smooth)
    && var a := Decide(held, Signal(before.returnTrace, before.frame.value, smooth).buy,
                       s.latestIndicatorPrice, s.symbol, broker);
       && !a.Raise?
       && (entry.Some? <==> a.Buy?)
       && (entry.Some? ==> Opened(k, s, a.quantity, entry.value))
  }

  /** The buying pass part-way: the keys left in `todo` and the keys that had a
      position at the start (`positions0`) are as they were (`snaps`); every other key
      was visited, except the one that raised, if any, which has no position and was
      at most evaluated. */
  ghost predicate Progress(stocks: map<string, StockInfo>, positions: map<string, Stage>, holdings: map<string, Stage>,
                           todo: set<string>, raised: Option<string>,
                           positions0: map<string, Stage>, snaps: map<string, Snap>,
                           smooth: Smoother, broker: Broker)
    reads stocks.Values, positions.Values
  {
    && todo <= stocks.Keys && snaps.Keys == stocks.Keys
    && AllValid(stocks)
    && (forall k :: k in positions0 ==> k in positions && positions[k] == positions0[k])
    && (forall k :: k in positions && k !in positions0 ==> k in stocks && k !in todo)
    && (forall k :: k in stocks && (k in todo || k in positions0) ==> stocks[k].Snapshot() == snaps[k])
    && (raised.Some? ==>
         && raised.value in stocks && raised.value !in todo && raised.value !in positions0 && raised.value !in positions
         && AtMostEvaluated(stocks[raised.value].Snapshot(), snaps[raised.value], smooth))
    && (forall k :: k in stocks && k !in todo && k !in positions0 && raised != Some(k) ==>
          Visited(k, stocks[k], snaps[k], k in holdings, Entry(positions, k), smooth, broker))
  }
}
