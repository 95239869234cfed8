/** The account: the open positions of the session and the holdings carried over,
    each keyed by symbol, and the intraday buying pass over the tracked instruments. */
module Accounts {
  import opened PyNum
  import opened Instruments
  import opened Stages
  import opened Buying

  class Account {
    var positions: map<string, Stage>
    var holdings: map<string, Stage>

    constructor()
      ensures positions == map[] && holdings == map[]
    {
      positions := map[];
      holdings := map[];
    }

    /** One iteration of `buy_stocks`, on key `key` and its instrument `s`. */
    method Visit(key: string, s: StockInfo, smooth: Smoother, broker: Broker) returns (ok: bool)
      requires s.Valid()
      modifies this, s
      ensures s.Valid() && holdings == old(holdings)
      ensures || positions == old(positions)
              || (key !in old(positions) && key in positions && positions == old(positions)[key := positions[key]])
      ensures key in old(positions) ==> ok && s.Snapshot() == old(s.Snapshot())
      ensures key in positions && key !in old(positions) ==> fresh(positions[key])
      ensures key !in old(positions) && ok ==> Visited(key, s, old(s.Snapshot()), key in holdings, Entry(positions, key), smooth, broker)
      ensures !ok ==>
        && key !in positions
        && AtMostEvaluated(s.Snapshot(), old(s.Snapshot()), smooth)
    {
      if key in positions {
        return true;
      }
      var buy, evaluated := s.WhetherBuy(smooth);
      if !evaluated {
        return false;
      }
      var action := Decide(key in holdings, buy, s.latestIndicatorPrice, s.symbol, broker);
      if action.Raise? {
        return false;
      }
      if action.Buy? {
        var p := new Stage.Position(s.latestPrice.value, s.latestIndicatorPrice.value, action.quantity,
                                    Delivery, Long, key, s);
        positions := positions[key := p];
      }
      ok := true;
    }

    /** `Visit` on key `key` of `stocks`, and what it leaves alone: every other
        instrument keeps its state, and every other key visited before still is. */
    method VisitAmong(stocks: map<string, StockInfo>, key: string, ghost snaps: map<string, Snap>,
                      smooth: Smoother, broker: Broker) returns (ok: bool)
      requires KeyedBySymbol(stocks) && AllValid(stocks) && key in stocks && snaps.Keys == stocks.Keys
      modifies this, stocks[key]
      ensures AllValid(stocks) && holdings == old(holdings)
      ensures || positions == old(positions)
              || (key !in old(positions) && key in positions && positions == old(positions)[key := positions[key]])
      ensures key in old(positions) ==> ok && stocks[key].Snapshot() == old(stocks[key].Snapshot())
      ensures key in positions && key !in old(positions) ==> fresh(positions[key])
      ensures key !in old(positions) && ok ==>
        Visited(key, stocks[key], old(stocks[key].Snapshot()), key in holdings, Entry(positions, key), smooth, broker)
      ensures !ok ==> key !in positions && AtMostEvaluated(stocks[key].Snapshot(), old(stocks[key].Snapshot()), smooth)
      ensures forall k :: k in stocks && k != key ==> stocks[k].Snapshot() == old(stocks[k].Snapshot())
      ensures forall k :: k != key ==> Entry(positions, k) == old(Entry(positions, k))
      ensures forall k ::
        k in stocks && k != key && old(Visited(k, stocks[k], snaps[k], k in holdings, Entry(positions, k), smooth, broker)) ==>
          Visited(k, stocks[k], snaps[k], k in holdings, Entry(positions, k), smooth, broker)
    {
      ok := Visit(key, stocks[key], smooth, broker);
      forall k | k in stocks && k != key
        ensures stocks[k] != stocks[key]
      {
        assert stocks[k].symbol != stocks[key].symbol;
      }
    }

    /** One iteration of the buying pass, keeping `Progress`. */
    method Step(stocks: map<string, StockInfo>, todo: set<string>, key: string,
                ghost positions0: map<string, Stage>, ghost snaps: map<string, Snap>,
                ghost raised0: Option<string>, smooth: Smoother, broker: Broker) returns (ok: bool, ghost raised: Option<string>)
      requires KeyedBySymbol(stocks) && key in todo && raised0.None?
      requires Progress(stocks, positions, holdings, todo, raised0, positions0, snaps, smooth, broker)
      modifies this, stocks[key]
      ensures Progress(stocks, positions, holdings, todo - {key}, raised, positions0, snaps, smooth, broker)
      ensures ok <==> raised.None?
      ensures holdings == old(holdings)
      ensures || positions == old(positions)
              || (key !in old(positions) && key in positions && positions == old(positions)[key := positions[key]])
      ensures key in positions && key !in old(positions) ==> fresh(positions[key])
    {
      ok := VisitAmong(stocks, key, snaps, smooth, broker);
      raised := if ok then None else Some(key);
      forall k | k in stocks && k !in todo - {key} && k !in positions0 && k != key
        ensures Visited(k, stocks[k], snaps[k], k in holdings, Entry(positions, k), smooth, broker)
      {
        assert old(Visited(k, stocks[k], snaps[k], k in holdings, Entry(positions, k), smooth, broker));
      }
    }

    /** Before the first iteration every key is still to do and nothing was visited. */
    lemma ProgressStarts(stocks: map<string, StockInfo>, snaps: map<string, Snap>, smooth: Smoother, broker: Broker)
      requires AllValid(stocks) && snaps.Keys == stocks.Keys
      requires forall k :: k in stocks ==> snaps[k] == stocks[k].Snapshot()
      ensures Progress(stocks, positions, holdings, stocks.Keys, None, positions, snaps, smooth, broker)
    {
    }

    /** The loop of `buy_stocks`, up to the end or to the key that raised. */
    method Sweep(stocks: map<string, StockInfo>, ghost positions0: map<string, Stage>, ghost snaps: map<string, Snap>,
                smooth: Smoother, broker: Broker) returns (ok: bool, todo: set<string>, ghost raised: Option<string>)
      requires KeyedBySymbol(stocks) && AllValid(stocks)
      requires positions0 == positions && snaps.Keys == stocks.Keys
      requires forall k :: k in stocks ==> snaps[k] == stocks[k].Snapshot()
      modifies this, stocks.Values
      ensures Progress(stocks, positions, holdings, todo, raised, positions0, snaps, smooth, broker)
      ensures ok <==> raised.None?
      ensures ok ==> todo == {}
      ensures holdings == old(holdings)
      ensures forall k :: k in positions && k !in positions0 ==> fresh(positions[k])
    {
      raised := None;
      todo := stocks.Keys;
      ok := true;
      ProgressStarts(stocks, snaps, smooth, broker);
      while todo != {} && ok
        invariant Progress(stocks, positions, holdings, todo, raised, positions0, snaps, smooth, broker)
        invariant ok <==> raised.None?
        invariant holdings == old(holdings)
        invariant forall k :: k in positions && k !in positions0 ==> fresh(positions[k])
        decreases todo
      {
        var key :| key in todo;
        ok, raised := Step(stocks, todo, key, positions0, snaps, raised, smooth, broker);
        todo := todo - {key};
      }
    }

    /** `buy_stocks(stock_to_track)`. For each tracked key with no open position (in an
        order the model leaves open), `whether_buy` runs, and when it fires and the key
        is not held, a budget-sized LONG DELIVERY buy is sent and, if placed, recorded as
        a position. `ok` is false when the pass raised part-way (no frame yet for
        `whether_buy`, or no usable indicator price for the quantity); what was done
        before stays done. */
    method BuyStocks(stocks: map<string, StockInfo>, smooth: Smoother, broker: Broker) returns (ok: bool)
      requires KeyedBySymbol(stocks) && AllValid(stocks)
      modifies this, stocks.Values
      ensures AllValid(stocks)
      ensures holdings == old(holdings)
      ensures forall k :: k in old(positions) ==> k in positions && positions[k] == old(positions)[k]
      ensures forall k :: k in positions && k !in old(positions) ==> k in stocks && fresh(positions[k])
      ensures forall k :: k in stocks ==>
        KeyOutcome(k, stocks[k], old(stocks[k].Snapshot()), k in old(positions), ok, k in holdings,
                   Entry(old(positions), k), Entry(positions, k), smooth, broker)
    {
      ghost var positions0 := positions;
      ghost var snaps := map k | k in stocks :: stocks[k].Snapshot();
      var todo;
      ghost var raised;
      ok, todo, raised := Sweep(stocks, positions0, snaps, smooth, broker);
      forall k | k in stocks
        ensures KeyOutcome(k, stocks[k], snaps[k], k in positions0, ok, k in holdings,
                           Entry(positions0, k), Entry(positions, k), smooth, broker)
      {
        if k in positions0 {
          assert Entry(positions, k) == Entry(positions0, k);
        }
      }
    }

    /** The loop `del account.positions[name]` over the names the positions pass
        reported sold. */
    method DropPositions(names: set<string>, ghost stocks: map<string, StockInfo>)
      modifies this
      ensures ViewsOf(old(positions), stocks) == old(ViewsOf(positions, stocks))
      ensures positions == old(positions) - names && holdings == old(holdings)
    {
      var todo := names;
      while todo != {}
        invariant todo <= names
        invariant positions == old(positions) - (names - todo) && holdings == old(holdings)
        decreases todo
      {
        var name :| name in todo;
        positions := positions - {name};
        todo := todo - {name};
      }
    }

    /** The loop `del account.holdings[name]` over the names the holdings pass reported
        sold. */
    method DropHoldings(names: set<string>, ghost stocks: map<string, StockInfo>)
      modifies this
      ensures ViewsOf(old(holdings), stocks) == old(ViewsOf(holdings, stocks))
      ensures holdings == old(holdings) - names && positions == old(positions)
    {
      var todo := names;
      while todo != {}
        invariant todo <= names
        invariant holdings == old(holdings) - (names - todo) && positions == old(positions)
        decreases todo
      {
        var name :| name in todo;
        holdings := holdings - {name};
        todo := todo - {name};
      }
    }

    /** The end-of-day loop that files every position, under its key, as a new holding
        with the same trade fields and instrument, replacing any holding filed there. */
    method Promote(ghost stocks: map<string, StockInfo>)
      modifies this
      ensures JsonsOf(stocks) == old(JsonsOf(stocks))
      ensures positions == old(positions)
      ensures holdings.Keys == old(holdings.Keys) + positions.Keys
      ensures forall k :: k in holdings && k !in positions ==> holdings[k] == old(holdings[k])
      ensures forall k :: k in positions ==>
        && fresh(holdings[k]) && holdings[k].kind == HoldingKind
        && holdings[k].Fields() == positions[k].Fields() && holdings[k].stock == positions[k].stock
        && holdings[k].lastPrice.None? && holdings[k].trigger.None?
    {
      var todo := positions.Keys;
      while todo != {}
        invariant todo <= positions.Keys && positions == old(positions)
        invariant holdings.Keys == old(holdings.Keys) + (positions.Keys - todo)
        invariant forall k :: k in holdings && k !in positions.Keys - todo ==> holdings[k] == old(holdings[k])
        invariant forall k :: k in positions.Keys - todo ==>
          && fresh(holdings[k]) && holdings[k].kind == HoldingKind
          && holdings[k].Fields() == positions[k].Fields() && holdings[k].stock == positions[k].stock
          && holdings[k].lastPrice.None? && holdings[k].trigger.None?
        decreases todo
      {
        var key :| key in todo;
        var p := positions[key];
        var h := new Stage.Holding(p.buyPrice, p.positionPrice, p.quantity, p.productType, p.positionType, p.symbol, p.stock);
        holdings := holdings[key := h];
        todo := todo - {key};
      }
    }
  }
}
