/** The trading session: load the tracked instruments and the holdings, then, once per
    tick, take in newly chosen symbols, refresh every price, buy inside the buying
    window and sell every stage whose exit signal fired; at the end of the day, buy on
    a late fall, persist the instruments, promote the positions to holdings and
    persist the holdings. */
module Background {
  import opened PyNum
  import opened Settings
  import opened Ladder
  import opened Instruments
  import opened Stages
  import opened Buying
  import opened Accounts
  import opened Store

  // ---------------------------------------------------------------------------
  // Reviewing the stages

  /** Every stage is filed under its own symbol, and a stage's instrument, when it has
      one, is the tracked instrument of that symbol. */
  predicate Linked(stages: map<string, Stage>, stocks: map<string, StockInfo>) {
    forall k :: k in stages ==>
      && stages[k].symbol == k
      && (stages[k].stock == null || (k in stocks && stages[k].stock == stocks[k]))
  }

  /** An instrument's state apart from its wallet. */
  function Unwalleted(s: Snap): Snap {
    s.(wallet := 0.0)
  }

  /** Every key in `done` was reviewed from `views` into `after`, reporting a sale
      exactly for the keys in `sold`. */
  predicate Outcomes(stages: map<string, Stage>, stocks: map<string, StockInfo>, done: set<string>, sold: set<string>,
                     views: map<string, StageView>, after: map<string, StageView>, today: int, holidays: seq<int>)
  {
    forall k :: k in done ==>
      && k in stages && k in stocks && k in views && k in after
      && Outcome(stages[k], stocks[k].createdAt, views[k], after[k], k in sold, today, holidays)
  }

  /** Reviewing one more key keeps `Outcomes`. */
  lemma OutcomesGrow(stages: map<string, Stage>, stocks: map<string, StockInfo>, done: set<string>, sold: set<string>,
                     views: map<string, StageView>, after: map<string, StageView>, today: int, holidays: seq<int>,
                     key: string, isSold: bool, v: StageView)
    requires Outcomes(stages, stocks, done, sold, views, after, today, holidays) && key !in done && sold <= done
    requires key in stages && key in stocks && key in views
    requires Outcome(stages[key], stocks[key].createdAt, views[key], v, isSold, today, holidays)
    ensures Outcomes(stages, stocks, done + {key}, if isSold then sold + {key} else sold, views, after[key := v], today, holidays)
  {
    var sold' := if isSold then sold + {key} else sold;
    forall k | k in done + {key}
      ensures Outcome(stages[k], stocks[k].createdAt, views[k], after[key := v][k], k in sold', today, holidays)
    {
      if k != key {
        assert k in done && after[key := v][k] == after[k] && (k in sold') == (k in sold);
      } else {
        assert (k in sold') == isSold;
      }
    }
  }

  /** The review loop part-way: the keys left in `todo` are as they were (`views`);
      every other key was reviewed into the state recorded in `after`, except the one
      that raised, if any; and only wallets moved. */
  ghost predicate ReviewProgress(stages: map<string, Stage>, stocks: map<string, StockInfo>, todo: set<string>,
                                 raised: Option<string>, sold: set<string>, views: map<string, StageView>,
                                 after: map<string, StageView>, quotes: map<string, Snap>, today: int, holidays: seq<int>)
    reads stages.Values, stocks.Values
  {
    && ReviewBook(stages, stocks, todo, raised, sold, views, after, quotes, today, holidays)
    && QuotesHold(stocks, quotes)
    && ViewsHold(stages, stocks, todo, raised, views, after)
  }

  /** The part of `ReviewProgress` that does not depend on the objects' state. */
  predicate ReviewBook(stages: map<string, Stage>, stocks: map<string, StockInfo>, todo: set<string>,
                       raised: Option<string>, sold: set<string>, views: map<string, StageView>,
                       after: map<string, StageView>, quotes: map<string, Snap>, today: int, holidays: seq<int>)
  {
    var done := stages.Keys - todo - (if raised.Some? then {raised.value} else {});
    && todo <= stages.Keys && views.Keys == stages.Keys && sold <= done && done <= after.Keys
    && (raised.Some? ==> raised.value in stages && raised.value !in todo)
    && quotes.Keys == stocks.Keys && (forall k :: k in quotes ==> Consistent(quotes[k]))
    && Linked(stages, stocks)
    && (forall k :: k in done ==> stages[k].stock != null)
    && Outcomes(stages, stocks, done, sold, views, after, today, holidays)
  }

  /** Apart from its wallet, every instrument is in the state `quotes` records. */
  ghost predicate QuotesHold(stocks: map<string, StockInfo>, quotes: map<string, Snap>)
    reads stocks.Values
  {
    forall k :: k in stocks && k in quotes ==> Unwalleted(stocks[k].Snapshot()) == quotes[k]
  }

  /** Every linked stage, but the one that raised, is in the state `views` records when
      still to do and in the state `after` records otherwise. */
  ghost predicate ViewsHold(stages: map<string, Stage>, stocks: map<string, StockInfo>, todo: set<string>,
                            raised: Option<string>, views: map<string, StageView>, after: map<string, StageView>)
    reads stages.Values, stocks.Values
  {
    ViewsMatch(stages, stocks, ViewsOf(stages, stocks), todo, raised, views, after)
  }

  /** `ViewsHold` on the current states `now` of the stages. */
  predicate ViewsMatch(stages: map<string, Stage>, stocks: map<string, StockInfo>, now: map<string, StageView>,
                       todo: set<string>, raised: Option<string>, views: map<string, StageView>, after: map<string, StageView>)
  {
    forall k :: k in stages && k in stocks && stages[k].stock == stocks[k] && raised != Some(k) && k in now ==>
      if k in todo then k in views && now[k] == views[k]
      else k in after && now[k] == after[k]
  }

  /** `breached()` on one stage, as the review loop sees it: the stage keeps its
      instrument, only the instrument's wallet may move, and a normal return leaves the
      stage reviewed. */
  method ReviewOne(st: Stage, today: int, holidays: seq<int>) returns (sold: bool, ok: bool)
    modifies st, st.stock
    ensures st.stock != null ==> st.stock.WalletOnly()
    ensures ok ==> st.stock != null && Reviewed(st, st.stock, old(ViewOf(st, st.stock)), sold, today, holidays)
  {
    var verdict;
    verdict, ok := st.Breached(today, holidays);
    sold := verdict == Sold;
  }

  /** Reviewing `key` keeps `ReviewBook`: when it returned normally, with outcome `v`,
      the key joins the reviewed ones; otherwise it is the one that raised. */
  lemma ReviewBookGrows(stages: map<string, Stage>, stocks: map<string, StockInfo>, todo: set<string>, key: string,
                        sold: set<string>, views: map<string, StageView>, after: map<string, StageView>,
                        quotes: map<string, Snap>, today: int, holidays: seq<int>, ok: bool, isSold: bool, v: StageView)
    requires key in todo && ReviewBook(stages, stocks, todo, None, sold, views, after, quotes, today, holidays)
    requires ok ==> stages[key].stock != null && Outcome(stages[key], stocks[key].createdAt, views[key], v, isSold, today, holidays)
    ensures ok ==> ReviewBook(stages, stocks, todo - {key}, None, if isSold then sold + {key} else sold, views,
                              after[key := v], quotes, today, holidays)
    ensures !ok ==> ReviewBook(stages, stocks, todo - {key}, Some(key), sold, views, after, quotes, today, holidays)
  {
    if ok {
      OutcomesGrow(stages, stocks, stages.Keys - todo, sold, views, after, today, holidays, key, isSold, v);
    }
  }

  /** One iteration of the review loop. */
  method ReviewStep(stages: map<string, Stage>, stocks: map<string, StockInfo>, todo: set<string>, key: string,
                    ghost raised0: Option<string>, sold0: set<string>, ghost views: map<string, StageView>,
                    ghost after0: map<string, StageView>, ghost quotes: map<string, Snap>, today: int, holidays: seq<int>)
    returns (sold: set<string>, ok: bool, ghost raised: Option<string>, ghost after: map<string, StageView>)
    requires KeyedBySymbol(stocks) && key in todo && raised0.None?
    requires ReviewProgress(stages, stocks, todo, raised0, sold0, views, after0, quotes, today, holidays)
    modifies stages[key], stages[key].stock
    ensures ReviewProgress(stages, stocks, todo - {key}, raised, sold, views, after, quotes, today, holidays)
    ensures ok <==> raised.None?
  {
    var st := stages[key];
    ghost var pre := ViewsOf(stages, stocks);
    var isSold;
    isSold, ok := ReviewOne(st, today, holidays);
    ghost var now := ViewsOf(stages, stocks);
    ghost var v := if key in stocks then now[key] else views[key];
    ReviewBookGrows(stages, stocks, todo, key, sold0, views, after0, quotes, today, holidays, ok, isSold, v);
    if ok {
      sold, raised, after := if isSold then sold0 + {key} else sold0, None, after0[key := v];
    } else {
      sold, raised, after := sold0, Some(key), after0;
    }
    forall k | k in stocks && k in quotes
      ensures Unwalleted(stocks[k].Snapshot()) == quotes[k]
    {
      if k == key {
        assert Unwalleted(stocks[k].Snapshot()) == Unwalleted(old(stocks[k].Snapshot()));
      } else if key in stocks {
        assert stocks[k].symbol != stocks[key].symbol;
      }
    }
    forall k | k in now && k != key
      ensures pre[k] == now[k]
    {
      assert stages[k] != st;
      if k in stocks {
        assert stocks[k] != st.stock;
      }
    }
    ViewsKept(stages, stocks, todo, key, views, after0, pre, now);
    if ok {
      ViewsGrow(stages, stocks, todo - {key}, key, views, after0, now);
    }
  }

  /** While `key` is reviewed, the other stages and their instruments stay as they were,
      so the views still match with `key` as the one that raised. */
  lemma ViewsKept(stages: map<string, Stage>, stocks: map<string, StockInfo>, todo: set<string>, key: string,
                  views: map<string, StageView>, after: map<string, StageView>, pre: map<string, StageView>,
                  now: map<string, StageView>)
    requires ViewsMatch(stages, stocks, pre, todo, None, views, after) && pre.Keys == now.Keys
    requires forall k :: k in now && k != key ==> pre[k] == now[k]
    ensures ViewsMatch(stages, stocks, now, todo - {key}, Some(key), views, after)
  {
  }

  /** Recording the reviewed state of `key` in `after` keeps the views matching, with
      no key raised. */
  lemma ViewsGrow(stages: map<string, Stage>, stocks: map<string, StockInfo>, todo: set<string>, key: string,
                  views: map<string, StageView>, after: map<string, StageView>, now: map<string, StageView>)
    requires key !in todo && ViewsMatch(stages, stocks, now, todo, Some(key), views, after) && key in now
    ensures ViewsMatch(stages, stocks, now, todo, None, views, after[key := now[key]])
  {
  }

  /** Before the first iteration every key is still to do. */
  lemma ReviewStarts(stages: map<string, Stage>, stocks: map<string, StockInfo>, views: map<string, StageView>,
                     quotes: map<string, Snap>, today: int, holidays: seq<int>)
    requires AllValid(stocks) && Linked(stages, stocks)
    requires views.Keys == stages.Keys
    requires forall k :: k in stages && stages[k].stock != null ==> views[k] == ViewOf(stages[k], stages[k].stock)
    requires quotes.Keys == stocks.Keys && forall k :: k in stocks ==> quotes[k] == Unwalleted(stocks[k].Snapshot())
    ensures ReviewProgress(stages, stocks, stages.Keys, None, {}, views, map[], quotes, today, holidays)
  {
  }

  /** Part-way or at the end, the instruments are still valid and linked, only wallets
      moved, and the sold keys are stages; with nothing left to do and nothing raised,
      every stage was reviewed. */
  lemma ReviewEnds(stages: map<string, Stage>, stocks: map<string, StockInfo>, todo: set<string>, raised: Option<string>,
                   sold: set<string>, views: map<string, StageView>, after: map<string, StageView>,
                   quotes: map<string, Snap>, today: int, holidays: seq<int>)
    requires ReviewProgress(stages, stocks, todo, raised, sold, views, after, quotes, today, holidays)
    ensures AllValid(stocks) && Linked(stages, stocks)
    ensures forall k :: k in stocks ==> Unwalleted(stocks[k].Snapshot()) == quotes[k]
    ensures sold <= stages.Keys
    ensures todo == {} && raised.None? ==>
      && (forall k :: k in stages ==> stages[k].stock != null)
      && Outcomes(stages, stocks, stages.Keys, sold, views, ViewsOf(stages, stocks), today, holidays)
  {
    if todo == {} && raised.None? {
      var now := ViewsOf(stages, stocks);
      forall k | k in stages
        ensures stages[k].stock != null && k in stocks && k in views && k in now
        ensures Outcome(stages[k], stocks[k].createdAt, views[k], now[k], k in sold, today, holidays)
      {
        assert k in stages.Keys - todo;
        assert now[k] == after[k];
      }
    }
  }

  /** The loop of one review pass over `stages` (the positions, then the holdings):
      `breached()` on each key in an order the model leaves open, collecting the keys
      it reports sold, up to the end or to the key that raised. */
  method Review(stages: map<string, Stage>, stocks: map<string, StockInfo>, ghost views: map<string, StageView>,
                ghost quotes: map<string, Snap>, today: int, holidays: seq<int>)
    returns (sold: set<string>, ok: bool)
    requires KeyedBySymbol(stocks) && AllValid(stocks) && Linked(stages, stocks)
    requires views.Keys == stages.Keys
    requires forall k :: k in stages && stages[k].stock != null ==> views[k] == ViewOf(stages[k], stages[k].stock)
    requires quotes.Keys == stocks.Keys && forall k :: k in stocks ==> quotes[k] == Unwalleted(stocks[k].Snapshot())
    modifies stages.Values, stocks.Values
    ensures AllValid(stocks) && Linked(stages, stocks)
    ensures forall k :: k in stocks ==> Unwalleted(stocks[k].Snapshot()) == quotes[k]
    ensures sold <= stages.Keys
    ensures ok ==> forall k :: k in stages ==> stages[k].stock != null
    ensures ok ==> Outcomes(stages, stocks, stages.Keys, sold, views, ViewsOf(stages, stocks), today, holidays)
  {
    sold := {};
    ok := true;
    var todo := stages.Keys;
    ghost var raised: Option<string> := None;
    ghost var after: map<string, StageView> := map[];
    ReviewStarts(stages, stocks, views, quotes, today, holidays);
    while todo != {} && ok
      invariant ReviewProgress(stages, stocks, todo, raised, sold, views, after, quotes, today, holidays)
      invariant ok <==> raised.None?
      decreases todo
    {
      var key :| key in todo;
      sold, ok, raised, after := ReviewStep(stages, stocks, todo, key, raised, sold, views, after, quotes, today, holidays);
      todo := todo - {key};
    }
    ReviewEnds(stages, stocks, todo, raised, sold, views, after, quotes, today, holidays);
  }

  // ---------------------------------------------------------------------------
  // Refreshing the prices

  /** The state of every instrument, by key. */
  ghost function SnapsOf(stocks: map<string, StockInfo>): (r: map<string, Snap>)
    reads stocks.Values
    ensures r.Keys == stocks.Keys
  {
    map k | k in stocks :: stocks[k].Snapshot()
  }

  /** The quote `update_price` fetches first for each key. */
  function QuotesOf(keys: set<string>, feeds: string -> nat -> Ltp): (r: map<string, Quote>)
    ensures r.Keys == keys && forall k :: k in r ==> r[k] == FirstQuote(feeds(k), 0)
  {
    map k | k in keys :: FirstQuote(feeds(k), 0)
  }

  predicate AllConsistent(snaps: map<string, Snap>) {
    forall k :: k in snaps ==> Consistent(snaps[k])
  }

  /** Every instrument is valid when every state is consistent. */
  lemma ValidFromSnaps(stocks: map<string, StockInfo>)
    requires AllConsistent(SnapsOf(stocks))
    ensures AllValid(stocks)
  {
    forall k | k in stocks
      ensures stocks[k].Valid()
    {
      assert Consistent(SnapsOf(stocks)[k]);
    }
  }

  /** The refresh loop part-way: the keys left in `todo` are as they were; every other
      key was refreshed by `update_price` on its quote and returned normally, except the
      one that raised, if any; and the flag is set exactly when it was set before or one
      of the quotes fetched so far was the sentinel. */
  predicate Refreshing(before: map<string, Snap>, now: map<string, Snap>, quotes: map<string, Quote>,
                       todo: set<string>, raised: Option<string>, smooth: Smoother, flag0: bool, flag: bool)
  {
    && todo <= before.Keys && now.Keys == before.Keys && quotes.Keys == before.Keys
    && (forall k :: k in todo ==> now[k] == before[k])
    && (raised.Some? ==>
          && raised.value in before && raised.value !in todo
          && (now[raised.value], false) == AfterUpdate(before[raised.value], quotes[raised.value], smooth))
    && (forall k :: k in before && k !in todo && raised != Some(k) ==>
          (now[k], true) == AfterUpdate(before[k], quotes[k], smooth))
    && (flag <==> flag0 || exists k :: k in quotes && k !in todo && quotes[k].Ended?)
  }

  /** What the whole refresh loop did, from the states `before` to the states `after`:
      when it ran to the end every instrument was refreshed on its quote; when it raised,
      one instrument raised and each of the others was refreshed or left as it was; the
      flag was set by the sentinel quotes met. */
  predicate Refreshed(before: map<string, Snap>, after: map<string, Snap>, quotes: map<string, Quote>,
                      smooth: Smoother, ok: bool, flag0: bool, flag: bool)
  {
    && after.Keys == before.Keys && quotes.Keys == before.Keys
    && (ok ==> forall k :: k in before ==> (after[k], true) == AfterUpdate(before[k], quotes[k], smooth))
    && (!ok ==> exists k :: k in before && (after[k], false) == AfterUpdate(before[k], quotes[k], smooth))
    && (forall k :: k in before ==>
          || after[k] == before[k]
          || (after[k], true) == AfterUpdate(before[k], quotes[k], smooth)
          || (after[k], false) == AfterUpdate(before[k], quotes[k], smooth))
    && (ok ==> (flag <==> flag0 || exists k :: k in quotes && quotes[k].Ended?))
    && (flag ==> flag0 || exists k :: k in quotes && quotes[k].Ended?)
  }

  /** Recording the refresh of `key` keeps `Refreshing`. */
  lemma RefreshGrows(before: map<string, Snap>, now: map<string, Snap>, quotes: map<string, Quote>,
                     todo: set<string>, key: string, smooth: Smoother, flag0: bool, flag: bool,
                     s: Snap, ok: bool, flag1: bool)
    requires Refreshing(before, now, quotes, todo, None, smooth, flag0, flag)
    requires key in todo && (s, ok) == AfterUpdate(before[key], quotes[key], smooth)
    requires flag1 == (flag || quotes[key].Ended?)
    ensures Refreshing(before, now[key := s], quotes, todo - {key}, if ok then None else Some(key), smooth, flag0, flag1)
  {
    var now1 := now[key := s];
    var todo1 := todo - {key};
    var raised: Option<string> := if ok then None else Some(key);
    forall k | k in before && k !in todo1 && raised != Some(k)
      ensures (now1[k], true) == AfterUpdate(before[k], quotes[k], smooth)
    {
      if k != key {
        assert k !in todo;
      }
    }
    if flag1 && !flag0 {
      if flag {
        var j :| j in quotes && j !in todo && quotes[j].Ended?;
        assert j !in todo1;
      } else {
        assert key !in todo1;
      }
    }
  }

  /** `update_price` on the instrument under `key`; the others are left as they were. */
  method RefreshOne(stocks: map<string, StockInfo>, key: string, feeds: string -> nat -> Ltp,
                    smooth: Smoother, process: Process) returns (ok: bool)
    requires KeyedBySymbol(stocks) && AllConsistent(SnapsOf(stocks)) && key in stocks
    modifies stocks[key], process
    ensures AllConsistent(SnapsOf(stocks))
    ensures SnapsOf(stocks) == old(SnapsOf(stocks))[key := stocks[key].Snapshot()]
    ensures (stocks[key].Snapshot(), ok) == AfterUpdate(old(stocks[key].Snapshot()), FirstQuote(feeds(key), 0), smooth)
    ensures process.EndProcess() == (old(process.EndProcess()) || FirstQuote(feeds(key), 0).Ended?)
  {
    ghost var now := SnapsOf(stocks);
    assert stocks[key].Valid() by { assert Consistent(now[key]); }
    ok := stocks[key].UpdatePrice(feeds(key), smooth, process);
    forall k | k in stocks && k != key
      ensures stocks[k].Snapshot() == old(stocks[k].Snapshot())
    {
      assert stocks[k].symbol != stocks[key].symbol;
    }
    assert SnapsOf(stocks) == now[key := stocks[key].Snapshot()];
  }

  /** One iteration of the refresh loop, keeping `Refreshing`. */
  method RefreshStep(stocks: map<string, StockInfo>, todo: set<string>, key: string, feeds: string -> nat -> Ltp,
                     smooth: Smoother, process: Process, ghost before: map<string, Snap>, ghost flag0: bool)
    returns (ok: bool)
    requires KeyedBySymbol(stocks) && AllConsistent(SnapsOf(stocks)) && key in todo
    requires Refreshing(before, SnapsOf(stocks), QuotesOf(stocks.Keys, feeds), todo, None, smooth, flag0, process.EndProcess())
    modifies stocks[key], process
    ensures AllConsistent(SnapsOf(stocks))
    ensures Refreshing(before, SnapsOf(stocks), QuotesOf(stocks.Keys, feeds), todo - {key},
                       if ok then None else Some(key), smooth, flag0, process.EndProcess())
  {
    ghost var now := SnapsOf(stocks);
    ghost var flag := process.EndProcess();
    ok := RefreshOne(stocks, key, feeds, smooth, process);
    RefreshGrows(before, now, QuotesOf(stocks.Keys, feeds), todo, key, smooth, flag0, flag,
                 stocks[key].Snapshot(), ok, process.EndProcess());
  }

  /** Before the first iteration every key is still to do. */
  lemma RefreshStarts(before: map<string, Snap>, quotes: map<string, Quote>, smooth: Smoother, flag: bool)
    requires quotes.Keys == before.Keys
    ensures Refreshing(before, before, quotes, before.Keys, None, smooth, flag, flag)
  {
  }

  /** When the loop has stopped, `Refreshing` gives `Refreshed`. */
  lemma RefreshEnds(before: map<string, Snap>, now: map<string, Snap>, quotes: map<string, Quote>,
                    todo: set<string>, raised: Option<string>, smooth: Smoother, flag0: bool, flag: bool)
    requires Refreshing(before, now, quotes, todo, raised, smooth, flag0, flag)
    requires raised.None? ==> todo == {}
    ensures Refreshed(before, now, quotes, smooth, raised.None?, flag0, flag)
  {
    if raised.Some? {
      var r := raised.value;
      assert (now[r], false) == AfterUpdate(before[r], quotes[r], smooth);
    }
    forall k | k in before
      ensures || now[k] == before[k]
              || (now[k], true) == AfterUpdate(before[k], quotes[k], smooth)
              || (now[k], false) == AfterUpdate(before[k], quotes[k], smooth)
    {
    }
  }

  /** The loop that runs `update_price` on every tracked instrument, in an order the
      model leaves open. `ok` is false when one of them raised, which ends the loop
      there; the instruments refreshed before stay refreshed. */
  method RefreshAll(stocks: map<string, StockInfo>, feeds: string -> nat -> Ltp, smooth: Smoother, process: Process)
    returns (ok: bool)
    requires KeyedBySymbol(stocks) && AllValid(stocks)
    modifies stocks.Values, process
    ensures AllValid(stocks)
    ensures Refreshed(old(SnapsOf(stocks)), SnapsOf(stocks), QuotesOf(stocks.Keys, feeds), smooth, ok,
                      old(process.EndProcess()), process.EndProcess())
  {
    ghost var before := SnapsOf(stocks);
    ghost var quotes := QuotesOf(stocks.Keys, feeds);
    ghost var flag0 := process.EndProcess();
    ghost var raised: Option<string> := None;
    RefreshStarts(before, quotes, smooth, flag0);
    var todo := stocks.Keys;
    ok := true;
    while todo != {} && ok
      invariant AllConsistent(SnapsOf(stocks))
      invariant Refreshing(before, SnapsOf(stocks), quotes, todo, raised, smooth, flag0, process.EndProcess())
      invariant ok <==> raised.None?
      decreases todo
    {
      var key :| key in todo;
      ok := RefreshStep(stocks, todo, key, feeds, smooth, process, before, flag0);
      raised := if ok then None else Some(key);
      todo := todo - {key};
    }
    ValidFromSnaps(stocks);
    RefreshEnds(before, SnapsOf(stocks), quotes, todo, raised, smooth, flag0, process.EndProcess());
  }

  // ---------------------------------------------------------------------------
  // Loading at start-up

  function StockSymbol(d: StockDoc): string { d.symbol }

  function HoldingSymbol(d: HoldingDoc): string { d.symbol }

  function FieldsSymbol(f: TradeFields): string { f.symbol }

  /** `StockInfo.retrieve_all_services()` and the loop that files each instrument under its
      symbol: a later document replaces an earlier one with the same symbol. `disk` gives
      what each instrument's price file already holds. */
  method LoadStocks(docs: seq<StockDoc>, disk: string -> seq<real>) returns (tracked: map<string, StockInfo>)
    ensures tracked.Keys == Symbols(docs, StockSymbol)
    ensures KeyedBySymbol(tracked) && AllValid(tracked)
    ensures forall k :: k in tracked ==>
      && fresh(tracked[k])
      && tracked[k].Json() == LastFiled(docs, StockSymbol, k).value
      && tracked[k].Snapshot() == Unobserved(tracked[k].wallet, disk(k))
  {
    tracked := map[];
    var i := 0;
    while i < |docs|
      invariant 0 <= i <= |docs|
      invariant tracked.Keys == Symbols(docs[..i], StockSymbol)
      invariant forall k :: k in tracked ==>
        && fresh(tracked[k])
        && tracked[k].Json() == LastFiled(docs[..i], StockSymbol, k).value
        && tracked[k].Snapshot() == Unobserved(tracked[k].wallet, disk(k))
    {
      var s := new StockInfo.FromDoc(docs[i], disk(docs[i].symbol));
      FiledLast(docs[..i], StockSymbol, docs[i]);
      assert docs[..i + 1] == docs[..i] + [docs[i]];
      tracked := tracked[docs[i].symbol := s];
      i := i + 1;
    }
    assert docs[..i] == docs;
    forall k | k in tracked
      ensures tracked[k].symbol == k && tracked[k].Valid()
    {
      assert tracked[k].Json().symbol == k;
    }
  }

  /** `Holding.retrieve_all_services()`: every document decoded, in order; None when one of
      them does not decode, which makes the whole load raise. */
  function DecodeAll(docs: seq<HoldingDoc>): (r: Option<seq<TradeFields>>)
    ensures r.Some? <==> forall i :: 0 <= i < |docs| ==> Decode(docs[i]).Some?
    ensures r.Some? ==> |r.value| == |docs| && forall i :: 0 <= i < |docs| ==> Decode(docs[i]) == Some(r.value[i])
    decreases |docs|
  {
    if |docs| == 0 then Some([])
    else
      var rest := DecodeAll(docs[1..]);
      assert forall i :: 1 <= i < |docs| ==> docs[1..][i - 1] == docs[i];
      match Decode(docs[0])
      case None => None
      case Some(f) => if rest.None? then None else Some([f] + rest.value)
  }

  /** Decoding keeps every document's symbol. */
  lemma DecodeKeepsSymbols(docs: seq<HoldingDoc>)
    requires DecodeAll(docs).Some?
    ensures Symbols(DecodeAll(docs).value, FieldsSymbol) == Symbols(docs, HoldingSymbol)
  {
    var fs := DecodeAll(docs).value;
    forall i | 0 <= i < |docs|
      ensures FieldsSymbol(fs[i]) == HoldingSymbol(docs[i])
    {
      assert Decode(docs[i]) == Some(fs[i]);
    }
    assert forall k :: k in Symbols(fs, FieldsSymbol) ==> k in Symbols(docs, HoldingSymbol);
    assert forall k :: k in Symbols(docs, HoldingSymbol) ==> k in Symbols(fs, FieldsSymbol);
  }

  /** The loop that files each loaded holding under its symbol and links it to the
      tracked instrument of that symbol, if there is one; otherwise its instrument stays
      unset. A later holding replaces an earlier one with the same symbol. */
  method LoadHoldings(fields: seq<TradeFields>, tracked: map<string, StockInfo>) returns (holdings: map<string, Stage>)
    requires KeyedBySymbol(tracked)
    ensures holdings.Keys == Symbols(fields, FieldsSymbol)
    ensures Linked(holdings, tracked)
    ensures forall k :: k in holdings ==>
      && fresh(holdings[k])
      && holdings[k].kind == HoldingKind && holdings[k].Fields() == LastFiled(fields, FieldsSymbol, k).value
      && holdings[k].stock == (if k in tracked then tracked[k] else null)
      && holdings[k].lastPrice.None? && holdings[k].trigger.None?
  {
    holdings := map[];
    var i := 0;
    while i < |fields|
      invariant 0 <= i <= |fields|
      invariant holdings.Keys == Symbols(fields[..i], FieldsSymbol)
      invariant forall k :: k in holdings ==>
        && fresh(holdings[k])
        && holdings[k].symbol == k
        && holdings[k].kind == HoldingKind && holdings[k].Fields() == LastFiled(fields[..i], FieldsSymbol, k).value
        && holdings[k].stock == (if k in tracked then tracked[k] else null)
        && holdings[k].lastPrice.None? && holdings[k].trigger.None?
    {
      var k := fields[i].symbol;
      var h := new Stage.FromDoc(fields[i], if k in tracked then tracked[k] else null);
      FiledLast(fields[..i], FieldsSymbol, fields[i]);
      assert fields[..i + 1] == fields[..i] + [fields[i]];
      holdings := holdings[k := h];
      i := i + 1;
    }
    assert fields[..i] == fields;
  }

  /** The two collections the session persists to. */
  datatype Db = Db(stocks: seq<StockDoc>, holdings: seq<HoldingDoc>)

  /** The symbols `chosen_stocks()` returned. */
  function Chosen(chosen: seq<string>): set<string> {
    set c | c in chosen
  }

  /** One more chosen symbol adds exactly that symbol. */
  lemma ChosenStep(chosen: seq<string>, i: int)
    requires 0 <= i < |chosen|
    ensures Chosen(chosen[..i]) + {chosen[i]} == Chosen(chosen[..i + 1])
  {
    assert chosen[..i + 1] == chosen[..i] + [chosen[i]];
  }

  /** `s` is an NSE instrument created on `importDay`, with an empty wallet and the
      history on disk for its symbol, never observed. */
  predicate Imported(s: StockInfo, importDay: int, disk: string -> seq<real>)
    reads s
  {
    s.exchange == "NSE" && s.createdAt == importDay && s.Snapshot() == Unobserved(0.0, disk(s.symbol))
  }

  /** `t` is `t0` with the symbols `added` imported. */
  predicate ImportedFrom(t0: map<string, StockInfo>, t: map<string, StockInfo>, added: set<string>,
                         importDay: int, disk: string -> seq<real>)
    reads t.Values
  {
    && KeyedBySymbol(t) && AllValid(t)
    && t.Keys == t0.Keys + added
    && (forall k :: k in t0 ==> t[k] == t0[k])
    && (forall k :: k in t && k !in t0 ==> Imported(t[k], importDay, disk))
  }

  /** One iteration of `AddChosen`: symbol `c` is added unless already tracked. */
  method AddOne(t0: map<string, StockInfo>, t1: map<string, StockInfo>, added: set<string>, c: string,
                disk: string -> seq<real>, importDay: int)
    returns (t: map<string, StockInfo>)
    requires ImportedFrom(t0, t1, added, importDay, disk)
    ensures ImportedFrom(t0, t, added + {c}, importDay, disk)
    ensures forall k :: k in t ==> (k in t1 && t[k] == t1[k]) || fresh(t[k])
  {
    t := t1;
    if c !in t {
      var s := new StockInfo(c, "NSE", 0.0, importDay, disk(c));
      t := t[c := s];
    }
  }

  /** The loop of `AddChosen`, on the map of tracked instruments `t0`. */
  method WithChosen(t0: map<string, StockInfo>, chosen: seq<string>, disk: string -> seq<real>, importDay: int)
    returns (t: map<string, StockInfo>)
    requires KeyedBySymbol(t0) && AllValid(t0)
    ensures ImportedFrom(t0, t, Chosen(chosen), importDay, disk)
    ensures forall k :: k in t && k !in t0 ==> fresh(t[k])
  {
    t := t0;
    var i := 0;
    while i < |chosen|
      invariant 0 <= i <= |chosen|
      invariant ImportedFrom(t0, t, Chosen(chosen[..i]), importDay, disk)
      invariant forall k :: k in t && k !in t0 ==> fresh(t[k])
    {
      ChosenStep(chosen, i);
      t := AddOne(t0, t, Chosen(chosen[..i]), chosen[i], disk, importDay);
      i := i + 1;
    }
    assert chosen[..i] == chosen;
  }

  // ---------------------------------------------------------------------------
  // The end of the day

  /** What the end-of-day loop does for a tracked key without a position: nothing, a
      LONG DELIVERY buy of `quantity` shares, or raise (which ends `background_task`). */
  datatype LateAction = Pass | Open(quantity: int) | Crash

  /** The end-of-day buy on a late fall, as written: the latest price must be more than
      1% under the day's high and less than 0.5% over the day's low; comparing with a
      missing price raises, and so does sizing the order without a usable indicator
      price. Whether the symbol is already held is not consulted. */
  function LateDecisionAsWritten(s: Snap, symbol: string, broker: Broker): (a: LateAction)
    ensures a.Open? ==>
      && s.latestPrice.Some? && s.high.Some? && s.low.Some?
      && s.latestPrice.value < s.high.value * 0.99 && s.latestPrice.value < s.low.value * 1.005
      && BudgetQuantity(s.latestIndicatorPrice) == Some(a.quantity) && broker(symbol, a.quantity)
    ensures s.latestPrice.None? || s.high.None? ==> a == Crash
  {
    if s.latestPrice.None? || s.high.None? then Crash
    else if !(s.latestPrice.value < s.high.value * (1.0 - 0.01)) then Pass
    else if s.low.None? then Crash
    else if !(s.latestPrice.value < s.low.value * (1.0 + 0.005)) then Pass
    else
      var q := BudgetQuantity(s.latestIndicatorPrice);
      if q.None? then Crash
      else if broker(symbol, q.value) then Open(q.value)
      else Pass
  }

  /** The end-of-day buy as the intraday pass decides it: a held symbol is left alone. */
  function LateDecision(held: bool, s: Snap, symbol: string, broker: Broker): (a: LateAction)
    ensures held ==> a == Pass
    ensures !held ==> a == LateDecisionAsWritten(s, symbol, broker)
  {
    if held then Pass else LateDecisionAsWritten(s, symbol, broker)
  }

  /** On a consistent instrument the end-of-day step raises exactly when no price was
      recorded yet, or when the fall criterion holds but the indicator price is missing
      or zero. */
  lemma LateCrashMeaning(s: Snap, symbol: string, broker: Broker)
    requires Consistent(s)
    ensures LateDecisionAsWritten(s, symbol, broker) == Crash <==>
      || s.latestPrice.None?
      || (&& s.latestPrice.value < s.high.value * 0.99 && s.latestPrice.value < s.low.value * 1.005
          && BudgetQuantity(s.latestIndicatorPrice).None?)
  {
  }

  /** When a buy is placed, the latest price is within 0.5% above the day's low and
      more than 1% under the day's high. */
  lemma LateBuyNeedsWideRange(s: Snap, symbol: string, broker: Broker)
    requires Consistent(s) && LateDecisionAsWritten(s, symbol, broker).Open?
    ensures s.low.value <= s.latestPrice.value < s.low.value * 1.005
    ensures s.latestPrice.value < s.high.value * 0.99
  {
  }

  /** As written, a held symbol can be bought again at the end of the day: with a latest
      price of 90 against a high of 100 and a low of 90, an indicator price of 50 and a
      broker that accepts, 100 shares are bought, and the promotion that follows files
      them over the holding of 10 shares under the same key; the corrected decision
      passes. */
  lemma HeldSymbolBoughtAgain(broker: Broker)
    requires broker("X", 100)
    ensures var s := Snap(0.0, Some(90.0), Some(50.0), None, Some(100.0), Some(90.0), None, [], None);
      && LateDecisionAsWritten(s, "X", broker) == Open(100)
      && LateDecision(true, s, "X", broker) == Pass
  {
    var s := Snap(0.0, Some(90.0), Some(50.0), None, Some(100.0), Some(90.0), None, [], None);
    assert Trunc(BUDGET / 50.0) == 100;
  }

  /** `p` is the position the end-of-day loop opens under `key` on instrument `s`,
      whose state is `snap`: LONG, DELIVERY, bought at the latest price, referenced to
      the indicator price. */
  predicate LateOpened(key: string, snap: Snap, s: StockInfo, quantity: int, p: Stage) {
    && snap.latestPrice.Some? && snap.latestIndicatorPrice.Some?
    && p.kind == PositionKind && p.stock == s
    && p.Fields() == TradeFields(snap.latestPrice.value, snap.latestIndicatorPrice.value, quantity, Delivery, Long, key)
  }

  /** The instrument document the end of the session leaves under a symbol: its `json()`
      when none was found, otherwise the found document with the wallet updated. */
  function Persisted(found: Option<StockDoc>, doc: StockDoc): (r: StockDoc)
    ensures r.wallet == doc.wallet
    ensures found.None? ==> r == doc
    ensures found.Some? ==> r.symbol == found.value.symbol && r.exchange == found.value.exchange && r.createdAt == found.value.createdAt
  {
    if found.None? then doc else found.value.(wallet := doc.wallet)
  }

  /** `update_in_db(..., {'wallet': w})`: the document's wallet is set to `w`. */
  function WithWallet(w: real): StockDoc -> StockDoc {
    (d: StockDoc) => d.(wallet := w)
  }

  /** The instrument collection `saved`, grown from `docs` by persisting the keys in
      `done` (with the documents `jsons`): each of them finds what `Persisted` says,
      every other symbol finds what it found before, the symbols grow by `done`, and
      uniqueness is kept. */
  ghost predicate Persisting(docs: seq<StockDoc>, saved: seq<StockDoc>, jsons: map<string, StockDoc>, done: set<string>) {
    && done <= jsons.Keys
    && (forall k :: k in done ==> Find(saved, StockSymbol, k) == Some(Persisted(Find(docs, StockSymbol, k), jsons[k])))
    && (forall k :: k !in done ==> Find(saved, StockSymbol, k) == Find(docs, StockSymbol, k))
    && Symbols(saved, StockSymbol) == Symbols(docs, StockSymbol) + done
    && (Unique(docs, StockSymbol) ==> Unique(saved, StockSymbol))
  }

  /** Persisting one more instrument keeps `Persisting`. */
  lemma PersistGrows(docs: seq<StockDoc>, saved: seq<StockDoc>, jsons: map<string, StockDoc>, done: set<string>, key: string)
    requires Persisting(docs, saved, jsons, done) && key !in done && key in jsons && jsons[key].symbol == key
    ensures Persisting(docs, Upsert(saved, StockSymbol, key, jsons[key], WithWallet(jsons[key].wallet)), jsons, done + {key})
  {
    var w := jsons[key].wallet;
    var update := WithWallet(w);
    var r := Upsert(saved, StockSymbol, key, jsons[key], update);
    UpsertMeaning(saved, StockSymbol, key, jsons[key], update);
    var found := Find(docs, StockSymbol, key);
    assert Find(saved, StockSymbol, key) == found;
    assert Find(r, StockSymbol, key) == Some(Persisted(found, jsons[key])) by {
      if found.Some? {
        assert update(found.value) == found.value.(wallet := w);
      }
    }
    forall k | k in done + {key}
      ensures Find(r, StockSymbol, k) == Some(Persisted(Find(docs, StockSymbol, k), jsons[k]))
    {
      if k != key {
        assert Find(r, StockSymbol, k) == Find(saved, StockSymbol, k);
      }
    }
    forall k | k !in done + {key}
      ensures Find(r, StockSymbol, k) == Find(docs, StockSymbol, k)
    {
      assert Find(r, StockSymbol, k) == Find(saved, StockSymbol, k);
    }
  }

  /** The symbols the final loop of `background_task` deletes, as written: it walks a
      live view of the current holdings' keys (taken at start-up but never copied) and
      deletes the ones not among the current holdings, which is none. */
  function StaleKeysAsWritten(live: set<string>): (r: set<string>)
  {
    set k | k in live && k !in live
  }

  /** The symbols that loop is meant to delete: held at start-up and no longer held. */
  function StaleKeys(initial: set<string>, live: set<string>): (r: set<string>)
    ensures forall k :: k in r <==> k in initial && k !in live
  {
    initial - live
  }

  /** As written, nothing is ever deleted, so a holding held at start-up and sold during
      the day keeps its document; the corrected loop deletes it. */
  lemma SoldHoldingStaysFiled(live: set<string>)
    requires "A" !in live
    ensures StaleKeysAsWritten(live) == {}
    ensures StaleKeys({"A"}, live) == {"A"}
  {
  }

  /** The buying half of one iteration of the end-of-day loop, on the instrument `s`
      filed under `key` with no position: `crashed` when it raises, otherwise `p` holds
      the position it opens, if any. */
  method LateVisit(key: string, s: StockInfo, held: bool, broker: Broker) returns (p: Option<Stage>, crashed: bool)
    requires s.symbol == key
    ensures crashed <==> LateDecision(held, s.Snapshot(), key, broker) == Crash
    ensures p.Some? <==> LateDecision(held, s.Snapshot(), key, broker).Open?
    ensures p.Some? ==>
      && fresh(p.value) && p.value.lastPrice.None? && p.value.trigger.None?
      && LateDecision(held, s.Snapshot(), key, broker) == Open(p.value.quantity)
      && LateOpened(key, s.Snapshot(), s, p.value.quantity, p.value)
  {
    var action := LateDecision(held, s.Snapshot(), s.symbol, broker);
    p := None;
    crashed := action.Crash?;
    if action.Open? {
      var stage := new Stage.Position(s.latestPrice.value, s.latestIndicatorPrice.value, action.quantity,
                                      Delivery, Long, key, s);
      p := Some(stage);
    }
  }

  /** The buying half of the end-of-day loop over the instruments `stocks`, in an order
      the model leaves open: a key with no position among `positions` may get a LONG
      DELIVERY position on a late fall (`LateDecision`, with `held` the held symbols),
      collected in `bought`. A raise ends the loop, and `background_task` with it
      (`crashed`); `done` holds the keys whose iteration completed. */
  method LateBuys(stocks: map<string, StockInfo>, positions: map<string, Stage>, held: set<string>, broker: Broker)
    returns (bought: map<string, Stage>, done: set<string>, crashed: bool)
    requires KeyedBySymbol(stocks)
    ensures bought.Keys <= done - positions.Keys && done <= stocks.Keys
    ensures !crashed ==> done == stocks.Keys
    ensures forall k :: k in bought ==> fresh(bought[k]) && bought[k].lastPrice.None? && bought[k].trigger.None?
    ensures forall k :: k in bought ==>
      && LateDecision(k in held, stocks[k].Snapshot(), k, broker) == Open(bought[k].quantity)
      && LateOpened(k, stocks[k].Snapshot(), stocks[k], bought[k].quantity, bought[k])
    ensures forall k :: k in done && k !in positions ==>
      (k in bought <==> LateDecision(k in held, stocks[k].Snapshot(), k, broker).Open?)
    ensures crashed ==> exists k :: (k in stocks && k !in positions && k !in done
      && LateDecision(k in held, stocks[k].Snapshot(), k, broker) == Crash)
  {
    ghost var snaps := SnapsOf(stocks);
    bought := map[];
    crashed := false;
    var todo := stocks.Keys;
    while todo != {}
      invariant todo <= stocks.Keys && bought.Keys <= stocks.Keys - positions.Keys - todo
      invariant forall k :: k in bought ==> fresh(bought[k]) && bought[k].lastPrice.None? && bought[k].trigger.None?
      invariant forall k :: k in bought ==>
        && LateDecision(k in held, snaps[k], k, broker) == Open(bought[k].quantity)
        && LateOpened(k, snaps[k], stocks[k], bought[k].quantity, bought[k])
      invariant forall k :: k in stocks && k !in todo && k !in positions ==>
        (k in bought <==> LateDecision(k in held, snaps[k], k, broker).Open?)
      decreases todo
    {
      var key :| key in todo;
      if key !in positions {
        assert stocks[key].Snapshot() == snaps[key];
        var p, c := LateVisit(key, stocks[key], key in held, broker);
        if c {
          done := stocks.Keys - todo;
          crashed := true;
          assert SnapsOf(stocks) == snaps;
          return;
        }
        if p.Some? {
          bought := bought[key := p.value];
        }
      }
      todo := todo - {key};
    }
    done := stocks.Keys;
    assert SnapsOf(stocks) == snaps;
  }

  /** The persisting loop over the keys `done` with `todo` still to go: every other
      key of `done` is persisted. */
  ghost predicate PersistLoop(docs: seq<StockDoc>, saved: seq<StockDoc>, jsons: map<string, StockDoc>,
                              done: set<string>, todo: set<string>) {
    todo <= done && Persisting(docs, saved, jsons, done - todo)
  }

  /** One iteration of the persisting half of the end-of-day loop, on key `key`: finds
      its symbol, then inserts `jsons[key]` or updates the found document's wallet. */
  method PersistOne(ghost docs: seq<StockDoc>, saved: seq<StockDoc>, ghost jsons: map<string, StockDoc>,
                    ghost done: set<string>, ghost todo: set<string>, key: string, json: StockDoc)
    returns (next: seq<StockDoc>)
    requires PersistLoop(docs, saved, jsons, done, todo) && done <= jsons.Keys && key in todo
    requires json == jsons[key] && json.symbol == key
    ensures PersistLoop(docs, next, jsons, done, todo - {key})
  {
    assert done - (todo - {key}) == (done - todo) + {key};
    PersistGrows(docs, saved, jsons, done - todo, key);
    if Find(saved, StockSymbol, key).None? {
      next := saved + [json];
    } else {
      next := UpdateFirst(saved, StockSymbol, key, WithWallet(json.wallet));
    }
  }

  /** The persisting half of the end-of-day loop, over the keys `done`: the document
      `jsons[k]` of each is inserted when its symbol is not found, otherwise the found
      document's wallet is updated. */
  method PersistStocks(jsons: map<string, StockDoc>, done: set<string>, docs: seq<StockDoc>)
    returns (saved: seq<StockDoc>)
    requires done <= jsons.Keys && forall k :: k in jsons ==> jsons[k].symbol == k
    ensures Persisting(docs, saved, jsons, done)
  {
    saved := docs;
    var todo := done;
    assert done - todo == {};
    while todo != {}
      invariant PersistLoop(docs, saved, jsons, done, todo)
      decreases todo
    {
      var key :| key in todo;
      saved := PersistOne(docs, saved, jsons, done, todo, key, jsons[key]);
      todo := todo - {key};
    }
    assert done - todo == done;
  }

  /** `update_in_db({'symbol': k}, json())` on the holding collection: every field of
      the found document is set to `d`'s (the symbol already agrees). */
  function Overwrite(d: HoldingDoc): HoldingDoc -> HoldingDoc {
    (e: HoldingDoc) => d.(symbol := e.symbol)
  }

  /** A holding document is filed under `k` in `docs` and `to_object` raises on it. */
  predicate Undecodable(docs: seq<HoldingDoc>, k: string) {
    Find(docs, HoldingSymbol, k).Some? && Decode(Find(docs, HoldingSymbol, k).value).None?
  }

  /** The holding collection `saved`, grown from `docs` by filing the keys in `done`
      (with the documents `jsons`): each of them finds its document, every other symbol
      finds what it found before, the symbols grow by `done`, and uniqueness is kept. */
  ghost predicate Filing(docs: seq<HoldingDoc>, saved: seq<HoldingDoc>, jsons: map<string, HoldingDoc>, done: set<string>) {
    && done <= jsons.Keys
    && (forall k :: k in done ==> Find(saved, HoldingSymbol, k) == Some(jsons[k]))
    && (forall k :: k !in done ==> Find(saved, HoldingSymbol, k) == Find(docs, HoldingSymbol, k))
    && Symbols(saved, HoldingSymbol) == Symbols(docs, HoldingSymbol) + done
    && (Unique(docs, HoldingSymbol) ==> Unique(saved, HoldingSymbol))
  }

  /** Filing one more holding keeps `Filing`. */
  lemma FileGrows(docs: seq<HoldingDoc>, saved: seq<HoldingDoc>, jsons: map<string, HoldingDoc>, done: set<string>, key: string)
    requires Filing(docs, saved, jsons, done) && key !in done && key in jsons && jsons[key].symbol == key
    ensures Filing(docs, Upsert(saved, HoldingSymbol, key, jsons[key], Overwrite(jsons[key])), jsons, done + {key})
  {
    var update := Overwrite(jsons[key]);
    var r := Upsert(saved, HoldingSymbol, key, jsons[key], update);
    UpsertMeaning(saved, HoldingSymbol, key, jsons[key], update);
    var found := Find(saved, HoldingSymbol, key);
    assert Find(r, HoldingSymbol, key) == Some(jsons[key]) by {
      if found.Some? {
        assert HoldingSymbol(found.value) == key;
        assert update(found.value) == jsons[key];
      }
    }
    forall k | k in done + {key}
      ensures Find(r, HoldingSymbol, k) == Some(jsons[k])
    {
      if k != key {
        assert Find(r, HoldingSymbol, k) == Find(saved, HoldingSymbol, k);
      }
    }
    forall k | k !in done + {key}
      ensures Find(r, HoldingSymbol, k) == Find(docs, HoldingSymbol, k)
    {
      assert Find(r, HoldingSymbol, k) == Find(saved, HoldingSymbol, k);
    }
  }

  /** The documents of each holding, by key. */
  function HoldingJsons(stages: map<string, Stage>): (r: map<string, HoldingDoc>)
    requires forall k :: k in stages ==> stages[k].kind == HoldingKind
    reads stages.Values
    ensures r.Keys == stages.Keys
    ensures forall k :: k in stages ==> Decode(r[k]) == Some(stages[k].Fields())
  {
    map k | k in stages :: stages[k].Json()
  }

  /** The filing loop with the keys `todo` still to go: every other key of `jsons` is
      filed, and none of them found a document that does not decode. */
  ghost predicate FilingLoop(docs: seq<HoldingDoc>, saved: seq<HoldingDoc>, jsons: map<string, HoldingDoc>, todo: set<string>) {
    && todo <= jsons.Keys
    && Filing(docs, saved, jsons, jsons.Keys - todo)
    && (forall k :: k in jsons.Keys - todo ==> !Undecodable(docs, k))
  }

  /** Filing key `key`, whose found document (if any) decodes, keeps `FilingLoop`. */
  lemma FileStep(docs: seq<HoldingDoc>, saved: seq<HoldingDoc>, jsons: map<string, HoldingDoc>, todo: set<string>, key: string)
    requires FilingLoop(docs, saved, jsons, todo) && key in todo && jsons[key].symbol == key
    requires !Undecodable(docs, key)
    ensures FilingLoop(docs, Upsert(saved, HoldingSymbol, key, jsons[key], Overwrite(jsons[key])), jsons, todo - {key})
  {
    assert jsons.Keys - (todo - {key}) == (jsons.Keys - todo) + {key};
    FileGrows(docs, saved, jsons, jsons.Keys - todo, key);
  }

  /** The loop that files every holding (the documents `jsons`, in an order the model
      leaves open): `json()` is inserted when nothing is filed under the symbol,
      otherwise the found document is overwritten with it. Reading back a found
      document that does not decode raises, which ends `background_task` (`crashed`). */
  method SaveHoldings(jsons: map<string, HoldingDoc>, docs: seq<HoldingDoc>) returns (saved: seq<HoldingDoc>, crashed: bool)
    requires forall k :: k in jsons ==> jsons[k].symbol == k
    ensures crashed <==> exists k :: k in jsons && Undecodable(docs, k)
    ensures !crashed ==> Filing(docs, saved, jsons, jsons.Keys)
    ensures crashed ==> exists done :: done < jsons.Keys && Filing(docs, saved, jsons, done)
  {
    saved := docs;
    crashed := false;
    var todo := jsons.Keys;
    assert jsons.Keys - todo == {};
    while todo != {}
      invariant FilingLoop(docs, saved, jsons, todo)
      decreases todo
    {
      var key :| key in todo;
      var found := Find(saved, HoldingSymbol, key);
      assert found == Find(docs, HoldingSymbol, key);
      if found.Some? && Decode(found.value).None? {
        crashed := true;
        assert Undecodable(docs, key);
        assert jsons.Keys - todo < jsons.Keys;
        return;
      }
      FileStep(docs, saved, jsons, todo, key);
      saved := Upsert(saved, HoldingSymbol, key, jsons[key], Overwrite(jsons[key]));
      todo := todo - {key};
    }
    assert jsons.Keys - todo == jsons.Keys;
  }

  /** The final loop of `background_task` as it is meant to work: for each symbol held
      at start-up (`initial`, in an order the model leaves open) that is no longer held
      (not in `live`), the holding document filed under it is deleted. */
  method DeleteStale(initial: set<string>, live: set<string>, docs: seq<HoldingDoc>) returns (saved: seq<HoldingDoc>)
    ensures forall k :: k !in StaleKeys(initial, live) ==> Find(saved, HoldingSymbol, k) == Find(docs, HoldingSymbol, k)
    ensures Unique(docs, HoldingSymbol) ==>
      && Unique(saved, HoldingSymbol)
      && Symbols(saved, HoldingSymbol) == Symbols(docs, HoldingSymbol) - StaleKeys(initial, live)
      && forall k :: k in StaleKeys(initial, live) ==> Find(saved, HoldingSymbol, k).None?
  {
    saved := docs;
    var todo := initial;
    while todo != {}
      invariant todo <= initial
      invariant forall k :: k !in StaleKeys(initial - todo, live) ==> Find(saved, HoldingSymbol, k) == Find(docs, HoldingSymbol, k)
      invariant Unique(docs, HoldingSymbol) ==>
        && Unique(saved, HoldingSymbol)
        && Symbols(saved, HoldingSymbol) == Symbols(docs, HoldingSymbol) - StaleKeys(initial - todo, live)
        && forall k :: k in StaleKeys(initial - todo, live) ==> Find(saved, HoldingSymbol, k).None?
      decreases todo
    {
      var key :| key in todo;
      if key !in live {
        DeleteMeaning(saved, HoldingSymbol, key);
        saved := DeleteFirst(saved, HoldingSymbol, key);
      }
      assert StaleKeys(initial - (todo - {key}), live) == StaleKeys(initial - todo, live) + (if key in live then {} else {key});
      todo := todo - {key};
    }
  }

  /** The last two loops of `background_task` on the holding collection: every holding
      is filed, then the symbols held at start-up and no longer held are deleted. When
      nothing raises, each holding finds its document; when the collection had unique
      symbols, all held at start-up, it ends up with exactly the current holdings. */
  method FileHoldings(initial: set<string>, jsons: map<string, HoldingDoc>, docs: seq<HoldingDoc>)
    returns (saved: seq<HoldingDoc>, crashed: bool)
    requires forall k :: k in jsons ==> jsons[k].symbol == k
    ensures crashed <==> exists k :: k in jsons && Undecodable(docs, k)
    ensures !crashed ==> forall k :: k in jsons ==> Find(saved, HoldingSymbol, k) == Some(jsons[k])
    ensures !crashed && Unique(docs, HoldingSymbol) && Symbols(docs, HoldingSymbol) <= initial ==>
      && Unique(saved, HoldingSymbol)
      && Symbols(saved, HoldingSymbol) == jsons.Keys
  {
    var filed;
    filed, crashed := SaveHoldings(jsons, docs);
    if crashed {
      return filed, true;
    }
    saved := DeleteStale(initial, jsons.Keys, filed);
  }

  /** What one wake-up of the main loop sees: the clock reading after the sleep, the
      symbols `chosen_stocks()` returns, the price feeds and the day. */
  datatype Wake = Wake(now: int, chosen: seq<string>, feeds: string -> nat -> Ltp, today: int)

  /** The clock reading the loop condition tests before wake-up `i`: the previous
      wake-up's reading, and the start-up reading for the first. */
  function ClockBefore(start: int, wakes: seq<Wake>, i: nat): int
  {
    if 0 < i <= |wakes| then wakes[i - 1].now else start
  }

  /** The number of wake-ups the loop condition `current_time < END_TIME` lets through
      when the clock reads `start` at start-up: every wake-up before it was entered with
      the clock before the end of the day, and the clock read before the next one, if
      any, is at or past it. */
  function WakeCount(start: int, wakes: seq<Wake>): (n: nat)
    ensures n <= |wakes|
    ensures forall i :: 0 <= i < n ==> ClockBefore(start, wakes, i) < END_TIME
    ensures n == |wakes| || ClockBefore(start, wakes, n) >= END_TIME
    decreases |wakes|
  {
    if |wakes| == 0 || start >= END_TIME then 0
    else
      var n := 1 + WakeCount(wakes[0].now, wakes[1..]);
      assert forall i :: 1 <= i <= n && i <= |wakes| ==> ClockBefore(start, wakes, i) == ClockBefore(wakes[0].now, wakes[1..], i - 1);
      n
  }

  // ---------------------------------------------------------------------------
  // The session

  /** The state `background_task` keeps between ticks: the tracked instruments, the
      account, the termination flag, the day the instruments module was imported (the
      default creation time of a new instrument) and the symbols held at start-up. */
  class Session {
    var tracked: map<string, StockInfo>
    const account: Account
    const process: Process
    const importDay: int
    const initialHoldings: set<string>

    /** Every instrument is filed under its symbol and consistent; every stage is filed
        under its symbol and linked to the tracked instrument of that symbol, if any;
        positions are positions with an instrument, holdings are holdings; and no symbol
        is both a position and a holding. */
    predicate Valid()
      reads this, account, tracked.Values
    {
      && KeyedBySymbol(tracked) && AllValid(tracked)
      && Linked(account.positions, tracked) && Linked(account.holdings, tracked)
      && account.positions.Keys !! account.holdings.Keys
      && (forall k :: k in account.positions ==> account.positions[k].kind == PositionKind && account.positions[k].stock != null)
      && (forall k :: k in account.holdings ==> account.holdings[k].kind == HoldingKind)
    }

    /** The session right after loading: no position yet, the termination flag clear. */
    constructor (tracked: map<string, StockInfo>, holdings: map<string, Stage>, importDay: int)
      requires KeyedBySymbol(tracked) && AllValid(tracked) && Linked(holdings, tracked)
      requires forall k :: k in holdings ==> holdings[k].kind == HoldingKind
      ensures Valid()
      ensures this.tracked == tracked && account.holdings == holdings && account.positions == map[]
      ensures initialHoldings == holdings.Keys && this.importDay == importDay && !process.EndProcess()
      ensures fresh(account) && fresh(process)
    {
      this.tracked := tracked;
      var a := new Account();
      a.holdings := holdings;
      account := a;
      process := new Process();
      this.importDay := importDay;
      initialHoldings := holdings.Keys;
    }

    /** The loop that adds each newly chosen symbol to the tracked instruments, as a new
        NSE instrument with an empty wallet, created at import time; instruments already
        tracked are kept as they are. */
    method AddChosen(chosen: seq<string>, disk: string -> seq<real>)
      requires Valid()
      modifies this
      ensures Valid()
      ensures tracked.Keys == old(tracked.Keys) + Chosen(chosen)
      ensures forall k :: k in old(tracked) ==> tracked[k] == old(tracked[k])
      ensures forall k :: k in tracked && k !in old(tracked) ==>
        fresh(tracked[k]) && tracked[k].exchange == "NSE" && tracked[k].createdAt == importDay
          && tracked[k].Snapshot() == Unobserved(0.0, disk(k))
    {
      tracked := WithChosen(tracked, chosen, disk, importDay);
    }

    /** The loop that runs `update_price` on every tracked instrument (see `RefreshAll`). */
    method UpdateAll(feeds: string -> nat -> Ltp, smooth: Smoother) returns (ok: bool)
      requires Valid()
      modifies tracked.Values, process
      ensures Valid() && tracked == old(tracked)
      ensures Refreshed(old(SnapsOf(tracked)), SnapsOf(tracked), QuotesOf(tracked.Keys, feeds), smooth, ok,
                        old(process.EndProcess()), process.EndProcess())
    {
      ok := RefreshAll(tracked, feeds, smooth, process);
    }

    /** The buying step of a tick: `buy_stocks` over the tracked instruments, only inside
        the buying window. New positions are on tracked, unheld symbols. */
    method BuyPhase(now: int, smooth: Smoother, broker: Broker) returns (ok: bool)
      requires Valid()
      modifies account, tracked.Values
      ensures Valid()
      ensures account.holdings == old(account.holdings)
      ensures forall k :: k in old(account.positions) ==> k in account.positions && account.positions[k] == old(account.positions[k])
      ensures forall k :: k in account.positions && k !in old(account.positions) ==> InBuyingWindow(now) && fresh(account.positions[k])
      ensures !InBuyingWindow(now) ==> ok && account.positions == old(account.positions)
      ensures !InBuyingWindow(now) ==> forall k :: k in tracked ==> tracked[k].Snapshot() == old(tracked[k].Snapshot())
      ensures InBuyingWindow(now) ==> forall k :: k in tracked ==>
        KeyOutcome(k, tracked[k], old(tracked[k].Snapshot()), k in old(account.positions), ok, k in account.holdings,
                   Entry(old(account.positions), k), Entry(account.positions, k), smooth, broker)
    {
      if !InBuyingWindow(now) {
        return true;
      }
      ok := account.BuyStocks(tracked, smooth, broker);
      forall k | k in account.positions && k !in old(account.positions)
        ensures && account.positions[k].symbol == k && account.positions[k].kind == PositionKind
                && account.positions[k].stock == tracked[k] && k !in account.holdings
      {
        assert Entry(account.positions, k) == Some(account.positions[k]);
        assert KeyOutcome(k, tracked[k], old(tracked[k].Snapshot()), false, ok, k in account.holdings,
                          None, Some(account.positions[k]), smooth, broker);
      }
    }

    /** The positions pass of a tick: `breached()` on every position, then the deletion
        of the ones it reported sold (`sold`). When the pass raises, the tick ends there
        and no position is deleted. */
    method ReviewPositions(today: int, holidays: seq<int>) returns (sold: set<string>, ok: bool)
      requires Valid()
      modifies account, account.positions.Values, tracked.Values
      ensures Valid()
      ensures account.holdings == old(account.holdings)
      ensures sold <= old(account.positions.Keys)
      ensures account.positions == if ok then old(account.positions) - sold else old(account.positions)
      ensures ok ==> Outcomes(old(account.positions), tracked, old(account.positions.Keys), sold,
                              old(ViewsOf(account.positions, tracked)), ViewsOf(old(account.positions), tracked),
                              today, holidays)
    {
      var stages := account.positions;
      ghost var views := ViewsOf(stages, tracked);
      ghost var quotes := map k | k in tracked :: Unwalleted(tracked[k].Snapshot());
      sold, ok := Review(stages, tracked, views, quotes, today, holidays);
      if ok {
        account.DropPositions(sold, tracked);
      }
    }

    /** The holdings pass of a tick: `breached()` on every holding, then the deletion of
        the ones it reported sold (`sold`). A holding with no instrument makes the pass
        raise. */
    method ReviewHoldings(today: int, holidays: seq<int>) returns (sold: set<string>, ok: bool)
      requires Valid()
      modifies account, account.holdings.Values, tracked.Values
      ensures Valid()
      ensures account.positions == old(account.positions)
      ensures sold <= old(account.holdings.Keys)
      ensures account.holdings == if ok then old(account.holdings) - sold else old(account.holdings)
      ensures ok ==> forall k :: k in old(account.holdings) ==> old(account.holdings[k]).stock != null
      ensures ok ==> Outcomes(old(account.holdings), tracked, old(account.holdings.Keys), sold,
                              old(ViewsOf(account.holdings, tracked)), ViewsOf(old(account.holdings), tracked),
                              today, holidays)
    {
      var stages := account.holdings;
      ghost var views := ViewsOf(stages, tracked);
      ghost var quotes := map k | k in tracked :: Unwalleted(tracked[k].Snapshot());
      sold, ok := Review(stages, tracked, views, quotes, today, holidays);
      if ok {
        account.DropHoldings(sold, tracked);
      }
    }

    /** The start of a tick: take in the newly chosen symbols, then refresh every
        price. The account is not touched. */
    method Prepare(chosen: seq<string>, disk: string -> seq<real>, feeds: string -> nat -> Ltp, smooth: Smoother)
      returns (ok: bool)
      requires Valid()
      modifies this, tracked.Values, process
      ensures Valid()
      ensures tracked.Keys == old(tracked.Keys) + Chosen(chosen)
      ensures forall k :: k in old(tracked) ==> tracked[k] == old(tracked[k])
      ensures forall k :: k in tracked && k !in old(tracked) ==> fresh(tracked[k])
      ensures unchanged(account)
    {
      AddChosen(chosen, disk);
      ok := UpdateAll(feeds, smooth);
    }

    /** The trading part of a tick: buy inside the buying window, then the positions
        pass, then the holdings pass, stopping at the first step that raises. Holdings
        are only ever closed; positions are closed, or opened on tracked symbols inside
        the buying window. */
    method Trade(now: int, smooth: Smoother, broker: Broker, today: int, holidays: seq<int>) returns (ok: bool)
      requires Valid()
      modifies account, tracked.Values, account.positions.Values, account.holdings.Values
      ensures Valid() && tracked == old(tracked)
      ensures account.holdings.Keys <= old(account.holdings.Keys)
      ensures forall k :: k in account.holdings ==> account.holdings[k] == old(account.holdings[k])
      ensures forall k :: k in account.positions ==>
        || (k in old(account.positions) && account.positions[k] == old(account.positions[k]))
        || (InBuyingWindow(now) && k in tracked && fresh(account.positions[k]))
      ensures !ok ==> account.holdings == old(account.holdings)
      ensures ok ==> forall k :: k in account.holdings ==> account.holdings[k].stock != null
    {
      ok := BuyPhase(now, smooth, broker);
      if !ok {
        return;
      }
      var sold;
      sold, ok := ReviewPositions(today, holidays);
      if !ok {
        return;
      }
      sold, ok := ReviewHoldings(today, holidays);
    }

    /** One pass of the `while` loop of `background_task`, inside its `try`. `ok` is
        false when a step raised, which ends the pass there (the `except` swallows it);
        `stop` is the `break` taken when the termination flag is set after the prices
        were refreshed. */
    method Tick(now: int, chosen: seq<string>, disk: string -> seq<real>, feeds: string -> nat -> Ltp,
                smooth: Smoother, broker: Broker, today: int, holidays: seq<int>) returns (ok: bool, stop: bool)
      requires Valid()
      modifies this, account, process, tracked.Values, account.positions.Values, account.holdings.Values
      ensures Valid()
      ensures tracked.Keys == old(tracked.Keys) + Chosen(chosen)
      ensures forall k :: k in old(tracked) ==> tracked[k] == old(tracked[k])
      ensures forall k :: k in tracked && k !in old(tracked) ==> fresh(tracked[k])
      ensures account.holdings.Keys <= old(account.holdings.Keys)
      ensures forall k :: k in account.holdings ==> account.holdings[k] == old(account.holdings[k])
      ensures forall k :: k in account.positions ==>
        || (k in old(account.positions) && account.positions[k] == old(account.positions[k]))
        || (InBuyingWindow(now) && k in tracked && fresh(account.positions[k]))
      ensures stop ==> ok && process.EndProcess() && account.positions == old(account.positions)
      ensures stop || !ok ==> account.holdings == old(account.holdings)
      ensures ok && !stop ==> !process.EndProcess() && forall k :: k in account.holdings ==> account.holdings[k].stock != null
    {
      stop := false;
      ok := Prepare(chosen, disk, feeds, smooth);
      if !ok {
        return;
      }
      if process.EndProcess() {
        return true, true;
      }
      ok := Trade(now, smooth, broker, today, holidays);
    }

    /** One wake-up of the main loop (`Tick` on what it sees), with what it does to the
        session's collections stated on their sets of objects: instruments and
        positions not there before are new, holdings are among the old ones. */
    method Awake(w: Wake, disk: string -> seq<real>, smooth: Smoother, broker: Broker, holidays: seq<int>)
      returns (stop: bool)
      requires Valid()
      modifies this, account, process, tracked.Values, account.positions.Values, account.holdings.Values
      ensures Valid()
      ensures tracked.Keys == old(tracked.Keys) + Chosen(w.chosen)
      ensures fresh(tracked.Values - old(tracked.Values))
      ensures fresh(account.positions.Values - old(account.positions.Values))
      ensures account.holdings.Keys <= old(account.holdings.Keys) && account.holdings.Values <= old(account.holdings.Values)
      ensures stop ==> process.EndProcess()
    {
      var ok;
      ok, stop := Tick(w.now, w.chosen, disk, w.feeds, smooth, broker, w.today, holidays);
      forall s | s in tracked.Values - old(tracked.Values)
        ensures fresh(s)
      {
        var k :| k in tracked && tracked[k] == s;
      }
      forall p | p in account.positions.Values - old(account.positions.Values)
        ensures fresh(p)
      {
        var k :| k in account.positions && account.positions[k] == p;
      }
      forall h | h in account.holdings.Values
        ensures h in old(account.holdings.Values)
      {
        var k :| k in account.holdings && account.holdings[k] == h;
      }
    }

    /** The main loop of `background_task` over the wake-ups `wakes`: the session ticks
        on each wake-up the clock condition lets through (`WakeCount`; a tick that
        raised is logged and the loop goes on), and the loop breaks when the
        termination flag is found set. `ticks` wake-ups were used; tracked instruments
        only accumulate, positions not there before are new, and holdings only get
        sold. */
    method Run(start: int, wakes: seq<Wake>, disk: string -> seq<real>, smooth: Smoother, broker: Broker,
               holidays: seq<int>) returns (ticks: nat)
      requires Valid()
      modifies this, account, process, tracked.Values, account.positions.Values, account.holdings.Values
      ensures Valid()
      ensures ticks <= WakeCount(start, wakes)
      ensures ticks < WakeCount(start, wakes) ==> process.EndProcess()
      ensures old(tracked.Keys) <= tracked.Keys
      ensures fresh(tracked.Values - old(tracked.Values))
      ensures fresh(account.positions.Values - old(account.positions.Values))
      ensures account.holdings.Keys <= old(account.holdings.Keys) && account.holdings.Values <= old(account.holdings.Values)
    {
      var count := WakeCount(start, wakes);
      ticks := 0;
      var stop := false;
      while ticks < count && !stop
        invariant Valid()
        invariant ticks <= count
        invariant stop ==> process.EndProcess()
        invariant old(tracked.Keys) <= tracked.Keys
        invariant fresh(tracked.Values - old(tracked.Values))
        invariant fresh(account.positions.Values - old(account.positions.Values))
        invariant account.holdings.Keys <= old(account.holdings.Keys) && account.holdings.Values <= old(account.holdings.Values)
        decreases count - ticks
      {
        var w := wakes[ticks];
        stop := Awake(w, disk, smooth, broker, holidays);
        ticks := ticks + 1;
      }
    }

    /** The buying half of the end-of-day loop over the tracked instruments (see
        `LateBuys`); the positions it opens join the account's. */
    method EndOfDayBuys(broker: Broker) returns (done: set<string>, crashed: bool)
      requires Valid()
      modifies account
      ensures Valid()
      ensures account.holdings == old(account.holdings)
      ensures forall k :: k in old(account.positions) ==> k in account.positions && account.positions[k] == old(account.positions[k])
      ensures forall k :: k in account.positions && k !in old(account.positions) ==>
        && k in done && fresh(account.positions[k])
        && LateDecision(k in account.holdings, tracked[k].Snapshot(), k, broker) == Open(account.positions[k].quantity)
        && LateOpened(k, tracked[k].Snapshot(), tracked[k], account.positions[k].quantity, account.positions[k])
      ensures done <= tracked.Keys && (!crashed ==> done == tracked.Keys)
      ensures forall k :: k in done && k !in old(account.positions) ==>
        (k in account.positions <==> LateDecision(k in account.holdings, tracked[k].Snapshot(), k, broker).Open?)
      ensures crashed ==> exists k :: (k in tracked && k !in account.positions && k !in done
        && LateDecision(k in account.holdings, tracked[k].Snapshot(), k, broker) == Crash)
    {
      var bought;
      bought, done, crashed := LateBuys(tracked, account.positions, account.holdings.Keys, broker);
      account.positions := account.positions + bought;
      forall k | k in bought
        ensures k !in account.holdings && account.positions[k].symbol == k && account.positions[k].stock == tracked[k]
      {
        assert bought[k].Fields().symbol == k;
      }
    }

    /** The end of `background_task`, once the main loop has ended: the end-of-day
        buying and persisting of the instruments (stored in `db.stocks`), the promotion of
        every position to a holding, the filing of every holding (in `db.holdings`) and
        the deletion of the documents of the symbols held at start-up and no longer held.
        When nothing raises, the instrument documents are persisted and the holding
        collection ends up holding exactly the current holdings' documents. */
    method EndOfSession(db: Db, broker: Broker) returns (after: Db, crashed: bool)
      requires Valid()
      modifies account
      ensures !crashed ==> Persisting(db.stocks, after.stocks, JsonsOf(tracked), tracked.Keys)
      ensures !crashed ==>
        && account.holdings.Keys == old(account.holdings.Keys) + account.positions.Keys
        && (forall k :: k in account.holdings ==> account.holdings[k].kind == HoldingKind)
        && (forall k :: k in account.positions ==> account.holdings[k].Fields() == account.positions[k].Fields())
        && (forall k :: k in account.holdings ==> Find(after.holdings, HoldingSymbol, k) == Some(account.holdings[k].Json()))
        && (Unique(db.holdings, HoldingSymbol) && Symbols(db.holdings, HoldingSymbol) <= initialHoldings ==>
              && Unique(after.holdings, HoldingSymbol)
              && Symbols(after.holdings, HoldingSymbol) == account.holdings.Keys)
    {
      var done;
      done, crashed := EndOfDayBuys(broker);
      var stocks := PersistStocks(JsonsOf(tracked), done, db.stocks);
      if crashed {
        return Db(stocks, db.holdings), true;
      }
      account.Promote(tracked);
      var holdings;
      holdings, crashed := FileHoldings(initialHoldings, HoldingJsons(account.holdings), db.holdings);
      after := Db(stocks, holdings);
    }
  }

  /** Start-up: load the tracked instruments, then the holdings; the session does not
      start (null) when a stored holding does not decode. */
  method Start(db: Db, disk: string -> seq<real>, importDay: int) returns (session: Session?)
    ensures session == null <==> DecodeAll(db.holdings).None?
    ensures session != null ==>
      && fresh(session) && fresh(session.account) && fresh(session.process)
      && fresh(session.tracked.Values) && fresh(session.account.holdings.Values)
      && session.Valid() && session.account.positions == map[] && !session.process.EndProcess()
      && session.importDay == importDay
      && session.tracked.Keys == Symbols(db.stocks, StockSymbol)
      && session.account.holdings.Keys == session.initialHoldings == Symbols(db.holdings, HoldingSymbol)
      && (forall k :: k in session.tracked ==> session.tracked[k].Json() == LastFiled(db.stocks, StockSymbol, k).value)
      && (forall k :: k in session.account.holdings ==>
            && session.account.holdings[k].Fields() == LastFiled(DecodeAll(db.holdings).value, FieldsSymbol, k).value
            && session.account.holdings[k].stock == (if k in session.tracked then session.tracked[k] else null))
  {
    var tracked := LoadStocks(db.stocks, disk);
    var fields := DecodeAll(db.holdings);
    if fields.None? {
      return null;
    }
    var holdings := LoadHoldings(fields.value, tracked);
    DecodeKeepsSymbols(db.holdings);
    forall s | s in tracked.Values
      ensures fresh(s)
    {
      var k :| k in tracked && tracked[k] == s;
    }
    forall h | h in holdings.Values
      ensures fresh(h)
    {
      var k :| k in holdings && holdings[k] == h;
    }
    session := new Session(tracked, holdings, importDay);
  }

  /** `background_task`: start-up from the stored collections `db`, the main loop over
      the wake-ups `wakes`, then the end of the session, which persists to the same
      collections. It crashes at start-up when a stored holding does not decode. When it
      does not crash, every instrument is persisted, every final holding finds its
      document, and a holding collection that had unique symbols ends up with exactly
      the final holdings. */
  method BackgroundTask(db: Db, disk: string -> seq<real>, importDay: int, start: int, wakes: seq<Wake>,
                        smooth: Smoother, broker: Broker, holidays: seq<int>)
    returns (session: Session?, after: Db, crashed: bool)
    ensures session == null <==> DecodeAll(db.holdings).None?
    ensures session == null ==> crashed && after == db
    ensures session != null && !crashed ==>
      && Persisting(db.stocks, after.stocks, JsonsOf(session.tracked), session.tracked.Keys)
      && (forall k :: k in session.account.holdings ==>
            && session.account.holdings[k].kind == HoldingKind
            && Find(after.holdings, HoldingSymbol, k) == Some(session.account.holdings[k].Json()))
      && (Unique(db.holdings, HoldingSymbol) ==>
            && Unique(after.holdings, HoldingSymbol)
            && Symbols(after.holdings, HoldingSymbol) == session.account.holdings.Keys)
  {
    session := Start(db, disk, importDay);
    if session == null {
      return null, db, true;
    }
    var ticks := session.Run(start, wakes, disk, smooth, broker, holidays);
    after, crashed := session.EndOfSession(db, broker);
  }
}

