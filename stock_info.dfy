/** One tracked instrument: its price feed with retries, the running extrema it keeps
    across ticks, the indicator it smooths into a signal, the "return trace" entry
    detector, and its database record. */
module Instruments {
  import opened PyNum
  import Kaufman
  import Settings

  /** The indicator parameters `kaufman_indicator` is always called with. */
  const KAMA_WINDOW: nat := 10
  const KAMA_FAST: nat := 2
  const KAMA_SLOW: nat := 30

  /** The return trace must exceed this before the detector fires. */
  const TRACE_THRESHOLD: real := 1.001

  /** Number of attempts `current_price` makes before giving up. */
  const PRICE_ATTEMPTS: nat := 4

  /** The sentinel the price loop is meant to recognise as the end of the session. */
  const ENDED: string := "ENDED"

  // ---------------------------------------------------------------------------
  // Price feed

  /** One answer of the broker's last-traded-price call: it raised, returned a null
      price, returned a number, or returned text that `float()` rejects. An answer whose
      text `float()` accepts is the number it converts to, so it is a `Number`. */
  datatype Ltp = Raises | Null | Number(v: real) | Text(s: string)

  /** The outcome of fetching a price: a price, nothing after all attempts, or the
      end-of-session sentinel. */
  datatype Quote = Price(v: real) | Unavailable | Ended

  /** `current_price` as written: attempts k, k+1, ... up to the fourth; the first
      numeric answer wins, and every other answer (an exception, a null, text whose
      conversion raises) is swallowed and retried. */
  function FirstPrice(attempt: nat -> Ltp, k: nat): (r: Option<real>)
    ensures r.Some? ==> exists j :: k <= j < PRICE_ATTEMPTS && attempt(j) == Number(r.value)
    ensures r.None? ==> forall j :: k <= j < PRICE_ATTEMPTS ==> !attempt(j).Number?
    decreases PRICE_ATTEMPTS - k
  {
    if k >= PRICE_ATTEMPTS then None
    else match attempt(k)
      case Number(v) => Some(v)
      case _ => FirstPrice(attempt, k + 1)
  }

  /** The price `FirstPrice` returns is the first numeric answer: every attempt before
      it failed to give a number. */
  lemma {:induction false} FirstPriceIsFirst(attempt: nat -> Ltp, k: nat)
    ensures var r := FirstPrice(attempt, k);
      r.Some? ==> exists j :: k <= j < PRICE_ATTEMPTS && attempt(j) == Number(r.value)
                           && forall i :: k <= i < j ==> !attempt(i).Number?
    decreases PRICE_ATTEMPTS - k
  {
    if k < PRICE_ATTEMPTS && !attempt(k).Number? && FirstPrice(attempt, k).Some? {
      var r := FirstPrice(attempt, k + 1);
      FirstPriceIsFirst(attempt, k + 1);
      var j :| k + 1 <= j < PRICE_ATTEMPTS && attempt(j) == Number(r.value)
               && forall i :: k + 1 <= i < j ==> !attempt(i).Number?;
      assert forall i :: k <= i < j ==> !attempt(i).Number?;
    }
  }

  /** The retry loop of `current_price`, as written. */
  method CurrentPrice(attempt: nat -> Ltp) returns (price: Option<real>)
    ensures price == FirstPrice(attempt, 0)
  {
    var retries := 0;
    while retries < PRICE_ATTEMPTS
      invariant 0 <= retries <= PRICE_ATTEMPTS
      invariant FirstPrice(attempt, retries) == FirstPrice(attempt, 0)
    {
      var answer := attempt(retries);
      if answer.Number? {
        return Some(answer.v);
      }
      retries := retries + 1;
    }
    return None;
  }

  /** What `update_price` sees of the as-written fetch: a float or None, never text. */
  function AsQuote(p: Option<real>): Quote {
    if p.Some? then Price(p.value) else Unavailable
  }

  /** The sentinel test in `update_price` compares the fetch with the text "ENDED"; the
      as-written fetch only yields a float or None, so the test is never true, even when
      the broker answers the sentinel on every attempt. */
  lemma {:induction false} SentinelUnreachable(attempt: nat -> Ltp)
    ensures AsQuote(FirstPrice(attempt, 0)) != Ended
    ensures (forall j :: attempt(j) == Text(ENDED)) ==> FirstPrice(attempt, 0) == None
  {
    if forall j :: attempt(j) == Text(ENDED) {
      assert !attempt(0).Number? && !attempt(1).Number? && !attempt(2).Number? && !attempt(3).Number?;
    }
  }

  /** The fetch with the sentinel recognised: a text answer "ENDED" ends the session
      instead of being retried. Other answers behave as in `FirstPrice`. */
  function FirstQuote(attempt: nat -> Ltp, k: nat): (q: Quote)
    ensures q.Price? ==> exists j :: k <= j < PRICE_ATTEMPTS && attempt(j) == Number(q.v)
    ensures q.Unavailable? ==> forall j :: k <= j < PRICE_ATTEMPTS ==> !attempt(j).Number? && attempt(j) != Text(ENDED)
    ensures q.Ended? <==> exists j :: k <= j < PRICE_ATTEMPTS && attempt(j) == Text(ENDED)
                                && forall i :: k <= i < j ==> !attempt(i).Number?
    decreases PRICE_ATTEMPTS - k
  {
    if k >= PRICE_ATTEMPTS then Unavailable
    else match attempt(k)
      case Number(v) => Price(v)
      case Text(s) => if s == ENDED then Ended else FirstQuote(attempt, k + 1)
      case _ => FirstQuote(attempt, k + 1)
  }

  /** The price `FirstQuote` returns is the first numeric answer, and no sentinel came
      before it. */
  lemma {:induction false} FirstQuoteIsFirst(attempt: nat -> Ltp, k: nat)
    ensures var q := FirstQuote(attempt, k);
      q.Price? ==> exists j :: k <= j < PRICE_ATTEMPTS && attempt(j) == Number(q.v)
                            && forall i :: k <= i < j ==> !attempt(i).Number? && attempt(i) != Text(ENDED)
    decreases PRICE_ATTEMPTS - k
  {
    if k < PRICE_ATTEMPTS && !attempt(k).Number? && attempt(k) != Text(ENDED) && FirstQuote(attempt, k).Price? {
      var q := FirstQuote(attempt, k + 1);
      FirstQuoteIsFirst(attempt, k + 1);
      var j :| k + 1 <= j < PRICE_ATTEMPTS && attempt(j) == Number(q.v)
               && forall i :: k + 1 <= i < j ==> !attempt(i).Number? && attempt(i) != Text(ENDED);
      assert forall i :: k <= i < j ==> !attempt(i).Number? && attempt(i) != Text(ENDED);
    }
  }

  /** The corrected fetch differs from the as-written one only where it reports the end. */
  lemma {:induction false} QuoteRefinesPrice(attempt: nat -> Ltp, k: nat)
    ensures FirstQuote(attempt, k) != Ended ==> FirstQuote(attempt, k) == AsQuote(FirstPrice(attempt, k))
    decreases PRICE_ATTEMPTS - k
  {
    if k < PRICE_ATTEMPTS && !attempt(k).Number? {
      QuoteRefinesPrice(attempt, k + 1);
    }
  }

  /** The retry loop with the sentinel recognised. */
  method CurrentQuote(attempt: nat -> Ltp) returns (q: Quote)
    ensures q == FirstQuote(attempt, 0)
  {
    var retries := 0;
    while retries < PRICE_ATTEMPTS
      invariant 0 <= retries <= PRICE_ATTEMPTS
      invariant FirstQuote(attempt, retries) == FirstQuote(attempt, 0)
    {
      var answer := attempt(retries);
      if answer.Number? {
        return Price(answer.v);
      }
      if answer == Text(ENDED) {
        return Ended;
      }
      retries := retries + 1;
    }
    return Unavailable;
  }

  // ---------------------------------------------------------------------------
  // Running extrema

  /** The running low after observing x: `if low is None or low > x: low = x`. */
  function Lower(low: Option<real>, x: real): (r: real)
    ensures r <= x && (low.Some? ==> r <= low.value)
    ensures r == x || low == Some(r)
  {
    if low.None? || low.value > x then x else low.value
  }

  /** The running high after observing x: `if high is None or high < x: high = x`. */
  function Higher(high: Option<real>, x: real): (r: real)
    ensures r >= x && (high.Some? ==> r >= high.value)
    ensures r == x || high == Some(r)
  {
    if high.None? || high.value < x then x else high.value
  }

  /** The running low over a whole series of observations, folded as the ticks do. */
  function RunningLow(xs: seq<real>): Option<real>
  {
    if |xs| == 0 then None else Some(Lower(RunningLow(xs[..|xs| - 1]), xs[|xs| - 1]))
  }

  /** Folding `Lower` tick by tick yields the minimum of every price observed. */
  lemma {:induction false} RunningLowIsMinimum(xs: seq<real>)
    ensures |xs| > 0 <==> RunningLow(xs).Some?
    ensures |xs| > 0 ==>
      && (forall i :: 0 <= i < |xs| ==> RunningLow(xs).value <= xs[i])
      && (exists i :: 0 <= i < |xs| && RunningLow(xs).value == xs[i])
  {
    if |xs| > 1 {
      var init := xs[..|xs| - 1];
      RunningLowIsMinimum(init);
      var m := RunningLow(init).value;
      var j :| 0 <= j < |init| && m == init[j];
      assert forall i :: 0 <= i < |init| ==> init[i] == xs[i];
      if RunningLow(xs).value == m {
        assert xs[j] == m;
      } else {
        assert RunningLow(xs).value == xs[|xs| - 1];
      }
    }
  }

  // ---------------------------------------------------------------------------
  // Signal and entry detection

  /** The pandas step after the indicator, left abstract: `line.ewm(span=10).mean()`
      followed by `dropna()`, giving the signal column of the surviving rows. */
  type Smoother = seq<Option<real>> -> seq<real>

  /** The latest signal value, or None when no row survives. */
  function LastSignal(sig: seq<real>): (r: Option<real>)
    ensures r.Some? <==> |sig| > 0
    ensures r.Some? ==> r.value == sig[|sig| - 1]
  {
    if |sig| == 0 then None else Some(sig[|sig| - 1])
  }

  /** `signal.min()` over a non-empty signal column. */
  function MinOf(sig: seq<real>): (m: real)
    requires |sig| > 0
    ensures forall i :: 0 <= i < |sig| ==> m <= sig[i]
    ensures exists i :: 0 <= i < |sig| && m == sig[i]
  {
    if |sig| == 1 then sig[0]
    else
      var rest := MinOf(sig[1..]);
      assert forall i :: 1 <= i < |sig| ==> sig[i] == sig[1..][i - 1];
      if sig[0] <= rest then sig[0] else rest
  }

  /** Row k of `pct_change() + 1` on the signal column: the ratio to the previous row.
      The first row has no predecessor (NaN); a zero predecessor is also undefined here. */
  function Ratio(sig: seq<real>, k: nat): (r: Option<real>)
    requires k < |sig|
    ensures r.Some? ==> k >= 1 && sig[k - 1] != 0.0 && r.value * sig[k - 1] == sig[k]
  {
    if k == 0 || sig[k - 1] == 0.0 then None else Some(sig[k] / sig[k - 1])
  }

  /** Python's `a < b` with a NaN operand is false. */
  predicate Below(a: Option<real>, b: real) {
    a.Some? && a.value < b
  }

  predicate AtLeast(a: Option<real>, b: real) {
    a.Some? && a.value >= b
  }

  /** The trough test: the previous ratio fell, the latest ratio does not, and the
      previous signal rounds to the same cents as the lowest signal. */
  predicate Opens(sig: seq<real>)
    requires |sig| > 1
  {
    var last := |sig| - 1;
    && Below(Ratio(sig, last - 1), 1.0)
    && AtLeast(Ratio(sig, last), 1.0)
    && Round2(sig[last - 1]) == Round2(MinOf(sig))
  }

  /** The detector's answer and the return trace it leaves behind. */
  datatype Detection = Detection(buy: bool, trace: Option<real>)

  /** The second half of the detector: a truthy trace is multiplied by the latest
      ratio and fires, clearing itself, once it exceeds the threshold. An undefined
      ratio leaves no trace. */
  function Advance(current: Option<real>, r: Option<real>): (d: Detection)
    ensures d.buy ==> d.trace.None?
    ensures !Truthy(current) ==> d == Detection(false, current)
    ensures Truthy(current) && r.None? ==> d == Detection(false, None)
    ensures Truthy(current) && r.Some? ==>
      && d.buy == (current.value * r.value > TRACE_THRESHOLD)
      && (!d.buy ==> d.trace == Some(current.value * r.value))
  {
    if !Truthy(current) then Detection(false, current)
    else
      var t := if r.Some? then Some(current.value * r.value) else None;
      if t.Some? && t.value > TRACE_THRESHOLD then Detection(true, None) else Detection(false, t)
  }

  /** The live branch of `whether_buy` over the signal column: with at least two rows,
      a trough opens the trace at the latest ratio, and the trace then advances. */
  function Detect(trace: Option<real>, sig: seq<real>): (d: Detection)
    ensures |sig| <= 1 ==> d == Detection(false, trace)
    ensures d.buy ==> d.trace.None?
  {
    if |sig| <= 1 then Detection(false, trace)
    else
      var last := |sig| - 1;
      Advance(if Opens(sig) then Ratio(sig, last) else trace, Ratio(sig, last))
  }

  /** A trough opens the trace at the latest ratio r (a truthy value of at least one)
      and advances it by r again in the same call, so the trace becomes r * r, or the
      detector fires at once when r * r exceeds the threshold. */
  lemma OpeningSquaresRatio(trace: Option<real>, sig: seq<real>)
    requires |sig| > 1 && Opens(sig)
    ensures var r := Ratio(sig, |sig| - 1);
      && r.Some? && r.value >= 1.0 && Truthy(r)
      && Detect(trace, sig) == Advance(r, r)
  {
  }

  /** Without a trough and without a live trace nothing happens. */
  lemma QuietWithoutTrace(trace: Option<real>, sig: seq<real>)
    requires !Truthy(trace) && (|sig| <= 1 || !Opens(sig))
    ensures Detect(trace, sig) == Detection(false, trace)
  {
  }

  /** A stored trace never exceeds the threshold: the detector fires (and clears the
      trace) the moment it would. */
  lemma TraceBelowThreshold(trace: Option<real>, sig: seq<real>)
    requires trace.None? || trace.value <= TRACE_THRESHOLD
    ensures Detect(trace, sig).trace.None? || Detect(trace, sig).trace.value <= TRACE_THRESHOLD
  {
  }

  // ---------------------------------------------------------------------------
  // The instrument

  /** The stock collection's document. */
  datatype StockDoc = StockDoc(symbol: string, exchange: string, wallet: real, createdAt: int)

  /** The mutable fields of an instrument, as a value. */
  datatype Snap = Snap(wallet: real, latestPrice: Option<real>, latestIndicatorPrice: Option<real>,
                       returnTrace: Option<real>, high: Option<real>, low: Option<real>,
                       lowestIndicator: Option<real>, history: seq<real>, frame: Option<seq<real>>)

  /** A freshly built instrument's state: nothing observed yet, and the price file as it
      is on disk. */
  function Unobserved(wallet: real, onDisk: seq<real>): Snap {
    Snap(wallet, None, None, None, None, None, None, onDisk, None)
  }

  /** The instrument's invariant: a frame is only ever read after a price was
      recorded, and the extrema bracket the latest price once there is one. */
  predicate Consistent(s: Snap) {
    && (s.frame.Some? ==> s.latestPrice.Some?)
    && (s.latestPrice.Some? ==> s.low.Some? && s.high.Some? && s.low.value <= s.latestPrice.value <= s.high.value)
  }

  /** What `update_price` does once there is a latest price p: p is appended to the CSV
      history, which is read back as the frame; the signal's last value becomes the
      indicator price; the running low and high move to include p; and the lowest
      indicator moves to include the new indicator price, except that comparing it
      with a missing one raises (`false`) and leaves it alone. */
  function AfterRecord(before: Snap, smooth: Smoother): (Snap, bool)
    requires before.latestPrice.Some?
  {
    var p := before.latestPrice.value;
    var history := before.history + [p];
    var indicator := LastSignal(smooth(Kaufman.Kama(history, KAMA_WINDOW, KAMA_FAST, KAMA_SLOW)));
    var raises := before.lowestIndicator.Some? && indicator.None?;
    var lowest :=
      if before.lowestIndicator.None? then indicator
      else if raises then before.lowestIndicator
      else Some(Lower(before.lowestIndicator, indicator.value));
    (before.(history := history, frame := Some(history), latestIndicatorPrice := indicator,
             low := Some(Lower(before.low, p)), high := Some(Higher(before.high, p)),
             lowestIndicator := lowest),
     !raises)
  }

  /** `update_price` on the instrument's state, given what the fetch returned: the new
      state and whether it returned normally. The sentinel leaves the state alone (it
      sets the session's flag instead); a fetched price replaces the latest price; with
      no latest price at all nothing happens. */
  function AfterUpdate(before: Snap, q: Quote, smooth: Smoother): (Snap, bool) {
    if q.Ended? then (before, true)
    else
      var b := if q.Price? then before.(latestPrice := Some(q.v)) else before;
      if b.latestPrice.None? then (b, true) else AfterRecord(b, smooth)
  }

  /** `update_price` keeps the invariant, never touches the wallet or the return trace,
      never raises the lowest indicator once there is one, and on every call with a latest price appends exactly that price to the history,
      including when the fetch failed and the previous price is recorded again. It
      raises only when a lowest indicator exists and the new indicator is missing. */
  lemma UpdateMeaning(before: Snap, q: Quote, smooth: Smoother)
    ensures var (after, ok) := AfterUpdate(before, q, smooth);
      && (Consistent(before) ==> Consistent(after))
      && after.wallet == before.wallet && after.returnTrace == before.returnTrace
      && (q.Ended? ==> after == before && ok)
      && (!q.Ended? ==> after.latestPrice == (if q.Price? then Some(q.v) else before.latestPrice))
      && (after.latestPrice.None? ==> after == before && ok)
      && (!q.Ended? && after.latestPrice.Some? ==>
            && after.history == before.history + [after.latestPrice.value]
            && after.frame == Some(after.history)
            && after.low.value <= after.latestPrice.value <= after.high.value
            && (before.low.Some? ==> after.low.value <= before.low.value)
            && (before.high.Some? ==> after.high.value >= before.high.value))
      && (before.lowestIndicator.Some? ==>
            after.lowestIndicator.Some? && after.lowestIndicator.value <= before.lowestIndicator.value)
      && (q.Unavailable? && before.latestPrice.Some? ==> after.history == before.history + [before.latestPrice.value])
      && (!ok <==> !q.Ended? && after.latestPrice.Some? && before.lowestIndicator.Some? && after.latestIndicatorPrice.None?)
  {
  }

  /** The signal `whether_buy` computes from an instrument's return trace and frame. */
  function Signal(trace: Option<real>, frame: seq<real>, smooth: Smoother): Detection {
    Detect(trace, smooth(Kaufman.Kama(frame, KAMA_WINDOW, KAMA_FAST, KAMA_SLOW)))
  }

  /** The state `whether_buy` leaves an instrument in, from the state `before`: the
      return trace advanced by the detector over the frame, all else as it was. */
  function AfterEvaluation(before: Snap, smooth: Smoother): Snap
    requires before.frame.Some?
  {
    before.(returnTrace := Signal(before.returnTrace, before.frame.value, smooth).trace)
  }

  /** `StockInfo`: the identity fields, the wallet of realised profit, and the state
      the price loop updates. `history` is the price column of the instrument's CSV
      file; `frame` is the copy of it the object last read (None before any read).
      `createdAt` is a day number. */
  class StockInfo {
    const symbol: string
    const exchange: string
    const createdAt: int
    var wallet: real
    var latestPrice: Option<real>
    var latestIndicatorPrice: Option<real>
    var returnTrace: Option<real>
    var high: Option<real>
    var low: Option<real>
    var lowestIndicator: Option<real>
    var history: seq<real>
    var frame: Option<seq<real>>

    /** The invariant on the current state. */
    predicate Valid()
      reads this
    {
      Consistent(Snapshot())
    }

    /** `StockInfo(symbol, exchange, wallet, created_at)`; `onDisk` is whatever the
        instrument's CSV file already holds. */
    constructor (symbol: string, exchange: string, wallet: real, createdAt: int, onDisk: seq<real>)
      ensures this.symbol == symbol && this.exchange == exchange
      ensures this.wallet == wallet && this.createdAt == createdAt
      ensures latestPrice.None? && latestIndicatorPrice.None? && returnTrace.None?
      ensures high.None? && low.None? && lowestIndicator.None?
      ensures history == onDisk && frame.None?
      ensures Valid()
    {
      this.symbol := symbol;
      this.exchange := exchange;
      this.wallet := wallet;
      this.createdAt := createdAt;
      latestPrice := None;
      latestIndicatorPrice := None;
      returnTrace := None;
      high := None;
      low := None;
      lowestIndicator := None;
      history := onDisk;
      frame := None;
    }

    /** `to_object(json_data)`: a fresh instrument from its document. */
    constructor FromDoc(doc: StockDoc, onDisk: seq<real>)
      ensures Json() == doc
      ensures latestPrice.None? && latestIndicatorPrice.None? && returnTrace.None?
      ensures high.None? && low.None? && lowestIndicator.None?
      ensures history == onDisk && frame.None?
      ensures Valid()
    {
      symbol := doc.symbol;
      exchange := doc.exchange;
      wallet := doc.wallet;
      createdAt := doc.createdAt;
      latestPrice := None;
      latestIndicatorPrice := None;
      returnTrace := None;
      high := None;
      low := None;
      lowestIndicator := None;
      history := onDisk;
      frame := None;
    }

    /** `json()`: the persisted fields. */
    function Json(): (d: StockDoc)
      reads this
      ensures d.symbol == symbol && d.exchange == exchange && d.wallet == wallet && d.createdAt == createdAt
    {
      StockDoc(symbol, exchange, wallet, createdAt)
    }

    /** The instrument's mutable state as a value. */
    function Snapshot(): Snap
      reads this
    {
      Snap(wallet, latestPrice, latestIndicatorPrice, returnTrace, high, low, lowestIndicator, history, frame)
    }

    /** Between the two states only the wallet may have moved. */
    twostate predicate WalletOnly()
      reads this
    {
      && latestPrice == old(latestPrice) && latestIndicatorPrice == old(latestIndicatorPrice)
      && returnTrace == old(returnTrace) && high == old(high) && low == old(low)
      && lowestIndicator == old(lowestIndicator) && history == old(history) && frame == old(frame)
    }

    /** `update_price`. Fetches a quote; the sentinel sets the termination flag and
        returns. Otherwise a fetched price replaces the latest price, and, once there
        is a latest price, it is appended to the CSV history, the indicator and its
        signal are recomputed, and the extrema are updated. `ok` is false when the
        lowest-indicator comparison meets a missing indicator (a TypeError), which
        leaves every earlier update in place. */
    method UpdatePrice(attempt: nat -> Ltp, smooth: Smoother, process: Settings.Process) returns (ok: bool)
      requires Valid()
      modifies this, process
      ensures Valid()
      ensures (Snapshot(), ok) == AfterUpdate(old(Snapshot()), FirstQuote(attempt, 0), smooth)
      ensures process.endProcess == (old(process.endProcess) || FirstQuote(attempt, 0).Ended?)
    {
      var q := CurrentQuote(attempt);
      if q.Ended? {
        process.SetEndProcess(true);
        return true;
      }
      if q.Price? {
        latestPrice := Some(q.v);
      }
      ok := true;
      if latestPrice.Some? {
        ok := Record(smooth);
      }
    }

    /** The part of `update_price` after a latest price exists (`update_stock_df`, the
        indicator, the signal and the extrema). */
    method Record(smooth: Smoother) returns (ok: bool)
      requires latestPrice.Some?
      modifies this
      ensures (Snapshot(), ok) == AfterRecord(old(Snapshot()), smooth)
    {
      var p := latestPrice.value;
      history := history + [p];
      frame := Some(history);
      var line := Kaufman.KaufmanIndicator(history, KAMA_WINDOW, KAMA_FAST, KAMA_SLOW);
      latestIndicatorPrice := LastSignal(smooth(line));
      if low.None? || low.value > p {
        low := Some(p);
      }
      if high.None? || high.value < p {
        high := Some(p);
      }
      ok := true;
      if lowestIndicator.None? {
        lowestIndicator := latestIndicatorPrice;
      } else if latestIndicatorPrice.None? {
        ok := false;
      } else if lowestIndicator.value > latestIndicatorPrice.value {
        lowestIndicator := latestIndicatorPrice;
      }
    }

    /** `whether_buy`: recompute the indicator and its signal over the frame last read
        and run the detector, which updates the return trace. `ok` is false when no
        frame was ever read (the `copy()` of None raises). */
    method WhetherBuy(smooth: Smoother) returns (buy: bool, ok: bool)
      requires Valid()
      modifies this
      ensures Valid()
      ensures ok <==> old(frame).Some?
      ensures !ok ==> !buy && unchanged(this)
      ensures ok ==> buy ==> latestPrice.Some?
      ensures ok ==> buy == Signal(old(returnTrace), old(frame).value, smooth).buy
      ensures ok ==> Snapshot() == AfterEvaluation(old(Snapshot()), smooth)
    {
      if frame.None? {
        return false, false;
      }
      ok := true;
      var line := Kaufman.KaufmanIndicator(frame.value, KAMA_WINDOW, KAMA_FAST, KAMA_SLOW);
      var d := Detect(returnTrace, smooth(line));
      returnTrace := d.trace;
      buy := d.buy;
    }
  }
}
