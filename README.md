# wealth_management: the trading-session decision layer, in Dafny

This project models the core of `wealth_management`, an automated equities assistant.
During a trading session it tracks a set of instruments and polls their prices. It
keeps an adaptive (Kaufman) indicator and a smoothed signal for each one. A
"return trace" detector decides when to buy. Open positions and carried-over holdings
each climb a cost-aware ladder of profit triggers and are sold when the price falls
through a hysteresis band below the trigger. At the end of the session one more
buying pass runs on late falls. Every open position is then promoted to a holding,
and the instrument wallets and holdings are written back to the document store.

The modules follow the repository's files:

- `Settings` (`settings.dfy`): session times, return constants and the process-wide
  termination flag (`constants/settings.py`).
- `IntradayCost`, `DeliveryCost`: the two transaction-cost calculators
  (`models/costs/`).
- Ladder: the holding-period and trigger arithmetic of `Stage`. It covers business
  days held, the expected return, the cost calculator chosen, and the rung search and
  ratchet of `set_trigger` (`models/stock_stage.py`).
- Kaufman: `StockInfo.kaufman_indicator` as a function and as the loop that
  computes it (`models/stock_info.py`).
- Instruments: the `StockInfo` class, with its price feed with retries, its price
  history, its running extremes, its entry detector and its document.
- Stages: the `Stage` class. It has two named constructors, one per subclass
  (`Position` in `models/stock_stages/positions.py`, `Holding` in
  `models/stock_stages/holdings.py`). It also covers `breached`, `sell` and
  `set_trigger`, and the holding document codec.
- `Buying`, `Accounts`: the `Account` class and `buy_stocks` (`models/account.py`).
- Store: the document collections, as sequences of documents with find-by-symbol,
  insert, update and delete.
- Background: `background_task` (`services/background_process.py`). The start-up
  load, each tick of the loop, the loop itself, and the end-of-session reconciliation
  are separate methods of a `Session` class.

Python exceptions are modelled as an `ok` (or `crashed`) result. These are a
`TypeError` from comparing with `None`, a `ZeroDivisionError`, an `AttributeError` on
a stage without an instrument, and a `ValueError` from an unknown enum code. A tick
that raises keeps whatever it changed before the exception, as the source's
`try`/`except` does.

The model follows the code, including where it departs from what the code's own
names suggest:

- For a constant price series the code leaves the indicator undefined at every
  index. Its zero-volatility branch adds to a NaN, so nothing is ever seeded
  (`Kaufman.ConstantSeriesUndefined`), although a smoothed series of a constant
  would be expected to equal the constant once the window is filled.
- Although intraday settings exist (constants/settings.py:15-16), every position is
  opened as a DELIVERY product (models/account.py:32,42,
  services/background_process.py:130,139).
- The end-of-day buy does not refuse a symbol that is already held, the
  end-of-session pass does not delete the documents of holdings sold during the day,
  and the price feed never recognises its end-of-session sentinel, although the code
  tests for each; see Findings.
- `whether_buy` multiplies a newly opened trace by the same ratio a second time, so
  the trace becomes r * r (`Instruments.OpeningSquaresRatio`). The model keeps this.

## Model

| member | source | states |
|---|---|---|
| `PyNum.Round2` | models/costs/intraday_trading_cost.py:49-52 | `round(x, 2)` lies within half a cent of x, is a whole number of cents, and keeps the sign of non-negative amounts |
| `PyNum.Trunc` | models/account.py:30 | `int(x)` truncates toward zero: for x >= 0 the largest integer not above x, for x < 0 the smallest integer not below x |
| `Settings.SessionTimesOrdered` | constants/settings.py:4-8 | the session opens before the buying cutoff, which comes three minutes before the end; a tick inside the buying window is inside the session, and the last minutes only evaluate exits |
| `Settings.ReturnConstants` | constants/settings.py:11-16 | the initial and incremental returns have the configured values |
| `Settings.Process.constructor` | constants/settings.py:18 | the termination flag starts cleared |
| `Settings.Process.SetEndProcess` | constants/settings.py:21-32 | after `set_end_process(v)`, `end_process()` answers v |
| `IntradayCost.Compute` | models/costs/intraday_trading_cost.py:27-41 | the calculator records the buying price, selling price and quantity it was given |
| `IntradayCost.GrossAndTurnover` | models/costs/intraday_trading_cost.py:38-39 | gross P&L is (sell - buy) * quantity and turnover is (buy + sell) * quantity |
| `IntradayCost.BrokerageCapped` | models/costs/intraday_trading_cost.py:47 | brokerage is 0.03% of turnover capped at 40, and equals one of the two |
| `IntradayCost.SttIgnoresQuantity` | models/costs/intraday_trading_cost.py:48-50 | intraday STT is 0.025% of the selling price whatever the quantity, and clearing charges are zero |
| `IntradayCost.Levies` | models/costs/intraday_trading_cost.py:49-53 | exchange charges, stamp duty and SEBI fees are the rounded rates of turnover or buy value; GST is 18% of brokerage, exchange charges and SEBI fees before their 1.18 uplift |
| `IntradayCost.TotalIsSumOfComponents` | models/costs/intraday_trading_cost.py:54-55 | the total is the sum of the seven charges and net P&L is gross P&L less that total |
| `IntradayCost.ChargesNonNegative` | models/costs/intraday_trading_cost.py:43-55 | for non-negative prices and quantity every charge is non-negative, so net P&L never exceeds gross P&L |
| `DeliveryCost.Compute` | models/costs/delivery_trading_cost.py:26-40 | the calculator records the buying price, selling price and quantity it was given |
| `DeliveryCost.BrokerageSttAndDp` | models/costs/delivery_trading_cost.py:46-50 | delivery has no brokerage; STT is 0.1% of turnover; the DP charge applies exactly when there is a sale; stamp duty is 0.015% of buy value, rounded |
| `DeliveryCost.SharedLeviesMatchIntraday` | models/costs/delivery_trading_cost.py:37-52 | gross P&L, turnover, exchange charges and SEBI fees are the intraday ones; GST follows the same rule |
| `DeliveryCost.TotalIsSumOfComponents` | models/costs/delivery_trading_cost.py:53-54 | the total is the sum of its charges including the DP charge, and net P&L is gross P&L less it |
| `DeliveryCost.SaleCostsAtLeastDp` | models/costs/delivery_trading_cost.py:42-54 | for non-negative inputs the total is non-negative, and any sale costs at least the DP charge |
| `DeliveryCost.HundredByTenExample` | models/costs/delivery_trading_cost.py:42-54 | a worked example: ten shares bought and sold at 100 cost 18.1626 in delivery and 0.8456 intraday |
| `Ladder.WeekdaysBetween` | models/stock_stage.py:53 | the weekly Monday-to-Friday rule counts at most the number of days in the range |
| `Ladder.WeekdaysBetweenIsCardinality` | models/stock_stage.py:53 | the count is the number of weekdays between the creation date and today inclusive |
| `Ladder.HolidaysIn` | models/stock_stage.py:54-56 | the holiday loop subtracts at most one per calendar entry |
| `Ladder.NumberOfDays` | models/stock_stage.py:50-57 | `number_of_days` is the weekday count less at most the number of holidays |
| `Ladder.HolidaysInIsCardinality` | models/stock_stage.py:54-56 | for a calendar without repeats the loop subtracts exactly the holidays inside the range |
| `Ladder.BusinessDays` | models/stock_stage.py:50-57 | for a calendar of distinct weekday holidays, `number_of_days` is the number of business days from creation to today |
| `Ladder.WeekendHolidayCounted` | models/stock_stage.py:54-56 | a holiday that falls on a weekend is still subtracted: one Monday-to-Sunday week with a Saturday holiday counts 4 days |
| `Ladder.ExpectedReturnMonotone` | models/stock_stage.py:74-79 | the current expected return is at least the intraday 0.8% and never decreases as the days held grow |
| `Ladder.TransactionCostMeaning` | models/stock_stage.py:59-72 | `transaction_cost` uses the delivery calculator for more than one day held and the intraday one otherwise; it is non-negative and is exactly what separates gross from net P&L |
| `Ladder.AmortisedCharges` | models/stock_stage.py:149-153 | the per-share value `sell - (buy + cost / q)` times q is the chosen calculator's net P&L |
| `Ladder.SaleCredit` | models/stock_stage.py:149-153 | what `sell` adds to the wallet is the net P&L of the trade |
| `Ladder.RungAffine` | models/stock_stage.py:126-132 | the candidate triggers are evenly spaced, cost * increment apart |
| `Ladder.RungsIncrease` | models/stock_stage.py:126-132 | when cost * increment is positive, higher rungs give strictly higher triggers |
| `Ladder.FirstRungReached` | models/stock_stage.py:126-133 | on a rising ladder, the loop stops at the first rung at or above the selling price, and every rung below it was under that price |
| `Ladder.LongTrigger` | models/stock_stage.py:126-133 | for a LONG stage the search yields the highest rung still under the selling price, or leaves the trigger alone when even the first rung is not under it |
| `Ladder.LongSearchFindsLargestRung` | models/stock_stage.py:126-133 | the search from any rung ends with the rung just below the first one reached |
| `Ladder.Ratchet` | models/stock_stage.py:135-137 | the trigger never falls: it is the larger of the earlier and the new one, or the new one when there was none |
| `Ladder.SetTriggerOutcome` | models/stock_stage.py:113-140 | a ladder that does not rise while its first rung is under the price is refused with the trigger unchanged; a first rung at or above the price leaves the trigger as it was |
| `Ladder.Climb` | models/stock_stage.py:119-140 | the rung loop, the ratchet and the final division check give exactly the outcome `SetTriggerOutcome` describes |
| `Ladder.LongTriggerOutcome` | models/stock_stage.py:119-140 | for LONG, `set_trigger` ratchets the earlier trigger against the highest rung under the price, so an existing trigger never decreases |
| `Ladder.LadderNeverEnds` | models/stock_stage.py:126-133 | as written, when the rungs do not rise and the first is under the price, every rung is under the price, so the loop never ends |
| `Ladder.NegativeCostNeverEnds` | models/stock_stage.py:117-133 | a concrete ladder (cost basis -1, price 100) on which the loop as written never ends |
| `Kaufman.PathLength` | models/stock_info.py:178-180 | the rolling sum of absolute one-step moves is non-negative |
| `Kaufman.TriangleInequality` | models/stock_info.py:178-181 | the net change over the window never exceeds the path length, so the efficiency ratio is at most one |
| `Kaufman.EfficiencyRatioInUnitInterval` | models/stock_info.py:181 | a defined efficiency ratio lies in [0, 1] |
| `Kaufman.ConstantsOrdered` | models/stock_info.py:182 | the slowest smoothing constant is positive and at most the fastest, which is at most one |
| `Kaufman.SmoothingConstantBounds` | models/stock_info.py:184 | a defined smoothing constant lies between the squares of the slowest and fastest constants |
| `Kaufman.SmoothingConstantInUnitInterval` | models/stock_info.py:184 | a defined smoothing constant lies in (0, 1] |
| `Kaufman.FillUpTo` | models/stock_info.py:186-200 | after k iterations the loop has filled exactly k slots |
| `Kaufman.FillStable` | models/stock_info.py:189-200 | a slot, once filled, is never rewritten by later iterations |
| `Kaufman.Kama` | models/stock_info.py:167-201 | the indicator has one value, defined or missing, per price |
| `Kaufman.KaufmanIndicator` | models/stock_info.py:167-201 | the loop over the prices, with its `first_value` flag, returns the indicator series |
| `Kaufman.SeedInvariant` | models/stock_info.py:188-198 | while `first_value` is set every slot so far is missing; once cleared, the window has passed and the latest slot is defined |
| `Kaufman.UndefinedBeforeWindow` | models/stock_info.py:179-181 | the indicator is missing at every index before the window is full |
| `Kaufman.SeedIsPrice` | models/stock_info.py:196-198 | the first defined value of the indicator is the price at that index |
| `Kaufman.ZeroVolatilityStep` | models/stock_info.py:191-192 | with zero volatility the indicator jumps to the price when the previous value is defined and stays missing otherwise, and `first_value` does not change |
| `Kaufman.StepLands` | models/stock_info.py:199-200 | one recurrence step lands between the previous value and the current price |
| `Kaufman.StepBetween` | models/stock_info.py:189-200 | between two defined indices, each indicator value lies between the previous value and the current price |
| `Kaufman.FlatPathLength` | models/stock_info.py:178-180 | a constant series has zero path length |
| `Kaufman.ConstantSeriesUndefined` | models/stock_info.py:189-194 | on a constant series the indicator is never seeded and stays missing at every index |
| `Kaufman.RisingSeriesLags` | models/stock_info.py:189-200 | on a non-decreasing series the indicator never exceeds the price and never decreases |
| `Instruments.FirstPrice` | models/stock_info.py:77-95 | `current_price` returns a numeric answer of one of the four attempts, and None exactly when no attempt gave a number |
| `Instruments.FirstPriceIsFirst` | models/stock_info.py:84-95 | the price returned is the first numeric answer: every earlier attempt failed to give a number |
| `Instruments.CurrentPrice` | models/stock_info.py:84-95 | the retry loop returns what `FirstPrice` describes |
| `Instruments.SentinelUnreachable` | models/stock_info.py:108-111 | as written, the fetch is never the "ENDED" sentinel, even when the broker answers it on every attempt |
| `Instruments.FirstQuote` | models/stock_info.py:84-111 | the corrected fetch reports the session's end exactly when a sentinel answer comes before any numeric one, a price only from a numeric answer, and nothing only when no attempt gave a number or the sentinel |
| `Instruments.FirstQuoteIsFirst` | models/stock_info.py:84-111 | the price the corrected fetch returns is the first numeric answer, with no sentinel before it |
| `Instruments.QuoteRefinesPrice` | models/stock_info.py:84-111 | apart from recognising the sentinel, the corrected fetch agrees with `current_price` |
| `Instruments.CurrentQuote` | models/stock_info.py:84-111 | the corrected retry loop returns what `FirstQuote` describes |
| `Instruments.Lower` | models/stock_info.py:129-133 | the new low is at most both the old low and the price, and is one of them |
| `Instruments.Higher` | models/stock_info.py:135-139 | the new high is at least both the old high and the price, and is one of them |
| `Instruments.RunningLowIsMinimum` | models/stock_info.py:129-133 | over any sequence of prices the running low is their minimum, and it is defined once a price has been seen |
| `Instruments.LastSignal` | models/stock_info.py:123-127 | the indicator price is the last signal value, and is missing when no row survives |
| `Instruments.MinOf` | models/stock_info.py:246 | `signal.min()` is the smallest signal value |
| `Instruments.Ratio` | models/stock_info.py:241 | a defined `pct_change() + 1` is the quotient of two consecutive signal values |
| `Instruments.Advance` | models/stock_info.py:249-255 | a live trace is multiplied by the latest ratio and fires, clearing itself, exactly when it exceeds 1.001; without a live trace nothing fires |
| `Instruments.Detect` | models/stock_info.py:235-256 | with at most one signal row the detector does nothing, and a buy always clears the trace |
| `Instruments.OpeningSquaresRatio` | models/stock_info.py:243-250 | a trough opens the trace at the latest ratio, which is at least one, and advances it by that ratio again in the same call |
| `Instruments.QuietWithoutTrace` | models/stock_info.py:243-256 | without a trough and without a live trace the detector neither buys nor changes the trace |
| `Instruments.TraceBelowThreshold` | models/stock_info.py:249-255 | a stored trace never exceeds the threshold |
| `Instruments.UpdateMeaning` | models/stock_info.py:97-165 | `update_price` keeps the instrument consistent and leaves the wallet and trace alone; whenever a price is known it appends that price, the fetched one or the previous one again, to the history; low and high widen to include it; it raises only when a lowest indicator exists and the new one is missing |
| `Instruments.StockInfo.constructor` | models/stock_info.py:34-52 | a new instrument has the given identity and wallet, nothing observed yet, and the price file as it is on disk |
| `Instruments.StockInfo.FromDoc` | models/stock_info.py:65-75 | `to_object` rebuilds an instrument whose `json()` is the document it was built from |
| `Instruments.StockInfo.Json` | models/stock_info.py:54-63 | the document holds the symbol, exchange, wallet and creation date |
| `Instruments.StockInfo.UpdatePrice` | models/stock_info.py:97-145 | the method moves the instrument to the state `UpdateMeaning` describes; with the corrected fetch `CurrentQuote` (see Findings) it raises the termination flag exactly on the sentinel |
| `Instruments.StockInfo.Record` | models/stock_info.py:115-145 | with a latest price, the method appends it, recomputes the indicator price and updates the extremes as described |
| `Instruments.StockInfo.WhetherBuy` | models/stock_info.py:203-256 | `whether_buy` raises exactly when no price frame has been read yet; otherwise it returns the detector's answer on the frame's signal, updates only the return trace, and buys only when a price is known |
| `Stages.BreachBand` | models/stock_stage.py:174 | the sell band sits half an increment under the trigger (trigger / 1.004 for a position, / 1.003 for a holding), and a sale through it means the price is under the trigger |
| `Stages.JudgeMeaning` | models/stock_stage.py:157-181 | only a LONG stage with an observed price is evaluated; with a positive trigger a sale means the price fell under it; without one, a sale means the indicator price is under the reference price |
| `Stages.ObservedPersists` | models/stock_stage.py:163-166 | an observed price is never forgotten, and it changes only to a truthy latest price |
| `Stages.DecodeProduct` | models/stock_stages/holdings.py:63 | `ProductType(code)` succeeds exactly on a member's code and returns that member |
| `Stages.DecodePosition` | models/stock_stages/holdings.py:64 | `PositionType(code)` succeeds exactly on a member's code and returns that member |
| `Stages.HoldingRoundTrip` | models/stock_stages/holdings.py:41-66 | `to_object(json())` restores every persisted field, and a document that decodes is the encoding of its result |
| `Stages.CodesInjective` | models/stock_stages/holdings.py:49-50 | distinct enum members have distinct codes |
| `Stages.Stage.Position` | models/stock_stages/positions.py:12-29 | a new position has the given trade fields and instrument, no observed price and no trigger |
| `Stages.Stage.Holding` | models/stock_stages/holdings.py:16-35 | a new holding has the given trade fields and instrument, no observed price and no trigger |
| `Stages.Stage.FromDoc` | models/stock_stages/holdings.py:54-66 | `to_object` builds a holding with exactly the decoded fields, no observed price and no trigger, linked to the given instrument |
| `Stages.Stage.Json` | models/stock_stages/holdings.py:41-52 | a holding's document decodes back to its trade fields |
| `Stages.Stage.InvestedAmount` | models/stock_stage.py:43-48 | the invested amount is the reference price times the absolute quantity, non-negative for a non-negative price and zero for no shares |
| `Stages.Stage.SetTrigger` | models/stock_stage.py:85-140 | without an instrument or with zero quantity the method raises and keeps the trigger; otherwise the new trigger is the corrected `SetTriggerOutcome` of the stage's ladder at the given price, which refuses a non-rising ladder as a raise (see Findings) |
| `Stages.Stage.Sell` | models/stock_stage.py:142-155 | a sale succeeds exactly when there is an instrument with a latest price and a non-zero quantity; it credits the trade's net P&L to the wallet and changes nothing else of the instrument |
| `Stages.Stage.Breached` | models/stock_stage.py:157-181 | `breached` records the observed price and returns the `Judge` verdict; a sale credits the net P&L; keeping the stage re-runs the corrected trigger search; and a normal return leaves the stage in the `Reviewed` state |
| `Buying.BudgetQuantity` | models/account.py:30 | the order size exists exactly when there is a non-zero indicator price, and is non-negative for a positive one |
| `Buying.BudgetQuantityIsLargestAffordable` | models/account.py:30 | for a positive price the size is the largest whole number of shares within the 5000 budget |
| `Buying.Decide` | models/account.py:27-44 | a buy is placed only on a signal for a symbol not held, with the budget size, and only when the broker accepts it; a missing or zero indicator price raises; otherwise nothing happens |
| `Buying.NoBuyWhenHeld` | models/account.py:28 | a symbol already held is never bought |
| `Buying.JsonsOf` | services/background_process.py:146-153 | there is one document per tracked symbol |
| `Accounts.Account.constructor` | models/account.py:16-18 | a new account has no positions and no holdings |
| `Accounts.Account.Visit` | models/account.py:27-44 | one key: a key with a position is skipped; otherwise the detector runs and its answer is acted on, adding at most that key's new position |
| `Accounts.Account.VisitAmong` | models/account.py:27-44 | one key of the tracked map: what `Visit` does to it, while every other instrument keeps its state and every other key keeps its position entry and its visit record |
| `Accounts.Account.Step` | models/account.py:27-44 | one iteration keeps the record of which keys were visited and what each got |
| `Accounts.Account.ProgressStarts` | models/account.py:27 | before the loop nothing has been visited |
| `Accounts.Account.Sweep` | models/account.py:27-44 | the loop visits every key, or stops at the first key that raises |
| `Accounts.Account.BuyStocks` | models/account.py:20-44 | `buy_stocks` keeps the holdings and the existing positions; each new position is fresh and under a tracked key; every key's outcome is as `KeyOutcome` describes |
| `Accounts.Account.DropPositions` | services/background_process.py:92-93 | the positions reported sold are removed and nothing else changes |
| `Accounts.Account.DropHoldings` | services/background_process.py:108-109 | the holdings reported sold are removed and nothing else changes |
| `Accounts.Account.Promote` | services/background_process.py:155-165 | every position becomes a fresh holding under its key with the same trade fields and instrument, replacing any holding there; other holdings and the positions are kept |
| `Store.FirstIndex` | models/stock_info.py:258-265 | `find_one({'symbol': k})` finds the first document filed under k, or reports that none is |
| `Store.LastFiled` | services/background_process.py:39-46 | a load that files each document under its symbol keeps the last document of each symbol in the collection |
| `Store.FiledLast` | services/background_process.py:39-46 | filing one more document adds its symbol and makes it the symbol's last document |
| `Store.UpsertMeaning` | services/background_process.py:146-153 | find-then-insert-or-update leaves k finding the inserted or updated document, changes no other symbol's result, adds k, and keeps the symbols unique |
| `Store.DeleteKeepsOthers` | models/stock_stages/holdings.py:97-103 | `delete_one` on k changes no other symbol's result |
| `Store.DeleteFromUnique` | models/stock_stages/holdings.py:97-103 | in a collection with unique symbols, deleting k removes exactly k |
| `Store.DeleteMeaning` | models/stock_stages/holdings.py:97-103 | deleting k changes no other symbol's result, and with unique symbols removes exactly k |
| `Background.OutcomesGrow` | services/background_process.py:86-90 | reviewing one more stage extends the record of reviewed and sold stages |
| `Background.ReviewOne` | services/background_process.py:87-88 | one `breached()` call that returns normally leaves the stage reviewed |
| `Background.ReviewStep` | services/background_process.py:86-90 | one iteration of the review loop keeps the loop's record of reviewed and sold stages |
| `Background.ReviewStarts` | services/background_process.py:84-86 | before the review loop nothing is reviewed or sold |
| `Background.ReviewEnds` | services/background_process.py:86-90 | a review loop that finished has reviewed every stage, and every stage had an instrument |
| `Background.Review` | services/background_process.py:84-90 | the review loop changes instruments only in their wallets; it reports only stages it was given; when it does not raise, every stage was reviewed and exactly the stages that sold are reported |
| `Background.QuotesOf` | services/background_process.py:68-69 | each instrument's quote is the corrected fetch `FirstQuote` of its feed (see Findings) |
| `Background.RefreshGrows` | services/background_process.py:68-69 | one more `update_price` extends the loop's record |
| `Background.RefreshOne` | services/background_process.py:69 | one `update_price` changes only its own instrument's state, as `AfterUpdate` says, and, with the corrected fetch, sets the flag on the sentinel |
| `Background.RefreshStep` | services/background_process.py:68-69 | one iteration of the update loop keeps the loop's record |
| `Background.RefreshStarts` | services/background_process.py:68 | before the update loop nothing is updated |
| `Background.RefreshEnds` | services/background_process.py:68-69 | a finished or stopped update loop is `Refreshed` |
| `Background.RefreshAll` | services/background_process.py:68-69 | the update loop updates every instrument from its own feed, or stops at one that raises; the flag ends up set exactly when it was set or some fetch saw the sentinel |
| `Background.LoadStocks` | services/background_process.py:33-40 | the tracked instruments are the stored symbols, each a fresh, unobserved instrument built from the last document filed under it |
| `Background.DecodeAll` | services/background_process.py:42 | loading the holdings succeeds exactly when every document decodes, and then decodes each one in order |
| `Background.DecodeKeepsSymbols` | services/background_process.py:42-46 | decoding keeps the set of symbols |
| `Background.LoadHoldings` | services/background_process.py:45-48 | the holdings are the decoded symbols, each a fresh holding with the last fields filed under it, linked to the tracked instrument of that symbol if there is one |
| `Background.LateDecisionAsWritten` | services/background_process.py:123-132 | as written, the end-of-day pass buys only on a close more than 1% under the high and under 0.5% above the low, with the budget size and the broker's acceptance; a missing price or high raises |
| `Background.LateDecision` | services/background_process.py:123-132 | corrected: a held symbol is skipped as in `buy_stocks`; otherwise the rule as written applies |
| `Background.LateCrashMeaning` | services/background_process.py:125-129 | for a consistent instrument the end-of-day pass raises exactly when there is no price yet, or when the fall qualifies but the order cannot be sized |
| `Background.LateBuyNeedsWideRange` | services/background_process.py:126 | an end-of-day buy needs a close within 0.5% of the low and more than 1% under the high |
| `Background.HeldSymbolBoughtAgain` | services/background_process.py:123-141 | a held symbol with a qualifying fall is bought again as written, and skipped by the correction |
| `Background.Persisted` | services/background_process.py:146-153 | the saved instrument document carries the current wallet; it is the instrument's `json()` when none was filed, and otherwise keeps the filed identity |
| `Background.PersistGrows` | services/background_process.py:146-153 | persisting one more instrument keeps the record of persisted instruments |
| `Background.StaleKeys` | services/background_process.py:177-179 | the corrected stale set is exactly the symbols held at start-up and no longer held |
| `Background.SoldHoldingStaysFiled` | services/background_process.py:50 | as written, the stale set is always empty, so a holding sold during the day keeps its document; the correction deletes it |
| `Background.LateVisit` | services/background_process.py:123-141 | one key: it raises exactly when `LateDecision` says Crash, and opens a fresh position exactly when it says Open, with the latest price, indicator price and the decided quantity |
| `Background.LateBuys` | services/background_process.py:119-141 | the buying half of the end-of-day loop visits every key or stops at one that raises; a key without a position gets a new one exactly when `LateDecision` opens it |
| `Background.PersistOne` | services/background_process.py:146-153 | persisting one instrument keeps the record of persisted instruments |
| `Background.PersistStocks` | services/background_process.py:146-153 | every visited instrument's document is inserted or its wallet updated; no other symbol's document changes; symbols stay unique |
| `Background.FileGrows` | services/background_process.py:167-175 | filing one more holding keeps the record of filed holdings |
| `Background.FileStep` | services/background_process.py:167-175 | filing a key whose found document decodes keeps the loop record: the keys done are filed and none of them met an undecodable document |
| `Background.HoldingJsons` | services/background_process.py:174 | each holding's document decodes to its trade fields |
| `Background.SaveHoldings` | services/background_process.py:167-175 | the save loop raises exactly when some holding's filed document does not decode; otherwise every holding finds its own document, no other symbol changes and symbols stay unique |
| `Background.DeleteStale` | services/background_process.py:177-179 | the corrected delete loop removes exactly the stale symbols' documents and keeps every other result |
| `Background.FileHoldings` | services/background_process.py:167-179 | after saving and deleting, every holding finds its own document, and, with the corrected `DeleteStale` (see Findings), a unique collection of start-up holdings ends up holding exactly the current holdings |
| `Background.WakeCount` | services/background_process.py:52-54 | the loop condition lets through exactly the wake-ups entered before the end of the session |
| `Background.Session.constructor` | services/background_process.py:27-50 | the session starts with the loaded instruments and holdings, no positions, the flag clear, and the start-up holdings recorded |
| `Background.Session.AddChosen` | services/background_process.py:61-63 | every newly chosen symbol becomes a fresh NSE instrument with an empty wallet and nothing observed, created at import time; tracked instruments are kept |
| `Background.AddOne` | services/background_process.py:61-63 | taking in one chosen symbol keeps the record of imports: known symbols keep their instrument, new ones get a fresh imported instrument |
| `Background.WithChosen` | services/background_process.py:61-63 | the tracked map after the loop over the chosen symbols: the old keys plus every chosen one, old instruments kept, each new one a fresh NSE instrument created at import time with its stored prices |
| `Background.Session.UpdateAll` | services/background_process.py:68-69 | the tracked instruments are refreshed as `RefreshAll` describes, with the corrected fetch |
| `Background.Session.BuyPhase` | services/background_process.py:77-78 | outside the buying window nothing changes; inside it `buy_stocks` runs with the outcome it promises; only new, fresh positions are added |
| `Background.Session.ReviewPositions` | services/background_process.py:84-93 | the positions are reviewed; when no review raised, exactly the sold ones are removed |
| `Background.Session.ReviewHoldings` | services/background_process.py:99-109 | the holdings are reviewed; when no review raised, exactly the sold ones are removed |
| `Background.Session.Prepare` | services/background_process.py:61-69 | the chosen symbols are added and every instrument is refreshed |
| `Background.Session.Trade` | services/background_process.py:77-109 | only positions under tracked keys are added, and only inside the buying window; only holdings that were there stay; a raised review keeps all holdings |
| `Background.Session.Tick` | services/background_process.py:56-112 | one iteration of the loop: the chosen symbols are added; after the termination flag, no trade happens; a tick that raises keeps every holding |
| `Background.Session.Awake` | services/background_process.py:53-112 | one wake-up runs a tick; it adds only fresh instruments and positions, and never adds holdings |
| `Background.Session.Run` | services/background_process.py:52-112 | the loop runs at most the wake-ups before the end of the session, stops early only on the termination flag, never drops an instrument and never adds a holding |
| `Background.Session.EndOfDayBuys` | services/background_process.py:119-141 | every key is visited, or the pass stops at one that raises; each new position is exactly what `LateDecision` opens; holdings and existing positions are kept |
| `Background.Session.EndOfSession` | services/background_process.py:114-179 | when nothing raises, every instrument is persisted, every position is promoted to a holding with the same fields, and every holding finds its own document; the buys follow the corrected `LateDecision` and the deletion the corrected `DeleteStale` |
| `Background.Start` | services/background_process.py:27-50 | start-up fails exactly when some holding document does not decode; otherwise the session tracks the stored instruments and holdings, each built from the last document of its symbol |
| `Background.BackgroundTask` | services/background_process.py:20-181 | the whole task: when it does not raise, every instrument is persisted, every holding finds its own document, and, with the corrected `DeleteStale`, a unique holding collection ends up holding exactly the held symbols |

## Left out

- Floating point: prices and amounts are exact reals. NaN is modelled as a missing value (`None`). Infinities are not modelled; the one place the core can produce one is `Instruments.Ratio`, below.
- PyNum.Round2: ties round up, whereas Python rounds the binary value half to even.
- `pandas` smoothing: `line.ewm(span=10).mean()` followed by `dropna()` is an abstract `Smoother` function parameter. `fillna`/`dropna` on the price frame are left out, because the history never holds a missing price.
- The dead `if False:` branch of `whether_buy` (the sudden-fall counter) is left out, because it never runs.
- Logging, `asyncio` sleeping and the wall clock are left out. Each wake-up of the loop is a `Wake` value that carries the clock reading, the chosen symbols, the price feeds and the day.
- The price CSV files are the `history` sequence, and `disk` gives each file's contents at start-up.
- `chosen_stocks()` (routes/stock_input.py) and the holiday calendar (`load_holidays`, utils/exclude_dates.py) are parameters.
- Dates are day numbers, with day 0 a Monday.
- The default `created_at` of a new instrument is fixed once, when the module is imported (`importDay`).
- The broker's `long` order is a `Broker` predicate. The `short` order that `sell` sends is not recorded, because its result is ignored.
- The document store is a pair of document sequences with first-match find, update and delete. `await`, connections and the store's own failures are not part of this model. Documents are typed records that carry every field, so the `KeyError` that `to_object` raises on a document missing a key (models/stock_info.py:70-75, models/stock_stages/holdings.py:59-66) is not modelled; only an unknown enum code makes a document undecodable.
- Dictionary iteration order is left open: each loop visits keys in an order the model does not fix.
- `models/wallet.py`, `load_predicted_files.py`, the dashboard, the HTTP routes and `main.py` are not part of this model.
- A stage's instrument link is fixed when the stage is built. The source sets it once at load time (services/background_process.py:48).
- The end-of-day loop is modelled as a buying pass followed by a persisting pass over the keys the buying pass reached. This is equivalent: persisting a key reads only its wallet, which no buy changes, and a raise at a key stops before that key is persisted.
- Background.Session.Tick: states the frame and the stop/raise cases. The effects of its phases are stated by `Prepare`, `UpdateAll`, `BuyPhase`, `ReviewPositions` and `ReviewHoldings`, which it runs in order.
- Background.Session.Trade: states only which positions and holdings may remain or appear; the buy and review outcomes are stated by `BuyPhase`, `ReviewPositions` and `ReviewHoldings`.
- Background.Session.Awake: states only what the tick may add or remove and that a stop means the flag was set.
- Background.Session.Run: states the number of wake-ups, monotone tracking and what may be added. The model also stops when its list of wake-ups runs out, where the source keeps sleeping until the end of the session. Its ticks run the corrected fetch and the corrected `set_trigger`: a non-rising ladder is one raised tick and the loop goes on, where the code as written never returns from `set_trigger` and the task hangs (`LadderNeverEnds`).
- Background.Session.EndOfSession: says nothing about the store after a raise.
- Background.BackgroundTask: says nothing about the store after a raise.
- Background.Session.Prepare: does not repeat the refresh outcome `UpdateAll` states.
- Instruments.Ratio: returns None after a zero signal value. pandas gives NaN there only when the next value is also zero; otherwise it gives an infinite change, with which the trough test can open a trace and a truthy trace fires a buy. The model neither opens nor fires on that row.
- Instruments.StockInfo.UpdatePrice: fetches through the corrected `CurrentQuote`, so a sentinel answer sets the termination flag and leaves the instrument unchanged. As written, such an answer is retried, the fetch gives None and the previous price is recorded again (`SentinelUnreachable`).
- Background.QuotesOf: gives the corrected fetch `FirstQuote`, not the as-written `FirstPrice`; they differ only on a sentinel answer (`QuoteRefinesPrice`).
- Background.RefreshOne: runs `UpdatePrice` with the corrected fetch, so the flag it sets on a sentinel is never set by the code as written.
- Background.RefreshAll: the flag it reports comes from the corrected fetch; as written, the refresh never sets it.
- Background.Session.UpdateAll: inherits the corrected fetch from `RefreshAll`.
- Background.FileHoldings: deletes through the corrected `DeleteStale`. As written, a start-up holding sold during the day keeps its document (`SoldHoldingStaysFiled`), so the collection does not end up holding exactly the current holdings.
- Background.Session.EndOfSession: buys through the corrected `LateDecision`, so a held symbol is not bought again (as written it is, `HeldSymbolBoughtAgain`), and files holdings through `FileHoldings` with the corrected delete.
- Background.Session.EndOfDayBuys: buys through the corrected `LateDecision` (see `HeldSymbolBoughtAgain` for the code as written).
- Background.BackgroundTask: runs the corrected fetch, end-of-day buy, stale delete and `set_trigger` named above; its "exactly the held symbols" holds only with the corrected delete, and it reaches the end of the day even after a non-rising ladder, where the code as written hangs in `set_trigger` and never writes the end-of-day documents.
- Stages.Stage.SetTrigger: runs the corrected `SetTriggerOutcome` (through `Ladder.Climb`): a ladder whose rungs do not rise while the first rung is under the price is refused as a raise, keeping the trigger, where the code as written never returns (`LadderNeverEnds`, `NegativeCostNeverEnds`).
- Stages.Stage.Breached: re-runs the corrected `SetTrigger` on a kept stage, so a non-rising ladder makes it raise where the code as written never returns (`LadderNeverEnds`, `NegativeCostNeverEnds`).

## Findings

| source | as written | input that shows it | evidently intended | confidence | as-written member | corrected member |
|---|---|---|---|---|---|---|
| models/stock_stage.py:126-133 | the rung loop runs while the rung is under the selling price, with no bound | a cost basis of -1 with price 100: every rung stays under the price, so the loop never ends | refuse a ladder that does not rise, keeping the trigger | not executed | `Ladder.NegativeCostNeverEnds` | `Ladder.SetTriggerOutcome` |
| models/stock_info.py:108-111 | compares the fetched price with "ENDED", but `current_price` only returns a float or None | a broker that answers "ENDED" on every attempt: the fetch is None and the flag is never set | the end-of-session sentinel sets the termination flag | not executed | `Instruments.SentinelUnreachable` | `Instruments.CurrentQuote` |
| services/background_process.py:177-179 | the start-up holdings are a live view of the current keys (line 50), so no key is ever stale | holding "A" held at start-up and sold during the day: its document is never deleted | delete the documents of start-up holdings no longer held | not executed | `Background.SoldHoldingStaysFiled` | `Background.DeleteStale` |
| services/background_process.py:123-141 | the end-of-day buy checks only the positions, not the holdings | symbol "X" held, close 90, high 100, low 90, indicator 50: 100 shares are bought and promotion then overwrites the holding | skip held symbols, as `buy_stocks` does | not executed | `Background.HeldSymbolBoughtAgain` | `Background.LateDecision` |
