/** The pure arithmetic behind a trade stage: the business-day count, the expected
    return schedule, the choice of cost calculator, and the return ladder that
    `set_trigger` climbs. Days are whole numbers counted from a Monday (day 0). */
module Ladder {
  import opened PyNum
  import Settings
  import IntradayCost
  import DeliveryCost

  // ---------------------------------------------------------------------------
  // Calendar

  /** Monday to Friday. Dafny's `%` is never negative, so this holds for every day number. */
  predicate IsWeekday(d: int) {
    d % 7 < 5
  }

  /** The rule "weekly on Monday..Friday from dtstart until `until`", counted. */
  function WeekdaysBetween(start: int, until: int): (r: nat)
    ensures r <= if until < start then 0 else until - start + 1
    decreases until - start
  {
    if until < start then 0
    else WeekdaysBetween(start, until - 1) + (if IsWeekday(until) then 1 else 0)
  }

  /** The weekdays of a date range, as a set. */
  ghost function WeekdaySet(start: int, until: int): set<int> {
    set d | start <= d <= until && IsWeekday(d)
  }

  /** The recursive count is the size of the set of weekdays in the range. */
  lemma {:induction false} WeekdaysBetweenIsCardinality(start: int, until: int)
    ensures WeekdaysBetween(start, until) == |WeekdaySet(start, until)|
    decreases until - start
  {
    if until < start {
      assert WeekdaySet(start, until) == {};
    } else {
      WeekdaysBetweenIsCardinality(start, until - 1);
      if IsWeekday(until) {
        assert WeekdaySet(start, until) == WeekdaySet(start, until - 1) + {until};
      } else {
        assert WeekdaySet(start, until) == WeekdaySet(start, until - 1);
      }
    }
  }

  /** How many entries of the holiday list fall within [start, until], duplicates and
      weekend dates included, as the subtraction loop counts them. */
  function HolidaysIn(holidays: seq<int>, start: int, until: int): (r: nat)
    ensures r <= |holidays|
  {
    if |holidays| == 0 then 0
    else
      var last := holidays[|holidays| - 1];
      HolidaysIn(holidays[..|holidays| - 1], start, until) + (if start <= last <= until then 1 else 0)
  }

  /** `number_of_days`: weekdays from the creation date to today, inclusive, less every
      listed holiday in that range whatever its weekday. */
  function NumberOfDays(createdAt: int, today: int, holidays: seq<int>): (r: int)
    ensures r <= WeekdaysBetween(createdAt, today)
    ensures r >= WeekdaysBetween(createdAt, today) - |holidays|
  {
    WeekdaysBetween(createdAt, today) - HolidaysIn(holidays, createdAt, today)
  }

  /** The distinct holidays of a list that lie in a range. */
  ghost function HolidaySet(holidays: seq<int>, start: int, until: int): set<int> {
    set h | h in holidays && start <= h <= until
  }

  /** Dropping the last entry of a list without repeats leaves a list without repeats
      that does not hold that entry. */
  lemma DistinctInit(holidays: seq<int>)
    requires |holidays| > 0
    requires forall i, j :: 0 <= i < j < |holidays| ==> holidays[i] != holidays[j]
    ensures var init := holidays[..|holidays| - 1];
      && (forall i, j :: 0 <= i < j < |init| ==> init[i] != init[j])
      && holidays[|holidays| - 1] !in init
  {
    var init := holidays[..|holidays| - 1];
    assert forall i :: 0 <= i < |init| ==> init[i] == holidays[i];
  }

  /** The holidays in range of a list with one more entry at its end. */
  lemma HolidaySetSnoc(init: seq<int>, last: int, start: int, until: int)
    ensures HolidaySet(init + [last], start, until)
         == HolidaySet(init, start, until) + (if start <= last <= until then {last} else {})
  {
    assert forall h :: h in init + [last] <==> h in init || h == last;
  }

  /** For a list without repeats, the counting loop counts the holidays in range. */
  lemma {:induction false} HolidaysInIsCardinality(holidays: seq<int>, start: int, until: int)
    requires forall i, j :: 0 <= i < j < |holidays| ==> holidays[i] != holidays[j]
    ensures HolidaysIn(holidays, start, until) == |HolidaySet(holidays, start, until)|
  {
    if |holidays| == 0 {
      assert HolidaySet(holidays, start, until) == {};
    } else {
      var init, last := holidays[..|holidays| - 1], holidays[|holidays| - 1];
      DistinctInit(holidays);
      HolidaysInIsCardinality(init, start, until);
      assert init + [last] == holidays;
      HolidaySetSnoc(init, last, start, until);
    }
  }

  /** With a calendar of distinct weekday holidays (as an exchange publishes it), the
      count is exactly the number of business days in the range. */
  lemma BusinessDays(createdAt: int, today: int, holidays: seq<int>)
    requires forall i, j :: 0 <= i < j < |holidays| ==> holidays[i] != holidays[j]
    requires forall i :: 0 <= i < |holidays| ==> IsWeekday(holidays[i])
    ensures NumberOfDays(createdAt, today, holidays)
         == |set d | createdAt <= d <= today && IsWeekday(d) && d !in holidays|
  {
    WeekdaysBetweenIsCardinality(createdAt, today);
    HolidaysInIsCardinality(holidays, createdAt, today);
    var all, off := WeekdaySet(createdAt, today), HolidaySet(holidays, createdAt, today);
    assert off <= all;
    assert (set d | createdAt <= d <= today && IsWeekday(d) && d !in holidays) == all - off;
  }

  /** A weekend-dated entry in the holiday list is still subtracted. */
  lemma WeekendHolidayCounted()
    ensures WeekdaysBetween(0, 6) == 5
    ensures NumberOfDays(0, 6, [5]) == 4
  {
  }

  // ---------------------------------------------------------------------------
  // Return schedule and costs

  /** Whether the delivery calculator and schedule apply: held more than one business day. */
  predicate MultiDay(days: int) {
    days > 1
  }

  /** `current_expected_return`: compounding at the delivery initial rate for a
      multi-day holding, the flat intraday rate otherwise. */
  function CurrentExpectedReturn(days: int): real
  {
    if MultiDay(days) then Pow(1.0 + Settings.DELIVERY_INITIAL_RETURN, days) - 1.0
    else Settings.INTRADAY_INITIAL_RETURN
  }

  /** The expected return never drops below the intraday rate and grows with the
      number of days held. */
  lemma {:induction false} ExpectedReturnMonotone(d1: int, d2: int)
    requires d1 <= d2
    ensures CurrentExpectedReturn(d1) >= 0.008
    ensures CurrentExpectedReturn(d1) <= CurrentExpectedReturn(d2)
  {
    var b := 1.0 + Settings.DELIVERY_INITIAL_RETURN;
    assert Pow(b, 2) == 1.016064 by {
      assert Pow(b, 1) == b * Pow(b, 0) == b;
    }
    if MultiDay(d1) {
      PowMonotone(b, 2, d1);
      PowMonotone(b, d1, d2);
    } else if MultiDay(d2) {
      PowMonotone(b, 2, d2);
    }
  }

  /** `transaction_cost`: the total charges of the calculator the holding period selects. */
  function TransactionCost(days: int, buyingPrice: real, sellingPrice: real, quantity: int): real
  {
    if MultiDay(days) then DeliveryCost.Compute(buyingPrice, sellingPrice, quantity).totalTaxAndCharges
    else IntradayCost.Compute(buyingPrice, sellingPrice, quantity).totalTaxAndCharges
  }

  /** The net P&L of the calculator the holding period selects. */
  function NetPL(days: int, buyingPrice: real, sellingPrice: real, quantity: int): real {
    if MultiDay(days) then DeliveryCost.Compute(buyingPrice, sellingPrice, quantity).netPL
    else IntradayCost.Compute(buyingPrice, sellingPrice, quantity).netPL
  }

  /** The chosen calculator's charges are non-negative, and its net P&L is the gross
      P&L less exactly those charges. */
  lemma TransactionCostMeaning(days: int, b: real, s: real, q: int)
    requires b >= 0.0 && s >= 0.0 && q >= 0
    ensures TransactionCost(days, b, s, q) >= 0.0
    ensures NetPL(days, b, s, q) == (s - b) * q as real - TransactionCost(days, b, s, q)
  {
    IntradayCost.ChargesNonNegative(b, s, q);
    DeliveryCost.SaleCostsAtLeastDp(b, s, q);
    IntradayCost.TotalIsSumOfComponents(b, s, q);
    DeliveryCost.TotalIsSumOfComponents(b, s, q);
    IntradayCost.GrossAndTurnover(b, s, q);
  }

  /** Charges amortised per share and added back: selling q shares at s after buying
      at b nets (s - (b + charges / q)) * q, which is the calculator's net P&L. */
  lemma {:induction false} AmortisedCharges(days: int, b: real, s: real, q: int)
    requires q != 0
    ensures (s - (b + TransactionCost(days, b, s, q) / q as real)) * q as real == NetPL(days, b, s, q)
  {
    var t, qr := TransactionCost(days, b, s, q), q as real;
    assert (t / qr) * qr == t;
    assert (s - (b + t / qr)) * qr == s * qr - b * qr - (t / qr) * qr;
    IntradayCost.TotalIsSumOfComponents(b, s, q);
    DeliveryCost.TotalIsSumOfComponents(b, s, q);
    IntradayCost.GrossAndTurnover(b, s, q);
    assert (s - b) * qr == s * qr - b * qr;
  }

  /** What `sell` adds to the wallet: the per-share value after amortising the charges
      over the quantity, times the quantity; it is the calculator's net P&L. */
  function SaleCredit(days: int, b: real, s: real, q: int): (r: real)
    requires q != 0
    ensures r == NetPL(days, b, s, q)
  {
    AmortisedCharges(days, b, s, q);
    (s - (b + TransactionCost(days, b, s, q) / q as real)) * q as real
  }

  // ---------------------------------------------------------------------------
  // The return ladder

  /** The inputs of one trigger search: the cost basis per share, the current expected
      return, the increment per rung, the wallet per share and the selling price. */
  datatype Rungs = Rungs(cost: real, cer: real, inc: real, walletPerUnit: real, sell: real)

  /** Rung k: `cost * (1 + cer + k * inc) - wallet / quantity`. */
  function Rung(l: Rungs, k: int): real {
    l.cost * (1.0 + l.cer + k as real * l.inc) - l.walletPerUnit
  }

  /** The rungs rise with k exactly when cost * inc is positive. */
  predicate Climbs(l: Rungs) {
    l.cost * l.inc > 0.0
  }

  /** Rungs are evenly spaced, cost * inc apart. */
  lemma RungAffine(l: Rungs, k: int)
    ensures Rung(l, k) == Rung(l, 0) + k as real * (l.cost * l.inc)
  {
    assert l.cost * (1.0 + l.cer + k as real * l.inc) == l.cost * (1.0 + l.cer) + k as real * (l.cost * l.inc);
  }

  /** On a climbing ladder a higher rung is strictly higher. */
  lemma RungsIncrease(l: Rungs, j: int, k: int)
    requires Climbs(l) && j < k
    ensures Rung(l, j) < Rung(l, k)
  {
    RungAffine(l, j);
    RungAffine(l, k);
    var b := l.cost * l.inc;
    assert k as real * b - j as real * b == (k - j) as real * b;
    assert (k - j) as real * b > 0.0;
  }

  /** The smallest whole number at least x. */
  function Ceil(x: real): (c: int)
    ensures c as real >= x && (c - 1) as real < x
  {
    -((-x).Floor)
  }

  /** The first rung at or above the selling price: the loop's exit point. */
  function FirstRungReached(l: Rungs): (k: nat)
    requires Climbs(l)
    ensures k >= 1 && Rung(l, k) >= l.sell
    ensures forall j :: 1 <= j < k ==> Rung(l, j) < l.sell
  {
    var b := l.cost * l.inc;
    var g := (l.sell - Rung(l, 0)) / b;
    var c := Ceil(g);
    var k := if c < 1 then 1 else c;
    assert Rung(l, k) >= l.sell by {
      RungAffine(l, k);
      assert (k as real - g) * b >= 0.0;
      assert g * b == l.sell - Rung(l, 0);
    }
    assert forall j :: 1 <= j < k ==> Rung(l, j) < l.sell by {
      forall j | 1 <= j < k
        ensures Rung(l, j) < l.sell
      {
        RungAffine(l, j);
        assert j as real < g;
        assert (g - j as real) * b > 0.0;
        assert g * b == l.sell - Rung(l, 0);
      }
    }
    k
  }

  /** The outcome of a search: the trigger it leaves and whether it returned normally. */
  datatype SearchResult = SearchResult(trigger: Option<real>, ok: bool)

  /** The search loop from rung k with the trigger currently `current`: while rung k is
      below the selling price, a LONG stage moves its trigger to the rung and a SHORT
      stage to `sell / rung`, which raises on a zero rung. */
  function SearchFrom(long: bool, l: Rungs, k: nat, current: Option<real>): (r: SearchResult)
    requires Climbs(l) && 1 <= k <= FirstRungReached(l)
    decreases FirstRungReached(l) - k
  {
    if Rung(l, k) >= l.sell then SearchResult(current, true)
    else if !long && Rung(l, k) == 0.0 then SearchResult(current, false)
    else SearchFrom(long, l, k + 1, Some(if long then Rung(l, k) else l.sell / Rung(l, k)))
  }

  /** For a LONG stage: the largest rung strictly below the selling price, or the earlier
      trigger when already the first rung reaches it. */
  function LongTrigger(l: Rungs, earlier: Option<real>): (r: Option<real>)
    requires Climbs(l)
    ensures FirstRungReached(l) == 1 <==> Rung(l, 1) >= l.sell
    ensures FirstRungReached(l) == 1 ==> r == earlier
    ensures FirstRungReached(l) > 1 ==>
      && r.Some? && r.value < l.sell
      && (exists k :: 1 <= k && r.value == Rung(l, k))
      && (forall k :: 1 <= k && Rung(l, k) < l.sell ==> Rung(l, k) <= r.value)
  {
    var n := FirstRungReached(l);
    if n == 1 then earlier
    else
      assert forall k :: 1 <= k && Rung(l, k) < l.sell ==> Rung(l, k) <= Rung(l, n - 1) by {
        forall k | 1 <= k && Rung(l, k) < l.sell
          ensures Rung(l, k) <= Rung(l, n - 1)
        {
          if k > n - 1 {
            if k > n {
              RungsIncrease(l, n, k);
            }
          } else if k < n - 1 {
            RungsIncrease(l, k, n - 1);
          }
        }
      }
      Some(Rung(l, n - 1))
  }

  /** The LONG search loop ends at the largest rung below the selling price. */
  lemma {:induction false} LongSearchFindsLargestRung(l: Rungs, k: nat, current: Option<real>)
    requires Climbs(l) && 1 <= k <= FirstRungReached(l)
    ensures SearchFrom(true, l, k, current)
         == SearchResult(if k == FirstRungReached(l) then current else Some(Rung(l, FirstRungReached(l) - 1)), true)
    decreases FirstRungReached(l) - k
  {
    if Rung(l, k) < l.sell {
      LongSearchFindsLargestRung(l, k + 1, Some(Rung(l, k)));
    }
  }

  /** The ratchet: an earlier trigger above the new one is kept. */
  function Ratchet(earlier: Option<real>, found: Option<real>): (r: Option<real>)
    ensures r == earlier || r == found
    ensures earlier.Some? && found.Some? ==> r.Some? && r.value >= earlier.value && r.value >= found.value
    ensures earlier.None? ==> r == found
  {
    if earlier.Some? && found.Some? && earlier.value > found.value then earlier else found
  }

  /** After the ratchet, `set_trigger` logs `trigger / (cost - wallet / quantity)` when
      the trigger is truthy, which raises when that denominator is zero. */
  function Finish(l: Rungs, earlier: Option<real>, found: Option<real>): SearchResult {
    var t := Ratchet(earlier, found);
    SearchResult(t, !(Truthy(t) && l.cost - l.walletPerUnit == 0.0))
  }

  /** Everything `set_trigger` does once its inputs are known. A search that would never
      end (rungs that do not rise, the first one below the price) is refused with the
      trigger unchanged; see `LadderNeverEnds` for the loop as written. */
  function SetTriggerOutcome(long: bool, l: Rungs, earlier: Option<real>): (r: SearchResult)
    ensures Rung(l, 1) < l.sell && !Climbs(l) ==> r == SearchResult(earlier, false)
    ensures Rung(l, 1) >= l.sell ==> r.trigger == earlier
  {
    if Rung(l, 1) >= l.sell then Finish(l, earlier, earlier)
    else if !Climbs(l) then SearchResult(earlier, false)
    else
      var s := SearchFrom(long, l, 1, earlier);
      if !s.ok then s else Finish(l, earlier, s.trigger)
  }

  /** The search loop and ratchet of `set_trigger` over a known ladder. It first refuses
      a ladder whose rungs do not rise while its first rung is below the selling price
      (as written the loop never ends there, see `LadderNeverEnds`); otherwise it runs
      the loop rung by rung while the rung is below the selling price. */
  method Climb(long: bool, l: Rungs, earlier: Option<real>) returns (trigger: Option<real>, ok: bool)
    ensures SearchResult(trigger, ok) == SetTriggerOutcome(long, l, earlier)
  {
    trigger := earlier;
    if Rung(l, 1) < l.sell && !Climbs(l) {
      return earlier, false;
    }
    var counter := 1;
    while Rung(l, counter) < l.sell
      invariant counter >= 1
      invariant !Climbs(l) ==> counter == 1 && trigger == earlier
      invariant Climbs(l) ==> counter <= FirstRungReached(l)
      invariant Climbs(l) ==> SearchFrom(long, l, counter, trigger) == SearchFrom(long, l, 1, earlier)
      decreases if Climbs(l) then FirstRungReached(l) - counter else 0
    {
      if long {
        trigger := Some(Rung(l, counter));
      } else {
        if Rung(l, counter) == 0.0 {
          return trigger, false;
        }
        trigger := Some(l.sell / Rung(l, counter));
      }
      counter := counter + 1;
    }
    if earlier.Some? && trigger.Some? && earlier.value > trigger.value {
      trigger := earlier;
    }
    ok := !(Truthy(trigger) && l.cost - l.walletPerUnit == 0.0);
  }

  /** For a LONG stage the trigger after `set_trigger` is the ratchet of the earlier one
      with the largest rung below the price; it never falls below the earlier trigger. */
  lemma LongTriggerOutcome(l: Rungs, earlier: Option<real>)
    requires Climbs(l)
    ensures SetTriggerOutcome(true, l, earlier).trigger == Ratchet(earlier, LongTrigger(l, earlier))
    ensures earlier.Some? ==>
      && SetTriggerOutcome(true, l, earlier).trigger.Some?
      && SetTriggerOutcome(true, l, earlier).trigger.value >= earlier.value
  {
    LongSearchFindsLargestRung(l, 1, earlier);
  }

  /** As written, the loop guard stays true forever when the rungs do not rise and the
      first one is below the selling price: `set_trigger` never returns. */
  lemma {:induction false} LadderNeverEnds(l: Rungs, k: nat)
    requires !Climbs(l) && Rung(l, 1) < l.sell && k >= 1
    ensures Rung(l, k) < l.sell
  {
    RungAffine(l, k);
    RungAffine(l, 1);
    var b := l.cost * l.inc;
    assert k as real * b - 1.0 * b == (k - 1) as real * b;
    assert (k - 1) as real * b <= 0.0;
  }

  /** A concrete case: a cost basis of -1 (a LONG holding whose stored reference price is
      negative) against a selling price of 100. */
  lemma NegativeCostNeverEnds()
    ensures var l := Rungs(-1.0, 0.008, Settings.DELIVERY_INCREMENTAL_RETURN, 0.0, 100.0);
      !Climbs(l) && Rung(l, 1) < l.sell
  {
  }
}
