/** The Kaufman Adaptive Moving Average over a price history, as the instrument
    computes it on every tick: pandas' rolling series (one-step moves, n-step change,
    volatility, efficiency ratio, smoothing constant) are pure functions of the
    history; the index loop that fills the result array is a method. A NaN entry
    is `None`. */
module Kaufman {
  import opened PyNum

  function Abs(x: real): real {
    if x < 0.0 then -x else x
  }

  /** Sum of the absolute one-step moves |price[j] - price[j-1]| for lo < j <= hi. */
  function PathLength(price: seq<real>, lo: nat, hi: nat): (r: real)
    requires lo <= hi < |price|
    ensures r >= 0.0
    decreases hi - lo
  {
    if lo == hi then 0.0 else PathLength(price, lo, hi - 1) + Abs(price[hi] - price[hi - 1])
  }

  /** `abs_diffx.rolling(n).sum()`: undefined until n one-step moves exist. */
  function Volatility(price: seq<real>, n: nat, i: nat): Option<real>
    requires i < |price|
  {
    if i < n then None else Some(PathLength(price, i - n, i))
  }

  /** `abs_price_change / vol`: undefined while the volatility is undefined or zero. */
  function EfficiencyRatio(price: seq<real>, n: nat, i: nat): Option<real>
    requires i < |price|
  {
    match Volatility(price, n, i)
    case None => None
    case Some(vol) => if vol == 0.0 then None else Some(Abs(price[i] - price[i - n]) / vol)
  }

  function Fastest(pow1: nat): real {
    2.0 / (pow1 as real + 1.0)
  }

  function Slowest(pow2: nat): real {
    2.0 / (pow2 as real + 1.0)
  }

  /** `(er * (fastest_sc - slowest_sc) + slowest_sc) ** 2.0`. */
  function SmoothingConstant(price: seq<real>, n: nat, pow1: nat, pow2: nat, i: nat): Option<real>
    requires i < |price|
  {
    match EfficiencyRatio(price, n, i)
    case None => None
    case Some(er) => Some(SquaredBlend(er, Fastest(pow1), Slowest(pow2)))
  }

  /** `er * (f - s) + s`. */
  function Blend(er: real, f: real, s: real): real {
    er * (f - s) + s
  }

  /** `(er * (f - s) + s) ** 2`. */
  function SquaredBlend(er: real, f: real, s: real): real {
    Blend(er, f, s) * Blend(er, f, s)
  }

  /** One recurrence step `prev + sc * (price - prev)`; NaN stays NaN. */
  function Follow(prev: Option<real>, p: real, sc: real): Option<real> {
    match prev
    case None => None
    case Some(a) => Some(a + sc * (p - a))
  }

  /** The loop's state after some iterations: the filled prefix and the `first_value` flag. */
  datatype Fill = Fill(answer: seq<Option<real>>, firstValue: bool)

  /** `answer[i - 1]` as numpy reads it; at i = 0 that is the zero-initialised last slot. */
  function Before(answer: seq<Option<real>>, i: nat): Option<real>
    requires i <= |answer|
  {
    if i == 0 then Some(0.0) else answer[i - 1]
  }

  /** The body of the loop at index i: the value written and the new `first_value`. */
  function Step(price: seq<real>, n: nat, pow1: nat, pow2: nat, i: nat, before: Option<real>, firstValue: bool)
    : (Option<real>, bool)
    requires i < |price|
  {
    if Volatility(price, n, i) == Some(0.0) then
      (Follow(before, price[i], 1.0), firstValue)
    else
      match SmoothingConstant(price, n, pow1, pow2, i)
      case None => (None, firstValue)
      case Some(sc) =>
        if firstValue then (Some(price[i]), false) else (Follow(before, price[i], sc), false)
  }

  /** The loop's state after its first k iterations. */
  function FillUpTo(price: seq<real>, n: nat, pow1: nat, pow2: nat, k: nat): (f: Fill)
    requires k <= |price|
    ensures |f.answer| == k
    decreases k
  {
    if k == 0 then Fill([], true)
    else
      var f := FillUpTo(price, n, pow1, pow2, k - 1);
      var (v, first) := Step(price, n, pow1, pow2, k - 1, Before(f.answer, k - 1), f.firstValue);
      Fill(f.answer + [v], first)
  }

  /** The indicator series the loop returns. */
  function Kama(price: seq<real>, n: nat, pow1: nat, pow2: nat): (r: seq<Option<real>>)
    ensures |r| == |price|
  {
    FillUpTo(price, n, pow1, pow2, |price|).answer
  }

  /** `kaufman_indicator(price, n, pow1, pow2)`: allocate a zeroed array and fill it
      index by index, seeding on the first defined smoothing constant. */
  method KaufmanIndicator(price: seq<real>, n: nat, pow1: nat, pow2: nat) returns (answer: seq<Option<real>>)
    ensures |answer| == |price|
    ensures answer == Kama(price, n, pow1, pow2)
  {
    var a := new Option<real>[|price|](_ => Some(0.0));
    var firstValue := true;
    for i := 0 to |price|
      invariant a[..i] == FillUpTo(price, n, pow1, pow2, i).answer
      invariant firstValue == FillUpTo(price, n, pow1, pow2, i).firstValue
      invariant forall j :: i <= j < a.Length ==> a[j] == Some(0.0)
    {
      var before := if i == 0 then a[a.Length - 1] else a[i - 1];
      var sc := SmoothingConstant(price, n, pow1, pow2, i);
      if Volatility(price, n, i) == Some(0.0) {
        a[i] := Follow(before, price[i], 1.0);
      } else if sc.None? {
        a[i] := None;
      } else if firstValue {
        a[i] := Some(price[i]);
        firstValue := false;
      } else {
        a[i] := Follow(before, price[i], sc.value);
      }
      assert a[..i + 1] == a[..i] + [a[i]];
    }
    answer := a[..];
    assert answer == a[..|price|];
  }

  // ---------------------------------------------------------------------------
  // Properties of the indicator

  /** A later prefix of the loop extends an earlier one: entry i is fixed once written. */
  lemma {:induction false} FillStable(price: seq<real>, n: nat, pow1: nat, pow2: nat, i: nat, k: nat)
    requires i < k <= |price|
    ensures FillUpTo(price, n, pow1, pow2, k).answer[i] == FillUpTo(price, n, pow1, pow2, i + 1).answer[i]
    decreases k
  {
    if k > i + 1 {
      FillStable(price, n, pow1, pow2, i, k - 1);
    }
  }

  /** The straight-line move between two prices never exceeds the path that joins them. */
  lemma {:induction false} TriangleInequality(price: seq<real>, lo: nat, hi: nat)
    requires lo <= hi < |price|
    ensures Abs(price[hi] - price[lo]) <= PathLength(price, lo, hi)
    decreases hi - lo
  {
    if lo < hi {
      TriangleInequality(price, lo, hi - 1);
    }
  }

  /** A non-negative quotient of a numerator no larger than its positive denominator. */
  lemma QuotientInUnitInterval(a: real, v: real)
    requires 0.0 <= a <= v && v > 0.0
    ensures 0.0 <= a / v <= 1.0
  {
    var q := a / v;
    assert q * v == a;
  }

  /** Hence the efficiency ratio, where defined, lies in [0, 1]. */
  lemma EfficiencyRatioInUnitInterval(price: seq<real>, n: nat, i: nat)
    requires i < |price|
    ensures EfficiencyRatio(price, n, i).Some? ==> 0.0 <= EfficiencyRatio(price, n, i).value <= 1.0
  {
    if i >= n {
      var vol := PathLength(price, i - n, i);
      TriangleInequality(price, i - n, i);
      if vol != 0.0 {
        QuotientInUnitInterval(Abs(price[i] - price[i - n]), vol);
      }
    }
  }

  /** 0 <= c <= 1 scales a non-negative amount down. */
  lemma ScaleDown(c: real, x: real)
    requires 0.0 <= c <= 1.0 && x >= 0.0
    ensures 0.0 <= c * x <= x
  {
    assert (1.0 - c) * x >= 0.0;
  }

  /** For periods 1 <= pow1 <= pow2 the constants satisfy 0 < slowest <= fastest <= 1. */
  lemma ConstantsOrdered(pow1: nat, pow2: nat)
    requires 1 <= pow1 <= pow2
    ensures 0.0 < Slowest(pow2) <= Fastest(pow1) <= 1.0
  {
    var x, y := pow1 as real + 1.0, pow2 as real + 1.0;
    var f, s := 2.0 / x, 2.0 / y;
    assert f * x == 2.0 && s * y == 2.0;
    assert 2.0 <= x <= y;
    assert s > 0.0 by {
      if s <= 0.0 { MulNonNeg(-s, y); }
    }
    assert f <= 1.0 by {
      if f > 1.0 { MulNonNeg(f - 1.0, x - 2.0); }
    }
    assert s <= f by {
      MulNonNeg(s, y - x);
      if s > f { MulNonNeg(s - f, x - 2.0); }
    }
  }

  /** Squaring keeps the order of non-negative numbers, and a positive square is positive. */
  lemma SquareMonotone(x: real, y: real)
    requires 0.0 <= x <= y
    ensures x * x <= y * y
    ensures x > 0.0 ==> x * x > 0.0
  {
    assert (y - x) * (y + x) >= 0.0;
  }

  /** A convex combination of s and f lies between them. */
  lemma BlendBetween(er: real, f: real, s: real)
    requires 0.0 <= er <= 1.0 && s <= f
    ensures s <= Blend(er, f, s) <= f
  {
    MulNonNeg(er, f - s);
    MulNonNeg(1.0 - er, f - s);
  }

  /** Squaring a value between two constants in (0, 1] keeps it between their squares. */
  lemma SquareBetween(s: real, b: real, f: real)
    requires 0.0 < s <= b <= f <= 1.0
    ensures s * s <= b * b <= f * f && 0.0 < b * b <= 1.0
  {
    SquareMonotone(s, b);
    SquareMonotone(b, f);
    SquareMonotone(f, 1.0);
  }

  /** A positive blend, squared, is at least the blend times its lower end. */
  lemma SquaredBlendAbove(er: real, f: real, s: real)
    requires 0.0 < s <= Blend(er, f, s)
    ensures 0.0 < s * Blend(er, f, s) <= SquaredBlend(er, f, s)
  {
    MulNonNeg(Blend(er, f, s) - s, Blend(er, f, s));
  }

  /** A blend of two constants in (0, 1], squared, lies between their squares. */
  lemma SquaredBlendBetween(er: real, f: real, s: real)
    requires 0.0 <= er <= 1.0 && 0.0 < s <= f <= 1.0
    ensures s * s <= SquaredBlend(er, f, s) <= f * f && 0.0 < SquaredBlend(er, f, s) <= 1.0
  {
    BlendBetween(er, f, s);
    SquareBetween(s, Blend(er, f, s), f);
    SquaredBlendAbove(er, f, s);
  }

  /** The smoothing constant lies between the squared slowest and fastest constants. */
  lemma SmoothingConstantBounds(price: seq<real>, n: nat, pow1: nat, pow2: nat, i: nat)
    requires i < |price| && 1 <= pow1 <= pow2
    ensures var sc := SmoothingConstant(price, n, pow1, pow2, i);
      sc.Some? ==> Slowest(pow2) * Slowest(pow2) <= sc.value <= Fastest(pow1) * Fastest(pow1)
  {
    var er := EfficiencyRatio(price, n, i);
    if er.Some? {
      EfficiencyRatioInUnitInterval(price, n, i);
      ConstantsOrdered(pow1, pow2);
      SquaredBlendBetween(er.value, Fastest(pow1), Slowest(pow2));
    }
  }

  /** For periods of at least one, the smoothing constant lies within (0, 1]. */
  lemma SmoothingConstantInUnitInterval(price: seq<real>, n: nat, pow1: nat, pow2: nat, i: nat)
    requires i < |price| && 1 <= pow1 <= pow2
    ensures SmoothingConstant(price, n, pow1, pow2, i).Some? ==> 0.0 < SmoothingConstant(price, n, pow1, pow2, i).value <= 1.0
  {
    var er := EfficiencyRatio(price, n, i);
    if er.Some? {
      EfficiencyRatioInUnitInterval(price, n, i);
      ConstantsOrdered(pow1, pow2);
      SquaredBlendBetween(er.value, Fastest(pow1), Slowest(pow2));
    }
  }

  /** Before the seed every entry is undefined; after it the latest entry is defined
      and the window has been filled. */
  lemma {:induction false} SeedInvariant(price: seq<real>, n: nat, pow1: nat, pow2: nat, k: nat)
    requires 1 <= n && k <= |price|
    ensures var f := FillUpTo(price, n, pow1, pow2, k);
      && (f.firstValue ==> forall j :: 0 <= j < k ==> f.answer[j] == None)
      && (!f.firstValue ==> k > n && f.answer[k - 1].Some?)
  {
    if k > 0 {
      SeedInvariant(price, n, pow1, pow2, k - 1);
      var f := FillUpTo(price, n, pow1, pow2, k - 1);
      var i := k - 1;
      if Volatility(price, n, i) == Some(0.0) {
        assert i >= n;
        assert Before(f.answer, i) == f.answer[i - 1];
      }
    }
  }

  /** Every index below the window is undefined: the volatility needs n prior moves. */
  lemma UndefinedBeforeWindow(price: seq<real>, n: nat, pow1: nat, pow2: nat, i: nat)
    requires i < |price| && i < n
    ensures Kama(price, n, pow1, pow2)[i] == None
  {
    FillStable(price, n, pow1, pow2, i, |price|);
  }

  /** The first defined entry (one whose predecessor is undefined) is the price itself. */
  lemma SeedIsPrice(price: seq<real>, n: nat, pow1: nat, pow2: nat, i: nat)
    requires 1 <= n && i < |price|
    requires Kama(price, n, pow1, pow2)[i].Some?
    requires i == 0 || Kama(price, n, pow1, pow2)[i - 1] == None
    ensures Kama(price, n, pow1, pow2)[i] == Some(price[i])
  {
    FillStable(price, n, pow1, pow2, i, |price|);
    if i > 0 {
      FillStable(price, n, pow1, pow2, i - 1, |price|);
      FillStable(price, n, pow1, pow2, i - 1, i);
    }
    SeedInvariant(price, n, pow1, pow2, i);
  }

  /** Zero volatility moves the indicator the full distance to the price, copies an
      undefined predecessor forward, and leaves the seed flag as it was. */
  lemma ZeroVolatilityStep(price: seq<real>, n: nat, pow1: nat, pow2: nat, i: nat)
    requires 1 <= n && i < |price| && Volatility(price, n, i) == Some(0.0)
    ensures i >= 1
    ensures Kama(price, n, pow1, pow2)[i - 1].None? ==> Kama(price, n, pow1, pow2)[i] == None
    ensures Kama(price, n, pow1, pow2)[i - 1].Some? ==> Kama(price, n, pow1, pow2)[i] == Some(price[i])
    ensures FillUpTo(price, n, pow1, pow2, i + 1).firstValue == FillUpTo(price, n, pow1, pow2, i).firstValue
  {
    FillStable(price, n, pow1, pow2, i, |price|);
    FillStable(price, n, pow1, pow2, i - 1, |price|);
    FillStable(price, n, pow1, pow2, i - 1, i);
  }

  /** b lies on the closed segment from a to p. */
  predicate Between(a: real, b: real, p: real) {
    (a <= p ==> a <= b <= p) && (p <= a ==> p <= b <= a)
  }

  /** One recurrence step with a constant in [0, 1] lands between its start and the price. */
  lemma FollowBetween(a: real, p: real, c: real)
    requires 0.0 <= c <= 1.0
    ensures Between(a, a + c * (p - a), p)
  {
    if a <= p {
      MulNonNeg(c, p - a);
      MulNonNeg(1.0 - c, p - a);
    } else {
      MulNonNeg(c, a - p);
      MulNonNeg(1.0 - c, a - p);
    }
  }

  /** A loop step from a defined predecessor that writes a defined value writes one
      between the predecessor and the price (the seed writes the price itself). */
  lemma StepLands(price: seq<real>, n: nat, pow1: nat, pow2: nat, i: nat, before: Option<real>, firstValue: bool)
    requires 1 <= pow1 <= pow2 && i < |price| && before.Some?
    requires Step(price, n, pow1, pow2, i, before, firstValue).0.Some?
    ensures Between(before.value, Step(price, n, pow1, pow2, i, before, firstValue).0.value, price[i])
  {
    var sc := SmoothingConstant(price, n, pow1, pow2, i);
    if Volatility(price, n, i) == Some(0.0) {
      FollowBetween(before.value, price[i], 1.0);
    } else if sc.Some? && !firstValue {
      SmoothingConstantInUnitInterval(price, n, pow1, pow2, i);
      FollowBetween(before.value, price[i], sc.value);
    }
  }

  /** Each defined step lands between the previous indicator value and the price. */
  lemma StepBetween(price: seq<real>, n: nat, pow1: nat, pow2: nat, i: nat)
    requires 1 <= pow1 <= pow2 && 1 <= i < |price|
    requires Kama(price, n, pow1, pow2)[i - 1].Some? && Kama(price, n, pow1, pow2)[i].Some?
    ensures Between(Kama(price, n, pow1, pow2)[i - 1].value, Kama(price, n, pow1, pow2)[i].value, price[i])
  {
    FillStable(price, n, pow1, pow2, i, |price|);
    FillStable(price, n, pow1, pow2, i - 1, |price|);
    FillStable(price, n, pow1, pow2, i - 1, i);
    var f := FillUpTo(price, n, pow1, pow2, i);
    StepLands(price, n, pow1, pow2, i, Before(f.answer, i), f.firstValue);
  }

  /** A flat history has zero volatility once the window is full. */
  lemma {:induction false} FlatPathLength(price: seq<real>, lo: nat, hi: nat)
    requires lo <= hi < |price|
    requires forall j :: 0 <= j < |price| ==> price[j] == price[0]
    ensures PathLength(price, lo, hi) == 0.0
    decreases hi - lo
  {
    if lo < hi {
      FlatPathLength(price, lo, hi - 1);
    }
  }

  /** A constant price series never seeds, so its indicator is undefined everywhere. */
  lemma {:induction false} ConstantSeriesUndefined(price: seq<real>, n: nat, pow1: nat, pow2: nat, k: nat)
    requires 1 <= n && k <= |price|
    requires forall j :: 0 <= j < |price| ==> price[j] == price[0]
    ensures FillUpTo(price, n, pow1, pow2, k).firstValue
    ensures forall j :: 0 <= j < k ==> FillUpTo(price, n, pow1, pow2, k).answer[j] == None
  {
    if k > 0 {
      ConstantSeriesUndefined(price, n, pow1, pow2, k - 1);
      if k - 1 >= n {
        FlatPathLength(price, k - 1 - n, k - 1);
      }
    }
    SeedInvariant(price, n, pow1, pow2, k);
  }

  /** On a non-decreasing price series every defined entry lags the price, and the
      indicator does not fall from one defined entry to the next. */
  lemma {:induction false} RisingSeriesLags(price: seq<real>, n: nat, pow1: nat, pow2: nat, i: nat)
    requires 1 <= n && 1 <= pow1 <= pow2 && i < |price|
    requires forall j :: 0 < j < |price| ==> price[j - 1] <= price[j]
    ensures var a := Kama(price, n, pow1, pow2);
      && (a[i].Some? ==> a[i].value <= price[i])
      && (i >= 1 && a[i - 1].Some? && a[i].Some? ==> a[i - 1].value <= a[i].value)
  {
    var a := Kama(price, n, pow1, pow2);
    if a[i].Some? {
      if i >= 1 && a[i - 1].Some? {
        RisingSeriesLags(price, n, pow1, pow2, i - 1);
        StepBetween(price, n, pow1, pow2, i);
      } else {
        SeedIsPrice(price, n, pow1, pow2, i);
      }
    }
  }
}
