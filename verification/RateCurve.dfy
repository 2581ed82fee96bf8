// Solend supply APR in WAD fixed point: utilization, the three-segment borrow
// curve, the protocol take rate, and the reserve-account adapter in front.
//
// The functions use MulDivFloor, which FixedPoint.MulDivFloorU128 is proved to
// compute, and keep every error branch of the source.
module RateCurve {
  import opened Prelude
  import opened Arith
  import opened FixedPoint

  const WAD: u128 := 1_000_000_000_000_000_000
  const BPS_WAD: u128 := 100_000_000_000_000
  const PERCENT_WAD: u128 := 10_000_000_000_000_000

  datatype Reserve = Reserve(
    availableAmount: u64,
    borrowedAmountWads: u128,
    minBorrowRatePct: u8,
    optimalBorrowRatePct: u8,
    maxBorrowRatePct: u8,
    superMaxBorrowRatePct: u64,
    optimalUtilizationRatePct: u8,
    maxUtilizationRatePct: u8,
    protocolTakeRatePct: u8
  )

  // ---- The source's calculation -------------------------------------------

  function CheckedMul(a: u128, b: u128): Wide {
    Narrow(a * b)
  }

  function CheckedSum(a: u128, b: u128): Wide {
    Narrow(a + b)
  }

  function CheckedSub(a: u128, b: u128): Wide {
    if b <= a then Ok(a - b) else Err(Overflow)
  }

  function PctToWad(percent: u64): Wide {
    CheckedMul(percent, PERCENT_WAD)
  }

  function MulWad(left: u128, right: u128): Wide {
    MulDivFloor(left, right, WAD)
  }

  function DivWad(numerator: u128, denominator: u128): Wide {
    if denominator == 0 then Err(DivisionByZero) else MulDivFloor(numerator, WAD, denominator)
  }

  predicate IsConfigValid(r: Reserve) {
    && r.minBorrowRatePct <= r.optimalBorrowRatePct <= r.maxBorrowRatePct <= r.superMaxBorrowRatePct
    && r.optimalUtilizationRatePct <= r.maxUtilizationRatePct <= 100
    && r.protocolTakeRatePct <= 100
  }

  function UtilizationWad(r: Reserve): Wide {
    if r.borrowedAmountWads == 0 then Ok(0) else
      var availableWads :- CheckedMul(r.availableAmount, WAD);
      var denominator :- CheckedSum(r.borrowedAmountWads, availableWads);
      if denominator == 0 then Ok(0) else DivWad(r.borrowedAmountWads, denominator)
  }

  function CurrentBorrowRateWad(r: Reserve): Wide {
    var utilization :- UtilizationWad(r);
    var optimalUtilization :- PctToWad(r.optimalUtilizationRatePct);
    var maxUtilization :- PctToWad(r.maxUtilizationRatePct);
    if utilization <= optimalUtilization then
      FirstSegment(r, utilization, optimalUtilization)
    else if utilization <= maxUtilization then
      SecondSegment(r, utilization, optimalUtilization, maxUtilization)
    else
      ThirdSegment(r, utilization, maxUtilization)
  }

  function FirstSegment(r: Reserve, utilization: u128, optimalUtilization: u128): Wide {
    var minRate :- PctToWad(r.minBorrowRatePct);
    if optimalUtilization == 0 then Ok(minRate) else
      var normalized :- DivWad(utilization, optimalUtilization);
      var rangePct :- CheckedSub(r.optimalBorrowRatePct, r.minBorrowRatePct);
      var range :- Narrow(rangePct * PERCENT_WAD);
      var scaled :- MulWad(normalized, range);
      CheckedSum(scaled, minRate)
  }

  function SecondSegment(r: Reserve, utilization: u128, optimalUtilization: u128, maxUtilization: u128): Wide {
    var weightNumerator :- CheckedSub(utilization, optimalUtilization);
    var weightDenominator :- CheckedSub(maxUtilization, optimalUtilization);
    if weightDenominator == 0 then PctToWad(r.optimalBorrowRatePct) else
      var weight :- DivWad(weightNumerator, weightDenominator);
      var optimalRate :- PctToWad(r.optimalBorrowRatePct);
      var maxRate :- PctToWad(r.maxBorrowRatePct);
      var range :- CheckedSub(maxRate, optimalRate);
      var scaled :- MulWad(weight, range);
      CheckedSum(scaled, optimalRate)
  }

  function ThirdSegment(r: Reserve, utilization: u128, maxUtilization: u128): Wide {
    var weightNumerator :- CheckedSub(utilization, maxUtilization);
    var weightDenominator :- CheckedSub(WAD, maxUtilization);
    if weightDenominator == 0 then PctToWad(r.superMaxBorrowRatePct) else
      var weight :- DivWad(weightNumerator, weightDenominator);
      var maxRate :- PctToWad(r.maxBorrowRatePct);
      var superMaxRate :- PctToWad(r.superMaxBorrowRatePct);
      var range :- CheckedSub(superMaxRate, maxRate);
      var scaled :- MulWad(weight, range);
      CheckedSum(scaled, maxRate)
  }

  function SupplyAprWad(r: Reserve): Wide {
    if !IsConfigValid(r) then Err(InvalidConfig) else
      var utilization :- UtilizationWad(r);
      var borrowRate :- CurrentBorrowRateWad(r);
      var takeRate :- PctToWad(r.protocolTakeRatePct);
      var oneMinusTake :- CheckedSub(WAD, takeRate);
      var afterTake :- MulWad(utilization, oneMinusTake);
      MulWad(borrowRate, afterTake)
  }

  // ---- Independent reference: the curve as mathematics --------------------

  /** floor(a * b / d). */
  function Scale(a: nat, b: nat, d: nat): nat
    requires d > 0
  {
    DivNonNegative(a * b, d);
    a * b / d
  }

  /** Linear interpolation from (lo, rateLo) to (hi, rateHi) with both of the
      curve's roundings: the weight to a WAD, the scaled range to a unit. */
  function Interpolate(u: nat, lo: nat, hi: nat, rateLo: nat, rateHi: nat): nat
    requires lo <= u && lo < hi && rateLo <= rateHi
  {
    rateLo + Scale(Scale(u - lo, WAD, hi - lo), rateHi - rateLo, WAD)
  }

  /** The piecewise curve over utilization, with no error case. */
  function Curve(r: Reserve, u: nat): nat
    requires IsConfigValid(r) && u <= WAD
  {
    var optimal, kink := r.optimalUtilizationRatePct * PERCENT_WAD, r.maxUtilizationRatePct * PERCENT_WAD;
    if u <= optimal && optimal == 0 then
      r.minBorrowRatePct * PERCENT_WAD
    else if u <= optimal then
      Interpolate(u, 0, optimal, r.minBorrowRatePct * PERCENT_WAD, r.optimalBorrowRatePct * PERCENT_WAD)
    else if u <= kink then
      Interpolate(u, optimal, kink, r.optimalBorrowRatePct * PERCENT_WAD, r.maxBorrowRatePct * PERCENT_WAD)
    else
      Interpolate(u, kink, WAD, r.maxBorrowRatePct * PERCENT_WAD, r.superMaxBorrowRatePct * PERCENT_WAD)
  }

  /** The only input on which the calculation can fail once the config is
      valid: something is borrowed and total liquidity leaves the u128 range. */
  predicate LiquidityOverflows(r: Reserve) {
    r.borrowedAmountWads > 0 && r.borrowedAmountWads + r.availableAmount * WAD >= TWO_128
  }

  /** Share of liquidity lent out, floored to a WAD. */
  function Utilization(r: Reserve): nat {
    if r.borrowedAmountWads == 0 then 0
    else Scale(r.borrowedAmountWads, WAD, r.borrowedAmountWads + r.availableAmount * WAD)
  }

  // ---- Units and configs ------------------------------------------------------

  /** Rates are fractions of 10^18: one percent is a hundredth of the whole, one basis
      point a hundredth of that. */
  lemma Units()
    ensures WAD == 1_000_000_000_000_000_000 && 100 * PERCENT_WAD == WAD && 100 * BPS_WAD == PERCENT_WAD
  {
  }

  predicate Ascending(s: seq<nat>) {
    forall i, j :: 0 <= i < j < |s| ==> s[i] <= s[j]
  }

  /** A config is valid exactly when the points of its curve ascend in both coordinates,
      none beyond full utilization, and the protocol takes no more than everything. */
  lemma ConfigValidIff(r: Reserve)
    ensures
      IsConfigValid(r) <==>
        && Ascending([r.minBorrowRatePct, r.optimalBorrowRatePct, r.maxBorrowRatePct, r.superMaxBorrowRatePct])
        && Ascending([0, r.optimalUtilizationRatePct, r.maxUtilizationRatePct, 100])
        && Ascending([r.protocolTakeRatePct, 100])
  {
    var rates: seq<nat> := [r.minBorrowRatePct, r.optimalBorrowRatePct, r.maxBorrowRatePct, r.superMaxBorrowRatePct];
    var kinks: seq<nat> := [0, r.optimalUtilizationRatePct, r.maxUtilizationRatePct, 100];
    var take: seq<nat> := [r.protocolTakeRatePct, 100];
    if Ascending(rates) && Ascending(kinks) && Ascending(take) {
      assert rates[0] <= rates[1] <= rates[2] <= rates[3];
      assert kinks[1] <= kinks[2] <= kinks[3] && take[0] <= take[1];
    }
  }

  // ---- Scaling facts --------------------------------------------------------

  lemma ScaleBound(a: nat, b: nat, d: nat)
    requires d > 0 && a <= d
    ensures Scale(a, b, d) <= b
  {
    MulMono(a, d, b);
    DivMono(a * b, d * b, d);
    DivShift(b, 0, d);
    assert d * b == b * d + 0;
    DivUnique(0, d, 0);
  }

  lemma ScaleFull(b: nat, d: nat)
    requires d > 0
    ensures Scale(d, b, d) == b
  {
    assert d * b == b * d;
    DivUnique(d * b, d, b);
  }

  lemma ScaleMono(a: nat, a': nat, b: nat, b': nat, d: nat)
    requires d > 0 && a <= a' && b <= b'
    ensures Scale(a, b, d) <= Scale(a', b', d)
  {
    MulMono(a, a', b);
    MulMono(b, b', a');
    assert a' * b == b * a' && a' * b' == b' * a';
    DivMono(a * b, a' * b', d);
  }

  /** Comparing fractions by cross multiplication survives flooring. */
  lemma FractionMono(n: nat, d: nat, n': nat, d': nat)
    requires d > 0 && d' > 0 && n * d' <= n' * d
    ensures n / d <= n' / d'
  {
    var q, q' := n / d, n' / d';
    DivNonNegative(n, d);
    DivNonNegative(n', d');
    DivDef(n, d);
    DivDef(n', d');
    if q > q' {
      MulMono(q' + 1, q, d');
      assert (q' + 1) * d' == q' * d' + d';
      MulMonoStrict(n', q * d', d);
      MulMono(q * d, n, d');
      assert q * d' * d == q * d * d' by { MulAssoc(q, d', d); MulAssoc(q, d, d'); assert d * d' == d' * d; }
      assert false;
    }
  }

  // ---- The curve -------------------------------------------------------------

  /** Interpolation stays between its end rates. */
  lemma InterpolateBounds(u: nat, lo: nat, hi: nat, rateLo: nat, rateHi: nat)
    requires lo <= u <= hi && lo < hi && rateLo <= rateHi
    ensures Scale(u - lo, WAD, hi - lo) <= WAD
    ensures rateLo <= Interpolate(u, lo, hi, rateLo, rateHi) <= rateHi
  {
    ScaleBound(u - lo, WAD, hi - lo);
    ScaleBound(Scale(u - lo, WAD, hi - lo), rateHi - rateLo, WAD);
  }

  lemma InterpolateMono(u: nat, v: nat, lo: nat, hi: nat, rateLo: nat, rateHi: nat)
    requires lo <= u <= v && lo < hi && rateLo <= rateHi
    ensures Interpolate(u, lo, hi, rateLo, rateHi) <= Interpolate(v, lo, hi, rateLo, rateHi)
  {
    ScaleMono(u - lo, v - lo, WAD, WAD, hi - lo);
    ScaleMono(Scale(u - lo, WAD, hi - lo), Scale(v - lo, WAD, hi - lo), rateHi - rateLo, rateHi - rateLo, WAD);
  }

  /** Every rate on the curve lies between the minimum and super-maximum. */
  lemma CurveBounds(r: Reserve, u: nat)
    requires IsConfigValid(r) && u <= WAD
    ensures r.minBorrowRatePct * PERCENT_WAD <= Curve(r, u) <= r.superMaxBorrowRatePct * PERCENT_WAD
  {
    var optimal, kink := r.optimalUtilizationRatePct * PERCENT_WAD, r.maxUtilizationRatePct * PERCENT_WAD;
    var low, mid, high, top := r.minBorrowRatePct * PERCENT_WAD, r.optimalBorrowRatePct * PERCENT_WAD,
                               r.maxBorrowRatePct * PERCENT_WAD, r.superMaxBorrowRatePct * PERCENT_WAD;
    if u <= optimal {
      if optimal != 0 {
        InterpolateBounds(u, 0, optimal, low, mid);
      }
    } else if u <= kink {
      InterpolateBounds(u, optimal, kink, mid, high);
    } else {
      InterpolateBounds(u, kink, WAD, high, top);
    }
  }

  /** The curve never falls as utilization grows, across both kinks. */
  lemma CurveMonotone(r: Reserve, u: nat, v: nat)
    requires IsConfigValid(r) && u <= v <= WAD
    ensures Curve(r, u) <= Curve(r, v)
  {
    var optimal, kink := r.optimalUtilizationRatePct * PERCENT_WAD, r.maxUtilizationRatePct * PERCENT_WAD;
    var low, mid, high, top := r.minBorrowRatePct * PERCENT_WAD, r.optimalBorrowRatePct * PERCENT_WAD,
                               r.maxBorrowRatePct * PERCENT_WAD, r.superMaxBorrowRatePct * PERCENT_WAD;
    if v <= optimal {
      if optimal != 0 {
        InterpolateMono(u, v, 0, optimal, low, mid);
      }
    } else if u <= optimal {
      if optimal != 0 {
        InterpolateBounds(u, 0, optimal, low, mid);
      }
      if v <= kink {
        InterpolateBounds(v, optimal, kink, mid, high);
      } else {
        InterpolateBounds(v, kink, WAD, high, top);
      }
    } else if v <= kink {
      InterpolateMono(u, v, optimal, kink, mid, high);
    } else if u <= kink {
      InterpolateBounds(u, optimal, kink, mid, high);
      InterpolateBounds(v, kink, WAD, high, top);
    } else {
      InterpolateMono(u, v, kink, WAD, high, top);
    }
  }

  /** Interpolation starts and ends exactly on the end rates, without rounding loss. */
  lemma InterpolateEnds(lo: nat, hi: nat, rateLo: nat, rateHi: nat)
    requires lo < hi && rateLo <= rateHi
    ensures Interpolate(lo, lo, hi, rateLo, rateHi) == rateLo
    ensures Interpolate(hi, lo, hi, rateLo, rateHi) == rateHi
  {
    ScaleFull(WAD, hi - lo);
    ScaleFull(rateHi - rateLo, WAD);
    DivUnique(0, hi - lo, 0);
    DivUnique(0, WAD, 0);
  }

  /** The curve passes through its configured points: every segment of positive width ends
      on its upper rate, so two such segments meet without a jump. */
  lemma CurvePoints(r: Reserve)
    requires IsConfigValid(r)
    ensures
      var optimal, kink := r.optimalUtilizationRatePct * PERCENT_WAD, r.maxUtilizationRatePct * PERCENT_WAD;
      && Curve(r, 0) == r.minBorrowRatePct * PERCENT_WAD
      && (0 < optimal ==> Curve(r, optimal) == r.optimalBorrowRatePct * PERCENT_WAD)
      && (optimal < kink ==> Curve(r, kink) == r.maxBorrowRatePct * PERCENT_WAD)
      && (kink < WAD ==> Curve(r, WAD) == r.superMaxBorrowRatePct * PERCENT_WAD)
  {
    var optimal, kink := r.optimalUtilizationRatePct * PERCENT_WAD, r.maxUtilizationRatePct * PERCENT_WAD;
    var low, mid, high, top := r.minBorrowRatePct * PERCENT_WAD, r.optimalBorrowRatePct * PERCENT_WAD,
                               r.maxBorrowRatePct * PERCENT_WAD, r.superMaxBorrowRatePct * PERCENT_WAD;
    if 0 < optimal {
      InterpolateEnds(0, optimal, low, mid);
    }
    if optimal < kink {
      InterpolateEnds(optimal, kink, mid, high);
    }
    if kink < WAD {
      InterpolateEnds(kink, WAD, high, top);
    }
  }

  /** The same points in percent of the whole, at whatever utilization reaches them: at the
      optimal utilization the curve gives the optimal rate, at the second kink the maximum,
      and at full utilization the super-maximum. */
  lemma CurveInPercent(r: Reserve, u: nat)
    requires IsConfigValid(r) && u <= 1_000_000_000_000_000_000
    ensures u <= WAD
    ensures u == 0 ==> Curve(r, u) * 100 == r.minBorrowRatePct * 1_000_000_000_000_000_000
    ensures
      u > 0 && u * 100 == r.optimalUtilizationRatePct * 1_000_000_000_000_000_000 ==>
        Curve(r, u) * 100 == r.optimalBorrowRatePct * 1_000_000_000_000_000_000
    ensures
      r.optimalUtilizationRatePct < r.maxUtilizationRatePct
      && u * 100 == r.maxUtilizationRatePct * 1_000_000_000_000_000_000 ==>
        Curve(r, u) * 100 == r.maxBorrowRatePct * 1_000_000_000_000_000_000
    ensures
      r.maxUtilizationRatePct < 100 && u == 1_000_000_000_000_000_000 ==>
        Curve(r, u) * 100 == r.superMaxBorrowRatePct * 1_000_000_000_000_000_000
  {
    CurvePoints(r);
  }

  /** exact - rate lies in [0, range / WAD + 1), where `exact` is the rational
      value of the straight line at u; everything is multiplied by
      (hi - lo) * WAD so that no division is left. */
  ghost predicate JustBelowLine(rate: nat, u: nat, lo: nat, hi: nat, rateLo: nat, rateHi: nat)
    requires lo <= u && lo < hi && rateLo <= rateHi
  {
    rate >= rateLo &&
    var range, width, rise := rateHi - rateLo, hi - lo, rate - rateLo;
    && rise * width <= range * (u - lo)
    && range * (u - lo) * WAD < (rise + 1) * width * WAD + range * width
  }

  /** Both roundings together lose less than range / WAD + 1 units. */
  lemma InterpolateAccuracy(u: nat, lo: nat, hi: nat, rateLo: nat, rateHi: nat)
    requires lo <= u && lo < hi && rateLo <= rateHi
    ensures JustBelowLine(Interpolate(u, lo, hi, rateLo, rateHi), u, lo, hi, rateLo, rateHi)
  {
    TwoRoundings(u - lo, hi - lo, rateHi - rateLo, WAD);
  }

  lemma TwoRoundings(x: nat, width: nat, range: nat, wad: nat)
    requires width > 0 && wad > 0
    ensures Scale(Scale(x, wad, width), range, wad) * width <= range * x
    ensures
      range * x * wad < (Scale(Scale(x, wad, width), range, wad) + 1) * width * wad + range * width
  {
    var w := Scale(x, wad, width);
    DivDef(x * wad, width);
    DivDef(w * range, wad);
    RoundedBelow(x, width, range, wad, w, Scale(w, range, wad));
    RoundedAbove(x, width, range, wad, w, Scale(w, range, wad));
  }

  lemma RoundedBelow(x: nat, width: nat, range: nat, wad: nat, w: nat, s: nat)
    requires wad > 0 && w * width <= x * wad && s * wad <= w * range
    ensures s * width <= range * x
  {
    calc {
      s * width * wad;
    ==  { MulSwap(s, width, wad); }
      s * wad * width;
    <=  { MulMono(s * wad, w * range, width); }
      w * range * width;
    ==  { MulSwap(w, range, width); }
      w * width * range;
    <=  { MulMono(w * width, x * wad, range); }
      x * wad * range;
    ==  { MulSwap(x, wad, range); }
      x * range * wad;
    }
    assert x * range == range * x;
    CancelFactor(s * width, range * x, wad);
  }

  lemma RoundedAbove(x: nat, width: nat, range: nat, wad: nat, w: nat, s: nat)
    requires width > 0 && x * wad <= w * width + width && w * range < s * wad + wad
    ensures range * x * wad < (s + 1) * width * wad + range * width
  {
    assert range * x == x * range && range * width == width * range;
    calc {
      range * x * wad;
    ==  { MulSwap(x, range, wad); }
      x * wad * range;
    <=  { MulMono(x * wad, w * width + width, range); }
      (w * width + width) * range;
    ==  { Distribute(w * width, width, range); MulSwap(w, width, range); }
      w * range * width + range * width;
    }
    MulMonoStrict(w * range, (s + 1) * wad, width);
    MulSwap(s + 1, wad, width);
  }

  lemma Distribute(a: nat, b: nat, c: nat)
    ensures (a + b) * c == a * c + b * c
  {
  }

  lemma MulSwap(a: nat, b: nat, c: nat)
    ensures a * b * c == a * c * b
  {
    MulAssoc(a, b, c);
    MulAssoc(a, c, b);
    assert c * b == b * c;
  }

  lemma CancelFactor(a: nat, b: nat, c: nat)
    requires c > 0 && a * c <= b * c
    ensures a <= b
  {
    if a > b {
      MulMonoStrict(b, a, c);
      assert false;
    }
  }

  /** The rate handed out is just below the straight line of its segment. */
  lemma CurveAccuracy(r: Reserve, u: nat)
    requires IsConfigValid(r) && u <= WAD
    ensures
      var optimal, kink := r.optimalUtilizationRatePct * PERCENT_WAD, r.maxUtilizationRatePct * PERCENT_WAD;
      var low, mid, high, top := r.minBorrowRatePct * PERCENT_WAD, r.optimalBorrowRatePct * PERCENT_WAD,
                                 r.maxBorrowRatePct * PERCENT_WAD, r.superMaxBorrowRatePct * PERCENT_WAD;
      && (u <= optimal && optimal == 0 ==> Curve(r, u) == low)
      && (u <= optimal && optimal > 0 ==> JustBelowLine(Curve(r, u), u, 0, optimal, low, mid))
      && (optimal < u <= kink ==> JustBelowLine(Curve(r, u), u, optimal, kink, mid, high))
      && (kink < u ==> JustBelowLine(Curve(r, u), u, kink, WAD, high, top))
  {
    var optimal, kink := r.optimalUtilizationRatePct * PERCENT_WAD, r.maxUtilizationRatePct * PERCENT_WAD;
    var low, mid, high, top := r.minBorrowRatePct * PERCENT_WAD, r.optimalBorrowRatePct * PERCENT_WAD,
                               r.maxBorrowRatePct * PERCENT_WAD, r.superMaxBorrowRatePct * PERCENT_WAD;
    if u <= optimal {
      if optimal != 0 {
        InterpolateAccuracy(u, 0, optimal, low, mid);
      }
    } else if u <= kink {
      InterpolateAccuracy(u, optimal, kink, mid, high);
    } else {
      InterpolateAccuracy(u, kink, WAD, high, top);
    }
  }

  // ---- The source's calculation is the curve -------------------------------

  lemma UtilizationExact(r: Reserve)
    ensures UtilizationWad(r) == if LiquidityOverflows(r) then Err(Overflow) else Ok(Utilization(r))
    ensures Utilization(r) <= WAD
  {
    if r.borrowedAmountWads > 0 {
      ScaleBound(r.borrowedAmountWads, WAD, r.borrowedAmountWads + r.availableAmount * WAD);
    }
  }

  /** One segment of the source, written with its checked operations, is
      Interpolate: no error and no zero denominator can occur. */
  lemma SegmentExact(u: u128, lo: u128, hi: u128, rateLo: u128, rateHi: u128)
    requires lo <= u <= hi && lo < hi && rateLo <= rateHi
    ensures DivWad(u - lo, hi - lo) == Ok(Scale(u - lo, WAD, hi - lo))
    ensures Scale(u - lo, WAD, hi - lo) <= WAD
    ensures MulWad(Scale(u - lo, WAD, hi - lo), rateHi - rateLo)
              == Ok(Interpolate(u, lo, hi, rateLo, rateHi) - rateLo)
    ensures CheckedSum(Interpolate(u, lo, hi, rateLo, rateHi) - rateLo, rateLo)
              == Ok(Interpolate(u, lo, hi, rateLo, rateHi))
  {
    InterpolateBounds(u, lo, hi, rateLo, rateHi);
  }

  /** Whatever the config, the calculation gives the curve at the utilization;
      none of its other Overflow, DivisionByZero or zero-weight branches is
      taken. */
  lemma BorrowRateExact(r: Reserve)
    requires IsConfigValid(r)
    ensures Utilization(r) <= WAD
    ensures CurrentBorrowRateWad(r)
              == if LiquidityOverflows(r) then Err(Overflow) else Ok(Curve(r, Utilization(r)))
  {
    UtilizationExact(r);
    var u := Utilization(r);
    if !LiquidityOverflows(r) {
      var optimal, kink := r.optimalUtilizationRatePct * PERCENT_WAD, r.maxUtilizationRatePct * PERCENT_WAD;
      if u <= optimal {
        if optimal != 0 {
          SegmentExact(u, 0, optimal, r.minBorrowRatePct * PERCENT_WAD, r.optimalBorrowRatePct * PERCENT_WAD);
        }
      } else if u <= kink {
        SegmentExact(u, optimal, kink, r.optimalBorrowRatePct * PERCENT_WAD, r.maxBorrowRatePct * PERCENT_WAD);
      } else {
        SegmentExact(u, kink, WAD, r.maxBorrowRatePct * PERCENT_WAD, r.superMaxBorrowRatePct * PERCENT_WAD);
      }
    }
  }

  /** Supply APR as mathematics. */
  function SupplyApr(r: Reserve): nat
    requires IsConfigValid(r)
  {
    UtilizationExact(r);
    Scale(Curve(r, Utilization(r)), Scale(Utilization(r), WAD - r.protocolTakeRatePct * PERCENT_WAD, WAD), WAD)
  }

  /** The calculation fails in exactly two ways, and otherwise is SupplyApr. */
  lemma SupplyAprExact(r: Reserve)
    ensures SupplyAprWad(r)
              == if !IsConfigValid(r) then Err(InvalidConfig)
                 else if LiquidityOverflows(r) then Err(Overflow)
                 else Ok(SupplyApr(r))
  {
    if IsConfigValid(r) && !LiquidityOverflows(r) {
      UtilizationExact(r);
      BorrowRateExact(r);
      var u, keep := Utilization(r), WAD - r.protocolTakeRatePct * PERCENT_WAD;
      ScaleBound(u, keep, WAD);
      CurveBounds(r, u);
      ScaleBoundRight(Curve(r, u), Scale(u, keep, WAD), WAD);
    }
  }

  lemma ScaleBoundRight(a: nat, b: nat, d: nat)
    requires d > 0 && b <= d
    ensures Scale(a, b, d) <= a
  {
    assert a * b == b * a;
    ScaleBound(b, a, d);
  }

  /** With everything lent out below a full second kink, suppliers earn the super-maximum
      rate less the protocol's share, to the basis point and without rounding. */
  lemma FullyLentOut(r: Reserve)
    requires IsConfigValid(r) && r.availableAmount == 0 && r.borrowedAmountWads > 0 && r.maxUtilizationRatePct < 100
    ensures SupplyAprWad(r).Ok?
    ensures
      SupplyAprWad(r).value * 10_000
      == r.superMaxBorrowRatePct * (100 - r.protocolTakeRatePct) * 1_000_000_000_000_000_000
  {
    SupplyAprExact(r);
    UtilizationExact(r);
    var keep := (100 - r.protocolTakeRatePct) * PERCENT_WAD;
    ScaleFull(WAD, r.borrowedAmountWads);
    ScaleFull(keep, WAD);
    CurvePoints(r);
    assert SupplyApr(r) == Scale(r.superMaxBorrowRatePct * PERCENT_WAD, keep, WAD);
    PercentOfPercent(r.superMaxBorrowRatePct, 100 - r.protocolTakeRatePct);
  }

  /** Percents of percents are basis points. */
  lemma PercentOfPercent(a: nat, b: nat)
    ensures Scale(a * PERCENT_WAD, b * PERCENT_WAD, WAD) == a * b * BPS_WAD
  {
    var x, y := a * PERCENT_WAD, b * PERCENT_WAD;
    assert x * y == a * b * BPS_WAD * WAD by {
      MulSwap(a, PERCENT_WAD, y);
      assert a * y == a * b * PERCENT_WAD by { MulAssoc(a, b, PERCENT_WAD); assert PERCENT_WAD * b == b * PERCENT_WAD; }
    }
    MulNonNegative(a, b);
    MulNonNegative(a * b, BPS_WAD);
    DivUnique(x * y, WAD, a * b * BPS_WAD);
  }

  /** Nothing is earned when nothing is lent out or when the protocol takes everything. */
  lemma NothingEarned(r: Reserve)
    requires IsConfigValid(r) && !LiquidityOverflows(r)
    requires r.borrowedAmountWads == 0 || r.protocolTakeRatePct == 100
    ensures SupplyAprWad(r) == Ok(0)
  {
    SupplyAprExact(r);
    UtilizationExact(r);
    var u, keep := Utilization(r), WAD - r.protocolTakeRatePct * PERCENT_WAD;
    ScaleOfNothing(u, keep, WAD);
    ScaleOfNothing(Curve(r, u), Scale(u, keep, WAD), WAD);
  }

  lemma ScaleOfNothing(a: nat, b: nat, d: nat)
    requires d > 0
    ensures a == 0 || b == 0 ==> Scale(a, b, d) == 0
  {
    if a == 0 || b == 0 {
      assert a * b == 0;
      DivUnique(0, d, 0);
    }
  }

  /** Same curve, at least as much borrowed, at most as much available. */
  ghost predicate AtLeastAsUtilized(r: Reserve, r': Reserve) {
    && r' == r.(availableAmount := r'.availableAmount, borrowedAmountWads := r'.borrowedAmountWads)
    && r.borrowedAmountWads <= r'.borrowedAmountWads
    && r'.availableAmount <= r.availableAmount
  }

  lemma UtilizationMonotone(r: Reserve, r': Reserve)
    requires AtLeastAsUtilized(r, r')
    ensures Utilization(r) <= Utilization(r')
  {
    if r.borrowedAmountWads > 0 {
      var b, c := r.borrowedAmountWads, r.availableAmount * WAD;
      var b', c' := r'.borrowedAmountWads, r'.availableAmount * WAD;
      MulMono(c', c, b);
      MulMono(b, b', c);
      assert b * (b' + c') <= b' * (b + c) by {
        assert b * (b' + c') == b * b' + c' * b;
        assert b' * (b + c) == b * b' + b' * c;
        assert c * b == b * c;
      }
      ShareMono(b, b + c, b', b' + c', WAD);
    }
  }

  lemma ShareMono(b: nat, d: nat, b': nat, d': nat, wad: nat)
    requires d > 0 && d' > 0 && b * d' <= b' * d
    ensures Scale(b, wad, d) <= Scale(b', wad, d')
  {
    MulMono(b * d', b' * d, wad);
    MulSwap(b, d', wad);
    MulSwap(b', d, wad);
    FractionMono(b * wad, d, b' * wad, d');
  }

  /** Supply APR never falls when more is borrowed or less is available. */
  lemma SupplyAprMonotone(r: Reserve, r': Reserve)
    requires AtLeastAsUtilized(r, r')
    requires SupplyAprWad(r).Ok? && SupplyAprWad(r').Ok?
    ensures SupplyAprWad(r).value <= SupplyAprWad(r').value
  {
    SupplyAprExact(r);
    SupplyAprExact(r');
    UtilizationExact(r);
    UtilizationExact(r');
    UtilizationMonotone(r, r');
    CurveMonotone(r, Utilization(r), Utilization(r'));
    var keep := WAD - r.protocolTakeRatePct * PERCENT_WAD;
    ScaleMono(Utilization(r), Utilization(r'), keep, keep, WAD);
    ScaleMono(Curve(r, Utilization(r)), Curve(r', Utilization(r')),
              Scale(Utilization(r), keep, WAD), Scale(Utilization(r'), keep, WAD), WAD);
  }

  /** Past a kink the segment has positive width, so the guards against a zero
      weight denominator never fire. */
  lemma ZeroWidthsUnreachable(r: Reserve)
    requires IsConfigValid(r) && UtilizationWad(r).Ok?
    ensures
      var u := UtilizationWad(r).value;
      && PctToWad(r.optimalUtilizationRatePct).Ok? && PctToWad(r.maxUtilizationRatePct).Ok?
      && var optimal, max := PctToWad(r.optimalUtilizationRatePct).value, PctToWad(r.maxUtilizationRatePct).value;
         && (optimal < u <= max ==> max - optimal > 0)
         && (max < u && optimal < u ==> WAD - max > 0)
         && (r.borrowedAmountWads > 0 ==> r.borrowedAmountWads + r.availableAmount * WAD > 0)
  {
    UtilizationExact(r);
  }
}
