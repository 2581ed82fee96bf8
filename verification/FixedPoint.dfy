// The u128 x u128 -> u256 multiply-divide engine behind the WAD arithmetic.
//
// Every u128 operation of the source is written with its machine meaning:
// `<<` drops the bits shifted out, `wrapping_*` reduces modulo 2^128, and a
// plain `*` is a value of the subset type u128, so its range is checked.
module FixedPoint {
  import opened Prelude
  import opened Arith

  datatype AprMathError = InvalidConfig | Overflow | DivisionByZero

  type Wide = Result<u128, AprMathError>

  // ---- What the engine is for -------------------------------------------

  /** floor(left * right / divisor) over the unbounded integers, or the error
      the engine reports when that number does not exist or does not fit. */
  function MulDivFloor(left: u128, right: u128, divisor: u128): Wide {
    if divisor == 0 then Err(DivisionByZero)
    else DivNonNegative(left * right, divisor); Narrow(left * right / divisor)
  }

  /** A value as a u128, if it is one. */
  function Narrow(q: nat): Wide {
    if q < TWO_128 then Ok(q) else Err(Overflow)
  }

  // ---- Powers of two ------------------------------------------------------

  function Pow2(n: nat): (p: nat)
    ensures p > 0
  {
    if n == 0 then 1 else 2 * Pow2(n - 1)
  }

  lemma {:induction false} Pow2Add(a: nat, b: nat)
    ensures Pow2(a + b) == Pow2(a) * Pow2(b)
  {
    if a == 0 {
    } else {
      Pow2Add(a - 1, b);
      assert Pow2(a + b) == 2 * Pow2(a - 1 + b);
      assert 2 * (Pow2(a - 1) * Pow2(b)) == (2 * Pow2(a - 1)) * Pow2(b);
    }
  }

  lemma Pow2Of32()
    ensures Pow2(32) == TWO_32
  {
    assert Pow2(8) == 0x100 by {
      assert Pow2(4) == 16;
      Pow2Add(4, 4);
    }
    Pow2Add(8, 8);
    Pow2Add(16, 16);
  }

  lemma Pow2Of128()
    ensures Pow2(128) == TWO_128
  {
    Pow2Of32();
    Pow2Add(32, 32);
    Pow2Add(64, 64);
  }

  // ---- The limb product ---------------------------------------------------

  datatype U256 = U256(high: u128, low: u128) {
    function Value(): nat {
      high * TWO_128 + low
    }
  }

  function CheckedAdd(a: u128, b: u128): Option<u128> {
    if a + b < TWO_128 then Some(a + b) else None
  }

  lemma LimbBound(a: nat, b: nat)
    requires a < TWO_64 && b < TWO_64
    ensures a * b <= (TWO_64 - 1) * (TWO_64 - 1)
    ensures a * b < TWO_128
  {
    MulMono(a, TWO_64 - 1, b);
    MulMono(b, TWO_64 - 1, TWO_64 - 1);
  }

  function LimbMul(a: nat, b: nat): u128
    requires a < TWO_64 && b < TWO_64
  {
    LimbBound(a, b);
    MulNonNegative(a, b);
    a * b
  }

  /** Schoolbook product on 64-bit limbs. `None` stands for any of the three
      checked additions on the high word overflowing. */
  function LimbProduct(left: u128, right: u128): Option<U256> {
    var leftLow, leftHigh := left % TWO_64, left / TWO_64;
    var rightLow, rightHigh := right % TWO_64, right / TWO_64;
    CombineLimbs(LimbMul(leftLow, rightLow), LimbMul(leftLow, rightHigh), LimbMul(leftHigh, rightLow),
                 LimbMul(leftHigh, rightHigh))
  }

  /** The four partial products put together, with their carries. */
  function CombineLimbs(lowLow: u128, lowHigh: u128, highLow: u128, highHigh: u128): Option<U256> {
    var middle := (lowHigh + highLow) % TWO_128;
    var middleCarry := if middle < lowHigh then TWO_64 else 0;
    var middleLow := middle * TWO_64 % TWO_128;
    var middleHigh := middle / TWO_64;
    var low := (lowLow + middleLow) % TWO_128;
    var lowCarry := if lowLow + middleLow >= TWO_128 then 1 else 0;
    match CheckedAdd(highHigh, middleHigh)
    case None => None
    case Some(h0) =>
      match CheckedAdd(h0, lowCarry)
      case None => None
      case Some(h1) =>
        match CheckedAdd(h1, middleCarry)
        case None => None
        case Some(high) => Some(U256(high, low))
  }

  lemma LimbExpansion(a: nat, b: nat, c: nat, d: nat, w: nat)
    ensures (a * w + b) * (c * w + d) == a * c * w * w + (b * c + a * d) * w + b * d
  {
  }

  /** The limb product is the exact product, so none of the checked additions
      on the high word can ever fail. */
  lemma LimbProductExact(left: u128, right: u128)
    ensures LimbProduct(left, right).Some?
    ensures LimbProduct(left, right).value.Value() == left * right
  {
    var ll, lh := left % TWO_64, left / TWO_64;
    var rl, rh := right % TWO_64, right / TWO_64;
    DivDef(left, TWO_64);
    DivDef(right, TWO_64);
    LimbExpansion(lh, ll, rh, rl, TWO_64);
    LimbBound(ll, rl);
    LimbBound(ll, rh);
    LimbBound(lh, rl);
    LimbBound(lh, rh);
    CombinedLimbs(LimbMul(ll, rl), LimbMul(ll, rh), LimbMul(lh, rl), LimbMul(lh, rh));
  }

  lemma CombinedLimbs(lowLow: u128, lowHigh: u128, highLow: u128, highHigh: u128)
    requires lowLow <= (TWO_64 - 1) * (TWO_64 - 1) && lowHigh <= (TWO_64 - 1) * (TWO_64 - 1)
    requires highLow <= (TWO_64 - 1) * (TWO_64 - 1) && highHigh <= (TWO_64 - 1) * (TWO_64 - 1)
    ensures CombineLimbs(lowLow, lowHigh, highLow, highHigh).Some?
    ensures
      CombineLimbs(lowLow, lowHigh, highLow, highHigh).value.Value()
      == highHigh * TWO_64 * TWO_64 + (lowHigh + highLow) * TWO_64 + lowLow
  {
    HighWordFits(lowLow, lowHigh, highLow, highHigh);
  }

  /** The carry out of the middle sum is read off one comparison. */
  lemma MiddleCarry(lowHigh: nat, highLow: nat)
    requires lowHigh < TWO_128 && highLow < TWO_128
    ensures
      var middle := (lowHigh + highLow) % TWO_128;
      lowHigh + highLow == middle + if middle < lowHigh then TWO_128 else 0
  {
    DivUnique(lowHigh + highLow, TWO_128, if lowHigh + highLow < TWO_128 then 0 else 1);
  }

  /** Shifting a word left by half of it keeps its lower half only. */
  lemma ShiftedHalf(middle: nat)
    requires middle < TWO_128
    ensures middle * TWO_64 % TWO_128 == middle * TWO_64 - middle / TWO_64 * TWO_128
    ensures 0 <= middle / TWO_64 < TWO_64
  {
    var q := middle / TWO_64;
    DivDef(middle, TWO_64);
    DivUnique(middle * TWO_64, TWO_128, q);
  }

  lemma WordCarry(a: nat, b: nat)
    requires a < TWO_128 && b < TWO_128
    ensures a + b == (a + b) % TWO_128 + (if a + b >= TWO_128 then TWO_128 else 0)
  {
    DivUnique(a + b, TWO_128, if a + b < TWO_128 then 0 else 1);
  }

  /** The carry bookkeeping, free of multiplication of unknowns. */
  lemma HighWordFits(lowLow: nat, lowHigh: nat, highLow: nat, highHigh: nat)
    requires lowLow <= (TWO_64 - 1) * (TWO_64 - 1)
    requires lowHigh <= (TWO_64 - 1) * (TWO_64 - 1)
    requires highLow <= (TWO_64 - 1) * (TWO_64 - 1)
    requires highHigh <= (TWO_64 - 1) * (TWO_64 - 1)
    ensures
      var middle := (lowHigh + highLow) % TWO_128;
      var middleCarry := if middle < lowHigh then TWO_64 else 0;
      var middleLow := middle * TWO_64 % TWO_128;
      var lowCarry := if lowLow + middleLow >= TWO_128 then 1 else 0;
      var high := highHigh + middle / TWO_64 + lowCarry + middleCarry;
      high < TWO_128 &&
      high * TWO_128 + (lowLow + middleLow) % TWO_128
        == highHigh * TWO_64 * TWO_64 + (lowHigh + highLow) * TWO_64 + lowLow
  {
    var middle := (lowHigh + highLow) % TWO_128;
    MiddleCarry(lowHigh, highLow);
    ShiftedHalf(middle);
    WordCarry(lowLow, middle * TWO_64 % TWO_128);
  }

  // ---- The 256-step long division -----------------------------------------

  /** Bit `index` of the 256-bit number held in two words. */
  function BitOfU256(high: u128, low: u128, index: nat): (bit: nat)
    requires index < 256
    ensures bit < 2
  {
    if index < 128 then low / Pow2(index) % 2 else high / Pow2(index - 128) % 2
  }

  lemma BitIsBit(p: U256, index: nat)
    requires index < 256
    ensures BitOfU256(p.high, p.low, index) == p.Value() / Pow2(index) % 2
  {
    Pow2Of128();
    if index < 128 {
      var k, m := Pow2(index), Pow2(127 - index);
      Pow2Add(127 - index, index);
      assert Pow2(128) == 2 * Pow2(127);
      LowBit(p.high, p.low, m, k, TWO_128);
    } else {
      Pow2Add(128, index - 128);
      DivUnique(p.Value(), TWO_128, p.high);
      DivDiv(p.Value(), TWO_128, Pow2(index - 128));
    }
  }

  lemma LowBit(high: nat, low: nat, m: nat, k: nat, w: nat)
    requires k > 0 && w == 2 * (m * k)
    ensures (high * w + low) / k % 2 == low / k % 2
  {
    EvenMultiple(high, m, k);
    DivShift(2 * (high * m), low, k);
    Parity(high * m, low / k);
  }

  lemma Parity(a: nat, b: nat)
    ensures (2 * a + b) % 2 == b % 2
  {
  }

  lemma EvenMultiple(h: nat, m: nat, k: nat)
    ensures h * (2 * (m * k)) == 2 * (h * m) * k
  {
    MulAssoc(h, m, k);
  }

  /** Bringing down one more bit of the dividend. */
  lemma BringDown(n: nat, index: nat)
    ensures n / Pow2(index) == 2 * (n / Pow2(index + 1)) + n / Pow2(index) % 2
  {
    DivDiv(n, Pow2(index), 2);
  }

  /** n = q * d + r with r in range: q and r are quotient and remainder. */
  ghost predicate Divided(n: nat, d: nat, q: nat, r: nat) {
    n == q * d + r && r < d
  }

  /** What the quotient word and the overflow flag say of an exact quotient:
      only its low 128 bits are kept. */
  ghost predicate LowWord(q: nat, quotient: nat, overflow: bool) {
    quotient == q % TWO_128 && (overflow <==> q >= TWO_128)
  }

  /** One exact shift/subtract step. */
  lemma DivisionStep(n: nat, bit: nat, d: nat, q: nat, r: nat)
    requires bit < 2 && Divided(n, d, q, r)
    ensures
      if 2 * r + bit >= d then Divided(2 * n + bit, d, 2 * q + 1, 2 * r + bit - d)
      else Divided(2 * n + bit, d, 2 * q, 2 * r + bit)
  {
    var p := q * d;
    assert (2 * q) * d == p + p;
    assert (2 * q + 1) * d == (2 * q) * d + d;
  }

  /** The shift loses the top bit of the remainder, yet the wrapped subtraction
      gives the exact new remainder, and the test is the exact test. */
  lemma RemainderWord(r: nat, bit: nat, d: u128)
    requires bit < 2 && r < d
    ensures
      var shifted := r * 2 % TWO_128 + bit;
      var subtract := r / TWO_127 % 2 == 1 || shifted >= d;
      && (subtract <==> 2 * r + bit >= d)
      && (subtract ==> (shifted - d) % TWO_128 == 2 * r + bit - d)
      && (!subtract ==> shifted == 2 * r + bit)
  {
    TopBit(r);
    DivUnique(r * 2, TWO_128, if r < TWO_127 then 0 else 1);
    var shifted := r * 2 % TWO_128 + bit;
    if r >= TWO_127 {
      DivUnique(shifted - d + TWO_128, TWO_128, 0);
      assert (shifted - d) % TWO_128 == shifted - d + TWO_128;
    } else if shifted >= d {
      DivUnique(shifted - d, TWO_128, 0);
    }
  }

  lemma TopBit(m: nat)
    requires m < TWO_128
    ensures m / TWO_127 % 2 == 1 <==> m >= TWO_127
  {
    DivUnique(m, TWO_127, if m < TWO_127 then 0 else 1);
  }

  /** Losing the top bit of the quotient is exactly what the overflow flag
      records. */
  lemma QuotientWord(q: nat, bit: nat)
    requires bit < 2
    ensures (2 * q + bit) % TWO_128 == q % TWO_128 * 2 % TWO_128 + bit
    ensures 2 * q + bit >= TWO_128 <==> q >= TWO_128 || q % TWO_128 / TWO_127 % 2 == 1
  {
    var k, m := q / TWO_128, q % TWO_128;
    DivDef(q, TWO_128);
    TopBit(m);
    DivUnique(2 * m, TWO_128, if m < TWO_127 then 0 else 1);
    DivUnique(2 * q + bit, TWO_128, if m < TWO_127 then 2 * k else 2 * k + 1);
  }

  /** The engine: the fast path when the product fits a word, otherwise the
      limb product followed by 256 shift/subtract steps. */
  method MulDivFloorU128(left: u128, right: u128, divisor: u128) returns (result: Wide)
    ensures result == MulDivFloor(left, right, divisor)
  {
    if divisor == 0 {
      return Err(DivisionByZero);
    }
    if left * right < TWO_128 {
      DivAtMost(left * right, divisor);
      return Ok(left * right / divisor);
    }
    result := Err(Overflow);
    match LimbProduct(left, right)
    case None =>
      LimbProductExact(left, right);
      assert false;
    case Some(product) =>
      LimbProductExact(left, right);
      result := LongDivide(product, divisor);
  }

  /** The dividend bits consumed once `index` of them are left. */
  ghost function Prefix(p: U256, index: nat): nat
    decreases 256 - index
  {
    if index >= 256 then 0 else 2 * Prefix(p, index + 1) + BitOfU256(p.high, p.low, index)
  }

  lemma {:induction false} PrefixIsQuotient(p: U256, index: nat)
    requires index <= 256
    ensures Prefix(p, index) == p.Value() / Pow2(index)
    decreases 256 - index
  {
    if index == 256 {
      Pow2Of128();
      Pow2Add(128, 128);
      DivUnique(p.Value(), Pow2(256), 0);
    } else {
      PrefixIsQuotient(p, index + 1);
      BitIsBit(p, index);
      BringDown(p.Value(), index);
    }
  }

  lemma WholePrefix(p: U256)
    ensures Prefix(p, 0) == p.Value()
  {
    PrefixIsQuotient(p, 0);
    DivUnique(p.Value(), 1, p.Value());
  }

  lemma LowWordNarrow(q: nat, quotient: u128, overflow: bool)
    requires LowWord(q, quotient, overflow)
    ensures Narrow(q) == if overflow then Err(Overflow) else Ok(quotient)
  {
  }

  /** The 256-step division of the slow path. */
  method LongDivide(product: U256, divisor: u128) returns (result: Wide)
    requires divisor > 0
    ensures product.Value() / divisor >= 0
    ensures result == Narrow(product.Value() / divisor)
  {
    ghost var exact: nat := 0;
    var quotient: u128, overflow, remainder: u128 := 0, false, 0;
    var index := 256;
    while index > 0
      invariant 0 <= index <= 256
      invariant Divided(Prefix(product, index), divisor, exact, remainder)
      invariant LowWord(exact, quotient, overflow)
    {
      index := index - 1;
      quotient, overflow, remainder, exact :=
        ShiftSubtract(product, index, divisor, quotient, overflow, remainder, exact);
    }
    WholePrefix(product);
    DivUnique(product.Value(), divisor, exact);
    LowWordNarrow(exact, quotient, overflow);
    if overflow {
      return Err(Overflow);
    }
    return Ok(quotient);
  }

  /** The loop body: shift in one bit, subtract if it goes, record the bit. */
  method ShiftSubtract(p: U256, index: nat, divisor: u128,
                       quotient: u128, overflow: bool, remainder: u128, ghost exact: nat)
    returns (quotient': u128, overflow': bool, remainder': u128, ghost exact': nat)
    requires index < 256
    requires Divided(Prefix(p, index + 1), divisor, exact, remainder)
    requires LowWord(exact, quotient, overflow)
    ensures Divided(Prefix(p, index), divisor, exact', remainder')
    ensures LowWord(exact', quotient', overflow')
  {
    var bit := BitOfU256(p.high, p.low, index);
    DivisionStep(Prefix(p, index + 1), bit, divisor, exact, remainder);
    var subtract;
    subtract, remainder' := ShiftRemainder(remainder, bit, divisor);
    quotient', overflow' := ShiftQuotient(quotient, overflow, if subtract then 1 else 0, exact);
    exact' := 2 * exact + (if subtract then 1 else 0);
  }

  /** The remainder half: exact, although the shift may lose the top bit. */
  method ShiftRemainder(remainder: u128, bit: nat, divisor: u128) returns (subtract: bool, remainder': u128)
    requires bit < 2 && remainder < divisor
    ensures subtract <==> 2 * remainder + bit >= divisor
    ensures remainder' == 2 * remainder + bit - (if subtract then divisor else 0)
  {
    RemainderWord(remainder, bit, divisor);
    var remainderOverflow := remainder / TWO_127 % 2 == 1;
    remainder' := remainder * 2 % TWO_128 + bit;
    subtract := remainderOverflow || remainder' >= divisor;
    if subtract {
      remainder' := (remainder' - divisor) % TWO_128;
    }
  }

  /** The quotient half: the flag remembers every bit that was shifted out. */
  method ShiftQuotient(quotient: u128, overflow: bool, bit: nat, ghost exact: nat)
    returns (quotient': u128, overflow': bool)
    requires bit < 2 && LowWord(exact, quotient, overflow)
    ensures LowWord(2 * exact + bit, quotient', overflow')
  {
    QuotientWord(exact, bit);
    overflow' := overflow || quotient / TWO_127 % 2 == 1;
    quotient' := quotient * 2 % TWO_128 + bit;
  }
}
