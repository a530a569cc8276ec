/**
  Money arithmetic (crates/molemath/src/lib.rs): 128 x 128 -> 256-bit multiplication, 256/128-bit
  shift-subtract division, and `floor`/`ceil` of `a * b / d` built from them.

  Values are naturals below 2^128; every truncating shift, carry and wrapping subtraction of
  the source is written out modulo 2^128.
*/
module MoleMath {
  import opened Wrappers

  const U64: nat := 0x1_0000_0000_0000_0000
  const U128: nat := 0x1_0000_0000_0000_0000_0000_0000_0000_0000
  const I128_LIMIT: nat := 0x8000_0000_0000_0000_0000_0000_0000_0000
  const BPS_SCALE: nat := 10_000

  type u64 = x: nat | x < U64
  type u128 = x: nat | x < U128

  datatype MathError = Overflow | DivByZero | SignOverflow

  type MathResult<+T> = Result<T, MathError>

  // ---------------------------------------------------------------- reference definitions

  /** The true floor of `a * b / d`. */
  function FloorDiv(a: nat, b: nat, d: nat): nat
    requires d > 0
  {
    a * b / d
  }

  /** The true ceiling of `a * b / d`. */
  function CeilDiv(a: nat, b: nat, d: nat): nat
    requires d > 0
  {
    if a * b % d == 0 then a * b / d else a * b / d + 1
  }

  /** `FloorDiv` is the largest quotient that does not exceed the exact one. */
  lemma FloorDivBounds(a: nat, b: nat, d: nat)
    requires d > 0
    ensures var q := FloorDiv(a, b, d); q * d <= a * b < q * d + d
  {
  }

  /** What `mul_div_floor` must return. */
  function MulDivFloor(a: nat, b: nat, d: nat): MathResult<nat> {
    if d == 0 then Err(DivByZero)
    else if FloorDiv(a, b, d) < U128 then Ok(FloorDiv(a, b, d))
    else Err(Overflow)
  }

  /** What `mul_div_ceil` must return. */
  function MulDivCeil(a: nat, b: nat, d: nat): MathResult<nat> {
    if d == 0 then Err(DivByZero)
    else if CeilDiv(a, b, d) < U128 then Ok(CeilDiv(a, b, d))
    else Err(Overflow)
  }

  function Pow2(n: nat): (p: nat)
    ensures p > 0
  {
    if n == 0 then 1 else 2 * Pow2(n - 1)
  }

  // ---------------------------------------------------------------- checked operations

  function CheckedAdd(a: nat, b: nat): MathResult<nat> {
    if a + b < U128 then Ok(a + b) else Err(Overflow)
  }

  function CheckedSub(a: nat, b: nat): MathResult<nat> {
    if b <= a then Ok(a - b) else Err(Overflow)
  }

  function CheckedMul(a: nat, b: nat): MathResult<nat> {
    if a * b < U128 then Ok(a * b) else Err(Overflow)
  }

  // ---------------------------------------------------------------- 256-bit multiplication

  lemma SquareBound(x: nat, y: nat)
    requires x < U64 && y < U64
    ensures x * y <= (U64 - 1) * (U64 - 1)
  {
    MulMonotone(x, U64 - 1, y);
    MulMonotone(y, U64 - 1, U64 - 1);
  }

  lemma LimbProduct(ah: nat, al: nat, bh: nat, bl: nat)
    ensures (ah * U64 + al) * (bh * U64 + bl)
         == ah * bh * U128 + (ah * bl + al * bh) * U64 + al * bl
  {
    calc {
      (ah * U64 + al) * (bh * U64 + bl);
      (ah * U64) * (bh * U64) + (ah * U64) * bl + al * (bh * U64) + al * bl;
      { assert (ah * U64) * (bh * U64) == ah * bh * U128; }
      { assert (ah * U64) * bl == ah * bl * U64; }
      { assert al * (bh * U64) == al * bh * U64; }
      ah * bh * U128 + ah * bl * U64 + al * bh * U64 + al * bl;
    }
  }

  /**
    `mul_to_u256`: schoolbook product of two 64-bit limb pairs. Every intermediate has type
    `u128`, so the verifier shows that none of the additions of the source can overflow.
  */
  function MulToU256(a: u128, b: u128): (r: (u128, u128))
    ensures r.1 * U128 + r.0 == a * b
  {
    var aHi: u128 := a / U64;
    var aLo: u128 := a % U64;
    var bHi: u128 := b / U64;
    var bLo: u128 := b % U64;
    SquareBound(aLo, bLo);
    SquareBound(aLo, bHi);
    SquareBound(aHi, bLo);
    SquareBound(aHi, bHi);
    var ll: u128 := aLo * bLo;
    var lh: u128 := aLo * bHi;
    var hl: u128 := aHi * bLo;
    var hh: u128 := aHi * bHi;
    var llLow: u128 := ll % U64;
    var llHigh: u128 := ll / U64;
    var mid: u128 := llHigh + lh % U64 + hl % U64;
    var midLow: u128 := mid % U64;
    var midHigh: u128 := mid / U64;
    var low: u128 := midLow * U64 + llLow;
    LimbProduct(aHi, aLo, bHi, bLo);
    CombineLimbs(ll, lh, hl, hh);
    assert a == aHi * U64 + aLo && b == bHi * U64 + bLo;
    ProductBound(a, b);
    var high: u128 := hh + lh / U64 + hl / U64 + midHigh;
    (low, high)
  }

  lemma ProductBound(a: nat, b: nat)
    requires a < U128 && b < U128
    ensures a * b < U128 * U128
  {
    assert a * b <= a * U128;
    assert a * U128 < U128 * U128;
  }

  lemma CombineLimbs(ll: nat, lh: nat, hl: nat, hh: nat)
    ensures
      var mid := ll / U64 + lh % U64 + hl % U64;
      (hh + lh / U64 + hl / U64 + mid / U64) * U128 + (mid % U64) * U64 + ll % U64
      == hh * U128 + (hl + lh) * U64 + ll
  {
  }

  // ---------------------------------------------------------------- 256/128-bit division

  /** `lo >> i`. */
  function ShiftRight(lo: nat, i: nat): nat {
    if i == 0 then lo else ShiftRight(lo, i - 1) / 2
  }

  /** Bit `i` of `lo`, the source's `(lo >> i) & 1`. */
  function Bit(lo: nat, i: nat): (b: nat)
    ensures b < 2
  {
    ShiftRight(lo, i) % 2
  }

  lemma MulMonotone(x: nat, y: nat, k: nat)
    requires x <= y
    ensures x * k <= y * k
  {
  }

  lemma CancelFactor(x: nat, y: nat, k: nat)
    requires x * k < y * k
    ensures x < y
  {
    if y <= x {
      MulMonotone(y, x, k);
      assert false;
    }
  }

  lemma CancelFactorLe(x: nat, y: nat, k: nat)
    requires k > 0 && x * k <= y * k
    ensures x <= y
  {
    if y < x {
      MulMonotone(y + 1, x, k);
      CancelByOne(y, k);
      assert false;
    }
  }

  lemma CancelByOne(y: nat, k: nat)
    ensures (y + 1) * k == y * k + k
  {
  }

  lemma QuotientBelow(n: nat, d: nat, k: nat)
    requires d > 0 && n < k * d
    ensures n / d < k
  {
    assert n == (n / d) * d + n % d;
    CancelFactor(n / d, k, d);
  }

  lemma QuotientAtLeast(n: nat, d: nat, k: nat)
    requires d > 0 && n >= k * d
    ensures n / d >= k
  {
    assert n == (n / d) * d + n % d;
    assert (n / d + 1) * d == (n / d) * d + d;
    CancelFactor(k, n / d + 1, d);
  }

  /** Division with remainder of `n` by `d`. */
  predicate IsQuotient(n: int, d: nat, q: nat, r: nat) {
    n == q * d + r && r < d
  }

  lemma QuotientIs(n: nat, d: nat, q: nat, r: nat)
    requires IsQuotient(n, d, q, r)
    ensures n / d == q && n % d == r
  {
    assert (q + 1) * d == q * d + d;
    QuotientBelow(n, d, q + 1);
    QuotientAtLeast(n, d, q);
  }

  lemma Pow2At128()
    ensures Pow2(127) == I128_LIMIT && Pow2(128) == U128
  {
    assert Pow2(4) == 16;
    Pow2Double(4, 16);
    Pow2Double(8, 0x100);
    Pow2Double(16, 0x1_0000);
    Pow2Double(32, 0x1_0000_0000);
    Pow2Double(64, U64);
    assert Pow2(128) == 2 * Pow2(127);
  }

  lemma Pow2Double(n: nat, p: nat)
    requires Pow2(n) == p
    ensures Pow2(2 * n) == p * p
  {
    Pow2Add(n, n);
  }

  lemma {:induction false} Pow2Add(m: nat, n: nat)
    ensures Pow2(m + n) == Pow2(m) * Pow2(n)
  {
    if m > 0 {
      Pow2Add(m - 1, n);
      assert Pow2(m + n) == 2 * Pow2(m - 1 + n);
    }
  }

  /** One step of long division on plain numbers; `p` is the weight of the bit being read. */
  lemma DivStep(prefix: int, q: nat, rem: nat, d: nat, bit: nat, quot: nat, p: nat)
    requires prefix == q * d + rem && rem < d && bit < 2 && quot == q * (2 * p)
    ensures
      var exact := 2 * rem + bit;
      if exact >= d
      then 2 * prefix + bit == (2 * q + 1) * d + (exact - d) && exact - d < d && quot + p == (2 * q + 1) * p
      else 2 * prefix + bit == (2 * q) * d + exact && quot == (2 * q) * p
  {
    assert (2 * q + 1) * d == 2 * (q * d) + d;
    assert (2 * q) * d == 2 * (q * d);
    assert q * (2 * p) == (2 * q) * p;
    assert (2 * q + 1) * p == (2 * q) * p + p;
  }

  lemma WrapSub(rem: nat, bit: nat, d: nat)
    requires rem < d < U128 && bit < 2
    ensures var exact := 2 * rem + bit;
            var machine := (2 * rem) % U128 + bit;
            && machine < U128
            && ((rem / I128_LIMIT == 1 || machine >= d) <==> exact >= d)
            && (exact >= d ==> (machine - d) % U128 == exact - d)
            && (exact < d ==> machine == exact)
  {
    if rem >= I128_LIMIT {
      assert (2 * rem) % U128 == 2 * rem - U128;
    } else {
      assert (2 * rem) % U128 == 2 * rem;
    }
  }

  /** The dividend without its lowest `i` bits. */
  function Prefix(hi: nat, lo: nat, i: nat): int
    requires i <= 128
  {
    hi * Pow2(128 - i) + ShiftRight(lo, i)
  }

  lemma PrefixStep(hi: nat, lo: nat, i: nat)
    requires i < 128
    ensures Prefix(hi, lo, i) == 2 * Prefix(hi, lo, i + 1) + Bit(lo, i)
  {
    assert Pow2(128 - i) == 2 * Pow2(128 - (i + 1));
    assert hi * (2 * Pow2(128 - (i + 1))) == 2 * (hi * Pow2(128 - (i + 1)));
  }

  /** The quotient bits found so far stay below the weight still to come. */
  lemma PartialQuotientFits(hi: nat, lo: nat, d: nat, q: nat, rem: nat, i: nat)
    requires i <= 128 && hi < d && lo < U128
    requires Prefix(hi, lo, i) == q * d + rem
    ensures q < Pow2(128 - i)
  {
    SuffixBelow(lo, i);
    hide Pow2, ShiftRight;
    BelowWeight(hi, ShiftRight(lo, i), d, q, rem, Pow2(128 - i));
  }

  lemma {:induction false} SuffixBelow(lo: nat, i: nat)
    requires i <= 128 && lo < U128
    ensures ShiftRight(lo, i) < Pow2(128 - i)
  {
    if i == 0 {
      Pow2At128();
    } else {
      SuffixBelow(lo, i - 1);
      assert Pow2(128 - (i - 1)) == 2 * Pow2(128 - i);
    }
  }

  lemma BelowWeight(hi: nat, low: nat, d: nat, q: nat, rem: nat, p: nat)
    requires hi < d && low < p && hi * p + low == q * d + rem
    ensures q < p
  {
    MulMonotone(hi + 1, d, p);
    assert (hi + 1) * p == hi * p + p;
    CancelFactor(q, p, d);
  }

  lemma ScaledBelow(q: nat, i: nat)
    requires i <= 128 && q < Pow2(128 - i)
    ensures q * Pow2(i) < U128
  {
    Pow2At128();
    Pow2Add(128 - i, i);
    var s := Pow2(i);
    MulMonotone(q + 1, Pow2(128 - i), s);
    assert (q + 1) * s == q * s + s;
  }

  /** The loop invariant of `Div256` before bit `i` is read: `q` is `quot` without its zero tail. */
  ghost predicate Partial(hi: nat, lo: nat, d: nat, i: nat, q: nat, quot: nat, rem: nat)
    requires i <= 128
  {
    && rem < d
    && quot == q * Pow2(i)
    && Prefix(hi, lo, i) == q * d + rem
  }

  /** One iteration on the exact values keeps the invariant and the quotient within 128 bits. */
  lemma PartialStep(hi: nat, lo: nat, d: nat, i: nat, q: nat, quot: nat, rem: nat)
    requires i < 128 && hi < d && lo < U128
    requires Partial(hi, lo, d, i + 1, q, quot, rem)
    ensures
      var exact := 2 * rem + Bit(lo, i);
      if exact >= d
      then
        && Partial(hi, lo, d, i, 2 * q + 1, quot + Pow2(i), exact - d)
        && quot + Pow2(i) < U128
        && exact - d < d
      else Partial(hi, lo, d, i, 2 * q, quot, exact)
  {
    PrefixStep(hi, lo, i);
    assert Pow2(i + 1) == 2 * Pow2(i);
    DivStep(Prefix(hi, lo, i + 1), q, rem, d, Bit(lo, i), quot, Pow2(i));
    var exact := 2 * rem + Bit(lo, i);
    if exact >= d {
      PartialQuotientFits(hi, lo, d, 2 * q + 1, exact - d, i);
      ScaledBelow(2 * q + 1, i);
    }
  }

  lemma PartialAtStart(hi: nat, lo: nat, d: nat)
    requires hi < d && lo < U128
    ensures Partial(hi, lo, d, 128, 0, 0, hi)
  {
    SuffixBelow(lo, 128);
  }

  lemma PartialAtEnd(hi: nat, lo: nat, d: nat, q: nat, quot: nat, rem: nat)
    requires Partial(hi, lo, d, 0, q, quot, rem)
    ensures IsQuotient(hi * U128 + lo, d, quot, rem)
  {
    Pow2At128();
    assert Pow2(0) == 1;
  }

  /** `div256`: bit-by-bit long division with a remainder register that wraps. */
  method Div256(hi: u128, lo: u128, divisor: u128) returns (res: MathResult<(u128, u128)>)
    ensures res.Err? <==> hi >= divisor
    ensures res.Err? ==> res.error == Overflow
    ensures res.Ok? ==> IsQuotient(hi * U128 + lo, divisor, res.value.0, res.value.1)
  {
    hide Partial, IsQuotient, Pow2, Bit;
    if hi >= divisor {
      return Err(Overflow);
    }
    var rem: u128 := hi;
    var quot: u128 := 0;
    ghost var q: nat := 0;
    PartialAtStart(hi, lo, divisor);
    var i := 128;
    while i > 0
      invariant 0 <= i <= 128
      invariant rem < divisor
      invariant Partial(hi, lo, divisor, i, q, quot, rem)
    {
      i := i - 1;
      var nextBit := Bit(lo, i);
      PartialStep(hi, lo, divisor, i, q, quot, rem);
      WrapSub(rem, nextBit, divisor);
      var remTop := rem / I128_LIMIT;
      rem := (2 * rem) % U128 + nextBit;
      if remTop == 1 || rem >= divisor {
        rem := (rem - divisor) % U128;
        q := 2 * q + 1;
        quot := quot + Pow2(i);
      } else {
        q := 2 * q;
      }
    }
    PartialAtEnd(hi, lo, divisor, q, quot, rem);
    return Ok((quot, rem));
  }

  // ---------------------------------------------------------------- a * b / d

  /** A quotient and remainder pair determines the floor and the ceiling. */
  lemma FromQuotient(a: nat, b: nat, d: nat, q: nat, r: nat)
    requires d > 0 && IsQuotient(a * b, d, q, r)
    ensures FloorDiv(a, b, d) == q
    ensures CeilDiv(a, b, d) == if r > 0 then q + 1 else q
  {
    QuotientIs(a * b, d, q, r);
  }

  /** The hardware division of the fast path. */
  function DivMod(n: u128, d: u128): (r: (u128, u128))
    requires d > 0
    ensures IsQuotient(n, d, r.0, r.1)
  {
    MulMonotone(1, d, n / d);
    (n / d, n % d)
  }

  /** The last lines of `full_mul_div`: bump the quotient for a ceiling with a remainder. */
  function RoundQuotient(q: u128, rem: u128, ceil: bool): (r: MathResult<u128>)
  {
    if ceil && rem > 0 then
      if q + 1 < U128 then Ok(q + 1) else Err(Overflow)
    else
      Ok(q)
  }

  lemma RoundQuotientIsExact(a: nat, b: nat, d: nat, q: u128, rem: u128, ceil: bool)
    requires d > 0 && IsQuotient(a * b, d, q, rem)
    ensures RoundQuotient(q, rem, ceil) == if ceil then MulDivCeil(a, b, d) else MulDivFloor(a, b, d)
  {
    FromQuotient(a, b, d, q, rem);
  }

  /** `q` is `a * b / d` rounded down. */
  predicate IsFloor(q: nat, a: nat, b: nat, d: nat) {
    q * d <= a * b < q * d + d
  }

  /** `q` is `a * b / d` rounded up. */
  predicate IsCeil(q: nat, a: nat, b: nat, d: nat) {
    a * b <= q * d < a * b + d
  }

  /** Only the floor is rounded down. */
  lemma FloorIs(q: nat, a: nat, b: nat, d: nat)
    requires d > 0
    ensures IsFloor(q, a, b, d) <==> q == FloorDiv(a, b, d)
  {
    FloorDivBounds(a, b, d);
    if IsFloor(q, a, b, d) {
      FromQuotient(a, b, d, q, a * b - q * d);
    }
  }

  /** Only the ceiling is rounded up. */
  lemma CeilIs(q: nat, a: nat, b: nat, d: nat)
    requires d > 0
    ensures IsCeil(q, a, b, d) <==> q == CeilDiv(a, b, d)
  {
    FloorDivBounds(a, b, d);
    var f := FloorDiv(a, b, d);
    var r := a * b - f * d;
    FromQuotient(a, b, d, f, r);
    assert (f + 1) * d == f * d + d;
    if IsCeil(q, a, b, d) {
      assert q * d == a * b || q > 0;
      if q * d == a * b {
        FromQuotient(a, b, d, q, 0);
      } else {
        assert (q - 1) * d == q * d - d;
        FromQuotient(a, b, d, q - 1, a * b - (q - 1) * d);
      }
    }
  }

  /** A floor stays below `limit` exactly when the product stays below `limit * d`. */
  lemma FloorBelow(a: nat, b: nat, d: nat, limit: nat)
    requires d > 0
    ensures FloorDiv(a, b, d) < limit <==> a * b < limit * d
  {
    if a * b < limit * d {
      QuotientBelow(a * b, d, limit);
    } else {
      QuotientAtLeast(a * b, d, limit);
    }
  }

  lemma ZeroProduct(a: nat, b: nat, d: nat)
    requires d > 0 && (a == 0 || b == 0)
    ensures FloorDiv(a, b, d) == 0 && CeilDiv(a, b, d) == 0
  {
    assert a * b == 0;
    FromQuotient(a, b, d, 0, 0);
  }

  /** `full_mul_div`. */
  method FullMulDiv(a: u128, b: u128, denominator: u128, ceil: bool) returns (r: MathResult<u128>)
    requires denominator != 0
    ensures r == if ceil then MulDivCeil(a, b, denominator) else MulDivFloor(a, b, denominator)
  {
    hide MulToU256, FloorDiv, CeilDiv, RoundQuotient, DivMod, IsQuotient;
    if a == 0 || b == 0 {
      ZeroProduct(a, b, denominator);
      return Ok(0);
    }
    var (lo, hi) := MulToU256(a, b);
    if hi == 0 {
      var (q, rem) := DivMod(lo, denominator);
      assert a * b == lo;
      RoundQuotientIsExact(a, b, denominator, q, rem, ceil);
      return RoundQuotient(q, rem, ceil);
    }
    var d := Div256(hi, lo, denominator);
    if d.Err? {
      OverflowMeansLarge(a, b, hi, lo, denominator);
      return Err(d.error);
    }
    assert a * b == hi * U128 + lo;
    RoundQuotientIsExact(a, b, denominator, d.value.0, d.value.1, ceil);
    return RoundQuotient(d.value.0, d.value.1, ceil);
  }

  lemma OverflowMeansLarge(a: nat, b: nat, hi: nat, lo: nat, d: nat)
    requires a * b == hi * U128 + lo && 0 < d <= hi
    ensures FloorDiv(a, b, d) >= U128 && CeilDiv(a, b, d) >= U128
  {
    MulMonotone(d, hi, U128);
    QuotientAtLeast(a * b, d, U128);
  }

  /** `mul_div_floor` computes exactly the floor, and overflows exactly when it is 2^128 or more. */
  method ComputeMulDivFloor(a: u128, b: u128, denominator: u128) returns (r: MathResult<u128>)
    ensures r == MulDivFloor(a, b, denominator)
  {
    if denominator == 0 {
      return Err(DivByZero);
    }
    r := FullMulDiv(a, b, denominator, false);
  }

  /** `mul_div_ceil` computes exactly the ceiling, and overflows exactly when it is 2^128 or more. */
  method ComputeMulDivCeil(a: u128, b: u128, denominator: u128) returns (r: MathResult<u128>)
    ensures r == MulDivCeil(a, b, denominator)
  {
    if denominator == 0 {
      return Err(DivByZero);
    }
    r := FullMulDiv(a, b, denominator, true);
  }

  // ---------------------------------------------------------------- signed increments

  /** `signed_pnl_increment`. `direction` is +1 for long and -1 for short. */
  function SignedPnlIncrement(direction: int, notional: nat, pLast: nat, pNow: nat): MathResult<int> {
    if pLast == 0 then Err(DivByZero)
    else
      var delta := if pNow >= pLast then pNow - pLast else pLast - pNow;
      var sign := if pNow >= pLast then 1 else -1;
      var absPnl: int :- MulDivFloor(notional, delta, pLast);
      if absPnl >= I128_LIMIT then Err(SignOverflow)
      else if sign * direction == 0 || absPnl == 0 then Ok(0)
      else if sign * direction > 0 then Ok(absPnl)
      else Ok(0 - absPnl)
  }

  /** `price_move_bps`: |new - old| in basis points of old, rounded down, as a u64. */
  function PriceMoveBps(pOld: nat, pNew: nat): MathResult<nat> {
    if pOld == 0 then Err(DivByZero)
    else
      var delta := if pNew >= pOld then pNew - pOld else pOld - pNew;
      var scaled :- MulDivFloor(delta, BPS_SCALE, pOld);
      if scaled < U64 then Ok(scaled) else Err(Overflow)
  }

  /** The size of a price move. */
  function Distance(p: nat, q: nat): nat {
    if p <= q then q - p else p - q
  }

  /**
    The increment is exact: the notional times the size of the move over the old price, rounded
    towards zero, a gain when the move favours the direction and a loss when it does not. It fails
    exactly without an old price or beyond 127 bits.
  */
  lemma PnlIsExact(direction: int, notional: nat, pLast: nat, pNow: nat)
    requires direction == 1 || direction == -1
    ensures
      var r := SignedPnlIncrement(direction, notional, pLast, pNow);
      && (r.Err? <==> pLast == 0 || notional * Distance(pLast, pNow) >= I128_LIMIT * pLast)
      && (r.Ok? ==>
            && (direction * (pNow - pLast) >= 0 ==> r.value >= 0 && IsFloor(r.value, notional, Distance(pLast, pNow), pLast))
            && (direction * (pNow - pLast) <= 0 ==> r.value <= 0 && IsFloor(-r.value, notional, Distance(pLast, pNow), pLast)))
  {
    var move := Distance(pLast, pNow);
    if pLast > 0 {
      FloorIs(FloorDiv(notional, move, pLast), notional, move, pLast);
      FloorBelow(notional, move, pLast, I128_LIMIT);
      if move == 0 {
        ZeroProduct(notional, 0, pLast);
      }
    }
    hide FloorDiv, IsFloor;
  }

  /** The move in basis points of the old price, rounded down; it fails exactly beyond 64 bits. */
  lemma PriceMoveIsExact(pOld: nat, pNew: nat)
    ensures
      var r := PriceMoveBps(pOld, pNew);
      && (r.Err? <==> pOld == 0 || Distance(pOld, pNew) * BPS_SCALE >= U64 * pOld)
      && (r.Ok? ==> IsFloor(r.value, Distance(pOld, pNew), BPS_SCALE, pOld))
  {
    var move := Distance(pOld, pNew);
    if pOld > 0 {
      FloorIs(FloorDiv(move, BPS_SCALE, pOld), move, BPS_SCALE, pOld);
      FloorBelow(move, BPS_SCALE, pOld, U64);
    }
    hide FloorDiv, IsFloor;
  }

  /**
    A price move in one direction never gives both sides a gain: the two increments are exact
    opposites of each other when the notionals agree, and never both positive otherwise.
  */
  lemma PnlSigns(notionalLong: nat, notionalShort: nat, pLast: nat, pNow: nat)
    ensures var l := SignedPnlIncrement(1, notionalLong, pLast, pNow);
            var s := SignedPnlIncrement(-1, notionalShort, pLast, pNow);
            l.Ok? && s.Ok? ==>
              && (pNow >= pLast ==> l.value >= 0 && s.value <= 0)
              && (pNow <= pLast ==> l.value <= 0 && s.value >= 0)
              && (notionalLong == notionalShort ==> l.value == -s.value)
  {
    if pNow == pLast {
      assert notionalLong * 0 == 0 && notionalShort * 0 == 0;
    }
  }
}
