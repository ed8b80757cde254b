/**
 * Signed Q16.16 fixed-point numbers (`I16F16`): a value is its 32-bit
 * two's-complement bit pattern, read as bits / 2^16. Addition, subtraction,
 * negation, multiplication and division wrap around on overflow, as they do
 * in a release build. Multiplication keeps the floor of the exact product;
 * division truncates the exact quotient toward zero; conversion to an
 * integer keeps the floor. Division by zero and the square root of a
 * negative number abort the program, which the model reports as a `Fault`.
 */
module Fixed {
  import opened Common

  const ONE: int := 0x1_0000
  const HALF: int := 0x8000
  const MIN: int := -0x8000_0000
  const MAX: int := 0x7FFF_FFFF
  const MODULUS: int := 0x1_0000_0000

  /** The bit pattern of an `I16F16`, also the range of an `i32`. */
  type Fix = x: int | MIN <= x <= MAX

  /** Why the firmware would abort instead of returning. */
  datatype Fault = AssertFailed | DivisionByZero | NegativeSqrt

  /** Two's-complement wrap-around of an exact result into 32 bits. */
  function Wrap(x: int): (r: Fix)
    ensures MIN <= x <= MAX ==> r == x
    ensures (x - r) % MODULUS == 0
  {
    (x - MIN) % MODULUS + MIN
  }

  function Add(a: Fix, b: Fix): Fix { Wrap(a + b) }

  function Sub(a: Fix, b: Fix): Fix { Wrap(a - b) }

  function Neg(a: Fix): Fix { Wrap(-(a as int)) }

  /** `abs`, which leaves the most negative value unchanged. */
  function Abs(a: Fix): (r: Fix)
    ensures a != MIN ==> r >= 0 && (r == a || r == -a)
  {
    if a < 0 then Neg(a) else a
  }

  /** The exact product, floored to the fixed-point grid (before wrapping). */
  function Product(a: Fix, b: Fix): int { (a * b) / ONE }

  function Mul(a: Fix, b: Fix): Fix { Wrap(Product(a, b)) }

  /** `overflowing_mul`: the wrapped product and whether it wrapped. */
  function OverflowingMul(a: Fix, b: Fix): (r: (Fix, bool))
    ensures !r.1 ==> r.0 == Product(a, b)
  {
    (Wrap(Product(a, b)), !(MIN <= Product(a, b) <= MAX))
  }

  /** Integer division rounding toward zero, as in Rust. */
  function TruncDiv(a: int, b: int): (r: int)
    requires b != 0
    ensures a >= 0 && b > 0 ==> r == a / b
  {
    if (a >= 0) == (b > 0) then Abs0(a) / Abs0(b) else -(Abs0(a) / Abs0(b))
  }

  function Abs0(a: int): nat { if a < 0 then -a else a }

  /** `/` by a divisor known not to be zero. */
  function Quot(a: Fix, b: Fix): Fix
    requires b != 0
  {
    Wrap(TruncDiv(a * ONE, b))
  }

  /** `/`, which aborts on a zero divisor. */
  function Div(a: Fix, b: Fix): (r: Result<Fix, Fault>)
    ensures r.Err? <==> b == 0
    ensures r.Err? ==> r.error == DivisionByZero
  {
    if b == 0 then Err(DivisionByZero) else Ok(Quot(a, b))
  }

  /** Arithmetic shift right, `>>`. */
  function Shr(a: Fix, k: nat): Fix
  {
    DivShrinks(a, Pow2(k));
    a / Pow2(k)
  }

  /** Flooring division by a positive number moves a value toward zero, never past it. */
  lemma DivShrinks(a: int, p: int)
    requires p >= 1
    ensures a >= 0 ==> 0 <= a / p <= a
    ensures a < 0 ==> a <= a / p < 0
  {
    var q := a / p;
    var r := a % p;
    assert a == q * p + r && 0 <= r < p;
    if q >= 0 {
      MulNat(q, p - 1);
      Distribute(q, p);
    } else {
      var m: nat := -q - 1;
      MulNat(m, p);
      MulNat(m, p - 1);
      Distribute(q, p);
      Distribute(m, p - 1);
      Negate(m, p);
      Negate(m + 1, p - 1);
    }
  }

  lemma Negate(x: int, p: int)
    ensures (-x) * p == -(x * p)
  {
  }

  lemma Distribute(q: int, p: int)
    ensures q * p == q + q * (p - 1)
    ensures (q + 1) * p == q * p + p
  {
  }

  lemma MulNat(x: nat, y: nat)
    ensures x * y >= 0
  {
  }

  function Pow2(k: nat): (r: nat)
    ensures r >= 1
  {
    if k == 0 then 1 else 2 * Pow2(k - 1)
  }

  /** `from_num` of an integer. */
  function FromInt(i: int): Fix { Wrap(i * ONE) }

  /** Conversion to an integer: the floor of the value. */
  function Floor(a: Fix): (r: int)
    ensures -0x8000 <= r <= 0x7FFF
    ensures r * ONE <= a < (r + 1) * ONE
  {
    a / ONE
  }

  /** The integer square root: the largest `r` with `r * r <= n`. */
  function ISqrt(n: nat): (r: nat)
    ensures r * r <= n < (r + 1) * (r + 1)
    decreases n
  {
    if n < 4 then (if n == 0 then 0 else 1)
    else
      var h := ISqrt(n / 4);
      QuarterRoot(n, h);
      if (2 * h + 1) * (2 * h + 1) <= n then 2 * h + 1 else 2 * h
  }

  /** A root of a quarter of `n`, doubled, brackets the root of `n`. */
  lemma QuarterRoot(n: nat, h: nat)
    requires h * h <= n / 4 < (h + 1) * (h + 1)
    ensures (2 * h) * (2 * h) <= n < (2 * h + 2) * (2 * h + 2)
  {
    var q := n / 4;
    var m := (h + 1) * (h + 1);
    assert 4 * q <= n < 4 * q + 4;
    assert q + 1 <= m;
    assert (2 * h + 2) * (2 * h + 2) == 4 * m;
    assert (2 * h) * (2 * h) == 4 * (h * h);
  }

  /** A square root below 2^24 fits the fixed-point range. */
  lemma SqrtBound(n: nat, r: nat)
    requires r * r <= n < 0x8000_0000_0000
    ensures r < 0x100_0000
  {
  }

  /** `sqrt` of a non-negative value: the floor of the exact root on the grid. */
  function Sqrt(a: Fix): (r: Result<Fix, Fault>)
    ensures r.Err? <==> a < 0
    ensures r.Ok? ==> r.value >= 0 && r.value * r.value <= a * ONE < (r.value + 1) * (r.value + 1)
  {
    if a < 0 then Err(NegativeSqrt)
    else
      var n: nat := a * ONE;
      SqrtBound(n, ISqrt(n));
      Ok(ISqrt(n))
  }

  /** Wrapped addition is commutative, so the order of a fold does not matter. */
  lemma AddCommutes(a: Fix, b: Fix)
    ensures Add(a, b) == Add(b, a)
  {
  }

  /** Adding and then subtracting the same amount gives back the start, wrap-around or not. */
  lemma AddSubCancel(a: Fix, b: Fix)
    ensures Sub(Add(a, b), b) == a
  {
    var s := Add(a, b);
    assert (a + b - s) % MODULUS == 0;
    var k := (a + b - s) / MODULUS;
    assert s - b == a - k * MODULUS;
    WrapShift(a, -k);
  }

  /** Wrapping ignores whole multiples of 2^32. */
  lemma WrapShift(a: Fix, k: int)
    ensures Wrap(a + k * MODULUS) == a
  {
    assert (a + k * MODULUS - MIN) % MODULUS == (a - MIN) % MODULUS;
  }

  /** A whole number times one is a whole fixed-point value, whatever it wraps to. */
  lemma FromIntIsWhole(i: int)
    ensures FromInt(i) % ONE == 0
  {
    var r := FromInt(i);
    assert (i * ONE - r) % MODULUS == 0;
    var k := (i * ONE - r) / MODULUS;
    assert r == (i - k * 0x1_0000) * ONE;
  }
}
