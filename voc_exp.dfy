/**
 * `fixed_exp`: the exponential on Q16.16 values, approximated by repeated
 * multiplication. The argument is split into whole units, eighths,
 * sixty-fourths and 512ths; for each such step it holds, the running
 * product is multiplied by e, e^(1/8), e^(1/64) or e^(1/512) (or their
 * reciprocals for a negative argument). Large arguments saturate, very
 * negative ones give zero.
 */
module VocExp {
  import opened Fixed

  /** e (truncated onto the grid), e^(1/8), e^(1/64), e^(1/512). */
  const EXP_POS: seq<Fix> := [178145, 74262, 66568, 65664]
  /** 1/e, e^(-1/8), e^(-1/64), e^(-1/512). */
  const EXP_NEG: seq<Fix> := [24109, 57835, 64520, 65408]
  /** The step each factor stands for (1, 1/8, 1/64, 1/512), then what is left after the last shift. */
  const STEPS: seq<Fix> := [0x1_0000, 0x2000, 0x400, 0x80, 0x10]
  /** 10.3972: at and above it the result saturates. */
  const EXP_UPPER: Fix := 681391
  /** -11.7835: at and below it the result is zero. */
  const EXP_LOWER: Fix := -772243
  /** The saturated result, the estimator's maximum minus one. */
  const EXP_SATURATED: Fix := 0x7FFE_0000

  /** The inner loop: multiply by `v` once for every whole `step` contained in `x`. */
  function Drain(x: Fix, res: Fix, v: Fix, step: Fix): (r: (Fix, Fix))
    requires step > 0 && x >= 0
    ensures 0 <= r.0 < step
    ensures r.0 <= x
    decreases x
  {
    if x >= step then Drain(x - step, Mul(res, v), v, step) else (x, res)
  }

  /** The outer loop from factor `k` on: drain each step in turn. */
  function Approximate(x: Fix, res: Fix, table: seq<Fix>, k: nat): Fix
    requires |table| == 4 && k <= 4 && x >= 0
    decreases 4 - k
  {
    if k == 4 then res
    else
      var (x', res') := Drain(x, res, table[k], STEPS[k]);
      Approximate(x', res', table, k + 1)
  }

  /** What `fixed_exp` returns. */
  function Exp(x: Fix): Fix
  {
    if x >= EXP_UPPER then EXP_SATURATED
    else if x <= EXP_LOWER then 0
    else if x < 0 then Approximate(Neg(x), ONE, EXP_NEG, 0)
    else Approximate(x, ONE, EXP_POS, 0)
  }

  /** `fixed_exp` as the firmware runs it, with its two nested loops. */
  method FixedExp(x: Fix) returns (r: Fix)
    ensures r == Exp(x)
  {
    if x >= EXP_UPPER {
      r := EXP_SATURATED;
    } else if x <= EXP_LOWER {
      r := 0;
    } else {
      var y: Fix := x;
      var table: seq<Fix> := EXP_POS;
      if y < 0 {
        y := Neg(y);
        table := EXP_NEG;
      }
      var res: Fix := ONE;
      var arg: Fix := ONE;
      for k := 0 to 4
        invariant y >= 0 && arg == STEPS[k]
        invariant Approximate(y, res, table, k) == Exp(x)
      {
        while y >= arg
          invariant y >= 0
          invariant Approximate(Drain(y, res, table[k], arg).0, Drain(y, res, table[k], arg).1, table, k + 1) == Exp(x)
          decreases y
        {
          res := Mul(res, table[k]);
          y := y - arg;
        }
        assert Pow2(3) == 8;
        arg := Shr(arg, 3);
      }
      r := res;
    }
  }

  /** Multiplying a non-negative value by a factor of at most one cannot make it larger. */
  lemma MulShrinks(a: Fix, v: Fix)
    requires 0 <= a && 0 <= v <= ONE
    ensures 0 <= Mul(a, v) <= a
  {
    assert 0 <= a * v <= a * ONE;
  }

  lemma {:induction false} DrainShrinks(x: Fix, res: Fix, v: Fix, step: Fix)
    requires step > 0 && x >= 0
    requires 0 <= res && 0 <= v <= ONE
    ensures 0 <= Drain(x, res, v, step).1 <= res
    decreases x
  {
    if x >= step {
      MulShrinks(res, v);
      DrainShrinks(x - step, Mul(res, v), v, step);
    }
  }

  lemma {:induction false} ApproximateShrinks(x: Fix, res: Fix, k: nat)
    requires k <= 4 && x >= 0 && 0 <= res
    ensures 0 <= Approximate(x, res, EXP_NEG, k) <= res
    decreases 4 - k
  {
    if k < 4 {
      DrainShrinks(x, res, EXP_NEG[k], STEPS[k]);
      var (x', res') := Drain(x, res, EXP_NEG[k], STEPS[k]);
      ApproximateShrinks(x', res', k + 1);
    }
  }

  /** The exponential of a value that is not positive lies between zero and one. */
  lemma ExpNonPositive(x: Fix)
    requires x <= 0
    ensures 0 <= Exp(x) <= ONE
  {
    if EXP_LOWER < x < 0 {
      ApproximateShrinks(Neg(x), ONE, 0);
    } else if x == 0 {
      ExpOfZero();
    }
  }

  /** `n` multiplications by `v` on unbounded integers: the product the positive loop tracks while nothing wraps. */
  function Grow(res: int, v: int, n: nat): int
    decreases n
  {
    if n == 0 then res else Grow(res * v / ONE, v, n - 1)
  }

  /** Multiplying a non-negative value by a factor of at least one cannot make it smaller. */
  lemma MulGrows(a: int, v: int)
    requires 0 <= a && ONE <= v
    ensures a <= a * v / ONE
  {
    MulNat(a, v - ONE);
    assert a * ONE <= a * v;
  }

  lemma {:induction false} GrowAtLeast(res: int, v: int, n: nat)
    requires 0 <= res && ONE <= v
    ensures res <= Grow(res, v, n)
    decreases n
  {
    if n > 0 {
      MulGrows(res, v);
      GrowAtLeast(res * v / ONE, v, n - 1);
    }
  }

  lemma {:induction false} GrowMonotoneInValue(a: int, b: int, v: int, n: nat)
    requires 0 <= a <= b && ONE <= v
    ensures Grow(a, v, n) <= Grow(b, v, n)
    decreases n
  {
    if n > 0 {
      MulNat(b - a, v);
      assert a * v <= b * v;
      MulGrows(a, v);
      GrowMonotoneInValue(a * v / ONE, b * v / ONE, v, n - 1);
    }
  }

  lemma {:induction false} GrowMonotoneInCount(res: int, v: int, m: nat, n: nat)
    requires 0 <= res && ONE <= v && m <= n
    ensures Grow(res, v, m) <= Grow(res, v, n)
    decreases m
  {
    if m == 0 {
      GrowAtLeast(res, v, n);
    } else {
      MulGrows(res, v);
      GrowMonotoneInCount(res * v / ONE, v, m - 1, n - 1);
    }
  }

  /** The four step sizes the positive loop drains by. */
  predicate IsStep(step: int)
  {
    step == 0x1_0000 || step == 0x2000 || step == 0x400 || step == 0x80
  }

  lemma StepOff(x: int, step: int)
    requires IsStep(step) && step <= x
    ensures (x - step) / step == x / step - 1 && (x - step) % step == x % step
  {
    if step == 0x1_0000 {
      assert (x - 0x1_0000) / 0x1_0000 == x / 0x1_0000 - 1;
    } else if step == 0x2000 {
      assert (x - 0x2000) / 0x2000 == x / 0x2000 - 1;
    } else if step == 0x400 {
      assert (x - 0x400) / 0x400 == x / 0x400 - 1;
    } else {
      assert (x - 0x80) / 0x80 == x / 0x80 - 1;
    }
  }

  /** While the running product stays within `i32`, draining is growing without wrap-around. */
  lemma {:induction false} DrainIsGrow(x: Fix, res: Fix, v: Fix, step: Fix)
    requires IsStep(step) && x >= 0 && 0 <= res && ONE <= v
    requires Grow(res, v, x / step) <= MAX
    ensures Drain(x, res, v, step) == (x % step, Grow(res, v, x / step))
    decreases x
  {
    if x >= step {
      StepOff(x, step);
      MulGrows(res, v);
      GrowAtLeast(res * v / ONE, v, x / step - 1);
      assert Mul(res, v) == res * v / ONE;
      DrainIsGrow(x - step, Mul(res, v), v, step);
    } else {
      assert x / step == 0 && x % step == x;
    }
  }

  /** The positive loop with `n0` whole units, `n1` eighths, `n2` sixty-fourths and `n3` 512ths. */
  function Chain(n0: nat, n1: nat, n2: nat, n3: nat): int
  {
    Grow(Grow(Grow(Grow(ONE, 178145, n0), 74262, n1), 66568, n2), 65664, n3)
  }

  lemma ChainMonotone(n0: nat, n1: nat, n2: nat, n3: nat, c0: nat, c1: nat, c2: nat, c3: nat)
    requires n0 <= c0 && n1 <= c1 && n2 <= c2 && n3 <= c3
    ensures ONE <= Chain(n0, n1, n2, n3) <= Chain(c0, c1, c2, c3)
  {
    var a0, b0 := Grow(ONE, 178145, n0), Grow(ONE, 178145, c0);
    GrowAtLeast(ONE, 178145, n0);
    GrowMonotoneInCount(ONE, 178145, n0, c0);
    var a1, b1 := Grow(a0, 74262, n1), Grow(b0, 74262, c1);
    GrowAtLeast(a0, 74262, n1);
    GrowMonotoneInCount(a0, 74262, n1, c1);
    GrowMonotoneInValue(a0, b0, 74262, c1);
    var a2, b2 := Grow(a1, 66568, n2), Grow(b1, 66568, c2);
    GrowAtLeast(a1, 66568, n2);
    GrowMonotoneInCount(a1, 66568, n2, c2);
    GrowMonotoneInValue(a1, b1, 66568, c2);
    GrowAtLeast(a2, 65664, n3);
    GrowMonotoneInCount(a2, 65664, n3, c3);
    GrowMonotoneInValue(a2, b2, 65664, c3);
  }

  /** One step of `Grow`, with the quotient given by the remainder it leaves. */
  lemma GrowOnce(a: int, v: int, q: int, n: nat)
    requires 0 <= a * v - q * ONE < ONE && n > 0
    ensures Grow(a, v, n) == Grow(q, v, n - 1)
  {
  }

  /** A sequence of values each of which is the previous one times `v` is what `Grow` computes. */
  lemma {:induction false} GrowTrace(t: seq<int>, v: int)
    requires |t| >= 1
    requires forall i | 0 <= i < |t| - 1 :: 0 <= t[i] * v - t[i + 1] * ONE < ONE
    ensures Grow(t[0], v, |t| - 1) == t[|t| - 1]
    decreases |t|
  {
    if |t| > 1 {
      GrowOnce(t[0], v, t[1], |t| - 1);
      GrowTrace(t[1..], v);
    }
  }

  /** Four traces, one per factor, each starting where the last ended, evaluate `Chain`. */
  lemma ChainTrace(t0: seq<int>, t1: seq<int>, t2: seq<int>, t3: seq<int>)
    requires |t0| >= 1 && |t1| >= 1 && |t2| >= 1 && |t3| >= 1
    requires t0[0] == ONE && t1[0] == t0[|t0| - 1] && t2[0] == t1[|t1| - 1] && t3[0] == t2[|t2| - 1]
    requires forall i | 0 <= i < |t0| - 1 :: 0 <= t0[i] * 178145 - t0[i + 1] * ONE < ONE
    requires forall i | 0 <= i < |t1| - 1 :: 0 <= t1[i] * 74262 - t1[i + 1] * ONE < ONE
    requires forall i | 0 <= i < |t2| - 1 :: 0 <= t2[i] * 66568 - t2[i + 1] * ONE < ONE
    requires forall i | 0 <= i < |t3| - 1 :: 0 <= t3[i] * 65664 - t3[i + 1] * ONE < ONE
    ensures Chain(|t0| - 1, |t1| - 1, |t2| - 1, |t3| - 1) == t3[|t3| - 1]
  {
    GrowTrace(t0, 178145);
    GrowTrace(t1, 74262);
    GrowTrace(t2, 66568);
    GrowTrace(t3, 65664);
  }

  /** The largest products the four cases below can reach, evaluated factor by factor. */
  lemma ChainNineUnits()
    ensures Chain(9, 7, 7, 7) == 1440656706
  {
    ChainTrace(
      [65536, 178145, 484247, 1316317, 3578114, 9726304, 26438788, 71867948, 195356988, 531034402],
      [531034402, 601740673, 681861356, 772649963, 875526909, 992101735, 1124198288, 1273883259],
      [1273883259, 1293943188, 1314319002, 1335015675, 1356038260, 1377391889, 1399081775, 1421113214],
      [1421113214, 1423888825, 1426669857, 1429456321, 1432248227, 1435045586, 1437848409, 1440656706]);
  }

  lemma ChainTwoEighths()
    ensures Chain(10, 2, 7, 7) == 2096141813
  {
    ChainTrace(
      [65536, 178145, 484247, 1316317, 3578114, 9726304, 26438788, 71867948, 195356988, 531034402, 1443498589],
      [1443498589, 1635697818, 1853488027],
      [1853488027, 1882675033, 1912321649, 1942435112, 1973022774, 2004092102, 2035650681, 2067706215],
      [2067706215, 2071744703, 2075791079, 2079845358, 2083907555, 2087977686, 2092055767, 2096141813]);
  }

  lemma ChainNoSixtyFourth()
    ensures Chain(10, 3, 0, 7) == 2129160124
  {
    ChainTrace(
      [65536, 178145, 484247, 1316317, 3578114, 9726304, 26438788, 71867948, 195356988, 531034402, 1443498589],
      [1443498589, 1635697818, 1853488027, 2100276609],
      [2100276609],
      [2100276609, 2104378711, 2108488825, 2112606967, 2116733152, 2120867396, 2125009715, 2129160124]);
  }

  lemma ChainWorst()
    ensures Chain(10, 3, 1, 3) == 2145874336
  {
    ChainTrace(
      [65536, 178145, 484247, 1316317, 3578114, 9726304, 26438788, 71867948, 195356988, 531034402, 1443498589],
      [1443498589, 1635697818, 1853488027, 2100276609],
      [2100276609, 2133349812],
      [2133349812, 2137516510, 2141691346, 2145874336]);
  }

  /**
   * Every combination of steps an argument below EXP_UPPER can hold stays
   * at or below the saturated value: the worst is 10 units, 3 eighths,
   * 1 sixty-fourth and 3 512ths.
   */
  lemma ChainFits(n0: nat, n1: nat, n2: nat, n3: nat)
    requires n1 <= 7 && n2 <= 7 && n3 <= 7
    requires n0 <= 9 || (n0 == 10 && (n1 <= 2 || (n1 == 3 && (n2 == 0 || (n2 == 1 && n3 <= 3)))))
    ensures ONE <= Chain(n0, n1, n2, n3) <= EXP_SATURATED
  {
    if n0 <= 9 {
      ChainMonotone(n0, n1, n2, n3, 9, 7, 7, 7);
      ChainNineUnits();
    } else if n1 <= 2 {
      ChainMonotone(n0, n1, n2, n3, 10, 2, 7, 7);
      ChainTwoEighths();
    } else if n2 == 0 {
      ChainMonotone(n0, n1, n2, n3, 10, 3, 0, 7);
      ChainNoSixtyFourth();
    } else {
      ChainMonotone(n0, n1, n2, n3, 10, 3, 1, 3);
      ChainWorst();
    }
  }

  /**
   * Below the saturation threshold the exponential of a value that is not
   * negative is at least one and never wraps past the saturated value.
   */
  lemma ExpNonNegative(x: Fix)
    requires 0 <= x < EXP_UPPER
    ensures ONE <= Exp(x) <= EXP_SATURATED
  {
    var n0, r0 := x / ONE, x % ONE;
    var n1, r1 := r0 / 0x2000, r0 % 0x2000;
    var n2, r2 := r1 / 0x400, r1 % 0x400;
    var n3, r3 := r2 / 0x80, r2 % 0x80;
    ChainFits(n0, n1, n2, n3);
    var g0 := Grow(ONE, 178145, n0);
    var g1 := Grow(g0, 74262, n1);
    var g2 := Grow(g1, 66568, n2);
    var g3 := Grow(g2, 65664, n3);
    GrowAtLeast(ONE, 178145, n0);
    GrowAtLeast(g0, 74262, n1);
    GrowAtLeast(g1, 66568, n2);
    GrowAtLeast(g2, 65664, n3);
    DrainIsGrow(x, ONE, EXP_POS[0], STEPS[0]);
    DrainIsGrow(r0, g0, EXP_POS[1], STEPS[1]);
    DrainIsGrow(r1, g1, EXP_POS[2], STEPS[2]);
    DrainIsGrow(r2, g2, EXP_POS[3], STEPS[3]);
    assert Approximate(r3, g3, EXP_POS, 4) == g3;
    assert Approximate(r2, g2, EXP_POS, 3) == g3;
    assert Approximate(r1, g1, EXP_POS, 2) == g3;
    assert Approximate(r0, g0, EXP_POS, 1) == g3;
  }

  /** e^0 is exactly one: no factor is applied. */
  lemma ExpOfZero()
    ensures Exp(0) == ONE
  {
    assert Approximate(0, ONE, EXP_POS, 4) == ONE;
  }

  /** One whole unit gives the table's value of e. */
  lemma ExpOfOne()
    ensures Exp(ONE) == 178145
  {
    assert Drain(ONE, ONE, EXP_POS[0], STEPS[0]) == (0, 178145) by {
      assert Mul(ONE, EXP_POS[0]) == 178145;
    }
    assert Approximate(0, 178145, EXP_POS, 1) == 178145;
  }
}
