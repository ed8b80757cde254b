/**
 * The three stateless stages of the VOC index algorithm: the sigmoid the
 * mean and variance estimator uses to blend its learning rates, the scaled
 * sigmoid that maps the normalised signal onto the index, and the MOX
 * model that normalises a raw reading by the learned mean and spread.
 * Each is a small record whose parameters are replaced whole, so each is
 * a value here.
 */
module VocSigmoid {
  import opened Common
  import opened Fixed
  import opened VocConst
  import opened VocExp

  const FIFTY: Fix := 50 * ONE

  /** `MeanVarianceEstimatorSigmoid`: L / (1 + e^(K (sample - X0))). */
  datatype EstimatorSigmoid = EstimatorSigmoid(l: Fix, k: Fix, x0: Fix)
  {
    /** The exponent K (sample - X0) and whether the product overflowed. */
    function Exponent(sample: Fix): (Fix, bool)
    {
      OverflowingMul(k, Sub(sample, x0))
    }

    function Process(sample: Fix): (r: Result<Fix, Fault>)
      ensures r.Err? ==> r.error == DivisionByZero
    {
      var (x, overflow) := Exponent(sample);
      if overflow then Ok(ZERO)
      else if x < -FIFTY then Ok(l)
      else if x > FIFTY then Ok(ZERO)
      else Div(l, Add(ONE, Exp(x)))
    }
  }

  /** `MeanVarianceEstimatorSigmoid::new`. */
  const UNSET_SIGMOID := EstimatorSigmoid(ZERO, ZERO, ZERO)

  /** A larger denominator gives a smaller quotient. */
  lemma DivAntitone(n: nat, d1: nat, d2: nat)
    requires 0 < d1 <= d2
    ensures n / d2 <= n / d1
  {
    var q := n / d2;
    var p := n / d1;
    assert q * d2 <= n;
    assert q * d1 <= q * d2 by {
      MulLeft(q, d1, d2);
    }
    assert n < (p + 1) * d1;
    if q > p {
      MulLeft(d1, p + 1, q);
      assert false;
    }
  }

  /** A larger numerator gives a larger quotient. */
  lemma DivMonotone(n1: nat, n2: nat, d: nat)
    requires n1 <= n2 && 0 < d
    ensures n1 / d <= n2 / d
  {
    var q := n1 / d;
    var p := n2 / d;
    assert q * d <= n2;
    assert n2 < (p + 1) * d;
    if q > p {
      MulLeft(d, p + 1, q);
      assert false;
    }
  }

  lemma MulLeft(a: nat, b: nat, c: nat)
    requires b <= c
    ensures a * b <= a * c
  {
  }

  /** L divided by a value between one and two lies between L / 2 and L. */
  lemma DivByOneToTwo(l: Fix, d: Fix)
    requires l >= 0 && ONE <= d <= 2 * ONE
    ensures Div(l, d).Ok?
    ensures l / 2 <= Div(l, d).value <= l
  {
    var n: nat := l * ONE;
    DivAntitone(n, ONE, d);
    DivAntitone(n, d, 2 * ONE);
    assert n / ONE == l;
    assert n / (2 * ONE) == l / 2;
  }

  /**
   * Where the exponent is not positive the sigmoid cannot fail and stays
   * between zero and L; inside the cut-off it is at least half of L.
   */
  lemma NonPositiveExponent(s: EstimatorSigmoid, sample: Fix)
    requires s.l >= 0
    requires s.Exponent(sample).1 || s.Exponent(sample).0 <= 0
    ensures s.Process(sample).Ok?
    ensures 0 <= s.Process(sample).value <= s.l
    ensures !s.Exponent(sample).1 && -FIFTY <= s.Exponent(sample).0 ==> s.l / 2 <= s.Process(sample).value
  {
    var (x, overflow) := s.Exponent(sample);
    if !overflow && -FIFTY <= x {
      ExpNonPositive(x);
      DivByOneToTwo(s.l, Add(ONE, Exp(x)));
    }
  }

  /** `SigmoidScaledInit`: maps the normalised signal onto the 0..500 index. */
  datatype SigmoidScaled = SigmoidScaled(offset: Fix)
  {
    /** The exponent -0.0065 (sample - 213). */
    function Exponent(sample: Fix): Fix
    {
      Mul(SIGMOID_K, Sub(sample, SIGMOID_X0))
    }

    function Process(sample: Fix): (r: Result<Fix, Fault>)
      ensures r.Err? ==> r.error == DivisionByZero
    {
      var x := Exponent(sample);
      if x < -FIFTY then Ok(SIGMOID_L)
      else if x > FIFTY then Ok(ZERO)
      else if sample >= ZERO then
        var shift := Quot(Sub(SIGMOID_L, Mul(5 * ONE, offset)), 4 * ONE);
        var scaled :- Div(Add(SIGMOID_L, shift), Add(ONE, Exp(x)));
        Ok(Sub(scaled, shift))
      else
        var scale := Quot(offset, VOC_INDEX_OFFSET_DEFAULT);
        var scaled :- Div(SIGMOID_L, Add(ONE, Exp(x)));
        Ok(Mul(scale, scaled))
    }
  }

  /** A negative slope times a non-negative distance is not positive. */
  lemma ScaledExponentNonPositive(sample: Fix)
    requires sample >= SIGMOID_X0
    ensures SigmoidScaled(VOC_INDEX_OFFSET_DEFAULT).Exponent(sample) <= 0
  {
    var d := Sub(sample, SIGMOID_X0);
    assert d == sample - SIGMOID_X0;
    assert -0x1AA * MAX <= SIGMOID_K * d <= 0;
  }

  /**
   * With the default offset of 100 the shift is zero, so a signal at or
   * above the midpoint 213 gives an index between 250 and 500, and the
   * stage cannot fail there.
   */
  lemma DefaultScaledAboveMidpoint(sample: Fix)
    requires sample >= SIGMOID_X0
    ensures SigmoidScaled(VOC_INDEX_OFFSET_DEFAULT).Process(sample).Ok?
    ensures 250 * ONE <= SigmoidScaled(VOC_INDEX_OFFSET_DEFAULT).Process(sample).value <= SIGMOID_L
  {
    var s := SigmoidScaled(VOC_INDEX_OFFSET_DEFAULT);
    var x := s.Exponent(sample);
    ScaledExponentNonPositive(sample);
    if -FIFTY <= x {
      assert Mul(5 * ONE, VOC_INDEX_OFFSET_DEFAULT) == SIGMOID_L;
      assert Quot(ZERO, 4 * ONE) == ZERO;
      ExpNonPositive(x);
      DivByOneToTwo(SIGMOID_L, Add(ONE, Exp(x)));
    }
  }

  /** `MoxModel`: the raw signal's distance from the learned mean, in units of the learned spread. */
  datatype MoxModel = MoxModel(sraw_std: Fix, sraw_mean: Fix)
  {
    function Process(sraw: Fix): (r: Result<Fix, Fault>)
      ensures r.Err? ==> r.error == DivisionByZero
    {
      var normalised :- Div(Sub(sraw, sraw_mean), Neg(Add(sraw_std, SRAW_STD_BONUS)));
      Ok(Mul(normalised, VOC_INDEX_GAIN))
    }
  }

  /** The model fails exactly when the spread plus its bonus wraps to zero. */
  lemma MoxFaultsOnlyOnZeroSpread(m: MoxModel, sraw: Fix)
    ensures m.Process(sraw).Err? <==> Add(m.sraw_std, SRAW_STD_BONUS) == 0
  {
    var d := Add(m.sraw_std, SRAW_STD_BONUS);
    if d != 0 {
      assert (-d - Neg(d)) % MODULUS == 0;
    }
  }

  /** A reading equal to the learned mean is mapped to zero. */
  lemma MoxZeroAtMean(m: MoxModel)
    requires Add(m.sraw_std, SRAW_STD_BONUS) != 0
    ensures m.Process(m.sraw_mean) == Ok(0)
  {
    var d := Add(m.sraw_std, SRAW_STD_BONUS);
    MoxFaultsOnlyOnZeroSpread(m, m.sraw_mean);
    assert Neg(d) != 0;
    assert Sub(m.sraw_mean, m.sraw_mean) == 0;
    DivShrinks(0, Abs0(Neg(d)));
    assert TruncDiv(0, Neg(d)) == 0;
    assert Quot(0, Neg(d)) == 0;
    assert Mul(0, VOC_INDEX_GAIN) == 0;
  }

  /** Dividing by a negative number flips the sign and shrinks the magnitude. */
  lemma DivByNegative(n: int, d: int)
    requires d > 0
    ensures n >= 0 ==> TruncDiv(n, -d) <= 0
    ensures n <= 0 ==> TruncDiv(n, -d) >= 0
    ensures Abs0(TruncDiv(n, -d)) == Abs0(n) / d
  {
    assert Abs0(-d) == d;
    var q := Abs0(n) / d;
    DivShrinks(Abs0(n), d);
    if n > 0 {
      assert TruncDiv(n, -d) == -q;
    } else if n == 0 {
      assert q == 0;
      assert TruncDiv(n, -d) == 0;
    } else {
      assert TruncDiv(n, -d) == q;
    }
  }

  /** A reading above the mean maps to zero or below and one below it to zero or above, for a spread that does not wrap. */
  lemma MoxSign(m: MoxModel, sraw: Fix)
    requires 0 <= m.sraw_std <= 0x1000_0000
    requires -0x1000_0000 <= sraw - m.sraw_mean <= 0x1000_0000
    ensures m.Process(sraw).Ok?
    ensures sraw >= m.sraw_mean ==> m.Process(sraw).value <= 0
    ensures sraw <= m.sraw_mean ==> m.Process(sraw).value >= 0
  {
    var d := m.sraw_std + SRAW_STD_BONUS;
    assert Add(m.sraw_std, SRAW_STD_BONUS) == d;
    assert Neg(d) == -d;
    var a := sraw - m.sraw_mean;
    assert Sub(sraw, m.sraw_mean) == a;
    var n := a * ONE;
    assert Abs0(n) <= 0x1000_0000 * ONE;
    var q := TruncDiv(n, -d);
    DivByNegative(n, d);
    assert Abs0(q) <= 0x1000_0000 * ONE / SRAW_STD_BONUS by {
      DivAntitone(Abs0(n), SRAW_STD_BONUS, d);
      DivMonotone(Abs0(n), 0x1000_0000 * ONE, SRAW_STD_BONUS);
    }
    assert Quot(a, -d) == q;
    assert Mul(q, VOC_INDEX_GAIN) == q * 230;
  }
}
