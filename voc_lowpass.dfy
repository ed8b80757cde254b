/**
 * `AdaptiveLowpass`: three first-order low-pass filters. A fast one and a
 * slow one follow the input; the distance between them sets the time
 * constant of the third, whose value is the output, so the output reacts
 * quickly to a sudden change and smooths a steady signal.
 */
module VocLowpass {
  import opened Common
  import opened Fixed
  import opened VocConst
  import opened VocExp
  import VocSigmoid

  /** The filter's fields. */
  datatype LowpassState = LowpassState(a1: Fix, a2: Fix, x1: Fix, x2: Fix, x3: Fix, initialized: bool)

  /** One first-order filter step: (1 - a) * previous + a * sample. */
  function Blend(a: Fix, previous: Fix, sample: Fix): Fix
  {
    Add(Mul(Sub(ONE, a), previous), Mul(a, sample))
  }

  /** `AdaptiveLowpass::new`: coefficients 1/21 and 1/501, not yet initialised. */
  function InitialLowpass(): (s: LowpassState)
    ensures s.a1 == 3120 && s.a2 == 130 && !s.initialized
  {
    LowpassState(
      Quot(SAMPLING_INTERVAL, Add(LP_TAU_FAST, SAMPLING_INTERVAL)),
      Quot(SAMPLING_INTERVAL, Add(LP_TAU_SLOW, SAMPLING_INTERVAL)),
      ZERO, ZERO, ZERO, false)
  }

  /** The three filters as they stand before a step: the first sample seeds all of them. */
  function Seeded(s: LowpassState, sample: Fix): LowpassState
  {
    if s.initialized then s else s.(x1 := sample, x2 := sample, x3 := sample, initialized := true)
  }

  function Fast(s: LowpassState, sample: Fix): Fix
  {
    Blend(s.a1, Seeded(s, sample).x1, sample)
  }

  function Slow(s: LowpassState, sample: Fix): Fix
  {
    Blend(s.a2, Seeded(s, sample).x2, sample)
  }

  /** The adaptive time constant: 20 plus 480 e^(-0.2 |fast - slow|). */
  function TauA(s: LowpassState, sample: Fix): Fix
  {
    var f1 := Exp(Mul(LP_ALPHA, Abs(Sub(Fast(s, sample), Slow(s, sample)))));
    Add(Mul(Sub(LP_TAU_SLOW, LP_TAU_FAST), f1), LP_TAU_FAST)
  }

  /** `process`: the new filter state; its `x3` is the output. */
  function Step(s: LowpassState, sample: Fix): (r: Result<LowpassState, Fault>)
    ensures r.Ok? ==> r.value.initialized && r.value.a1 == s.a1 && r.value.a2 == s.a2
    ensures r.Err? ==> r.error == DivisionByZero
  {
    var a3 :- Div(SAMPLING_INTERVAL, Add(SAMPLING_INTERVAL, TauA(s, sample)));
    Ok(LowpassState(s.a1, s.a2, Fast(s, sample), Slow(s, sample),
                    Blend(a3, Seeded(s, sample).x3, sample), true))
  }

  /** Two floors of parts whose sum lies between two whole numbers lose at most one. */
  lemma FloorSum(p: int, q: int, lo: int, hi: int)
    requires lo * ONE <= p + q <= hi * ONE
    ensures lo - 1 <= p / ONE + q / ONE <= hi
  {
  }

  /** Scaling by a factor between zero and one stays between zero and the value. */
  lemma ScaleBetween(a: int, d: int)
    requires 0 <= a <= ONE
    ensures d >= 0 ==> 0 <= a * d <= ONE * d
    ensures d <= 0 ==> ONE * d <= a * d <= 0
  {
  }

  /** The two weighted terms of a filter step are the previous value moved by a share of the gap. */
  lemma Distribute(a: int, previous: int, sample: int)
    ensures (ONE - a) * previous + a * sample == ONE * previous + a * (sample - previous)
  {
  }

  /** A product with a factor between zero and one fits the fixed-point range. */
  lemma ScaledFits(a: int, x: Fix)
    requires 0 <= a <= ONE
    ensures Mul(a, x) == (a * x) / ONE
  {
    ScaleBetween(a, x);
  }

  /**
   * A filter step with a coefficient between zero and one lands between
   * the previous value and the sample, give or take one grid step of
   * rounding: it never overshoots.
   */
  lemma BlendBetween(a: Fix, previous: Fix, sample: Fix)
    requires 0 <= a <= ONE && MIN < previous && MIN < sample
    ensures Blend(a, previous, sample) <= (if previous < sample then sample else previous)
    ensures (if previous < sample then previous else sample) - 1 <= Blend(a, previous, sample)
  {
    var p := (ONE - a) * previous;
    var q := a * sample;
    Distribute(a, previous, sample);
    ScaleBetween(a, sample - previous);
    assert Sub(ONE, a) == ONE - a;
    ScaledFits(ONE - a, previous);
    ScaledFits(a, sample);
    if previous < sample {
      FloorSum(p, q, previous, sample);
    } else {
      FloorSum(p, q, sample, previous);
    }
  }

  /** For a non-positive exponent the adaptive time constant lies between 20 and 500. */
  lemma TauABounds(s: LowpassState, sample: Fix)
    requires Sub(Fast(s, sample), Slow(s, sample)) != MIN
    ensures LP_TAU_FAST <= TauA(s, sample) <= LP_TAU_SLOW
  {
    var d := Abs(Sub(Fast(s, sample), Slow(s, sample)));
    assert 0 <= d;
    var x := Mul(LP_ALPHA, d);
    assert -0x3333 * MAX <= LP_ALPHA * d <= 0;
    assert x <= 0;
    ExpNonPositive(x);
    var f1 := Exp(x);
    assert Sub(LP_TAU_SLOW, LP_TAU_FAST) == 480 * ONE;
    assert Mul(480 * ONE, f1) == 480 * f1;
  }

  /**
   * Unless the fast and slow filters drift a full 2^31 apart, a step never
   * divides by zero, and the output lands between the previous output
   * (or, on the first step, the sample itself) and the sample.
   */
  lemma StepTracksSample(s: LowpassState, sample: Fix)
    requires Sub(Fast(s, sample), Slow(s, sample)) != MIN
    requires MIN < sample && MIN < s.x3
    ensures Step(s, sample).Ok?
    ensures var previous := Seeded(s, sample).x3;
      var out := Step(s, sample).value.x3;
      (if previous < sample then previous else sample) - 1 <= out <= (if previous < sample then sample else previous)
  {
    TauABounds(s, sample);
    var d := Add(SAMPLING_INTERVAL, TauA(s, sample));
    ShareOfOne(d);
    var a3 := Quot(SAMPLING_INTERVAL, d);
    assert Step(s, sample) == Ok(LowpassState(s.a1, s.a2, Fast(s, sample), Slow(s, sample),
                                              Blend(a3, Seeded(s, sample).x3, sample), true));
    BlendBetween(a3, Seeded(s, sample).x3, sample);
  }

  /** One divided by at least one is a share between zero and one. */
  lemma ShareOfOne(d: Fix)
    requires ONE <= d
    ensures 0 <= Quot(SAMPLING_INTERVAL, d) <= ONE
  {
    var n: nat := 0x1_0000_0000;
    assert SAMPLING_INTERVAL * ONE == n;
    var t := TruncDiv(n, d);
    assert t == n / d;
    VocSigmoid.DivAntitone(n, ONE, d);
    assert 0 <= t <= ONE;
    assert Quot(SAMPLING_INTERVAL, d) == Wrap(t);
  }

  /** `AdaptiveLowpass`, whose `process` updates its filters in place. */
  class AdaptiveLowpass {
    var a1: Fix
    var a2: Fix
    var x1: Fix
    var x2: Fix
    var x3: Fix
    var initialized: bool

    function State(): LowpassState
      reads this
    {
      LowpassState(a1, a2, x1, x2, x3, initialized)
    }

    constructor()
      ensures State() == InitialLowpass()
    {
      a1 := Quot(SAMPLING_INTERVAL, Add(LP_TAU_FAST, SAMPLING_INTERVAL));
      a2 := Quot(SAMPLING_INTERVAL, Add(LP_TAU_SLOW, SAMPLING_INTERVAL));
      initialized := false;
      x1, x2, x3 := ZERO, ZERO, ZERO;
    }

    /** Puts the filter back in its freshly constructed state. */
    method Reset()
      modifies this
      ensures State() == InitialLowpass()
    {
      a1 := Quot(SAMPLING_INTERVAL, Add(LP_TAU_FAST, SAMPLING_INTERVAL));
      a2 := Quot(SAMPLING_INTERVAL, Add(LP_TAU_SLOW, SAMPLING_INTERVAL));
      initialized := false;
      x1, x2, x3 := ZERO, ZERO, ZERO;
    }

    method Process(sample: Fix) returns (r: Result<Fix, Fault>)
      modifies this
      ensures r.Ok? <==> Step(old(State()), sample).Ok?
      ensures r.Err? ==> r.error == DivisionByZero
      ensures r.Ok? ==> State() == Step(old(State()), sample).value && r.value == x3
    {
      if !initialized {
        x1 := sample;
        x2 := sample;
        x3 := sample;
        initialized := true;
      }
      x1 := Blend(a1, x1, sample);
      x2 := Blend(a2, x2, sample);
      var absDelta := Abs(Sub(x1, x2));
      var f1 := FixedExp(Mul(LP_ALPHA, absDelta));
      var tauA := Add(Mul(Sub(LP_TAU_SLOW, LP_TAU_FAST), f1), LP_TAU_FAST);
      var d := Add(SAMPLING_INTERVAL, tauA);
      if d == 0 {
        return Err(DivisionByZero);
      }
      var a3 := Quot(SAMPLING_INTERVAL, d);
      x3 := Blend(a3, x3, sample);
      r := Ok(x3);
    }
  }
}
