/**
 * `MeanVarianceEstimator`: learns the running mean and standard deviation
 * of the raw signal. Its learning rates start high and settle over the
 * first hours (blended in by sigmoids of the uptime), and learning pauses
 * (gating) while the index reports a VOC event, for at most a configured
 * number of minutes.
 */
module VocEstimator {
  import opened Common
  import opened Fixed
  import opened VocConst
  import opened VocSigmoid

  /** The estimator's fields. */
  datatype EstimatorState = EstimatorState(
    gating_max_duration_minutes: Fix,
    mean: Fix,
    sraw_offset: Fix,
    std: Fix,
    gamma: Fix,
    gamma_initial_mean: Fix,
    gamma_initial_variance: Fix,
    gamma_mean: Fix,
    gamma_variance: Fix,
    uptime_gamma: Fix,
    uptime_gating: Fix,
    gating_duration_minutes: Fix,
    sigmoid: EstimatorSigmoid,
    initialized: bool)

  /** `MeanVarianceEstimator::new`: every field zero. */
  const NEW_ESTIMATOR := EstimatorState(ZERO, ZERO, ZERO, ZERO, ZERO, ZERO, ZERO, ZERO, ZERO,
                                        ZERO, ZERO, ZERO, UNSET_SIGMOID, false)

  /** The largest uptime the counters count up to. */
  const UPTIME_LIMIT: Fix := 0x7FFE_0000

  /** One sampling interval in hours, 1/3600 (18 / 65536 once rounded onto the grid). */
  const INTERVAL_HOURS: Fix := Quot(SAMPLING_INTERVAL, 3600 * ONE)
  /** The initial learning rates of the mean and of the variance. */
  const GAMMA_INITIAL_MEAN: Fix := Quot(Mul(MEAN_VARIANCE_ESTIMATOR_GAMMA_SCALING, SAMPLING_INTERVAL),
                                        Add(TAU_INITIAL_MEAN, SAMPLING_INTERVAL))
  const GAMMA_INITIAL_VARIANCE: Fix := Quot(Mul(MEAN_VARIANCE_ESTIMATOR_GAMMA_SCALING, SAMPLING_INTERVAL),
                                            Add(TAU_INITIAL_VARIANCE, SAMPLING_INTERVAL))

  /** `set_parameters`: restarts learning from the given spread and learning time. */
  function SetParameters(s: EstimatorState, std_initial: Fix, tau_mean_variance_hours: Fix,
                         gating_max_duration_minutes: Fix): (r: Result<EstimatorState, Fault>)
    ensures r.Err? <==> Add(tau_mean_variance_hours, INTERVAL_HOURS) == 0
    ensures r.Ok? ==> !r.value.initialized && r.value.mean == 0 && r.value.sraw_offset == 0
    ensures r.Ok? ==> r.value.std == std_initial && r.value.gating_max_duration_minutes == gating_max_duration_minutes
  {
    var gamma :- Div(Mul(MEAN_VARIANCE_ESTIMATOR_GAMMA_SCALING, INTERVAL_HOURS),
                     Add(tau_mean_variance_hours, INTERVAL_HOURS));
    Ok(s.(
      gating_max_duration_minutes := gating_max_duration_minutes,
      initialized := false,
      mean := ZERO,
      sraw_offset := ZERO,
      std := std_initial,
      gamma := gamma,
      gamma_initial_mean := GAMMA_INITIAL_MEAN,
      gamma_initial_variance := GAMMA_INITIAL_VARIANCE,
      gamma_mean := ZERO,
      gamma_variance := ZERO,
      uptime_gamma := ZERO,
      uptime_gating := ZERO,
      gating_duration_minutes := ZERO))
  }

  /** A whole number of hours never makes the learning-rate division fail. */
  lemma WholeHoursNeverFault(s: EstimatorState, std_initial: Fix, tau: Fix, gating: Fix)
    requires tau % ONE == 0
    ensures SetParameters(s, std_initial, tau, gating).Ok?
  {
    assert INTERVAL_HOURS == 18;
    var d := Add(tau, INTERVAL_HOURS);
    assert (tau + INTERVAL_HOURS - d) % MODULUS == 0;
    var k := (tau + INTERVAL_HOURS - d) / MODULUS;
    assert d == tau + INTERVAL_HOURS - k * MODULUS;
    assert d % ONE == INTERVAL_HOURS;
  }

  /** `set_states`: restores a learned mean and spread; learning continues from them. */
  function SetStates(s: EstimatorState, mean: Fix, std: Fix, uptime_gamma: Fix): (r: EstimatorState)
    ensures r.initialized && r.mean == mean && r.std == std && r.uptime_gamma == uptime_gamma
    ensures r.(mean := s.mean, std := s.std, uptime_gamma := s.uptime_gamma, initialized := s.initialized) == s
  {
    s.(mean := mean, std := std, uptime_gamma := uptime_gamma, initialized := true)
  }

  function GetStd(s: EstimatorState): Fix { s.std }

  /** `get_mean`: the mean is kept relative to an offset. */
  function GetMean(s: EstimatorState): Fix { Add(s.mean, s.sraw_offset) }

  /** The counter step: one interval more, until the limit. */
  function CountUp(uptime: Fix): (r: Fix)
    ensures uptime < UPTIME_LIMIT ==> r == uptime + ONE
    ensures uptime <= UPTIME_LIMIT ==> r < MEAN_VARIANCE_ESTIMATOR_FIX16_MAX
    ensures uptime >= UPTIME_LIMIT ==> r == uptime
  {
    if uptime < UPTIME_LIMIT then Add(uptime, SAMPLING_INTERVAL) else uptime
  }

  /** The gating threshold the uptime sigmoid blends from 510 down to 340. */
  function GatingThreshold(blend: Fix): Fix
  {
    Add(GATING_THRESHOLD, Mul(Sub(GATING_THRESHOLD_INITIAL, GATING_THRESHOLD), blend))
  }

  /** The gating duration after one more interval, never below zero. */
  function GatingDuration(previous: Fix, sigmoid_gating_mean: Fix): (r: Fix)
    ensures r >= 0
  {
    var d := Add(previous, Mul(Quot(SAMPLING_INTERVAL, 60 * ONE),
                              Sub(Mul(Sub(ONE, sigmoid_gating_mean), Add(ONE, GATING_MAX_RATIO)),
                                  GATING_MAX_RATIO)));
    if d < ZERO then ZERO else d
  }

  /** The learning rates one step of `calculate_gamma` derives, and the sigmoid it leaves behind. */
  datatype GammaRates = GammaRates(gamma_mean: Fix, gamma_variance: Fix, sigmoid: EstimatorSigmoid,
                                   sigmoid_gating_mean: Fix)

  /**
   * The sigmoid part of `calculate_gamma`: the learning rates of the mean
   * and the variance for this sample, from the counted-up uptimes and from
   * the index the previous sample produced. The sigmoid's parameters are
   * given as the firmware passes them: its `set_parameters` takes L, K, X0
   * in that order.
   */
  function Rates(gamma: Fix, gamma_initial_mean: Fix, gamma_initial_variance: Fix, uptime_gamma: Fix, uptime_gating: Fix, voc_index_from_prior: Fix): Result<GammaRates, Fault>
  {
    var mean_sigmoid := EstimatorSigmoid(ONE, INIT_DURATION_MEAN, INIT_TRANSITION_MEAN);
    var sigmoid_gamma_mean :- mean_sigmoid.Process(uptime_gamma);
    var gamma_mean := Add(gamma, Mul(Sub(gamma_initial_mean, gamma), sigmoid_gamma_mean));
    var gating_blend_mean :- mean_sigmoid.Process(uptime_gating);
    var gating_sigmoid_mean := EstimatorSigmoid(ONE, GatingThreshold(gating_blend_mean), GATING_THRESHOLD_TRANSITION);
    var sigmoid_gating_mean :- gating_sigmoid_mean.Process(voc_index_from_prior);
    var variance_sigmoid := EstimatorSigmoid(ONE, INIT_DURATION_VARIANCE, INIT_TRANSITION_VARIANCE);
    var sigmoid_gamma_variance :- variance_sigmoid.Process(uptime_gamma);
    var gamma_variance := Add(gamma, Mul(Sub(gamma_initial_variance, gamma),
                                           Sub(sigmoid_gamma_variance, sigmoid_gamma_mean)));
    var gating_blend_variance :- variance_sigmoid.Process(uptime_gating);
    var gating_sigmoid_variance := EstimatorSigmoid(ONE, GatingThreshold(gating_blend_variance), GATING_THRESHOLD_TRANSITION);
    var sigmoid_gating_variance :- gating_sigmoid_variance.Process(voc_index_from_prior);
    Ok(GammaRates(Mul(sigmoid_gating_mean, gamma_mean), Mul(sigmoid_gating_variance, gamma_variance),
                  gating_sigmoid_variance, sigmoid_gating_mean))
  }

  /** `calculate_gamma`: counts the uptimes up, derives the learning rates and tracks how long learning is gated. */
  function CalculateGamma(s: EstimatorState, voc_index_from_prior: Fix): Result<EstimatorState, Fault>
  {
    var uptime_gamma := CountUp(s.uptime_gamma);
    var uptime_gating := CountUp(s.uptime_gating);
    var rates :- Rates(s.gamma, s.gamma_initial_mean, s.gamma_initial_variance, uptime_gamma, uptime_gating, voc_index_from_prior);
    var duration := GatingDuration(s.gating_duration_minutes, rates.sigmoid_gating_mean);
    Ok(s.(
      uptime_gamma := uptime_gamma,
      uptime_gating := if duration > s.gating_max_duration_minutes then ZERO else uptime_gating,
      sigmoid := rates.sigmoid,
      gamma_mean := rates.gamma_mean,
      gamma_variance := rates.gamma_variance,
      gating_duration_minutes := duration))
  }

  /**
   * The uptime counters step by exactly one interval and stop at the limit,
   * the gating duration never goes negative, the gating uptime restarts
   * once the duration exceeds its maximum, and the learned mean and spread
   * are left alone.
   */
  lemma GammaCounters(s: EstimatorState, voc_index_from_prior: Fix)
    requires CalculateGamma(s, voc_index_from_prior).Ok?
    ensures var t := CalculateGamma(s, voc_index_from_prior).value;
      && (s.uptime_gamma < UPTIME_LIMIT ==> t.uptime_gamma == s.uptime_gamma + ONE)
      && (s.uptime_gamma <= UPTIME_LIMIT ==> t.uptime_gamma < MEAN_VARIANCE_ESTIMATOR_FIX16_MAX)
      && (s.uptime_gating <= UPTIME_LIMIT ==> t.uptime_gating < MEAN_VARIANCE_ESTIMATOR_FIX16_MAX)
      && t.gating_duration_minutes >= 0
      && (t.gating_duration_minutes > s.gating_max_duration_minutes ==> t.uptime_gating == 0)
      && t.mean == s.mean && t.std == s.std && t.sraw_offset == s.sraw_offset
      && t.gamma == s.gamma && t.initialized == s.initialized
  {
    var uptime_gamma := CountUp(s.uptime_gamma);
    var uptime_gating := CountUp(s.uptime_gating);
    var rates := Rates(s.gamma, s.gamma_initial_mean, s.gamma_initial_variance, uptime_gamma, uptime_gating,
                       voc_index_from_prior).value;
    var duration := GatingDuration(s.gating_duration_minutes, rates.sigmoid_gating_mean);
    assert CalculateGamma(s, voc_index_from_prior).value == s.(
      uptime_gamma := uptime_gamma,
      uptime_gating := if duration > s.gating_max_duration_minutes then ZERO else uptime_gating,
      sigmoid := rates.sigmoid,
      gamma_mean := rates.gamma_mean,
      gamma_variance := rates.gamma_variance,
      gating_duration_minutes := duration);
  }

  /** Folds a mean that has drifted 100 or more away from zero into the offset. */
  function Recenter(s: EstimatorState): EstimatorState
  {
    if s.mean >= 100 * ONE || s.mean <= -100 * ONE then s.(sraw_offset := Add(s.sraw_offset, s.mean), mean := ZERO)
    else s
  }

  /** Recentering leaves the reported mean unchanged and the relative mean within 100 of zero. */
  lemma RecenterKeepsMean(s: EstimatorState)
    ensures GetMean(Recenter(s)) == GetMean(s)
    ensures -100 * ONE < Recenter(s).mean < 100 * ONE
  {
    if s.mean >= 100 * ONE || s.mean <= -100 * ONE {
      assert Add(ZERO, Add(s.sraw_offset, s.mean)) == Add(s.sraw_offset, s.mean);
      AddCommutes(s.sraw_offset, s.mean);
    }
  }

  /**
   * The new spread: the square root of the shrunk old variance plus the
   * weighted squared deviation, computed in two roots to stay in range
   * (scaled down by four once the values get large). It is never negative.
   */
  function NewSpread(std: Fix, gamma_variance: Fix, delta_sgp: Fix): (r: Result<Fix, Fault>)
    ensures r.Err? ==> r.error == NegativeSqrt
    ensures r.Ok? ==> r.value >= 0
  {
    var c := Add(std, Abs(delta_sgp));
    var additional_scaling := if c > 1440 * ONE then 4 * ONE else ONE;
    var shrink := Mul(additional_scaling, Sub(MEAN_VARIANCE_ESTIMATOR_GAMMA_SCALING, gamma_variance));
    var spread := Add(Mul(std, Quot(std, Mul(MEAN_VARIANCE_ESTIMATOR_GAMMA_SCALING, additional_scaling))),
                      Mul(Quot(Mul(gamma_variance, delta_sgp), additional_scaling), delta_sgp));
    var left :- Sqrt(shrink);
    var right :- Sqrt(spread);
    SqrtProductNonNegative(shrink, spread);
    Ok(Mul(left, right))
  }

  /** `process`: learns from one sample. */
  function Process(s: EstimatorState, sraw: Fix, voc_index_from_prior: Fix): Result<EstimatorState, Fault>
  {
    if !s.initialized then Ok(s.(initialized := true, sraw_offset := sraw, mean := ZERO))
    else
      var s1 := Recenter(s);
      var relative := Sub(sraw, s1.sraw_offset);
      var s2 :- CalculateGamma(s1, voc_index_from_prior);
      var delta_sgp := Quot(Sub(relative, s2.mean), MEAN_VARIANCE_ESTIMATOR_GAMMA_SCALING);
      var std :- NewSpread(s2.std, s2.gamma_variance, delta_sgp);
      Ok(s2.(std := std, mean := Add(s2.mean, Mul(s2.gamma_mean, delta_sgp))))
  }

  /** The first sample after a restart becomes the offset: the reported mean is that sample, the spread is kept. */
  lemma FirstSampleSetsOffset(s: EstimatorState, sraw: Fix, voc_index_from_prior: Fix)
    requires !s.initialized
    ensures Process(s, sraw, voc_index_from_prior).Ok?
    ensures var t := Process(s, sraw, voc_index_from_prior).value;
      t.initialized && GetMean(t) == sraw && t.std == s.std
  {
  }

  /** Two roots no larger than the square root of a bound multiply to at most that bound. */
  lemma RootProduct(l: nat, r: nat, m: nat)
    requires l * l <= m && r * r <= m
    ensures l * r <= m
  {
    if l <= r {
      assert l * r <= r * r;
    } else {
      assert l * r <= l * l;
    }
  }

  /** The product of the two square roots that form the new spread never wraps below zero. */
  lemma SqrtProductNonNegative(a: Fix, b: Fix)
    requires Sqrt(a).Ok? && Sqrt(b).Ok?
    ensures Mul(Sqrt(a).value, Sqrt(b).value) >= 0
  {
    var l := Sqrt(a).value;
    var r := Sqrt(b).value;
    assert l * l <= MAX * ONE;
    assert r * r <= MAX * ONE;
    RootsMultiplyInRange(l, r);
  }

  /** Two values whose squares fit the fixed-point range multiply without wrapping below zero. */
  lemma RootsMultiplyInRange(l: Fix, r: Fix)
    requires 0 <= l && 0 <= r
    requires l * l <= MAX * ONE && r * r <= MAX * ONE
    ensures Mul(l, r) >= 0
  {
    RootProduct(l, r, MAX * ONE);
    var p := l * r;
    assert 0 <= p <= MAX * ONE;
    assert Product(l, r) == p / ONE;
  }

  /** The learned spread never becomes negative. */
  lemma SpreadStaysNonNegative(s: EstimatorState, sraw: Fix, voc_index_from_prior: Fix)
    requires s.std >= 0
    requires Process(s, sraw, voc_index_from_prior).Ok?
    ensures Process(s, sraw, voc_index_from_prior).value.std >= 0
  {
  }
}
