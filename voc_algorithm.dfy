/**
 * `VocAlgorithm`: turns the SGP40's raw signal, one sample a second, into
 * the VOC index (1 to 500, 100 being the learned average). After a
 * 45-sample blackout each sample is clipped, normalised by the learned
 * mean and spread (MOX model), mapped through the scaled sigmoid,
 * smoothed by the adaptive low-pass filter, and fed back to the mean and
 * variance estimator.
 */
module VocIndex {
  import opened Common
  import opened Fixed
  import opened VocConst
  import opened VocSigmoid
  import opened VocEstimator
  import VocLowpass

  /** An `i32` argument. */
  type Int32 = x: int | MIN <= x <= MAX

  /** The algorithm's fields; the estimator, the two models and the filter are nested by value. */
  datatype AlgorithmState = AlgorithmState(
    voc_index_offset: Fix,
    tau_mean_variance_hours: Fix,
    gating_max_duration_minutes: Fix,
    sraw_std_initial: Fix,
    uptime: Fix,
    sraw: Fix,
    voc_index: Fix,
    estimator: EstimatorState,
    mox: MoxModel,
    scaled: SigmoidScaled,
    lowpass: VocLowpass.LowpassState)

  /** What `new_instances` builds. */
  datatype Instances = Instances(estimator: EstimatorState, mox: MoxModel, scaled: SigmoidScaled,
                                 lowpass: VocLowpass.LowpassState)

  /**
   * `new_instances`: a restarted estimator, a MOX model on its initial
   * spread and zero mean, the scaled sigmoid for the offset and a fresh
   * filter. A whole number of hours cannot make it fail.
   */
  function NewInstances(sraw_std_initial: Fix, tau_mean_variance_hours: Fix, gating_max_duration_minutes: Fix,
                        voc_index_offset: Fix): (r: Instances)
    requires tau_mean_variance_hours % ONE == 0
    ensures !r.estimator.initialized && r.estimator.mean == 0 && r.estimator.sraw_offset == 0
    ensures GetMean(r.estimator) == 0 && GetStd(r.estimator) == sraw_std_initial
    ensures r.estimator.gating_max_duration_minutes == gating_max_duration_minutes
    ensures r.mox == MoxModel(sraw_std_initial, 0) && r.scaled.offset == voc_index_offset
    ensures r.lowpass == VocLowpass.InitialLowpass()
  {
    WholeHoursNeverFault(NEW_ESTIMATOR, sraw_std_initial, tau_mean_variance_hours, gating_max_duration_minutes);
    var estimator := SetParameters(NEW_ESTIMATOR, sraw_std_initial, tau_mean_variance_hours, gating_max_duration_minutes).value;
    Instances(estimator, MoxModel(GetStd(estimator), GetMean(estimator)), SigmoidScaled(voc_index_offset),
              VocLowpass.InitialLowpass())
  }

  /** `VocAlgorithm::default`. */
  function DefaultAlgorithm(): (r: AlgorithmState)
    ensures r.uptime == 0 && r.voc_index == 0 && r.estimator.sraw_offset == 0 && !r.estimator.initialized
  {
    var i := NewInstances(SRAW_STD_INITIAL, TAU_MEAN_VARIANCE_HOURS, GATING_MAX_DURATION_MINUTES, VOC_INDEX_OFFSET_DEFAULT);
    AlgorithmState(VOC_INDEX_OFFSET_DEFAULT, TAU_MEAN_VARIANCE_HOURS, GATING_MAX_DURATION_MINUTES, SRAW_STD_INITIAL,
                   ZERO, ZERO, ZERO, i.estimator, i.mox, i.scaled, i.lowpass)
  }

  /** `get_states`: the learned mean and spread, as whole numbers. */
  function SavedStates(s: AlgorithmState): (r: (int, int))
    ensures -0x8000 <= r.0 <= 0x7FFF && -0x8000 <= r.1 <= 0x7FFF
  {
    (Floor(GetMean(s.estimator)), Floor(GetStd(s.estimator)))
  }

  /** `set_states`: restores a mean and spread saved earlier, and marks the estimator as trained. */
  function Restored(s: AlgorithmState, state0: Int32, state1: Int32): AlgorithmState
  {
    s.(estimator := VocEstimator.SetStates(s.estimator, FromInt(state0), FromInt(state1), PERSISTENCE_UPTIME_GAMMA),
       sraw := FromInt(state0))
  }

  /**
   * Restoring states on an algorithm whose estimator has no offset (a
   * fresh or re-tuned one) gives back exactly the saved values.
   */
  lemma StatesRoundTrip(s: AlgorithmState, state0: Int32, state1: Int32)
    requires s.estimator.sraw_offset == 0
    requires -0x8000 <= state0 <= 0x7FFF && -0x8000 <= state1 <= 0x7FFF
    ensures SavedStates(Restored(s, state0, state1)) == (state0, state1)
    ensures Restored(s, state0, state1).estimator.initialized
  {
    assert FromInt(state0) == state0 * ONE;
    assert FromInt(state1) == state1 * ONE;
  }

  /**
   * On an estimator that has already moved its offset, the restored mean
   * is read back shifted by that offset: the round trip holds only on a
   * fresh algorithm.
   */
  lemma StatesRoundTripNeedsZeroOffset(s: AlgorithmState)
    requires s.estimator.sraw_offset == ONE
    ensures SavedStates(Restored(s, 5, 7)) == (6, 7)
  {
    assert FromInt(5) == 5 * ONE;
    assert FromInt(7) == 7 * ONE;
    assert GetMean(Restored(s, 5, 7).estimator) == 6 * ONE;
  }

  /** `set_tuning_parameters`: rebuilds the estimator, the models and the filter from whole-number settings. */
  function Retuned(s: AlgorithmState, voc_index_offset: Int32, learning_time_hours: Int32,
                               gating_duration_minutes: Int32, std_initial: Int32): (r: AlgorithmState)
    ensures r.uptime == s.uptime && r.sraw == s.sraw && r.voc_index == s.voc_index
    ensures r.voc_index_offset == s.voc_index_offset && r.tau_mean_variance_hours == s.tau_mean_variance_hours
    ensures !r.estimator.initialized && GetStd(r.estimator) == FromInt(std_initial) && GetMean(r.estimator) == 0
    ensures r.scaled.offset == FromInt(voc_index_offset) && r.lowpass == VocLowpass.InitialLowpass()
  {
    FromIntIsWhole(learning_time_hours);
    var i := NewInstances(FromInt(std_initial), FromInt(learning_time_hours), FromInt(gating_duration_minutes),
                          FromInt(voc_index_offset));
    s.(estimator := i.estimator, mox := i.mox, scaled := i.scaled, lowpass := i.lowpass)
  }

  /** The raw signal shifted down by 20000 and clipped to 1..32767. */
  function ClampRaw(sraw: int): (r: int)
    ensures 1 <= r <= 32767
    ensures 20001 <= sraw <= 52767 ==> r == sraw - 20000
    ensures sraw <= 20001 ==> r == 1
    ensures sraw >= 52767 ==> r == 32767
  {
    if sraw < 20001 then 1 else if sraw > 52767 then 32767 else sraw - 20000
  }

  /** The reported index: the value plus one half, floored (`saturating_from_fixed` always fits an `i32`). */
  function Output(voc_index: Fix): int
  {
    Floor(Add(voc_index, POINT_FIVE))
  }

  /**
   * The signal path of `process` for an accepted, clipped sample: MOX
   * model, scaled sigmoid, low-pass filter, then the index raised to at
   * least one half. Gives the index and the new filter state.
   */
  function Smooth(s: AlgorithmState, clipped: Fix): (r: Result<(Fix, VocLowpass.LowpassState), Fault>)
    ensures r.Ok? ==> r.value.0 >= POINT_FIVE && r.value.1.initialized
    ensures r.Ok? ==> r.value.0 == r.value.1.x3 || r.value.1.x3 < r.value.0 == POINT_FIVE
  {
    var normalised :- s.mox.Process(clipped);
    var scaled :- s.scaled.Process(normalised);
    var lowpass :- VocLowpass.Step(s.lowpass, scaled);
    Ok((if lowpass.x3 < POINT_FIVE then POINT_FIVE else lowpass.x3, lowpass))
  }

  /** The learning part of `process`: the estimator takes the sample and the MOX model follows it. */
  function Learn(t: AlgorithmState): (r: Result<AlgorithmState, Fault>)
    ensures r.Ok? ==> r.value.mox == MoxModel(GetStd(r.value.estimator), GetMean(r.value.estimator))
    ensures r.Ok? ==> r.value.(estimator := t.estimator, mox := t.mox) == t
  {
    var estimator :- VocEstimator.Process(t.estimator, t.sraw, t.voc_index);
    Ok(t.(estimator := estimator, mox := MoxModel(GetStd(estimator), GetMean(estimator))))
  }

  /** `process`: the new state and the index reported for one raw sample. */
  function Step(s: AlgorithmState, sraw: Int32): Result<(AlgorithmState, int), Fault>
  {
    if s.uptime <= INITIAL_BLACKOUT then
      var t := s.(uptime := Add(s.uptime, SAMPLING_INTERVAL));
      Ok((t, Output(t.voc_index)))
    else if !(0 < sraw < 65000) then Err(AssertFailed)
    else
      var clipped := FromInt(ClampRaw(sraw));
      var smoothed :- Smooth(s, clipped);
      var t := s.(sraw := clipped, voc_index := smoothed.0, lowpass := smoothed.1);
      if clipped > ZERO then
        var u :- Learn(t);
        Ok((u, Output(u.voc_index)))
      else
        Ok((t, Output(t.voc_index)))
  }

  /** During the blackout only the uptime advances, whatever the input, and the previous index is reported. */
  lemma BlackoutIgnoresInput(s: AlgorithmState, sraw: Int32)
    requires s.uptime <= INITIAL_BLACKOUT
    ensures Step(s, sraw).Ok?
    ensures Step(s, sraw).value.0 == s.(uptime := s.uptime + ONE)
    ensures Step(s, sraw).value.1 == Output(s.voc_index)
  {
  }

  /** After the blackout a sample outside 1..64999 aborts. */
  lemma OutOfRangeAborts(s: AlgorithmState, sraw: Int32)
    requires s.uptime > INITIAL_BLACKOUT && !(0 < sraw < 65000)
    ensures Step(s, sraw) == Err(AssertFailed)
  {
  }

  /**
   * After the blackout every accepted sample is stored clipped to
   * 1..32767, feeds the estimator (the clipped value is always positive),
   * leaves an index of at least one half, and the MOX model then follows
   * the estimator's mean and spread.
   */
  lemma AcceptedSampleLearns(s: AlgorithmState, sraw: Int32)
    requires s.uptime > INITIAL_BLACKOUT
    requires Step(s, sraw).Ok?
    ensures var t := Step(s, sraw).value.0;
      && ONE <= t.sraw <= 32767 * ONE
      && t.voc_index >= POINT_FIVE
      && t.mox == MoxModel(GetStd(t.estimator), GetMean(t.estimator))
      && t.uptime == s.uptime
  {
    var clipped := FromInt(ClampRaw(sraw));
    assert clipped == ClampRaw(sraw) * ONE;
  }

  /** An index of at least one half, not too close to the top of the range, is reported as at least one. */
  lemma ReportedIndexAtLeastOne(voc_index: Fix)
    requires POINT_FIVE <= voc_index <= MAX - POINT_FIVE
    ensures Output(voc_index) >= 1
  {
  }

  /** `VocAlgorithm`, whose methods update its fields in place. */
  class VocAlgorithm {
    var voc_index_offset: Fix
    var tau_mean_variance_hours: Fix
    var gating_max_duration_minutes: Fix
    var sraw_std_initial: Fix
    var uptime: Fix
    var sraw: Fix
    var voc_index: Fix
    var estimator: EstimatorState
    var mox: MoxModel
    var scaled: SigmoidScaled
    const lowpass: VocLowpass.AdaptiveLowpass

    function State(): AlgorithmState
      reads this, lowpass
    {
      AlgorithmState(voc_index_offset, tau_mean_variance_hours, gating_max_duration_minutes, sraw_std_initial,
                     uptime, sraw, voc_index, estimator, mox, scaled, lowpass.State())
    }

    constructor()
      ensures State() == DefaultAlgorithm()
      ensures fresh(lowpass)
    {
      var i := NewInstances(SRAW_STD_INITIAL, TAU_MEAN_VARIANCE_HOURS, GATING_MAX_DURATION_MINUTES,
                            VOC_INDEX_OFFSET_DEFAULT);
      voc_index_offset := VOC_INDEX_OFFSET_DEFAULT;
      tau_mean_variance_hours := TAU_MEAN_VARIANCE_HOURS;
      gating_max_duration_minutes := GATING_MAX_DURATION_MINUTES;
      sraw_std_initial := SRAW_STD_INITIAL;
      uptime, sraw, voc_index := ZERO, ZERO, ZERO;
      estimator, mox, scaled := i.estimator, i.mox, i.scaled;
      lowpass := new VocLowpass.AdaptiveLowpass();
    }

    function GetStates(): (r: (int, int))
      reads this
      ensures r == SavedStates(State())
    {
      (Floor(GetMean(estimator)), Floor(GetStd(estimator)))
    }

    method SetStates(state0: Int32, state1: Int32)
      modifies this
      ensures State() == Restored(old(State()), state0, state1)
    {
      estimator := VocEstimator.SetStates(estimator, FromInt(state0), FromInt(state1), PERSISTENCE_UPTIME_GAMMA);
      sraw := FromInt(state0);
    }

    method SetTuningParameters(voc_index_offset: Int32, learning_time_hours: Int32,
                               gating_duration_minutes: Int32, std_initial: Int32)
      modifies this, lowpass
      ensures State() == Retuned(old(State()), voc_index_offset, learning_time_hours,
                                                     gating_duration_minutes, std_initial)
    {
      FromIntIsWhole(learning_time_hours);
      var i := NewInstances(FromInt(std_initial), FromInt(learning_time_hours), FromInt(gating_duration_minutes),
                            FromInt(voc_index_offset));
      estimator, mox, scaled := i.estimator, i.mox, i.scaled;
      lowpass.Reset();
    }

    /** The signal path of `process`; only the filter changes. */
    method Smoothed(clipped: Fix) returns (r: Result<Fix, Fault>)
      modifies lowpass
      ensures r.Ok? <==> Smooth(old(State()), clipped).Ok?
      ensures r.Err? ==> Smooth(old(State()), clipped) == Err(r.error)
      ensures r.Ok? ==> r.value == Smooth(old(State()), clipped).value.0
      ensures r.Ok? ==> lowpass.State() == Smooth(old(State()), clipped).value.1
    {
      var index :- mox.Process(clipped);
      index :- scaled.Process(index);
      index :- lowpass.Process(index);
      if index < POINT_FIVE {
        index := POINT_FIVE;
      }
      r := Ok(index);
    }

    method Process(raw: Int32) returns (r: Result<int, Fault>)
      modifies this, lowpass
      ensures r.Ok? <==> Step(old(State()), raw).Ok?
      ensures r.Err? ==> Step(old(State()), raw) == Err(r.error)
      ensures r.Ok? ==> State() == Step(old(State()), raw).value.0 && r.value == Step(old(State()), raw).value.1
    {
      if uptime <= INITIAL_BLACKOUT {
        uptime := Add(uptime, SAMPLING_INTERVAL);
      } else {
        if !(raw > 0 && raw < 65000) {
          return Err(AssertFailed);
        }
        var clipped := if raw < 20001 then 1 else if raw > 52767 then 32767 else raw - 20000;
        var index :- Smoothed(FromInt(clipped));
        sraw, voc_index := FromInt(clipped), index;
        if sraw > ZERO {
          var _ :- LearnFromSample();
        }
      }
      r := Ok(Floor(Add(voc_index, POINT_FIVE)));
    }

    /** The learning part of `process`, on the fields: the estimator takes the sample and the MOX model follows it. */
    method LearnFromSample() returns (r: Result<(), Fault>)
      modifies this
      ensures r.Ok? <==> Learn(old(State())).Ok?
      ensures r.Err? ==> Learn(old(State())) == Err(r.error)
      ensures r.Ok? ==> State() == Learn(old(State())).value
    {
      var learned :- VocEstimator.Process(estimator, sraw, voc_index);
      estimator, mox := learned, MoxModel(GetStd(learned), GetMean(learned));
      r := Ok(());
    }
  }
}
