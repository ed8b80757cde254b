/**
 * The tuning constants of the VOC index algorithm, as Q16.16 bit patterns
 * (the decimal value is bits / 65536). Constants the firmware writes with
 * `from_num` of a decimal literal are the nearest bit pattern to it.
 */
module VocConst {
  import opened Fixed

  const ZERO: Fix := 0
  const SAMPLING_INTERVAL: Fix := 0x0001_0000
  const INITIAL_BLACKOUT: Fix := 0x002D_0000
  const VOC_INDEX_GAIN: Fix := 0x00E6_0000
  const SRAW_STD_INITIAL: Fix := 0x0032_0000
  const SRAW_STD_BONUS: Fix := 0x00DC_0000
  const TAU_MEAN_VARIANCE_HOURS: Fix := 0x000C_0000
  const TAU_INITIAL_MEAN: Fix := 0x0014_0000
  const INIT_DURATION_MEAN: Fix := 0x0ABC_0000
  const INIT_TRANSITION_MEAN: Fix := 0x0000_028F
  const TAU_INITIAL_VARIANCE: Fix := 0x09C4_0000
  const INIT_DURATION_VARIANCE: Fix := 0x1450_0000
  const INIT_TRANSITION_VARIANCE: Fix := 0x0000_028F
  const GATING_THRESHOLD: Fix := 0x0154_0000
  const GATING_THRESHOLD_INITIAL: Fix := 0x01FE_0000
  const GATING_THRESHOLD_TRANSITION: Fix := 0x0000_170A
  const GATING_MAX_DURATION_MINUTES: Fix := 0x00B4_0000
  const GATING_MAX_RATIO: Fix := 0x0000_4CCD
  const SIGMOID_L: Fix := 0x01F4_0000
  const SIGMOID_X0: Fix := 0x00D5_0000
  const VOC_INDEX_OFFSET_DEFAULT: Fix := 0x0064_0000
  const LP_TAU_FAST: Fix := 0x0014_0000
  const LP_TAU_SLOW: Fix := 0x01F4_0000
  const PERSISTENCE_UPTIME_GAMMA: Fix := 0x2A30_0000
  const MEAN_VARIANCE_ESTIMATOR_GAMMA_SCALING: Fix := 0x0040_0000
  const MEAN_VARIANCE_ESTIMATOR_FIX16_MAX: Fix := 0x7FFF_0000

  /** `from_num(-0.0065)`, the slope of the scaled sigmoid. */
  const SIGMOID_K: Fix := -0x1AA
  /** `from_num(-0.2)`, the adaptive low-pass exponent factor. */
  const LP_ALPHA: Fix := -0x3333
  /** `from_num(0.5)`. */
  const POINT_FIVE: Fix := 0x8000
}
