/**
 * The CO2 alarm task of the first firmware: once a second it compares the
 * CO2 reading with 1500 ppm, counts consecutive readings above it, and
 * after ten of them runs the alarm branch and starts counting again. The
 * branch's `set_high` is commented out, so the buzzer pin is only ever
 * driven low.
 */
module Reporting {
  import opened Common

  /** The encoding of `1500.0f32`. */
  const THRESHOLD_BITS: bv32 := 0x44BB_8000

  const ALARM_COUNT: nat := 10

  /** An IEEE-754 binary32 NaN: exponent all ones, fraction non-zero. */
  predicate IsNaN(f: F32)
  {
    f.Bits() & 0x7F80_0000 == 0x7F80_0000 && f.Bits() & 0x007F_FFFF != 0
  }

  /**
   * `f > 1500.0`: false for a NaN and for every negative encoding; among
   * non-negative floats the order is that of the encodings read as
   * unsigned integers (IEEE 754-2019, section 3.4).
   */
  predicate Above(f: F32)
  {
    !IsNaN(f) && f.Bits() & 0x8000_0000 == 0 && f.Bits() > THRESHOLD_BITS
  }

  /** A reading of exactly 1500 does not count, nor does a negative one. */
  lemma AboveBoundary()
    ensures !Above(F32(0x44, 0xBB, 0x80, 0x00))
    ensures Above(F32(0x44, 0xBB, 0x80, 0x01))
    ensures !Above(F32(0xC4, 0xBB, 0x80, 0x01))
    ensures Above(F32(0x7F, 0x80, 0x00, 0x00))
    ensures !Above(F32(0x7F, 0xC0, 0x00, 0x00))
  {
  }

  /** The counter at the top of the loop after one more reading. */
  function Step(count: nat, above: bool): (r: nat)
    ensures r < ALARM_COUNT
    ensures above && count + 1 < ALARM_COUNT ==> r == count + 1
    ensures !above || count + 1 >= ALARM_COUNT ==> r == 0
  {
    var c := if above then count + 1 else 0;
    if c >= ALARM_COUNT then 0 else c
  }

  /** The counter after the readings `history` (true meaning above the threshold). */
  function Count(history: seq<bool>): nat
  {
    if history == [] then 0 else Step(Count(history[..|history| - 1]), history[|history| - 1])
  }

  /** Whether the last reading of `history` ran the alarm branch. */
  predicate Alarm(history: seq<bool>)
  {
    history != [] && history[|history| - 1] && Count(history[..|history| - 1]) + 1 >= ALARM_COUNT
  }

  /** The number of readings above the threshold at the end of `history`. */
  function TrailingRun(history: seq<bool>): (r: nat)
    ensures r <= |history|
    ensures forall k :: |history| - r <= k < |history| ==> history[k]
  {
    if history == [] || !history[|history| - 1] then 0 else TrailingRun(history[..|history| - 1]) + 1
  }

  /** One more reading above the threshold moves a count modulo ten on by one. */
  lemma ModTenStep(run: nat)
    ensures Step(run % ALARM_COUNT, true) == (run + 1) % ALARM_COUNT
    ensures run % ALARM_COUNT + 1 >= ALARM_COUNT <==> (run + 1) % ALARM_COUNT == 0
  {
  }

  /** The counter is the length of the current run above the threshold, modulo ten. */
  lemma {:induction false} CountIsRunModTen(history: seq<bool>)
    ensures Count(history) == TrailingRun(history) % ALARM_COUNT
  {
    if history != [] {
      var prefix := history[..|history| - 1];
      CountIsRunModTen(prefix);
      if history[|history| - 1] {
        ModTenStep(TrailingRun(prefix));
      }
    }
  }

  /**
   * The alarm runs exactly when the current run above the threshold reaches
   * a multiple of ten: so only after ten consecutive readings above 1500.
   */
  lemma AlarmIff(history: seq<bool>)
    ensures Alarm(history) <==> history != [] && TrailingRun(history) > 0 && TrailingRun(history) % ALARM_COUNT == 0
    ensures Alarm(history) ==>
      |history| >= ALARM_COUNT && forall k :: |history| - ALARM_COUNT <= k < |history| ==> history[k]
  {
    if history != [] {
      var prefix := history[..|history| - 1];
      CountIsRunModTen(prefix);
      ModTenStep(TrailingRun(prefix));
      if Alarm(history) {
        var run := TrailingRun(history);
        assert run == TrailingRun(prefix) + 1;
        assert run % ALARM_COUNT == 0 && run > 0;
        assert run >= ALARM_COUNT;
      }
    }
  }

  class Reporter {
    var count: nat
    /** The level of the buzzer pin. */
    var buzzerHigh: bool
    /** Every reading compared so far, oldest first. */
    ghost var history: seq<bool>

    ghost predicate Valid()
      reads this
    {
      count == Count(history)
    }

    constructor (buzzerHigh: bool)
      ensures count == 0 && history == [] && this.buzzerHigh == buzzerHigh
      ensures Valid()
    {
      count := 0;
      this.buzzerHigh := buzzerHigh;
      history := [];
    }

    /**
     * One pass of the loop, after its one-second wait: count or reset, then
     * run the alarm branch (drive the buzzer low, reset) at ten.
     */
    method Tick(co2: F32) returns (alarm: bool)
      requires Valid()
      modifies this
      ensures Valid()
      ensures history == old(history) + [Above(co2)]
      ensures alarm <==> Alarm(history)
      ensures count < ALARM_COUNT
      ensures alarm ==> !buzzerHigh
      ensures !alarm ==> buzzerHigh == old(buzzerHigh)
    {
      history := history + [Above(co2)];
      assert history[..|history| - 1] == old(history);
      if Above(co2) {
        count := count + 1;
      } else {
        count := 0;
      }
      alarm := false;
      if count >= ALARM_COUNT {
        buzzerHigh := false;
        count := 0;
        alarm := true;
      }
    }
  }
}
