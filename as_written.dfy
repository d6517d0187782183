/** Two places where the driver's code, taken literally, does not do what it
    evidently means to do. Each is modelled here as written, with the input
    that shows the discrepancy; the rest of the model uses the corrected
    behaviour (Units.RampDelay and MotorSpec.PulseTick). */
module AsWritten {
  import opened Units
  import opened MotorSpec
  import MotorProperties

  datatype Option<T> = None | Some(value: T)

  /** STPDRV_SetRamp's `(TIMFREQ * 2) / (rampspeed / RampSlop)` stored into
      the uint16 RampDelay, with C's truncating division. None stands for
      the division by zero. */
  function RampDelayAsWritten(rampspeed: int16): (r: Option<uint16>)
    ensures r.None? <==> -RAMP_SLOP < rampspeed < RAMP_SLOP
    ensures r.Some? ==> (r.value - CDiv(2 * TIMFREQ, CDiv(rampspeed, RAMP_SLOP))) % 0x1_0000 == 0
  {
    var q := CDiv(rampspeed, RAMP_SLOP);
    if q == 0 then None else Some(Wrap16(CDiv(2 * TIMFREQ, q)))
  }

  /** Where the quotient fits in 16 bits the code and the corrected
      definition agree. */
  lemma RampDelayAgrees(rampspeed: int16)
    requires rampspeed >= RAMP_SLOP && 2 * TIMFREQ / (rampspeed / RAMP_SLOP) <= 0xFFFF
    ensures RampDelayAsWritten(rampspeed) == Some(RampDelay(rampspeed))
  {
  }

  /** The ramp installed by STPDRV_Init (4 steps/sec/sec) should tick every
      100000 timer ticks; stored as a uint16 it ticks every 34464, almost
      three times as often. The corrected value saturates instead. */
  lemma InitRampTruncated()
    ensures 2 * TIMFREQ / CDiv(4, RAMP_SLOP) == 100000
    ensures RampDelayAsWritten(4) == Some(34464)
    ensures RampDelay(4) == 0xFFFF
  {
  }

  /** A larger requested acceleration can give a slower ramp as written:
      6 steps/sec/sec yields a ramp tick every 1130 timer ticks, 8 one every
      50000. The corrected RampDelay is antitone (RampDelayMonotone). */
  lemma RampDelayNotMonotone()
    ensures RampDelayAsWritten(6) == Some(1130)
    ensures RampDelayAsWritten(8) == Some(50000)
    ensures RampDelay(8) <= RampDelay(6)
  {
    FloorDivChar(6, 2, 3);
    FloorDivChar(2 * TIMFREQ, 3, 66666);
    DivUnique(66666, 0x1_0000, 1, 1130);
    FloorDivChar(8, 2, 4);
    FloorDivChar(2 * TIMFREQ, 4, 50000);
    RampDelayMonotone(6, 8);
  }

  /** Channel 2 of TIM3_IRQHandler as written: on a high STEP level of motor
      2 it clears motor 1's STEP pin, so motor 2's level is never lowered;
      on a low level it raises motor 2's pin and counts the step. The result
      is the pair (motor 1, motor 2). */
  function Channel2AsWritten(m1: MotorRec, m2: MotorRec): (r: (MotorRec, MotorRec))
    ensures m2.stepHigh ==> r.0 == m1.(stepHigh := false) && r.1 == m2
    ensures !m2.stepHigh ==> r.0 == m1 && r.1 == PulseTick(m2)
  {
    if m2.stepHigh then (m1.(stepHigh := false), m2) else (m1, PulseTick(m2))
  }

  /** Motor 2's record after n channel-2 events as written. */
  function Motor2AsWritten(m1: MotorRec, m2: MotorRec, n: nat): (r: MotorRec)
    decreases n
  {
    if n == 0 then m2 else Channel2AsWritten(m1, Motor2AsWritten(m1, m2, n - 1)).1
  }

  /** As written, motor 2 takes one step and then sticks with STEP high:
      however many events follow, its position moves by exactly one. */
  lemma {:induction false} Motor2StepsOnce(m1: MotorRec, m2: MotorRec, n: nat)
    requires !m2.stepHigh && n >= 1
    ensures Motor2AsWritten(m1, m2, n) == PulseTick(m2)
    ensures Motor2AsWritten(m1, m2, n).pos == Wrap32(m2.pos + Delta(m2.dir))
    decreases n
  {
    if n > 1 {
      Motor2StepsOnce(m1, m2, n - 1);
    }
  }

  /** The discrepancy on a concrete input: from a low level at position 0,
      three events leave motor 2 at position 1 as written, while the
      corrected handler (PulseTick for both channels) has stepped twice. */
  lemma Motor2Discrepancy(m1: MotorRec, m2: MotorRec)
    requires !m2.stepHigh && m2.pos == 0 && m2.dir == CW
    ensures Motor2AsWritten(m1, m2, 3).pos == 1
    ensures MotorProperties.Pulses(m2, 3).pos == 2
  {
    Motor2StepsOnce(m1, m2, 3);
    MotorProperties.PulseAccounting(m2, 3);
  }
}
