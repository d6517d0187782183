/** The driver's mutable state: one Motor object per TMotor record, updated in
    place by the API calls and the timer interrupt, and the Driver that owns
    the two motors and demultiplexes the shared timer interrupt. */
module Driver {
  import opened Units
  import opened MotorSpec

  /** A TMotor record, the interrupt-enable bits of its step and ramp
      channels, and the levels of its STEP and DIR outputs. */
  class Motor {
    var pos: int32
    var dir: Direction
    var state: MotionState
    var curDelay: uint16
    var rampDelay: uint16
    var rampSlop: uint16
    var targetSpeed: uint16
    var targetSpeed2: uint16
    var targetCurSpeed: uint16
    var targetState: MotionState
    var stepArmed: bool
    var rampArmed: bool
    var stepHigh: bool
    var dirHigh: bool

    /** The record as a value. */
    function Rec(): MotorRec
      reads this
    {
      MotorRec(pos, dir, state, curDelay, rampDelay, rampSlop, targetSpeed, targetSpeed2,
               targetCurSpeed, targetState, stepArmed, rampArmed, stepHigh, dirHigh)
    }

    ghost predicate Valid()
      reads this
    {
      MotorSpec.Valid(Rec())
    }

    /** The static initialiser followed by the per-motor part of STPDRV_Init. */
    constructor Init()
      ensures Valid() && Rec() == Initial()
    {
      pos, dir, state, curDelay := 0, CW, Stopped, OFF_DELAY;
      rampDelay, rampSlop := 0, 0;
      targetSpeed, targetSpeed2, targetCurSpeed, targetState := 0, 0, 0, Stopped;
      stepArmed, rampArmed, stepHigh, dirHigh := false, false, false, false;
      new;
      curDelay := OFF_DELAY;
      ResetTargetSpeed();
      SetDir(CW);
      SetRamp(4);
    }

    /** __ResetTargetSpeed */
    method ResetTargetSpeed()
      modifies this
      ensures Rec() == ResetTargets(old(Rec()))
    {
      rampArmed := false;
      targetSpeed := 0;
      targetSpeed2 := 0;
      targetCurSpeed := 0;
      targetState := Stopped;
    }

    /** __MotorOff */
    method MotorOff()
      modifies this
      ensures Rec() == MotorSpec.MotorOff(old(Rec()))
    {
      stepArmed := false;
      curDelay := OFF_DELAY;
    }

    /** __MotorOn: arm the step channel unless it is armed already. */
    method MotorOn()
      modifies this
      ensures Rec() == MotorSpec.MotorOn(old(Rec()))
    {
      if !stepArmed {
        stepArmed := true;
      }
    }

    /** __MotorSetDir */
    method SetDir(d: Direction)
      modifies this
      ensures Rec() == MotorSpec.SetDir(old(Rec()), d)
    {
      dirHigh := d != CCW;
      dir := d;
    }

    /** STPDRV_SetRamp */
    method SetRamp(rampspeed: int16)
      modifies this
      ensures Rec() == MotorSpec.SetRamp(old(Rec()), rampspeed)
      ensures old(Valid()) ==> Valid()
    {
      rampSlop := RAMP_SLOP;
      rampDelay := RampDelay(rampspeed);
    }

    /** __TargetSpeedDone */
    method TargetSpeedDone()
      requires Valid() && rampArmed && targetCurSpeed == targetSpeed
      modifies this
      ensures Valid() && Rec() == MotorSpec.TargetSpeedDone(old(Rec()))
    {
      if targetSpeed2 > 0 {
        SetDir(if dir == CW then CCW else CW);
        targetSpeed := targetSpeed2;
        targetSpeed2 := 0;
      } else {
        state := targetState;
        ResetTargetSpeed();
        if state == Stopped || curDelay == 0 {
          MotorOff();
        }
      }
    }

    /** __SetTargetSpeed: the two filters, then the request proper. */
    method SetTargetSpeed(speed: uint16, d: Direction, st: MotionState)
      requires Valid()
      modifies this
      ensures Valid() && Rec() == MotorSpec.SetTargetSpeed(old(Rec()), speed, d, st)
    {
      if speed < MIN_SPEED || speed > MAX_SPEED {
        return;
      }
      if targetSpeed == speed && targetState == st && dir == d {
        return;
      }
      Request(speed, d, st);
    }

    /** The body of __SetTargetSpeed past its filters, with the C arithmetic:
        the seed is stored as a uint16. */
    method Request(speed: uint16, d: Direction, st: MotionState)
      requires Valid() && !Ignored(Rec(), speed, d, st)
      modifies this
      ensures Rec() == MotorSpec.SetTargetSpeed(old(Rec()), speed, d, st)
    {
      ghost var m := Rec();
      Stage(speed, d);
      ghost var seeded := Rec().(targetState := st, targetCurSpeed := Seed(m.curDelay));
      targetState := st;
      targetCurSpeed := Wrap16(TIMFREQ / curDelay + 1);
      assert Rec() == seeded;
      MotorOn();
      if !rampArmed {
        rampArmed := true;
      }
      assert Rec() == MotorSpec.MotorOn(seeded).(rampArmed := true);
    }

    /** The direction/target part of __SetTargetSpeed. */
    method Stage(speed: uint16, d: Direction)
      modifies this
      ensures Rec() == MotorSpec.Stage(old(Rec()), speed, d)
    {
      if dir != d {
        targetSpeed := MIN_SPEED;
        targetSpeed2 := speed;
      } else {
        SetDir(d);
        targetSpeed := speed;
        targetSpeed2 := 0;
      }
    }

    /** __OnRampTimer, with the C arithmetic: the cursor is a uint16 that
        wraps, and the period is stored as a uint16. Under the invariant
        neither wraps and the divisor is never zero. */
    method OnRampTimer()
      requires Valid() && rampArmed
      modifies this
      ensures Valid() && Rec() == RampTick(old(Rec()))
    {
      ghost var m := Rec();
      if targetSpeed > targetCurSpeed {
        targetCurSpeed := Wrap16(targetCurSpeed + rampSlop);
        assert targetCurSpeed == m.targetCurSpeed + RAMP_SLOP;
        if targetCurSpeed > targetSpeed {
          targetCurSpeed := targetSpeed;
        }
        assert targetCurSpeed == Approach(m.targetCurSpeed, m.targetSpeed, m.rampSlop);
        curDelay := Wrap16(TIMFREQ / targetCurSpeed);
        assert curDelay == Period(targetCurSpeed);
      } else if targetSpeed < targetCurSpeed {
        targetCurSpeed := Wrap16(targetCurSpeed - rampSlop);
        assert targetCurSpeed == m.targetCurSpeed - RAMP_SLOP;
        if targetCurSpeed < targetSpeed {
          targetCurSpeed := targetSpeed;
        }
        assert targetCurSpeed == Approach(m.targetCurSpeed, m.targetSpeed, m.rampSlop);
        curDelay := Wrap16(TIMFREQ / targetCurSpeed);
        assert curDelay == Period(targetCurSpeed);
      } else {
        TargetSpeedDone();
      }
    }

    /** The per-motor body of a step channel of TIM3_IRQHandler: the STEP
        level is read back and toggled, and a rising edge counts one step. */
    method OnStepTimer()
      modifies this
      ensures Rec() == PulseTick(old(Rec()))
      ensures old(Valid()) ==> Valid()
    {
      if stepHigh {
        stepHigh := false;
      } else {
        stepHigh := true;
        if dir == CW {
          pos := Wrap32(pos + 1);
        } else {
          pos := Wrap32(pos - 1);
        }
      }
    }

    /** STPDRV_Move */
    method Move(d: Direction, speed: int16)
      requires Valid()
      modifies this
      ensures Valid() && Rec() == MotorSpec.Move(old(Rec()), d, speed)
    {
      SetTargetSpeed(Wrap16(speed), d, Moving);
    }

    /** TPDRV_Stop */
    method Stop(hardstop: int16)
      requires Valid()
      modifies this
      ensures Valid() && Rec() == MotorSpec.Stop(old(Rec()), hardstop)
    {
      if hardstop != 0 {
        SetTargetSpeed(MIN_SPEED, dir, Stopped);
      } else {
        ResetTargetSpeed();
        MotorOff();
        state := Stopped;
      }
    }

    /** STPDRV_GetPos */
    method GetPos() returns (p: int32)
      ensures p == Rec().pos
    {
      p := pos;
    }

    /** STPDRV_GetDir */
    method GetDir() returns (d: Direction)
      ensures d == Rec().dir
    {
      d := dir;
    }

    /** STPDRV_GetState */
    method GetState() returns (s: MotionState)
      ensures s == Rec().state
    {
      s := state;
    }
  }

  /** The Motors[2] table and the shared timer's interrupt handler. */
  class Driver {
    const motor1: Motor
    const motor2: Motor

    ghost predicate Valid()
      reads this, motor1, motor2
    {
      motor1 != motor2 && motor1.Valid() && motor2.Valid()
    }

    /** The record initialisation of STPDRV_Init for both motors. */
    constructor Init()
      ensures Valid() && fresh(motor1) && fresh(motor2)
      ensures motor1.Rec() == Initial() && motor2.Rec() == Initial()
    {
      motor1 := new Motor.Init();
      motor2 := new Motor.Init();
    }

    /** TIM3_IRQHandler: cc1..cc4 are the compare flags pending on entry.
        Each channel is served only while its interrupt is enabled, in the
        order motor 1 step, motor 2 step, motor 1 ramp, motor 2 ramp. */
    method OnTimerInterrupt(cc1: bool, cc2: bool, cc3: bool, cc4: bool)
      requires Valid()
      modifies motor1, motor2
      ensures Valid()
      ensures motor1.Rec() == RampChannel(cc3, StepChannel(cc1, old(motor1.Rec())))
      ensures motor2.Rec() == RampChannel(cc4, StepChannel(cc2, old(motor2.Rec())))
    {
      if cc1 && motor1.stepArmed {
        motor1.OnStepTimer();
      }
      if cc2 && motor2.stepArmed {
        motor2.OnStepTimer();
      }
      if cc3 && motor1.rampArmed {
        motor1.OnRampTimer();
      }
      if cc4 && motor2.rampArmed {
        motor2.OnRampTimer();
      }
    }
  }
}
