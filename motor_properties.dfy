/** Properties of sequences of driver events on one motor: the ramp's
    trajectory and convergence, the reversal protocol, stopping, and position
    bookkeeping over many STEP toggles. */
module MotorProperties {
  import opened Units
  import opened MotorSpec

  /** The record after n ramp-channel events. */
  function Ramp(m: MotorRec, n: nat): (r: MotorRec)
    requires Valid(m)
    ensures Valid(r)
    ensures r.pos == m.pos && r.stepHigh == m.stepHigh
    decreases n
  {
    if n == 0 then m else RampChannel(true, Ramp(m, n - 1))
  }

  lemma {:induction false} RampAdd(m: MotorRec, a: nat, b: nat)
    requires Valid(m)
    ensures Ramp(Ramp(m, a), b) == Ramp(m, a + b)
    decreases b
  {
    if b > 0 {
      RampAdd(m, a, b - 1);
    }
  }

  /** Ramp ticks needed to close the gap: ceil(Gap / RAMP_SLOP). */
  function Ticks(m: MotorRec): nat {
    (Gap(m) + RAMP_SLOP - 1) / RAMP_SLOP
  }

  /** Where the ramp cursor stands after k ticks: RAMP_SLOP per tick toward
      the target speed, never past it. */
  function Cursor(m: MotorRec, k: nat): int {
    if m.targetCurSpeed <= m.targetSpeed then Min(m.targetCurSpeed + RAMP_SLOP * k, m.targetSpeed)
    else Max(m.targetCurSpeed - RAMP_SLOP * k, m.targetSpeed)
  }

  /** Up to convergence, every ramp tick moves the cursor by exactly
      RAMP_SLOP toward the target, without overshoot, sets the period for
      the new cursor and changes nothing else. */
  lemma {:induction false} RampTrajectory(m: MotorRec, k: nat)
    requires Valid(m) && m.rampArmed && k <= Ticks(m)
    ensures var r := Ramp(m, k);
      && r.targetCurSpeed == Cursor(m, k)
      && r == m.(targetCurSpeed := r.targetCurSpeed, curDelay := r.curDelay)
      && (k > 0 ==> MIN_SPEED <= r.targetCurSpeed <= MAX_SPEED && r.curDelay == Period(r.targetCurSpeed))
    decreases k
  {
    if k > 0 {
      RampTrajectory(m, k - 1);
      var p := Ramp(m, k - 1);
      assert p.targetCurSpeed != p.targetSpeed;
      var r := RampTick(p);
      assert Ramp(m, k) == r;
      assert r.targetCurSpeed == Cursor(m, k);
      assert r == m.(targetCurSpeed := r.targetCurSpeed, curDelay := r.curDelay);
    }
  }

  /** After Ticks(m) ticks the cursor has reached the target; when there was
      a gap, the period is the target speed's. */
  lemma RampConverges(m: MotorRec)
    requires Valid(m) && m.rampArmed
    ensures var r := Ramp(m, Ticks(m));
      && r == m.(targetCurSpeed := m.targetSpeed, curDelay := r.curDelay)
      && (Ticks(m) > 0 ==> r.curDelay == Period(m.targetSpeed))
  {
    RampTrajectory(m, Ticks(m));
  }

  /** While ramping, the period moves monotonically toward the target's
      period: it shrinks when accelerating and grows when decelerating. */
  lemma RampPeriodMonotone(m: MotorRec, j: nat, k: nat)
    requires Valid(m) && m.rampArmed && 0 < j <= k <= Ticks(m)
    ensures m.targetCurSpeed <= m.targetSpeed ==> Ramp(m, k).curDelay <= Ramp(m, j).curDelay
    ensures m.targetCurSpeed > m.targetSpeed ==> Ramp(m, k).curDelay >= Ramp(m, j).curDelay
  {
    RampTrajectory(m, j);
    RampTrajectory(m, k);
    var a, b := Ramp(m, j).targetCurSpeed, Ramp(m, k).targetCurSpeed;
    if a <= b {
      PeriodAntitone(a, b);
    } else {
      PeriodAntitone(b, a);
    }
  }

  /** One tick after convergence with no reversal staged, the requested
      terminal state is committed and ramping stops; a terminal Stopped
      also powers the motor down, any other keeps it stepping at the target's
      period. */
  lemma CompleteRequest(m: MotorRec)
    requires Valid(m) && m.rampArmed && m.targetSpeed2 == 0
    ensures var r := Ramp(m, Ticks(m) + 1);
      && r.state == m.targetState && r.dir == m.dir
      && !r.rampArmed && r.targetSpeed == 0 && r.targetSpeed2 == 0
      && (r.stepArmed <==> m.targetState != Stopped)
      && (m.targetState == Stopped ==> r.curDelay == OFF_DELAY)
      && (m.targetState != Stopped && Ticks(m) > 0 ==> r.curDelay == Period(m.targetSpeed))
  {
    var k := Ticks(m);
    RampConverges(m);
    var c := Ramp(m, k);
    assert Ramp(m, k + 1) == TargetSpeedDone(c);
  }

  /** A staged reversal decelerates to the minimum speed in the old
      direction and then flips the direction once, with the cursor still at
      the minimum speed and the staged speed as the new target. */
  lemma ReversalFlip(m: MotorRec)
    requires Valid(m) && m.targetSpeed2 > 0
    ensures var k := Ticks(m);
      && m.rampArmed
      && (forall i :: 0 <= i <= k ==> Ramp(m, i).dir == m.dir)
      && Ramp(m, k).targetCurSpeed == MIN_SPEED
      && var f := Ramp(m, k + 1);
         && f.dir == Opposite(m.dir) && f.targetSpeed == m.targetSpeed2 && f.targetSpeed2 == 0
         && f.targetCurSpeed == MIN_SPEED && f.rampArmed && f.state == m.state
  {
    var k := Ticks(m);
    forall i | 0 <= i <= k
      ensures Ramp(m, i).dir == m.dir
    {
      RampTrajectory(m, i);
    }
    RampConverges(m);
    var c := Ramp(m, k);
    assert Ramp(m, k + 1) == TargetSpeedDone(c);
  }

  /** After the flip, the ramp accelerates in the new direction up to the
      staged speed and keeps ramping, so the next tick completes the
      request. */
  lemma ReversalProtocol(m: MotorRec)
    requires Valid(m) && m.targetSpeed2 > 0
    ensures var f := Ramp(m, Ticks(m) + 1);
      && var g := Ramp(f, Ticks(f));
      && g.dir == Opposite(m.dir) && g.targetCurSpeed == m.targetSpeed2
      && g.targetSpeed == m.targetSpeed2 && g.targetSpeed2 == 0 && g.rampArmed
  {
    var f := Ramp(m, Ticks(m) + 1);
    assert f.dir == Opposite(m.dir) && f.targetSpeed == m.targetSpeed2 && f.targetSpeed2 == 0
      && f.rampArmed by {
      ReversalFlip(m);
    }
    RampConverges(f);
  }

  /** Counted on one stream of ramp events: the reversed target speed is
      reached Ticks(m) + 1 + Ticks(f) events after the reversal was staged. */
  lemma ReversalDuration(m: MotorRec, n: nat)
    requires Valid(m) && m.targetSpeed2 > 0
    requires n == Ticks(m) + 1 + Ticks(Ramp(m, Ticks(m) + 1))
    ensures var g := Ramp(m, n);
      && g.dir == Opposite(m.dir) && g.targetCurSpeed == m.targetSpeed2
      && g.targetSpeed == m.targetSpeed2 && g.targetSpeed2 == 0 && g.rampArmed
  {
    var f := Ramp(m, Ticks(m) + 1);
    var g := Ramp(f, Ticks(f));
    assert g.dir == Opposite(m.dir) && g.targetCurSpeed == m.targetSpeed2
      && g.targetSpeed == m.targetSpeed2 && g.targetSpeed2 == 0 && g.rampArmed by {
      ReversalProtocol(m);
    }
    assert g == Ramp(m, n) by {
      RampAdd(m, Ticks(m) + 1, Ticks(f));
    }
  }

  /** The end-to-end scenario: from the initial record, Move(CW, 100) seeds
      the cursor at 2, reaches period 1000 after 49 ramp ticks, and the 50th
      tick commits Moving while the motor keeps stepping at that period. */
  lemma AccelerateFromRest()
    ensures var r := Move(Initial(), CW, 100);
      && r.targetCurSpeed == 2 && r.targetSpeed == 100 && r.rampArmed && r.stepArmed
      && Ticks(r) == 49
      && Ramp(r, 49).curDelay == 1000 && Ramp(r, 49).targetCurSpeed == 100
      && Ramp(r, 50).state == Moving && !Ramp(r, 50).rampArmed
      && Ramp(r, 50).stepArmed && Ramp(r, 50).curDelay == 1000
  {
    var r := Move(Initial(), CW, 100);
    assert Period(100) == 1000 by {
      FloorDivChar(TIMFREQ, 100, 1000);
    }
    RampConverges(r);
    CompleteRequest(r);
  }

  /** From rest, a clockwise request for the minimum speed is converged at once: the
      cursor is seeded at 2 from the off period, so the first ramp tick
      commits Moving with the step channel armed and the period still at
      OFF_DELAY, not Period(MIN_SPEED). */
  lemma MinSpeedFromRest()
    ensures var r := Move(Initial(), CW, MIN_SPEED);
      && r.targetCurSpeed == MIN_SPEED && Ticks(r) == 0
      && Ramp(r, 1).state == Moving && Ramp(r, 1).stepArmed && !Ramp(r, 1).rampArmed
      && Ramp(r, 1).curDelay == OFF_DELAY && OFF_DELAY != Period(MIN_SPEED)
  {
    var m := Initial();
    SetTargetSpeedEffect(m, MIN_SPEED, CW, Moving);
    CompleteRequest(Move(m, CW, MIN_SPEED));
  }

  /** A hard stop (nonzero hardstop) is a deceleration: the motor keeps its
      direction, decelerates to the minimum speed and, one tick after reaching
      it, is Stopped with both channels disarmed and the period back at OFF. */
  lemma HardStopDecelerates(m: MotorRec, hardstop: int16)
    requires Valid(m) && hardstop != 0
    requires !(m.targetSpeed == MIN_SPEED && m.targetState == Stopped && m.targetSpeed2 != 0)
    ensures var s := Stop(m, hardstop);
      && s.rampArmed && s.targetSpeed == MIN_SPEED && s.targetSpeed2 == 0
      && (forall i :: 0 <= i <= Ticks(s) ==> Ramp(s, i).dir == m.dir)
      && var r := Ramp(s, Ticks(s) + 1);
         && r.state == Stopped && !r.stepArmed && !r.rampArmed && r.curDelay == OFF_DELAY
         && r.dir == m.dir && r.pos == m.pos
  {
    var s := Stop(m, hardstop);
    forall i | 0 <= i <= Ticks(s)
      ensures Ramp(s, i).dir == m.dir
    {
      RampTrajectory(s, i);
    }
    CompleteRequest(s);
  }

  /** Re-issuing a request before any tick changes nothing. */
  lemma SetTargetSpeedIdempotent(m: MotorRec, speed: uint16, d: Direction, st: MotionState)
    requires Valid(m)
    ensures SetTargetSpeed(SetTargetSpeed(m, speed, d, st), speed, d, st) == SetTargetSpeed(m, speed, d, st)
  {
  }

  /** Re-issuing a request after k ramp ticks, before the ramp has converged.
      In the same direction (or when the first request was filtered) the
      duplicate filter holds and nothing changes. While a reversal is staged
      the filter compares the request with the lead-in target and the old
      direction, so it never matches: the targets, direction and channels
      stay as they are, but the cursor is re-seeded from the live period. */
  lemma SetTargetSpeedRepeated(m: MotorRec, speed: uint16, d: Direction, st: MotionState, k: nat)
    requires Valid(m) && k <= Ticks(SetTargetSpeed(m, speed, d, st))
    ensures var q := Ramp(SetTargetSpeed(m, speed, d, st), k);
      var q2 := SetTargetSpeed(q, speed, d, st);
      && (Ignored(m, speed, d, st) || m.dir == d ==> q2 == q)
      && (!Ignored(m, speed, d, st) && m.dir != d ==> q2 == q.(targetCurSpeed := Seed(q.curDelay)))
  {
    var r := SetTargetSpeed(m, speed, d, st);
    var q := Ramp(r, k);
    if r.rampArmed {
      RampTrajectory(r, k);
    } else {
      assert k == 0;
    }
    assert q == r.(targetCurSpeed := q.targetCurSpeed, curDelay := q.curDelay);
    if !Ignored(m, speed, d, st) {
      SetTargetSpeedEffect(m, speed, d, st);
    }
  }

  /** The re-seed on a concrete input: a motor cruising clockwise at full
      speed (period 100) is asked to reverse at full speed. The cursor is
      seeded at 1001 and one ramp tick brings it to 999, still at period 100;
      repeating the request then restores the record of the first request,
      so a caller that repeats it after every ramp tick never reverses. */
  lemma RepeatedReversalReseeds()
    ensures var m := MotorRec(0, CW, Moving, MIN_PERIOD, RampDelay(4), RAMP_SLOP, 0, 0, 0, Stopped,
                              true, false, false, true);
      var r := Move(m, CCW, MAX_SPEED);
      && Valid(m)
      && r.targetCurSpeed == MAX_SPEED + 1 && r.targetSpeed == MIN_SPEED && r.targetSpeed2 == MAX_SPEED
      && Ramp(r, 1).targetCurSpeed == MAX_SPEED - 1 && Ramp(r, 1).curDelay == MIN_PERIOD
      && Move(Ramp(r, 1), CCW, MAX_SPEED) == r
  {
    var m := MotorRec(0, CW, Moving, MIN_PERIOD, RampDelay(4), RAMP_SLOP, 0, 0, 0, Stopped,
                      true, false, false, true);
    var r := Move(m, CCW, MAX_SPEED);
    SetTargetSpeedEffect(m, MAX_SPEED, CCW, Moving);
    assert r.targetCurSpeed == MAX_SPEED + 1 by {
      FloorDivChar(TIMFREQ, MIN_PERIOD, 1000);
    }
    assert Ramp(r, 1).curDelay == MIN_PERIOD by {
      FloorDivChar(TIMFREQ, 999, 100);
    }
    SetTargetSpeedRepeated(m, MAX_SPEED, CCW, Moving, 1);
  }

  /** The record after n step-channel events with the channel armed. */
  function Pulses(m: MotorRec, n: nat): (r: MotorRec)
    ensures r == m.(stepHigh := r.stepHigh, pos := r.pos)
    decreases n
  {
    if n == 0 then m else PulseTick(Pulses(m, n - 1))
  }

  /** The position change of k steps in direction d. */
  function Displacement(d: Direction, k: int): int {
    if d == CW then k else -k
  }

  /** Low-to-high toggles among n toggles starting at the given level. */
  function RisingEdges(high: bool, n: nat): nat {
    if high then n / 2 else (n + 1) / 2
  }

  /** One more toggle adds a rising edge exactly when the level it starts
      from is low. */
  lemma RisingEdgesStep(high: bool, n: nat)
    ensures RisingEdges(high, n + 1) ==
      RisingEdges(high, n) + (if (n % 2 == 0) == high then 0 else 1)
  {
  }

  /** The STEP level after n toggles: back at the start after an even
      number, inverted after an odd one. */
  lemma {:induction false} PulseLevel(m: MotorRec, n: nat)
    ensures Pulses(m, n).stepHigh == (if n % 2 == 0 then m.stepHigh else !m.stepHigh)
    decreases n
  {
    if n > 0 {
      PulseLevel(m, n - 1);
    }
  }

  /** Position bookkeeping: n toggles move the position by one step per
      rising edge in the current direction, modulo the 32-bit counter. */
  lemma {:induction false} PulseAccounting(m: MotorRec, n: nat)
    ensures Pulses(m, n).pos == Wrap32(m.pos + Displacement(m.dir, RisingEdges(m.stepHigh, n)))
    decreases n
  {
    if n == 0 {
      assert Wrap32(m.pos) == m.pos;
    } else {
      var e := RisingEdges(m.stepHigh, n - 1);
      PulseAccounting(m, n - 1);
      assert RisingEdges(m.stepHigh, n) == e + (if Pulses(m, n - 1).stepHigh then 0 else 1) by {
        PulseLevel(m, n - 1);
        RisingEdgesStep(m.stepHigh, n - 1);
      }
      PulseStepPos(m, n, e, RisingEdges(m.stepHigh, n));
    }
  }

  /** Bookkeeping across a ramp tick between two runs of toggles: the
      steps before the tick count in the old direction, those after it in
      the direction the tick leaves (a reversal flips it), and the level
      carries over, all modulo the 32-bit counter. */
  lemma AccountingAcrossRampTick(m: MotorRec, n1: nat, n2: nat)
    requires Valid(m) && m.rampArmed
    ensures var a := Pulses(m, n1);
      var b := RampTick(a);
      Pulses(b, n2).pos == Wrap32(m.pos + Displacement(m.dir, RisingEdges(m.stepHigh, n1))
                                         + Displacement(b.dir, RisingEdges(a.stepHigh, n2)))
  {
    var a := Pulses(m, n1);
    var b := RampTick(a);
    var e1 := Displacement(m.dir, RisingEdges(m.stepHigh, n1));
    var e2 := Displacement(b.dir, RisingEdges(a.stepHigh, n2));
    PulseAccounting(m, n1);
    PulseAccounting(b, n2);
    Wrap32Add(m.pos + e1, e2);
  }

  /** One more toggle, on a counter that already holds e steps: the count
      becomes k, which is e plus one exactly on a rising edge. */
  lemma PulseStepPos(m: MotorRec, n: nat, e: int, k: int)
    requires n > 0
    requires Pulses(m, n - 1).pos == Wrap32(m.pos + Displacement(m.dir, e))
    requires k == e + (if Pulses(m, n - 1).stepHigh then 0 else 1)
    ensures Pulses(m, n).pos == Wrap32(m.pos + Displacement(m.dir, k))
  {
    var p := Pulses(m, n - 1);
    assert Pulses(m, n) == PulseTick(p);
    if !p.stepHigh {
      assert Displacement(m.dir, e + 1) == Displacement(m.dir, e) + Delta(m.dir);
      Wrap32Add(m.pos + Displacement(m.dir, e), Delta(m.dir));
    }
  }

  /** Any two consecutive toggles with a fixed direction move the position
      by exactly one step. */
  lemma TwoTogglesOneStep(m: MotorRec)
    ensures PulseTick(PulseTick(m)).pos == Wrap32(m.pos + Delta(m.dir))
    ensures PulseTick(PulseTick(m)).stepHigh == m.stepHigh
  {
    if !m.stepHigh {
      assert Wrap32(Wrap32(m.pos + Delta(m.dir))) == Wrap32(m.pos + Delta(m.dir));
    }
  }
}
