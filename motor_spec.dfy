/** The per-motor state of the driver as a value, its invariant, and the
    effect of every driver operation on it. The class Driver.Motor mutates the
    same fields in place and is proved to follow these functions. */
module MotorSpec {
  import opened Units

  /** mdir_t: dir_CW = 0, dir_CCW = 1, dir_ANY = 2. */
  datatype Direction = CW | CCW | Any

  /** mstate_t: mstat_Stop = 0, mstat_Move = 1, mstat_GoTo = 2. */
  datatype MotionState = Stopped | Moving | GoingTo

  /** One TMotor record, together with the two interrupt-enable bits of the
      motor's timer channels (step channel CC1/CC2, ramp channel CC3/CC4) and
      the levels of its STEP and DIR outputs. */
  datatype MotorRec = MotorRec(
    pos: int32,
    dir: Direction,
    state: MotionState,
    curDelay: uint16,
    rampDelay: uint16,
    rampSlop: uint16,
    targetSpeed: uint16,
    targetSpeed2: uint16,
    targetCurSpeed: uint16,
    targetState: MotionState,
    stepArmed: bool,
    rampArmed: bool,
    stepHigh: bool,
    dirHigh: bool)

  /** The record invariant every driver operation keeps. */
  ghost predicate Valid(m: MotorRec) {
    && m.rampSlop == RAMP_SLOP
    && (m.curDelay == OFF_DELAY || MIN_PERIOD <= m.curDelay <= MAX_PERIOD)
    && m.dir != Any
    && m.dirHigh == (m.dir != CCW)
    // a nonzero target speed exactly while the ramp channel is armed
    && (m.rampArmed <==> m.targetSpeed != 0)
    && (m.rampArmed ==>
          && MIN_SPEED <= m.targetSpeed <= MAX_SPEED
          && MIN_SPEED <= m.targetCurSpeed <= MAX_SPEED + 1
          && m.stepArmed)
    && (!m.rampArmed ==>
          && m.targetSpeed2 == 0 && m.targetCurSpeed == 0 && m.targetState == Stopped
          && (m.stepArmed <==> m.state != Stopped))
    // a staged reversal decelerates to the minimum speed first
    && (m.targetSpeed2 != 0 ==> MIN_SPEED <= m.targetSpeed2 <= MAX_SPEED && m.targetSpeed == MIN_SPEED)
    && (!m.stepArmed ==> m.curDelay == OFF_DELAY)
  }

  /** The direction __TargetSpeedDone switches to. */
  function Opposite(d: Direction): (r: Direction)
    ensures r != d && r != Any
  {
    if d == CW then CCW else CW
  }

  /** Position change of one step in direction d: up for CW, down otherwise. */
  function Delta(d: Direction): int {
    if d == CW then 1 else -1
  }

  /** __ResetTargetSpeed: disarm the ramp channel and clear the targets. */
  function ResetTargets(m: MotorRec): MotorRec {
    m.(rampArmed := false, targetSpeed := 0, targetSpeed2 := 0, targetCurSpeed := 0, targetState := Stopped)
  }

  /** __MotorOff: disarm the step channel and mark the motor off. */
  function MotorOff(m: MotorRec): MotorRec {
    m.(stepArmed := false, curDelay := OFF_DELAY)
  }

  /** __MotorOn: arm the step channel (a no-op when it is armed already). */
  function MotorOn(m: MotorRec): MotorRec {
    m.(stepArmed := true)
  }

  /** __MotorSetDir: drive DIR low for CCW and high otherwise, record d. */
  function SetDir(m: MotorRec, d: Direction): MotorRec {
    m.(dir := d, dirHigh := d != CCW)
  }

  /** One linear ramp step: move cur toward target by slop, clamped at target. */
  function Approach(cur: int, target: int, slop: nat): (r: int)
    ensures Min(cur, target) <= r <= Max(cur, target)
    ensures Abs(target - r) == Max(0, Abs(target - cur) - slop)
  {
    if cur < target then Min(cur + slop, target)
    else if target < cur then Max(cur - slop, target)
    else cur
  }

  /** The convergence handler __TargetSpeedDone, called when the ramp cursor
      has reached the target speed. */
  function TargetSpeedDone(m: MotorRec): (r: MotorRec)
    requires Valid(m) && m.rampArmed && m.targetCurSpeed == m.targetSpeed
    ensures Valid(r)
    ensures r.pos == m.pos && r.stepHigh == m.stepHigh && r.rampDelay == m.rampDelay
    // end of the reversal lead-in: flip once, start the staged speed
    ensures m.targetSpeed2 > 0 ==>
      && r.dir == Opposite(m.dir) && r.dir != m.dir
      && r.targetSpeed == m.targetSpeed2 && r.targetSpeed2 == 0
      && r.state == m.state && r.targetState == m.targetState
      && r.targetCurSpeed == m.targetCurSpeed && r.curDelay == m.curDelay
      && r.stepArmed && r.rampArmed
    // normal completion: commit the state, clear the targets, stop ramping,
    // and power down exactly when the committed state is Stopped
    ensures m.targetSpeed2 == 0 ==>
      && r.state == m.targetState && r.dir == m.dir
      && r.targetSpeed == 0 && r.targetSpeed2 == 0 && r.targetCurSpeed == 0
      && r.targetState == Stopped && !r.rampArmed
      && (r.stepArmed <==> m.targetState != Stopped)
      && r.curDelay == (if m.targetState == Stopped then OFF_DELAY else m.curDelay)
  {
    if m.targetSpeed2 > 0 then
      SetDir(m, Opposite(m.dir)).(targetSpeed := m.targetSpeed2, targetSpeed2 := 0)
    else
      var r := ResetTargets(m.(state := m.targetState));
      if r.state == Stopped || r.curDelay == 0 then MotorOff(r) else r
  }

  /** Distance of the ramp cursor from the target speed. */
  function Gap(m: MotorRec): nat {
    Abs(m.targetSpeed - m.targetCurSpeed)
  }

  /** __OnRampTimer: one evaluation of the ramp law. */
  function RampTick(m: MotorRec): (r: MotorRec)
    requires Valid(m) && m.rampArmed
    ensures Valid(r)
    ensures r.pos == m.pos && r.stepHigh == m.stepHigh
    // not converged: step toward the target without crossing it, and
    // re-derive the period; nothing else changes
    ensures m.targetCurSpeed != m.targetSpeed ==>
      && r == m.(targetCurSpeed := r.targetCurSpeed, curDelay := r.curDelay)
      && r.targetCurSpeed != m.targetCurSpeed
      && Min(m.targetCurSpeed, m.targetSpeed) <= r.targetCurSpeed <= Max(m.targetCurSpeed, m.targetSpeed)
      && Gap(r) == Max(0, Gap(m) - RAMP_SLOP)
      && MIN_SPEED <= r.targetCurSpeed <= MAX_SPEED
      && r.curDelay == Period(r.targetCurSpeed)
      && MIN_PERIOD <= r.curDelay <= MAX_PERIOD
    ensures m.targetCurSpeed == m.targetSpeed ==> r == TargetSpeedDone(m)
    // the direction output changes only at the minimum speed, with a reversal staged
    ensures r.dir != m.dir ==> m.targetCurSpeed == MIN_SPEED && m.targetSpeed2 > 0
  {
    if m.targetSpeed != m.targetCurSpeed then
      var c := Approach(m.targetCurSpeed, m.targetSpeed, m.rampSlop);
      m.(targetCurSpeed := c, curDelay := Period(c))
    else
      TargetSpeedDone(m)
  }

  /** The filters __SetTargetSpeed applies before touching anything: a speed
      outside [MIN_SPEED, MAX_SPEED], or the pending request again. */
  predicate Ignored(m: MotorRec, speed: uint16, d: Direction, st: MotionState) {
    || speed < MIN_SPEED || speed > MAX_SPEED
    || (m.targetSpeed == speed && m.targetState == st && m.dir == d)
  }

  /** __SetTargetSpeed: validate a request, stage a reversal when the
      direction differs, seed the ramp cursor from the live period and arm
      both channels. A filtered request changes nothing; every other keeps
      the invariant (its effect is SetTargetSpeedEffect). */
  function SetTargetSpeed(m: MotorRec, speed: uint16, d: Direction, st: MotionState): (r: MotorRec)
    requires Valid(m)
    ensures Valid(r)
    ensures Ignored(m, speed, d, st) ==> r == m
  {
    if speed < MIN_SPEED || speed > MAX_SPEED then m
    else if m.targetSpeed == speed && m.targetState == st && m.dir == d then m
    else
      var seeded := Stage(m, speed, d).(targetState := st, targetCurSpeed := Seed(m.curDelay));
      MotorOn(seeded).(rampArmed := true)
  }

  /** What an accepted request does: the terminal state is recorded, the
      cursor is seeded from the live period (at the minimum speed from rest),
      both channels are armed, and a change of direction is staged behind a
      deceleration to the minimum speed while the direction itself is kept.
      Position, state, period, STEP level and ramp period are untouched. */
  lemma SetTargetSpeedEffect(m: MotorRec, speed: uint16, d: Direction, st: MotionState)
    requires Valid(m) && !Ignored(m, speed, d, st)
    ensures var r := SetTargetSpeed(m, speed, d, st);
      && r.pos == m.pos && r.state == m.state && r.curDelay == m.curDelay
      && r.stepHigh == m.stepHigh && r.rampDelay == m.rampDelay
      && r.targetState == st
      && r.targetCurSpeed == Seed(m.curDelay)
      && r.stepArmed && r.rampArmed
      && (m.dir != d ==> r.targetSpeed == MIN_SPEED && r.targetSpeed2 == speed && r.dir == m.dir)
      && (m.dir == d ==> r.targetSpeed == speed && r.targetSpeed2 == 0 && r.dir == d)
      && (m.curDelay == OFF_DELAY ==> r.targetCurSpeed == MIN_SPEED)
  {
  }

  /** The target part of __SetTargetSpeed: a change of direction stages the
      requested speed behind a deceleration to the minimum speed; otherwise
      the direction is (re)applied and the speed becomes the target. */
  function Stage(m: MotorRec, speed: uint16, d: Direction): MotorRec {
    if m.dir != d then m.(targetSpeed := MIN_SPEED, targetSpeed2 := speed)
    else SetDir(m, d).(targetSpeed := speed, targetSpeed2 := 0)
  }

  /** STPDRV_Move: a request for continuous rotation. The int16 speed is
      converted to uint16 as C does, so a negative speed is never accepted. */
  function Move(m: MotorRec, d: Direction, speed: int16): (r: MotorRec)
    requires Valid(m)
    ensures Valid(r)
    ensures speed < MIN_SPEED || speed > MAX_SPEED ==> r == m
    ensures MIN_SPEED <= speed <= MAX_SPEED ==> r == SetTargetSpeed(m, speed, d, Moving)
  {
    SetTargetSpeed(m, Wrap16(speed), d, Moving)
  }

  /** TPDRV_Stop. A nonzero hardstop decelerates to the minimum speed in the
      current direction and then powers down; zero halts at once. */
  function Stop(m: MotorRec, hardstop: int16): (r: MotorRec)
    requires Valid(m)
    ensures Valid(r)
    ensures r.pos == m.pos && r.dir == m.dir && r.stepHigh == m.stepHigh && r.rampDelay == m.rampDelay
    ensures hardstop == 0 ==>
      && r.state == Stopped && !r.stepArmed && !r.rampArmed && r.curDelay == OFF_DELAY
      && r.targetSpeed == 0 && r.targetSpeed2 == 0 && r.targetCurSpeed == 0 && r.targetState == Stopped
    ensures hardstop != 0 && m.targetSpeed == MIN_SPEED && m.targetState == Stopped ==> r == m
    ensures hardstop != 0 && !(m.targetSpeed == MIN_SPEED && m.targetState == Stopped) ==>
      && r.targetSpeed == MIN_SPEED && r.targetSpeed2 == 0 && r.targetState == Stopped
      && r.state == m.state && r.curDelay == m.curDelay
      && r.targetCurSpeed == Seed(m.curDelay) && r.stepArmed && r.rampArmed
  {
    if hardstop != 0 then
      if !Ignored(m, MIN_SPEED, m.dir, Stopped) then
        SetTargetSpeedEffect(m, MIN_SPEED, m.dir, Stopped);
        SetTargetSpeed(m, MIN_SPEED, m.dir, Stopped)
      else
        SetTargetSpeed(m, MIN_SPEED, m.dir, Stopped)
    else MotorOff(ResetTargets(m)).(state := Stopped)
  }

  /** The per-motor body of a step channel in TIM3_IRQHandler: toggle STEP,
      and count a step on the low-to-high edge only. */
  function PulseTick(m: MotorRec): (r: MotorRec)
    ensures r == m.(stepHigh := r.stepHigh, pos := r.pos)
    ensures r.stepHigh == !m.stepHigh
    ensures m.stepHigh ==> r.pos == m.pos
    ensures !m.stepHigh ==> r.pos == Wrap32(m.pos + Delta(m.dir))
  {
    if m.stepHigh then m.(stepHigh := false)
    else m.(stepHigh := true, pos := Wrap32(m.pos + Delta(m.dir)))
  }

  /** STPDRV_SetRamp: install the ramp step and the ramp-tick period. */
  function SetRamp(m: MotorRec, rampspeed: int16): (r: MotorRec)
    ensures r == m.(rampSlop := RAMP_SLOP, rampDelay := RampDelay(rampspeed))
    ensures Valid(m) ==> Valid(r)
  {
    m.(rampSlop := RAMP_SLOP, rampDelay := RampDelay(rampspeed))
  }

  /** The record after STPDRV_Init: at position 0, stopped, off, CW, no
      targets, both channels disarmed, STEP low, and the ramp for 4 steps/sec/sec. */
  function Initial(): (r: MotorRec)
    ensures Valid(r)
    ensures r.state == Stopped && r.dir == CW && r.pos == 0 && r.curDelay == OFF_DELAY
    ensures !r.stepArmed && !r.rampArmed
  {
    MotorRec(0, CW, Stopped, OFF_DELAY, RampDelay(4), RAMP_SLOP, 0, 0, 0, Stopped, false, false, false, true)
  }

  /** A step-channel compare event: handled only while the channel is armed. */
  function StepChannel(pending: bool, m: MotorRec): (r: MotorRec)
    ensures !(pending && m.stepArmed) ==> r == m
    ensures pending && m.stepArmed ==> r == PulseTick(m)
  {
    if pending && m.stepArmed then PulseTick(m) else m
  }

  /** A ramp-channel compare event: handled only while the channel is armed. */
  function RampChannel(pending: bool, m: MotorRec): (r: MotorRec)
    requires Valid(m)
    ensures Valid(r)
    ensures !(pending && m.rampArmed) ==> r == m
    ensures pending && m.rampArmed ==> r == RampTick(m)
  {
    if pending && m.rampArmed then RampTick(m) else m
  }
}
