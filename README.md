# STM32 stepper driver: the per-motor motion state machine

This project models the motion core of the STM32F stepper driver
(`Source/stm32f_stpdrv.c`). It drives two stepper motors from one
hardware timer (TIM3). Each motor has a `TMotor` record that holds:

- its position, direction and state;
- `CurDelay`, the current step period in timer ticks;
- the ramp parameters;
- a target speed, a staged second target used for reversals, the ramp
  cursor `TargetCurSpeed`, and the state to commit when the ramp ends.

Each motor uses two compare channels of the timer. The **step channel**
(CC1/CC2) toggles the STEP output and counts a step on every rising edge.
The **ramp channel** (CC3/CC4) moves the ramp cursor toward the target
speed by `RampSlop` steps/sec at each event. It recomputes the step
period as `TIMFREQ / TargetCurSpeed`. When the cursor reaches the target,
the ramp channel does one of two things:

- it flips the direction and starts the staged speed of a reversal, or
- it commits the requested state and stops ramping. It also powers the
  motor down when that state is Stop.

The API call `STPDRV_Move`, and `TPDRV_Stop` with a nonzero hardstop,
post requests through `__SetTargetSpeed`. `TPDRV_Stop` with hardstop 0
stops the motor at once without a request. That function filters out-of-range and repeated
requests and stages a reversal behind a deceleration to the minimum speed.
It then seeds the ramp cursor from the live period with
`TIMFREQ / CurDelay + 1` and arms both channels.

Layout:

- `units.dfy` (module `Units`) holds:
  - the constants TIMFREQ = 100000 and the speed range [2, 1000];
  - the C integer widths: `uint16` with wrap-around `Wrap16`, the 32-bit
    position counter `Wrap32`, and truncating division `CDiv`;
  - the conversions `Period` (speed to period), `Seed` (period back to
    speed) and `RampDelay` (the ramp-tick period);
  - the small arithmetic lemmas the proofs use.
- `motor_spec.dfy` (module `MotorSpec`) holds:
  - the record as a value, `MotorRec`. Besides the `TMotor` fields it has
    the two interrupt-enable bits of the motor's channels (DIER) and the
    levels of its STEP and DIR outputs.
  - the invariant `Valid`, which every API call and event handler keeps;
  - one function per C operation. The API calls and the event handlers
    carry contracts saying what they do. The small internal steps
    (`ResetTargets`, `MotorOff`, `MotorOn`, `SetDir`, `Stage`) are single
    record updates that those functions are built from.
- `motor_properties.dfy` (module `MotorProperties`) holds properties of
  event sequences:
  - the ramp trajectory and its convergence;
  - the reversal protocol;
  - stopping;
  - position bookkeeping over many STEP toggles.
- `driver.dfy` (module `Driver`) is the imperative form:
  - class `Motor` has the `TMotor` fields, updated in place. Each method
    is proved to produce exactly the record that the matching `MotorSpec`
    function gives. The API calls and handlers (`SetRamp`, `Move`, `Stop`,
    `SetTargetSpeed`, `TargetSpeedDone`, `OnRampTimer`, `OnStepTimer`)
    are also proved to keep `Valid`. The internal steps (`ResetTargetSpeed`,
    `MotorOff`, `MotorOn`, `SetDir`, `Stage`, `Request`) are stated by
    their record alone, because they run in the middle of an operation.
  - class `Driver` owns the two motors and the shared interrupt handler.
- `as_written.dfy` (module `AsWritten`) has the code as written where it
  differs from its evident intent (see Findings).

## Model

| member | source | states |
|---|---|---|
| Units.Period | Source/stm32f_stpdrv.c:497 | For a speed in [2, 1000], the period is C's floor quotient: p*speed <= TIMFREQ < (p+1)*speed. It lies in [100, 50000], so it fits CurDelay's 16 bits. |
| Units.PeriodAntitone | Source/stm32f_stpdrv.c:503 | A faster speed never gets a longer period. |
| Units.Seed | Source/stm32f_stpdrv.c:433 | The speed read back from a period, `TIMFREQ / CurDelay + 1` stored as uint16, is the least s with s*delay > TIMFREQ. From rest (0xFFFF) it is 2. For a period in [100, 50000] it lies in [2, 1001]. |
| Units.SeedAfterPeriod | Source/stm32f_stpdrv.c:433 | Reading back the period of speed s gives a seed above s and at most 1001. One below the seed maps to the same period. |
| Units.RampDelay | Source/stm32f_stpdrv.c:255 | The ramp-tick period `(2*TIMFREQ) / (rampspeed / 2)`, with C's truncating division. It is the exact quotient when that fits 16 bits, and 0xFFFF when the divisor is not positive or the quotient does not fit (corrected form, see Findings). |
| Units.RampDelayMonotone | Source/stm32f_stpdrv.c:255 | A larger requested acceleration never gives a longer ramp-tick period. |
| MotorSpec.Opposite | Source/stm32f_stpdrv.c:391 | The reversal's new direction differs from the old one and is never dir_ANY. |
| MotorSpec.Approach | Source/stm32f_stpdrv.c:492-502 | One ramp step stays between cursor and target. It shortens the distance by the slope, or to zero, without crossing the target. |
| MotorSpec.TargetSpeedDone | Source/stm32f_stpdrv.c:388-401 | With a staged speed, it flips the direction once, installs the staged speed, clears the stage and leaves state, period and both channels unchanged. Otherwise it commits TargetState, clears all targets and disarms the ramp channel. It disarms the step channel and sets the period to 0xFFFF exactly when the committed state is Stop. It keeps the invariant. |
| MotorSpec.RampTick | Source/stm32f_stpdrv.c:490-506 | When not converged, only the cursor and the period change. The cursor moves toward the target without overshoot, and the gap shrinks by RampSlop or closes. The period becomes Period(cursor), within [100, 50000]. When converged, the tick is TargetSpeedDone. The direction changes only at the minimum speed with a reversal staged. It keeps the invariant. |
| MotorSpec.SetTargetSpeed | Source/stm32f_stpdrv.c:413-420 | An out-of-range speed, or a repeat of the pending (speed, state, direction), leaves the record unchanged. Every request keeps the invariant. |
| MotorSpec.SetTargetSpeedEffect | Source/stm32f_stpdrv.c:423-448 | An accepted request in a new direction sets TargetSpeed to 2 and stages the speed in TargetSpeed2, keeping Dir. In the same direction it sets Dir and TargetSpeed and clears TargetSpeed2. Either way TargetState is the request's, the cursor is Seed(CurDelay) (2 from rest), both channels are armed, and position, state and period are untouched. |
| MotorSpec.Move | Source/stm32f_stpdrv.c:261-264 | A speed outside [2, 1000], negative ones included after C's conversion to uint16, changes nothing. Any other speed is a SetTargetSpeed request for Moving. |
| MotorSpec.Stop | Source/stm32f_stpdrv.c:277-286 | With hardstop == 0, the motor is stopped at once: state Stop, targets cleared, both channels disarmed, period 0xFFFF. A nonzero hardstop requests a deceleration to speed 2 in the current direction, with terminal state Stop, unless that request is already pending. Position and direction are kept. |
| MotorSpec.PulseTick | Source/stm32f_stpdrv.c:193-211 | Each step event toggles STEP. The position moves by one step in the current direction, modulo 2^32, only on the low-to-high toggle. Nothing else changes. |
| MotorSpec.SetRamp | Source/stm32f_stpdrv.c:250-256 | It installs RampSlop = 2 and RampDelay(rampspeed), changes nothing else and keeps the invariant. |
| MotorSpec.Initial | Source/stm32f_stpdrv.c:109-117 | After initialisation the motor is stopped at position 0, direction CW, period 0xFFFF, both channels disarmed, and the invariant holds. |
| MotorSpec.StepChannel | Source/stm32f_stpdrv.c:193-211 | A pending step-channel event on an armed channel is one PulseTick. Without a pending event, or with the channel disarmed, nothing changes. |
| MotorSpec.RampChannel | Source/stm32f_stpdrv.c:233-237 | A pending ramp-channel event on an armed channel is one RampTick. Without a pending event, or with the channel disarmed, nothing changes. The invariant is kept. |
| MotorProperties.Ramp | Source/stm32f_stpdrv.c:233-237 | Any number of ramp events keeps the invariant, the position and the STEP level. |
| MotorProperties.RampAdd | Source/stm32f_stpdrv.c:233-237 | b ramp events after a ramp events are a + b ramp events. |
| MotorProperties.RampTrajectory | Source/stm32f_stpdrv.c:492-503 | Up to convergence, after k ticks the cursor has moved exactly 2k toward the target, clamped at it. The period is that cursor's period, and no other field has changed. |
| MotorProperties.RampConverges | Source/stm32f_stpdrv.c:490-506 | After ceil(gap / 2) ticks the cursor equals the target and only cursor and period have changed. The period is the target's whenever there was a gap. |
| MotorProperties.RampPeriodMonotone | Source/stm32f_stpdrv.c:497-503 | While ramping, the period only shrinks when accelerating and only grows when decelerating. |
| MotorProperties.CompleteRequest | Source/stm32f_stpdrv.c:394-400 | Without a staged reversal, the tick after convergence commits the requested state with the direction unchanged and stops ramping. The step channel stays armed exactly when that state is not Stop. In that case, when the ramp had a gap to close (Ticks(m) > 0), the period is the target speed's; without a gap it stays as it was (see MotorProperties.MinSpeedFromRest). |
| MotorProperties.ReversalFlip | Source/stm32f_stpdrv.c:388-393 | A staged reversal keeps the old direction until the cursor reaches speed 2. The next tick flips the direction, installs the staged speed and keeps ramping from 2, with state unchanged. |
| MotorProperties.ReversalProtocol | Source/stm32f_stpdrv.c:388-393 | After the flip, ramping for the flipped record's own tick count reaches the staged speed in the new direction. The stage is then empty and the ramp channel still armed, so the next tick completes the request. |
| MotorProperties.ReversalDuration | Source/stm32f_stpdrv.c:388-393 | Counted on one stream of ramp events, the staged speed is reached in the new direction Ticks(m) + 1 + Ticks(f) events after the reversal was staged, with the stage empty and the ramp channel armed. |
| MotorProperties.AccelerateFromRest | Source/stm32f_stpdrv.c:261-264 | From initialisation, Move(CW, 100) seeds the cursor at 2 and reaches period 1000 after 49 ramp ticks. The 50th tick commits Moving with the motor still stepping at period 1000. |
| MotorProperties.HardStopDecelerates | Source/stm32f_stpdrv.c:279-280 | A nonzero hardstop keeps the direction while it decelerates. One tick after reaching speed 2 the motor is Stopped, both channels are disarmed, the period is 0xFFFF and the position is not moved by the ramp. This covers every record except one with a reversal already staged under a pending stop. |
| MotorProperties.SetTargetSpeedIdempotent | Source/stm32f_stpdrv.c:418-420 | Re-issuing a request before any tick changes nothing. |
| MotorProperties.SetTargetSpeedRepeated | Source/stm32f_stpdrv.c:418-433 | Re-issuing a request after k ramp ticks, k up to convergence, changes nothing when the first request kept the direction or was filtered. When it staged a reversal, the filter does not match: targets, direction and both channels stay, and only the cursor is re-seeded from the live period. |
| MotorProperties.RepeatedReversalReseeds | Source/stm32f_stpdrv.c:418-433 | Cruising CW at 1000 (period 100), Move(CCW, 1000) seeds the cursor at 1001. One tick gives 999 at period 100, and repeating the request then restores the record of the first request, so repeating it after every tick never reverses. |
| MotorProperties.MinSpeedFromRest | Source/stm32f_stpdrv.c:433 | From initialisation, Move(CW, 2) seeds the cursor at 2 with no ramp ticks to go. The first tick commits Moving with the step channel armed and the period still 0xFFFF, not Period(2) = 50000. |
| MotorProperties.Pulses | Source/stm32f_stpdrv.c:193-211 | Step events change only the STEP level and the position. |
| MotorProperties.PulseLevel | Source/stm32f_stpdrv.c:195-211 | After an even number of step events STEP is back at its starting level; after an odd number it is inverted. |
| MotorProperties.PulseStepPos | Source/stm32f_stpdrv.c:195-211 | One more step event adds one step to the unwrapped count exactly when it starts from a low level. |
| MotorProperties.PulseAccounting | Source/stm32f_stpdrv.c:193-211 | After n step events the position has moved by one step per rising edge in the current direction, modulo 2^32. |
| MotorProperties.AccountingAcrossRampTick | Source/stm32f_stpdrv.c:190-245 | Step events, then a ramp tick, then more step events: the steps before the tick count in the old direction, those after it in the direction the tick leaves (flipped on a reversal), modulo 2^32. |
| MotorProperties.TwoTogglesOneStep | Source/stm32f_stpdrv.c:193-211 | Any two consecutive step events with a fixed direction move the position by exactly one step and restore the STEP level. |
| Driver.Motor.Init | Source/stm32f_stpdrv.c:109-117 | The record starts as MotorSpec.Initial and satisfies the invariant. |
| Driver.Motor.ResetTargetSpeed | Source/stm32f_stpdrv.c:373-383 | Disarms the ramp channel and clears the three targets and TargetState in place. |
| Driver.Motor.MotorOff | Source/stm32f_stpdrv.c:315-324 | Disarms the step channel and sets CurDelay to 0xFFFF in place. |
| Driver.Motor.MotorOn | Source/stm32f_stpdrv.c:326-345 | Arms the step channel if it is not armed; nothing else changes. |
| Driver.Motor.SetDir | Source/stm32f_stpdrv.c:350-368 | Drives DIR low for CCW and high otherwise, and records the direction. |
| Driver.Motor.SetRamp | Source/stm32f_stpdrv.c:250-256 | Updates the record as MotorSpec.SetRamp and keeps the invariant. |
| Driver.Motor.TargetSpeedDone | Source/stm32f_stpdrv.c:388-401 | Updates the record as MotorSpec.TargetSpeedDone and keeps the invariant. |
| Driver.Motor.SetTargetSpeed | Source/stm32f_stpdrv.c:413-420 | Applies the two filters, then the request. The new record is MotorSpec.SetTargetSpeed of the old one and the invariant is kept. |
| Driver.Motor.Request | Source/stm32f_stpdrv.c:422-448 | For an accepted request, it computes the seed with C's uint16 arithmetic and yields MotorSpec.SetTargetSpeed of the old record. |
| Driver.Motor.Stage | Source/stm32f_stpdrv.c:423-430 | Stages a reversal or sets direction and target, as MotorSpec.Stage. |
| Driver.Motor.OnRampTimer | Source/stm32f_stpdrv.c:490-506 | With C's uint16 arithmetic (cursor and period stored as uint16), one ramp event yields MotorSpec.RampTick of the old record and keeps the invariant. |
| Driver.Motor.OnStepTimer | Source/stm32f_stpdrv.c:195-211 | Reads the STEP level back and toggles it, counting a step on the rising edge, as MotorSpec.PulseTick. |
| Driver.Motor.Move | Source/stm32f_stpdrv.c:261-264 | Updates the record as MotorSpec.Move and keeps the invariant. |
| Driver.Motor.Stop | Source/stm32f_stpdrv.c:277-286 | Updates the record as MotorSpec.Stop and keeps the invariant. |
| Driver.Motor.GetPos | Source/stm32f_stpdrv.c:291-294 | Returns the position without changing anything. |
| Driver.Motor.GetDir | Source/stm32f_stpdrv.c:299-302 | Returns the direction without changing anything. |
| Driver.Motor.GetState | Source/stm32f_stpdrv.c:307-310 | Returns the state without changing anything. |
| Driver.Driver.Init | Source/stm32f_stpdrv.c:109-117 | Two distinct fresh motors, each in the initial record. |
| Driver.Driver.OnTimerInterrupt | Source/stm32f_stpdrv.c:190-245 | Each of the four pending compare flags is served only while its channel is armed, in the order: motor 1 step, motor 2 step, motor 1 ramp, motor 2 ramp. Each motor ends as its ramp channel applied after its step channel. Both invariants are kept. |
| AsWritten.RampDelayAsWritten | Source/stm32f_stpdrv.c:255 | The as-written RampDelay divides by zero exactly for rampspeed in -1..1. Otherwise it stores the truncated quotient modulo 2^16. |
| AsWritten.RampDelayAgrees | Source/stm32f_stpdrv.c:255 | Where the quotient fits 16 bits, the as-written and corrected ramp periods agree. |
| AsWritten.InitRampTruncated | Source/stm32f_stpdrv.c:113 | The initial ramp (rampspeed 4) should tick every 100000 timer ticks. As written it stores 34464; the corrected value is 0xFFFF. |
| AsWritten.RampDelayNotMonotone | Source/stm32f_stpdrv.c:255 | As written, rampspeed 6 gives 1130 and rampspeed 8 gives 50000, so the stored period is not antitone. The corrected one is. |
| AsWritten.Channel2AsWritten | Source/stm32f_stpdrv.c:216-230 | As written, a high motor-2 STEP level clears motor 1's STEP level and leaves motor 2 unchanged. A low one is a normal rising edge. |
| AsWritten.Motor2StepsOnce | Source/stm32f_stpdrv.c:216-230 | As written, motor 2 started low ends after any n >= 1 channel-2 events exactly where one step takes it, with STEP stuck high. |
| AsWritten.Motor2Discrepancy | Source/stm32f_stpdrv.c:218-220 | Three channel-2 events from position 0 leave motor 2 at position 1 as written. The corrected handler moves it to 2. |

## Left out

- Peripheral setup is not modelled. That covers the clock, GPIO, NVIC and
  timer-base setup in `STPDRV_Init`, and `__GPIO2AHB1Periph`. They are
  vendor-library plumbing. Only the record initialisation (lines 110-117)
  is modelled.
- Timer register arithmetic is not modelled. That covers
  `CCRx += CurDelay/RampDelay`, `CNT`, the `SR` flag clearing and the
  `EGR`-forced ramp interrupt. Instead, a compare event is a pending flag
  passed to `Driver.Driver.OnTimerInterrupt`, and arming is the DIER bit.
  So the model says which period is scheduled, not when events happen in
  time.
- Interleaving between the interrupt handler and foreground API calls is
  not modelled. Each handler and each API call is one atomic step.
- `STPDRV_Goto` has no body in the source. LED calls and `Source/main.c`
  are board demo code.
- The pin macros are not modelled. In `Source/stm32f_stpdrv.h`,
  MOTOR1_STEP_PIN, MOTOR1_DIR_PIN and MOTOR2_DIR_PIN are all pin 9 of
  port E. The model keeps one STEP level and one DIR level per motor, so
  it does not capture how those outputs disturb each other on the board.
- The motor index is not modelled. The C code indexes `Motors[motor]`
  without a bounds check. In the model a motor is an object of class
  `Driver.Motor`, so an out-of-range index cannot be expressed.
- The convergence handler follows the code's power-down test
  `State == Stop || CurDelay == 0` (line 398). The comparison with 0 never
  holds, because the invariant keeps CurDelay at 0xFFFF or within
  [100, 50000].
- A `hardstop` other than 0 decelerates (lines 279-280). The header
  documents 1 as an immediate stop. The model follows the code. The code
  defines the API function as `TPDRV_Stop`; its members here are
  `MotorSpec.Stop` and `Driver.Motor.Stop`.
- MotorProperties.HardStopDecelerates: it says nothing about a record
  with a reversal already staged under a pending stop at speed 2. For
  that record a further hard stop is a repeated request and is ignored,
  so the motor reverses before it stops.
- From rest, a request for speed 2 seeds the cursor at 2, so the next ramp
  tick finds it converged. The motor then stays armed with the off period
  0xFFFF (`MotorProperties.MinSpeedFromRest`). This is what the code does.
  The intended period is not clear from the code, so no corrected form is
  given.
- MotorSpec.SetTargetSpeed: follows the code's duplicate filter (lines
  418-420). While a reversal is staged, the filter compares the request
  with the lead-in speed 2 and the old direction, so a repeat of the
  reversal is not filtered and re-seeds the cursor (line 433).
  `MotorProperties.SetTargetSpeedRepeated` states this, and
  `MotorProperties.RepeatedReversalReseeds` shows a repeat after every
  tick that keeps the motor from ever reversing. Whether the filter was
  meant to look at the staged speed is not clear, so no corrected form is
  given.
- Driver.Driver.OnTimerInterrupt: serves channel 2 with the corrected
  handler (`MotorSpec.PulseTick`, which clears motor 2's own STEP pin).
  The channel as written is `AsWritten.Channel2AsWritten` (see Findings).
- Where the code divides by zero or truncates the ramp period (see
  Findings), the corrected ramp period saturates at 0xFFFF. That value is
  this model's choice of the intended behaviour.

## Findings

| source | as written | input that shows it | evidently intended | confidence | as-written member | corrected member |
|---|---|---|---|---|---|---|
| Source/stm32f_stpdrv.c:255 | `(TIMFREQ * 2) / (rampspeed / RampSlop)` divides by `rampspeed / 2`, which is 0 for rampspeed -1, 0 and 1 | rampspeed = 1 | a well-defined ramp period for every int16 argument, here the slowest one, 0xFFFF | high; not executed | AsWritten.RampDelayAsWritten | Units.RampDelay |
| Source/stm32f_stpdrv.c:255 | the quotient is stored into the uint16 RampDelay and wraps modulo 2^16 | rampspeed = 4 (used by `STPDRV_Init`, line 113) stores 34464 instead of 100000; rampspeed 6 stores 1130 while 8 stores 50000 | a faster acceleration never gives a slower ramp; values that do not fit saturate | high; not executed | AsWritten.RampDelayNotMonotone | Units.RampDelayMonotone |
| Source/stm32f_stpdrv.c:220 | motor 2's falling edge writes `MOTOR1_STEP_PIN` to the BRR register of motor 2's port | motor 2 STEP low at position 0, direction CW, three channel-2 events: position 1 | clear `MOTOR2_STEP_PIN`, so that motor 2 advances one step per two events | high; not executed | AsWritten.Motor2Discrepancy | MotorProperties.PulseAccounting |
