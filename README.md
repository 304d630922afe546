# Adaptive velocity controller — a Dafny model

This project models the control core of a ROS node that adapts a mobile
robot's forward speed to the terrain it drives on
(`code/velocity_controller.py`). The node keeps its state in module globals
and reacts to five message streams, and the model keeps that shape:

- **Surface profile store** (`profiles.dfy`, module `Profiles`): a table from
  surface id to `{maxXVel, maxAccel}`, with id `-1` as a scratch slot for
  unclassified terrain. A new surface seen right after unclassified terrain
  takes over what was learned there. Any other new surface gets the defaults
  `{2.0, 0.25}`. A surface already in the table, `-1` included, resets the
  scratch slot.
- **Bumpiness anticipation** (`anticipation.dfy`, module `Anticipation`): a
  roughness report more than 1.75 times the previous one latches "rougher
  ahead" (`upcomingBumpiness`). One less than 1/1.75 of it latches "smoother
  ahead" (`surfaceTransition`). Odometry positions open a lookahead window at
  the first position after a latch and clear both flags 0.45 m later.
  `startPosition == 0` means "no window open".
- **Vibration monitor** (`vibration.dfy`, module `Vibration`): vertical
  accelerations fill non-overlapping windows of 20 samples. The ratchet fires
  when a full window is too rough, the last command step sped up, and no
  smoother surface is anticipated. It then lowers the current surface's speed
  limit to `min(|last command|, old limit) - 0.15`.
- **PID corrector** (`pid.dfy`, module `Pid`): an additive trim around the
  measured velocity. Its gains are 1, 0.001 and 0.00001, and its integral has
  no bound.
- **Command shaper** (`shaper.dfy`, module `Shaper`): the joystick axis is
  mapped to a speed target. The target is capped at 0.2 while rougher terrain
  is anticipated, then at the surface limit, then ramped at the surface's
  acceleration limit.
- **The controller** (`controller.dfy`, module `Controller`): all of the
  node's state as one value, one step function per callback, and the replay
  of any sequence of messages. The callbacks run one at a time, in any order.
- **The node** (`node.dfy`, class `Node.VelocityController`): the globals as
  fields, with one method per callback. Each method updates the fields in
  place, in the source's order, and is proved to perform the matching step
  function.
- **Properties** (`properties.dfy`, module `Properties`): properties that
  span many messages.

Inputs the node reads from messages are plain parameters: time stamps
(already converted to seconds), measured velocity, position, stick axis,
deadman button, surface id, roughness and vertical acceleration. The
deadman parameter is true when button 9 is pressed. A joystick message
returns a `Command`:

- `Idle`: the deadman is released and nothing is published.
- `Publish(v)`: `v` is published.
- `Quit`: the `|previous command| > 2` guard fires. In the source that guard
  calls the nonexistent `sys.quit()`, which aborts the callback before any
  global changes.

Details of the code's behaviour the model keeps:

- The vibration test uses numpy's default `std`, which is the population
  standard deviation (divisor 20). It is modelled exactly: the window's
  population variance is compared with 0.45². Both are non-negative, so
  this is the same test.
- The "smoother ahead" test, like the "rougher ahead" one, only fires when
  the previous roughness is nonzero.
- The lookahead window's start is a plain number, and `0` marks it as
  unset. A window that would open at position 0 therefore does not open.
- Nothing keeps speed limits positive. A single ratchet after a command
  slower than 0.15 already leaves a negative limit, for instance 0.025 − 0.15
  = −0.125 at the end of the worked example. From then on
  `Shaper.RequestedTarget` reverses the requested direction, so a
  full-forward stick asks to drive backwards. `Properties.SlowRatchetReverses`
  states this.

## Model

| member | source | states |
|---|---|---|
| Profiles.AfterSurfaceEvent | code/velocity_controller.py:84-100 | the new id and `-1` are in the table, and the keys only grow by the new id; a new id right after `-1` gets the old `-1` profile and `-1` resets to `{2.0, 0.25}`; a new id after any other surface gets the defaults and `-1` is untouched; a known id keeps its entry and `-1` resets; every other entry is unchanged |
| Anticipation.AfterBumpiness | code/velocity_controller.py:112-121 | the previous roughness becomes the old current one; `upcomingBumpiness` holds iff it already held or (previous ≠ 0 and value > 1.75·previous); `surfaceTransition` holds iff it already held or (previous ≠ 0 and 1.75·value < previous); flags are never cleared and the window is untouched |
| Anticipation.NoDoubleLatch | code/velocity_controller.py:116-121 | for non-negative roughness one report never latches both flags |
| Anticipation.AfterPosition | code/velocity_controller.py:147-162 | both flags clear and the window closes exactly when a window was already open and the robot is ≥ 0.45 m from its start; otherwise the flags stay; a closed window opens at `x` only if a flag is set; the opening sample never closes it |
| Anticipation.WindowHoldsWithinLookahead | code/velocity_controller.py:153-162 | while every position stays within 0.45 m of an open window's start, the tracker does not change |
| Anticipation.AnticipationLifecycle | code/velocity_controller.py:147-162 | a latched flag opens the window at the first nonzero position, survives every position short of 0.45 m from it, and is cleared by the first position at 0.45 m or beyond |
| Vibration.Variance | code/velocity_controller.py:253 | the window's population variance (the square of `np.std`) is non-negative |
| Vibration.SteadyWindowIsNotTooRough | code/velocity_controller.py:253-255 | a window of identical samples never exceeds the vibration threshold |
| Vibration.RatchetedMax | code/velocity_controller.py:256-257 | the lowered limit is 0.15 below the smaller of the old limit and the last commanded speed: at least 0.15 below both, and exactly 0.15 below one of them |
| Vibration.AfterImuSample | code/velocity_controller.py:250-257 | the buffer grows by the sample until it is full, then always empties, so it stays under 20; only the current surface's entry can change, only its speed limit, only downwards; it changes iff the window is full and (variance > 0.45², \|older\| < \|previous\|, no smoother surface ahead), and then becomes `min(\|previous\|, old) - 0.15` |
| Pid.Correct | code/velocity_controller.py:272-279 | `p = target - measured` and the previous error becomes `p`; the integral grows by `p·deltaT`; the derivative satisfies `d·deltaT = p - previous error` when `deltaT > 0` and is kept otherwise; the output is `target + 0.001·i + 0.00001·d` (measured velocity cancels because kp = 1) |
| Pid.IntegralIsErrorArea | code/velocity_controller.py:273 | over any sequence of corrections the integral is exactly its start value plus the sum of error × elapsed time (no anti-windup) |
| Shaper.RequestedTarget | code/velocity_controller.py:185-200 | for a non-negative limit the target has the sign of `-axis` (zero counts as forward), magnitude at most `2·\|axis\|` and at most the limit, and at most 0.2 while rougher terrain is ahead; with no cap active it is exactly `-2·axis`; otherwise its magnitude is one of the caps that apply (the limit, twice the deflection, or 0.2 while rougher terrain is ahead), so with the bounds it is the smallest of them; a negative limit reverses the direction |
| Shaper.AccelLimited | code/velocity_controller.py:218-225 | for a non-negative acceleration limit the result is within `maxAccel·\|dt\|` of the previous command and between the previous command and the target; when the target is reachable it is returned unchanged, and otherwise the result moves exactly `maxAccel·\|dt\|` toward it |
| Shaper.RampedTarget | code/velocity_controller.py:185-225 | the value handed to the PID corrector is the requested target (under the 0.2 cap and the speed limit) ramped from the previous command: within `maxAccel·\|dt\|` of it, never past the request, equal to the request when reachable, and exactly `maxAccel·\|dt\|` toward it otherwise |
| Controller.InitialInvariant | code/velocity_controller.py:26-72 | the start-up state satisfies the controller invariant |
| Controller.SurfaceStep | code/velocity_controller.py:77-100 | the reported id becomes current and has a profile (so the lookups of the IMU and joystick callbacks succeed); the old current id becomes the previous one; the table becomes `AfterSurfaceEvent` of the old table, the old current id and the new id; nothing else changes; the invariant is preserved |
| Controller.BumpinessStep | code/velocity_controller.py:106-121 | the anticipation tracker becomes `AfterBumpiness` of the old one and the report; nothing else changes |
| Controller.OdometryStep | code/velocity_controller.py:126-162 | the measured velocity and the reading's stamp are recorded; `deltaT` is the time since the previous reading's stamp; the tracker becomes `AfterPosition` of the old one and the position; nothing else changes |
| Controller.ImuStep | code/velocity_controller.py:240-257 | the sample is recorded, and the table and buffer become `AfterImuSample` of the current surface, the old buffer, the sample, the last two commands and the smoother-ahead flag; nothing else changes; preserves the invariant: the scratch slot and the current surface stay in the table, the buffer stays under 20, no speed limit exceeds the default and every acceleration limit stays 0.25 |
| Controller.JoystickStep | code/velocity_controller.py:167-238 | deadman off: no change and nothing published; anomalous previous command: no change and Quit; first message or same stamp: only the stamp is recorded and the previous command is re-published; otherwise the new PID memory is what `Pid.Correct` computes for the ramped target, the measured velocity and the odometry interval, the published value is the ramped target plus that memory's I and D trims, the history shifts, and only the stamp, history and PID memory change |
| Controller.Step | code/velocity_controller.py:77-279 | any callback preserves the invariant; only the joystick callback publishes |
| Controller.Run | code/velocity_controller.py:77-279 | over any sequence of messages the invariant holds, there is one command per message, and no surface is ever dropped from the table |
| Properties.StepKeepsNamedProfile | code/velocity_controller.py:84-100 | one message never drops a classified surface's entry, never raises its speed limit and never changes its acceleration limit |
| Properties.NamedProfileOnlyDegrades | code/velocity_controller.py:250-257 | over any sequence of messages a classified surface's speed limit never goes back up and its acceleration limit never changes |
| Properties.QuitIsPermanent | code/velocity_controller.py:207-209 | once the previous command exceeds ±2 it never changes again, and no later message publishes anything |
| Properties.SameStampRepeatsLastCommand | code/velocity_controller.py:205-215 | a second joystick message with the same stamp re-publishes the first one's command and changes nothing (unless that command was beyond ±2, in which case it quits) |
| Properties.RampRespectsAccelerationLimit | code/velocity_controller.py:218-225 | on every ramped message the PID input is within 0.25·\|dt\| of the previous command, lies between it and the capped request, equals the request when that is reachable, and otherwise is exactly 0.25·\|dt\| away from the previous command |
| Properties.RougherTerrainExample | code/velocity_controller.py:106-238 | roughness 0.1 then 0.3 latches rougher-ahead; the first full-forward message holds 0; the next, 0.1 s later, is capped to 0.2, ramped to 0.025 and published as 0.025, leaving 0.025 and 0.0 as the last two commands |
| Properties.SlowRatchetReverses | code/velocity_controller.py:185-257 | when a full rough window ratchets the current surface after a command slower than 0.15, its new limit is at most that command's speed minus 0.15, hence negative, and a full-forward stick then requests a negative (reverse) speed |
| Node.VelocityController.constructor | code/velocity_controller.py:26-72 | the fields start as the node's globals do, and the invariant holds |
| Node.VelocityController.OnSurface | code/velocity_controller.py:77-100 | updates the current and previous surface and the table exactly as `SurfaceStep`, keeping the invariant |
| Node.VelocityController.OnBumpiness | code/velocity_controller.py:106-121 | updates the anticipation fields exactly as `AfterBumpiness` |
| Node.VelocityController.OnOdometry | code/velocity_controller.py:126-162 | records the measured velocity, the time since the last reading and its stamp, and updates the anticipation fields exactly as `AfterPosition` |
| Node.VelocityController.OnImu | code/velocity_controller.py:240-257 | updates the sample, the buffer and the table exactly as `ImuStep`; the buffer stays under 20 |
| Node.VelocityController.CalculatePid | code/velocity_controller.py:261-279 | returns and stores exactly what `Pid.Correct` computes from the stored memory, measured velocity and elapsed time |
| Node.VelocityController.OnJoystick | code/velocity_controller.py:167-238 | returns the command, and leaves the stamp, the command history and the PID memory, exactly as `JoystickStep` does; nothing else can change |

## Left out

- ROS transport: the publisher, the subscriptions, the busy-wait main loop and building the `Twist` message. A published command is the method's return value.
- Message decoding: turning `secs` and `nsecs` into seconds, and reading fields out of messages. Those values arrive as parameters.
- Floating point: all arithmetic is on exact reals. The rounding of the 1.75 ratios, the 0.15 decrement and time differences is not modelled.
- `np.std`: modelled as the exact population variance compared with the squared threshold. The square root itself is not modelled.
- The exception `sys.quit()` raises (the `sys` module has no `quit`): it aborts only that joystick callback, which the model represents as the `Quit` outcome with the state unchanged. The exception itself and its logging are not modelled.
- Concurrency: the callbacks are assumed to run one at a time, in any order.
- Unused state: `current_commanded_velocity` and the unused imports. `z_vibrations` and `previous_surface` are kept as fields, although only their callbacks write them.
- Node.VelocityController.OnJoystick: the method computes the speed target and the ramp by calling `Shaper.RequestedTarget` and `Shaper.AccelLimited`, which hold those source lines, instead of repeating them inline.
