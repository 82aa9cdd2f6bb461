# Controller2D — a verified model of the CARLA waypoint-follower controller

This project models `Controller2D` (`Course1FinalProject/controller2d.py`),
the per-tick feedback controller of the CARLA waypoint-follower: the
simulation harness feeds it the vehicle pose, speed, timestamp and frame
(`update_values`), asks it to run one control tick (`update_controls`) and
reads back throttle, steer and brake (`get_commands`).

The model keeps the source's imperative form: `Controller.Controller2D` is
a class whose fields are the controller's instance fields and whose
methods update them in place, with `modifies` frames that name exactly the
fields each method may change. The persistent loop variables the source
keeps in `self.vars` (`v_previous`, `v_diff_previous`, `step`) are plain
fields set to 0 at construction. The pure parts of the tick are functions
in their own modules:

- `Waypoints`: the nearest-waypoint scan of `update_desired_speed` (a
  method with a loop, proved against the recursive specification
  `FirstNearestIn`), the branch that reads the target speed, and the
  step-indexed lookahead index.
- `Longitudinal`: the throttle law (gains 0.6, 0.01 and 1, divisor
  16.25 / 2 / 5 = 1.625) with its clamp to [0, 1]; the brake of a warm tick
  is 0.
- `Lateral`: pure pursuit (L = 3, kdd = 0.8, speed floor 10 m/s), the
  heading deadband, startup suppression for the first 100 steps, the
  ±0.3 rad clamp and the 0.05 rad deadband. atan2, sin and arctan are
  function values in a `Math` record passed to the constructor, so every
  bound is proved whatever they compute; `Math.Valid` pins pi between
  3.14159 and 3.14160.
- `Actuator`: the saturating setters (`fmax(fmin(x, hi), lo)` over the
  reals) and the radians-to-steering factor 180 / 70 / pi.

Arithmetic is over `real`. The nearest-waypoint comparison uses squared
distances, which select the same waypoint as the Euclidean norms the
source compares. An empty path makes the source fail when it reads the
last waypoint; the model returns `EmptyPath` and changes nothing.

Facts a client gets from the contracts: all three commands always lie in
their ranges (`Controller2D.Valid`); the start flag starts false, is
raised by the first non-zero frame and is never cleared (only
`UpdateValues` may write it); a cold tick leaves the commands as they were,
so a harness that only reports frame 0 reads (0, 0, 0) however many ticks
it runs (`ColdTicks`); on a warm tick the steering angle is 0 during the
first 100 steps and otherwise lies in [-0.3, 0.3] outside the deadband, and
the conversion factor, being below 1, never saturates it
(`SteerCommandUnsaturated`).

## Model

| member | source | states |
|---|---|---|
| `Actuator.Saturate` | Course1FinalProject/controller2d.py:66 | the fmin-then-fmax clamp lands in [lo, hi], is the identity inside it and saturates to the nearer bound outside |
| `Actuator.ConvRadToSteer` | Course1FinalProject/controller2d.py:27 | the radians-to-steering factor is positive and maps pi * 70 / 180 radians (70 degrees) to 1 |
| `Actuator.ConvRadToSteerBelowOne` | Course1FinalProject/controller2d.py:27 | with pi above 3.14159 the factor is strictly between 0 and 1 |
| `Actuator.SteerCommand` | Course1FinalProject/controller2d.py:69-75 | the value `set_steer` stores lies in [-1, 1], is 0 for a zero angle, equals the converted angle when that is in range and saturates otherwise |
| `Actuator.SteerCommandUnsaturated` | Course1FinalProject/controller2d.py:241-250 | an angle inside ±0.3 rad is stored unsaturated, as the converted angle itself, within ±0.3 times the factor |
| `Waypoints.SqDist` | Course1FinalProject/controller2d.py:46-48 | the distance measure compared by the scan is non-negative |
| `Waypoints.FirstNearestIn` | Course1FinalProject/controller2d.py:45-51 | after the first n waypoints the scan holds the lowest index at minimal distance among them (a later waypoint wins only when strictly closer) |
| `Waypoints.FirstNearest` | Course1FinalProject/controller2d.py:41-51 | over the whole path the selected index is the lowest one at minimal distance |
| `Waypoints.FirstNearestUnique` | Course1FinalProject/controller2d.py:49-51 | an index is the selected one if and only if it is the lowest index at minimal distance |
| `Waypoints.TieGoesToEarlier` | Course1FinalProject/controller2d.py:49 | of two equidistant waypoints the later is never selected |
| `Waypoints.FindNearest` | Course1FinalProject/controller2d.py:42-51 | the loop returns the lowest index at minimal distance on a non-empty path, and 0 on an empty one |
| `Waypoints.TargetSpeed` | Course1FinalProject/controller2d.py:52-55 | both branches read the speed of the selected waypoint; only an empty path fails |
| `Waypoints.NearestSpeedExample` | Course1FinalProject/controller2d.py:41-56 | on the path (0,0,5), (10,0,8), (20,0,3) the position (9,0) tracks speed 8 |
| `Waypoints.LookaheadIndex` | Course1FinalProject/controller2d.py:199-202 | the target index is a valid index, at most step / 3, and equal to step / 3 unless capped at the last index |
| `Waypoints.LookaheadAdvance` | Course1FinalProject/controller2d.py:199-202 | from one step to the next the target index never moves back, moves by at most one, and moves only when the new step is a multiple of 3 |
| `Longitudinal.RawThrottle` | Course1FinalProject/controller2d.py:174 | the unnormalised signal is linear: +0.6 on the desired speed, +0.4 on the current speed (the correction uses the raw speed change), -1 on the previous speed and +0.01 on the accumulated error; at steady state only the integral term remains |
| `Longitudinal.ThrottlePercent` | Course1FinalProject/controller2d.py:169-180 | the warm-tick throttle lies in [0, 1], is the control signal divided by 1.625 when that is in range, 1 above and 0 below |
| `Longitudinal.ThrottleMonotone` | Course1FinalProject/controller2d.py:174-180 | the throttle does not decrease as desired speed, current speed or accumulated error grow, nor as the previous speed shrinks |
| `Lateral.ProcessedYaw` | Course1FinalProject/controller2d.py:206-209 | the processed heading is -yaw - pi/2, or 0 when that lies inside the 0.05 deadband |
| `Lateral.PursuitVelocity` | Course1FinalProject/controller2d.py:231-233 | the speed in the steering formula is the desired speed floored at 10 |
| `Lateral.RawSteerAngle` | Course1FinalProject/controller2d.py:225-235 | no contract of its own: the pure-pursuit angle arctan(2L sin(alpha) / (kdd v)) with alpha = atan2(dx, dy) - processed yaw is built from uninterpreted functions, so nothing can be said of its value; the divisor is at least kdd * 10 = 8 through `PursuitVelocity` |
| `Lateral.SteerIgnoresLowDesiredSpeed` | Course1FinalProject/controller2d.py:231-235 | below 10 m/s the desired speed has no effect on the pure-pursuit angle, which equals the angle computed for 10 m/s |
| `Lateral.PostProcessSteer` | Course1FinalProject/controller2d.py:238-247 | 0 during the first 100 steps; afterwards clamped to ±0.3, 0 inside the 0.05 deadband, never of the opposite sign, and the angle itself when it is between 0.05 and 0.3 in magnitude |
| `Lateral.SteerAngle` | Course1FinalProject/controller2d.py:206-247 | whatever the trigonometric functions return, the final angle is 0 for step < 100 and otherwise in [-0.3, 0.3] and either 0 or of magnitude at least 0.05 |
| `Controller.Controller2D.constructor` | Course1FinalProject/controller2d.py:13-29 | a new controller holds the given path, all fields 0, commands (0, 0, 0) and the start flag down |
| `Controller.Controller2D.UpdateValues` | Course1FinalProject/controller2d.py:31-39 | stores the pose, speed, timestamp and frame; the start flag becomes old flag or frame non-zero, so it is sticky |
| `Controller.Controller2D.UpdateDesiredSpeed` | Course1FinalProject/controller2d.py:41-56 | the desired speed becomes the target speed of the lowest-index nearest waypoint; an empty path fails and changes nothing |
| `Controller.Controller2D.UpdateWaypoints` | Course1FinalProject/controller2d.py:58-59 | replaces the path and nothing else |
| `Controller.Controller2D.GetCommands` | Course1FinalProject/controller2d.py:61-62 | returns throttle, steer and brake in that order, each in its range, changing nothing |
| `Controller.Controller2D.SetThrottle` | Course1FinalProject/controller2d.py:64-67 | stores the throttle saturated to [0, 1], the input itself when in range |
| `Controller.Controller2D.SetSteer` | Course1FinalProject/controller2d.py:69-75 | stores the converted angle saturated to [-1, 1] |
| `Controller.Controller2D.SetBrake` | Course1FinalProject/controller2d.py:77-80 | stores the brake saturated to [0, 1], the input itself when in range |
| `Controller.Controller2D.UpdateControls` | Course1FinalProject/controller2d.py:82-274 | an empty path fails and changes nothing; otherwise the desired speed is recomputed, a cold tick keeps the commands, a warm tick sets throttle from the speed law on the pre-tick persistent values, steer from the lateral law at the lookahead waypoint and brake to 0, and every tick ends with v_previous = v, v_diff_previous += v_desired - v, step += 1, nothing else changing |
| `Controller.ColdTicks` | Course1FinalProject/controller2d.py:122-123 | a run in which every frame is 0 reads back (0, 0, 0), however many ticks it drives |

## Left out

- Trigonometry: `math.atan2`, `np.sin` and `np.arctan` are uninterpreted function values supplied with pi in a `Math` record given to the constructor (the source takes only the path); `np.cos` feeds only dead code and is absent.
- Euclidean norm: `np.linalg.norm` is replaced by the squared distance; both select the same waypoint because the square root is monotone.
- Floating point: all arithmetic is over `real`; NaN, infinities and rounding are not modelled. The `float("inf")` starting distance is modelled as "the first waypoint is always taken", and `int(step / 3)` as exact integer division: the float quotient `step / 3` is rounded, but truncating it gives `step div 3` for every step below about 3 * 2^52.
- Non-finite poses: the source does not check for them, and reals cannot express them.
- `cutils.CUtils` and `create_var` are not part of this model: the three persistent variables are fields initialised to 0 in the constructor, which is what create-if-absent yields for a single controller.
- Dead computations: the rear-axle point, `vector_ld`, `vector_l`, `ld`, `feedForwardGain`, the unused `_pi` and `_2pi` fields, the local `t`, and the `matplotlib` import do not affect any output. The timestamp is stored by `UpdateValues` and otherwise unused.
- Aliasing of the path: the source keeps a reference to the caller's list, so a caller that edits that list in place changes the path the controller follows without calling `update_waypoints`; the model stores the path as a `seq` value, which only `UpdateWaypoints` replaces.
- Frame truthiness: the frame is an integer and "truthy" means non-zero.
- Determinism: every method's contract fixes the whole new state as a function of the old state and the arguments; no separate replay lemma is stated.
- Controller.Controller2D.UpdateControls: states the warm steer command as `SteerCommand(convRadToSteer, SteerAngle(...))` rather than as the product of the two; that it is the unsaturated product follows from `SteerCommandUnsaturated` together with `Valid`.
