/** Lateral (path-tracking) controller: pure-pursuit geometry towards the
    lookahead waypoint, followed by startup suppression, a +-0.3 rad clamp
    and a 0.05 rad deadband. The trigonometric functions are those of the
    host's numeric library and are not modelled: they are carried as
    function values in a `Math` record, so every bound proved here holds
    whatever they compute. */
module Lateral {
  import opened Waypoints

  /** The numeric library the controller calls: the constant pi and the
      functions atan2, sin and arctan, left uninterpreted. */
  datatype Math = Math(pi: real, atan2: (real, real) -> real, sin: real -> real, arctan: real -> real)
  {
    predicate Valid() {
      3.14159 < pi < 3.14160
    }
  }

  const YawDeadband: real := 0.05
  /** `L` of the pure-pursuit formula. */
  const LookaheadDistance: real := 3.0
  /** `kdd` of the pure-pursuit formula. */
  const Kdd: real := 0.8
  /** Speed floor used in the steering formula only. */
  const MinPursuitSpeed: real := 10.0
  /** Number of control steps during which steering is held at zero. */
  const StartupSteps: nat := 100
  const MaxSteerAngle: real := 0.3
  const SteerDeadband: real := 0.05

  function Abs(r: real): real {
    if r < 0.0 then -r else r
  }

  /** Heading in the controller's convention, -yaw - pi/2, snapped to 0
      when it is within the yaw deadband. */
  function ProcessedYaw(m: Math, yaw: real): (r: real)
    ensures r == 0.0 || Abs(r) >= YawDeadband
    ensures r == 0.0 || r == -yaw - m.pi / 2.0
    ensures Abs(-yaw - m.pi / 2.0) >= YawDeadband ==> r == -yaw - m.pi / 2.0
  {
    var processedYaw := -yaw - m.pi / 2.0;
    if Abs(processedYaw) < YawDeadband then 0.0 else processedYaw
  }

  /** Speed used in the steering formula: the desired speed, raised to
      the floor of 10 m/s when it is lower. */
  function PursuitVelocity(vDesired: real): (v: real)
    ensures v >= MinPursuitSpeed && v >= vDesired
    ensures v == vDesired || v == MinPursuitSpeed
  {
    if vDesired < MinPursuitSpeed then MinPursuitSpeed else vDesired
  }

  /** Pure-pursuit angle before post-processing. The bearing passes the
      x difference first and the y difference second to atan2; that order
      goes with the processed-yaw convention and is kept. The speed floor
      keeps the divisor at least Kdd * 10. */
  function RawSteerAngle(m: Math, x: real, y: real, yaw: real, vDesired: real, target: Waypoint): real {
    var alpha := m.atan2(target.x - x, target.y - y) - ProcessedYaw(m, yaw);
    m.arctan(2.0 * LookaheadDistance * m.sin(alpha) / (Kdd * PursuitVelocity(vDesired)))
  }

  /** Below the speed floor the desired speed has no effect on steering:
      the angle is the one computed for exactly 10 m/s. */
  lemma SteerIgnoresLowDesiredSpeed(m: Math, x: real, y: real, yaw: real, vDesired: real, target: Waypoint)
    requires vDesired < MinPursuitSpeed
    ensures RawSteerAngle(m, x, y, yaw, vDesired, target) == RawSteerAngle(m, x, y, yaw, MinPursuitSpeed, target)
  {
  }

  /** Post-processing of the steering angle at control step `step`: zero
      during startup, then clamped to +-0.3 rad, then snapped to zero
      inside the 0.05 rad deadband. */
  function PostProcessSteer(step: nat, angle: real): (r: real)
    ensures step < StartupSteps ==> r == 0.0
    ensures -MaxSteerAngle <= r <= MaxSteerAngle
    ensures r == 0.0 || Abs(r) >= SteerDeadband
    ensures Abs(angle) < SteerDeadband ==> r == 0.0
    ensures (r > 0.0 ==> angle > 0.0) && (r < 0.0 ==> angle < 0.0)
    ensures step >= StartupSteps && SteerDeadband <= Abs(angle) <= MaxSteerAngle ==> r == angle
    ensures step >= StartupSteps && angle > MaxSteerAngle ==> r == MaxSteerAngle
    ensures step >= StartupSteps && angle < -MaxSteerAngle ==> r == -MaxSteerAngle
  {
    var suppressed := if step < StartupSteps then 0.0 else angle;
    var clamped :=
      if suppressed > MaxSteerAngle then MaxSteerAngle
      else if suppressed < -MaxSteerAngle then -MaxSteerAngle
      else suppressed;
    if Abs(clamped) < SteerDeadband then 0.0 else clamped
  }

  /** Final steering angle of a warm tick towards `target`. Whatever the
      trigonometric functions return, it is zero for the first 100 steps
      and afterwards lies in [-0.3, 0.3] outside the open deadband. */
  function SteerAngle(m: Math, step: nat, x: real, y: real, yaw: real, vDesired: real, target: Waypoint): (r: real)
    ensures step < StartupSteps ==> r == 0.0
    ensures -MaxSteerAngle <= r <= MaxSteerAngle
    ensures r == 0.0 || Abs(r) >= SteerDeadband
  {
    PostProcessSteer(step, RawSteerAngle(m, x, y, yaw, vDesired, target))
  }
}
