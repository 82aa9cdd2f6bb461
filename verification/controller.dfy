/** The per-tick controller: it stores the vehicle state the simulation
    harness feeds it, recomputes the desired speed on every tick, and once
    warmed up by a non-zero frame computes throttle, steer and brake. The
    persistent loop state (previous speed, accumulated speed error, step
    counter) advances on every tick, warm or cold. */
module Controller {
  import opened Waypoints
  import opened Lateral
  import Longitudinal
  import Actuator

  /** Outcome of the operations that read the path: they fail on an empty
      path, where the source reads the last element of an empty list. */
  datatype Status = Ok | EmptyPath

  class Controller2D {
    // Vehicle state, overwritten by UpdateValues.
    var currentX: real
    var currentY: real
    var currentYaw: real
    var currentSpeed: real
    var currentTimestamp: real
    var currentFrame: int
    var desiredSpeed: real
    /** Set by the first non-zero frame and never cleared. */
    var startControlLoop: bool
    // Latest commands, written only through the saturating setters.
    var throttle: real
    var steer: real
    var brake: real
    var waypoints: seq<Waypoint>
    // Persistent loop state, kept across ticks.
    var vPrevious: real
    var vDiffPrevious: real
    var step: nat

    const math: Math
    const convRadToSteer: real

    /** Object invariant: every command lies in its legal range, pi is
        pinned by the numeric library, and the radians-to-steering factor
        lies strictly between 0 and 1. */
    ghost predicate Valid()
      reads this
    {
      math.Valid()
      && 0.0 < convRadToSteer < 1.0
      && 0.0 <= throttle <= 1.0
      && -1.0 <= steer <= 1.0
      && 0.0 <= brake <= 1.0
    }

    /** A cold controller on `waypoints`: every field zero, the start flag
        down. `math` is the numeric library the steering formula uses. */
    constructor (waypoints: seq<Waypoint>, math: Math)
      requires math.Valid()
      ensures Valid()
      ensures this.waypoints == waypoints && this.math == math
      ensures convRadToSteer == Actuator.ConvRadToSteer(math.pi)
      ensures currentX == 0.0 && currentY == 0.0 && currentYaw == 0.0 && currentSpeed == 0.0
      ensures desiredSpeed == 0.0 && currentFrame == 0 && currentTimestamp == 0.0
      ensures !startControlLoop
      ensures throttle == 0.0 && brake == 0.0 && steer == 0.0
      ensures vPrevious == 0.0 && vDiffPrevious == 0.0 && step == 0
    {
      currentX, currentY, currentYaw, currentSpeed := 0.0, 0.0, 0.0, 0.0;
      desiredSpeed, currentFrame, currentTimestamp := 0.0, 0, 0.0;
      startControlLoop := false;
      throttle, brake, steer := 0.0, 0.0, 0.0;
      this.waypoints := waypoints;
      this.math := math;
      convRadToSteer := Actuator.ConvRadToSteer(math.pi);
      Actuator.ConvRadToSteerBelowOne(math.pi);
      vPrevious, vDiffPrevious, step := 0.0, 0.0, 0;
    }

    /** Store a new vehicle state. A non-zero frame raises the start flag;
        a zero frame leaves it as it was. */
    method UpdateValues(x: real, y: real, yaw: real, speed: real, timestamp: real, frame: int)
      requires Valid()
      modifies this`currentX, this`currentY, this`currentYaw, this`currentSpeed,
               this`currentTimestamp, this`currentFrame, this`startControlLoop
      ensures Valid()
      ensures currentX == x && currentY == y && currentYaw == yaw && currentSpeed == speed
      ensures currentTimestamp == timestamp && currentFrame == frame
      ensures startControlLoop == (old(startControlLoop) || frame != 0)
    {
      currentX := x;
      currentY := y;
      currentYaw := yaw;
      currentSpeed := speed;
      currentTimestamp := timestamp;
      currentFrame := frame;
      if currentFrame != 0 {
        startControlLoop := true;
      }
    }

    /** Set the desired speed to the target speed of the lowest-index
        waypoint nearest to the current position; fails on an empty path
        and then changes nothing. */
    method UpdateDesiredSpeed() returns (status: Status)
      requires Valid()
      modifies this`desiredSpeed
      ensures Valid()
      ensures status == (if |waypoints| == 0 then EmptyPath else Ok)
      ensures status == EmptyPath ==> desiredSpeed == old(desiredSpeed)
      ensures status == Ok ==> desiredSpeed == DesiredSpeedAt(waypoints, currentX, currentY)
    {
      var minIdx := FindNearest(waypoints, currentX, currentY);
      var speed := TargetSpeed(waypoints, minIdx);
      if speed.None? {
        return EmptyPath;
      }
      desiredSpeed := speed.value;
      status := Ok;
    }

    /** Replace the path wholesale; no validation. */
    method UpdateWaypoints(newWaypoints: seq<Waypoint>)
      requires Valid()
      modifies this`waypoints
      ensures Valid()
      ensures waypoints == newWaypoints
    {
      waypoints := newWaypoints;
    }

    /** Read the latest commands, in the order throttle, steer, brake. */
    method GetCommands() returns (throttleOut: real, steerOut: real, brakeOut: real)
      requires Valid()
      ensures throttleOut == throttle && steerOut == steer && brakeOut == brake
      ensures 0.0 <= throttleOut <= 1.0 && -1.0 <= steerOut <= 1.0 && 0.0 <= brakeOut <= 1.0
    {
      throttleOut, steerOut, brakeOut := throttle, steer, brake;
    }

    /** Store the throttle, saturated to [0, 1]. */
    method SetThrottle(inputThrottle: real)
      requires Valid()
      modifies this`throttle
      ensures Valid()
      ensures throttle == Actuator.Saturate(inputThrottle, 0.0, 1.0)
      ensures 0.0 <= inputThrottle <= 1.0 ==> throttle == inputThrottle
    {
      throttle := Actuator.Saturate(inputThrottle, 0.0, 1.0);
    }

    /** Store the steering command: the angle in radians converted to the
        normalised range, saturated to [-1, 1]. */
    method SetSteer(inputSteerInRad: real)
      requires Valid()
      modifies this`steer
      ensures Valid()
      ensures steer == Actuator.SteerCommand(convRadToSteer, inputSteerInRad)
    {
      var inputSteer := convRadToSteer * inputSteerInRad;
      steer := Actuator.Saturate(inputSteer, -1.0, 1.0);
    }

    /** Store the brake, saturated to [0, 1]. */
    method SetBrake(inputBrake: real)
      requires Valid()
      modifies this`brake
      ensures Valid()
      ensures brake == Actuator.Saturate(inputBrake, 0.0, 1.0)
      ensures 0.0 <= inputBrake <= 1.0 ==> brake == inputBrake
    {
      brake := Actuator.Saturate(inputBrake, 0.0, 1.0);
    }

    /** One control tick. The desired speed is recomputed first; on an
        empty path the tick fails there and nothing changes. A cold tick
        keeps the commands; a warm tick sets them from the speed and
        steering laws, using the persistent state as it was before the
        tick and the lookahead waypoint of the current step. Either way
        the tick ends by storing the current speed, accumulating the speed
        error and counting the step. */
    method UpdateControls() returns (status: Status)
      requires Valid()
      modifies this`desiredSpeed, this`throttle, this`steer, this`brake,
               this`vPrevious, this`vDiffPrevious, this`step
      ensures Valid()
      ensures status == (if |waypoints| == 0 then EmptyPath else Ok)
      ensures status == EmptyPath ==> unchanged(this)
      ensures status == Ok ==> desiredSpeed == DesiredSpeedAt(waypoints, currentX, currentY)
      ensures status == Ok ==>
                vPrevious == currentSpeed
                && vDiffPrevious == old(vDiffPrevious) + (desiredSpeed - currentSpeed)
                && step == old(step) + 1
      ensures status == Ok && !startControlLoop ==>
                throttle == old(throttle) && steer == old(steer) && brake == old(brake)
      ensures status == Ok && startControlLoop ==>
                throttle == Longitudinal.ThrottlePercent(desiredSpeed, currentSpeed, old(vPrevious), old(vDiffPrevious))
                && brake == 0.0
                && steer == Actuator.SteerCommand(convRadToSteer,
                                                  SteerAngle(math, old(step), currentX, currentY, currentYaw, desiredSpeed,
                                                             waypoints[LookaheadIndex(old(step), |waypoints|)]))
      ensures status == Ok && startControlLoop && old(step) < StartupSteps ==> steer == 0.0
    {
      var x, y, yaw, v := currentX, currentY, currentYaw, currentSpeed;
      status := UpdateDesiredSpeed();
      if status == EmptyPath {
        return;
      }
      var vDesired := desiredSpeed;
      if startControlLoop {
        var throttleOutput := Longitudinal.ThrottlePercent(vDesired, v, vPrevious, vDiffPrevious);
        var brakeOutput := Longitudinal.BrakeOutput;
        var target := waypoints[LookaheadIndex(step, |waypoints|)];
        var steerOutput := SteerAngle(math, step, x, y, yaw, vDesired, target);
        SetThrottle(throttleOutput);
        assert throttle == throttleOutput;
        SetSteer(steerOutput);
        SetBrake(brakeOutput);
        assert brake == 0.0;
        assert x == currentX && y == currentY && yaw == currentYaw && vDesired == desiredSpeed;
        assert steerOutput == SteerAngle(math, old(step), currentX, currentY, currentYaw, desiredSpeed,
                                         waypoints[LookaheadIndex(old(step), |waypoints|)]);
      }
      vPrevious := v;
      vDiffPrevious := vDesired - v + vDiffPrevious;
      step := step + 1;
    }
  }

  /** The arguments of one `update_values` call. */
  datatype Sample = Sample(x: real, y: real, yaw: real, speed: real, timestamp: real, frame: int)

  /** A harness run that only ever reports frame 0: however many ticks it
      drives, on whatever path, the commands read back are all zero. */
  method ColdTicks(wps: seq<Waypoint>, math: Math, samples: seq<Sample>)
    returns (throttle: real, steer: real, brake: real)
    requires math.Valid()
    requires forall i :: 0 <= i < |samples| ==> samples[i].frame == 0
    ensures throttle == 0.0 && steer == 0.0 && brake == 0.0
  {
    var c := new Controller2D(wps, math);
    for i := 0 to |samples|
      invariant c.Valid() && !c.startControlLoop
      invariant c.throttle == 0.0 && c.steer == 0.0 && c.brake == 0.0
    {
      var s := samples[i];
      c.UpdateValues(s.x, s.y, s.yaw, s.speed, s.timestamp, s.frame);
      var _ := c.UpdateControls();
    }
    throttle, steer, brake := c.GetCommands();
  }
}
