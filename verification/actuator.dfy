/** Output stage of the controller: saturation of the three actuator
    commands and the conversion of a steering angle in radians to the
    normalised steering range. */
module Actuator {

  /** Clamp `v` to [lo, hi] the way the setters do it: the upper bound is
      applied first (fmin), then the lower bound (fmax). */
  function Saturate(v: real, lo: real, hi: real): (r: real)
    requires lo <= hi
    ensures lo <= r <= hi
    ensures lo <= v <= hi ==> r == v
    ensures v > hi ==> r == hi
    ensures v < lo ==> r == lo
  {
    var upper := if v < hi then v else hi;
    if upper > lo then upper else lo
  }

  /** Factor that maps a steering angle in radians to the normalised
      steering command: a physical range of +-70 degrees becomes +-1. */
  function ConvRadToSteer(pi: real): (c: real)
    requires pi > 0.0
    ensures c > 0.0
    ensures c * pi * 70.0 == 180.0
  {
    180.0 / 70.0 / pi
  }

  /** The value `set_steer` stores for an angle of `rad` radians. */
  function SteerCommand(conv: real, rad: real): (r: real)
    ensures -1.0 <= r <= 1.0
    ensures rad == 0.0 ==> r == 0.0
    ensures -1.0 <= conv * rad <= 1.0 ==> r == conv * rad
    ensures conv * rad > 1.0 ==> r == 1.0
    ensures conv * rad < -1.0 ==> r == -1.0
  {
    Saturate(conv * rad, -1.0, 1.0)
  }

  /** With pi above 3.14159 the conversion factor is below 1. */
  lemma ConvRadToSteerBelowOne(pi: real)
    requires 3.14159 < pi
    ensures 0.0 < ConvRadToSteer(pi) < 1.0
  {
  }

  /** An angle within the lateral controller's +-0.3 rad clamp is never
      saturated by a conversion factor below 1: the stored command is the
      converted angle itself, and it stays inside +-0.3 * conv. */
  lemma SteerCommandUnsaturated(conv: real, rad: real)
    requires 0.0 < conv < 1.0
    requires -0.3 <= rad <= 0.3
    ensures SteerCommand(conv, rad) == conv * rad
    ensures -0.3 * conv <= SteerCommand(conv, rad) <= 0.3 * conv
  {
    if rad >= 0.0 {
      assert conv * rad <= conv * 0.3;
      assert conv * rad >= conv * 0.0;
    } else {
      assert conv * rad >= conv * -0.3;
      assert conv * rad <= conv * 0.0;
    }
  }
}
