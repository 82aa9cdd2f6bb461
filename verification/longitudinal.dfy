/** Longitudinal (speed-tracking) controller: a proportional-integral law
    with a correction on the raw change of speed between ticks, normalised
    to a throttle fraction and clamped to [0, 1]. Braking is never
    commanded. */
module Longitudinal {

  const PGain: real := 0.6
  const IGain: real := 0.01
  const DGain: real := 1.0
  /** Divisor that turns the control signal into a throttle fraction,
      assuming speeds between 0 and 25 m/s: 16.25 / 2 / 5, written out as
      its value 1.625. */
  const NormalizeFactor: real := 1.625
  /** The brake command of every warm tick. */
  const BrakeOutput: real := 0.0

  /** The unnormalised control signal. The correction term uses the change
      of the measured speed, not the change of the speed error. */
  function RawThrottle(vDesired: real, v: real, vPrevious: real, vDiffPrevious: real): (r: real)
    ensures r == PGain * vDesired + (DGain - PGain) * v - DGain * vPrevious + IGain * vDiffPrevious
    ensures vDesired == v == vPrevious ==> r == IGain * vDiffPrevious
  {
    PGain * (vDesired - v) + DGain * (v - vPrevious) + IGain * vDiffPrevious
  }

  /** Throttle fraction of a warm tick: the normalised signal, saturated at
      1 above and at 0 below. */
  function ThrottlePercent(vDesired: real, v: real, vPrevious: real, vDiffPrevious: real): (t: real)
    ensures 0.0 <= t <= 1.0
    ensures 0.0 <= RawThrottle(vDesired, v, vPrevious, vDiffPrevious) <= NormalizeFactor ==>
              t * NormalizeFactor == RawThrottle(vDesired, v, vPrevious, vDiffPrevious)
    ensures RawThrottle(vDesired, v, vPrevious, vDiffPrevious) > NormalizeFactor ==> t == 1.0
    ensures RawThrottle(vDesired, v, vPrevious, vDiffPrevious) < 0.0 ==> t == 0.0
  {
    var throttlePercent := RawThrottle(vDesired, v, vPrevious, vDiffPrevious) / NormalizeFactor;
    if throttlePercent > 1.0 then 1.0
    else if throttlePercent < 0.0 then 0.0
    else throttlePercent
  }

  /** The throttle never decreases when the desired speed, the current
      speed or the accumulated error grows, and never increases when the
      previous speed grows. Because the correction term uses the raw speed
      change, a higher current speed raises the throttle: its net
      coefficient is DGain - PGain = 0.4. */
  lemma ThrottleMonotone(vd1: real, v1: real, vp1: real, vdiff1: real,
                         vd2: real, v2: real, vp2: real, vdiff2: real)
    requires vd1 <= vd2 && v1 <= v2 && vp2 <= vp1 && vdiff1 <= vdiff2
    ensures ThrottlePercent(vd1, v1, vp1, vdiff1) <= ThrottlePercent(vd2, v2, vp2, vdiff2)
  {
  }
}
