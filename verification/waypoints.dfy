/** The path the controller tracks and the two ways it picks a waypoint
    from it: the nearest waypoint gives the desired speed, and a
    step-indexed lookahead waypoint gives the steering target. */
module Waypoints {

  datatype Option<T> = None | Some(value: T)

  /** One path point: position and the speed to track there. */
  datatype Waypoint = Waypoint(x: real, y: real, speed: real)

  /** Squared Euclidean distance from (px, py) to `w`. The source compares
      Euclidean norms; the square root is monotone on non-negative reals,
      so comparing squares selects the same waypoint. */
  function SqDist(w: Waypoint, px: real, py: real): (d: real)
    ensures d >= 0.0
  {
    (w.x - px) * (w.x - px) + (w.y - py) * (w.y - py)
  }

  /** `k` is the lowest index among the first `n` waypoints whose distance
      to (px, py) is minimal. */
  predicate IsFirstNearestIn(wps: seq<Waypoint>, px: real, py: real, n: nat, k: nat)
    requires n <= |wps|
  {
    k < n
    && (forall j :: 0 <= j < n ==> SqDist(wps[k], px, py) <= SqDist(wps[j], px, py))
    && (forall j :: 0 <= j < k ==> SqDist(wps[k], px, py) < SqDist(wps[j], px, py))
  }

  predicate IsFirstNearest(wps: seq<Waypoint>, px: real, py: real, k: nat) {
    IsFirstNearestIn(wps, px, py, |wps|, k)
  }

  /** The index the scan of `update_desired_speed` holds after visiting
      the first `n` waypoints: a later waypoint replaces the current
      minimum only when it is strictly closer. */
  function FirstNearestIn(wps: seq<Waypoint>, px: real, py: real, n: nat): (k: nat)
    requires 0 < n <= |wps|
    ensures IsFirstNearestIn(wps, px, py, n, k)
  {
    if n == 1 then 0
    else
      var k := FirstNearestIn(wps, px, py, n - 1);
      if SqDist(wps[n - 1], px, py) < SqDist(wps[k], px, py) then n - 1 else k
  }

  function FirstNearest(wps: seq<Waypoint>, px: real, py: real): (k: nat)
    requires |wps| > 0
    ensures IsFirstNearest(wps, px, py, k)
  {
    FirstNearestIn(wps, px, py, |wps|)
  }

  /** The characterisation is exact: an index is the one the scan returns
      if and only if it is the lowest index at minimal distance. */
  lemma FirstNearestUnique(wps: seq<Waypoint>, px: real, py: real, k: nat)
    requires |wps| > 0
    ensures IsFirstNearest(wps, px, py, k) <==> k == FirstNearest(wps, px, py)
  {
  }

  /** Of two waypoints at the same minimal distance, the later one is
      never selected. */
  lemma TieGoesToEarlier(wps: seq<Waypoint>, px: real, py: real, i: nat, j: nat)
    requires i < j < |wps|
    requires SqDist(wps[i], px, py) == SqDist(wps[j], px, py)
    ensures FirstNearest(wps, px, py) != j
  {
  }

  /** The scan of `update_desired_speed`: one pass over the path keeping
      the index and distance of the closest waypoint seen so far. The
      infinite starting distance of the source makes the first waypoint
      always taken; `i == 0` stands for that. On an empty path the loop
      does not run and the index stays 0. */
  method FindNearest(wps: seq<Waypoint>, px: real, py: real) returns (minIdx: nat)
    ensures |wps| == 0 ==> minIdx == 0
    ensures |wps| > 0 ==> minIdx == FirstNearest(wps, px, py)
    ensures |wps| > 0 ==> IsFirstNearest(wps, px, py, minIdx)
  {
    minIdx := 0;
    var minDist := 0.0;
    for i := 0 to |wps|
      invariant i == 0 ==> minIdx == 0
      invariant i > 0 ==> minIdx == FirstNearestIn(wps, px, py, i)
      invariant i > 0 ==> minDist == SqDist(wps[minIdx], px, py)
    {
      var dist := SqDist(wps[i], px, py);
      if i == 0 || dist < minDist {
        minDist := dist;
        minIdx := i;
      }
    }
  }

  /** The branch that ends `update_desired_speed`: a minimum before the
      last index reads that waypoint's speed, otherwise the last
      waypoint's speed is read. Reading the last element of an empty
      path fails, which is `None` here. */
  function TargetSpeed(wps: seq<Waypoint>, minIdx: nat): (r: Option<real>)
    ensures r.None? <==> |wps| == 0
    ensures minIdx < |wps| ==> r == Some(wps[minIdx].speed)
    ensures minIdx >= |wps| > 0 ==> r == Some(wps[|wps| - 1].speed)
  {
    if minIdx < |wps| - 1 then Some(wps[minIdx].speed)
    else if |wps| == 0 then None
    else Some(wps[|wps| - 1].speed)
  }

  /** The desired speed is the target speed of the lowest-index waypoint
      nearest to (px, py). */
  function DesiredSpeedAt(wps: seq<Waypoint>, px: real, py: real): (s: real)
    requires |wps| > 0
  {
    wps[FirstNearest(wps, px, py)].speed
  }

  /** On the path (0,0,5), (10,0,8), (20,0,3) the point (9,0) is strictly
      closest to the middle waypoint, so its speed 8 is tracked. */
  lemma NearestSpeedExample()
    ensures DesiredSpeedAt([Waypoint(0.0, 0.0, 5.0), Waypoint(10.0, 0.0, 8.0), Waypoint(20.0, 0.0, 3.0)], 9.0, 0.0) == 8.0
  {
    var wps := [Waypoint(0.0, 0.0, 5.0), Waypoint(10.0, 0.0, 8.0), Waypoint(20.0, 0.0, 3.0)];
    assert FirstNearestIn(wps, 9.0, 0.0, 2) == 1;
    assert FirstNearestIn(wps, 9.0, 0.0, 3) == 1;
  }

  /** Number of control steps the lookahead waypoint is held before the
      next one is targeted. */
  const StepsPerWaypoint: nat := 3

  /** Index of the steering target at control step `step` on a path of
      `count` waypoints: step / 3, truncated, capped at the last index. */
  function LookaheadIndex(step: nat, count: nat): (i: nat)
    requires count > 0
    ensures i < count
    ensures i <= step / StepsPerWaypoint
    ensures i == step / StepsPerWaypoint || i == count - 1
  {
    if step / StepsPerWaypoint < count - 1 then step / StepsPerWaypoint else count - 1
  }

  /** From one step to the next the lookahead index never moves back and
      moves forward by at most one waypoint, and only when the new step
      is a multiple of three. */
  lemma LookaheadAdvance(step: nat, count: nat)
    requires count > 0
    ensures LookaheadIndex(step, count) <= LookaheadIndex(step + 1, count) <= LookaheadIndex(step, count) + 1
    ensures (step + 1) % StepsPerWaypoint != 0 ==> LookaheadIndex(step + 1, count) == LookaheadIndex(step, count)
  {
  }

}
