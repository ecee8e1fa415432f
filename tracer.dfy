/** The sphere tracer `getRayInfo`: march along a ray by the scene's distance
    until the scene is closer than `EPSILON` (a hit), the ray passes `end`, or
    the step budget runs out (both misses). The scene is any function from
    points to distances. */
module Tracer {
  import opened Vectors

  const MAX_MARCHING_STEPS: nat := 255
  const EPSILON: real := 0.0000001
  /** The value `minRadius` starts from. */
  const INITIAL_MIN_RADIUS: real := 10000.0

  /** The record `rayInfo(...)` returns. */
  datatype RayInfo = RayInfo(
    distance: real,   // where the march stopped (`end` on a miss)
    didHit: bool,
    stepCount: nat,   // index of the final step, or the budget on a fall-through
    minRadius: real,  // smallest scene distance seen (or 10000)
    endRadius: real)  // scene distance at the final step

  /** The scene distance probed at depth `t` along the ray. */
  function Probe(scene: Vec3 -> real, eye: Vec3, dir: Vec3, t: real): real {
    scene(At(eye, dir, t))
  }

  /** Steps `i ..` of the march, given the loop's variables before step `i`:
      the reference definition the loop is proved against. */
  function March(scene: Vec3 -> real, eye: Vec3, dir: Vec3, end: real,
                 i: nat, depth: real, minRadius: real, lastRadius: real): RayInfo
    requires i <= MAX_MARCHING_STEPS
    decreases MAX_MARCHING_STEPS - i
  {
    if i == MAX_MARCHING_STEPS then
      RayInfo(end, false, MAX_MARCHING_STEPS, minRadius, lastRadius)
    else
      var dist := Probe(scene, eye, dir, depth);
      var newMin := if dist < minRadius then dist else minRadius;
      if dist < EPSILON then RayInfo(depth, true, i, newMin, dist)
      else if depth + dist >= end then RayInfo(end, false, i, newMin, dist)
      else March(scene, eye, dir, end, i + 1, depth + dist, newMin, dist)
  }

  /** `getRayInfo(eye, dir, start, end)` as a function. */
  function Trace(scene: Vec3 -> real, eye: Vec3, dir: Vec3, start: real, end: real): RayInfo {
    March(scene, eye, dir, end, 0, start, INITIAL_MIN_RADIUS, 0.0)
  }

  /** What every march from step `i` reports about where it stopped: a step
      index within the budget, the budget only on a miss, and `end` on every
      miss. */
  lemma {:induction false} MarchSteps(scene: Vec3 -> real, eye: Vec3, dir: Vec3, end: real,
                                      i: nat, depth: real, minRadius: real, lastRadius: real)
    requires i <= MAX_MARCHING_STEPS
    ensures var r := March(scene, eye, dir, end, i, depth, minRadius, lastRadius);
            && i <= r.stepCount <= MAX_MARCHING_STEPS
            && (r.stepCount == MAX_MARCHING_STEPS ==> !r.didHit)
            && (!r.didHit ==> r.distance == end)
    decreases MAX_MARCHING_STEPS - i
  {
    if i < MAX_MARCHING_STEPS {
      var dist := Probe(scene, eye, dir, depth);
      var newMin := if dist < minRadius then dist else minRadius;
      if dist >= EPSILON && depth + dist < end {
        MarchSteps(scene, eye, dir, end, i + 1, depth + dist, newMin, dist);
      }
    }
  }

  /** What every march from step `i` reports about the distances it saw: the
      reported minimum is no larger than the final distance, nor than the
      minimum so far. */
  lemma {:induction false} MarchRadii(scene: Vec3 -> real, eye: Vec3, dir: Vec3, end: real,
                                      i: nat, depth: real, minRadius: real, lastRadius: real)
    requires i <= MAX_MARCHING_STEPS
    requires i > 0 ==> minRadius <= lastRadius
    ensures var r := March(scene, eye, dir, end, i, depth, minRadius, lastRadius);
            r.minRadius <= r.endRadius && r.minRadius <= minRadius
    decreases MAX_MARCHING_STEPS - i
  {
    if i < MAX_MARCHING_STEPS {
      var dist := Probe(scene, eye, dir, depth);
      var newMin := if dist < minRadius then dist else minRadius;
      if dist >= EPSILON && depth + dist < end {
        MarchRadii(scene, eye, dir, end, i + 1, depth + dist, newMin, dist);
      }
    }
  }

  /** A hit reported by a march from step `i` is where the scene is below
      `EPSILON`, no nearer than the current depth, and before `end`. */
  lemma {:induction false} MarchHit(scene: Vec3 -> real, eye: Vec3, dir: Vec3, end: real,
                                    i: nat, depth: real, minRadius: real, lastRadius: real)
    requires i <= MAX_MARCHING_STEPS
    ensures var r := March(scene, eye, dir, end, i, depth, minRadius, lastRadius);
            r.didHit ==>
              && r.endRadius < EPSILON && r.endRadius == Probe(scene, eye, dir, r.distance)
              && depth <= r.distance && (depth < end ==> r.distance < end)
    decreases MAX_MARCHING_STEPS - i
  {
    if i < MAX_MARCHING_STEPS {
      var dist := Probe(scene, eye, dir, depth);
      var newMin := if dist < minRadius then dist else minRadius;
      if dist >= EPSILON && depth + dist < end {
        MarchHit(scene, eye, dir, end, i + 1, depth + dist, newMin, dist);
      }
    }
  }

  /** The outcome of a whole trace from `start`. */
  lemma TraceOutcome(scene: Vec3 -> real, eye: Vec3, dir: Vec3, start: real, end: real)
    ensures var r := Trace(scene, eye, dir, start, end);
            && r.stepCount <= MAX_MARCHING_STEPS
            && (r.stepCount == MAX_MARCHING_STEPS ==> !r.didHit)
            && (r.didHit ==> r.endRadius < EPSILON && r.endRadius == Probe(scene, eye, dir, r.distance))
            && (!r.didHit ==> r.distance == end)
            && r.minRadius <= r.endRadius && r.minRadius <= INITIAL_MIN_RADIUS
            && (r.didHit ==> start <= r.distance && (start < end ==> r.distance < end))
  {
    MarchSteps(scene, eye, dir, end, 0, start, INITIAL_MIN_RADIUS, 0.0);
    MarchRadii(scene, eye, dir, end, 0, start, INITIAL_MIN_RADIUS, 0.0);
    MarchHit(scene, eye, dir, end, 0, start, INITIAL_MIN_RADIUS, 0.0);
  }

  /** A ray along which the scene never comes within `EPSILON` from `start`
      on is a miss, and reports `end` as its distance; what lies behind
      `start` is never probed. */
  lemma MissAwayFromScene(scene: Vec3 -> real, eye: Vec3, dir: Vec3, start: real, end: real)
    requires forall t :: start <= t ==> Probe(scene, eye, dir, t) >= EPSILON
    ensures !Trace(scene, eye, dir, start, end).didHit
    ensures Trace(scene, eye, dir, start, end).distance == end
  {
    TraceOutcome(scene, eye, dir, start, end);
  }

  /** A ray that starts on or inside a surface hits at once, at `start`, on step 0. */
  lemma ImmediateHit(scene: Vec3 -> real, eye: Vec3, dir: Vec3, start: real, end: real)
    requires Probe(scene, eye, dir, start) < EPSILON
    ensures var d := Probe(scene, eye, dir, start);
            Trace(scene, eye, dir, start, end) == RayInfo(start, true, 0, d, d)
  {
  }

  /** Every step that neither hits nor stops moves the ray on by at least
      `EPSILON`: a hit reported at step `r.stepCount` lies at least
      `(r.stepCount - i) * EPSILON` beyond the depth of step `i`. */
  lemma {:induction false} MarchAdvances(scene: Vec3 -> real, eye: Vec3, dir: Vec3, end: real,
                                         i: nat, depth: real, minRadius: real, lastRadius: real)
    requires i <= MAX_MARCHING_STEPS
    ensures var r := March(scene, eye, dir, end, i, depth, minRadius, lastRadius);
            r.didHit ==> i <= r.stepCount && depth + (r.stepCount - i) as real * EPSILON <= r.distance
    decreases MAX_MARCHING_STEPS - i
  {
    if i < MAX_MARCHING_STEPS {
      var dist := Probe(scene, eye, dir, depth);
      var newMin := if dist < minRadius then dist else minRadius;
      if dist >= EPSILON && depth + dist < end {
        MarchAdvances(scene, eye, dir, end, i + 1, depth + dist, newMin, dist);
      }
    }
  }

  /** `getRayInfo`: the loop of the source. The ghost result `evaluations`
      counts the calls of the scene function. */
  method GetRayInfo(scene: Vec3 -> real, eye: Vec3, dir: Vec3, start: real, end: real)
    returns (info: RayInfo, ghost evaluations: nat)
    // the outcome is the reference march's, so `TraceOutcome` describes it
    ensures info == Trace(scene, eye, dir, start, end)
    // one scene evaluation per step taken, and never more than the budget
    ensures evaluations == if info.stepCount == MAX_MARCHING_STEPS then MAX_MARCHING_STEPS
                           else info.stepCount + 1
    ensures 1 <= evaluations <= MAX_MARCHING_STEPS
  {
    TraceOutcome(scene, eye, dir, start, end);
    var depth := start;
    var lastRadius := 0.0;
    var minRadius := INITIAL_MIN_RADIUS;
    evaluations := 0;
    var i: nat := 0;
    while i < MAX_MARCHING_STEPS
      invariant i <= MAX_MARCHING_STEPS
      invariant evaluations == i
      invariant March(scene, eye, dir, end, i, depth, minRadius, lastRadius) == Trace(scene, eye, dir, start, end)
    {
      ghost var before := March(scene, eye, dir, end, i, depth, minRadius, lastRadius);
      var dist := scene(At(eye, dir, depth));
      evaluations := evaluations + 1;
      lastRadius := dist;
      if dist < minRadius {
        minRadius := dist;
      }
      if dist < EPSILON {
        info := RayInfo(depth, true, i, minRadius, lastRadius);
        assert info == before;
        return;
      }
      depth := depth + dist;
      if depth >= end {
        info := RayInfo(end, false, i, minRadius, lastRadius);
        assert info == before;
        return;
      }
      assert before == March(scene, eye, dir, end, i + 1, depth, minRadius, lastRadius);
      i := i + 1;
    }
    info := RayInfo(end, false, MAX_MARCHING_STEPS, minRadius, lastRadius);
  }
}
