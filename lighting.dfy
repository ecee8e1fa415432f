/** The soft-shadow term `lightModifier` and its negation
    `estimateLightModifier`: a secondary ray is traced from the light towards the
    point, and the point is (partly) occluded when the trace stops short of it.
    `magnitude`, `Math.sqrt` and `normalize` are parameters and are not
    interpreted. */
module Lighting {
  import opened Vectors
  import opened Scene
  import opened Tracer

  /** The decision at the end of `lightModifier`: given the secondary trace
      `lightInfo`, the distance `lightDist` from the light to the point and the
      reach `maxDist`, the attenuation is `(lightDist - distance) / lightDist`
      when the trace stopped more than `EPSILON` short of `maxDist`, and 0
      otherwise. */
  function Attenuation(lightInfo: RayInfo, lightDist: real, maxDist: real): (m: real)
    requires lightDist != 0.0
    ensures m != 0.0 ==> lightInfo.distance < maxDist - EPSILON
    ensures 0.0 < lightDist && 0.0 <= lightInfo.distance ==> m <= 1.0
    ensures 0.0 < lightDist && lightInfo.distance < maxDist - EPSILON && lightInfo.distance < lightDist ==> 0.0 < m
  {
    if lightInfo.distance < maxDist - EPSILON then
      var m := (lightDist - lightInfo.distance) / lightDist;
      assert m * lightDist == lightDist - lightInfo.distance;
      m
    else 0.0
  }

  /** The reach of the secondary trace, `sqrt(lightDist^2 + radius^2)`. */
  function Reach(sqrt: real -> real, lightDist: real, radius: real): real
  {
    sqrt(lightDist * lightDist + radius * radius)
  }

  /** `lightModifier(p, lightPos, radius)`: traces from the light along the
      normalised direction to `p`, over `[MIN_DIST, MAX_DIST]`, with reach
      `sqrt(lightDist^2 + radius^2)`, and divides by the distance `lightDist`
      from the light to `p`. The point must differ from the light: the model
      does not interpret `normalize` of the zero vector. */
  function LightModifier(scene: Vec3 -> real, magnitude: Vec3 -> real, sqrt: real -> real,
                         normalize: Vec3 -> Vec3, p: Vec3, lightPos: Vec3, radius: real): real
    requires magnitude(Sub(p, lightPos)) != 0.0
  {
    var lightInfo := Trace(scene, lightPos, normalize(Sub(p, lightPos)), MIN_DIST, MAX_DIST);
    var lightDist := magnitude(Sub(p, lightPos));
    Attenuation(lightInfo, lightDist, Reach(sqrt, lightDist, radius))
  }

  /** The secondary trace never reports a negative distance (it starts at
      `MIN_DIST`), so the attenuation is at most 1. */
  lemma LightModifierAtMostOne(scene: Vec3 -> real, magnitude: Vec3 -> real, sqrt: real -> real,
                               normalize: Vec3 -> Vec3, p: Vec3, lightPos: Vec3, radius: real)
    requires MagnitudeLaws(magnitude)
    requires magnitude(Sub(p, lightPos)) != 0.0
    ensures LightModifier(scene, magnitude, sqrt, normalize, p, lightPos, radius) <= 1.0
  {
    TraceOutcome(scene, lightPos, normalize(Sub(p, lightPos)), MIN_DIST, MAX_DIST);
  }

  /** `estimateLightModifier`: the negated `lightModifier`. It is never below
      -1, and it is non-zero only when the trace from the light stopped more
      than `EPSILON` short of the reach `sqrt(lightDist^2 + radius^2)`. */
  function EstimateLightModifier(scene: Vec3 -> real, magnitude: Vec3 -> real, sqrt: real -> real,
                                 normalize: Vec3 -> Vec3, p: Vec3, lightPos: Vec3, radius: real): (m: real)
    requires magnitude(Sub(p, lightPos)) != 0.0
    ensures MagnitudeLaws(magnitude) ==> -1.0 <= m
    ensures m != 0.0 ==>
              Trace(scene, lightPos, normalize(Sub(p, lightPos)), MIN_DIST, MAX_DIST).distance
                < Reach(sqrt, magnitude(Sub(p, lightPos)), radius) - EPSILON
  {
    assert MagnitudeLaws(magnitude) ==> LightModifier(scene, magnitude, sqrt, normalize, p, lightPos, radius) <= 1.0 by {
      if MagnitudeLaws(magnitude) {
        LightModifierAtMostOne(scene, magnitude, sqrt, normalize, p, lightPos, radius);
      }
    }
    -LightModifier(scene, magnitude, sqrt, normalize, p, lightPos, radius)
  }
}
