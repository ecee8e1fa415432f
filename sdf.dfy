/** Signed-distance primitives and the combinators that join them. The
    combinators work on distances only; the primitives take the square root
    `magnitude` as a parameter because it is not interpreted. */
module Sdf {
  import opened Scalars
  import opened Vectors

  /** `sdUnion`: the nearer of two surfaces. */
  function SdUnion(d1: real, d2: real): (r: real)
    ensures r <= d1 && r <= d2
    ensures r == d1 || r == d2
  {
    Min(d1, d2)
  }

  /** `sdIntersect`: inside only where both shapes are. */
  function SdIntersect(d1: real, d2: real): (r: real)
    ensures r >= d1 && r >= d2
    ensures r == d1 || r == d2
  {
    Max(d1, d2)
  }

  /** `sdSubtract`: the first shape with the second carved out. */
  function SdSubtract(d1: real, d2: real): (r: real)
    ensures r >= d1 && r >= -d2
    ensures r == d1 || r == -d2
  {
    Max(d1, -d2)
  }

  /** `sdSphere(p, r)`: distance from `p` to a sphere of radius `r` about the origin. */
  function SdSphere(magnitude: Vec3 -> real, p: Vec3, radius: real): real {
    magnitude(p) - radius
  }

  /** The vector `q = |p| - b` of `sdBox`: how far `p` lies beyond each face pair. */
  function BoxExcess(p: Vec3, b: Vec3): Vec3 {
    Sub(VAbs(p), b)
  }

  /** The interior term `min(max(q0, max(q1, q2)), 0)` of `sdBox`. */
  function BoxInterior(q: Vec3): (r: real)
    ensures r <= 0.0
    ensures r <= q.x || r <= q.y || r <= q.z
  {
    Min(Max(q.x, Max(q.y, q.z)), 0.0)
  }

  /** `sdBox(p, b)`: distance to the axis-aligned box with half-extents `b`. */
  function SdBox(magnitude: Vec3 -> real, p: Vec3, b: Vec3): real {
    var q := BoxExcess(p, b);
    magnitude(VMax(q, 0.0)) + BoxInterior(q)
  }

  /** Union is commutative, associative and idempotent. */
  lemma UnionAlgebra(d1: real, d2: real, d3: real)
    ensures SdUnion(d1, d2) == SdUnion(d2, d1)
    ensures SdUnion(SdUnion(d1, d2), d3) == SdUnion(d1, SdUnion(d2, d3))
    ensures SdUnion(d1, d1) == d1
  {
  }

  /** Intersection is commutative and idempotent, and subtraction is the
      intersection with the second shape turned inside out. */
  lemma IntersectSubtract(d1: real, d2: real)
    ensures SdIntersect(d1, d2) == SdIntersect(d2, d1)
    ensures SdIntersect(d1, d1) == d1
    ensures SdSubtract(d1, d2) == SdIntersect(d1, -d2)
  {
  }

  /** A point is inside a union exactly when it is inside one of the shapes,
      and inside an intersection exactly when it is inside both. */
  lemma InsideCombinations(d1: real, d2: real)
    ensures SdUnion(d1, d2) < 0.0 <==> d1 < 0.0 || d2 < 0.0
    ensures SdIntersect(d1, d2) < 0.0 <==> d1 < 0.0 && d2 < 0.0
    ensures SdSubtract(d1, d2) < 0.0 <==> d1 < 0.0 && d2 > 0.0
  {
  }

  /** A sphere's field is `-radius` at its centre and never below it elsewhere. */
  lemma SphereCentre(magnitude: Vec3 -> real, p: Vec3, radius: real)
    requires MagnitudeLaws(magnitude)
    ensures SdSphere(magnitude, Zero, radius) == -radius
    ensures SdSphere(magnitude, p, radius) >= -radius
  {
  }

  /** The two terms of `sdBox`: the clamped excess has no negative component and
      the interior term is never positive. */
  lemma BoxTerms(p: Vec3, b: Vec3)
    ensures var m := VMax(BoxExcess(p, b), 0.0); m.x >= 0.0 && m.y >= 0.0 && m.z >= 0.0
    ensures BoxInterior(BoxExcess(p, b)) <= 0.0
  {
  }

  /** Inside the box (no face pair exceeded) the clamped excess is the zero
      vector, so the field is the largest excess: minus the distance to the
      nearest face, never positive. */
  lemma BoxInside(magnitude: Vec3 -> real, p: Vec3, b: Vec3)
    requires MagnitudeLaws(magnitude)
    requires Abs(p.x) <= b.x && Abs(p.y) <= b.y && Abs(p.z) <= b.z
    ensures var q := BoxExcess(p, b); SdBox(magnitude, p, b) == Max(q.x, Max(q.y, q.z))
    ensures SdBox(magnitude, p, b) <= 0.0
  {
    var q := BoxExcess(p, b);
    assert VMax(q, 0.0) == Zero;
  }

  /** Outside the box (some face pair exceeded) the field is never negative. */
  lemma BoxOutside(magnitude: Vec3 -> real, p: Vec3, b: Vec3)
    requires MagnitudeLaws(magnitude)
    requires Abs(p.x) > b.x || Abs(p.y) > b.y || Abs(p.z) > b.z
    ensures SdBox(magnitude, p, b) >= 0.0
  {
  }

  /** The centre of the unit box lies 1 inside every face. */
  lemma UnitBoxCentre(magnitude: Vec3 -> real)
    requires MagnitudeLaws(magnitude)
    ensures SdBox(magnitude, Zero, Vec3(1.0, 1.0, 1.0)) == -1.0
  {
    BoxInside(magnitude, Zero, Vec3(1.0, 1.0, 1.0));
  }
}
