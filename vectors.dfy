/** The vector helpers of the ray marcher. The source represents a vector as a
    three-element array; here it is a value of `Vec3`. `Math.sqrt` is not
    interpreted: every member that needs a magnitude takes it as a parameter
    `magnitude`, about which only `MagnitudeLaws` is ever assumed. */
module Vectors {
  import opened Scalars

  datatype Vec3 = Vec3(x: real, y: real, z: real)

  const Zero: Vec3 := Vec3(0.0, 0.0, 0.0)

  /** `vecAdd` (and its duplicate `vvecAdd`): componentwise sum. */
  function Add(v1: Vec3, v2: Vec3): Vec3 {
    Vec3(v1.x + v2.x, v1.y + v2.y, v1.z + v2.z)
  }

  /** `scalar(vector, scale)`: every component times `s`. */
  function Scale(v: Vec3, s: real): Vec3 {
    Vec3(v.x * s, v.y * s, v.z * s)
  }

  /** `vecSub(v1, v2)` is written as `vecAdd(v1, scalar(v2, -1))`. */
  function Sub(v1: Vec3, v2: Vec3): (r: Vec3)
    ensures r.x == v1.x - v2.x && r.y == v1.y - v2.y && r.z == v1.z - v2.z
  {
    Add(v1, Scale(v2, -1.0))
  }

  function Dot(v1: Vec3, v2: Vec3): real {
    v1.x * v2.x + v1.y * v2.y + v1.z * v2.z
  }

  /** `vMax(vec, v)`: each component raised to at least `c`. */
  function VMax(v: Vec3, c: real): (r: Vec3)
    ensures r.x >= c && r.y >= c && r.z >= c
    ensures r.x >= v.x && r.y >= v.y && r.z >= v.z
    ensures (r.x == v.x || r.x == c) && (r.y == v.y || r.y == c) && (r.z == v.z || r.z == c)
  {
    Vec3(Max(v.x, c), Max(v.y, c), Max(v.z, c))
  }

  /** `vMin(vec, v)`: each component lowered to at most `c`. */
  function VMin(v: Vec3, c: real): (r: Vec3)
    ensures r.x <= c && r.y <= c && r.z <= c
    ensures r.x <= v.x && r.y <= v.y && r.z <= v.z
    ensures (r.x == v.x || r.x == c) && (r.y == v.y || r.y == c) && (r.z == v.z || r.z == c)
  {
    Vec3(Min(v.x, c), Min(v.y, c), Min(v.z, c))
  }

  /** `vAbs(vec)`: componentwise absolute value. */
  function VAbs(v: Vec3): (r: Vec3)
    ensures r.x >= 0.0 && r.y >= 0.0 && r.z >= 0.0
    ensures (r.x == v.x || r.x == -v.x) && (r.y == v.y || r.y == -v.y) && (r.z == v.z || r.z == -v.z)
  {
    Vec3(Abs(v.x), Abs(v.y), Abs(v.z))
  }

  /** What the model assumes of `magnitude` (the square root of a vector's dot
      product with itself, left uninterpreted): it is never negative and it is 0
      for the zero vector. */
  ghost predicate MagnitudeLaws(magnitude: Vec3 -> real) {
    magnitude(Zero) == 0.0 && forall v :: 0.0 <= magnitude(v)
  }

  /** The point reached after travelling `t` along `dir` from `eye`
      (`vecAdd(eye, scalar(dir, t))`). */
  function At(eye: Vec3, dir: Vec3, t: real): Vec3 {
    Add(eye, Scale(dir, t))
  }

  /** Subtraction undoes addition. */
  lemma SubAddRoundTrip(v1: Vec3, v2: Vec3)
    ensures Sub(Add(v1, v2), v2) == v1 && Add(Sub(v1, v2), v2) == v1
  {
  }

  /** A vector's dot product with itself is a sum of squares, so never negative. */
  lemma DotSelfNonNegative(v: Vec3)
    ensures Dot(v, v) >= 0.0
  {
    SquarePositive(v.x);
    SquarePositive(v.y);
    SquarePositive(v.z);
  }

  lemma SquarePositive(a: real)
    ensures a * a >= 0.0
  {
    if a < 0.0 {
      var b := -a;
      assert b * b > 0.0;
      assert a * a == b * b;
    }
  }

  /** The dot product is symmetric and scales linearly in its first argument. */
  lemma DotBilinear(v1: Vec3, v2: Vec3, s: real)
    ensures Dot(v1, v2) == Dot(v2, v1)
    ensures Dot(Scale(v1, s), v2) == s * Dot(v1, v2)
  {
  }

  /** Walking along a ray: travelling `t1` and then `t2` further from the new
      point reaches the same point as travelling `t1 + t2`. */
  lemma AtAdditive(eye: Vec3, dir: Vec3, t1: real, t2: real)
    ensures At(At(eye, dir, t1), dir, t2) == At(eye, dir, t1 + t2)
    ensures At(eye, dir, 0.0) == eye
  {
  }
}
