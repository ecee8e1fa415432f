/** The scene of the ray marcher: a sphere about the origin and five boxes
    forming an open room, unioned into one distance field. */
module Scene {
  import opened Scalars
  import opened Vectors
  import opened Sdf

  /** Nearest and farthest distances a ray is traced over; `MAX_DIST` is also
      the starting value of the scene's union. */
  const MIN_DIST: real := 0.0
  const MAX_DIST: real := 700.0

  /** Half-extents of the floor/ceiling slabs, the back wall and the side walls. */
  const SLAB: Vec3 := Vec3(2.0, 0.5, 2.0)
  const BACK_WALL: Vec3 := Vec3(2.0, 2.0, 0.5)
  const SIDE_WALL: Vec3 := Vec3(0.5, 2.0, 2.0)

  /** `sceneSDF(position)`: starting from `MAX_DIST`, union in the sphere and
      then the five boxes, each evaluated at the position shifted by its offset. */
  function SceneSdf(magnitude: Vec3 -> real, sphereRadius: real, position: Vec3): real {
    var start := MAX_DIST;
    var sphere := SdSphere(magnitude, position, sphereRadius);
    var box1 := SdBox(magnitude, Add(position, Vec3(0.0, -2.0, 0.0)), SLAB);
    var box2 := SdBox(magnitude, Add(position, Vec3(0.0, 2.0, 0.0)), SLAB);
    var box3 := SdBox(magnitude, Add(position, Vec3(0.0, 0.0, 2.0)), BACK_WALL);
    var box4 := SdBox(magnitude, Add(position, Vec3(-2.0, 0.0, 0.0)), SIDE_WALL);
    var box5 := SdBox(magnitude, Add(position, Vec3(2.0, 0.0, 0.0)), SIDE_WALL);
    SdUnion(SdUnion(SdUnion(SdUnion(SdUnion(SdUnion(start, sphere), box1), box2), box3), box4), box5)
  }

  /** The six primitive distances in the order the scene unions them. */
  function Primitives(magnitude: Vec3 -> real, sphereRadius: real, position: Vec3): (ds: seq<real>)
    ensures |ds| == 6
  {
    [ SdSphere(magnitude, position, sphereRadius),
      SdBox(magnitude, Add(position, Vec3(0.0, -2.0, 0.0)), SLAB),
      SdBox(magnitude, Add(position, Vec3(0.0, 2.0, 0.0)), SLAB),
      SdBox(magnitude, Add(position, Vec3(0.0, 0.0, 2.0)), BACK_WALL),
      SdBox(magnitude, Add(position, Vec3(-2.0, 0.0, 0.0)), SIDE_WALL),
      SdBox(magnitude, Add(position, Vec3(2.0, 0.0, 0.0)), SIDE_WALL) ]
  }

  /** Left fold of `sdUnion` over `ds` from `acc`: the smallest of `acc` and the
      distances, which is always one of them. */
  function FoldUnion(acc: real, ds: seq<real>): (r: real)
    ensures r <= acc
    ensures forall k :: 0 <= k < |ds| ==> r <= ds[k]
    ensures r == acc || r in ds
    decreases |ds|
  {
    if ds == [] then acc else FoldUnion(SdUnion(acc, ds[0]), ds[1..])
  }

  /** The scene function is the left fold of `sdUnion` from `MAX_DIST` over its
      six primitives. */
  lemma SceneIsLeftFold(magnitude: Vec3 -> real, sphereRadius: real, position: Vec3)
    ensures SceneSdf(magnitude, sphereRadius, position)
         == FoldUnion(MAX_DIST, Primitives(magnitude, sphereRadius, position))
  {
    var ds := Primitives(magnitude, sphereRadius, position);
    var acc := MAX_DIST;
    assert FoldUnion(acc, ds) == FoldUnion(SdUnion(acc, ds[0]), ds[1..]);
    acc := SdUnion(acc, ds[0]);
    assert FoldUnion(acc, ds[1..]) == FoldUnion(SdUnion(acc, ds[1]), ds[2..]);
    acc := SdUnion(acc, ds[1]);
    assert FoldUnion(acc, ds[2..]) == FoldUnion(SdUnion(acc, ds[2]), ds[3..]);
    acc := SdUnion(acc, ds[2]);
    assert FoldUnion(acc, ds[3..]) == FoldUnion(SdUnion(acc, ds[3]), ds[4..]);
    acc := SdUnion(acc, ds[3]);
    assert FoldUnion(acc, ds[4..]) == FoldUnion(SdUnion(acc, ds[4]), ds[5..]);
    acc := SdUnion(acc, ds[4]);
    assert FoldUnion(acc, ds[5..]) == FoldUnion(SdUnion(acc, ds[5]), ds[6..]);
    assert ds[6..] == [];
  }

  /** The scene never reports more than `MAX_DIST`, never more than any of its
      primitives, and always reports one of those seven values. */
  lemma SceneBounds(magnitude: Vec3 -> real, sphereRadius: real, position: Vec3)
    ensures var d := SceneSdf(magnitude, sphereRadius, position);
            var ds := Primitives(magnitude, sphereRadius, position);
            d <= MAX_DIST && (forall k :: 0 <= k < 6 ==> d <= ds[k]) && (d == MAX_DIST || d in ds)
  {
    SceneIsLeftFold(magnitude, sphereRadius, position);
  }

  /** At the centre of the sphere the scene is at most `-sphereRadius`: the
      origin is inside every scene whose sphere has a positive radius. */
  lemma OriginInsideSphere(magnitude: Vec3 -> real, sphereRadius: real)
    requires MagnitudeLaws(magnitude)
    ensures SceneSdf(magnitude, sphereRadius, Zero) <= -sphereRadius
  {
    SphereCentre(magnitude, Zero, sphereRadius);
    SceneBounds(magnitude, sphereRadius, Zero);
  }
}
