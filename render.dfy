/** The driver: for every cell of the grid, in rows from the top and cells from
    the left, trace the camera ray, turn the result into an ink thickness and
    draw the pixel. The camera ray of a cell (`rayDirection` turned by
    `rotate`) and the diffuse light received at a point (`diffuseLight`) are
    parameters: both rest on uninterpreted trigonometry and square roots. */
module Render {
  import opened Scalars
  import opened Vectors
  import opened Scene
  import opened Tracer
  import opened Strokes

  const WIDTH: real := 125.0
  const HEIGHT: real := 125.0
  /** `pscale`: the side of a cell in output units. */
  const PSCALE: real := 3.0
  /** The number of rows, and of columns, the driver loops visit. */
  const GRID_SIDE: nat := 42
  /** The thickness of a pixel whose ray misses. */
  const MISS_THICKNESS: real := 8.0
  /** The cap on the step-count term. */
  const AMBIENT_CAP: real := 8.0

  /** `min(stepCount * stepCount / 100, 8)`: rays that needed many steps get
      more ink, up to the cap. */
  function Ambient(stepCount: nat): (a: real)
    ensures 0.0 <= a <= AMBIENT_CAP
    ensures a <= (stepCount * stepCount) as real / 100.0
    ensures a == AMBIENT_CAP || a == (stepCount * stepCount) as real / 100.0
  {
    Min((stepCount * stepCount) as real / 100.0, AMBIENT_CAP)
  }

  /** The cap is reached from 29 steps on (29 * 29 / 100 > 8 >= 28 * 28 / 100). */
  lemma AmbientSaturates(stepCount: nat)
    ensures stepCount >= 29 ==> Ambient(stepCount) == AMBIENT_CAP
    ensures stepCount <= 28 ==> Ambient(stepCount) < AMBIENT_CAP
  {
    if stepCount >= 29 {
      assert stepCount * stepCount >= 29 * stepCount >= 29 * 29;
    } else {
      assert stepCount * stepCount <= 28 * stepCount <= 28 * 28;
    }
  }

  /** The ink thickness of a pixel whose camera ray is `dir` and whose trace
      gave `ray`: the miss thickness on a miss; on a hit, ten times the light
      received at the point just before the hit, plus the step-count term. */
  function PixelThickness(diffuse: Vec3 -> real, eye: Vec3, dir: Vec3, ray: RayInfo): (t: real)
    ensures !ray.didHit ==> t == MISS_THICKNESS
    ensures ray.didHit ==>
              var lightReceived := diffuse(At(eye, dir, ray.distance - EPSILON)) + 0.1;
              lightReceived * 10.0 <= t <= lightReceived * 10.0 + AMBIENT_CAP
  {
    if !ray.didHit then MISS_THICKNESS
    else
      var collisionPoint := At(eye, dir, ray.distance - EPSILON);
      var lightReceived := diffuse(collisionPoint) + 0.1;
      lightReceived * 10.0 + Ambient(ray.stepCount)
  }

  /** What the driver draws for the cell in column `w` of row `h`. */
  function CellStrokes(scene: Vec3 -> real, eye: Vec3, cameraRay: (int, int) -> Vec3,
                       diffuse: Vec3 -> real, w: int, h: int): seq<Polyline>
  {
    var dir := cameraRay(w, h);
    var ray := Trace(scene, eye, dir, MIN_DIST, MAX_DIST);
    PixelStrokes(w as real, h as real, PixelThickness(diffuse, eye, dir, ray), false, PSCALE)
  }

  /** The driver's drawing as a function of the cell (column first). */
  function Cells(scene: Vec3 -> real, eye: Vec3, cameraRay: (int, int) -> Vec3,
                 diffuse: Vec3 -> real): (int, int) -> seq<Polyline>
  {
    (w, h) => CellStrokes(scene, eye, cameraRay, diffuse, w, h)
  }

  /** `cell` gives, for every cell, what the driver draws there. */
  ghost predicate DrawsCells(cell: (int, int) -> seq<Polyline>, scene: Vec3 -> real, eye: Vec3,
                             cameraRay: (int, int) -> Vec3, diffuse: Vec3 -> real)
  {
    forall w, h {:trigger CellStrokes(scene, eye, cameraRay, diffuse, w, h)} ::
      cell(w, h) == CellStrokes(scene, eye, cameraRay, diffuse, w, h)
  }

  lemma CellsDrawCells(scene: Vec3 -> real, eye: Vec3, cameraRay: (int, int) -> Vec3, diffuse: Vec3 -> real)
    ensures DrawsCells(Cells(scene, eye, cameraRay, diffuse), scene, eye, cameraRay, diffuse)
  {
  }

  /** The strokes of the first `cols` cells of row `h`, left to right. */
  function RowStrokes(cell: (int, int) -> seq<Polyline>, h: int, cols: nat): seq<Polyline>
  {
    if cols == 0 then []
    else RowStrokes(cell, h, cols - 1) + cell(cols - 1, h)
  }

  /** The strokes of the first `rows` rows, top to bottom. */
  function GridStrokes(cell: (int, int) -> seq<Polyline>, rows: nat, cols: nat): seq<Polyline>
  {
    if rows == 0 then []
    else GridStrokes(cell, rows - 1, cols) + RowStrokes(cell, rows - 1, cols)
  }

  /** The loops `h < height / pscale` and `w < width / pscale` visit 42 values each. */
  lemma GridSide()
    ensures CountBelow(0, HEIGHT / PSCALE) == GRID_SIDE
    ensures CountBelow(0, WIDTH / PSCALE) == GRID_SIDE
  {
    assert 41.0 < HEIGHT / PSCALE <= 42.0;
  }

  /** When every cell gets `k` strokes, a row of `cols` cells gets `k * cols`. */
  lemma {:induction false} RowCount(cell: (int, int) -> seq<Polyline>, k: nat, h: int, cols: nat)
    requires forall w, h :: |cell(w, h)| == k
    ensures |RowStrokes(cell, h, cols)| == k * cols
  {
    if cols > 0 {
      RowCount(cell, k, h, cols - 1);
    }
  }

  /** When every cell gets `k` strokes, a grid of `rows` by `cols` cells gets
      `rows * (k * cols)`. */
  lemma {:induction false} GridCount(cell: (int, int) -> seq<Polyline>, k: nat, rows: nat, cols: nat)
    requires forall w, h :: |cell(w, h)| == k
    ensures |GridStrokes(cell, rows, cols)| == rows * (k * cols)
  {
    if rows > 0 {
      GridCount(cell, k, rows - 1, cols);
      RowCount(cell, k, rows - 1, cols);
      MulSucc(rows - 1, k * cols);
    }
  }

  lemma MulSucc(n: nat, m: nat)
    ensures (n + 1) * m == n * m + m
  {
  }

  /** A cell whose camera ray misses gets thickness 8 and so six strokes. */
  lemma MissCellCount(scene: Vec3 -> real, eye: Vec3, cameraRay: (int, int) -> Vec3,
                      diffuse: Vec3 -> real, w: int, h: int)
    requires !Trace(scene, eye, cameraRay(w, h), MIN_DIST, MAX_DIST).didHit
    ensures |CellStrokes(scene, eye, cameraRay, diffuse, w, h)| == 6
  {
    ThicknessEight(w as real, h as real, PSCALE);
  }

  /** When no camera ray hits the scene, the grid of `rows` by `cols` cells
      gets `rows * (6 * cols)` strokes. */
  lemma AllMissStrokeCount(scene: Vec3 -> real, eye: Vec3, cameraRay: (int, int) -> Vec3,
                           diffuse: Vec3 -> real, rows: nat, cols: nat)
    requires forall w, h :: !Trace(scene, eye, cameraRay(w, h), MIN_DIST, MAX_DIST).didHit
    ensures |GridStrokes(Cells(scene, eye, cameraRay, diffuse), rows, cols)| == rows * (6 * cols)
  {
    var cell := Cells(scene, eye, cameraRay, diffuse);
    forall w, h
      ensures |cell(w, h)| == 6
    {
      MissCellCount(scene, eye, cameraRay, diffuse, w, h);
    }
    GridCount(cell, 6, rows, cols);
  }

  /** For an integer counter the real guards of the driver loops are the
      integer tests `k < 42`. */
  lemma DriverGuard(k: int)
    ensures (k as real) < WIDTH / PSCALE <==> k < GRID_SIDE
    ensures (k as real) < HEIGHT / PSCALE <==> k < GRID_SIDE
  {
  }

  /** The body of the driver loop for the cell in column `w` of row `h`:
      trace the camera ray, work out the thickness and draw the pixel. */
  method DrawCell(art: LineArt, scene: Vec3 -> real, eye: Vec3, cameraRay: (int, int) -> Vec3,
                  diffuse: Vec3 -> real, w: int, h: int)
    modifies art
    ensures art.finalLines == old(art.finalLines) + CellStrokes(scene, eye, cameraRay, diffuse, w, h)
  {
    var dir := cameraRay(w, h);
    var ray;
    ghost var evaluations;
    ray, evaluations := GetRayInfo(scene, eye, dir, MIN_DIST, MAX_DIST);
    var thickness := PixelThickness(diffuse, eye, dir, ray);
    assert CellStrokes(scene, eye, cameraRay, diffuse, w, h)
        == PixelStrokes(w as real, h as real, thickness, false, PSCALE);
    art.DrawPixel(w as real, h as real, thickness, false, PSCALE);
  }

  /** The inner driver loop: the cells of row `h`, left to right. The
      drawing of each cell is `cell`, which stands for `CellStrokes`. */
  method DrawRow(art: LineArt, scene: Vec3 -> real, eye: Vec3, cameraRay: (int, int) -> Vec3,
                 diffuse: Vec3 -> real, ghost cell: (int, int) -> seq<Polyline>, h: int)
    requires DrawsCells(cell, scene, eye, cameraRay, diffuse)
    modifies art
    ensures art.finalLines == old(art.finalLines) + RowStrokes(cell, h, GRID_SIDE)
  {
    ghost var before := art.finalLines;
    var w := 0;
    while (w as real) < WIDTH / PSCALE
      invariant 0 <= w <= GRID_SIDE
      invariant art.finalLines == before + RowStrokes(cell, h, w)
    {
      DriverGuard(w);
      AppendAssoc(before, RowStrokes(cell, h, w), cell(w, h));
      DrawCell(art, scene, eye, cameraRay, diffuse, w, h);
      w := w + 1;
    }
    DriverGuard(w);
  }

  /** The driver loop: appends the strokes of all 42 x 42 cells in raster order
      (row by row from the top, each row from the left) after whatever was
      already drawn; `cell` gives each cell's strokes (`Cells` is one such
      function, by `CellsDrawCells`). */
  method Render(art: LineArt, scene: Vec3 -> real, eye: Vec3, cameraRay: (int, int) -> Vec3,
                diffuse: Vec3 -> real, ghost cell: (int, int) -> seq<Polyline>)
    requires DrawsCells(cell, scene, eye, cameraRay, diffuse)
    modifies art
    ensures art.finalLines == old(art.finalLines) + GridStrokes(cell, GRID_SIDE, GRID_SIDE)
  {
    ghost var before := art.finalLines;
    var h := 0;
    while (h as real) < HEIGHT / PSCALE
      invariant 0 <= h <= GRID_SIDE
      invariant art.finalLines == before + GridStrokes(cell, h, GRID_SIDE)
    {
      DriverGuard(h);
      AppendAssoc(before, GridStrokes(cell, h, GRID_SIDE), RowStrokes(cell, h, GRID_SIDE));
      DrawRow(art, scene, eye, cameraRay, diffuse, cell, h);
      h := h + 1;
    }
    DriverGuard(h);
  }
}
