# Ray-marching line-art generator, modelled in Dafny

This project models `art/raymarcher-NathanSmith/project.js`, a plotter sketch.
It sphere-traces a small scene and draws each pixel as a density of diagonal
line segments. Everything is over exact `real`s. One module per concern:

- `Scalars` (scalars.dfy): the sketch's own `min`, `max`, `abs`, and
  `clamp`; `Math.ceil` as `Ceil`; and `CountBelow`, the number of iterations
  of a `for (i = from; i < bound; i++)` loop whose bound is a real.
- `Vectors` (vectors.dfy): `vecAdd`/`vvecAdd` (`Add`), `scalar` (`Scale`),
  `vecSub` (`Sub`), `dot`, `vMax`, `vMin` and `vAbs` on a `Vec3` value.
  `At(eye, dir, t)` is the ray point `vecAdd(eye, scalar(dir, t))`.
- `Sdf` (sdf.dfy): `sdUnion`, `sdIntersect`, `sdSubtract`, `sdSphere` and
  `sdBox`. The last two take `magnitude` as a parameter.
- `Scene` (scene.dfy): `sceneSDF`, a union that starts from `MAX_DIST` (700)
  and adds a sphere and five boxes forming an open room.
- `Tracer` (tracer.dfy): `rayInfo`/`getRayInfo`.
  - `March`/`Trace` is a recursive reference definition of the march.
  - `GetRayInfo` is the source's loop, with its early returns, proved equal
    to `Trace`.
  - The scene is any function from points to distances.
- `Lighting` (lighting.dfy): `lightModifier` and `estimateLightModifier`.
- `Strokes` (strokes.dfy): `drawPixel`.
  - `finalLines` is the `seq` field of class `LineArt`.
  - `DrawPixel` runs the two loops, split into `PushFirstFamily` and
    `PushSecondFamily`, then the optional outline.
  - Each is proved to append exactly what the functions `FirstFamily`,
    `SecondFamily` and `PixelStrokes` describe.
- `Render` (render.dfy): the `h`/`w` driver.
  - `PixelThickness` is the per-pixel thickness rule.
  - `DrawCell` is the loop body, `DrawRow` the inner loop and `Render` the
    outer loop.
  - `RowStrokes`/`GridStrokes` state the raster order: rows from the top,
    cells from the left.
  - They are stated for any function `cell` that gives each cell's strokes
    (`DrawsCells`). `Cells` is the driver's own such function
    (`CellsDrawCells`).

Functions that only compute, such as `Add`, `Scale`, `Dot`, `SdBox`,
`SceneSdf`, `March`, `Trace`, `LightModifier`, `FirstStroke`, `PixelStrokes`,
`CellStrokes` and `GridStrokes`, have no row of their own. The lemmas and
methods listed below state what they mean.

## Model

| member | source | states |
|---|---|---|
| Scalars.Min | art/raymarcher-NathanSmith/project.js:40-43 | the result bounds both arguments from below and is one of them |
| Scalars.Max | art/raymarcher-NathanSmith/project.js:45-48 | the result bounds both arguments from above and is one of them |
| Scalars.Abs | art/raymarcher-NathanSmith/project.js:58-61 | the result is non-negative, at least `v` and `-v`, and is one of them |
| Scalars.Clamp | art/raymarcher-NathanSmith/project.js:234-236 | never above `hi`; at least `lo` when `lo <= hi`; the identity inside `[lo, hi]`; `lo` below and `hi` above |
| Scalars.Ceil | art/raymarcher-NathanSmith/project.js:275 | `Math.ceil`: the least integer not below `x` |
| Scalars.CountBelow | art/raymarcher-NathanSmith/project.js:276-282 | the counters `from .. from+n-1` pass a loop test `i < bound` and `from+n` fails it |
| Scalars.CountBelowInteger | art/raymarcher-NathanSmith/project.js:276 | against an integer bound `k` the loop from 1 runs `max(0, k-1)` times |
| Scalars.CountBelowCeil | art/raymarcher-NathanSmith/project.js:282 | against a real bound `t` the loop from 1 runs `max(0, ceil(t)-1)` times |
| Vectors.Sub | art/raymarcher-NathanSmith/project.js:169-171 | `vecAdd(v1, scalar(v2, -1))` is componentwise subtraction |
| Vectors.VMax | art/raymarcher-NathanSmith/project.js:54-56 | every component is at least `c` and at least the input's, and equals one of the two |
| Vectors.VMin | art/raymarcher-NathanSmith/project.js:50-52 | every component is at most `c` and at most the input's, and equals one of the two |
| Vectors.VAbs | art/raymarcher-NathanSmith/project.js:63-65 | every component is non-negative and is the input's or its negation |
| Vectors.SubAddRoundTrip | art/raymarcher-NathanSmith/project.js:165-171 | `vecSub` undoes `vecAdd` and `vecAdd` undoes `vecSub` |
| Vectors.DotSelfNonNegative | art/raymarcher-NathanSmith/project.js:238-240 | a vector's dot product with itself is never negative |
| Vectors.DotBilinear | art/raymarcher-NathanSmith/project.js:238-240 | `dot` is symmetric, and `scalar` in its first argument scales the result |
| Vectors.AtAdditive | art/raymarcher-NathanSmith/project.js:130 | the ray point at `t1 + t2` is reached by advancing `t2` from the point at `t1`; at 0 it is the eye |
| Sdf.SdUnion | art/raymarcher-NathanSmith/project.js:67-69 | the union is at most both distances and is one of them |
| Sdf.SdIntersect | art/raymarcher-NathanSmith/project.js:71-73 | the intersection is at least both distances and is one of them |
| Sdf.SdSubtract | art/raymarcher-NathanSmith/project.js:75-77 | the result is at least `d1` and `-d2` and is one of them |
| Sdf.BoxInterior | art/raymarcher-NathanSmith/project.js:85 | the interior term of `sdBox` is never positive and is at most some component of `q` |
| Sdf.UnionAlgebra | art/raymarcher-NathanSmith/project.js:67-69 | union is commutative, associative and idempotent |
| Sdf.IntersectSubtract | art/raymarcher-NathanSmith/project.js:71-77 | intersection is commutative and idempotent; subtraction is intersection with the negated second field |
| Sdf.InsideCombinations | art/raymarcher-NathanSmith/project.js:67-77 | inside a union iff inside either shape; inside an intersection iff inside both; inside a subtraction iff inside the first and outside the second |
| Sdf.SphereCentre | art/raymarcher-NathanSmith/project.js:79-81 | the sphere field is `-r` at the centre and never below `-r` |
| Sdf.BoxTerms | art/raymarcher-NathanSmith/project.js:83-86 | `vMax(q, 0)` has no negative component and the interior term is never positive |
| Sdf.BoxInside | art/raymarcher-NathanSmith/project.js:83-86 | inside the box the field is the largest face excess, never positive |
| Sdf.BoxOutside | art/raymarcher-NathanSmith/project.js:83-86 | outside the box the field is never negative |
| Sdf.UnitBoxCentre | art/raymarcher-NathanSmith/project.js:83-86 | `sdBox([0,0,0], [1,1,1]) == -1` |
| Scene.Primitives | art/raymarcher-NathanSmith/project.js:106-111 | the scene has exactly six primitive distances: the sphere and the five offset boxes |
| Scene.FoldUnion | art/raymarcher-NathanSmith/project.js:112-117 | a left fold of `sdUnion` is at most its start and every distance, and is one of them |
| Scene.SceneIsLeftFold | art/raymarcher-NathanSmith/project.js:104-119 | `sceneSDF` is the left fold of `sdUnion` from `MAX_DIST` over the six primitives, in source order |
| Scene.SceneBounds | art/raymarcher-NathanSmith/project.js:104-119 | `sceneSDF` is at most 700 and at most every primitive, and equals 700 or one of them |
| Scene.OriginInsideSphere | art/raymarcher-NathanSmith/project.js:104-112 | at the origin the scene is at most `-sphere_radius` |
| Tracer.MarchSteps | art/raymarcher-NathanSmith/project.js:129-142 | the step index lies between the current step and 255; 255 only on a miss; every miss reports `end` |
| Tracer.MarchRadii | art/raymarcher-NathanSmith/project.js:127-133 | the reported `minRadius` is at most the final `endRadius` and at most the minimum so far |
| Tracer.MarchHit | art/raymarcher-NathanSmith/project.js:134-139 | a hit is where the scene is below `EPSILON`, no nearer than the current depth, and before `end` |
| Tracer.MarchAdvances | art/raymarcher-NathanSmith/project.js:134-140 | each step that neither hits nor stops advances the depth by at least `EPSILON`, so a hit at step `n` lies at least `(n - i) * EPSILON` beyond step `i` |
| Tracer.TraceOutcome | art/raymarcher-NathanSmith/project.js:125-143 | `stepCount` lies in `[0, 255]` and is 255 only on the fall-through miss; a hit has `endRadius < EPSILON`; a miss has `distance == end`; `minRadius <= endRadius` and `minRadius <= 10000`; for `start < end` a hit lies in `[start, end)` |
| Tracer.MissAwayFromScene | art/raymarcher-NathanSmith/project.js:126-142 | a ray along which the scene never drops below `EPSILON` from `start` on misses and reports `end`; nothing behind `start` matters |
| Tracer.ImmediateHit | art/raymarcher-NathanSmith/project.js:126-135 | a ray starting within `EPSILON` of a surface hits at `start` on step 0 |
| Tracer.GetRayInfo | art/raymarcher-NathanSmith/project.js:125-143 | the loop with early returns computes exactly `Trace`; it evaluates the scene once per step taken, `stepCount + 1` times or 255 on a fall-through, never more than 255 |
| Lighting.Attenuation | art/raymarcher-NathanSmith/project.js:218-224 | non-zero only when the secondary trace stopped more than `EPSILON` short of `maxDist`; at most 1 for a non-negative trace distance; positive when it stopped short of both `maxDist` and the point |
| Lighting.EstimateLightModifier | art/raymarcher-NathanSmith/project.js:216-232 | the estimate is never below -1 (for any `magnitude` obeying `MagnitudeLaws`), and it is non-zero only when the trace from the light stopped more than `EPSILON` short of `sqrt(lightDist^2 + radius^2)` |
| Lighting.LightModifierAtMostOne | art/raymarcher-NathanSmith/project.js:216-225 | `lightModifier` is at most 1, because the trace from `MIN_DIST` never reports a negative distance |
| Strokes.StrokeCounts | art/raymarcher-NathanSmith/project.js:274-296 | `max(0, half-1)` first-family segments, `max(0, ceil(thickness-half)-1)` second-family segments, each of two points; then exactly one open four-point outline iff `outline` |
| Strokes.ThicknessEight | art/raymarcher-NathanSmith/project.js:274-287 | thickness 8 gives 3 + 3 segments, six polylines in all |
| Strokes.IncreaseBounds | art/raymarcher-NathanSmith/project.js:277 | for `0 < i < n` and a positive scale, `increase` lies strictly between 0 and `2 * scale` |
| Strokes.IncreaseAscending | art/raymarcher-NathanSmith/project.js:277-283 | `increase` grows strictly with the loop counter |
| Strokes.SplitIncrease | art/raymarcher-NathanSmith/project.js:277-279 | `mIncrease + adjust == increase`, `0 < mIncrease <= scale` and `0 <= adjust < scale` |
| Strokes.FirstStrokeGeometry | art/raymarcher-NathanSmith/project.js:277-280 | a first-family segment has both ends in the cell, on the anti-diagonal at offset `increase` |
| Strokes.SecondStrokeGeometry | art/raymarcher-NathanSmith/project.js:283-286 | a second-family segment has both ends in the cell, on the diagonal at offset `increase` |
| Strokes.FirstFamilyInCell | art/raymarcher-NathanSmith/project.js:276-281 | every point of the first family lies in the cell |
| Strokes.SecondFamilyInCell | art/raymarcher-NathanSmith/project.js:282-287 | every point of the second family lies in the cell |
| Strokes.PixelStrokesInCell | art/raymarcher-NathanSmith/project.js:274-296 | for a positive scale, every point `drawPixel` emits lies in `[scale*x, scale*x+scale] x [scale*y, scale*y+scale]` |
| Strokes.FirstFamilyNested | art/raymarcher-NathanSmith/project.js:276-281 | each first-family segment lies on one anti-diagonal, and later segments lie strictly further from the top-left corner |
| Strokes.SecondFamilyNested | art/raymarcher-NathanSmith/project.js:282-287 | each second-family segment lies on one diagonal, and later segments lie strictly further from the bottom-left corner |
| Strokes.LineArt.constructor | art/raymarcher-NathanSmith/project.js:148 | `finalLines` starts empty |
| Strokes.LineArt.PushFirstFamily | art/raymarcher-NathanSmith/project.js:276-281 | the first loop appends exactly the first family, in ascending `i`, after what was there |
| Strokes.LineArt.PushSecondFamily | art/raymarcher-NathanSmith/project.js:282-287 | the second loop appends exactly the second family, in ascending `i`, after what was there |
| Strokes.LineArt.DrawPixel | art/raymarcher-NathanSmith/project.js:274-296 | `drawPixel` only appends: the new `finalLines` is the old one followed by the first family, the second family, then the outline iff `outline` |
| Render.Ambient | art/raymarcher-NathanSmith/project.js:314 | the ambient term lies in `[0, 8]`, is at most `stepCount^2 / 100`, and is one of the two |
| Render.AmbientSaturates | art/raymarcher-NathanSmith/project.js:314 | the cap of 8 is reached from 29 steps on and not before |
| Render.PixelThickness | art/raymarcher-NathanSmith/project.js:306-317 | a miss gives exactly 8; a hit gives `lightReceived * 10` plus a term between 0 and 8 |
| Render.GridSide | art/raymarcher-NathanSmith/project.js:297-299 | the loops `h < height/pscale` and `w < width/pscale` each run 42 times |
| Render.DriverGuard | art/raymarcher-NathanSmith/project.js:298-299 | for integer counters the real loop guards are the tests `h < 42` and `w < 42` |
| Render.RowCount | art/raymarcher-NathanSmith/project.js:299-319 | when every cell gets `k` strokes, a row of `cols` cells gets `k * cols` |
| Render.GridCount | art/raymarcher-NathanSmith/project.js:298-320 | when every cell gets `k` strokes, a grid gets `rows * (k * cols)` |
| Render.MissCellCount | art/raymarcher-NathanSmith/project.js:306-318 | a cell whose camera ray misses gets six strokes |
| Render.AllMissStrokeCount | art/raymarcher-NathanSmith/project.js:298-320 | when no camera ray hits, the driver draws `rows * (6 * cols)` strokes |
| Render.DrawCell | art/raymarcher-NathanSmith/project.js:301-318 | one pass of the loop body appends exactly that cell's strokes |
| Render.DrawRow | art/raymarcher-NathanSmith/project.js:299-319 | the inner loop appends the row's 42 cells, left to right |
| Render.Render | art/raymarcher-NathanSmith/project.js:297-320 | the driver appends the strokes of all 42 x 42 cells in raster order: `h` outer, `w` inner |

## Left out

- `magnitude`, `normalize`/`setMag` and `Math.sqrt` are function parameters.
  - They depend on square roots and IEEE rounding.
  - `magnitude` is assumed only to be 0 at the zero vector and never negative (`MagnitudeLaws`).
  - Nothing is assumed about `normalize` or `sqrt`.
- `rayDirection`, `rotate`, `radians`, `sin` and `cos` are not modelled: they rest on `Math.tan`, `Math.sin` and `Math.cos`. The driver takes the rotated camera ray of each cell as a parameter `cameraRay`.
- `estimateNormal` and `diffuseLight` are not modelled. The driver takes the diffuse light received at a point as a parameter `diffuse`.
- `sdRoundBox` is not modelled. It subtracts arrays with JavaScript's `-`, which yields `NaN`, and nothing calls it.
- `bt.randInRange` draws the camera position, angles, light position and sphere radius. These become inputs: `eye`, `cameraRay`, `diffuse` and `sphereRadius`.
- `setDocDimensions`, `drawLines` and the unused `polyline` constant are toolkit I/O and are left out. `LineArt.finalLines` is the list that would be drawn.
- interface/view.js is not part of this model.
- Lighting.EstimateLightModifier: the source traces a ray and computes `lightDist` and then discards both. The model omits these unused values, which do not affect the result.
- Lighting.LightModifier requires the point to differ from the light (a non-zero `magnitude(p - lightPos)`). The model does not interpret `normalize` of the zero vector or the `NaN` values that follow from it. In the source, that `NaN` direction makes `sceneSDF` return 700, because the sketch's `min(700, NaN)` returns 700. The trace then stops at step 0 with distance 700, and for the radius 0.1 the sketch uses, `lightModifier` returns 0 there.
- `clamp` and the segment arithmetic of `drawPixel` call `Math.min`/`Math.max`. They are modelled by `Min`/`Max`, which agree with them on every real.
- Floating-point rounding, `NaN`, infinities and signed zero are not modelled; all arithmetic is exact.
- Tracer.GetRayInfo states its outcome as `info == Trace(...)`. The facts about the outcome are stated once, about `Trace`, in `TraceOutcome`, `MarchAdvances` and the lemmas beside them.
