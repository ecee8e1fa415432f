/** The stroke generator `drawPixel`: a pixel of ink thickness `thickness` at
    cell `(x, y)` becomes two families of diagonal two-point strokes inside the
    cell (one growing from the cell's top-left corner, one from its bottom-left
    corner), and optionally the cell's open outline. */
module Strokes {
  import opened Scalars

  datatype Point = Point(x: real, y: real)

  /** A polyline: open unless its last point repeats its first. */
  type Polyline = seq<Point>

  /** `half = Math.ceil(thickness / 2)`. */
  function Half(thickness: real): int {
    Ceil(thickness / 2.0)
  }

  /** The loop bound of the second family, `thickness - half`. */
  function Rest(thickness: real): real {
    thickness - Half(thickness) as real
  }

  /** `increase` at loop counter `i` for loop bound `n`: `scale * i / n * 2`. */
  function Increase(scale: real, i: int, n: real): real
    requires n != 0.0
  {
    scale * (i as real) / n * 2.0
  }

  /** The stroke of the first family at counter `i`: from
      `(adjust, mIncrease)` to `(mIncrease, adjust)` relative to the cell. */
  function FirstStroke(x: real, y: real, scale: real, i: int, n: real): Polyline
    requires n != 0.0
  {
    var increase := Increase(scale, i, n);
    var mIncrease := Min(increase, scale);
    var adjust := Max(increase - scale, 0.0);
    [Point(scale * x + adjust, scale * y + mIncrease), Point(scale * x + mIncrease, scale * y + adjust)]
  }

  /** The stroke of the second family at counter `i`: the first family's
      stroke mirrored top to bottom within the cell. */
  function SecondStroke(x: real, y: real, scale: real, i: int, n: real): Polyline
    requires n != 0.0
  {
    var increase := Increase(scale, i, n);
    var mIncrease := Min(increase, scale);
    var adjust := Max(increase - scale, 0.0);
    [Point(scale * x + adjust, scale * y + scale - mIncrease), Point(scale * x + mIncrease, scale * y + scale - adjust)]
  }

  /** The strokes of the loop `for (i = 1; i < half; i++)`, in order of `i`. */
  function FirstFamily(x: real, y: real, thickness: real, scale: real): seq<Polyline> {
    var half := Half(thickness);
    var n := CountBelow(1, half as real);
    if n == 0 then [] else seq(n, k requires 0 <= k < n => FirstStroke(x, y, scale, k + 1, half as real))
  }

  /** The strokes of the loop `for (i = 1; i < thickness - half; i++)`, in order of `i`. */
  function SecondFamily(x: real, y: real, thickness: real, scale: real): seq<Polyline> {
    var rest := Rest(thickness);
    var n := CountBelow(1, rest);
    if n == 0 then [] else seq(n, k requires 0 <= k < n => SecondStroke(x, y, scale, k + 1, rest))
  }

  /** The cell's outline: four corners, not closed. */
  function Outline(x: real, y: real, scale: real): Polyline {
    [ Point(x * scale, y * scale),
      Point(x * scale + scale, y * scale),
      Point(x * scale + scale, y * scale + scale),
      Point(x * scale, y * scale + scale) ]
  }

  /** Everything one call of `drawPixel` appends, in the order it appends it. */
  function PixelStrokes(x: real, y: real, thickness: real, outline: bool, scale: real): seq<Polyline> {
    FirstFamily(x, y, thickness, scale) + SecondFamily(x, y, thickness, scale)
      + (if outline then [Outline(x, y, scale)] else [])
  }

  /** A point lies in the closed cell `(x, y)` of side `scale`. */
  predicate InCell(p: Point, x: real, y: real, scale: real) {
    scale * x <= p.x <= scale * x + scale && scale * y <= p.y <= scale * y + scale
  }

  /** How many strokes a pixel gets: `max(0, half - 1)` in the first family,
      `max(0, ceil(thickness - half) - 1)` in the second, each a two-point
      segment, followed by the four-point open outline exactly when asked for. */
  lemma StrokeCounts(x: real, y: real, thickness: real, outline: bool, scale: real)
    ensures var half := Half(thickness);
            |FirstFamily(x, y, thickness, scale)| == if half <= 1 then 0 else half - 1
    ensures var c := Ceil(Rest(thickness));
            |SecondFamily(x, y, thickness, scale)| == if c <= 1 then 0 else c - 1
    ensures var first := FirstFamily(x, y, thickness, scale);
            forall k :: 0 <= k < |first| ==> |first[k]| == 2
    ensures var second := SecondFamily(x, y, thickness, scale);
            forall k :: 0 <= k < |second| ==> |second[k]| == 2
    ensures var all := PixelStrokes(x, y, thickness, outline, scale);
            |all| == |FirstFamily(x, y, thickness, scale)| + |SecondFamily(x, y, thickness, scale)|
                     + (if outline then 1 else 0)
            && (outline ==> all[|all| - 1] == Outline(x, y, scale))
    ensures scale != 0.0 ==> |Outline(x, y, scale)| == 4 && Outline(x, y, scale)[0] != Outline(x, y, scale)[3]
  {
    CountBelowInteger(Half(thickness));
    CountBelowCeil(Rest(thickness));
  }

  /** A miss pixel (thickness 8) gets three strokes in each family. */
  lemma ThicknessEight(x: real, y: real, scale: real)
    ensures |FirstFamily(x, y, 8.0, scale)| == 3
    ensures |SecondFamily(x, y, 8.0, scale)| == 3
    ensures |PixelStrokes(x, y, 8.0, false, scale)| == 6
  {
    assert Half(8.0) == 4;
    assert Rest(8.0) == 4.0;
    StrokeCounts(x, y, 8.0, false, scale);
  }

  /** For `0 < i < n` and a positive scale, `increase` lies strictly between 0
      and twice the scale, and grows with `i`. */
  lemma IncreaseBounds(scale: real, i: int, n: real)
    requires 0.0 < scale && 1 <= i && (i as real) < n
    ensures 0.0 < Increase(scale, i, n) < 2.0 * scale
  {
    var q := scale * (i as real) / n;
    assert q * n == scale * (i as real);
    assert scale * (i as real) < scale * n;
    assert 0.0 < scale * (i as real);
  }

  lemma IncreaseAscending(scale: real, i: int, j: int, n: real)
    requires 0.0 < scale && 0.0 < n && i < j
    ensures Increase(scale, i, n) < Increase(scale, j, n)
  {
    var qi := scale * (i as real) / n;
    var qj := scale * (j as real) / n;
    assert qi * n == scale * (i as real);
    assert qj * n == scale * (j as real);
    assert scale * (i as real) < scale * (j as real);
  }

  /** `mIncrease = min(increase, scale)` and `adjust = max(increase - scale, 0)`
      add up to `increase`, and for `0 < increase < 2 * scale` both lie in the
      cell's side: `0 < mIncrease <= scale` and `0 <= adjust < scale`. */
  lemma SplitIncrease(scale: real, increase: real)
    requires 0.0 < increase < 2.0 * scale
    ensures Min(increase, scale) + Max(increase - scale, 0.0) == increase
    ensures 0.0 < Min(increase, scale) <= scale
    ensures 0.0 <= Max(increase - scale, 0.0) < scale
  {
  }

  /** A first-family stroke lies in the cell, on the anti-diagonal
      `px + py == scale * x + scale * y + increase`. */
  lemma FirstStrokeGeometry(x: real, y: real, scale: real, i: int, n: real)
    requires 0.0 < scale && 1 <= i && (i as real) < n
    ensures var s := FirstStroke(x, y, scale, i, n);
            && |s| == 2 && InCell(s[0], x, y, scale) && InCell(s[1], x, y, scale)
            && s[0].x + s[0].y == scale * x + scale * y + Increase(scale, i, n)
            && s[1].x + s[1].y == scale * x + scale * y + Increase(scale, i, n)
  {
    IncreaseBounds(scale, i, n);
    SplitIncrease(scale, Increase(scale, i, n));
  }

  /** A second-family stroke lies in the cell, on the diagonal
      `px - py == scale * x - scale * y - scale + increase`. */
  lemma SecondStrokeGeometry(x: real, y: real, scale: real, i: int, n: real)
    requires 0.0 < scale && 1 <= i && (i as real) < n
    ensures var s := SecondStroke(x, y, scale, i, n);
            && |s| == 2 && InCell(s[0], x, y, scale) && InCell(s[1], x, y, scale)
            && s[0].x - s[0].y == scale * x - scale * y - scale + Increase(scale, i, n)
            && s[1].x - s[1].y == scale * x - scale * y - scale + Increase(scale, i, n)
  {
    IncreaseBounds(scale, i, n);
    SplitIncrease(scale, Increase(scale, i, n));
  }

  /** Every point of the first family lies in the cell. */
  lemma FirstFamilyInCell(x: real, y: real, thickness: real, scale: real)
    requires 0.0 < scale
    ensures var first := FirstFamily(x, y, thickness, scale);
            forall k, j :: 0 <= k < |first| && 0 <= j < |first[k]| ==> InCell(first[k][j], x, y, scale)
  {
    var first: seq<Polyline> := FirstFamily(x, y, thickness, scale);
    forall k, j | 0 <= k < |first| && 0 <= j < |first[k]|
      ensures InCell(first[k][j], x, y, scale)
    {
      FirstStrokeGeometry(x, y, scale, k + 1, Half(thickness) as real);
    }
  }

  /** Every point of the second family lies in the cell. */
  lemma SecondFamilyInCell(x: real, y: real, thickness: real, scale: real)
    requires 0.0 < scale
    ensures var second := SecondFamily(x, y, thickness, scale);
            forall k, j :: 0 <= k < |second| && 0 <= j < |second[k]| ==> InCell(second[k][j], x, y, scale)
  {
    var second: seq<Polyline> := SecondFamily(x, y, thickness, scale);
    forall k, j | 0 <= k < |second| && 0 <= j < |second[k]|
      ensures InCell(second[k][j], x, y, scale)
    {
      SecondStrokeGeometry(x, y, scale, k + 1, Rest(thickness));
    }
  }

  /** With a positive scale every point `drawPixel` emits lies in the pixel's cell. */
  lemma PixelStrokesInCell(x: real, y: real, thickness: real, outline: bool, scale: real)
    requires 0.0 < scale
    ensures var all := PixelStrokes(x, y, thickness, outline, scale);
            forall k, j :: 0 <= k < |all| && 0 <= j < |all[k]| ==> InCell(all[k][j], x, y, scale)
  {
    var first: seq<Polyline> := FirstFamily(x, y, thickness, scale);
    var second: seq<Polyline> := SecondFamily(x, y, thickness, scale);
    var last: seq<Polyline> := if outline then [Outline(x, y, scale)] else [];
    FirstFamilyInCell(x, y, thickness, scale);
    SecondFamilyInCell(x, y, thickness, scale);
    assert forall k, j :: 0 <= k < |last| && 0 <= j < |last[k]| ==> InCell(last[k][j], x, y, scale);
    var all := first + second + last;
    forall k, j | 0 <= k < |all| && 0 <= j < |all[k]|
      ensures InCell(all[k][j], x, y, scale)
    {
      if k < |first| {
        assert all[k] == first[k];
      } else if k < |first| + |second| {
        assert all[k] == second[k - |first|];
      } else {
        assert all[k] == last[k - |first| - |second|];
      }
    }
  }

  /** The first family's strokes each lie on one anti-diagonal of the cell, and
      later strokes lie strictly further from the cell's top-left corner: the
      strokes are nested. */
  lemma FirstFamilyNested(x: real, y: real, thickness: real, scale: real)
    requires 0.0 < scale
    ensures var first := FirstFamily(x, y, thickness, scale);
            && (forall k :: 0 <= k < |first| ==> first[k][0].x + first[k][0].y == first[k][1].x + first[k][1].y)
            && (forall j, k :: 0 <= j < k < |first| ==> first[j][0].x + first[j][0].y < first[k][0].x + first[k][0].y)
  {
    var first: seq<Polyline> := FirstFamily(x, y, thickness, scale);
    var n := Half(thickness) as real;
    forall k | 0 <= k < |first|
      ensures first[k][0].x + first[k][0].y == first[k][1].x + first[k][1].y
    {
      FirstStrokeGeometry(x, y, scale, k + 1, n);
    }
    forall j, k | 0 <= j < k < |first|
      ensures first[j][0].x + first[j][0].y < first[k][0].x + first[k][0].y
    {
      FirstStrokeGeometry(x, y, scale, j + 1, n);
      FirstStrokeGeometry(x, y, scale, k + 1, n);
      IncreaseAscending(scale, j + 1, k + 1, n);
    }
  }

  /** The second family's strokes each lie on one diagonal of the cell, and
      later strokes lie strictly further from the cell's bottom-left corner. */
  lemma SecondFamilyNested(x: real, y: real, thickness: real, scale: real)
    requires 0.0 < scale
    ensures var second := SecondFamily(x, y, thickness, scale);
            && (forall k :: 0 <= k < |second| ==> second[k][0].x - second[k][0].y == second[k][1].x - second[k][1].y)
            && (forall j, k :: 0 <= j < k < |second| ==> second[j][0].x - second[j][0].y < second[k][0].x - second[k][0].y)
  {
    var second: seq<Polyline> := SecondFamily(x, y, thickness, scale);
    var n := Rest(thickness);
    forall k | 0 <= k < |second|
      ensures second[k][0].x - second[k][0].y == second[k][1].x - second[k][1].y
    {
      SecondStrokeGeometry(x, y, scale, k + 1, n);
    }
    forall j, k | 0 <= j < k < |second|
      ensures second[j][0].x - second[j][0].y < second[k][0].x - second[k][0].y
    {
      SecondStrokeGeometry(x, y, scale, j + 1, n);
      SecondStrokeGeometry(x, y, scale, k + 1, n);
      IncreaseAscending(scale, j + 1, k + 1, n);
    }
  }

  lemma AppendAssoc<T>(a: seq<T>, b: seq<T>, c: seq<T>)
    ensures (a + b) + c == a + (b + c)
  {
  }

  /** The output of the generator: the global list `finalLines`. */
  class LineArt {
    var finalLines: seq<Polyline>

    constructor ()
      ensures finalLines == []
    {
      finalLines := [];
    }

    /** The first loop of `drawPixel`: `for (i = 1; i < half; i++)`. */
    method PushFirstFamily(x: real, y: real, thickness: real, scale: real)
      modifies this
      ensures finalLines == old(finalLines) + FirstFamily(x, y, thickness, scale)
    {
      ghost var before := finalLines;
      ghost var first := FirstFamily(x, y, thickness, scale);
      var half := Ceil(thickness / 2.0);
      var i := 1;
      while i < half
        invariant 1 <= i && i - 1 <= |first|
        invariant finalLines == before + first[..i - 1]
      {
        var increase := scale * (i as real) / (half as real) * 2.0;
        var mIncrease := Min(increase, scale);
        var adjust := Max(increase - scale, 0.0);
        assert i - 1 < |first| && first[i - 1] == FirstStroke(x, y, scale, i, half as real);
        assert first[..i] == first[..i - 1] + [first[i - 1]];
        AppendAssoc(before, first[..i - 1], [first[i - 1]]);
        finalLines := finalLines + [[Point(scale * x + adjust, scale * y + mIncrease),
                                     Point(scale * x + mIncrease, scale * y + adjust)]];
        i := i + 1;
      }
      assert first[..i - 1] == first;
    }

    /** The second loop of `drawPixel`: `for (i = 1; i < thickness - half; i++)`. */
    method PushSecondFamily(x: real, y: real, thickness: real, scale: real)
      modifies this
      ensures finalLines == old(finalLines) + SecondFamily(x, y, thickness, scale)
    {
      ghost var before := finalLines;
      ghost var second := SecondFamily(x, y, thickness, scale);
      var half := Ceil(thickness / 2.0);
      var i := 1;
      while (i as real) < thickness - (half as real)
        invariant 1 <= i && i - 1 <= |second|
        invariant finalLines == before + second[..i - 1]
        decreases Ceil(thickness - (half as real)) - i
      {
        var increase := scale * (i as real) / (thickness - (half as real)) * 2.0;
        var mIncrease := Min(increase, scale);
        var adjust := Max(increase - scale, 0.0);
        assert i - 1 < |second| && second[i - 1] == SecondStroke(x, y, scale, i, thickness - (half as real));
        assert second[..i] == second[..i - 1] + [second[i - 1]];
        AppendAssoc(before, second[..i - 1], [second[i - 1]]);
        finalLines := finalLines + [[Point(scale * x + adjust, scale * y + scale - mIncrease),
                                     Point(scale * x + mIncrease, scale * y + scale - adjust)]];
        i := i + 1;
      }
      assert second[..i - 1] == second;
    }

    /** `drawPixel(x, y, thickness, outline, scale)`: appends the pixel's strokes
        and changes nothing already drawn. */
    method DrawPixel(x: real, y: real, thickness: real, outline: bool, scale: real)
      modifies this
      ensures finalLines == old(finalLines) + PixelStrokes(x, y, thickness, outline, scale)
    {
      PushFirstFamily(x, y, thickness, scale);
      PushSecondFamily(x, y, thickness, scale);
      if outline {
        finalLines := finalLines + [[ Point(x * scale, y * scale),
                                      Point(x * scale + scale, y * scale),
                                      Point(x * scale + scale, y * scale + scale),
                                      Point(x * scale, y * scale + scale) ]];
      }
    }
  }
}
