/** `ApplyGeometry`: a random perspective warp. When its gate fires, the image
    is padded by its own size on every side (a canvas of `3 cols x 3 rows`), an
    input rectangle on that canvas is chosen (zoomed in or out by a random
    amount), and the corners of the output rectangle are moved to fake a view
    from one side. The model computes the two quadrilaterals and the border
    mode; `copyMakeBorder`, `getPerspectiveTransform` and `warpPerspective` are
    OpenCV kernels that are not modelled. All draws come from the one uniform
    stream `draws`; `inset` is the edge the source mirrors the drawn corners
    about (see `ApplyGeometry` and `ApplyGeometryCorrected`). */
module Geometry {
  import opened Common
  import opened WeightedDie

  /** The fields of `GeometryParameter` the transform reads. */
  datatype GeometryParam = GeometryParam(
    prob: real,
    padMode: PadMode,
    zoomIn: bool, zoomOut: bool, allEffects: bool, zoomFactor: real,
    perspHorizontal: bool, perspVertical: bool, perspFactor: real)

  datatype Point = Point(x: real, y: real)

  /** Four corners from the top-left, clockwise. */
  datatype Quad = Quad(p0: Point, p1: Point, p2: Point, p3: Point)

  /** The outcome: the image returned as it is, or the warp from `input` on the
      padded canvas to `output` on an image of the input's size. */
  datatype Warp =
    | Unchanged
    | Warped(border: BorderMode, canvasCols: int, canvasRows: int, input: Quad, output: Quad)

  function Rectangle(x0: real, y0: real, x1: real, y1: real): Quad
  {
    Quad(Point(x0, y0), Point(x1, y0), Point(x1, y1), Point(x0, y1))
  }

  /** The input rectangle without zoom: the original image inside the canvas. */
  function DefaultInput(cols: int, rows: int): Quad
  {
    Rectangle(cols as real, rows as real, (2 * cols - 1) as real, (2 * rows - 1) as real)
  }

  /** The output rectangle without perspective: the whole output image. */
  function DefaultOutput(cols: int, rows: int): Quad
  {
    Rectangle(0.0, 0.0, (cols - 1) as real, (rows - 1) as real)
  }

  /** `caffe_rng_uniform(1, lo, hi, &x)`, whose `CHECK_LE(lo, hi)` is fatal. */
  function Draw(lo: real, hi: real, t: real): (r: Result<real>)
    requires 0.0 <= t <= 1.0
    ensures r.Ok? <==> lo <= hi
    ensures r.Ok? ==> lo <= r.value <= hi
    ensures r.Err? ==> r.error == BadRange
  {
    if lo <= hi then UniformWithin(lo, hi, t); Ok(Uniform(lo, hi, t)) else Err(BadRange)
  }

  datatype Zoom = NoZoom | ZoomIn | ZoomOut

  predicate Zooming(param: GeometryParam)
  {
    param.zoomOut || param.zoomIn || param.allEffects
  }

  /** Both directions enabled: a fair coin picks one. */
  predicate ZoomCoin(param: GeometryParam)
  {
    (param.zoomIn || param.allEffects) && (param.zoomOut || param.allEffects)
  }

  /** The zoom direction, and the draws the choice used. */
  function ZoomChoice(param: GeometryParam, draws: seq<real>): (r: (Zoom, nat))
    requires UnitDraws(draws) && |draws| >= 1
    ensures r.0 == NoZoom <==> !Zooming(param)
    ensures r.1 == if Zooming(param) && ZoomCoin(param) then 1 else 0
    ensures r.0 == ZoomIn ==> param.zoomIn || param.allEffects
    ensures r.0 == ZoomOut ==> param.zoomOut || param.allEffects
  {
    if !Zooming(param) then (NoZoom, 0)
    else if ZoomCoin(param) then
      (if Roll([0.5, 0.5], draws[0]) == 0 then ZoomOut else ZoomIn, 1)
    else if param.zoomIn || param.allEffects then (ZoomIn, 0)
    else (ZoomOut, 0)
  }

  /** The range the left edge (for `size = cols`) or the top edge (for
      `size = rows`) of the input rectangle is drawn from. */
  function ZoomRange(z: Zoom, size: int, factor: real): (real, real)
  {
    var at := size as real;
    (if z == ZoomOut then at - at * factor else at, if z == ZoomIn then at + at * factor else at)
  }

  /** The input rectangle and the draws used: without zoom the default one;
      otherwise a left and a top edge are drawn and mirrored about the canvas
      centre, `x1 = 3 cols - inset - x0`. */
  function InputQuad(param: GeometryParam, cols: int, rows: int, draws: seq<real>, inset: int): Result<(Quad, nat)>
    requires UnitDraws(draws) && |draws| >= 3
  {
    var (z, used) := ZoomChoice(param, draws);
    if z == NoZoom then Ok((DefaultInput(cols, rows), 0))
    else
      var xr := ZoomRange(z, cols, param.zoomFactor);
      var yr := ZoomRange(z, rows, param.zoomFactor);
      match Draw(xr.0, xr.1, draws[used])
      case Err(e) => Err(e)
      case Ok(x0) =>
        match Draw(yr.0, yr.1, draws[used + 1])
        case Err(e) => Err(e)
        case Ok(y0) =>
          Ok((Rectangle(x0, y0, (3 * cols - inset) as real - x0, (3 * rows - inset) as real - y0), used + 2))
  }

  /** The output quadrilateral and the draws used: a horizontal perspective
      moves the two left or the two right corners vertically, a vertical one
      the two bottom or the two top corners horizontally, each by a draw of up
      to `perspFactor` of the image size, mirrored as `rows - inset - y`. */
  function OutputQuad(param: GeometryParam, cols: int, rows: int, draws: seq<real>, inset: int): Result<(Quad, nat)>
    requires UnitDraws(draws) && |draws| >= 4
  {
    var q := DefaultOutput(cols, rows);
    var horizontal := param.perspHorizontal || param.allEffects;
    var hr: Result<(Quad, nat)> :=
      if !horizontal then Ok((q, 0))
      else match Draw(0.0, rows as real * param.perspFactor, draws[1])
        case Err(e) => Err(e)
        case Ok(y) =>
          var mirrored := (rows - inset) as real - y;
          if Roll([0.5, 0.5], draws[0]) == 1 then
            Ok((q.(p0 := q.p0.(y := y), p3 := q.p3.(y := mirrored)), 2))
          else
            Ok((q.(p1 := q.p1.(y := y), p2 := q.p2.(y := mirrored)), 2));
    match hr
    case Err(e) => Err(e)
    case Ok(h) =>
      if !(param.perspVertical || param.allEffects) then Ok(h)
      else
        var q := h.0;
        match Draw(0.0, cols as real * param.perspFactor, draws[h.1 + 1])
        case Err(e) => Err(e)
        case Ok(x) =>
          var mirrored := (cols - inset) as real - x;
          if Roll([0.5, 0.5], draws[h.1]) == 1 then
            Ok((q.(p3 := q.p3.(x := x), p2 := q.p2.(x := mirrored)), h.1 + 2))
          else
            Ok((q.(p0 := q.p0.(x := x), p1 := q.p1.(x := mirrored)), h.1 + 2))
  }

  /** The draws `caffe_rng_uniform` is asked for are all well formed. */
  predicate RangesAccepted(param: GeometryParam, cols: int, rows: int)
  {
    ZoomAccepted(param, cols, rows) && PerspAccepted(param, cols, rows)
  }

  /** A zoom draws from a well-formed range. */
  predicate ZoomAccepted(param: GeometryParam, cols: int, rows: int)
  {
    Zooming(param) ==> cols as real * param.zoomFactor >= 0.0 && rows as real * param.zoomFactor >= 0.0
  }

  /** A perspective draws from a well-formed range. */
  predicate PerspAccepted(param: GeometryParam, cols: int, rows: int)
  {
    (param.perspHorizontal || param.allEffects ==> rows as real * param.perspFactor >= 0.0) &&
    (param.perspVertical || param.allEffects ==> cols as real * param.perspFactor >= 0.0)
  }

  /** How many draws a firing gate is followed by. */
  function WarpDraws(param: GeometryParam): nat
  {
    (if Zooming(param) then (if ZoomCoin(param) then 3 else 2) else 0) +
    (if param.perspHorizontal || param.allEffects then 2 else 0) +
    (if param.perspVertical || param.allEffects then 2 else 0)
  }

  /** The left and top edges of `q` both lie in the ranges of the zoom `z`. */
  predicate ZoomedBy(z: Zoom, param: GeometryParam, cols: int, rows: int, q: Quad)
  {
    ZoomRange(z, cols, param.zoomFactor).0 <= q.p0.x <= ZoomRange(z, cols, param.zoomFactor).1 &&
    ZoomRange(z, rows, param.zoomFactor).0 <= q.p0.y <= ZoomRange(z, rows, param.zoomFactor).1
  }

  /** The input rectangle: the default one without zoom, otherwise a
      rectangle whose left and top edges are both moved in the one enabled
      direction the coin picked (out towards the canvas border, or in towards
      the centre) and whose right and bottom edges mirror them,
      `x1 = 3 cols - inset - x0`. */
  predicate InputShape(param: GeometryParam, cols: int, rows: int, inset: int, q: Quad)
  {
    if !Zooming(param) then q == DefaultInput(cols, rows)
    else
      q == Rectangle(q.p0.x, q.p0.y, (3 * cols - inset) as real - q.p0.x, (3 * rows - inset) as real - q.p0.y) &&
      (((param.zoomOut || param.allEffects) && ZoomedBy(ZoomOut, param, cols, rows, q)) ||
       ((param.zoomIn || param.allEffects) && ZoomedBy(ZoomIn, param, cols, rows, q)))
  }

  /** One coin picks one direction for both edges: with both directions
      enabled, a rectangle zoomed in across and out down is never drawn. */
  lemma MixedZoomExcluded()
    ensures var param := GeometryParam(1.0, Constant, true, true, false, 0.5, false, false, 0.0);
      !InputShape(param, 10, 10, 0, Rectangle(14.0, 6.0, 16.0, 24.0))
  {
  }

  /** The output quadrilateral: a horizontal perspective lowers either the
      top-left or the top-right corner by at most `rows * perspFactor` and
      mirrors it in the corner below, `rows - inset - y`; a vertical one moves
      either the bottom-left or the top-left corner right by at most
      `cols * perspFactor` and mirrors it in its neighbour, `cols - inset - x`;
      every other coordinate keeps its default. */
  predicate OutputShape(param: GeometryParam, cols: int, rows: int, inset: int, q: Quad)
  {
    var d := DefaultOutput(cols, rows);
    var h := rows as real * param.perspFactor;
    var v := cols as real * param.perspFactor;
    (if param.perspHorizontal || param.allEffects then
       (0.0 <= q.p0.y <= h && q.p3.y == (rows - inset) as real - q.p0.y && q.p1.y == d.p1.y && q.p2.y == d.p2.y) ||
       (0.0 <= q.p1.y <= h && q.p2.y == (rows - inset) as real - q.p1.y && q.p0.y == d.p0.y && q.p3.y == d.p3.y)
     else q.p0.y == d.p0.y && q.p1.y == d.p1.y && q.p2.y == d.p2.y && q.p3.y == d.p3.y) &&
    (if param.perspVertical || param.allEffects then
       (0.0 <= q.p3.x <= v && q.p2.x == (cols - inset) as real - q.p3.x && q.p0.x == d.p0.x && q.p1.x == d.p1.x) ||
       (0.0 <= q.p0.x <= v && q.p1.x == (cols - inset) as real - q.p0.x && q.p3.x == d.p3.x && q.p2.x == d.p2.x)
     else q.p0.x == d.p0.x && q.p1.x == d.p1.x && q.p2.x == d.p2.x && q.p3.x == d.p3.x)
  }

  /** `ApplyGeometry` with the mirror edge `inset`: a zero `prob` returns the
      input without drawing; otherwise the gate `[1 - prob, prob]` is rolled,
      and when it fires the pad mode is looked up (unknown is fatal), the
      two quadrilaterals are drawn (a reversed range is fatal) and the image
      is warped. A negative `prob` rolls a die with no
      faces, which the source leaves undefined. */
  function GeometryWith(param: GeometryParam, cols: nat, rows: nat, draws: seq<real>, inset: int): (r: Result<(Warp, nat)>)
    requires param.prob >= 0.0 && UnitDraws(draws) && |draws| >= 8
    ensures param.prob == 0.0 ==> r == Ok((Unchanged, 0))
    ensures param.prob > 0.0 && !Gate(param.prob, draws[0]) ==> r == Ok((Unchanged, 1))
    ensures r.Err? <==> (param.prob > 0.0 && Gate(param.prob, draws[0]) &&
      (param.padMode == UnknownPadMode || !RangesAccepted(param, cols, rows)))
    ensures r.Err? ==> r.error == (if param.padMode == UnknownPadMode then PadModeUnknown else BadRange)
    ensures param.prob > 0.0 && Gate(param.prob, draws[0]) && r.Ok? ==> r.value.0.Warped?
    ensures r.Ok? && r.value.0.Warped? ==>
      Ok(r.value.0.border) == BorderFor(param.padMode) &&
      r.value.0.canvasCols == 3 * cols && r.value.0.canvasRows == 3 * rows &&
      InputShape(param, cols, rows, inset, r.value.0.input) &&
      OutputShape(param, cols, rows, inset, r.value.0.output) &&
      r.value.1 == 1 + WarpDraws(param)
  {
    if param.prob == 0.0 then Ok((Unchanged, 0))
    else if !Gate(param.prob, draws[0]) then Ok((Unchanged, 1))
    else
      match BorderFor(param.padMode)
      case Err(e) => Err(e)
      case Ok(border) =>
        InputQuadOutcome(param, cols, rows, draws[1..], inset);
        match InputQuad(param, cols, rows, draws[1..], inset)
        case Err(e) => Err(e)
        case Ok(input) =>
          OutputQuadOutcome(param, cols, rows, draws[1 + input.1..], inset);
          match OutputQuad(param, cols, rows, draws[1 + input.1..], inset)
          case Err(e) => Err(e)
          case Ok(output) => Ok((Warped(border, 3 * cols, 3 * rows, input.0, output.0), 1 + input.1 + output.1))
  }

  /** `ApplyGeometry` as written: the drawn corners are mirrored about `cols`
      and `rows`. */
  function ApplyGeometry(param: GeometryParam, cols: nat, rows: nat, draws: seq<real>): Result<(Warp, nat)>
    requires param.prob >= 0.0 && UnitDraws(draws) && |draws| >= 8
  {
    GeometryWith(param, cols, rows, draws, 0)
  }

  /** `ApplyGeometry` mirroring about the last pixel, `cols - 1` and `rows - 1`,
      as the default rectangles do. */
  function ApplyGeometryCorrected(param: GeometryParam, cols: nat, rows: nat, draws: seq<real>): Result<(Warp, nat)>
    requires param.prob >= 0.0 && UnitDraws(draws) && |draws| >= 8
  {
    GeometryWith(param, cols, rows, draws, 1)
  }

  // ---------------------------------------------------------------------
  // The two quadrilaterals

  /** The input rectangle fails exactly on a reversed zoom range, and has the
      shape of `InputShape` otherwise. */
  lemma InputQuadOutcome(param: GeometryParam, cols: int, rows: int, draws: seq<real>, inset: int)
    requires UnitDraws(draws) && |draws| >= 3
    ensures var r := InputQuad(param, cols, rows, draws, inset);
      (r.Err? <==> !ZoomAccepted(param, cols, rows)) &&
      (r.Err? ==> r.error == BadRange) &&
      (r.Ok? ==> r.value.1 == (if Zooming(param) then (if ZoomCoin(param) then 3 else 2) else 0)) &&
      (r.Ok? ==> InputShape(param, cols, rows, inset, r.value.0))
  {
    var r := InputQuad(param, cols, rows, draws, inset);
    if r.Ok? && Zooming(param) {
      var z := ZoomChoice(param, draws).0;
      assert ZoomedBy(z, param, cols, rows, r.value.0);
    }
  }

  /** The output quadrilateral fails exactly on a negative perspective range,
      and has the shape of `OutputShape` otherwise. */
  lemma OutputQuadOutcome(param: GeometryParam, cols: int, rows: int, draws: seq<real>, inset: int)
    requires UnitDraws(draws) && |draws| >= 4
    ensures var r := OutputQuad(param, cols, rows, draws, inset);
      (r.Err? <==> !PerspAccepted(param, cols, rows)) &&
      (r.Err? ==> r.error == BadRange) &&
      (r.Ok? ==> r.value.1 == (if param.perspHorizontal || param.allEffects then 2 else 0) +
                              (if param.perspVertical || param.allEffects then 2 else 0)) &&
      (r.Ok? ==> OutputShape(param, cols, rows, inset, r.value.0))
  {
  }

  // ---------------------------------------------------------------------
  // The mirror edge

  /** A zoom-in of factor 0 with a gate that always fires. */
  function StillZoom(): GeometryParam
  {
    GeometryParam(1.0, Constant, true, false, false, 0.0, false, false, 0.0)
  }

  /** A horizontal perspective of factor 0 with a gate that always fires. */
  function StillPerspective(): GeometryParam
  {
    GeometryParam(1.0, Constant, false, false, false, 0.0, true, false, 0.0)
  }

  function HalfDraws(): seq<real> { [0.5, 0.5, 0.5, 0.5, 0.5, 0.5, 0.5, 0.5] }

  /** As written, a zoom that moves nothing still widens the input rectangle by
      one pixel: its right and bottom edges land on `2 cols` and `2 rows`
      instead of the default `2 cols - 1` and `2 rows - 1`. */
  lemma StillZoomWidensInput(cols: nat, rows: nat)
    ensures var r := ApplyGeometry(StillZoom(), cols, rows, HalfDraws());
      r.Ok? && r.value.0.Warped? &&
      r.value.0.input == Rectangle(cols as real, rows as real, (2 * cols) as real, (2 * rows) as real) &&
      r.value.0.input != DefaultInput(cols, rows)
  {
    var r := ApplyGeometry(StillZoom(), cols, rows, HalfDraws());
    assert Gate(1.0, 0.5);
    assert r.value.0.Warped?;
    assert r.value.0.input.p0.x == cols as real;
  }

  /** As written, a perspective that moves nothing still stretches the output
      quadrilateral: the bottom corner of the mirrored pair lands on `rows`
      instead of the last row `rows - 1`. */
  lemma StillPerspectiveStretchesOutput(cols: nat, rows: nat)
    ensures var r := ApplyGeometry(StillPerspective(), cols, rows, HalfDraws());
      r.Ok? && r.value.0.Warped? &&
      r.value.0.output != DefaultOutput(cols, rows) &&
      (r.value.0.output.p3.y == rows as real || r.value.0.output.p2.y == rows as real)
  {
    var r := ApplyGeometry(StillPerspective(), cols, rows, HalfDraws());
    assert Gate(1.0, 0.5);
    assert r.value.0.Warped?;
  }

  /** Mirrored about the last pixel, zero zoom and perspective factors give
      back the default rectangles, so the warp is the identity on the image. */
  lemma {:induction false} StillFactorsKeepDefaults(param: GeometryParam, cols: nat, rows: nat, draws: seq<real>)
    requires param.prob >= 0.0 && UnitDraws(draws) && |draws| >= 8
    requires param.zoomFactor == 0.0 && param.perspFactor == 0.0
    ensures var r := ApplyGeometryCorrected(param, cols, rows, draws);
      r.Ok? && r.value.0.Warped? ==>
        r.value.0.input == DefaultInput(cols, rows) && r.value.0.output == DefaultOutput(cols, rows)
  {
  }

  /** Mirrored about the last pixel, every zoomed input rectangle keeps the
      centre of the default one, and a zoom factor of at most 1 keeps it on
      the canvas's pixels `0 .. 3 cols - 1`. */
  lemma CorrectedZoomCentred(param: GeometryParam, cols: nat, rows: nat, draws: seq<real>)
    requires param.prob >= 0.0 && UnitDraws(draws) && |draws| >= 8
    ensures var r := ApplyGeometryCorrected(param, cols, rows, draws);
      r.Ok? && r.value.0.Warped? ==>
        var q := r.value.0.input;
        var d := DefaultInput(cols, rows);
        q.p0.x + q.p1.x == d.p0.x + d.p1.x && q.p0.y + q.p3.y == d.p0.y + d.p3.y &&
        (param.zoomFactor <= 1.0 ==>
          0.0 <= q.p0.x && q.p1.x <= (3 * cols - 1) as real && 0.0 <= q.p0.y && q.p3.y <= (3 * rows - 1) as real)
  {
    var r := ApplyGeometryCorrected(param, cols, rows, draws);
    if r.Ok? && r.value.0.Warped? {
      InputShapeOnCanvas(param, cols, rows, r.value.0.input);
    }
  }

  lemma InputShapeOnCanvas(param: GeometryParam, cols: nat, rows: nat, q: Quad)
    requires InputShape(param, cols, rows, 1, q)
    ensures var d := DefaultInput(cols, rows);
      q.p0.x + q.p1.x == d.p0.x + d.p1.x && q.p0.y + q.p3.y == d.p0.y + d.p3.y &&
      (param.zoomFactor <= 1.0 ==>
        0.0 <= q.p0.x && q.p1.x <= (3 * cols - 1) as real && 0.0 <= q.p0.y && q.p3.y <= (3 * rows - 1) as real)
  {
    if Zooming(param) && param.zoomFactor <= 1.0 {
      MulNonNegative(cols as real, 1.0 - param.zoomFactor);
      MulNonNegative(rows as real, 1.0 - param.zoomFactor);
      assert cols as real * (1.0 - param.zoomFactor) == cols as real - cols as real * param.zoomFactor;
      assert rows as real * (1.0 - param.zoomFactor) == rows as real - rows as real * param.zoomFactor;
      assert 0.0 <= ZoomRange(ZoomOut, cols, param.zoomFactor).0;
      assert 0.0 <= ZoomRange(ZoomOut, rows, param.zoomFactor).0;
    }
  }
}
