/** The resize policy: the output size a resize mode gives (`InferNewSize`),
    the matching remap of a normalised bounding box
    (`UpdateBBoxByResizePolicy`), the size and padding arithmetic of the
    aspect-keeping resizes, and the parameter handling of `ApplyResize`.
    Floats are modelled as reals; the pixel resampling itself is not modelled. */
module ResizePolicy {
  import opened Common
  import opened WeightedDie
  import opened FillValues

  datatype ResizeMode = Warp | FitLargeSizeAndPad | FitSmallSize | UnknownResizeMode

  datatype InterpMode = Area | Cubic | Linear | Nearest | Lanczos4 | UnknownInterpMode

  /** The fields of `ResizeParameter` the transforms read. */
  datatype ResizeParam = ResizeParam(
    mode: ResizeMode,
    width: int,
    height: int,
    padMode: PadMode,
    padValues: seq<real>,
    interpModes: seq<InterpMode>)

  datatype Size = Size(width: int, height: int)

  /** A normalised bounding box: coordinates relative to the image extent. */
  datatype Box = Box(xmin: real, ymin: real, xmax: real, ymax: real)

  predicate ValidSizes(param: ResizeParam, oldWidth: int, oldHeight: int)
  {
    oldWidth > 0 && oldHeight > 0 && param.width > 0 && param.height > 0
  }

  function Aspect(width: int, height: int): real
    requires height > 0
  {
    width as real / height as real
  }

  // ---------------------------------------------------------------------
  // InferNewSize

  /** The output size of a resize. WARP and FIT_LARGE_SIZE_AND_PAD give the
      configured size; FIT_SMALL_SIZE keeps the configured dimension on the axis
      where the input is relatively narrower and grows the other one (truncated)
      so that the input's aspect is kept, never going below the configured size.
      An unknown mode is fatal. */
  function InferNewSize(param: ResizeParam, oldWidth: int, oldHeight: int): (r: Result<Size>)
    requires ValidSizes(param, oldWidth, oldHeight)
    ensures r.Err? <==> param.mode == UnknownResizeMode
    ensures r.Ok? && param.mode != FitSmallSize ==> r.value == Size(param.width, param.height)
    ensures r.Ok? && param.mode == FitSmallSize &&
            Aspect(oldWidth, oldHeight) < Aspect(param.width, param.height) ==>
              r.value.width == param.width && r.value.height >= param.height
    ensures r.Ok? && param.mode == FitSmallSize &&
            Aspect(oldWidth, oldHeight) >= Aspect(param.width, param.height) ==>
              r.value.height == param.height && r.value.width >= param.width
    ensures r.Ok? && param.mode == FitSmallSize &&
            Aspect(oldWidth, oldHeight) < Aspect(param.width, param.height) ==>
              r.value.height as real <= param.width as real / Aspect(oldWidth, oldHeight) < r.value.height as real + 1.0
    ensures r.Ok? && param.mode == FitSmallSize &&
            Aspect(oldWidth, oldHeight) >= Aspect(param.width, param.height) ==>
              r.value.width as real <= Aspect(oldWidth, oldHeight) * param.height as real < r.value.width as real + 1.0
  {
    var origAspect := Aspect(oldWidth, oldHeight);
    var aspect := Aspect(param.width, param.height);
    match param.mode
    case Warp => Ok(Size(param.width, param.height))
    case FitLargeSizeAndPad => Ok(Size(param.width, param.height))
    case FitSmallSize =>
      if origAspect < aspect then
        NarrowerGrowsHeight(param.width, param.height, origAspect);
        Ok(Size(param.width, (param.width as real / origAspect).Floor))
      else
        WiderGrowsWidth(param.width, param.height, origAspect);
        Ok(Size((origAspect * param.height as real).Floor, param.height))
    case UnknownResizeMode => Err(ResizeModeUnknown)
  }

  lemma NarrowerGrowsHeight(width: int, height: int, origAspect: real)
    requires width > 0 && height > 0 && 0.0 < origAspect < Aspect(width, height)
    ensures (width as real / origAspect).Floor >= height
  {
    var w, h := width as real, height as real;
    assert w == (w / h) * h;
    assert origAspect * h < w by {
      assert (w / h - origAspect) * h > 0.0 by { MulPositive(w / h - origAspect, h); }
    }
    DivideBounds(h, w, origAspect);
  }

  lemma WiderGrowsWidth(width: int, height: int, origAspect: real)
    requires width > 0 && height > 0 && origAspect >= Aspect(width, height)
    ensures (origAspect * height as real).Floor >= width
  {
    var w, h := width as real, height as real;
    assert w == (w / h) * h;
    MulNonNegative(origAspect - w / h, h);
  }

  lemma MulPositive(a: real, b: real)
    requires a > 0.0 && b > 0.0
    ensures a * b > 0.0
  {
  }

  // ---------------------------------------------------------------------
  // UpdateBBoxByResizePolicy

  /** FIT_LARGE_SIZE_AND_PAD pads above and below when the input is relatively wider. */
  predicate PadsVertically(param: ResizeParam, oldWidth: int, oldHeight: int)
    requires ValidSizes(param, oldWidth, oldHeight)
  {
    Aspect(oldWidth, oldHeight) > Aspect(param.width, param.height)
  }

  /** Half the unused extent on the padded axis, in pixels of the output. */
  function BoxPadding(param: ResizeParam, oldWidth: int, oldHeight: int): real
    requires ValidSizes(param, oldWidth, oldHeight)
  {
    var origAspect := Aspect(oldWidth, oldHeight);
    if PadsVertically(param, oldWidth, oldHeight) then
      (param.height as real - param.width as real / origAspect) / 2.0
    else
      (param.width as real - origAspect * param.height as real) / 2.0
  }

  /** `x * num / den`: a pixel coordinate carried from an extent of `den` pixels
      to one of `num`. */
  function Rescale(x: real, num: real, den: real): real
    requires den > 0.0
  {
    x * num / den
  }

  /** A min coordinate on an axis the resize only scales: to pixels of the input,
      scaled to `newDim`, clamped below at 0, normalised again. */
  function ScaledMin(c: real, oldDim: real, newDim: real): real
    requires oldDim > 0.0 && newDim > 0.0
  {
    Max(0.0, Rescale(c * oldDim, newDim, oldDim)) / newDim
  }

  /** A max coordinate on an axis the resize only scales: clamped above at `newDim`. */
  function ScaledMax(c: real, oldDim: real, newDim: real): real
    requires oldDim > 0.0 && newDim > 0.0
  {
    Min(newDim, Rescale(c * oldDim, newDim, oldDim)) / newDim
  }

  /** A min coordinate on the padded axis: scaled to the unpadded extent
      `newDim - 2 * padding`, clamped below at 0, shifted by the padding. */
  function PaddedMin(c: real, oldDim: real, newDim: real, padding: real): real
    requires oldDim > 0.0 && newDim > 0.0
  {
    (padding + Max(0.0, Rescale(c * oldDim, newDim - 2.0 * padding, oldDim))) / newDim
  }

  /** A max coordinate on the padded axis, as written: clamped above at the full
      `newDim` before the padding is added. */
  function PaddedMax(c: real, oldDim: real, newDim: real, padding: real): real
    requires oldDim > 0.0 && newDim > 0.0
  {
    (padding + Min(newDim, Rescale(c * oldDim, newDim - 2.0 * padding, oldDim))) / newDim
  }

  /** A max coordinate on the padded axis, clamped above at the unpadded extent,
      so that it cannot pass the far edge of the image content. */
  function PaddedMaxCorrected(c: real, oldDim: real, newDim: real, padding: real): real
    requires oldDim > 0.0 && newDim > 0.0
  {
    (padding + Min(newDim - 2.0 * padding, Rescale(c * oldDim, newDim - 2.0 * padding, oldDim))) / newDim
  }

  /** A box on axes that are only scaled. */
  function ScaledBox(b: Box, ow: real, oh: real, nw: real, nh: real): Box
    requires ow > 0.0 && oh > 0.0 && nw > 0.0 && nh > 0.0
  {
    Box(ScaledMin(b.xmin, ow, nw), ScaledMin(b.ymin, oh, nh),
        ScaledMax(b.xmax, ow, nw), ScaledMax(b.ymax, oh, nh))
  }

  /** The box after `UpdateBBoxByResizePolicy`, as written. */
  function UpdatedBBox(param: ResizeParam, oldWidth: int, oldHeight: int, b: Box): Result<Box>
    requires ValidSizes(param, oldWidth, oldHeight)
  {
    var ow, oh := oldWidth as real, oldHeight as real;
    var nw, nh := param.width as real, param.height as real;
    var origAspect := Aspect(oldWidth, oldHeight);
    match param.mode
    case Warp => Ok(ScaledBox(b, ow, oh, nw, nh))
    case FitLargeSizeAndPad =>
      var padding := BoxPadding(param, oldWidth, oldHeight);
      if PadsVertically(param, oldWidth, oldHeight) then
        Ok(Box(ScaledMin(b.xmin, ow, nw), PaddedMin(b.ymin, oh, nh, padding),
               ScaledMax(b.xmax, ow, nw), PaddedMax(b.ymax, oh, nh, padding)))
      else
        Ok(Box(PaddedMin(b.xmin, ow, nw, padding), ScaledMin(b.ymin, oh, nh),
               PaddedMax(b.xmax, ow, nw, padding), ScaledMax(b.ymax, oh, nh)))
    case FitSmallSize =>
      var e := FitSmallExtent(param, oldWidth, oldHeight);
      Ok(ScaledBox(b, ow, oh, e.0, e.1))
    case UnknownResizeMode => Err(ResizeModeUnknown)
  }

  /** The unrounded output extent of FIT_SMALL_SIZE the box remap scales to. */
  function FitSmallExtent(param: ResizeParam, oldWidth: int, oldHeight: int): (e: (real, real))
    requires ValidSizes(param, oldWidth, oldHeight)
    ensures e.0 > 0.0 && e.1 > 0.0
  {
    var nw, nh := param.width as real, param.height as real;
    var origAspect := Aspect(oldWidth, oldHeight);
    PositiveQuotients(nw, origAspect, nh);
    if origAspect < Aspect(param.width, param.height) then (nw, nw / origAspect)
    else (origAspect * nh, nh)
  }

  /** The box remap with the padded-axis max clamped to the image content
      (`PaddedMaxCorrected`); the other modes are as written. */
  function CorrectedBBox(param: ResizeParam, oldWidth: int, oldHeight: int, b: Box): Result<Box>
    requires ValidSizes(param, oldWidth, oldHeight)
  {
    var ow, oh := oldWidth as real, oldHeight as real;
    var nw, nh := param.width as real, param.height as real;
    if param.mode != FitLargeSizeAndPad then UpdatedBBox(param, oldWidth, oldHeight, b)
    else
      var padding := BoxPadding(param, oldWidth, oldHeight);
      if PadsVertically(param, oldWidth, oldHeight) then
        Ok(Box(ScaledMin(b.xmin, ow, nw), PaddedMin(b.ymin, oh, nh, padding),
               ScaledMax(b.xmax, ow, nw), PaddedMaxCorrected(b.ymax, oh, nh, padding)))
      else
        Ok(Box(PaddedMin(b.xmin, ow, nw, padding), ScaledMin(b.ymin, oh, nh),
               PaddedMaxCorrected(b.xmax, ow, nw, padding), ScaledMax(b.ymax, oh, nh)))
  }

  lemma PositiveQuotients(a: real, b: real, c: real)
    requires a > 0.0 && b > 0.0 && c > 0.0
    ensures a / b > 0.0 && b * c > 0.0
  {
    MulPositive(b, c);
  }

  /** The bounding box the source mutates through its setters. */
  class NormalizedBBox {
    var xmin: real
    var ymin: real
    var xmax: real
    var ymax: real

    constructor (b: Box)
      ensures Value() == b
    {
      xmin, ymin, xmax, ymax := b.xmin, b.ymin, b.xmax, b.ymax;
    }

    function Value(): Box
      reads this
    {
      Box(xmin, ymin, xmax, ymax)
    }
  }

  /** Remaps `bbox` in place so that it follows the pixels of a resize from
      `oldWidth` x `oldHeight` under `param`, through its four setters; an
      unknown mode leaves it untouched and reports the fatal error. Under WARP
      and FIT_SMALL_SIZE the new box is the old one clamped. */
  method UpdateBBoxByResizePolicy(param: ResizeParam, oldWidth: int, oldHeight: int,
                                  bbox: NormalizedBBox) returns (r: Result<()>)
    requires ValidSizes(param, oldWidth, oldHeight)
    modifies bbox
    ensures r.Err? <==> param.mode == UnknownResizeMode
    ensures r.Ok? ==> Ok(bbox.Value()) == UpdatedBBox(param, oldWidth, oldHeight, old(bbox.Value()))
    ensures r.Ok? && (param.mode == Warp || param.mode == FitSmallSize) ==>
      bbox.Value() == Box(Max(0.0, old(bbox.xmin)), Max(0.0, old(bbox.ymin)),
                          Min(1.0, old(bbox.xmax)), Min(1.0, old(bbox.ymax)))
    ensures r.Err? ==> bbox.Value() == old(bbox.Value())
  {
    var b0 := bbox.Value();
    var updated := UpdatedBBox(param, oldWidth, oldHeight, b0);
    if param.mode == Warp || param.mode == FitSmallSize {
      WarpAndFitSmallSizeOnlyClamp(param, oldWidth, oldHeight, b0);
    }
    match updated {
      case Err(e) =>
        r := Err(e);
      case Ok(b) =>
        bbox.xmin := b.xmin;
        bbox.ymin := b.ymin;
        bbox.xmax := b.xmax;
        bbox.ymax := b.ymax;
        r := Ok(());
    }
  }

  lemma ScaleCancel(c: real, oldDim: real, newDim: real)
    requires oldDim > 0.0
    ensures Rescale(c * oldDim, newDim, oldDim) == c * newDim
  {
    assert c * oldDim * newDim == (c * newDim) * oldDim;
  }

  lemma DivideMonotone(a: real, b: real, n: real)
    requires n > 0.0 && a <= b
    ensures a / n <= b / n
  {
    DivideBounds(a / n, b, n);
    assert (a / n) * n == a;
  }

  /** On an axis the resize only scales, a remapped min coordinate is the
      coordinate clamped below at 0. */
  lemma ScaledMinClamps(c: real, oldDim: real, newDim: real)
    requires oldDim > 0.0 && newDim > 0.0
    ensures ScaledMin(c, oldDim, newDim) == Max(0.0, c)
  {
    ScaleCancel(c, oldDim, newDim);
    var x := c * newDim;
    assert x / newDim == c;
    if c >= 0.0 {
      MulNonNegative(c, newDim);
      assert Max(0.0, x) == x;
    } else {
      MulNonNegative(-c, newDim);
      assert Max(0.0, x) == 0.0;
    }
  }

  /** On an axis the resize only scales, a remapped max coordinate is the
      coordinate clamped above at 1. */
  lemma ScaledMaxClamps(c: real, oldDim: real, newDim: real)
    requires oldDim > 0.0 && newDim > 0.0
    ensures ScaledMax(c, oldDim, newDim) == Min(1.0, c)
  {
    ScaleCancel(c, oldDim, newDim);
    var x := c * newDim;
    assert x / newDim == c;
    if c < 1.0 {
      MulPositive(1.0 - c, newDim);
      assert Min(newDim, x) == x;
    } else {
      MulNonNegative(c - 1.0, newDim);
      assert Min(newDim, x) == newDim;
      assert newDim / newDim == 1.0;
    }
  }

  lemma ScaledEdgesClamp(c: real, oldDim: real, newDim: real)
    requires oldDim > 0.0 && newDim > 0.0
    ensures ScaledMin(c, oldDim, newDim) == Max(0.0, c)
    ensures ScaledMax(c, oldDim, newDim) == Min(1.0, c)
  {
    ScaledMinClamps(c, oldDim, newDim);
    ScaledMaxClamps(c, oldDim, newDim);
  }

  lemma ScaledBoxClamps(b: Box, ow: real, oh: real, nw: real, nh: real)
    requires ow > 0.0 && oh > 0.0 && nw > 0.0 && nh > 0.0
    ensures ScaledBox(b, ow, oh, nw, nh) == Box(Max(0.0, b.xmin), Max(0.0, b.ymin), Min(1.0, b.xmax), Min(1.0, b.ymax))
  {
    ScaledMinClamps(b.xmin, ow, nw);
    ScaledMinClamps(b.ymin, oh, nh);
    ScaledMaxClamps(b.xmax, ow, nw);
    ScaledMaxClamps(b.ymax, oh, nh);
  }

  /** Under WARP and FIT_SMALL_SIZE the remap only clamps: every min coordinate
      becomes max(0, c) and every max coordinate min(1, c), so a box already
      inside [0, 1] is unchanged. */
  lemma WarpAndFitSmallSizeOnlyClamp(param: ResizeParam, oldWidth: int, oldHeight: int, b: Box)
    requires ValidSizes(param, oldWidth, oldHeight)
    requires param.mode == Warp || param.mode == FitSmallSize
    ensures UpdatedBBox(param, oldWidth, oldHeight, b)
            == Ok(Box(Max(0.0, b.xmin), Max(0.0, b.ymin), Min(1.0, b.xmax), Min(1.0, b.ymax)))
  {
    var ow, oh := oldWidth as real, oldHeight as real;
    var nw, nh := param.width as real, param.height as real;
    var origAspect := Aspect(oldWidth, oldHeight);
    if param.mode == Warp {
      ScaledBoxClamps(b, ow, oh, nw, nh);
    } else {
      var e := FitSmallExtent(param, oldWidth, oldHeight);
      ScaledBoxClamps(b, ow, oh, e.0, e.1);
    }
  }

  /** The padding of FIT_LARGE_SIZE_AND_PAD is non-negative and leaves a positive
      unpadded extent, which is the input scaled to the unpadded axis's full size. */
  lemma BoxPaddingBounds(param: ResizeParam, oldWidth: int, oldHeight: int)
    requires ValidSizes(param, oldWidth, oldHeight)
    ensures var p := BoxPadding(param, oldWidth, oldHeight);
      var dim := if PadsVertically(param, oldWidth, oldHeight) then param.height else param.width;
      0.0 <= p && 0.0 < dim as real - 2.0 * p <= dim as real
    ensures PadsVertically(param, oldWidth, oldHeight) ==>
      param.height as real - 2.0 * BoxPadding(param, oldWidth, oldHeight)
        == param.width as real / Aspect(oldWidth, oldHeight) < param.height as real
    ensures !PadsVertically(param, oldWidth, oldHeight) ==>
      param.width as real - 2.0 * BoxPadding(param, oldWidth, oldHeight)
        == Aspect(oldWidth, oldHeight) * param.height as real <= param.width as real
  {
    var nw, nh := param.width as real, param.height as real;
    var origAspect := Aspect(oldWidth, oldHeight);
    assert nw == (nw / nh) * nh;
    PositiveQuotients(nw, origAspect, nh);
    if PadsVertically(param, oldWidth, oldHeight) {
      assert nw / nh < origAspect;
      DivideBounds(nh, nw, origAspect);
      assert (nw / nh) * nh < origAspect * nh by { MulPositive(origAspect - nw / nh, nh); }
    } else {
      MulNonNegative(nw / nh - origAspect, nh);
    }
  }

  /** The far edge of the content, `dim - padding`, normalised. */
  lemma FarEdge(padding: real, n: real)
    requires n > 0.0
    ensures (n - padding) / n == 1.0 - padding / n
  {
    DivSub(n, padding, n);
    assert n / n == 1.0;
  }

  /** Inside [0, 1] neither clamp of the padded axis acts: both edges map a
      coordinate c to `(padding + c * inner) / dim`. */
  lemma PaddedEdgesUnclamped(c: real, oldDim: real, newDim: real, padding: real)
    requires oldDim > 0.0 && newDim > 0.0 && 0.0 <= padding && 0.0 < newDim - 2.0 * padding
    requires 0.0 <= c <= 1.0
    ensures PaddedMin(c, oldDim, newDim, padding) == (padding + c * (newDim - 2.0 * padding)) / newDim
    ensures PaddedMax(c, oldDim, newDim, padding) == (padding + c * (newDim - 2.0 * padding)) / newDim
  {
    var inner := newDim - 2.0 * padding;
    ScaleCancel(c, oldDim, inner);
    MulNonNegative(c, inner);
    MulNonNegative(1.0 - c, inner);
    assert Max(0.0, c * inner) == c * inner;
    assert Min(newDim, c * inner) == c * inner;
  }

  /** On the padded axis of FIT_LARGE_SIZE_AND_PAD a coordinate c in [0, 1] maps to
      `(padding + c * inner) / dim` for both edges, which lies in
      [padding / dim, 1 - padding / dim], and c is recovered by inverting that map. */
  lemma PaddedEdgeInverts(c: real, oldDim: real, newDim: real, padding: real)
    requires oldDim > 0.0 && newDim > 0.0 && 0.0 <= padding && 0.0 < newDim - 2.0 * padding
    requires 0.0 <= c <= 1.0
    ensures var inner := newDim - 2.0 * padding;
      PaddedMin(c, oldDim, newDim, padding) == (padding + c * inner) / newDim &&
      PaddedMax(c, oldDim, newDim, padding) == (padding + c * inner) / newDim &&
      padding / newDim <= (padding + c * inner) / newDim <= 1.0 - padding / newDim &&
      c == ((padding + c * inner) / newDim * newDim - padding) / inner
  {
    PaddedEdgesUnclamped(c, oldDim, newDim, padding);
    MulNonNegative(c, (newDim - 2.0 * padding));
    MulNonNegative(1.0 - c, (newDim - 2.0 * padding));
    DivideMonotone(padding, padding + c * (newDim - 2.0 * padding), newDim);
    DivideMonotone(padding + c * (newDim - 2.0 * padding), newDim - padding, newDim);
    FarEdge(padding, newDim);
    DivTimes(padding + c * (newDim - 2.0 * padding), newDim);
    TimesDiv(c, (newDim - 2.0 * padding));
  }

  /** FIT_LARGE_SIZE_AND_PAD only clamps the axis it does not pad. */
  lemma FitLargeSizeAndPadClampsOtherAxis(param: ResizeParam, oldWidth: int, oldHeight: int, b: Box)
    requires ValidSizes(param, oldWidth, oldHeight) && param.mode == FitLargeSizeAndPad
    ensures var r := UpdatedBBox(param, oldWidth, oldHeight, b);
      r.Ok? &&
      (PadsVertically(param, oldWidth, oldHeight) ==>
        r.value.xmin == Max(0.0, b.xmin) && r.value.xmax == Min(1.0, b.xmax)) &&
      (!PadsVertically(param, oldWidth, oldHeight) ==>
        r.value.ymin == Max(0.0, b.ymin) && r.value.ymax == Min(1.0, b.ymax))
  {
    ScaledEdgesClamp(b.xmin, oldWidth as real, param.width as real);
    ScaledEdgesClamp(b.xmax, oldWidth as real, param.width as real);
    ScaledEdgesClamp(b.ymin, oldHeight as real, param.height as real);
    ScaledEdgesClamp(b.ymax, oldHeight as real, param.height as real);
  }

  /** As written, a max coordinate past the image on the padded axis is clamped
      only at the far edge of the canvas after the padding is added, so it can
      leave [0, 1]: a 200 x 100 input padded into 100 x 100 with ymax 1.8 gives
      (25 + 90) / 100. */
  lemma PaddedMaxLeavesUnitRange()
    ensures var param := ResizeParam(FitLargeSizeAndPad, 100, 100, Constant, [], []);
      var r := UpdatedBBox(param, 200, 100, Box(0.0, 0.0, 1.0, 1.8));
      PadsVertically(param, 200, 100) && BoxPadding(param, 200, 100) == 25.0 &&
      r.Ok? && r.value.ymax == 1.15 && r.value.ymax > 1.0
  {
    var param := ResizeParam(FitLargeSizeAndPad, 100, 100, Constant, [], []);
    assert Aspect(200, 100) == 2.0;
    assert BoxPadding(param, 200, 100) == 25.0;
    assert 1.8 * 100.0 * 50.0 / 100.0 == 90.0;
  }

  /** With the corrected clamp, the padded axis's max coordinate never passes the
      far edge of the image content, so it stays within [0, 1 - padding / dim];
      on boxes whose max coordinates do not exceed 1 the correction changes nothing. */
  lemma CorrectedPaddedMaxInsideContent(c: real, oldDim: real, newDim: real, padding: real)
    requires oldDim > 0.0 && newDim > 0.0 && 0.0 <= padding && 0.0 < newDim - 2.0 * padding
    ensures PaddedMaxCorrected(c, oldDim, newDim, padding) <= 1.0 - padding / newDim <= 1.0
    ensures c <= 1.0 ==> PaddedMaxCorrected(c, oldDim, newDim, padding) == PaddedMax(c, oldDim, newDim, padding)
  {
    var inner := newDim - 2.0 * padding;
    var m := Min(inner, Rescale(c * oldDim, inner, oldDim));
    DivideMonotone(padding + m, newDim - padding, newDim);
    FarEdge(padding, newDim);
    MulNonNegative(padding, 1.0 / newDim);
    if c <= 1.0 {
      ScaleCancel(c, oldDim, inner);
      if c >= 0.0 { MulNonNegative(1.0 - c, inner); } else { MulNonNegative(-c, inner); }
    }
  }

  /** The corrected remap keeps every max coordinate at most 1, and agrees with
      the remap as written on boxes whose max coordinates are at most 1. */
  lemma CorrectedBBoxMaxWithinUnit(param: ResizeParam, oldWidth: int, oldHeight: int, b: Box)
    requires ValidSizes(param, oldWidth, oldHeight) && param.mode != UnknownResizeMode
    ensures var r := CorrectedBBox(param, oldWidth, oldHeight, b);
      r.Ok? && r.value.xmax <= 1.0 && r.value.ymax <= 1.0
    ensures b.xmax <= 1.0 && b.ymax <= 1.0 ==>
      CorrectedBBox(param, oldWidth, oldHeight, b) == UpdatedBBox(param, oldWidth, oldHeight, b)
  {
    var ow, oh := oldWidth as real, oldHeight as real;
    var nw, nh := param.width as real, param.height as real;
    if param.mode == FitLargeSizeAndPad {
      FitLargeSizeAndPadClampsOtherAxis(param, oldWidth, oldHeight, b);
      BoxPaddingBounds(param, oldWidth, oldHeight);
      var p := BoxPadding(param, oldWidth, oldHeight);
      if PadsVertically(param, oldWidth, oldHeight) {
        CorrectedPaddedMaxInsideContent(b.ymax, oh, nh, p);
      } else {
        CorrectedPaddedMaxInsideContent(b.xmax, ow, nw, p);
      }
    } else {
      WarpAndFitSmallSizeOnlyClamp(param, oldWidth, oldHeight, b);
    }
  }

  // ---------------------------------------------------------------------
  // Pixel sizes of the aspect-keeping resizes

  /** The output of `AspectKeepingResizeAndPad`: the resized content and the
      border added on each side to reach the configured size. */
  datatype Layout = Layout(contentWidth: int, contentHeight: int,
                           top: int, bottom: int, left: int, right: int)

  /** FIT_LARGE_SIZE_AND_PAD in pixels: the input is scaled so that it fits, the
      short side is truncated, and the remainder is split into a floored first
      border and the rest. */
  function PadLayout(inWidth: int, inHeight: int, newWidth: int, newHeight: int): Layout
    requires inWidth > 0 && inHeight > 0 && newWidth > 0 && newHeight > 0
  {
    var origAspect := Aspect(inWidth, inHeight);
    if origAspect > Aspect(newWidth, newHeight) then
      var height := (newWidth as real / origAspect).Floor;
      var padding := ((newHeight - height) as real / 2.0).Floor;
      Layout(newWidth, height, padding, newHeight - height - padding, 0, 0)
    else
      var width := (origAspect * newHeight as real).Floor;
      var padding := ((newWidth - width) as real / 2.0).Floor;
      Layout(width, newHeight, 0, 0, padding, newWidth - width - padding)
  }

  /** The content of FIT_LARGE_SIZE_AND_PAD fits the configured size: it keeps the
      configured extent on one axis, its other extent is the truncated aspect-kept
      extent, and the borders fill the rest exactly, split evenly with any odd
      pixel at the bottom or right. */
  lemma PadLayoutFits(inWidth: int, inHeight: int, newWidth: int, newHeight: int)
    requires inWidth > 0 && inHeight > 0 && newWidth > 0 && newHeight > 0
    ensures var l := PadLayout(inWidth, inHeight, newWidth, newHeight);
      l.contentWidth + l.left + l.right == newWidth &&
      l.contentHeight + l.top + l.bottom == newHeight &&
      0 <= l.contentWidth <= newWidth && 0 <= l.contentHeight <= newHeight &&
      0 <= l.top <= l.bottom <= l.top + 1 && 0 <= l.left <= l.right <= l.left + 1 &&
      ((l.top == 0 && l.bottom == 0) || (l.left == 0 && l.right == 0))
    ensures var l := PadLayout(inWidth, inHeight, newWidth, newHeight);
      Aspect(inWidth, inHeight) > Aspect(newWidth, newHeight) ==>
        l.contentWidth == newWidth &&
        l.contentHeight as real <= newWidth as real / Aspect(inWidth, inHeight) < l.contentHeight as real + 1.0
    ensures var l := PadLayout(inWidth, inHeight, newWidth, newHeight);
      Aspect(inWidth, inHeight) <= Aspect(newWidth, newHeight) ==>
        l.contentHeight == newHeight &&
        l.contentWidth as real <= Aspect(inWidth, inHeight) * newHeight as real < l.contentWidth as real + 1.0
  {
    var nw, nh := newWidth as real, newHeight as real;
    var origAspect := Aspect(inWidth, inHeight);
    PositiveQuotients(nw, origAspect, nh);
    if origAspect > Aspect(newWidth, newHeight) {
      DivideBounds(origAspect, nw, nh);
      DivideBounds(nh, nw, origAspect);
    } else {
      DivideBounds(origAspect, nw, nh);
    }
  }

  /** The border FIT_LARGE_SIZE_AND_PAD adds before the content, and the padding
      the box remap assumes, differ by at most half a pixel. */
  lemma PaddingAgreement(param: ResizeParam, oldWidth: int, oldHeight: int)
    requires ValidSizes(param, oldWidth, oldHeight)
    ensures var l := PadLayout(oldWidth, oldHeight, param.width, param.height);
      var first := if PadsVertically(param, oldWidth, oldHeight) then l.top else l.left;
      BoxPadding(param, oldWidth, oldHeight) - 0.5 <= first as real < BoxPadding(param, oldWidth, oldHeight) + 0.5
  {
    PadLayoutFits(oldWidth, oldHeight, param.width, param.height);
  }

  /** `AspectKeepingResizeBySmall`: the pixel size of FIT_SMALL_SIZE. */
  function SmallSideSize(inWidth: int, inHeight: int, newWidth: int, newHeight: int): Size
    requires inWidth > 0 && inHeight > 0 && newWidth > 0 && newHeight > 0
  {
    var origAspect := Aspect(inWidth, inHeight);
    if origAspect < Aspect(newWidth, newHeight) then
      Size(newWidth, (newWidth as real / origAspect).Floor)
    else
      Size((origAspect * newHeight as real).Floor, newHeight)
  }

  /** The image resize and the size inference agree for every mode: the
      aspect-keeping resizes produce exactly the size `InferNewSize` predicts. */
  lemma ResizedSizeIsInferred(param: ResizeParam, oldWidth: int, oldHeight: int)
    requires ValidSizes(param, oldWidth, oldHeight) && param.mode != UnknownResizeMode
    ensures var l := PadLayout(oldWidth, oldHeight, param.width, param.height);
      InferNewSize(param, oldWidth, oldHeight).Ok? &&
      (param.mode == FitSmallSize ==>
        InferNewSize(param, oldWidth, oldHeight).value == SmallSideSize(oldWidth, oldHeight, param.width, param.height)) &&
      (param.mode == FitLargeSizeAndPad ==>
        InferNewSize(param, oldWidth, oldHeight).value
          == Size(l.contentWidth + l.left + l.right, l.contentHeight + l.top + l.bottom))
  {
    PadLayoutFits(oldWidth, oldHeight, param.width, param.height);
  }

  // ---------------------------------------------------------------------
  // ApplyResize

  /** `cv::Scalar`: the first three channel values. */
  datatype Scalar = Scalar(v0: real, v1: real, v2: real)

  /** The pad value of `ApplyResize`: zero when none is configured; otherwise the
      configured values, replicated when there is one, of which the first three
      are read. Reading three entries requires three channels once the count is
      accepted. */
  function PadValue(values: seq<real>, channels: nat): (r: Result<Scalar>)
    requires channels > 0
    requires |values| > 0 && CountAccepted(values, channels) ==> channels >= 3
    ensures r.Err? <==> !CountAccepted(values, channels)
    ensures r.Ok? && |values| == 0 ==> r.value == Scalar(0.0, 0.0, 0.0)
    ensures r.Ok? && |values| == 1 ==> r.value == Scalar(values[0], values[0], values[0])
    ensures r.Ok? && |values| > 1 ==> r.value == Scalar(values[0], values[1], values[2])
  {
    if |values| == 0 then Ok(Scalar(0.0, 0.0, 0.0))
    else
      match FillValues.FillValues(values, channels)
      case Err(e) => Err(e)
      case Ok(v) => Ok(Scalar(v[0], v[1], v[2]))
  }

  /** What `ApplyResize` hands to OpenCV: the output size, the interpolation and
      the border it resizes and pads with; or the empty image an unknown resize
      mode leaves behind. */
  datatype Resized =
    | Resized(width: int, height: int, interp: InterpMode, border: BorderMode, padValue: Scalar)
    | EmptyImage

  /** `m` is the configured mode on the face of the uniform die over `modes`
      that the draw `t` selects: the face i with `t * n` in (i, i + 1], face 0
      also taking the draw 0. */
  predicate UniformPick(modes: seq<InterpMode>, t: real, m: InterpMode)
  {
    exists i :: 0 <= i < |modes| && m == modes[i] &&
      t * |modes| as real <= (i + 1) as real && (i == 0 || (i as real) < t * |modes| as real)
  }

  /** The interpolation of `ApplyResize`: linear when none is configured, otherwise
      the configured mode a uniform die over them selects with the draw `t`. */
  function ChooseInterp(modes: seq<InterpMode>, t: real): (m: InterpMode)
    requires 0.0 <= t <= 1.0
    ensures |modes| == 0 ==> m == Linear
    ensures |modes| > 0 ==> m in modes && UniformPick(modes, t, m)
  {
    if |modes| == 0 then Linear
    else
      UniformChoice(|modes|, t);
      modes[Roll(UniformWeights(|modes|), t)]
  }

  /** `ApplyResize` on an `inWidth` x `inHeight` image with `channels` channels and
      the unit draw `t` for the interpolation die. The fatal checks run in the
      source's order: pad mode, interpolation mode, pad-value count. */
  function ApplyResize(param: ResizeParam, inWidth: int, inHeight: int, channels: nat, t: real): Result<Resized>
    requires ValidSizes(param, inWidth, inHeight) && channels > 0 && 0.0 <= t <= 1.0
    requires |param.padValues| > 0 && CountAccepted(param.padValues, channels) ==> channels >= 3
  {
    match BorderFor(param.padMode)
    case Err(e) => Err(e)
    case Ok(border) =>
      var interp := ChooseInterp(param.interpModes, t);
      if interp == UnknownInterpMode then Err(InterpModeUnknown)
      else
        match PadValue(param.padValues, channels)
        case Err(e) => Err(e)
        case Ok(padValue) =>
          match param.mode
          case Warp => Ok(Resized(param.width, param.height, interp, border, padValue))
          case FitLargeSizeAndPad =>
            var l := PadLayout(inWidth, inHeight, param.width, param.height);
            if EmptyContent(l) then Err(EmptyResize)
            else Ok(Resized(l.contentWidth + l.left + l.right, l.contentHeight + l.top + l.bottom,
                       interp, border, padValue))
          case FitSmallSize =>
            var sz := SmallSideSize(inWidth, inHeight, param.width, param.height);
            Ok(Resized(sz.width, sz.height, interp, border, padValue))
          case UnknownResizeMode => Ok(EmptyImage)
  }

  /** The content of FIT_LARGE_SIZE_AND_PAD truncated to no pixels on one axis,
      which `cv::resize` refuses. */
  predicate EmptyContent(l: Layout)
  {
    l.contentWidth == 0 || l.contentHeight == 0
  }

  /** `ApplyResize` fails exactly on an unknown pad mode, an unknown interpolation
      mode drawn, a rejected pad-value count, or padded content truncated to no
      pixels; an unknown resize mode is not fatal and yields the empty image;
      otherwise the image has the size `InferNewSize` predicts and is resized
      with the configured interpolation the uniform die selects. */
  lemma ApplyResizeOutcome(param: ResizeParam, inWidth: int, inHeight: int, channels: nat, t: real)
    requires ValidSizes(param, inWidth, inHeight) && channels > 0 && 0.0 <= t <= 1.0
    requires |param.padValues| > 0 && CountAccepted(param.padValues, channels) ==> channels >= 3
    ensures var r := ApplyResize(param, inWidth, inHeight, channels, t);
      r.Err? <==> (param.padMode == UnknownPadMode ||
                   ChooseInterp(param.interpModes, t) == UnknownInterpMode ||
                   !CountAccepted(param.padValues, channels) ||
                   (param.mode == FitLargeSizeAndPad && EmptyContent(PadLayout(inWidth, inHeight, param.width, param.height))))
    ensures var r := ApplyResize(param, inWidth, inHeight, channels, t);
      r.Ok? ==> (r.value.EmptyImage? <==> param.mode == UnknownResizeMode)
    ensures var r := ApplyResize(param, inWidth, inHeight, channels, t);
      r.Ok? && r.value.Resized? ==>
        Ok(Size(r.value.width, r.value.height)) == InferNewSize(param, inWidth, inHeight) &&
        (if |param.interpModes| == 0 then r.value.interp == Linear
         else UniformPick(param.interpModes, t, r.value.interp)) &&
        Ok(r.value.border) == BorderFor(param.padMode) &&
        Ok(r.value.padValue) == PadValue(param.padValues, channels)
  {
    if param.mode != UnknownResizeMode {
      ResizedSizeIsInferred(param, inWidth, inHeight);
    }
  }

  /** An input far wider than the configured size is scaled to a content
      height of `floor(10 / 1000) = 0` rows, and the resize fails. */
  lemma ThinInputCannotBePadded()
    ensures ApplyResize(ResizeParam(FitLargeSizeAndPad, 10, 10, Constant, [], []), 1000, 1, 3, 0.0) == Err(EmptyResize)
  {
    assert Aspect(1000, 1) == 1000.0;
    assert (10.0 / 1000.0).Floor == 0;
  }
}
