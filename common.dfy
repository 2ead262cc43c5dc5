/** Types shared by the image-transform model: bytes, error results, clamping
    and the scaling of a unit random draw onto an interval. */
module Common {

  /** One 8-bit channel value (`uchar`). */
  newtype byte = x: int | 0 <= x < 256

  /** The `LOG(FATAL)` and `CHECK` failures of the transforms, as values. */
  datatype Error =
    | ResizeModeUnknown
    | PadModeUnknown
    | InterpModeUnknown
    | FillValueCount     // neither one value nor one value per channel
    | RoiOutsideImage    // an OpenCV region of interest leaves the image
    | BadRange           // a CHECK on a distortion parameter, or a uniform draw whose lower end exceeds its upper end
    | NotThreeChannels   // the channel shuffle splits an image without three channels
    | NotColourImage     // a BGR-to-HSV conversion of an image with neither 3 nor 4 channels
    | EmptyResize        // `cv::resize` to a size with no pixels

  datatype Result<T> = Ok(value: T) | Err(error: Error)

  /** The pad-mode enumeration of the resize and the geometry parameters; the
      last value stands for any number outside the enumeration. */
  datatype PadMode = Constant | Mirrored | RepeatNearest | UnknownPadMode

  /** The OpenCV border kinds the pad modes select. */
  datatype BorderMode = BorderConstant | BorderReflect101 | BorderReplicate

  /** The pad-mode switch: an unknown mode is fatal. */
  function BorderFor(m: PadMode): (r: Result<BorderMode>)
    ensures r.Err? <==> m == UnknownPadMode
    ensures m == Constant ==> r == Ok(BorderConstant)
    ensures m == Mirrored ==> r == Ok(BorderReflect101)
    ensures m == RepeatNearest ==> r == Ok(BorderReplicate)
    ensures r.Err? ==> r.error == PadModeUnknown
  {
    match m
    case Constant => Ok(BorderConstant)
    case Mirrored => Ok(BorderReflect101)
    case RepeatNearest => Ok(BorderReplicate)
    case UnknownPadMode => Err(PadModeUnknown)
  }

  /** `std::max` on floats. */
  function Max(a: real, b: real): real { if a < b then b else a }

  /** `std::min` on floats. */
  function Min(a: real, b: real): real { if b < a then b else a }

  /** `caffe_rng_uniform(1, lo, hi, &x)`: the unit draw `t` placed on [lo, hi]. */
  function Uniform(lo: real, hi: real, t: real): real { lo + t * (hi - lo) }

  /** Every supplied uniform draw is a unit value. */
  predicate UnitDraws(u: seq<real>) { forall k :: 0 <= k < |u| ==> 0.0 <= u[k] <= 1.0 }

  lemma UniformWithin(lo: real, hi: real, t: real)
    requires lo <= hi && 0.0 <= t <= 1.0
    ensures lo <= Uniform(lo, hi, t) <= hi
  {
    MulNonNegative(t, hi - lo);
    MulNonNegative(1.0 - t, hi - lo);
    assert (1.0 - t) * (hi - lo) == (hi - lo) - t * (hi - lo);
  }

  lemma MulNonNegative(a: real, b: real)
    requires a >= 0.0 && b >= 0.0
    ensures a * b >= 0.0
  {
  }

  lemma DivideBounds(a: real, b: real, n: real)
    requires n > 0.0
    ensures a <= b / n <==> a * n <= b
    ensures b / n < a <==> b < a * n
  {
    assert (b / n) * n == b;
    if a <= b / n {
      MulNonNegative(b / n - a, n);
    }
    if a * n <= b {
      MulNonNegative(b - a * n, 1.0 / n);
      assert (b - a * n) * (1.0 / n) == b / n - a;
    }
  }

  lemma MulCancel(z: real, w: real, n: real)
    requires n != 0.0 && z * n == w * n
    ensures z == w
  {
    assert (z - w) * n == 0.0;
  }

  lemma SubDistrib(x: real, y: real, n: real)
    ensures (x - y) * n == x * n - y * n
  {
  }

  lemma DivTimes(a: real, n: real)
    requires n != 0.0
    ensures (a / n) * n == a
  {
  }

  lemma TimesDiv(a: real, n: real)
    requires n != 0.0
    ensures (a * n) / n == a
  {
    DivTimes(a * n, n);
    MulCancel((a * n) / n, a, n);
  }

  lemma DivSub(a: real, b: real, n: real)
    requires n != 0.0
    ensures (a - b) / n == a / n - b / n
  {
    var x, y, z := a / n, b / n, (a - b) / n;
    DivTimes(a, n);
    DivTimes(b, n);
    DivTimes(a - b, n);
    SubDistrib(x, y, n);
    MulCancel(z, x - y, n);
  }
}
