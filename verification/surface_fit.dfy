/**
 * `calculateSurfaceSize` (common/ViewExtensions.kt): the size a player's
 * texture view takes inside its card so that the video covers the card
 * ("zoom to fit"), cropping whatever overflows.
 *
 * The app computes with 32-bit Kotlin floats. Here a float is either an exact
 * non-negative real, positive infinity or NaN: the values that can arise from
 * non-negative sizes, since a zero video dimension divides by zero.
 * `Float.toInt()` sends NaN to 0 and saturates at `Int.MAX_VALUE`.
 */
module SurfaceFit {
  import opened Sizing

  /** A non-negative Kotlin float: exact, `+Infinity` or `NaN`. */
  datatype Float = Finite(value: real) | Infinity | NaN

  /** Every float the computation meets is non-negative. */
  predicate NonNegative(f: Float)
  {
    f.Finite? ==> f.value >= 0.0
  }

  /** A pixel count as a float. */
  function FromInt(n: nat): (r: Float)
    ensures NonNegative(r)
  {
    Finite(n as real)
  }

  /** IEEE 754 division of non-negative floats. */
  function Div(a: Float, b: Float): (r: Float)
    requires NonNegative(a) && NonNegative(b)
    ensures NonNegative(r)
    ensures r.NaN? <==> (a.NaN? || b.NaN? || (a == Finite(0.0) && b == Finite(0.0)) || (a.Infinity? && b.Infinity?))
    ensures r.Infinity? <==> ((a.Infinity? && b.Finite?) || (a.Finite? && a.value > 0.0 && b == Finite(0.0)))
  {
    match (a, b)
    case (NaN, _) => NaN
    case (_, NaN) => NaN
    case (Infinity, Infinity) => NaN
    case (Infinity, Finite(_)) => Infinity
    case (Finite(_), Infinity) => Finite(0.0)
    case (Finite(x), Finite(y)) =>
      if y != 0.0 then Finite(x / y) else if x == 0.0 then NaN else Infinity
  }

  /** IEEE 754 multiplication of non-negative floats. */
  function Mul(a: Float, b: Float): (r: Float)
    requires NonNegative(a) && NonNegative(b)
    ensures NonNegative(r)
    ensures r.NaN? <==> (a.NaN? || b.NaN? || (a == Finite(0.0) && b.Infinity?) || (a.Infinity? && b == Finite(0.0)))
    ensures r.Infinity? <==> ((a.Infinity? || b.Infinity?) && !r.NaN?)
  {
    match (a, b)
    case (NaN, _) => NaN
    case (_, NaN) => NaN
    case (Infinity, Infinity) => Infinity
    case (Infinity, Finite(y)) => if y == 0.0 then NaN else Infinity
    case (Finite(x), Infinity) => if x == 0.0 then NaN else Infinity
    case (Finite(x), Finite(y)) => Finite(x * y)
  }

  /** `Float.toInt()` on a non-negative float. */
  function ToInt(f: Float): (r: int)
    requires NonNegative(f)
    ensures 0 <= r <= IntMax
    ensures f.NaN? ==> r == 0
    ensures f.Infinity? ==> r == IntMax
    ensures f.Finite? && f.value < IntMax as real ==> r as real <= f.value < r as real + 1.0
    ensures f.Finite? && f.value >= IntMax as real ==> r == IntMax
  {
    match f
    case NaN => 0
    case Infinity => IntMax
    case Finite(x) => if x >= IntMax as real then IntMax else Truncate(x)
  }

  /** `toInt()` of a whole-number quotient: integer division saturated at `Int.MAX_VALUE`. */
  function Saturate(n: int): (r: int)
    ensures r <= IntMax
    ensures r == n || (r == IntMax && n >= IntMax)
  {
    if n >= IntMax then IntMax else n
  }

  /** A Kotlin `Int` that measures something: non-negative. */
  type Pixels = n: nat | n <= IntMax

  /**
   * `calculateSurfaceSize(surfaceWidth, surfaceHeight, videoWidth, videoHeight)`:
   * the video scaled to the card's height if that is at least as wide as the
   * card, otherwise scaled to the card's width.
   */
  function SurfaceSize(surfaceWidth: Pixels, surfaceHeight: Pixels, videoWidth: nat, videoHeight: nat): (r: PixelSize)
    ensures 0 <= r.width <= IntMax && 0 <= r.height <= IntMax
    ensures r.height == surfaceHeight || r.width == surfaceWidth
    ensures r.width >= surfaceWidth
  {
    var ratioHeight := Div(FromInt(videoHeight), FromInt(videoWidth));
    var ratioWidth := Div(FromInt(videoWidth), FromInt(videoHeight));
    var isPortrait := videoWidth < videoHeight;
    var calculatedHeight :=
      if isPortrait then ToInt(Div(FromInt(surfaceWidth), ratioWidth))
      else ToInt(Mul(FromInt(surfaceWidth), ratioHeight));
    var calculatedWidth :=
      if isPortrait then ToInt(Div(FromInt(surfaceHeight), ratioHeight))
      else ToInt(Mul(FromInt(surfaceHeight), ratioWidth));
    if calculatedWidth >= surfaceWidth then PixelSize(calculatedWidth, surfaceHeight)
    else PixelSize(surfaceWidth, calculatedHeight)
  }

  /** Whole-number reference: the same choice made with integer division only. */
  function SurfaceSizeByDivision(surfaceWidth: Pixels, surfaceHeight: Pixels, videoWidth: nat, videoHeight: nat): PixelSize
    requires videoWidth > 0 && videoHeight > 0
  {
    var calculatedWidth := Saturate(surfaceHeight * videoWidth / videoHeight);
    var calculatedHeight := Saturate(surfaceWidth * videoHeight / videoWidth);
    if calculatedWidth >= surfaceWidth then PixelSize(calculatedWidth, surfaceHeight)
    else PixelSize(surfaceWidth, calculatedHeight)
  }

  /** Truncating `a * b / c` computed as a real agrees with integer division. */
  lemma TruncatedQuotient(a: nat, b: nat, c: nat)
    requires c > 0
    ensures ToInt(Finite(a as real * b as real / c as real)) == Saturate(a * b / c)
  {
    var q := a * b / c;
    var x := a as real * b as real / c as real;
    assert a * b == q * c + a * b % c;
    assert (a * b) as real == a as real * b as real;
    assert x == q as real + (a * b % c) as real / c as real;
    assert q as real <= x < q as real + 1.0;
  }

  /** Both branches of `isPortrait` compute `side * other / this` exactly. */
  lemma {:induction false} QuotientsWhenPositive(sw: nat, sh: nat, vw: nat, vh: nat)
    requires vw > 0 && vh > 0
    ensures Div(FromInt(sw), Div(FromInt(vw), FromInt(vh))) == Finite(sw as real * vh as real / vw as real)
    ensures Mul(FromInt(sw), Div(FromInt(vh), FromInt(vw))) == Finite(sw as real * vh as real / vw as real)
    ensures Div(FromInt(sh), Div(FromInt(vh), FromInt(vw))) == Finite(sh as real * vw as real / vh as real)
    ensures Mul(FromInt(sh), Div(FromInt(vw), FromInt(vh))) == Finite(sh as real * vw as real / vh as real)
  {
    var w, h := vw as real, vh as real;
    assert sw as real / (w / h) == sw as real * h / w;
    assert sh as real / (h / w) == sh as real * w / h;
  }

  /** For a real video size the float computation equals the integer-division reference. */
  lemma SurfaceSizeMatchesDivision(sw: Pixels, sh: Pixels, vw: nat, vh: nat)
    requires vw > 0 && vh > 0
    ensures SurfaceSize(sw, sh, vw, vh) == SurfaceSizeByDivision(sw, sh, vw, vh)
  {
    QuotientsWhenPositive(sw, sh, vw, vh);
    TruncatedQuotient(sh, vw, vh);
    TruncatedQuotient(sw, vh, vw);
  }

  /** The quotient of integer division brackets the dividend. */
  lemma DivisionBrackets(n: nat, d: nat)
    requires d > 0
    ensures (n / d) * d <= n < (n / d + 1) * d
  {
    assert n == (n / d) * d + n % d;
  }

  lemma MulMonotone(a: nat, b: nat, c: nat)
    requires a <= b
    ensures a * c <= b * c
  {
    assert b * c == a * c + (b - a) * c;
  }

  lemma MulCancelLess(a: nat, b: nat, c: nat)
    requires c > 0 && a * c < b * c
    ensures a < b
  {
    if b <= a {
      MulMonotone(b, a, c);
    }
  }

  /** The reference covers the card: neither side is smaller than the card's. */
  lemma DivisionCoversCard(sw: Pixels, sh: Pixels, vw: nat, vh: nat)
    requires vw > 0 && vh > 0
    ensures SurfaceSizeByDivision(sw, sh, vw, vh).width >= sw
    ensures SurfaceSizeByDivision(sw, sh, vw, vh).height >= sh
  {
    var cw := sh * vw / vh;
    var ch := sw * vh / vw;
    if Saturate(cw) < sw {
      DivisionBrackets(sh * vw, vh);
      MulMonotone(cw + 1, sw, vh);
      DivisionBrackets(sw * vh, vw);
      MulCancelLess(sh, ch + 1, vw);
    }
  }

  /** Zoom to fit covers the card: neither side of the result is smaller than the card's. */
  lemma SurfaceCoversCard(sw: Pixels, sh: Pixels, vw: nat, vh: nat)
    requires vw > 0 && vh > 0
    ensures SurfaceSize(sw, sh, vw, vh).width >= sw
    ensures SurfaceSize(sw, sh, vw, vh).height >= sh
  {
    SurfaceSizeMatchesDivision(sw, sh, vw, vh);
    DivisionCoversCard(sw, sh, vw, vh);
  }

  /** The reference keeps the video's aspect to within one pixel below saturation. */
  lemma DivisionKeepsAspect(sw: Pixels, sh: Pixels, vw: nat, vh: nat)
    requires vw > 0 && vh > 0
    requires sh * vw / vh < IntMax && sw * vh / vw < IntMax
    ensures var r := SurfaceSizeByDivision(sw, sh, vw, vh);
      || (r.height == sh && r.width * vh <= r.height * vw < (r.width + 1) * vh)
      || (r.width == sw && r.height * vw <= r.width * vh < (r.height + 1) * vw)
  {
    DivisionBrackets(sh * vw, vh);
    DivisionBrackets(sw * vh, vw);
  }

  /**
   * Below saturation the scaled side keeps the video's aspect to within one
   * pixel: `width : height` is `videoWidth : videoHeight` up to truncation.
   */
  lemma SurfaceKeepsAspect(sw: Pixels, sh: Pixels, vw: nat, vh: nat)
    requires vw > 0 && vh > 0
    requires sh * vw / vh < IntMax && sw * vh / vw < IntMax
    ensures var r := SurfaceSize(sw, sh, vw, vh);
      || (r.height == sh && r.width * vh <= r.height * vw < (r.width + 1) * vh)
      || (r.width == sw && r.height * vw <= r.width * vh < (r.height + 1) * vw)
  {
    SurfaceSizeMatchesDivision(sw, sh, vw, vh);
    DivisionKeepsAspect(sw, sh, vw, vh);
  }

  /** A video with no width: the height, and then the surface, are degenerate. */
  lemma ZeroWidthVideo(sw: Pixels, sh: Pixels, vh: nat)
    requires vh > 0
    ensures SurfaceSize(sw, sh, 0, vh) == if sw == 0 then PixelSize(0, sh) else PixelSize(sw, IntMax)
  {
  }

  /** A video with no height: the width saturates unless the card has no height either. */
  lemma ZeroHeightVideo(sw: Pixels, sh: Pixels, vw: nat)
    requires vw > 0
    ensures SurfaceSize(sw, sh, vw, 0) ==
      if sh > 0 then PixelSize(IntMax, sh) else if sw == 0 then PixelSize(0, 0) else PixelSize(sw, 0)
  {
  }

  /** Before the decoder reports a size (0 x 0), the view keeps the card's width and no height. */
  lemma EmptyVideo(sw: Pixels, sh: Pixels)
    ensures SurfaceSize(sw, sh, 0, 0) == if sw == 0 then PixelSize(0, sh) else PixelSize(sw, 0)
  {
  }
}
