/**
 * Shared layout constants and unit conversions of the application
 * (common/CommonExtensions.kt), modelled over exact reals.
 *
 * Kotlin computes these with 32-bit floats; here every quantity is a `real`,
 * so 0.5625 is exactly 9/16 and no rounding error is modelled.
 */
module Sizing {

  /** Height / width of a 16:9 video. */
  const WideScreenProportion: real := 0.5625

  /** Starting (and smallest) side of every container size search. */
  const MinContainerSize: real := 10.0

  /** Largest value of a Kotlin `Int`; `Float.toInt()` saturates to it. */
  const IntMax: int := 0x7fff_ffff

  /** A size in whole pixels, as assigned to `LayoutParams.width/height`. */
  datatype PixelSize = PixelSize(width: int, height: int)

  /** `n.dp`: `n` density-independent pixels in screen pixels, plus the 0.5 the app adds for rounding. */
  function Dp(n: int, density: real): real
  {
    n as real * density + 0.5
  }

  /** The elements of the inclusive Kotlin range `first..last`. */
  function IntRange(first: int, last: int): (r: seq<int>)
    ensures |r| == if last < first then 0 else last - first + 1
    ensures forall i :: 0 <= i < |r| ==> r[i] == first + i
    decreases last - first
  {
    if last < first then [] else [first] + IntRange(first + 1, last)
  }

  /** `(0..3).count()`: how many layout passes follow a geometry change. */
  function MeasureRepeatCount(): nat
  {
    |IntRange(0, 3)|
  }

  /** Kotlin's `Float.roundToInt()`: nearest integer, halves rounded up. */
  function Round(x: real): (r: int)
    ensures r as real - 0.5 <= x < r as real + 0.5
  {
    (x + 0.5).Floor
  }

  /** `Float.toInt()` of a non-negative finite value: truncation toward zero. */
  function Truncate(x: real): (r: int)
    requires x >= 0.0
    ensures 0 <= r && r as real <= x < r as real + 1.0
  {
    x.Floor
  }

  lemma WideScreenIsNineSixteenths()
    ensures WideScreenProportion == 9.0 / 16.0
    ensures 16.0 * WideScreenProportion == 9.0
  {
  }

  lemma MeasureRepeatCountIsFour()
    ensures MeasureRepeatCount() == 4
  {
  }

  /** For a positive density `n.dp` grows strictly with `n`. */
  lemma {:induction false} DpStrictlyIncreasing(m: int, n: int, density: real)
    requires density > 0.0 && m < n
    ensures Dp(m, density) < Dp(n, density)
  {
    assert (n - m) as real * density > 0.0;
    assert n as real * density == m as real * density + (n - m) as real * density;
  }

  /** The three gutters the layouts use are ordered: `8.dp < 16.dp < 24.dp`. */
  lemma GuttersOrdered(density: real)
    requires density > 0.0
    ensures 0.5 < Dp(8, density) < Dp(16, density) < Dp(24, density)
  {
    DpStrictlyIncreasing(0, 8, density);
    DpStrictlyIncreasing(8, 16, density);
    DpStrictlyIncreasing(16, 24, density);
  }

  /** Rounding a whole number of pixels gives that number back. */
  lemma RoundWhole(n: int)
    ensures Round(n as real) == n
  {
  }
}
