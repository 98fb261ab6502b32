/**
 * Geometry of the third layout (`ThirdLayoutFragment.updateViewDimensions`):
 * a large 16:9 stream and a small inset.
 *
 * Landscape grows the large stream up to 78% of the width less 24dp, then
 * grows the small one (taller than wide, height = width / (9/16)) in the
 * width that is left. Portrait places the large stream across the width and
 * sizes the small one from a third of the height.
 */
module InsetLayout {
  import opened Sizing

  /** `SMALL_VIDEO_ANCHOR`: the share of the usable width the large stream may take. */
  const SmallVideoAnchor: real := 0.78

  /** `SMALL_VIDEO_SCALE_FACTOR`: in portrait the small stream is a third of the screen height. */
  const SmallVideoScaleFactor: real := 3.0

  datatype StreamSize = StreamSize(width: real, height: real)

  /** The height the loop body derives from a width: `w * 9/16`, or `w / (9/16)` for the inset. */
  function HeightFor(width: real, inverse: bool): real
  {
    if inverse then width / WideScreenProportion else width * WideScreenProportion
  }

  /** The size after `k` iterations of a growth loop. */
  function SizeAfter(k: nat, inverse: bool): StreamSize
  {
    if k == 0 then StreamSize(MinContainerSize, MinContainerSize)
    else
      var width := MinContainerSize + k as real;
      StreamSize(width, HeightFor(width, inverse))
  }

  /** A growth loop guard. */
  predicate Grows(s: StreamSize, widthLimit: real, heightLimit: real)
  {
    s.width < widthLimit && s.height < heightLimit
  }

  /** A growth loop stops after exactly `k` iterations. */
  ghost predicate StopsAfter(k: nat, inverse: bool, widthLimit: real, heightLimit: real)
  {
    && !Grows(SizeAfter(k, inverse), widthLimit, heightLimit)
    && forall j :: 0 <= j < k ==> Grows(SizeAfter(j, inverse), widthLimit, heightLimit)
  }

  /** Either growth loop: widen by one pixel and recompute the height while the guard holds. */
  method Grow(widthLimit: real, heightLimit: real, inverse: bool) returns (s: StreamSize, steps: nat)
    ensures s == SizeAfter(steps, inverse) && StopsAfter(steps, inverse, widthLimit, heightLimit)
    ensures s.width >= widthLimit || s.height >= heightLimit
    ensures steps == 0 ==> s == StreamSize(MinContainerSize, MinContainerSize)
    ensures steps > 0 ==> s.width == MinContainerSize + steps as real && s.width - 1.0 < widthLimit
    ensures steps > 0 && !inverse ==> s.height * 16.0 == s.width * 9.0
    ensures steps > 0 && inverse ==> s.height * 9.0 == s.width * 16.0
  {
    s := StreamSize(MinContainerSize, MinContainerSize);
    steps := 0;
    while Grows(s, widthLimit, heightLimit)
      invariant s == SizeAfter(steps, inverse)
      invariant forall j :: 0 <= j < steps ==> Grows(SizeAfter(j, inverse), widthLimit, heightLimit)
      decreases (widthLimit - s.width).Floor
    {
      var width := s.width + 1.0;
      s := StreamSize(width, HeightFor(width, inverse));
      steps := steps + 1;
    }
    if steps > 0 {
      assert Grows(SizeAfter(steps - 1, inverse), widthLimit, heightLimit);
    }
  }

  /** The number of iterations is determined by the limits. */
  lemma StopsAfterUnique(k1: nat, k2: nat, inverse: bool, widthLimit: real, heightLimit: real)
    requires StopsAfter(k1, inverse, widthLimit, heightLimit) && StopsAfter(k2, inverse, widthLimit, heightLimit)
    ensures k1 == k2
  {
  }

  /** Looser limits never give fewer iterations, hence never a narrower stream. */
  lemma LooserLimitsWiderStream(k1: nat, k2: nat, inverse: bool, w1: real, h1: real, w2: real, h2: real)
    requires w1 <= w2 && h1 <= h2
    requires StopsAfter(k1, inverse, w1, h1) && StopsAfter(k2, inverse, w2, h2)
    ensures k1 <= k2 && SizeAfter(k1, inverse).width <= SizeAfter(k2, inverse).width
  {
  }

  /** The large stream's limits: 78% of the width less 24dp, the height less 8dp. */
  function LargeLimits(screenWidth: int, screenHeight: int, density: real): (real, real)
  {
    ((screenWidth as real - Dp(24, density)) * SmallVideoAnchor, screenHeight as real - Dp(8, density))
  }

  /** The small stream's limits, given the final large width: the width left less 24dp, the height less 8dp. */
  function SmallLimits(screenWidth: int, screenHeight: int, density: real, largeWidth: real): (real, real)
  {
    (screenWidth as real - largeWidth - Dp(24, density), screenHeight as real - Dp(8, density))
  }

  /** Portrait: large across the width less 16dp; small a third of the height tall. */
  function Portrait(screenWidth: int, screenHeight: int, density: real): (r: (StreamSize, StreamSize))
    ensures r.0.width + Dp(16, density) == screenWidth as real
    ensures r.0.height * 16.0 == r.0.width * 9.0
    ensures r.1.height * SmallVideoScaleFactor == screenHeight as real
    ensures r.1.width * 16.0 == r.1.height * 9.0
  {
    var largeWidth := screenWidth as real - Dp(16, density);
    var smallHeight := screenHeight as real / SmallVideoScaleFactor;
    (StreamSize(largeWidth, largeWidth * WideScreenProportion), StreamSize(smallHeight * WideScreenProportion, smallHeight))
  }

  /** `updateViewDimensions`: both landscape loops, the second bounded by the first's result. */
  method ThirdLayoutDimensions(screenWidth: int, screenHeight: int, density: real, isLandscape: bool)
    returns (large: StreamSize, small: StreamSize, largeSteps: nat, smallSteps: nat,
             streamA: PixelSize, streamB: PixelSize)
    ensures isLandscape ==>
      var (lw, lh) := LargeLimits(screenWidth, screenHeight, density);
      var (sw, sh) := SmallLimits(screenWidth, screenHeight, density, large.width);
      && large == SizeAfter(largeSteps, false) && StopsAfter(largeSteps, false, lw, lh)
      && small == SizeAfter(smallSteps, true) && StopsAfter(smallSteps, true, sw, sh)
      && (largeSteps > 0 ==> large.width < lw + 1.0)
    ensures !isLandscape ==> (large, small) == Portrait(screenWidth, screenHeight, density)
    ensures streamA == PixelSize(Round(large.width), Round(large.height))
    ensures streamB == PixelSize(Round(small.width), Round(small.height))
  {
    if isLandscape {
      var (lw, lh) := LargeLimits(screenWidth, screenHeight, density);
      large, largeSteps := Grow(lw, lh, false);
      var (sw, sh) := SmallLimits(screenWidth, screenHeight, density, large.width);
      small, smallSteps := Grow(sw, sh, true);
    } else {
      large, small := Portrait(screenWidth, screenHeight, density).0, Portrait(screenWidth, screenHeight, density).1;
      largeSteps, smallSteps := 0, 0;
    }
    streamA := PixelSize(Round(large.width), Round(large.height));
    streamB := PixelSize(Round(small.width), Round(small.height));
  }
}
