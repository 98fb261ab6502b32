/**
 * Geometry of the first layout (`FirstLayoutFragment.updateViewDimensions`):
 * a featured 16:9 stream and two secondary 16:9 streams of equal size.
 *
 * Landscape grows the featured width one pixel at a time, the secondary pair
 * stacked beside it with a gutter of 8dp between them; portrait places the
 * featured stream across the width and the pair side by side below it.
 */
module FeaturedLayout {
  import opened Sizing

  /** The four values the search keeps. */
  datatype FeaturedSizes = FeaturedSizes(largeWidth: real, largeHeight: real, smallWidth: real, smallHeight: real)

  /** Before the search, all four dimensions are the minimum container size. */
  function Initial(): FeaturedSizes
  {
    FeaturedSizes(MinContainerSize, MinContainerSize, MinContainerSize, MinContainerSize)
  }

  /** The four values after one loop body has set the featured width to `largeWidth`. */
  function Grown(largeWidth: real, density: real): FeaturedSizes
  {
    var largeHeight := largeWidth * WideScreenProportion;
    var smallHeight := (largeHeight - Dp(8, density)) / 2.0;
    FeaturedSizes(largeWidth, largeHeight, smallHeight / WideScreenProportion, smallHeight)
  }

  /** The four values after `k` loop iterations. */
  function SizesAfter(k: nat, density: real): FeaturedSizes
  {
    if k == 0 then Initial() else Grown(MinContainerSize + k as real, density)
  }

  /** The landscape loop guard: the row fits the width less 24dp, the featured height the height less 8dp. */
  predicate Grows(s: FeaturedSizes, screenWidth: int, screenHeight: int, density: real)
  {
    s.largeWidth + s.smallWidth < screenWidth as real - Dp(24, density)
    && s.largeHeight < screenHeight as real - Dp(8, density)
  }

  /** The landscape search stops after exactly `k` iterations. */
  ghost predicate StopsAfter(k: nat, screenWidth: int, screenHeight: int, density: real)
  {
    && !Grows(SizesAfter(k, density), screenWidth, screenHeight, density)
    && forall j :: 0 <= j < k ==> Grows(SizesAfter(j, density), screenWidth, screenHeight, density)
  }

  /** The landscape loop. */
  method GrowLandscape(screenWidth: int, screenHeight: int, density: real) returns (s: FeaturedSizes, steps: nat)
    ensures s == SizesAfter(steps, density) && StopsAfter(steps, screenWidth, screenHeight, density)
    ensures s.largeWidth + s.smallWidth >= screenWidth as real - Dp(24, density)
         || s.largeHeight >= screenHeight as real - Dp(8, density)
    ensures steps == 0 ==> s == Initial()
    ensures steps > 0 ==>
      && s.largeWidth == MinContainerSize + steps as real
      && s.largeHeight * 16.0 == s.largeWidth * 9.0
      && s.smallHeight * 2.0 + Dp(8, density) == s.largeHeight
      && s.smallHeight * 16.0 == s.smallWidth * 9.0
  {
    s := Initial();
    steps := 0;
    while Grows(s, screenWidth, screenHeight, density)
      invariant s == SizesAfter(steps, density)
      invariant forall j :: 0 <= j < steps ==> Grows(SizesAfter(j, density), screenWidth, screenHeight, density)
      decreases ((screenHeight as real - Dp(8, density)) / WideScreenProportion - s.largeWidth).Floor
    {
      var largeWidth := s.largeWidth + 1.0;
      var largeHeight := largeWidth * WideScreenProportion;
      var smallHeight := (largeHeight - Dp(8, density)) / 2.0;
      var smallWidth := smallHeight / WideScreenProportion;
      s := FeaturedSizes(largeWidth, largeHeight, smallWidth, smallHeight);
      steps := steps + 1;
    }
  }

  /** Portrait: the featured stream spans the width less 16dp; the pair splits it less an 8dp gutter. */
  function Portrait(screenWidth: int, density: real): (s: FeaturedSizes)
    ensures s.largeWidth + Dp(16, density) == screenWidth as real
    ensures 2.0 * s.smallWidth + Dp(8, density) == s.largeWidth
    ensures s.largeHeight * 16.0 == s.largeWidth * 9.0 && s.smallHeight * 16.0 == s.smallWidth * 9.0
  {
    var largeWidth := screenWidth as real - Dp(16, density);
    var smallWidth := (largeWidth - Dp(8, density)) / 2.0;
    FeaturedSizes(largeWidth, largeWidth * WideScreenProportion, smallWidth, smallWidth * WideScreenProportion)
  }

  /** The pixel sizes assigned to the three streams. */
  function PixelSizes(s: FeaturedSizes): (r: seq<PixelSize>)
    ensures |r| == 3 && r[1] == r[2]
  {
    var small := PixelSize(Round(s.smallWidth), Round(s.smallHeight));
    [PixelSize(Round(s.largeWidth), Round(s.largeHeight)), small, small]
  }

  /** `updateViewDimensions`: streams B and C always receive the same size. */
  method FirstLayoutDimensions(screenWidth: int, screenHeight: int, density: real, isLandscape: bool)
    returns (s: FeaturedSizes, steps: nat, streams: seq<PixelSize>)
    ensures isLandscape ==> s == SizesAfter(steps, density) && StopsAfter(steps, screenWidth, screenHeight, density)
    ensures !isLandscape ==> s == Portrait(screenWidth, density) && steps == 0
    ensures |streams| == 3 && streams[1] == streams[2]
    ensures streams[0] == PixelSize(Round(s.largeWidth), Round(s.largeHeight))
    ensures streams[1] == PixelSize(Round(s.smallWidth), Round(s.smallHeight))
  {
    if isLandscape {
      s, steps := GrowLandscape(screenWidth, screenHeight, density);
    } else {
      s, steps := Portrait(screenWidth, density), 0;
    }
    streams := PixelSizes(s);
  }

  /** After the first iteration, each further one widens the row by 1.5 pixels. */
  lemma RowWidensByHalfStep(k: nat, density: real)
    requires k >= 1
    ensures var before := SizesAfter(k, density);
            var after := SizesAfter(k + 1, density);
            after.largeWidth + after.smallWidth == before.largeWidth + before.smallWidth + 1.5
  {
  }

  /**
   * The search stops only after a bound is violated, but overshoots by less
   * than one iteration's growth: the row exceeds the width less 24dp by less
   * than 1.5, the featured height exceeds the height less 8dp by less than 9/16.
   */
  lemma OvershootBelowOneStep(k: nat, screenWidth: int, screenHeight: int, density: real)
    requires density > 0.0
    requires StopsAfter(k, screenWidth, screenHeight, density) && k > 0
    ensures var s := SizesAfter(k, density);
      && s.largeWidth + s.smallWidth < screenWidth as real - Dp(24, density) + 1.5
      && s.largeHeight < screenHeight as real - Dp(8, density) + WideScreenProportion
  {
    assert Grows(SizesAfter(k - 1, density), screenWidth, screenHeight, density);
    if k > 1 {
      RowWidensByHalfStep(k - 1, density);
    }
  }

  /** The number of iterations is determined by the screen. */
  lemma StopsAfterUnique(k1: nat, k2: nat, screenWidth: int, screenHeight: int, density: real)
    requires StopsAfter(k1, screenWidth, screenHeight, density) && StopsAfter(k2, screenWidth, screenHeight, density)
    ensures k1 == k2
  {
  }

  /** A larger screen never gives fewer iterations, hence never a narrower featured stream. */
  lemma LargerScreenWiderFeatured(w1: int, h1: int, w2: int, h2: int, density: real, k1: nat, k2: nat)
    requires w1 <= w2 && h1 <= h2
    requires StopsAfter(k1, w1, h1, density) && StopsAfter(k2, w2, h2, density)
    ensures k1 <= k2 && SizesAfter(k1, density).largeWidth <= SizesAfter(k2, density).largeWidth
  {
  }
}
