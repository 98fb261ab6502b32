/**
 * Geometry of the second layout (`SecondLayoutFragment.updateViewDimensions`):
 * two equal square containers whose side grows in steps of one pixel from
 * `MinContainerSize` while one square fits the short side and two squares
 * fit the long side.
 */
module SquareLayout {
  import opened Sizing

  /** The loop's bounds: a single side must stay below `sideLimit`, two sides below `pairLimit`. */
  datatype SquareLimits = SquareLimits(sideLimit: real, pairLimit: real)

  /**
   * Landscape: one square against the height less 16dp, two against the width
   * less 24dp. Portrait swaps the roles of width and height.
   */
  function Limits(screenWidth: int, screenHeight: int, density: real, isLandscape: bool): SquareLimits
  {
    if isLandscape then
      SquareLimits(screenHeight as real - Dp(16, density), screenWidth as real - Dp(24, density))
    else
      SquareLimits(screenWidth as real - Dp(16, density), screenHeight as real - Dp(24, density))
  }

  /** The loop guard. */
  predicate Fits(side: real, limits: SquareLimits)
  {
    side < limits.sideLimit && side * 2.0 < limits.pairLimit
  }

  /** The side after `k` steps. */
  function SideAfter(k: nat): real
  {
    MinContainerSize + k as real
  }

  /** The search stops after exactly `k` steps: the guard held before each of them and fails after them. */
  ghost predicate StopsAfter(k: nat, limits: SquareLimits)
  {
    !Fits(SideAfter(k), limits) && forall j :: 0 <= j < k ==> Fits(SideAfter(j), limits)
  }

  /** The growth loop of `updateViewDimensions`. */
  method GrowSide(limits: SquareLimits) returns (side: real, steps: nat)
    ensures side == SideAfter(steps) && StopsAfter(steps, limits)
    ensures side >= limits.sideLimit || side * 2.0 >= limits.pairLimit
    ensures steps > 0 ==> side - 1.0 < limits.sideLimit && (side - 1.0) * 2.0 < limits.pairLimit
  {
    side := MinContainerSize;
    steps := 0;
    while Fits(side, limits)
      invariant side == SideAfter(steps)
      invariant forall j :: 0 <= j < steps ==> Fits(SideAfter(j), limits)
      decreases (limits.sideLimit - side).Floor
    {
      side := side + 1.0;
      steps := steps + 1;
    }
    if steps > 0 {
      assert Fits(SideAfter(steps - 1), limits);
    }
  }

  /** `updateViewDimensions`: the square side and the two identical pixel sizes assigned to the streams. */
  method SecondLayoutDimensions(screenWidth: int, screenHeight: int, density: real, isLandscape: bool)
    returns (side: real, steps: nat, streamA: PixelSize, streamB: PixelSize)
    ensures side == SideAfter(steps) && StopsAfter(steps, Limits(screenWidth, screenHeight, density, isLandscape))
    ensures streamA == streamB
    ensures streamA.width == streamA.height == 10 + steps
  {
    side, steps := GrowSide(Limits(screenWidth, screenHeight, density, isLandscape));
    RoundWhole(10 + steps);
    streamA := PixelSize(Round(side), Round(side));
    streamB := PixelSize(Round(side), Round(side));
  }

  /** The number of steps is determined by the limits. */
  lemma StopsAfterUnique(k1: nat, k2: nat, limits: SquareLimits)
    requires StopsAfter(k1, limits) && StopsAfter(k2, limits)
    ensures k1 == k2
  {
  }

  /** Because the guard only gets harder to meet, checking the last step alone characterises the stop. */
  lemma StopsAfterIffLastStep(k: nat, limits: SquareLimits)
    ensures StopsAfter(k, limits) <==> !Fits(SideAfter(k), limits) && (k == 0 || Fits(SideAfter(k - 1), limits))
  {
    if !Fits(SideAfter(k), limits) && k > 0 && Fits(SideAfter(k - 1), limits) {
      forall j | 0 <= j < k ensures Fits(SideAfter(j), limits) {
        assert SideAfter(j) <= SideAfter(k - 1);
      }
    }
  }

  /** A larger screen never gives a smaller square. */
  lemma LargerScreenLargerSide(w1: int, h1: int, w2: int, h2: int, density: real, isLandscape: bool, k1: nat, k2: nat)
    requires w1 <= w2 && h1 <= h2
    requires StopsAfter(k1, Limits(w1, h1, density, isLandscape))
    requires StopsAfter(k2, Limits(w2, h2, density, isLandscape))
    ensures k1 <= k2 && SideAfter(k1) <= SideAfter(k2)
  {
    var small := Limits(w1, h1, density, isLandscape);
    var large := Limits(w2, h2, density, isLandscape);
    if k2 < k1 {
      assert Fits(SideAfter(k2), small);
      assert Fits(SideAfter(k2), large);
    }
  }

  /** Portrait is the landscape search on the screen turned by a quarter. */
  lemma PortraitSwapsRoles(screenWidth: int, screenHeight: int, density: real)
    ensures Limits(screenWidth, screenHeight, density, false) == Limits(screenHeight, screenWidth, density, true)
  {
  }

  /**
   * The search overshoots the bounds by less than one step: the side is below
   * `sideLimit + 1` and twice the side below `pairLimit + 2`, unless the
   * guard failed at once and the side stayed at the minimum.
   */
  lemma OvershootBelowOneStep(k: nat, limits: SquareLimits)
    requires StopsAfter(k, limits) && k > 0
    ensures SideAfter(k) < limits.sideLimit + 1.0 && SideAfter(k) * 2.0 < limits.pairLimit + 2.0
  {
    assert Fits(SideAfter(k - 1), limits);
  }
}
