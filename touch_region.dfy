/**
 * The unlock region of the locked screen and the touch events that move the
 * `inRange` flag. The region is a band at the right edge of the display,
 * centred on half its height; it has no right bound.
 */
module TouchRegion {

  /** The touch span in density-independent pixels (the field dpRange). */
  const DpRange: real := 75.0

  /** xRangeStart, yRangeStart, yRangeEnd; the right edge is implicit. */
  datatype Region = Region(xRangeStart: real, yRangeStart: real, yRangeEnd: real)

  /** The region derived from the display metrics when the locked screen is created. */
  function RegionFor(width: int, height: int, density: real): (r: Region)
    ensures r.xRangeStart == width as real - DpRange * density
    ensures (r.yRangeStart + r.yRangeEnd) / 2.0 == height as real / 2.0
    ensures r.yRangeEnd - r.yRangeStart == 2.0 * DpRange * density
  {
    var pixRange := DpRange * density;
    var halfHeight := 0.5 * height as real;
    Region(width as real - pixRange, halfHeight - pixRange, halfHeight + pixRange)
  }

  /**
   * isTouchinRange: strictly right of xRangeStart and strictly inside the
   * vertical band; only a region whose band is non-empty admits a touch.
   */
  predicate IsTouchInRange(r: Region, x: real, y: real)
    ensures IsTouchInRange(r, x, y) ==> r.yRangeStart < r.yRangeEnd
  {
    x > r.xRangeStart && y > r.yRangeStart && y < r.yRangeEnd
  }

  /**
   * The three bounds are strict and x has no upper bound: a point on any
   * boundary is outside, and moving a point inside further right keeps it in.
   */
  lemma TouchRangeBoundaries(r: Region, x: real, y: real, dx: real)
    requires dx >= 0.0
    ensures !IsTouchInRange(r, r.xRangeStart, y)
    ensures !IsTouchInRange(r, x, r.yRangeStart)
    ensures !IsTouchInRange(r, x, r.yRangeEnd)
    ensures IsTouchInRange(r, x, y) ==> IsTouchInRange(r, x + dx, y)
  {
  }

  /**
   * In terms of the display metrics: a touch is in range exactly when it lies
   * within 75 dp of the right edge (x only bounded below) and less than
   * 75 dp above or below half the height.
   */
  lemma RegionBand(width: int, height: int, density: real, x: real, y: real)
    ensures IsTouchInRange(RegionFor(width, height, density), x, y) <==>
              width as real - x < DpRange * density &&
              -DpRange * density < y - height as real / 2.0 < DpRange * density
  {
  }

  /** Some touch point is in range exactly when the density is positive. */
  lemma RegionNonEmptyIffPositiveDensity(width: int, height: int, density: real)
    ensures (exists x: real, y: real :: IsTouchInRange(RegionFor(width, height, density), x, y))
            <==> density > 0.0
  {
    var r := RegionFor(width, height, density);
    if density > 0.0 {
      assert IsTouchInRange(r, width as real, height as real / 2.0);
    }
  }

  /** The action kinds of MotionEvent.getActionMasked; anything else is OtherAction. */
  datatype TouchAction =
    | ActionDown
    | ActionUp
    | ActionMove
    | ActionCancel
    | ActionOutside
    | OtherAction
}
