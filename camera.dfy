/**
 * Camera scrolling: the offset of the world layer along one axis is kept inside
 * the level, so the screen never shows what lies beyond either end of it.
 */
module Camera {
  /**
   * Clamp an offset along one axis, the way `didSimulatePhysics` clamps its local
   * `x` and `y`: no further than the level's far end, then never past its near end.
   * `allExtent` is the level's extent on that axis, `screenExtent` the screen's.
   */
  method ClampOffset(offset: real, allExtent: real, screenExtent: real) returns (r: real)
    ensures r <= 0.0
    ensures screenExtent <= allExtent ==> -(allExtent - screenExtent) <= r
    ensures allExtent <= screenExtent ==> r == 0.0
    ensures -(allExtent - screenExtent) <= offset <= 0.0 ==> r == offset
    ensures offset > 0.0 ==> r == 0.0
    ensures screenExtent <= allExtent && offset <= -(allExtent - screenExtent) ==> r == -(allExtent - screenExtent)
  {
    r := offset;
    // do not show anything right of (or above) the level's far end
    if r <= -(allExtent - screenExtent) {
      r := -(allExtent - screenExtent);
    }
    // do not show anything left of (or below) the level's near end
    if r > 0.0 {
      r := 0.0;
    }
  }
}
