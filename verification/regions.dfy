/** The acceptance region: a square centred on the frame whose side is a
    fraction `target_scale` of the frame's smaller dimension, clipped to the
    frame (AutoCalibrator._calculate_target_region). */
module Regions {
  import opened Numerals

  /** Pixel bounds of the region (all inclusive) and the frame centre. */
  datatype TargetRegion = TargetRegion(
    top: int, bottom: int, left: int, right: int,
    centerX: int, centerY: int)

  function Min(a: int, b: int): int { if a <= b then a else b }

  function Max(a: int, b: int): int { if a >= b then a else b }

  predicate Within(v: int, lo: int, hi: int) {
    lo <= v <= hi
  }

  /** `max(1, int(min(width, height) * scale))`: the side of the square. */
  function TargetSide(frameHeight: nat, frameWidth: nat, scale: real): (side: int)
    ensures side >= 1
    ensures scale >= 0.0 && side > 1 ==>
      side as real <= Min(frameWidth, frameHeight) as real * scale < side as real + 1.0
    ensures Min(frameWidth, frameHeight) as real * scale < 1.0 ==> side == 1
  {
    Max(1, Trunc(Min(frameWidth, frameHeight) as real * scale))
  }

  /** The region for a frame of the given shape; the argument order follows
      the source's `frame.shape[:2]`, height first. */
  function CalculateTargetRegion(frameHeight: nat, frameWidth: nat, scale: real): (r: TargetRegion)
    ensures r.centerX == frameWidth / 2 && r.centerY == frameHeight / 2
    ensures 0 <= r.top <= r.bottom <= frameHeight
    ensures 0 <= r.left <= r.right <= frameWidth
    ensures var half := TargetSide(frameHeight, frameWidth, scale) / 2;
      && (forall y :: Within(y, r.top, r.bottom) <==>
            Within(y, 0, frameHeight) && Within(y, r.centerY - half, r.centerY + half))
      && (forall x :: Within(x, r.left, r.right) <==>
            Within(x, 0, frameWidth) && Within(x, r.centerX - half, r.centerX + half))
  {
    var half := TargetSide(frameHeight, frameWidth, scale) / 2;
    var cx := frameWidth / 2;
    var cy := frameHeight / 2;
    TargetRegion(
      top := Max(0, cy - half), bottom := Min(frameHeight, cy + half),
      left := Max(0, cx - half), right := Min(frameWidth, cx + half),
      centerX := cx, centerY := cy)
  }

  /** The 640x480 frame at scale 0.2 has the 96-pixel square around (320, 240). */
  lemma RegionWorkedExample()
    ensures CalculateTargetRegion(480, 640, 0.2) == TargetRegion(192, 288, 272, 368, 320, 240)
  {
    assert Trunc(480.0 * 0.2) == 96;
  }
}
