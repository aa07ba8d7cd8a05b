/** The earliest prototype (roboaprilTag.py): a fixed central box a sixth of
    the frame to each side of the centre, and printed advice per axis for a
    tag outside it. Capture, detection and drawing are outside the model:
    the frame size and the tag centre are inputs. */
module CenteringAdvice {
  import opened Numerals
  import opened Commands
  import opened Regions
  import opened Feedback

  /** Inclusive pixel bounds of the central box. */
  datatype CentralBox = CentralBox(left: int, right: int, top: int, bottom: int)

  /** The box for a frame of height `h` and width `w`. */
  function CentralBoxOf(h: nat, w: nat): (b: CentralBox)
    ensures 0 <= b.left <= w / 2 <= b.right <= w
    ensures 0 <= b.top <= h / 2 <= b.bottom <= h
    ensures b.left + b.right == 2 * (w / 2) && b.right - b.left == 2 * (w / 6)
    ensures b.top + b.bottom == 2 * (h / 2) && b.bottom - b.top == 2 * (h / 6)
  {
    var marginX := w / 6;
    var marginY := h / 6;
    var centerX := w / 2;
    var centerY := h / 2;
    CentralBox(centerX - marginX, centerX + marginX, centerY - marginY, centerY + marginY)
  }

  /** What the loop prints for one tag. */
  datatype Advice = Centered | MoveLeft | MoveRight | MoveDown | MoveUp

  predicate InBox(x: int, y: int, b: CentralBox) {
    b.left <= x <= b.right && b.top <= y <= b.bottom
  }

  /** The advice lines for a tag centred at pixel (x, y), in print order; the
      loop obtains the pixel by `int()` of each detected coordinate. */
  function AdviceFor(x: int, y: int, b: CentralBox): (a: seq<Advice>)
    ensures a == [Centered] <==> InBox(x, y, b)
    ensures Centered in a ==> a == [Centered]
    ensures |a| <= 2
    ensures |a| == 2 ==> (a[0] == MoveLeft || a[0] == MoveRight) && (a[1] == MoveDown || a[1] == MoveUp)
    ensures MoveLeft in a <==> x < b.left
    ensures MoveRight in a <==> x > b.right && !(x < b.left)
    ensures MoveDown in a <==> y < b.top && !InBox(x, y, b)
    ensures MoveUp in a <==> y > b.bottom && !(y < b.top) && !InBox(x, y, b)
  {
    if InBox(x, y, b) then [Centered]
    else
      var horizontal := if x < b.left then [MoveLeft] else if x > b.right then [MoveRight] else [];
      var vertical := if y < b.top then [MoveDown] else if y > b.bottom then [MoveUp] else [];
      assert |horizontal + vertical| >= 1 && (horizontal + vertical)[0] != Centered;
      horizontal + vertical
  }

  /** The two axes are advised independently: a tag off in both directions
      gets both lines, horizontal first. */
  lemma BothAxesAdvised(x: int, y: int, b: CentralBox)
    requires b.left <= b.right && b.top <= b.bottom
    requires x < b.left && y > b.bottom
    ensures AdviceFor(x, y, b) == [MoveLeft, MoveUp]
  {
  }

  /** The box read as an acceptance region, centred on the frame. */
  function AsTargetRegion(b: CentralBox, h: nat, w: nat): TargetRegion {
    TargetRegion(b.top, b.bottom, b.left, b.right, w / 2, h / 2)
  }

  /** The vertical convention is the reverse of AutoCalibrator's: a tag
      above the box (smaller y) is advised DOWN where the calibrator
      commands U, and a tag below it is advised UP where the calibrator
      commands D. */
  lemma VerticalAdviceInverted(h: nat, w: nat, x: int, y: int)
    requires var b := CentralBoxOf(h, w); b.left <= x <= b.right && !(b.top <= y <= b.bottom)
    ensures var b := CentralBoxOf(h, w);
      && (y < b.top ==> AdviceFor(x, y, b) == [MoveDown] &&
                        DetermineCommand(x as real, y as real, AsTargetRegion(b, h, w)) == Up)
      && (y > b.bottom ==> AdviceFor(x, y, b) == [MoveUp] &&
                           DetermineCommand(x as real, y as real, AsTargetRegion(b, h, w)) == Down)
  {
    var b := CentralBoxOf(h, w);
    assert HorizontalOvershoot(x as real, AsTargetRegion(b, h, w)) == 0.0;
  }

  /** Horizontally the two agree: LEFT where the calibrator says L, RIGHT
      where it says R, for a tag level with the box. */
  lemma HorizontalAdviceAgrees(h: nat, w: nat, x: int, y: int)
    requires var b := CentralBoxOf(h, w); b.top <= y <= b.bottom && !(b.left <= x <= b.right)
    ensures var b := CentralBoxOf(h, w);
      && (x < b.left ==> AdviceFor(x, y, b) == [MoveLeft] &&
                         DetermineCommand(x as real, y as real, AsTargetRegion(b, h, w)) == Left)
      && (x > b.right ==> AdviceFor(x, y, b) == [MoveRight] &&
                          DetermineCommand(x as real, y as real, AsTargetRegion(b, h, w)) == Right)
  {
    var b := CentralBoxOf(h, w);
    assert VerticalOvershoot(y as real, AsTargetRegion(b, h, w)) == 0.0;
  }
}
