/** The single-file prototype of the centering loop (AC_AT.py), which
    inlines the region, the direction decision and the arrow-key scale
    adjustment that AutoCalibrator later factored out, and drives the older
    WASD controller. Capture, detection and drawing are outside the model:
    each frame's tag centres and the key code are inputs. */
module Prototype {
  import opened Numerals
  import opened Commands
  import opened Regions
  import opened Feedback
  import opened Calibrator

  /** The region as computed inline for each frame (lines 43-50). */
  function InlineRegion(frameHeight: nat, frameWidth: nat, targetScale: real): (r: TargetRegion)
    ensures 0 <= r.top <= r.bottom <= frameHeight && 0 <= r.left <= r.right <= frameWidth
  {
    var targetSide := Max(1, Trunc(Min(frameWidth, frameHeight) as real * targetScale));
    var halfSide := targetSide / 2;
    var centerX := frameWidth / 2;
    var centerY := frameHeight / 2;
    TargetRegion(
      top := if 0 >= centerY - halfSide then 0 else centerY - halfSide,
      bottom := if frameHeight <= centerY + halfSide then frameHeight else centerY + halfSide,
      left := if 0 >= centerX - halfSide then 0 else centerX - halfSide,
      right := if frameWidth <= centerX + halfSide then frameWidth else centerX + halfSide,
      centerX := centerX, centerY := centerY)
  }

  /** The inline region is AutoCalibrator's region. */
  lemma InlineRegionMatches(frameHeight: nat, frameWidth: nat, targetScale: real)
    ensures InlineRegion(frameHeight, frameWidth, targetScale) ==
      CalculateTargetRegion(frameHeight, frameWidth, targetScale)
  {
    assert TargetSide(frameHeight, frameWidth, targetScale) ==
      Max(1, Trunc(Min(frameWidth, frameHeight) as real * targetScale));
  }

  /** Python's `a or b` on strings. */
  function Or(a: string, b: string): string {
    if a != "" then a else b
  }

  /** The inline decision (lines 65-88), on the command letters. */
  function InlineCommand(x: real, y: real, r: TargetRegion): (command: string)
    ensures command == "C" <==> Inside(x, y, r)
  {
    var (verticalDistance, verticalCommand) :=
      if y < r.top as real then (r.top as real - y, "U")
      else if y > r.bottom as real then (y - r.bottom as real, "D")
      else (0.0, "");
    var (horizontalDistance, horizontalCommand) :=
      if x < r.left as real then (r.left as real - x, "L")
      else if x > r.right as real then (x - r.right as real, "R")
      else (0.0, "");
    if verticalDistance == 0.0 && horizontalDistance == 0.0 then "C"
    else if verticalDistance >= horizontalDistance && verticalCommand != "" then verticalCommand
    else Or(horizontalCommand, Or(verticalCommand, "C"))
  }

  /** The inline decision is AutoCalibrator's decision, letter for letter. */
  lemma InlineCommandMatches(x: real, y: real, r: TargetRegion)
    ensures InlineCommand(x, y, r) == Letter(DetermineCommand(x, y, r))
  {
  }

  /** A detected tag's centre in pixels. */
  datatype TagCenter = TagCenter(x: real, y: real)

  /** A `send_command(command, dist_multiplier)` call. */
  datatype Call = Call(command: string, multiplier: real)

  /** The calls one frame makes, one per tag in detection order, each with
      the frame's `target_scale` as the step multiplier. */
  function FrameCalls(tags: seq<TagCenter>, r: TargetRegion, targetScale: real): (calls: seq<Call>)
    ensures |calls| == |tags|
    ensures forall i :: 0 <= i < |tags| ==>
      calls[i] == Call(Letter(DetermineCommand(tags[i].x, tags[i].y, r)), targetScale)
  {
    seq(|tags|, i requires 0 <= i < |tags| =>
      (InlineCommandMatches(tags[i].x, tags[i].y, r);
       Call(InlineCommand(tags[i].x, tags[i].y, r), targetScale)))
  }

  /** The on-screen label after the first `k` tags: it is set by the first
      tag and never replaced. */
  function LabelAfter(tags: seq<TagCenter>, r: TargetRegion, k: nat): string
    requires k <= |tags|
  {
    if k == 0 then NoTagLabel
    else
      var shown := LabelAfter(tags, r, k - 1);
      if shown == NoTagLabel then "Cmd: " + InlineCommand(tags[k - 1].x, tags[k - 1].y, r) else shown
  }

  /** Only the first tag of a frame is labelled, unlike AutoCalibrator,
      whose label follows the last tag it processed. */
  lemma {:induction false} FirstTagLabels(tags: seq<TagCenter>, r: TargetRegion, k: nat)
    requires 1 <= k <= |tags|
    ensures LabelAfter(tags, r, k) == "Cmd: " + Letter(DetermineCommand(tags[0].x, tags[0].y, r))
  {
    InlineCommandMatches(tags[0].x, tags[0].y, r);
    if k == 1 {
      assert LabelAfter(tags, r, 0) == NoTagLabel;
    } else {
      FirstTagLabels(tags, r, k - 1);
      assert ("Cmd: " + InlineCommand(tags[0].x, tags[0].y, r))[0] != NoTagLabel[0];
    }
  }

  /** One frame's command traffic, as intended: the calls made and the label. */
  function Frame(tags: seq<TagCenter>, r: TargetRegion, targetScale: real): (f: (seq<Call>, string))
    ensures f.0 == FrameCalls(tags, r, targetScale)
    ensures |tags| == 0 ==> f.1 == NoTagLabel
    ensures |tags| > 0 ==> f.1 == "Cmd: " + f.0[0].command
  {
    if |tags| > 0 then
      FirstTagLabels(tags, r, |tags|);
      (FrameCalls(tags, r, targetScale), LabelAfter(tags, r, |tags|))
    else (FrameCalls(tags, r, targetScale), LabelAfter(tags, r, |tags|))
  }

  /** One frame as written: `send_command` of the imported controller takes
      the command only, so the two-argument call raises TypeError at the
      first tag and no call reaches the controller. Returns the calls that
      reached it, the label if the frame completed, and the error raised. */
  function FrameAsWritten(tags: seq<TagCenter>, r: TargetRegion, targetScale: real):
    (f: (seq<Call>, string, string))
    ensures f.0 == []
    ensures |tags| == 0 <==> f.2 == ""
  {
    if |tags| == 0 then ([], NoTagLabel, "")
    else ([], "", "TypeError: send_command() takes 2 positional arguments but 3 were given")
  }

  /** Every frame with a tag in it ends the prototype with an error before
      any move is sent, where the intended frame sends one move per tag. */
  lemma FrameAsWrittenRaises(tags: seq<TagCenter>, r: TargetRegion, targetScale: real)
    requires |tags| > 0
    ensures FrameAsWritten(tags, r, targetScale).2 != ""
    ensures |FrameAsWritten(tags, r, targetScale).0| == 0 < |Frame(tags, r, targetScale).0| == |tags|
  {
  }

  /** The inline arrow-key handling (lines 109-115): the new scale, and
      whether the loop goes on. */
  function PrototypeKey(targetScale: real, key: int, stepFraction: real,
                        minScale: real, maxScale: real): (r: (real, bool))
    ensures r.1 <==> key != QuitKey
    ensures key == UpArrow ==>
      var grown := targetScale * (1.0 + stepFraction);
      r.0 <= maxScale && r.0 <= grown && (r.0 == maxScale || r.0 == grown)
    ensures key == DownArrow ==>
      var shrunk := targetScale * (1.0 - stepFraction);
      r.0 >= minScale && r.0 >= shrunk && (r.0 == minScale || r.0 == shrunk)
    ensures key != UpArrow && key != DownArrow ==> r.0 == targetScale
  {
    if key == 113 then (targetScale, false)
    else if key == 2490368 then
      (MinReal(targetScale * (1.0 + stepFraction), maxScale), true)
    else if key == 2621440 then
      (MaxReal(targetScale * (1.0 - stepFraction), minScale), true)
    else (targetScale, true)
  }

  /** The prototype's keys do what AutoCalibrator's `_handle_key` does. */
  lemma PrototypeKeyMatches(cfg: Config, s: Session, key: int)
    ensures PrototypeKey(s.targetScale, key, cfg.scaleStepFraction, cfg.minScale, cfg.maxScale) ==
      (HandleKey(cfg, s, key).0.targetScale, HandleKey(cfg, s, key).1)
  {
    var p := PrototypeKey(s.targetScale, key, cfg.scaleStepFraction, cfg.minScale, cfg.maxScale);
    var h := HandleKey(cfg, s, key);
    if key == UpArrow {
      assert p.0 == MinReal(s.targetScale * (1.0 + cfg.scaleStepFraction), cfg.maxScale) == h.0.targetScale;
    } else if key == DownArrow {
      assert p.0 == MaxReal(s.targetScale * (1.0 - cfg.scaleStepFraction), cfg.minScale) == h.0.targetScale;
    }
  }
}
