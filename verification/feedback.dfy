/** The bang-bang feedback law of AutoCalibrator: which way to move, and how far. */
module Feedback {
  import opened Commands
  import opened Regions

  /** The tag centre lies in the closed region. */
  predicate Inside(x: real, y: real, r: TargetRegion) {
    r.top as real <= y <= r.bottom as real && r.left as real <= x <= r.right as real
  }

  /** How far the tag centre lies above or below the region (0 inside the rows). */
  function VerticalOvershoot(y: real, r: TargetRegion): (d: real)
    ensures d >= 0.0
    ensures d == 0.0 <==> r.top as real <= y <= r.bottom as real
  {
    if y < r.top as real then r.top as real - y
    else if y > r.bottom as real then y - r.bottom as real
    else 0.0
  }

  /** How far the tag centre lies left or right of the region (0 inside the columns). */
  function HorizontalOvershoot(x: real, r: TargetRegion): (d: real)
    ensures d >= 0.0
    ensures d == 0.0 <==> r.left as real <= x <= r.right as real
  {
    if x < r.left as real then r.left as real - x
    else if x > r.right as real then x - r.right as real
    else 0.0
  }

  /** `_determine_command`: Center exactly inside the region; otherwise the
      axis with the larger overshoot, ties going to the vertical axis. */
  function DetermineCommand(x: real, y: real, r: TargetRegion): (c: Command)
    ensures c == Center <==> Inside(x, y, r)
    ensures c == Up ==> y < r.top as real
    ensures c == Down ==> y > r.bottom as real && !(y < r.top as real)
    ensures c == Left ==> x < r.left as real
    ensures c == Right ==> x > r.right as real && !(x < r.left as real)
    ensures IsVertical(c) ==> VerticalOvershoot(y, r) >= HorizontalOvershoot(x, r)
    ensures IsHorizontal(c) ==> VerticalOvershoot(y, r) < HorizontalOvershoot(x, r)
  {
    var verticalDistance := if y < r.top as real then r.top as real - y
                            else if y > r.bottom as real then y - r.bottom as real
                            else 0.0;
    var verticalCommand := if y < r.top as real then [Up]
                           else if y > r.bottom as real then [Down]
                           else [];
    var horizontalDistance := if x < r.left as real then r.left as real - x
                              else if x > r.right as real then x - r.right as real
                              else 0.0;
    var horizontalCommand := if x < r.left as real then [Left]
                             else if x > r.right as real then [Right]
                             else [];
    if verticalDistance == 0.0 && horizontalDistance == 0.0 then Center
    else if verticalDistance >= horizontalDistance && verticalCommand != [] then verticalCommand[0]
    else if horizontalCommand != [] then horizontalCommand[0]
    else if verticalCommand != [] then verticalCommand[0]
    else Center
  }

  /** Outside the region the decision is always a move, and the dominant
      axis wins with ties going to the vertical axis. */
  lemma DominantAxisWins(x: real, y: real, r: TargetRegion)
    requires !Inside(x, y, r)
    ensures DetermineCommand(x, y, r) != Center
    ensures VerticalOvershoot(y, r) >= HorizontalOvershoot(x, r) ==>
      (y < r.top as real ==> DetermineCommand(x, y, r) == Up) &&
      (!(y < r.top as real) ==> DetermineCommand(x, y, r) == Down)
    ensures VerticalOvershoot(y, r) < HorizontalOvershoot(x, r) ==>
      (x < r.left as real ==> DetermineCommand(x, y, r) == Left) &&
      (!(x < r.left as real) ==> DetermineCommand(x, y, r) == Right)
  {
  }

  /** Piecewise distance scale: 0.1 near the centre, d/50 in the working band,
      5 far away. */
  function DistanceScale(d: real): (s: real)
    ensures 0.1 <= s <= 5.0
    ensures 50.0 <= d <= 250.0 ==> s * 50.0 == d
    ensures d > 250.0 ==> s == 5.0
    ensures d < 50.0 ==> s == 0.1
  {
    if d > 250.0 then 5.0
    else if d < 50.0 then 0.1
    else d / 50.0
  }

  lemma DistanceScaleMonotone(d1: real, d2: real)
    requires d1 <= d2
    ensures DistanceScale(d1) <= DistanceScale(d2)
  {
  }

  /** `_compute_distance_multiplier`, given the Euclidean distance `d` from
      the tag centre to the region centre and the tag's diagonal `tagSize`. */
  function Multiplier(d: real, tagSize: real, distWeight: real, sizeWeight: real): (m: real)
    ensures m >= 0.5
    ensures m >= DistanceScale(d) * distWeight + (1.0 - tagSize / 200.0) * sizeWeight
    ensures m == 0.5 || m == DistanceScale(d) * distWeight + (1.0 - tagSize / 200.0) * sizeWeight
  {
    var weighted := DistanceScale(d) * distWeight + (1.0 - tagSize / 200.0) * sizeWeight;
    if weighted >= 0.5 then weighted else 0.5
  }

  /** With a non-negative distance weight, a farther tag never gets a smaller step. */
  lemma MultiplierMonotone(d1: real, d2: real, tagSize: real, distWeight: real, sizeWeight: real)
    requires d1 <= d2 && distWeight >= 0.0
    ensures Multiplier(d1, tagSize, distWeight, sizeWeight) <= Multiplier(d2, tagSize, distWeight, sizeWeight)
  {
    DistanceScaleMonotone(d1, d2);
    var size := (1.0 - tagSize / 200.0) * sizeWeight;
    var w1 := DistanceScale(d1) * distWeight + size;
    var w2 := DistanceScale(d2) * distWeight + size;
    assert DistanceScale(d1) * distWeight <= DistanceScale(d2) * distWeight;
    assert w1 <= w2;
    assert Multiplier(d1, tagSize, distWeight, sizeWeight) == (if w1 >= 0.5 then w1 else 0.5);
    assert Multiplier(d2, tagSize, distWeight, sizeWeight) == (if w2 >= 0.5 then w2 else 0.5);
  }
}
