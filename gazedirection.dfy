/**
 * The gaze pipeline of the practice page: the eye and nose positions are
 * the means of whichever of their landmarks the frame holds, the eye-minus-
 * nose offset is smoothed exponentially, and the smoothed offset is
 * classified against the five calibrated offsets.
 */
module GazeDirection {
  import opened Common

  /** `LEFT_EYE_INDICES` and `NOSE_INDICES`. */
  const LeftEyeIndices: seq<nat> := [33, 7, 163, 144, 145, 153, 154, 155, 133, 173, 157, 158, 159, 160, 161, 246]
  const NoseIndices: seq<nat> := [1, 168, 197]

  /** The points of `indices` the frame holds, in index order (`if(!p) continue`). */
  function PresentPoints(indices: seq<nat>, lm: Landmarks): (r: seq<Point>)
    ensures |r| <= |indices|
    ensures (forall k :: 0 <= k < |indices| ==> indices[k] in lm) ==> |r| == |indices|
  {
    if indices == [] then []
    else
      var init := indices[..|indices| - 1];
      var last := indices[|indices| - 1];
      assert forall k :: 0 <= k < |init| ==> init[k] == indices[k];
      PresentPoints(init, lm) + (if last in lm then [lm[last]] else [])
  }

  function Xs(ps: seq<Point>): (r: seq<real>)
    ensures |r| == |ps| && forall i :: 0 <= i < |ps| ==> r[i] == ps[i].x
  {
    seq(|ps|, i requires 0 <= i < |ps| => ps[i].x)
  }

  function Ys(ps: seq<Point>): (r: seq<real>)
    ensures |r| == |ps| && forall i :: 0 <= i < |ps| ==> r[i] == ps[i].y
  {
    seq(|ps|, i requires 0 <= i < |ps| => ps[i].y)
  }

  /** `averagePoints`: the coordinate-wise mean.  Its callers always pass 15 samples. */
  function AveragePoints(ps: seq<Point>): Point
    requires |ps| > 0
  {
    Point(Mean(Xs(ps)), Mean(Ys(ps)))
  }

  /** The mean of points inside an axis-aligned box lies inside that box. */
  lemma AverageInBox(ps: seq<Point>, lo: Point, hi: Point)
    requires |ps| > 0
    requires forall i :: 0 <= i < |ps| ==> lo.x <= ps[i].x <= hi.x && lo.y <= ps[i].y <= hi.y
    ensures lo.x <= AveragePoints(ps).x <= hi.x && lo.y <= AveragePoints(ps).y <= hi.y
  {
    MeanBounds(Xs(ps), lo.x, hi.x);
    MeanBounds(Ys(ps), lo.y, hi.y);
  }

  /** Averaging copies of one point gives that point. */
  lemma AverageOfCopies(ps: seq<Point>, p: Point)
    requires |ps| > 0
    requires forall i :: 0 <= i < |ps| ==> ps[i] == p
    ensures AveragePoints(ps) == p
  {
    AverageInBox(ps, p, p);
  }

  lemma XsYsAppend(ps: seq<Point>, p: Point)
    ensures Sum(Xs(ps + [p])) == Sum(Xs(ps)) + p.x
    ensures Sum(Ys(ps + [p])) == Sum(Ys(ps)) + p.y
  {
    assert Xs(ps + [p]) == Xs(ps) + [p.x];
    assert Ys(ps + [p]) == Ys(ps) + [p.y];
    SumAppend(Xs(ps), p.x);
    SumAppend(Ys(ps), p.y);
  }

  lemma PresentPointsStep(indices: seq<nat>, i: nat, lm: Landmarks)
    requires i < |indices|
    ensures PresentPoints(indices[..i + 1], lm)
            == PresentPoints(indices[..i], lm) + (if indices[i] in lm then [lm[indices[i]]] else [])
  {
    assert indices[..i + 1][..i] == indices[..i];
  }

  /**
   * `getPoint`: the sums and the count are accumulated over the present
   * landmarks; no present landmark gives `null`, otherwise the mean of the
   * present ones.
   */
  method GetPoint(indices: seq<nat>, lm: Landmarks) returns (r: Option<Point>)
    ensures r.None? <==> PresentPoints(indices, lm) == []
    ensures r.Some? ==> r.value == AveragePoints(PresentPoints(indices, lm))
  {
    var x, y, c := 0.0, 0.0, 0;
    ghost var ps: seq<Point> := [];
    var i := 0;
    while i < |indices|
      invariant 0 <= i <= |indices|
      invariant ps == PresentPoints(indices[..i], lm)
      invariant c == |ps| && x == Sum(Xs(ps)) && y == Sum(Ys(ps))
    {
      PresentPointsStep(indices, i, lm);
      var k := indices[i];
      if k in lm {
        var p := lm[k];
        XsYsAppend(ps, p);
        x, y, c := x + p.x, y + p.y, c + 1;
        ps := ps + [p];
      }
      i := i + 1;
    }
    assert indices[..i] == indices;
    if c == 0 {
      r := None;
    } else {
      r := Some(Point(x / c as real, y / c as real));
    }
  }

  /** The five offsets recorded by `calibrateUser`. */
  datatype CalibrationPoints = CalibrationPoints(left: Point, right: Point, center: Point, up: Point, down: Point)

  datatype Direction = Right | Left | Down | Up | Center

  /** The horizontal and vertical dead zones: 35% of the calibrated spans. */
  function HorizontalTolerance(cal: CalibrationPoints): real
  {
    Abs(cal.left.x - cal.right.x) * 0.35
  }

  function VerticalTolerance(cal: CalibrationPoints): real
  {
    Abs(cal.up.y - cal.down.y) * 0.35
  }

  /**
   * `detectGaze`: RIGHT, LEFT, DOWN, UP in that precedence, else CENTER.
   * The result is CENTER exactly when the offset from the calibrated centre
   * is inside both dead zones, and a vertical result needs the horizontal
   * offset to be inside its dead zone.
   */
  function DetectGaze(c: Point, cal: CalibrationPoints): (d: Direction)
    ensures var dx, dy := c.x - cal.center.x, c.y - cal.center.y;
      var tx, ty := HorizontalTolerance(cal), VerticalTolerance(cal);
      (d == Center <==> Abs(dx) <= tx && Abs(dy) <= ty)
      && (d == Right <==> dx > tx)
      && (d == Left <==> dx < -tx)
      && ((d == Up || d == Down) <==> Abs(dx) <= tx && Abs(dy) > ty)
      && (d == Down <==> Abs(dx) <= tx && dy > ty)
      && (d == Up <==> Abs(dx) <= tx && dy < -ty)
  {
    var dx := c.x - cal.center.x;
    var dy := c.y - cal.center.y;
    var tx := HorizontalTolerance(cal);
    var ty := VerticalTolerance(cal);
    if dx > tx then Right
    else if dx < -tx then Left
    else if dy > ty then Down
    else if dy < -ty then Up
    else Center
  }

  /** The calibrated centre itself always reads as CENTER. */
  lemma CentreReadsCentre(cal: CalibrationPoints)
    ensures DetectGaze(cal.center, cal) == Center
  {
  }

  function MirrorPoint(p: Point): Point
  {
    Point(-p.x, p.y)
  }

  /** The calibration of a mirrored face: left and right swap sides. */
  function MirrorCalibration(cal: CalibrationPoints): CalibrationPoints
  {
    CalibrationPoints(MirrorPoint(cal.right), MirrorPoint(cal.left), MirrorPoint(cal.center),
                      MirrorPoint(cal.up), MirrorPoint(cal.down))
  }

  function SwapSides(d: Direction): Direction
  {
    match d
    case Right => Left
    case Left => Right
    case _ => d
  }

  /** The classifier is left-right symmetric: mirroring the face swaps LEFT and RIGHT only. */
  lemma DetectGazeMirror(c: Point, cal: CalibrationPoints)
    ensures DetectGaze(MirrorPoint(c), MirrorCalibration(cal)) == SwapSides(DetectGaze(c, cal))
  {
    var m := MirrorCalibration(cal);
    assert HorizontalTolerance(m) == HorizontalTolerance(cal);
    assert VerticalTolerance(m) == VerticalTolerance(cal);
  }

  /** With a zero-width horizontal calibration every horizontal offset leaves the centre. */
  lemma CollapsedCalibrationHasNoDeadZone(c: Point, cal: CalibrationPoints)
    requires cal.left.x == cal.right.x && c.x != cal.center.x
    ensures DetectGaze(c, cal) != Center
  {
  }

  /** The smoothing of `handleResults`: 85% of the previous offset and 15% of the new one. */
  function Smooth(prev: Option<Point>, c: Point): (s: Point)
    ensures prev.None? ==> s == c
    ensures prev.Some? ==>
      (Min(prev.value.x, c.x) <= s.x <= Max(prev.value.x, c.x)
       && Min(prev.value.y, c.y) <= s.y <= Max(prev.value.y, c.y))
    ensures prev == Some(c) ==> s == c
  {
    match prev
    case None => c
    case Some(p) => Point(p.x * 0.85 + c.x * 0.15, p.y * 0.85 + c.y * 0.15)
  }
}
