/**
 * Per-frame eye-contact scoring: the gaze, head-position and eye-alignment
 * sub-scores, their weighted blend, the calibration penalty, the colour
 * bands of the overlay and the running good-frame statistics.
 */
module Scoring {
  import opened Common
  import opened Gaze
  import opened Calibration

  /** A frame scoring strictly above this counts as good eye contact. */
  const GoodFrameScore: real := 70.0

  /** `calculateGazeScore`. */
  function GazeScore(g: GazeReading): (r: real)
    ensures 20.0 <= r <= 100.0
    ensures r == 100.0 <==> g.zone == "center"
    ensures r in {100.0, 80.0, 60.0} || r <= 70.0
    ensures !Contains(g.zone, "center") ==> r <= 70.0
    ensures Contains(g.zone, "center") && g.zone != "center" ==> r == 80.0
    ensures !Contains(g.zone, "center") && g.confidence > 0.7 ==> r == 60.0
    ensures !Contains(g.zone, "center") && g.confidence <= 0.7 ==> r == Max(20.0, 100.0 * g.confidence)
  {
    if g.zone == "center" then 100.0
    else if Contains(g.zone, "center") then 80.0
    else if g.confidence > 0.7 then 60.0
    else Max(20.0, g.confidence * 100.0)
  }

  lemma NotContainsCenter(z: string)
    requires z in {"left", "right", "left-up", "right-up", "up-left", "left-down", "right-down", "down-left"}
    ensures !Contains(z, "center")
  {
    // No label of these eight has a 'c' in it.
    NoLetterNoContains(z, "center");
  }

  /**
   * Over the zones the classifier produces, the 80-point tier is exactly
   * the vertical variants of the centre column.
   */
  lemma CentreTierOfLabels(g: GazeReading)
    requires g.zone in ZoneLabels
    ensures GazeScore(g) >= 80.0 <==> g.zone in {"center", "center-up", "center-down"}
  {
    if g.zone in {"center-up", "center-down"} {
      ContainsPrefix(g.zone, "center");
    } else if g.zone != "center" {
      NotContainsCenter(g.zone);
    }
  }

  /** What `analyzeHeadPosition` reports. */
  datatype HeadPosition = HeadPosition(centered: bool, tilt: real, rotation: real)

  predicate HeadLandmarksPresent(lm: Landmarks) {
    133 in lm && 362 in lm && 1 in lm
  }

  /**
   * `analyzeHeadPosition`.  The tilt is atan2(|dy|, |dx|) of the eye
   * corners in degrees; it is taken as the parameter `tilt`, because the
   * model has no trigonometry.  The head is centred when the midpoint of the
   * eye corners is within 0.15 of the frame centre horizontally and 0.2
   * vertically; the rotation is the horizontal offset of that midpoint.
   */
  function AnalyzeHeadPosition(lm: Landmarks, tilt: real): (p: HeadPosition)
    ensures !HeadLandmarksPresent(lm) ==> p == HeadPosition(false, 0.0, 0.0)
    ensures HeadLandmarksPresent(lm) ==>
      p.tilt == tilt && p.rotation == (lm[133].x + lm[362].x) / 2.0 - 0.5
      && (p.centered <==> Abs(p.rotation) < 0.15 && Abs((lm[133].y + lm[362].y) / 2.0 - 0.5) < 0.2)
  {
    if !HeadLandmarksPresent(lm) then HeadPosition(false, 0.0, 0.0)
    else
      var cx := (lm[133].x + lm[362].x) / 2.0;
      var cy := (lm[133].y + lm[362].y) / 2.0;
      HeadPosition(Abs(cx - 0.5) < 0.15 && Abs(cy - 0.5) < 0.2, tilt, cx - 0.5)
  }

  /**
   * `calculateHeadPositionScore`: 40 off for an off-centre head, 20 for a
   * tilt over 10 degrees, 100 per unit of rotation beyond 0.1, floored at 0.
   */
  function HeadPositionScore(p: HeadPosition): (r: real)
    ensures 0.0 <= r <= 100.0
    ensures r == 100.0 <==> p.centered && Abs(p.tilt) <= 10.0 && Abs(p.rotation) <= 0.1
    ensures !p.centered ==> r <= 60.0
    ensures var kept := 100.0 - (if p.centered then 0.0 else 40.0) - (if Abs(p.tilt) > 10.0 then 20.0 else 0.0);
      && (Abs(p.rotation) <= 0.1 ==> r == kept)
      && (Abs(p.rotation) > 0.1 ==> r == Max(0.0, kept - 100.0 * Abs(p.rotation)))
  {
    var s0 := 100.0;
    var s1 := if !p.centered then s0 - 40.0 else s0;
    var s2 := if Abs(p.tilt) > 10.0 then s1 - 20.0 else s1;
    var s3 := if Abs(p.rotation) > 0.1 then s2 - Abs(p.rotation) * 100.0 else s2;
    Max(0.0, s3)
  }

  /** Without the eye corners and nose tip the head scores 60. */
  lemma MissingHeadScoresSixty(lm: Landmarks, tilt: real)
    requires !HeadLandmarksPresent(lm)
    ensures HeadPositionScore(AnalyzeHeadPosition(lm, tilt)) == 60.0
  {
  }

  /** What `analyzeEyeAlignment` reports. */
  datatype Alignment = Alignment(aligned: bool, disparity: real)

  predicate AlignmentLandmarksPresent(lm: Landmarks) {
    468 in lm && 473 in lm && 133 in lm && 362 in lm
  }

  /**
   * `analyzeEyeAlignment`: the difference between each pupil's horizontal
   * distance from its inner eye corner; aligned below 0.05.  Missing points
   * give a non-aligned disparity of 1.
   */
  function AnalyzeEyeAlignment(lm: Landmarks): (a: Alignment)
    ensures a.disparity >= 0.0
    ensures a.aligned <==> a.disparity < 0.05
    ensures !AlignmentLandmarksPresent(lm) ==> a == Alignment(false, 1.0)
    ensures AlignmentLandmarksPresent(lm) ==>
      (a.disparity == 0.0 <==> Abs(lm[468].x - lm[133].x) == Abs(lm[473].x - lm[362].x))
  {
    if !AlignmentLandmarksPresent(lm) then Alignment(false, 1.0)
    else
      var leftPosition := Abs(lm[468].x - lm[133].x);
      var rightPosition := Abs(lm[473].x - lm[362].x);
      var disparity := Abs(leftPosition - rightPosition);
      Alignment(disparity < 0.05, disparity)
  }

  /** `calculateAlignmentScore`: 100 when aligned, else 100 - 500 × disparity floored at 0. */
  function AlignmentScore(a: Alignment): (r: real)
    ensures r >= 0.0
    ensures a.aligned ==> r == 100.0
    ensures !a.aligned ==> (r == 0.0 <==> a.disparity >= 0.2)
    ensures a.disparity >= 0.0 ==> r <= 100.0
  {
    if a.aligned then 100.0 else Max(0.0, 100.0 - a.disparity * 500.0)
  }

  /** On an analysed alignment the score exceeds 75 exactly when the eyes are aligned. */
  lemma AlignmentScoreSeparates(lm: Landmarks)
    ensures var a := AnalyzeEyeAlignment(lm);
      AlignmentScore(a) > 75.0 <==> a.aligned
  {
  }

  /** The horizontal ratio lies outside the calibrated left-eye band (NaN never does). */
  predicate OutsideBand(h: Num, t: Thresholds) {
    Below(h, t.leftMin) || Above(h, t.leftMax)
  }

  /**
   * `applyCalibration`: 20% off when the averaged horizontal ratio leaves
   * the calibrated band.  Only the left-eye bounds are consulted.
   */
  function ApplyCalibration(score: real, g: GazeReading, th: Option<Thresholds>): (r: real)
    ensures r == score || r == 0.8 * score
    ensures score > 0.0 ==> (r < score <==> th.Some? && OutsideBand(g.horizontal, th.value))
    ensures th.None? ==> r == score
  {
    if th.None? then score
    else if OutsideBand(g.horizontal, th.value) then score * 0.8
    else score
  }

  /** The right-eye bounds have no effect on the penalty. */
  lemma RightBandIgnored(score: real, g: GazeReading, t: Thresholds, rightMin: real, rightMax: real)
    ensures ApplyCalibration(score, g, Some(t))
         == ApplyCalibration(score, g, Some(t.(rightMin := rightMin, rightMax := rightMax)))
  {
  }

  /** A NaN horizontal ratio (a zero-width eye with the pupil on its corner) is never penalised. */
  lemma NaNEscapesPenalty(score: real, g: GazeReading, th: Option<Thresholds>)
    requires g.horizontal.NaN?
    ensures ApplyCalibration(score, g, th) == score
  {
  }

  /** The 0.5 / 0.3 / 0.2 blend of the three sub-scores. */
  function Blend(gaze: real, head: real, alignment: real): (r: real)
    ensures 20.0 <= gaze <= 100.0 && 0.0 <= head <= 100.0 && 0.0 <= alignment <= 100.0 ==> 10.0 <= r <= 100.0
  {
    gaze * 0.5 + head * 0.3 + alignment * 0.2
  }

  /**
   * `analyzeEyeContact`: blend, calibrate, clamp to [0, 100].  `None` when
   * reading the gaze throws (an eye with corners and pupil but a missing lid).
   * The tilt of the head is supplied by the caller.
   */
  function AnalyzeEyeContact(lm: Landmarks, tilt: real, th: Option<Thresholds>): (r: Option<real>)
    ensures r.None? <==> GazeFromLandmarks(lm).None?
    ensures r.Some? ==> 8.0 <= r.value <= 100.0
  {
    var gaze := GazeFromLandmarks(lm);
    if gaze.None? then None
    else
      var total := Blend(GazeScore(gaze.value), HeadPositionScore(AnalyzeHeadPosition(lm, tilt)),
                         AlignmentScore(AnalyzeEyeAlignment(lm)));
      Some(Max(0.0, Min(100.0, ApplyCalibration(total, gaze.value, th))))
  }

  /**
   * A frame whose gaze is outside every centre zone and outside the
   * calibrated band scores at most 68, so it never counts as good.
   */
  lemma OffCentrePenalisedIsNotGood(lm: Landmarks, tilt: real, t: Thresholds)
    requires GazeFromLandmarks(lm).Some?
    requires !Contains(GazeFromLandmarks(lm).value.zone, "center")
    requires OutsideBand(GazeFromLandmarks(lm).value.horizontal, t)
    ensures AnalyzeEyeContact(lm, tilt, Some(t)).value <= 68.0
    ensures AnalyzeEyeContact(lm, tilt, Some(t)).value <= GoodFrameScore
  {
  }

  /** A centred, level, aligned face looking at the centre inside the band scores 100. */
  lemma PerfectFrame(lm: Landmarks, tilt: real, th: Option<Thresholds>)
    requires GazeFromLandmarks(lm).Some? && GazeFromLandmarks(lm).value.zone == "center"
    requires th.Some? ==> !OutsideBand(GazeFromLandmarks(lm).value.horizontal, th.value)
    requires var p := AnalyzeHeadPosition(lm, tilt);
      p.centered && Abs(p.tilt) <= 10.0 && Abs(p.rotation) <= 0.1
    requires AnalyzeEyeAlignment(lm).aligned
    ensures AnalyzeEyeContact(lm, tilt, th) == Some(100.0)
  {
  }

  /** The overlay colours of `getScoreColor`, best first. */
  const Palette: seq<string> := ["#00C853", "#FFD600", "#FF9100", "#FF1744"]

  /** `getScoreColor`: bands at 80, 60 and 40. */
  function ScoreColor(score: real): (c: string)
    ensures c in Palette
    ensures c == Palette[0] <==> score >= 80.0
    ensures c == Palette[1] <==> 60.0 <= score < 80.0
    ensures c == Palette[2] <==> 40.0 <= score < 60.0
    ensures c == Palette[3] <==> score < 40.0
  {
    if score >= 80.0 then "#00C853"
    else if score >= 60.0 then "#FFD600"
    else if score >= 40.0 then "#FF9100"
    else "#FF1744"
  }

  /** Position of a colour in the palette (0 is best). */
  function ColorRank(c: string): nat
  {
    if c == Palette[0] then 0 else if c == Palette[1] then 1 else if c == Palette[2] then 2 else 3
  }

  /** A higher score never gets a worse colour. */
  lemma ScoreColorMonotone(a: real, b: real)
    requires a <= b
    ensures ColorRank(ScoreColor(b)) <= ColorRank(ScoreColor(a))
  {
  }

  /** How many of the scores are good frames. */
  function GoodCount(scores: seq<real>): (n: nat)
    ensures n <= |scores|
  {
    if scores == [] then 0
    else GoodCount(scores[..|scores| - 1]) + (if scores[|scores| - 1] > GoodFrameScore then 1 else 0)
  }

  /** Percentage of good frames; 0 before the first frame. */
  function GoodPercentage(scores: seq<real>): (p: real)
    ensures 0.0 <= p <= 100.0
  {
    if |scores| == 0 then 0.0 else GoodCount(scores) as real / |scores| as real * 100.0
  }

  lemma {:induction false} GoodCountAll(scores: seq<real>)
    requires forall i :: 0 <= i < |scores| ==> scores[i] > GoodFrameScore
    ensures GoodCount(scores) == |scores|
  {
    if scores != [] {
      GoodCountAll(scores[..|scores| - 1]);
    }
  }

  lemma {:induction false} GoodCountNone(scores: seq<real>)
    requires forall i :: 0 <= i < |scores| ==> scores[i] <= GoodFrameScore
    ensures GoodCount(scores) == 0
  {
    if scores != [] {
      GoodCountNone(scores[..|scores| - 1]);
    }
  }

  /** Every frame good gives 100%, none good gives 0%. */
  lemma GoodPercentageExtremes(scores: seq<real>)
    requires |scores| > 0
    ensures (forall i :: 0 <= i < |scores| ==> scores[i] > GoodFrameScore) ==> GoodPercentage(scores) == 100.0
    ensures (forall i :: 0 <= i < |scores| ==> scores[i] <= GoodFrameScore) ==> GoodPercentage(scores) == 0.0
  {
    if forall i :: 0 <= i < |scores| ==> scores[i] > GoodFrameScore {
      GoodCountAll(scores);
    }
    if forall i :: 0 <= i < |scores| ==> scores[i] <= GoodFrameScore {
      GoodCountNone(scores);
    }
  }

  /** Alternating good and not-good frames, good first, give exactly half. */
  lemma {:induction false} GoodCountAlternating(scores: seq<real>)
    requires |scores| % 2 == 0
    requires forall i :: 0 <= i < |scores| ==> (scores[i] > GoodFrameScore <==> i % 2 == 0)
    ensures GoodCount(scores) * 2 == |scores|
    decreases |scores|
  {
    if scores != [] {
      var n := |scores|;
      var front := scores[..n - 2];
      assert scores[..n - 1][..n - 2] == front;
      GoodCountAlternating(front);
    }
  }

  lemma AlternatingIsHalf(scores: seq<real>)
    requires |scores| > 0 && |scores| % 2 == 0
    requires forall i :: 0 <= i < |scores| ==> (scores[i] > GoodFrameScore <==> i % 2 == 0)
    ensures GoodPercentage(scores) == 50.0
  {
    GoodCountAlternating(scores);
    var n := |scores| as real;
    assert GoodCount(scores) as real == n / 2.0;
    assert (n / 2.0) / n == 0.5;
  }

  /** The running statistics `updateEyeContactStats` keeps in the page state. */
  class EyeContactStats {
    var totalFrames: nat
    var goodEyeContactFrames: nat
    var overallScore: Option<real>
    /** Every score fed in since the last reset. */
    ghost var scores: seq<real>

    ghost predicate Valid()
      reads this
    {
      totalFrames == |scores| && goodEyeContactFrames == GoodCount(scores)
    }

    constructor ()
      ensures Valid() && scores == [] && overallScore.None?
    {
      totalFrames := 0;
      goodEyeContactFrames := 0;
      overallScore := None;
      scores := [];
    }

    /** The counter reset of `startTest`. */
    method Reset()
      modifies this
      ensures Valid() && scores == []
      ensures overallScore == old(overallScore)
    {
      totalFrames := 0;
      goodEyeContactFrames := 0;
      scores := [];
    }

    /** `updateEyeContactStats`: count the frame and refresh the running percentage. */
    method UpdateEyeContactStats(score: real) returns (overall: real, isGood: bool)
      requires Valid()
      modifies this
      ensures Valid() && scores == old(scores) + [score]
      ensures isGood <==> score > GoodFrameScore
      ensures overall == GoodPercentage(scores) && overallScore == Some(overall)
    {
      assert (scores + [score])[..|scores|] == scores;
      scores := scores + [score];
      totalFrames := totalFrames + 1;
      if score > GoodFrameScore {
        goodEyeContactFrames := goodEyeContactFrames + 1;
      }
      overall := goodEyeContactFrames as real / totalFrames as real * 100.0;
      overallScore := Some(overall);
      isGood := score > GoodFrameScore;
    }

    /** The final percentage of `endTest`: 0 when no frame was scored. */
    function FinalPercentage(): (p: real)
      requires Valid()
      reads this
      ensures p == GoodPercentage(scores)
    {
      if totalFrames > 0 then goodEyeContactFrames as real / totalFrames as real * 100.0 else 0.0
    }
  }
}
