/**
 * The calibration manager of the eye-contact page: it records the frames
 * captured during each calibration step and derives the horizontal gaze
 * band from the frames of the "look straight at the camera" step.
 */
module Calibration {
  import opened Common

  /** The gaze band used to penalise off-camera frames. */
  datatype Thresholds = Thresholds(leftMin: real, leftMax: real, rightMin: real, rightMax: real,
                                   headOffset: real)

  /** The band before any calibration. */
  const DefaultThresholds: Thresholds := Thresholds(0.25, 0.55, 0.25, 0.55, 0.2)

  /** Width of the derived band around the calibrated average, and the fixed head offset. */
  const BandLow: real := 0.85
  const BandHigh: real := 1.15
  const CalibratedHeadOffset: real := 0.15

  datatype Action = CenterStep | LeftStep | RightStep | UpStep | DownStep

  /** One captured frame and the time it was captured. */
  datatype Sample = Sample(landmarks: Landmarks, timestamp: int)

  /** What a finished calibration step pushes onto `calibrationSamples`. */
  datatype StepRecord = StepRecord(action: Action, samples: seq<Sample>, timestamp: int)

  /**
   * The per-frame readings.  Both are placeholders in the page: the gaze
   * ratios are always (0.4, 0.4) and the head position always 0.5, whatever
   * the landmarks.
   */
  datatype GazeRatios = GazeRatios(left: real, right: real)

  function GazeRatiosOf(lm: Landmarks): GazeRatios
  {
    GazeRatios(0.4, 0.4)
  }

  function HeadPositionOf(lm: Landmarks): real
  {
    0.5
  }

  /** The frames of every centre step, in the order they were captured (filter, then flatMap). */
  function CenterSamples(steps: seq<StepRecord>): (r: seq<Sample>)
    ensures (forall k :: 0 <= k < |steps| ==> steps[k].action != CenterStep) ==> r == []
    ensures forall s :: s in r ==> exists k :: 0 <= k < |steps| && steps[k].action == CenterStep && s in steps[k].samples
  {
    if steps == [] then []
    else
      var rest := CenterSamples(steps[1..]);
      assert forall s :: s in rest ==> exists k :: 1 <= k < |steps| && steps[k].action == CenterStep && s in steps[k].samples by {
        forall s | s in rest
          ensures exists k :: 1 <= k < |steps| && steps[k].action == CenterStep && s in steps[k].samples
        {
          var j :| 0 <= j < |steps[1..]| && steps[1..][j].action == CenterStep && s in steps[1..][j].samples;
          assert steps[j + 1] == steps[1..][j];
        }
      }
      (if steps[0].action == CenterStep then steps[0].samples else []) + rest
  }

  /** Collecting the centre frames distributes over concatenating step lists. */
  lemma {:induction false} CenterSamplesAppend(a: seq<StepRecord>, b: seq<StepRecord>)
    ensures CenterSamples(a + b) == CenterSamples(a) + CenterSamples(b)
  {
    if a == [] {
      assert a + b == b;
    } else {
      assert (a + b)[0] == a[0];
      assert (a + b)[1..] == a[1..] + b;
      CenterSamplesAppend(a[1..], b);
    }
  }

  /**
   * Every step contributes its own frames, in place: a centre step's frames
   * all appear, between those of the earlier and the later steps, and any
   * other step adds none.
   */
  lemma CenterSamplesAt(steps: seq<StepRecord>, k: nat)
    requires k < |steps|
    ensures CenterSamples(steps)
         == CenterSamples(steps[..k])
            + (if steps[k].action == CenterStep then steps[k].samples else [])
            + CenterSamples(steps[k + 1..])
  {
    var before, rest, after := steps[..k], steps[k..], steps[k + 1..];
    var here := if steps[k].action == CenterStep then steps[k].samples else [];
    assert CenterSamples(steps) == CenterSamples(before) + CenterSamples(rest) by {
      assert steps == before + rest;
      CenterSamplesAppend(before, rest);
    }
    assert CenterSamples(rest) == here + CenterSamples(after) by {
      assert rest[0] == steps[k] && rest[1..] == after;
    }
    JoinThree(CenterSamples(steps), CenterSamples(before), CenterSamples(rest), here, CenterSamples(after));
  }

  lemma JoinThree<T>(whole: seq<T>, x: seq<T>, rest: seq<T>, y: seq<T>, z: seq<T>)
    requires whole == x + rest && rest == y + z
    ensures whole == x + y + z
  {
  }

  /** One captured centre frame is enough for the band to be recomputed. */
  lemma CentreFrameCalibrates(current: Thresholds, steps: seq<StepRecord>, k: nat)
    requires k < |steps| && steps[k].action == CenterStep && steps[k].samples != []
    ensures steps[k].samples[0] in CenterSamples(steps)
    ensures CalibratedThresholds(current, steps) == Thresholds(0.34, 0.46, 0.34, 0.46, 0.15)
  {
    CenterSamplesAt(steps, k);
    var pre := CenterSamples(steps[..k]);
    assert CenterSamples(steps)[|pre|] == steps[k].samples[0];
    PlaceholderCalibration(current, steps);
  }

  function LeftReadings(samples: seq<Sample>): seq<real>
  {
    seq(|samples|, i requires 0 <= i < |samples| => GazeRatiosOf(samples[i].landmarks).left)
  }

  function RightReadings(samples: seq<Sample>): seq<real>
  {
    seq(|samples|, i requires 0 <= i < |samples| => GazeRatiosOf(samples[i].landmarks).right)
  }

  /** The band of +-15% around the averaged ratios; it contains those averages. */
  function BandAround(avgLeft: real, avgRight: real): (t: Thresholds)
    ensures avgLeft >= 0.0 ==> t.leftMin <= avgLeft <= t.leftMax
    ensures avgRight >= 0.0 ==> t.rightMin <= avgRight <= t.rightMax
    ensures t.leftMax - t.leftMin == 0.3 * avgLeft && t.rightMax - t.rightMin == 0.3 * avgRight
    ensures t.headOffset == CalibratedHeadOffset
  {
    Thresholds(avgLeft * BandLow, avgLeft * BandHigh, avgRight * BandLow, avgRight * BandHigh,
               CalibratedHeadOffset)
  }

  /**
   * `calculateThresholds` as a function of the recorded steps: the band
   * around the centre frames' average ratios, or the current band unchanged
   * when no centre frame was captured.
   */
  function CalibratedThresholds(current: Thresholds, steps: seq<StepRecord>): Thresholds
  {
    var centre := CenterSamples(steps);
    if |centre| == 0 then current
    else BandAround(Mean(LeftReadings(centre)), Mean(RightReadings(centre)))
  }

  /**
   * With the placeholder readings, any calibration that captured at least
   * one centre frame ends with the band 0.34..0.46 on both sides and head
   * offset 0.15, whatever the face did.
   */
  lemma PlaceholderCalibration(current: Thresholds, steps: seq<StepRecord>)
    requires |CenterSamples(steps)| > 0
    ensures CalibratedThresholds(current, steps) == Thresholds(0.34, 0.46, 0.34, 0.46, 0.15)
  {
    var centre := CenterSamples(steps);
    MeanOfConstant(LeftReadings(centre), 0.4);
    MeanOfConstant(RightReadings(centre), 0.4);
  }

  /** Without a centre frame the band is left as it was. */
  lemma NoCentreKeepsBand(current: Thresholds, steps: seq<StepRecord>)
    requires forall k :: 0 <= k < |steps| ==> steps[k].action != CenterStep
    ensures CalibratedThresholds(current, steps) == current
  {
  }

  /**
   * Centre steps that captured no frame count as no centre step: a completed
   * calibration without any centre frame keeps the band it had.
   */
  lemma {:induction false} NoCentreFrameKeepsBand(current: Thresholds, steps: seq<StepRecord>)
    requires forall k :: 0 <= k < |steps| && steps[k].action == CenterStep ==> steps[k].samples == []
    ensures CenterSamples(steps) == []
    ensures CalibratedThresholds(current, steps) == current
  {
    if steps != [] {
      NoCentreFrameKeepsBand(current, steps[1..]);
    }
  }

  lemma SumStep(xs: seq<real>, i: nat)
    requires i < |xs|
    ensures Sum(xs[..i + 1]) == Sum(xs[..i]) + xs[i]
  {
    assert xs[..i + 1][..i] == xs[..i];
  }

  class CalibrationManager {
    var gazeThresholds: Thresholds
    var isCalibrating: bool
    var calibrationSamples: seq<StepRecord>

    constructor ()
      ensures gazeThresholds == DefaultThresholds
      ensures !isCalibrating && calibrationSamples == []
    {
      gazeThresholds := DefaultThresholds;
      isCalibrating := false;
      calibrationSamples := [];
    }

    /** The start of `startCalibration`: a fresh, empty recording. */
    method BeginCalibration()
      modifies this
      ensures isCalibrating && calibrationSamples == []
      ensures gazeThresholds == old(gazeThresholds)
    {
      isCalibrating := true;
      calibrationSamples := [];
    }

    /** The end of one `calibrateStep`: its frames are appended as one record. */
    method RecordStep(action: Action, samples: seq<Sample>, now: int)
      modifies this
      ensures calibrationSamples == old(calibrationSamples) + [StepRecord(action, samples, now)]
      ensures gazeThresholds == old(gazeThresholds) && isCalibrating == old(isCalibrating)
    {
      calibrationSamples := calibrationSamples + [StepRecord(action, samples, now)];
    }

    /** `calculateThresholds`: the sums are accumulated frame by frame. */
    method CalculateThresholds()
      modifies this
      ensures gazeThresholds == CalibratedThresholds(old(gazeThresholds), old(calibrationSamples))
      ensures calibrationSamples == old(calibrationSamples) && isCalibrating == old(isCalibrating)
    {
      var centre := CenterSamples(calibrationSamples);
      if |centre| > 0 {
        var leftSum, rightSum, headSum := 0.0, 0.0, 0.0;
        var i := 0;
        while i < |centre|
          invariant 0 <= i <= |centre|
          invariant leftSum == Sum(LeftReadings(centre)[..i])
          invariant rightSum == Sum(RightReadings(centre)[..i])
          invariant calibrationSamples == old(calibrationSamples) && isCalibrating == old(isCalibrating)
        {
          var gaze := GazeRatiosOf(centre[i].landmarks);
          SumStep(LeftReadings(centre), i);
          SumStep(RightReadings(centre), i);
          leftSum := leftSum + gaze.left;
          rightSum := rightSum + gaze.right;
          headSum := headSum + HeadPositionOf(centre[i].landmarks);
          i := i + 1;
        }
        assert LeftReadings(centre)[..i] == LeftReadings(centre);
        assert RightReadings(centre)[..i] == RightReadings(centre);
        var n := |centre| as real;
        gazeThresholds := BandAround(leftSum / n, rightSum / n);
      }
    }

    /**
     * The end of `startCalibration`: the band is recomputed only when the
     * recording was not cancelled, and calibration is over either way.
     */
    method FinishCalibration()
      modifies this
      ensures gazeThresholds == if old(isCalibrating) then CalibratedThresholds(old(gazeThresholds), old(calibrationSamples))
                                else old(gazeThresholds)
      ensures !isCalibrating && calibrationSamples == old(calibrationSamples)
    {
      if isCalibrating {
        CalculateThresholds();
      }
      isCalibrating := false;
    }

    /** `cancelCalibration`: recording stops and is discarded; the band is kept. */
    method CancelCalibration()
      modifies this
      ensures !isCalibrating && calibrationSamples == []
      ensures gazeThresholds == old(gazeThresholds)
    {
      isCalibrating := false;
      calibrationSamples := [];
    }
  }

  /**
   * A calibration cancelled mid-step leaves the band as it was: the
   * interrupted step still pushes its frames when its timer fires, but the
   * run then finishes without recomputing the band.
   */
  method CancelledRunKeepsBand(m: CalibrationManager, first: StepRecord, late: StepRecord)
    modifies m
    ensures m.gazeThresholds == old(m.gazeThresholds) && !m.isCalibrating
    ensures m.calibrationSamples == [late]
  {
    m.BeginCalibration();
    m.RecordStep(first.action, first.samples, first.timestamp);
    m.CancelCalibration();
    m.RecordStep(late.action, late.samples, late.timestamp);
    m.FinishCalibration();
  }
}
