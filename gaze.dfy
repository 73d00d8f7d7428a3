/**
 * The gaze analyser of the eye-contact page: per-eye gaze ratios from the
 * face-mesh landmarks, the fixed threshold tree that names a gaze zone, the
 * bounded history of gaze samples and the analytics over it (variation,
 * dwell time in the current zone, recommendation).
 */
module Gaze {
  import opened Common

  /** Capacity of the gaze history. */
  const MaxHistorySize: nat := 100

  /** Horizontal ratio below which the gaze is "left", above which it is "right". */
  const LeftMax: real := 0.35
  const RightMin: real := 0.65
  /** Vertical ratio below which the gaze is "up", above which it is "down". */
  const UpMax: real := 0.4
  const DownMin: real := 0.6

  /** Every zone name the classifier can produce. */
  const ZoneLabels: set<string> := {
    "center", "left", "right",
    "center-up", "left-up", "right-up", "up-left",
    "center-down", "left-down", "right-down", "down-left"
  }

  /** `s.includes(sub)`. */
  predicate Contains(s: string, sub: string)
    decreases |s|
  {
    |sub| <= |s| && (s[..|sub|] == sub || Contains(s[1..], sub))
  }

  lemma ContainsPrefix(s: string, sub: string)
    requires |sub| <= |s| && s[..|sub|] == sub
    ensures Contains(s, sub)
  {
  }

  /** A string without the first character of `sub` cannot contain `sub`. */
  lemma {:induction false} NoLetterNoContains(s: string, sub: string)
    requires |sub| > 0 && sub[0] !in s
    ensures !Contains(s, sub)
    decreases |s|
  {
    if |sub| <= |s| {
      assert s[0] in s;
      assert s[..|sub|] != sub by {
        assert s[..|sub|][0] == s[0];
      }
      NoLetterNoContains(s[1..], sub);
    }
  }

  datatype Side = LeftEye | RightEye

  /** Landmark indices of one eye: inner and outer corner, upper and lower lid, pupil. */
  datatype EyeIndices = EyeIndices(inner: nat, outer: nat, top: nat, bottom: nat, pupil: nat)

  function IndicesOf(side: Side): EyeIndices
  {
    match side
    case LeftEye => EyeIndices(33, 133, 159, 145, 468)
    case RightEye => EyeIndices(263, 362, 386, 374, 473)
  }

  /** Horizontal and vertical position of a pupil inside its eye, each in [0, 1] or NaN. */
  datatype EyeRatio = EyeRatio(horizontal: Num, vertical: Num)

  predicate Present(lm: Landmarks, ix: EyeIndices) {
    ix.inner in lm && ix.outer in lm && ix.pupil in lm
  }

  /**
   * `calculateEyeGaze`.  With a corner or the pupil missing the eye is
   * neutral (0.5, 0.5).  The lids are read without a check, so a missing lid
   * with the other three points present throws a TypeError: `None` here.  A
   * zero eye width or height divides by zero; the clamp turns +Infinity into
   * 1 and leaves 0/0 as NaN.
   */
  function EyeGaze(lm: Landmarks, side: Side): (r: Option<EyeRatio>)
    ensures var ix := IndicesOf(side);
      r.None? <==> Present(lm, ix) && (ix.top !in lm || ix.bottom !in lm)
    ensures !Present(lm, IndicesOf(side)) ==> r == Some(EyeRatio(Val(0.5), Val(0.5)))
    ensures r.Some? && r.value.horizontal.Val? ==> 0.0 <= r.value.horizontal.v <= 1.0
    ensures r.Some? && r.value.vertical.Val? ==> 0.0 <= r.value.vertical.v <= 1.0
    ensures var ix := IndicesOf(side);
      r.Some? && r.value.horizontal.NaN? <==>
        Present(lm, ix) && ix.top in lm && ix.bottom in lm
        && lm[ix.outer].x == lm[ix.inner].x && lm[ix.pupil].x == lm[ix.inner].x
  {
    var ix := IndicesOf(side);
    if !Present(lm, ix) then Some(EyeRatio(Val(0.5), Val(0.5)))
    else if ix.top !in lm || ix.bottom !in lm then None
    else
      var inner, outer, top, bottom, pupil := lm[ix.inner], lm[ix.outer], lm[ix.top], lm[ix.bottom], lm[ix.pupil];
      var eyeWidth := Abs(outer.x - inner.x);
      var eyeHeight := Abs(bottom.y - top.y);
      Some(EyeRatio(ClampedRatio(Abs(pupil.x - inner.x), eyeWidth),
                    ClampedRatio(Abs(pupil.y - top.y), eyeHeight)))
  }

  /** What `getCurrentGazeZone` returns. */
  datatype GazeReading = GazeReading(zone: string, confidence: real, horizontal: Num, vertical: Num)

  /**
   * The threshold tree of `getCurrentGazeZone`.  Confidence starts at 1.0,
   * becomes |h - 0.5| for a left or right gaze, and is returned as
   * max(0.1, 1 - confidence); NaN ratios fail every comparison.
   */
  function ClassifyGaze(h: Num, v: Num): (g: GazeReading)
    ensures g.zone in ZoneLabels
    ensures 0.1 <= g.confidence <= 1.0
    ensures !Below(h, LeftMax) && !Above(h, RightMin) ==> g.confidence == 0.1
    ensures g.horizontal == h && g.vertical == v
    ensures var left, right := Below(h, LeftMax), !Below(h, LeftMax) && Above(h, RightMin);
      var centre := !left && !right;
      var up, down := Below(v, UpMax), !Below(v, UpMax) && Above(v, DownMin);
      var level := !up && !down;
      && (g.zone == "up-left" <==> Below(v, 0.2))
      && (g.zone == "down-left" <==> Above(v, 0.8))
      && (g.zone == "left-up" <==> left && up && !Below(v, 0.2))
      && (g.zone == "right-up" <==> right && up && !Below(v, 0.2))
      && (g.zone == "center-up" <==> centre && up && !Below(v, 0.2))
      && (g.zone == "left-down" <==> left && down && !Above(v, 0.8))
      && (g.zone == "right-down" <==> right && down && !Above(v, 0.8))
      && (g.zone == "center-down" <==> centre && down && !Above(v, 0.8))
      && (g.zone == "left" <==> left && level)
      && (g.zone == "right" <==> right && level)
      && (g.zone == "center" <==> centre && level)
  {
    var horizontalZone := if Below(h, LeftMax) then "left" else if Above(h, RightMin) then "right" else "center";
    var offset := if Below(h, LeftMax) || Above(h, RightMin) then Abs(h.v - 0.5) else 1.0;
    SuffixedZonesAreLabels();
    var zone :=
      if Below(v, UpMax) then (if Below(v, 0.2) then "up-left" else horizontalZone + "-up")
      else if Above(v, DownMin) then (if Above(v, 0.8) then "down-left" else horizontalZone + "-down")
      else horizontalZone;
    GazeReading(zone, Max(0.1, 1.0 - offset), h, v)
  }

  lemma SuffixedZonesAreLabels()
    ensures forall hz :: hz in {"left", "right", "center"} ==> hz in ZoneLabels && hz + "-up" in ZoneLabels && hz + "-down" in ZoneLabels
    ensures "left" + "-up" == "left-up" && "right" + "-up" == "right-up" && "center" + "-up" == "center-up"
    ensures "left" + "-down" == "left-down" && "right" + "-down" == "right-down" && "center" + "-down" == "center-down"
  {
    assert "left" + "-up" == "left-up" && "right" + "-up" == "right-up" && "center" + "-up" == "center-up";
    assert "left" + "-down" == "left-down" && "right" + "-down" == "right-down" && "center" + "-down" == "center-down";
  }

  /**
   * The confidence is inverted with respect to the distance from the centre:
   * an off-centre gaze with a ratio in [0, 1] gets between 0.5 and 0.85,
   * always more than the 0.1 of a centred gaze.
   */
  lemma OffCentreConfidence(h: real, v: Num)
    requires 0.0 <= h <= 1.0 && (h < LeftMax || h > RightMin)
    ensures 0.5 <= ClassifyGaze(Val(h), v).confidence < 0.85
    ensures ClassifyGaze(Val(h), v).confidence > ClassifyGaze(Val(0.5), v).confidence
  {
  }

  /** `(a + b) / 2` on numbers that may be NaN. */
  function Average(a: Num, b: Num): (r: Num)
    ensures r.NaN? <==> a.NaN? || b.NaN?
  {
    Scale(0.5, Plus(a, b))
  }

  /**
   * `getCurrentGazeZone`: both eyes' ratios averaged and classified; `None`
   * when reading either eye throws.
   */
  function GazeFromLandmarks(lm: Landmarks): (r: Option<GazeReading>)
    ensures r.None? <==> EyeGaze(lm, LeftEye).None? || EyeGaze(lm, RightEye).None?
    ensures r.Some? ==> r.value.zone in ZoneLabels && 0.1 <= r.value.confidence <= 1.0
  {
    var l := EyeGaze(lm, LeftEye);
    var r := EyeGaze(lm, RightEye);
    if l.None? || r.None? then None
    else Some(ClassifyGaze(Average(l.value.horizontal, r.value.horizontal),
                           Average(l.value.vertical, r.value.vertical)))
  }

  /** A face without any eye landmarks reads as a centred gaze of confidence 0.1. */
  lemma NoEyesReadsCentred(lm: Landmarks)
    requires !Present(lm, IndicesOf(LeftEye)) && !Present(lm, IndicesOf(RightEye))
    ensures GazeFromLandmarks(lm) == Some(GazeReading("center", 0.1, Val(0.5), Val(0.5)))
  {
  }

  /** One entry of the gaze history. */
  datatype GazeSample = GazeSample(zone: string, confidence: real, horizontal: Num, vertical: Num, timestamp: int)

  function Stamp(g: GazeReading, now: int): GazeSample
  {
    GazeSample(g.zone, g.confidence, g.horizontal, g.vertical, now)
  }

  /** The number of adjacent pairs whose zones differ. */
  function ZoneChanges(w: seq<GazeSample>): nat
  {
    if |w| < 2 then 0
    else ZoneChanges(w[..|w| - 1]) + (if w[|w| - 1].zone != w[|w| - 2].zone then 1 else 0)
  }

  predicate SameZone(w: seq<GazeSample>) {
    forall i :: 0 <= i < |w| ==> w[i].zone == w[0].zone
  }

  /** No zone change happens exactly when every sample is in the same zone. */
  lemma {:induction false} NoChangesIffSameZone(w: seq<GazeSample>)
    ensures ZoneChanges(w) == 0 <==> SameZone(w)
  {
    if |w| >= 2 {
      var init := w[..|w| - 1];
      NoChangesIffSameZone(init);
      if SameZone(w) {
        assert SameZone(init) by {
          forall i | 0 <= i < |init| ensures init[i].zone == init[0].zone {
            assert init[i] == w[i] && init[0] == w[0];
          }
        }
        assert w[|w| - 1].zone == w[0].zone && w[|w| - 2].zone == w[0].zone;
      }
      if ZoneChanges(w) == 0 {
        assert ZoneChanges(init) == 0;
        forall i | 0 <= i < |w| ensures w[i].zone == w[0].zone {
          if i < |w| - 1 {
            assert init[i] == w[i] && init[0] == w[0];
          } else {
            assert init[|w| - 2] == w[|w| - 2];
          }
        }
      }
    }
  }

  /**
   * `calculateTimeVariation`: zone changes divided by `floor(n / 15)`,
   * capped at 1.  Below 15 samples that divisor is 0: any change gives
   * Infinity (capped to 1), no change gives 0/0 = NaN.
   */
  function TimeVariation(w: seq<GazeSample>): (r: Num)
  {
    if |w| < 2 then Val(0.0)
    else ClampedRatio(ZoneChanges(w) as real, (|w| / 15) as real)
  }

  /** The last 20 samples (`slice(-20)`). */
  function Window(h: seq<GazeSample>): (w: seq<GazeSample>)
    ensures |w| == if |h| <= 20 then |h| else 20
  {
    if |h| <= 20 then h else h[|h| - 20..]
  }

  function UniqueZones(w: seq<GazeSample>): set<string>
  {
    set i | 0 <= i < |w| :: w[i].zone
  }

  /** `calculateGazeVariation`. */
  function GazeVariation(h: seq<GazeSample>): Num
  {
    if |h| < 10 then Val(0.0)
    else
      var w := Window(h);
      AtMostOne(Plus(Val(|UniqueZones(w)| as real / 5.0 * 0.7), Scale(0.3, TimeVariation(w))))
  }

  /** With 15 or more samples the variation is a number in [0, 1]. */
  lemma VariationBoundedFromFifteen(h: seq<GazeSample>)
    requires |h| >= 15
    ensures GazeVariation(h).Val? && 0.0 <= GazeVariation(h).v <= 1.0
  {
    var w := Window(h);
    assert |w| / 15 == 1;
    assert TimeVariation(w).Val? && 0.0 <= TimeVariation(w).v <= 1.0;
  }

  /**
   * With 10 to 14 samples the change score divides by zero: the variation is
   * NaN exactly when every sample is in the same zone, and otherwise a
   * number in [0, 1].
   */
  lemma VariationNaNIffStatic(h: seq<GazeSample>)
    requires 10 <= |h| < 15
    ensures GazeVariation(h).NaN? <==> SameZone(h)
    ensures GazeVariation(h).Val? ==> 0.0 <= GazeVariation(h).v <= 1.0
  {
    assert Window(h) == h;
    assert |h| / 15 == 0;
    var t := TimeVariation(h);
    assert t == ClampedRatio(ZoneChanges(h) as real, 0.0);
    NoChangesIffSameZone(h);
    var u := |UniqueZones(h)| as real / 5.0 * 0.7;
    assert u >= 0.0;
    assert GazeVariation(h) == AtMostOne(Plus(Val(u), Scale(0.3, t)));
  }

  /** The first index of the trailing run of samples in the last sample's zone. */
  function RunStart(h: seq<GazeSample>): (k: nat)
    requires |h| > 0
    ensures k < |h|
    ensures forall j :: k <= j < |h| ==> h[j].zone == h[|h| - 1].zone
    ensures k > 0 ==> h[k - 1].zone != h[|h| - 1].zone
  {
    RunStartFrom(h, |h| - 1)
  }

  function RunStartFrom(h: seq<GazeSample>, i: nat): (k: nat)
    requires i < |h|
    requires forall j :: i <= j < |h| ==> h[j].zone == h[|h| - 1].zone
    ensures k <= i
    ensures forall j :: k <= j < |h| ==> h[j].zone == h[|h| - 1].zone
    ensures k > 0 ==> h[k - 1].zone != h[|h| - 1].zone
  {
    if i > 0 && h[i - 1].zone == h[|h| - 1].zone then RunStartFrom(h, i - 1) else i
  }

  /**
   * `getDurationInCurrentZone` in closed form: the time from the sample just
   * before the trailing run (the boundary interval included) to the last
   * sample, or from the first sample when the whole history is one run.
   */
  function DwellTime(h: seq<GazeSample>): int
  {
    if |h| < 2 then 0
    else
      var k := RunStart(h);
      h[|h| - 1].timestamp - h[if k == 0 then 0 else k - 1].timestamp
  }

  /** A history in a single zone has dwelt there from its first to its last sample. */
  lemma DwellOfSingleZone(h: seq<GazeSample>)
    requires |h| >= 2 && SameZone(h)
    ensures DwellTime(h) == h[|h| - 1].timestamp - h[0].timestamp
  {
    var k := RunStart(h);
    if k > 0 {
      assert false;
    }
  }

  predicate Chronological(h: seq<GazeSample>) {
    forall i, j :: 0 <= i <= j < |h| ==> h[i].timestamp <= h[j].timestamp
  }

  /** With timestamps in order the dwell time is never negative. */
  lemma DwellNonNegative(h: seq<GazeSample>)
    requires Chronological(h)
    ensures DwellTime(h) >= 0
  {
  }

  datatype Recommendation = TooStatic | TooErratic | TooLongInZone | GoodRhythm

  /** `generateRecommendation`'s decision table. */
  function Recommend(variation: Num, duration: int): (r: Recommendation)
    ensures variation.NaN? ==> r == TooLongInZone || r == GoodRhythm
    ensures r == TooStatic <==> Below(variation, 0.3)
    ensures r == TooErratic <==> Above(variation, 0.8)
    ensures r == TooLongInZone <==> !Below(variation, 0.3) && !Above(variation, 0.8) && duration > 10000
    ensures r == GoodRhythm <==> !Below(variation, 0.3) && !Above(variation, 0.8) && duration <= 10000
  {
    if Below(variation, 0.3) then TooStatic
    else if Above(variation, 0.8) then TooErratic
    else if duration > 10000 then TooLongInZone
    else GoodRhythm
  }

  /** Until ten samples are in, the recommendation is always "too static". */
  lemma FewSamplesTooStatic(h: seq<GazeSample>)
    requires |h| < 10
    ensures Recommend(GazeVariation(h), DwellTime(h)) == TooStatic
  {
  }

  /** What `analyzeGazePattern` returns. */
  datatype GazeData = GazeData(currentZone: string, confidence: real, variation: Num,
                               durationInZone: int, recommendation: Recommendation)

  /** The zone-change count and the capped change score of `calculateTimeVariation`. */
  method CalculateTimeVariation(w: seq<GazeSample>) returns (r: Num)
    ensures r == TimeVariation(w)
  {
    if |w| < 2 {
      return Val(0.0);
    }
    var zoneChanges := 0;
    var i := 1;
    while i < |w|
      invariant 1 <= i <= |w|
      invariant zoneChanges == ZoneChanges(w[..i])
    {
      assert w[..i + 1][..i] == w[..i];
      if w[i].zone != w[i - 1].zone {
        zoneChanges := zoneChanges + 1;
      }
      i := i + 1;
    }
    assert w[..|w|] == w;
    var optimalChanges := |w| / 15;
    r := ClampedRatio(zoneChanges as real, optimalChanges as real);
  }

  class GazeAnalyzer {
    var history: seq<GazeSample>

    ghost predicate Valid()
      reads this
    {
      |history| <= MaxHistorySize
    }

    constructor ()
      ensures Valid() && history == []
    {
      history := [];
    }

    /**
     * `addToHistory`: the sample is stamped and appended; when that makes
     * 101 entries the oldest is dropped.
     */
    method AddToHistory(g: GazeReading, now: int)
      requires Valid()
      modifies this
      ensures Valid()
      ensures |history| == if |old(history)| < MaxHistorySize then |old(history)| + 1 else MaxHistorySize
      ensures history[|history| - 1] == Stamp(g, now)
      ensures history[..|history| - 1] == old(history)[|old(history)| + 1 - |history|..]
      ensures history == (if |old(history)| < MaxHistorySize then old(history) else old(history)[1..])
                         + [Stamp(g, now)]
    {
      history := history + [Stamp(g, now)];
      if |history| > MaxHistorySize {
        history := history[1..];
      }
    }

    method CalculateGazeVariation() returns (r: Num)
      ensures r == GazeVariation(history)
    {
      if |history| < 10 {
        return Val(0.0);
      }
      var recent := if |history| <= 20 then history else history[|history| - 20..];
      var zoneVariation := |UniqueZones(recent)| as real / 5.0;
      var timeVariation := CalculateTimeVariation(recent);
      r := AtMostOne(Plus(Val(zoneVariation * 0.7), Scale(0.3, timeVariation)));
    }

    /** The backward walk of `getDurationInCurrentZone`. */
    method DurationInCurrentZone() returns (duration: int)
      ensures duration == DwellTime(history)
    {
      var n := |history|;
      if n < 2 {
        return 0;
      }
      var currentZone := history[n - 1].zone;
      duration := 0;
      var i := n - 1;
      while i >= 0
        invariant -1 <= i <= n - 1
        invariant forall j :: i < j < n ==> history[j].zone == currentZone
        invariant duration == history[n - 1].timestamp - history[if i < 0 then 0 else i].timestamp
      {
        if history[i].zone == currentZone {
          if i > 0 {
            duration := duration + (history[i].timestamp - history[i - 1].timestamp);
          }
        } else {
          break;
        }
        i := i - 1;
      }
    }

    method GenerateRecommendation() returns (rec: Recommendation)
      ensures rec == Recommend(GazeVariation(history), DwellTime(history))
    {
      var variation := CalculateGazeVariation();
      var duration := DurationInCurrentZone();
      rec := Recommend(variation, duration);
    }

    /**
     * `analyzeGazePattern`: classify the frame, record it, and report the
     * analytics over the updated history.  When reading the landmarks throws,
     * nothing is recorded.
     */
    method AnalyzeGazePattern(lm: Landmarks, now: int) returns (r: Option<GazeData>)
      requires Valid()
      modifies this
      ensures Valid()
      ensures GazeFromLandmarks(lm).None? ==> r.None? && history == old(history)
      ensures GazeFromLandmarks(lm).Some? ==>
        var g := GazeFromLandmarks(lm).value;
        && history == (if |old(history)| < MaxHistorySize then old(history) else old(history)[1..]) + [Stamp(g, now)]
        && r == Some(GazeData(g.zone, g.confidence, GazeVariation(history), DwellTime(history),
                              Recommend(GazeVariation(history), DwellTime(history))))
    {
      var current := GazeFromLandmarks(lm);
      if current.None? {
        return None;
      }
      var g := current.value;
      AddToHistory(g, now);
      var variation := CalculateGazeVariation();
      var duration := DurationInCurrentZone();
      var rec := GenerateRecommendation();
      r := Some(GazeData(g.zone, g.confidence, variation, duration, rec));
    }
  }
}
