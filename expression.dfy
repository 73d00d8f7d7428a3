/**
 * The expression analyser of the eye-contact page: smile, eyebrow
 * engagement and eye openness read from the landmarks, a weighted
 * confidence, and the first-match mood table.
 */
module Expression {
  import opened Common

  /** Mouth aspect ratio at which a smile starts to register, and its gain. */
  const SmileBaseline: real := 1.5
  const SmileGain: real := 2.0
  /** Added to the mouth height so that a closed mouth does not divide by zero. */
  const MouthEpsilon: real := 0.001
  /** Gain from the mean eyebrow-to-eye distance to engagement. */
  const BrowGain: real := 10.0

  predicate MouthPresent(lm: Landmarks) {
    61 in lm && 291 in lm && 0 in lm && 17 in lm
  }

  /** Mouth width and height (corners 61 and 291, lips 0 and 17). */
  function MouthWidth(lm: Landmarks): real
    requires MouthPresent(lm)
  {
    Abs(lm[291].x - lm[61].x)
  }

  function MouthHeight(lm: Landmarks): real
    requires MouthPresent(lm)
  {
    Abs(lm[17].y - lm[0].y)
  }

  /**
   * `analyzeSmile`: 0 without the mouth landmarks, otherwise the clamped,
   * scaled excess of width / (height + 0.001) over 1.5.  It is positive
   * exactly when that ratio exceeds 1.5 and saturates at 1 from a ratio of 2.
   */
  function AnalyzeSmile(lm: Landmarks): (r: real)
    ensures 0.0 <= r <= 1.0
    ensures !MouthPresent(lm) ==> r == 0.0
    ensures MouthPresent(lm) ==>
      var w, d := MouthWidth(lm), MouthHeight(lm) + MouthEpsilon;
      (r > 0.0 <==> w > SmileBaseline * d) && (r == 1.0 <==> w >= 2.0 * d)
  {
    if !MouthPresent(lm) then 0.0
    else
      var w, d := MouthWidth(lm), MouthHeight(lm) + MouthEpsilon;
      var ratio := w / d;
      RatioCompare(w, d, SmileBaseline);
      RatioCompare(w, d, 2.0);
      Clamp01((ratio - SmileBaseline) * SmileGain)
  }

  predicate BrowsPresent(lm: Landmarks) {
    65 in lm && 295 in lm && 33 in lm && 263 in lm
  }

  /** Mean vertical distance of the eyebrows (65, 295) above the eye corners (33, 263). */
  function BrowDistance(lm: Landmarks): (d: real)
    requires BrowsPresent(lm)
    ensures d >= 0.0
  {
    (Abs(lm[65].y - lm[33].y) + Abs(lm[295].y - lm[263].y)) / 2.0
  }

  /** `analyzeEyebrows`: 0 without the landmarks, else 10 × mean distance clamped to [0, 1]. */
  function AnalyzeEyebrows(lm: Landmarks): (r: real)
    ensures 0.0 <= r <= 1.0
    ensures !BrowsPresent(lm) ==> r == 0.0
    ensures BrowsPresent(lm) ==> (r == 1.0 <==> BrowDistance(lm) >= 0.1)
    ensures BrowsPresent(lm) && BrowDistance(lm) < 0.1 ==> r == BrowGain * BrowDistance(lm)
  {
    if !BrowsPresent(lm) then 0.0 else Clamp01(BrowDistance(lm) * BrowGain)
  }

  predicate LidsPresent(lm: Landmarks) {
    159 in lm && 145 in lm && 386 in lm && 374 in lm
  }

  /** `analyzeEyeOpenness`: 0.5 without the lids, else the mean lid separation (never negative). */
  function AnalyzeEyeOpenness(lm: Landmarks): (r: real)
    ensures r >= 0.0
    ensures !LidsPresent(lm) ==> r == 0.5
    ensures LidsPresent(lm) ==> (r == 0.0 <==> lm[145].y == lm[159].y && lm[374].y == lm[386].y)
    ensures LidsPresent(lm) ==>
      var left, right := Abs(lm[145].y - lm[159].y), Abs(lm[374].y - lm[386].y);
      (left <= r <= right || right <= r <= left) && r - left == right - r
  {
    if !LidsPresent(lm) then 0.5
    else (Abs(lm[145].y - lm[159].y) + Abs(lm[374].y - lm[386].y)) / 2.0
  }

  /** `calculateConfidenceScore`: weights 0.4, 0.3, 0.3. */
  function ConfidenceScore(smile: real, eyebrows: real, openness: real): (r: real)
    ensures 0.0 <= smile <= 1.0 && 0.0 <= eyebrows <= 1.0 && 0.0 <= openness <= 1.0 ==> 0.0 <= r <= 1.0
    ensures smile == eyebrows == openness ==> r == smile
  {
    smile * 0.4 + eyebrows * 0.3 + openness * 0.3
  }

  datatype Mood = Enthusiastic | Friendly | Engaged | Neutral | Focused

  /** `determineMood`: the first matching row of the mood table. */
  function DetermineMood(smile: real, eyebrows: real): (m: Mood)
    ensures smile > 0.5 <==> m == Enthusiastic || m == Friendly
    ensures m == Enthusiastic <==> smile > 0.7 && eyebrows > 0.5
    ensures m == Friendly <==> smile > 0.5 && !(smile > 0.7 && eyebrows > 0.5)
    ensures m == Engaged <==> smile <= 0.5 && eyebrows > 0.6
    ensures m == Neutral <==> smile < 0.2 && eyebrows < 0.2
    ensures m == Focused <==> smile <= 0.5 && eyebrows <= 0.6 && (smile >= 0.2 || eyebrows >= 0.2)
  {
    if smile > 0.7 && eyebrows > 0.5 then Enthusiastic
    else if smile > 0.5 then Friendly
    else if eyebrows > 0.6 then Engaged
    else if smile < 0.2 && eyebrows < 0.2 then Neutral
    else Focused
  }

  /** What `analyzeExpressions` returns. */
  datatype EmotionData = EmotionData(smileIntensity: real, engagement: real, confidence: real,
                                     eyeOpenness: real, overallMood: Mood)

  /** `analyzeExpressions`. */
  function AnalyzeExpressions(lm: Landmarks): (e: EmotionData)
    ensures 0.0 <= e.smileIntensity <= 1.0 && 0.0 <= e.engagement <= 1.0 && e.eyeOpenness >= 0.0
    ensures e.overallMood == DetermineMood(e.smileIntensity, e.engagement)
  {
    var smile := AnalyzeSmile(lm);
    var brows := AnalyzeEyebrows(lm);
    var openness := AnalyzeEyeOpenness(lm);
    EmotionData(smile, brows, ConfidenceScore(smile, brows, openness), openness, DetermineMood(smile, brows))
  }

  /** A face reported without mouth and eyebrow landmarks reads as neutral. */
  lemma MissingFaceIsNeutral(lm: Landmarks)
    requires !MouthPresent(lm) && !BrowsPresent(lm)
    ensures AnalyzeExpressions(lm).overallMood == Neutral
  {
  }
}
