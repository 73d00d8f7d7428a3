/**
 * The state of the practice page (`appState`) and the handlers that change
 * it: calibration, the start of a session, each camera frame, each final
 * speech result, and the end of a session with its metrics, hesitation
 * chart and feedback bands.
 */
module Coach {
  import opened Common
  import opened Text
  import opened Speech
  import opened GazeDirection

  datatype GazeEvent = GazeEvent(time: int, gaze: Direction)
  datatype TranscriptEntry = TranscriptEntry(time: int, text: string)

  datatype Percentages = Percentages(left: real, right: real, center: real, up: real, down: real)
  datatype SpeechMetrics = SpeechMetrics(totalWords: nat, fillerWords: nat, tempoWPM: int, fillerRatio: real)
  datatype Metrics = Metrics(percentages: Percentages, speech: SpeechMetrics)

  /** How many events of the history have direction `d`. */
  function CountOf(h: seq<GazeEvent>, d: Direction): (n: nat)
    ensures n <= |h|
  {
    if h == [] then 0 else CountOf(h[..|h| - 1], d) + (if h[|h| - 1].gaze == d then 1 else 0)
  }

  /** Every event has exactly one of the five directions, so the five counts add up to the total. */
  lemma {:induction false} CountsPartition(h: seq<GazeEvent>)
    ensures CountOf(h, Left) + CountOf(h, Right) + CountOf(h, Center) + CountOf(h, Up) + CountOf(h, Down) == |h|
  {
    if h != [] {
      CountsPartition(h[..|h| - 1]);
    }
  }

  /** `tempoWPM`: words per minute rounded, or 0 when no time has passed. */
  function TempoOf(words: nat, durationMs: int): (wpm: int)
    ensures durationMs <= 0 ==> wpm == 0
    ensures wpm >= 0
    ensures durationMs == 60000 ==> wpm == words
  {
    var minutes := durationMs as real / 60000.0;
    if minutes > 0.0 then Round(words as real / minutes) else 0
  }

  /** `fillerRatio`: fillers per word, or 0 without words. */
  function FillerRatioOf(words: nat, fillers: nat): (r: real)
    ensures words == 0 ==> r == 0.0
    ensures r >= 0.0
    ensures fillers <= words ==> r <= 1.0
  {
    if words > 0 then fillers as real / words as real else 0.0
  }

  /** A count out of a positive total is a fraction in [0, 1]. */
  lemma FractionInUnit(a: nat, total: real)
    requires 0.0 < total && a as real <= total
    ensures 0.0 <= a as real / total <= 1.0
  {
    RatioCompare(a as real, total, 1.0);
    RatioCompare(a as real, total, 0.0);
  }

  /** Fractions over one denominator add up as their numerators do. */
  lemma SharedDenominator(a: nat, b: nat, c: nat, d: nat, e: nat, total: real)
    requires total > 0.0
    ensures a as real / total + b as real / total + c as real / total + d as real / total + e as real / total
            == (a + b + c + d + e) as real / total
  {
    var x := a as real / total + b as real / total + c as real / total + d as real / total + e as real / total;
    assert x * total == (a as real / total) * total + (b as real / total) * total + (c as real / total) * total
                        + (d as real / total) * total + (e as real / total) * total;
    assert x * total == (a + b + c + d + e) as real;
  }

  lemma SelfRatio(t: real)
    requires t > 0.0
    ensures t / t == 1.0
  {
  }

  /** Five counts that make up a total are five fractions in [0, 1] that sum to 1. */
  lemma FiveShares(l: nat, r: nat, c: nat, u: nat, d: nat, total: real)
    requires total > 0.0 && (l + r + c + u + d) as real == total
    ensures 0.0 <= l as real / total <= 1.0 && 0.0 <= r as real / total <= 1.0
    ensures 0.0 <= c as real / total <= 1.0 && 0.0 <= u as real / total <= 1.0 && 0.0 <= d as real / total <= 1.0
    ensures l as real / total + r as real / total + c as real / total + u as real / total + d as real / total == 1.0
  {
    SharedDenominator(l, r, c, u, d, total);
    SelfRatio(total);
    FractionInUnit(l, total);
    FractionInUnit(r, total);
    FractionInUnit(c, total);
    FractionInUnit(u, total);
    FractionInUnit(d, total);
  }

  /** The share of each direction in a non-empty gaze history. */
  function PercentagesOf(h: seq<GazeEvent>): (p: Percentages)
    requires |h| > 0
    ensures 0.0 <= p.left <= 1.0 && 0.0 <= p.right <= 1.0 && 0.0 <= p.center <= 1.0
    ensures 0.0 <= p.up <= 1.0 && 0.0 <= p.down <= 1.0
    ensures p.left + p.right + p.center + p.up + p.down == 1.0
  {
    var total := |h| as real;
    var l, r, c, u, d := CountOf(h, Left), CountOf(h, Right), CountOf(h, Center), CountOf(h, Up), CountOf(h, Down);
    CountsPartition(h);
    FiveShares(l, r, c, u, d, total);
    Percentages(l as real / total, r as real / total, c as real / total, u as real / total, d as real / total)
  }

  /** The metrics `saveSession` stores for a non-empty gaze history. */
  function MetricsOf(h: seq<GazeEvent>, words: nat, fillers: nat, durationMs: int): Metrics
    requires |h| > 0
  {
    Metrics(PercentagesOf(h), SpeechMetrics(words, fillers, TempoOf(words, durationMs), FillerRatioOf(words, fillers)))
  }

  /** Eye position minus nose position for one frame, when both have a landmark. */
  function FrameOffset(lm: Landmarks): Option<Point>
  {
    var eye := PresentPoints(LeftEyeIndices, lm);
    var head := PresentPoints(NoseIndices, lm);
    if eye == [] || head == [] then None
    else
      var e, n := AveragePoints(eye), AveragePoints(head);
      Some(Point(e.x - n.x, e.y - n.y))
  }

  /** The eye and nose points of `handleResults` and their difference; `None` when either is missing. */
  method MeasureOffset(lm: Landmarks) returns (r: Option<Point>)
    ensures r == FrameOffset(lm)
  {
    var eye := GetPoint(LeftEyeIndices, lm);
    var head := GetPoint(NoseIndices, lm);
    if eye.None? || head.None? {
      return None;
    }
    r := Some(Point(eye.value.x - head.value.x, eye.value.y - head.value.y));
  }

  /** What the results panel and the feedback show. */
  datatype Report = Report(hesitations: nat, series: seq<nat>, tempo: TempoBand,
                           hesitationBand: HesitationBand, gazeBand: GazeBand)

  function Texts(t: seq<TranscriptEntry>): (r: seq<string>)
    ensures |r| == |t| && forall i :: 0 <= i < |t| ==> r[i] == t[i].text
  {
    seq(|t|, i requires 0 <= i < |t| => t[i].text)
  }

  lemma CountStep(h: seq<GazeEvent>, i: nat, d: Direction)
    requires i < |h|
    ensures CountOf(h[..i + 1], d) == CountOf(h[..i], d) + (if h[i].gaze == d then 1 else 0)
  {
    assert h[..i + 1][..i] == h[..i];
  }

  lemma AfterWordsStep(c: Counters, ws: seq<string>, i: nat)
    requires i < |ws|
    ensures AfterWords(c, ws[..i + 1]) == WordStep(AfterWords(c, ws[..i]), ws[i])
  {
    assert ws[..i + 1][..i] == ws[..i];
  }

  lemma AfterPhrasesStep(c: Counters, n: string, es: seq<string>, i: nat)
    requires AllNonEmpty(es) && i < |es|
    ensures AllNonEmpty(es[..i]) && AllNonEmpty(es[..i + 1])
    ensures AfterPhrases(c, n, es[..i + 1])
            == (if ' ' in es[i] then PhraseStep(AfterPhrases(c, n, es[..i]), n, es[i])
                else AfterPhrases(c, n, es[..i]))
  {
    assert es[..i + 1][..i] == es[..i];
  }

  lemma RunningSumStep(xs: seq<nat>, i: nat)
    requires i < |xs|
    ensures RunningSum(xs[..i + 1]) == RunningSum(xs[..i]) + xs[i]
  {
    assert xs[..i + 1][..i] == xs[..i];
  }

  /** The per-word `forEach` of `processFinalSpeech`, one word at a time. */
  method CountWords(start: Counters, words: seq<string>) returns (r: Counters)
    ensures r == AfterWords(start, words)
  {
    r := start;
    var i := 0;
    while i < |words|
      invariant 0 <= i <= |words|
      invariant r == AfterWords(start, words[..i])
    {
      AfterWordsStep(start, words, i);
      r := CountWord(r, words[i]);
      i := i + 1;
    }
    assert words[..i] == words;
  }

  /** The callback of the per-word `forEach`: one word. */
  method CountWord(c: Counters, w: string) returns (r: Counters)
    ensures r == WordStep(c, w)
  {
    var lexicon := w in FillerWords;
    var bare := IsBareSound(w);
    var m := MiniSounds(w);
    var fillers, hesitations := c.fillerCount, c.hesitations;
    if lexicon {
      fillers := fillers + 1;
      hesitations := IncOr(hesitations, 1);
    }
    if bare {
      hesitations := IncOr(hesitations, 1);
    }
    if m > 0 {
      hesitations := AddTo(hesitations, m);
    }
    r := Counters(c.totalWords + 1, fillers, hesitations);
  }

  /**
   * The per-phrase `forEach` of `processFinalSpeech`: over the lexicon
   * `entries` (always `FILLER_WORDS`), the ones with a space are counted.
   */
  method CountPhrases(start: Counters, normalized: string, entries: seq<string>) returns (r: Counters)
    requires AllNonEmpty(entries)
    ensures r == AfterPhrases(start, normalized, entries)
  {
    var fillers, hesitations := start.fillerCount, start.hesitations;
    var j := 0;
    while j < |entries|
      invariant 0 <= j <= |entries|
      invariant AllNonEmpty(entries[..j])
      invariant Counters(start.totalWords, fillers, hesitations) == AfterPhrases(start, normalized, entries[..j])
    {
      AfterPhrasesStep(start, normalized, entries, j);
      var f := entries[j];
      if ' ' in f {
        var m := CountMatches(normalized, [f]);
        if m > 0 {
          fillers := fillers + m;
          hesitations := IncOr(hesitations, m);
        }
      }
      j := j + 1;
    }
    assert entries[..j] == entries;
    r := Counters(start.totalWords, fillers, hesitations);
  }

  /** The two passes of `processFinalSpeech` over one normalised segment. */
  method CountSegment(start: Counters, text: string) returns (r: Counters)
    ensures r == AfterSegment(start, text)
  {
    var normalized := Normalize(text);
    var afterWords := CountWords(start, Tokens(normalized));
    LexiconNonEmpty();
    r := CountPhrases(afterWords, normalized, FillerWords);
  }

  /** The counting `forEach` of `saveSession`. */
  method CountDirections(h: seq<GazeEvent>) returns (left: nat, right: nat, center: nat, up: nat, down: nat)
    ensures left == CountOf(h, Left) && right == CountOf(h, Right) && center == CountOf(h, Center)
    ensures up == CountOf(h, Up) && down == CountOf(h, Down)
  {
    left, right, center, up, down := 0, 0, 0, 0, 0;
    var i := 0;
    while i < |h|
      invariant 0 <= i <= |h|
      invariant left == CountOf(h[..i], Left) && right == CountOf(h[..i], Right)
      invariant center == CountOf(h[..i], Center)
      invariant up == CountOf(h[..i], Up) && down == CountOf(h[..i], Down)
    {
      CountStep(h, i, Left);
      CountStep(h, i, Right);
      CountStep(h, i, Center);
      CountStep(h, i, Up);
      CountStep(h, i, Down);
      match h[i].gaze {
        case Left => left := left + 1;
        case Right => right := right + 1;
        case Center => center := center + 1;
        case Up => up := up + 1;
        case Down => down := down + 1;
      }
      i := i + 1;
    }
    assert h[..i] == h;
  }

  /** The loop of `showResultsPanel` over the segment texts. */
  method CumulativeSeries(texts: seq<string>) returns (series: seq<nat>)
    ensures series == Cumulative(ChartCounts(texts))
  {
    ghost var counts := ChartCounts(texts);
    series := [];
    var cumulative := 0;
    var i := 0;
    while i < |texts|
      invariant 0 <= i <= |texts|
      invariant cumulative == RunningSum(counts[..i])
      invariant series == Cumulative(counts[..i])
    {
      RunningSumStep(counts, i);
      assert counts[..i + 1][..i] == counts[..i];
      var h := SegmentHesitations(texts[i]);
      assert h == counts[i];
      cumulative := cumulative + h;
      series := series + [cumulative];
      i := i + 1;
    }
    assert counts[..i] == counts;
  }

  class CoachState {
    var isCalibrated: bool
    var calibrationData: Option<CalibrationPoints>
    var latestLandmarks: Option<Landmarks>
    var smoothedEye: Option<Point>
    var sessionActive: bool
    /** `sessionStart`; its initial `null` counts as 0 in arithmetic. */
    var sessionStart: int
    var gazeHistory: seq<GazeEvent>
    /** `metrics`: `{}` until the first saved session. */
    var metrics: Option<Metrics>
    var totalWords: nat
    var fillerCount: nat
    var hesitationCount: Hes
    var transcript: seq<TranscriptEntry>

    /** A session only runs after calibration, and calibration always leaves the offsets. */
    predicate Valid()
      reads this
    {
      (sessionActive ==> isCalibrated) && (isCalibrated ==> calibrationData.Some?)
    }

    function SpeechCounters(): Counters
      reads this
    {
      Counters(totalWords, fillerCount, hesitationCount)
    }

    constructor ()
      ensures Valid()
      ensures !isCalibrated && calibrationData.None? && latestLandmarks.None? && smoothedEye.None?
      ensures !sessionActive && sessionStart == 0 && gazeHistory == [] && metrics.None?
      ensures totalWords == 0 && fillerCount == 0 && hesitationCount == Undefined && transcript == []
    {
      isCalibrated := false;
      calibrationData := None;
      latestLandmarks := None;
      smoothedEye := None;
      sessionActive := false;
      sessionStart := 0;
      gazeHistory := [];
      metrics := None;
      totalWords := 0;
      fillerCount := 0;
      hesitationCount := Undefined;
      transcript := [];
    }

    /** The outcome of `calibrateUser`: the mean of each direction's 15 eye-minus-nose samples. */
    method Calibrate(left: seq<Point>, right: seq<Point>, center: seq<Point>, up: seq<Point>, down: seq<Point>)
      requires Valid()
      requires |left| == 15 && |right| == 15 && |center| == 15 && |up| == 15 && |down| == 15
      modifies this
      ensures Valid() && isCalibrated
      ensures calibrationData == Some(CalibrationPoints(AveragePoints(left), AveragePoints(right),
        AveragePoints(center), AveragePoints(up), AveragePoints(down)))
      ensures sessionActive == old(sessionActive) && gazeHistory == old(gazeHistory)
      ensures SpeechCounters() == old(SpeechCounters()) && transcript == old(transcript) && metrics == old(metrics)
      ensures smoothedEye == old(smoothedEye) && sessionStart == old(sessionStart)
      ensures latestLandmarks == old(latestLandmarks)
    {
      calibrationData := Some(CalibrationPoints(AveragePoints(left), AveragePoints(right),
        AveragePoints(center), AveragePoints(up), AveragePoints(down)));
      isCalibrated := true;
    }

    /**
     * `startSession`: nothing happens before calibration; otherwise the gaze
     * history, smoothing, word and filler counts and transcript restart,
     * but the hesitation counter carries over from earlier sessions.
     */
    method StartSession(now: int) returns (started: bool)
      requires Valid()
      modifies this
      ensures Valid()
      ensures started == old(isCalibrated)
      ensures started ==> sessionActive && sessionStart == now && gazeHistory == [] && smoothedEye.None?
                          && totalWords == 0 && fillerCount == 0 && transcript == []
      ensures !started ==> sessionActive == old(sessionActive) && sessionStart == old(sessionStart)
                           && gazeHistory == old(gazeHistory) && smoothedEye == old(smoothedEye)
                           && SpeechCounters() == old(SpeechCounters()) && transcript == old(transcript)
      ensures hesitationCount == old(hesitationCount)
      ensures isCalibrated == old(isCalibrated) && calibrationData == old(calibrationData)
      ensures metrics == old(metrics) && latestLandmarks == old(latestLandmarks)
    {
      if !isCalibrated {
        return false;
      }
      sessionActive := true;
      sessionStart := now;
      gazeHistory := [];
      smoothedEye := None;
      totalWords := 0;
      fillerCount := 0;
      transcript := [];
      started := true;
    }

    /** Stores the three speech counters and nothing else. */
    method SetCounters(c: Counters)
      modifies this
      ensures SpeechCounters() == c
      ensures transcript == old(transcript)
      ensures isCalibrated == old(isCalibrated) && calibrationData == old(calibrationData)
      ensures sessionActive == old(sessionActive) && sessionStart == old(sessionStart)
      ensures gazeHistory == old(gazeHistory) && smoothedEye == old(smoothedEye)
      ensures metrics == old(metrics) && latestLandmarks == old(latestLandmarks)
    {
      totalWords, fillerCount, hesitationCount := c.totalWords, c.fillerCount, c.hesitations;
    }

    /**
     * `processFinalSpeech`: a word pass and a phrase pass over the
     * normalised segment update the three counters, and the raw segment is
     * appended to the transcript.
     */
    method ProcessFinalSpeech(text: string, now: int)
      modifies this
      ensures SpeechCounters() == AfterSegment(old(SpeechCounters()), text)
      ensures transcript == old(transcript) + [TranscriptEntry(now, text)]
      ensures isCalibrated == old(isCalibrated) && calibrationData == old(calibrationData)
      ensures sessionActive == old(sessionActive) && sessionStart == old(sessionStart)
      ensures gazeHistory == old(gazeHistory) && smoothedEye == old(smoothedEye)
      ensures metrics == old(metrics) && latestLandmarks == old(latestLandmarks)
    {
      var updated := CountSegment(SpeechCounters(), text);
      SetCounters(updated);
      transcript := transcript + [TranscriptEntry(now, text)];
    }

    /**
     * The session part of `handleResults`: a frame with a face always
     * becomes the latest landmarks; during a session, a frame with both an
     * eye and a nose landmark updates the smoothed offset and appends its
     * direction to the gaze history.
     */
    method HandleResults(faces: seq<Landmarks>, now: int)
      requires Valid()
      modifies this
      ensures Valid()
      ensures latestLandmarks == if faces == [] then old(latestLandmarks) else Some(faces[0])
      ensures sessionActive == old(sessionActive) && calibrationData == old(calibrationData)
      ensures var recorded := faces != [] && old(sessionActive) && FrameOffset(faces[0]).Some?;
        (recorded ==>
          calibrationData.Some?
          && smoothedEye == Some(Smooth(old(smoothedEye), FrameOffset(faces[0]).value))
          && gazeHistory == old(gazeHistory) + [GazeEvent(now, DetectGaze(smoothedEye.value, calibrationData.value))])
        && (!recorded ==> smoothedEye == old(smoothedEye) && gazeHistory == old(gazeHistory))
      ensures isCalibrated == old(isCalibrated) && calibrationData == old(calibrationData)
      ensures sessionActive == old(sessionActive) && sessionStart == old(sessionStart)
      ensures SpeechCounters() == old(SpeechCounters()) && transcript == old(transcript) && metrics == old(metrics)
    {
      if faces == [] {
        return;
      }
      var lm := faces[0];
      latestLandmarks := Some(lm);
      if !sessionActive {
        return;
      }
      var offset := MeasureOffset(lm);
      if offset.None? {
        return;
      }
      var c := offset.value;
      smoothedEye := Some(Smooth(smoothedEye, c));
      var gaze := DetectGaze(smoothedEye.value, calibrationData.value);
      gazeHistory := gazeHistory + [GazeEvent(now, gaze)];
    }

    /**
     * `saveSession`: nothing is stored for an empty gaze history; otherwise
     * the directions are counted and the metrics computed from the counts,
     * the word counters and the session's length.
     */
    method SaveSession(now: int)
      modifies this
      ensures metrics == if old(gazeHistory) == [] then old(metrics)
                         else Some(MetricsOf(old(gazeHistory), old(totalWords), old(fillerCount), now - old(sessionStart)))
      ensures isCalibrated == old(isCalibrated) && calibrationData == old(calibrationData)
      ensures sessionActive == old(sessionActive) && sessionStart == old(sessionStart)
      ensures gazeHistory == old(gazeHistory) && smoothedEye == old(smoothedEye)
      ensures SpeechCounters() == old(SpeechCounters()) && transcript == old(transcript)
      ensures latestLandmarks == old(latestLandmarks)
    {
      if gazeHistory == [] {
        return;
      }
      var left, right, center, up, down := CountDirections(gazeHistory);
      var total := |gazeHistory| as real;
      var minutes := (now - sessionStart) as real / 60000.0;
      var tempo := if minutes > 0.0 then Round(totalWords as real / minutes) else 0;
      var ratio := if totalWords > 0 then fillerCount as real / totalWords as real else 0.0;
      metrics := Some(Metrics(
        Percentages(left as real / total, right as real / total, center as real / total,
                    up as real / total, down as real / total),
        SpeechMetrics(totalWords, fillerCount, tempo, ratio)));
    }

    /**
     * The chart series of `showResultsPanel`: the cumulative count after
     * each transcript segment.  It never decreases.
     */
    method HesitationSeries() returns (series: seq<nat>)
      ensures |series| == |transcript|
      ensures forall i :: 0 <= i < |series| ==> series[i] == RunningSum(ChartCounts(Texts(transcript))[..i + 1])
      ensures forall i, j :: 0 <= i <= j < |series| ==> series[i] <= series[j]
    {
      series := CumulativeSeries(Texts(transcript));
      CumulativeIsRunningSums(ChartCounts(Texts(transcript)));
    }

    /**
     * `showResultsPanel` with `updateFeedback`.  Before any session was
     * saved the metrics are `{}`, reading their speech part throws, and
     * there is no report.  The hesitation figure is the live counter (0 when
     * undefined or NaN) against the saved word count.
     */
    method ResultsReport() returns (r: Option<Report>)
      ensures r.None? <==> metrics.None?
      ensures r.Some? ==>
        var m := metrics.value;
        r.value.hesitations == Shown(hesitationCount)
        && |r.value.series| == |transcript|
        && (forall i :: 0 <= i < |r.value.series| ==>
              r.value.series[i] == RunningSum(ChartCounts(Texts(transcript))[..i + 1]))
        && r.value.tempo == TempoBandOf(m.speech.tempoWPM)
        && r.value.hesitationBand == HesitationBandOf(Shown(hesitationCount), m.speech.totalWords)
        && r.value.gazeBand == GazeBandOf(m.percentages.center)
    {
      if metrics.None? {
        return None;
      }
      var m := metrics.value;
      var hesitations := Shown(hesitationCount);
      var series := HesitationSeries();
      r := Some(Report(hesitations, series, TempoBandOf(m.speech.tempoWPM),
                       HesitationBandOf(hesitations, m.speech.totalWords), GazeBandOf(m.percentages.center)));
    }

    /** `stopSession`: the session ends, its metrics are saved and the report shown. */
    method StopSession(now: int) returns (r: Option<Report>)
      requires Valid()
      modifies this
      ensures Valid() && !sessionActive
      ensures metrics == if old(gazeHistory) == [] then old(metrics)
                         else Some(MetricsOf(old(gazeHistory), old(totalWords), old(fillerCount), now - old(sessionStart)))
      ensures r.None? <==> metrics.None?
      ensures r.Some? ==>
        var m := metrics.value;
        r.value.hesitations == Shown(hesitationCount)
        && |r.value.series| == |transcript|
        && (forall i :: 0 <= i < |r.value.series| ==>
              r.value.series[i] == RunningSum(ChartCounts(Texts(transcript))[..i + 1]))
        && r.value.tempo == TempoBandOf(m.speech.tempoWPM)
        && r.value.hesitationBand == HesitationBandOf(Shown(hesitationCount), m.speech.totalWords)
        && r.value.gazeBand == GazeBandOf(m.percentages.center)
      ensures isCalibrated == old(isCalibrated) && calibrationData == old(calibrationData)
      ensures sessionStart == old(sessionStart) && smoothedEye == old(smoothedEye)
      ensures latestLandmarks == old(latestLandmarks)
      ensures gazeHistory == old(gazeHistory) && SpeechCounters() == old(SpeechCounters())
      ensures transcript == old(transcript)
    {
      sessionActive := false;
      SaveSession(now);
      r := ResultsReport();
    }
  }
}
