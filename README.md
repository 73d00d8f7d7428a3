# speakercoach — a verified model of the scoring and counting core

speakercoach is a public-speaking trainer. Two browser pages watch the
speaker through a face-mesh camera feed and listen through speech
recognition. The pages then score eye contact, classify where the speaker
looks, count filler words and hesitations, and summarise each practice
session. A small Django view keeps the last ten results in the visitor's
session.

This project models the logic of those pages and of the view in Dafny:

- **Eye-contact page** (`static/js/eyecontact.js`):
  - `Gaze`: the gaze analyser. It reads per-eye gaze ratios from the
    landmarks and names the zone with a fixed threshold tree. It keeps a
    gaze history capped at 100 entries and measures gaze variation, the
    dwell time in the current zone and a recommendation.
  - `Scoring`: the per-frame eye-contact score. This covers the gaze,
    head-position and alignment sub-scores, their blend, the calibration
    penalty and the clamp to [0, 100]. It also holds the colour bands and
    the running good-frame percentage.
  - `Expression`: the expression analyser. It reads smile, eyebrows and eye
    openness, computes a confidence and picks the mood from a first-match
    table.
  - `Calibration`: the calibration manager. It records calibration steps,
    derives the gaze band from the centre step, and handles cancellation.
  - `Session`: the session manager. It appends frames with a 1000-frame
    cap and builds the end-of-session summary: mean, best streak, dominant
    zone and mood, consistency and improvement rules. It also keeps the
    list of finished sessions and the progress report.
- **Practice page** (`static/js/main.js`):
  - `GazeDirection`: the eye and nose positions as means of the landmarks
    present in the frame. It also holds the exponential smoothing and the
    five-way direction classifier against calibrated offsets.
  - `Text` and `Speech`: the normalisation of a recognised segment, which
    lower-cases it, trims it, collapses letter runs and splits it into
    words. They also hold the filler lexicon and the per-word and
    per-phrase counting rules, the hesitation chart series and the three
    feedback bands.
  - `Coach`: the page state as a class, with the handlers that change it.
- **History view** (`test/views.py`): `History` holds `save_session` and
  `get_history`.

JavaScript numbers are modelled as reals. Where the code can produce NaN,
the model carries it explicitly: `Num = Val(real) | NaN`, and comparisons
with NaN are false as in JavaScript. +Infinity only ever appears just
before a `Math.min(1, …)`, so the model resolves it to 1 there. The
hesitation counter starts `undefined` and can become NaN; it is the
datatype `Hes = Undefined | NotANumber | Count(n)`. A path that throws a
`TypeError` yields `None`. There are three such paths: an eye whose corners
and pupil are present but whose lid is missing; a stored session without a
final score in the progress report; and the results panel before any
session was saved, when `appState.metrics.speech` is still undefined.

Several behaviours of the code are kept as written:

- A horizontally centred gaze gets confidence 0.1. An off-centre gaze gets
  more, because confidence is returned as `max(0.1, 1 - confidence)` with
  confidence starting at 1.
- When two zones or moods are counted equally often, the one seen later
  wins the dominant-key fold.
- `endSession` does not clear the current session, so a later frame lands
  in the session already stored.
- With 10 to 14 gaze samples, the change score divides by zero. The
  variation is then NaN exactly when the zone never changed.
- "no" is a lexicon entry, so "no vlastne ako" adds three fillers.
- Lexicon entries with a doubled letter ("hmm", "literally", "well") are
  never counted as words, because the collapse rewrites them first.
- The calibration derives its band from the placeholder ratios 0.4, so any
  completed calibration that captured at least one centre frame yields the
  band 0.34–0.46. One that captured no centre frame keeps the band it had.

The clock and the values the model cannot compute are parameters:

- `now` stands for `Date.now()`.
- `tilt` stands for the `Math.atan2` head tilt.
- `stdDev` stands for the `Math.sqrt` of the variance. Its contract,
  `SqrtOf`, says only that it is non-negative and zero exactly when the
  variance is. A square root is not a Dafny function on reals, so the model
  receives it as an argument with that contract instead of computing it.
- The landmarks of a frame are a `map<nat, Point>`, so a missing landmark
  is explicit.

## Model

| member | source | states |
|---|---|---|
| Common.ClampedRatio | static/js/eyecontact.js:263-268 | `max(0, min(1, n / d))` is NaN exactly for 0/0, otherwise in [0, 1], and the plain ratio when it already is |
| Common.AtMostOne | static/js/eyecontact.js:301 | `Math.min(1, a)` keeps NaN and otherwise never exceeds 1, leaving values ≤ 1 unchanged |
| Common.Round | static/js/main.js:315 | `Math.round` lies within half a unit of its argument, halves rounded up |
| Common.MeanBounds | static/js/eyecontact.js:513 | the mean of values between two bounds lies between them |
| Text.LowerChar | static/js/main.js:181 | `toLowerCase` on one character changes every capital of Basic Latin, Latin-1 and Latin Extended-A (such as Ž, Č, Á), leaves every other character alone, never yields a capital and never turns a non-space into white space |
| Text.Lower | static/js/main.js:181 | `toLowerCase` keeps the length and lowers each character on its own |
| Text.Trim | static/js/main.js:181 | the trimmed text is a slice of the input with only white space around it, and it neither starts nor ends with white space |
| Text.Collapse | static/js/main.js:182 | the collapse never lengthens the text and keeps its first character |
| Text.CollapseIsRunHeads | static/js/main.js:182 | the collapse equals the filter that keeps each character unless it is a letter a–z equal to the one before it |
| Text.CollapseHasNoLetterRun | static/js/main.js:182 | after the collapse no letter a–z is followed by the same letter |
| Text.CollapseIdempotent | static/js/main.js:182 | collapsing twice equals collapsing once |
| Text.CollapseKeepsNonLetters | static/js/main.js:182 | every character other than a–z survives the collapse, in order |
| Speech.ExampleCapitalFiller | static/js/main.js:180-181 | "AKOŽE" lowers to the lexicon entry "akože" |
| Text.SplitPiecesHaveNoSpace | static/js/main.js:183 | no piece of `split(/\s+/)` contains white space |
| Text.TokensAreWords | static/js/main.js:183 | every token after `filter(Boolean)` is non-empty and free of white space |
| Text.SplitJoin | static/js/main.js:183 | words joined by single spaces split back into the same words |
| Text.MatchAt | static/js/main.js:197 | a `\b(a1\|a2\|…)\b` match at a position is one of the alternatives, and no match means none of them fits there |
| Text.WholeWordMatchesOnce | static/js/main.js:197 | a word made of word characters that is one of the alternatives is matched exactly once in itself |
| Text.NoSpaceNoSpacedMatch | static/js/main.js:203-204 | a pattern containing white space never matches inside a space-free word |
| Gaze.EyeGaze | static/js/eyecontact.js:245-270 | an eye without corner or pupil reads (0.5, 0.5); a missing lid with those present throws; each finite ratio is in [0, 1]; the horizontal ratio is NaN exactly for a zero-width eye with the pupil on its corner |
| Gaze.ClassifyGaze | static/js/eyecontact.js:220-242 | each of the eleven zones is named with the exact condition on the two ratios that yields it: "up-left" below 0.2 and "down-left" above 0.8 whatever the horizontal reading, otherwise the horizontal zone with "-up" below 0.4, "-down" above 0.6, or alone; the confidence is in [0.1, 1] and exactly 0.1 when horizontally centred |
| Gaze.OffCentreConfidence | static/js/eyecontact.js:223-239 | an off-centre gaze with a ratio in [0, 1] gets confidence in [0.5, 0.85), always above a centred gaze |
| Gaze.GazeFromLandmarks | static/js/eyecontact.js:212-243 | the zone reading fails exactly when reading either eye throws; otherwise its zone is a label and its confidence is in [0.1, 1] |
| Gaze.NoEyesReadsCentred | static/js/eyecontact.js:212-258 | a face without eye landmarks reads as centre with confidence 0.1 |
| Gaze.NoChangesIffSameZone | static/js/eyecontact.js:307-312 | the zone-change count is 0 exactly when every sample is in one zone |
| Gaze.VariationBoundedFromFifteen | static/js/eyecontact.js:290-318 | with 15 or more samples the variation is a number in [0, 1] |
| Gaze.VariationNaNIffStatic | static/js/eyecontact.js:290-318 | with 10 to 14 samples the variation is NaN exactly when all samples share a zone, and otherwise in [0, 1] |
| Gaze.RunStart | static/js/eyecontact.js:323-334 | the backward walk stops at the first sample of the trailing run in the last sample's zone |
| Gaze.DwellOfSingleZone | static/js/eyecontact.js:320-337 | a history in one zone dwells from its first to its last timestamp |
| Gaze.DwellNonNegative | static/js/eyecontact.js:320-337 | with ordered timestamps the dwell time is never negative |
| Gaze.Recommend | static/js/eyecontact.js:339-352 | each of the four recommendations exactly at its row of the table: too static below 0.3, too erratic above 0.8, too long in the zone past 10 s, good rhythm otherwise; NaN variation never reads as too static or too erratic |
| Gaze.FewSamplesTooStatic | static/js/eyecontact.js:290-352 | with fewer than 10 samples the recommendation is always "too static" |
| Gaze.CalculateTimeVariation | static/js/eyecontact.js:304-318 | the change-counting loop computes the capped change score, NaN and Infinity cases included |
| Gaze.GazeAnalyzer.constructor | static/js/eyecontact.js:187-197 | the history starts empty |
| Gaze.GazeAnalyzer.AddToHistory | static/js/eyecontact.js:279-288 | the history holds at most 100 samples, the new sample is last, and the kept older samples stay in order with only the oldest dropped |
| Gaze.GazeAnalyzer.CalculateGazeVariation | static/js/eyecontact.js:290-302 | returns the variation of the current history |
| Gaze.GazeAnalyzer.DurationInCurrentZone | static/js/eyecontact.js:320-337 | the backward loop computes the closed-form dwell time |
| Gaze.GazeAnalyzer.GenerateRecommendation | static/js/eyecontact.js:339-352 | the recommendation is the decision table applied to the current variation and dwell |
| Gaze.GazeAnalyzer.AnalyzeGazePattern | static/js/eyecontact.js:199-210 | a readable frame is appended, the oldest entry dropped at the cap, and it is reported with the analytics of the updated history; a throwing frame records nothing |
| Expression.AnalyzeSmile | static/js/eyecontact.js:376-392 | the smile is in [0, 1], 0 without the mouth, positive exactly when width exceeds 1.5 × (height + 0.001), and 1 from twice that |
| Expression.AnalyzeEyebrows | static/js/eyecontact.js:394-410 | the engagement is in [0, 1], 0 without the landmarks, 1 exactly from a mean distance of 0.1, and 10 × the distance below it |
| Expression.AnalyzeEyeOpenness | static/js/eyecontact.js:412-426 | 0.5 without the lids; otherwise the midpoint of the two lid separations, never negative, and 0 exactly when both eyes are shut |
| Expression.ConfidenceScore | static/js/eyecontact.js:428-430 | the 0.4/0.3/0.3 blend of values in [0, 1] is in [0, 1], and equal inputs give that value |
| Expression.DetermineMood | static/js/eyecontact.js:432-443 | each of the five moods exactly at its first-matching row: enthusiastic for smile > 0.7 with eyebrows > 0.5, friendly for the other smiles above 0.5, engaged for eyebrows above 0.6, neutral for both below 0.2, focused otherwise |
| Expression.AnalyzeExpressions | static/js/eyecontact.js:362-374 | the three readings are in range and the mood is the table applied to them |
| Expression.MissingFaceIsNeutral | static/js/eyecontact.js:362-410 | a face without mouth and eyebrow landmarks is neutral |
| Calibration.CenterSamples | static/js/eyecontact.js:128-130 | the centre frames come only from centre steps, and there are none without a centre step |
| Calibration.CenterSamplesAppend | static/js/eyecontact.js:128-130 | collecting the centre frames of two step lists one after the other equals collecting them from the joined list |
| Calibration.CenterSamplesAt | static/js/eyecontact.js:128-130 | each centre step's frames all appear, in order, between those of the earlier and the later steps; other steps add none |
| Calibration.CentreFrameCalibrates | static/js/eyecontact.js:127-154 | a single captured centre frame is collected and makes the calibration end with the band 0.34–0.46 |
| Calibration.BandAround | static/js/eyecontact.js:143-153 | the ±15% band contains the averaged ratio, has width 0.3 × the average, and sets the head offset to 0.15 |
| Calibration.PlaceholderCalibration | static/js/eyecontact.js:127-163 | with the placeholder ratios, any calibration with a centre frame yields the band 0.34–0.46 and offset 0.15 |
| Calibration.NoCentreFrameKeepsBand | static/js/eyecontact.js:127-154 | when no centre step captured a frame there are no centre frames and the band is kept as it was |
| Calibration.NoCentreKeepsBand | static/js/eyecontact.js:132-154 | without a centre frame the band is left unchanged |
| Calibration.CalibrationManager.constructor | static/js/eyecontact.js:54-69 | the default band, not calibrating, no samples |
| Calibration.CalibrationManager.BeginCalibration | static/js/eyecontact.js:71-73 | calibration starts with an empty recording and the band unchanged |
| Calibration.CalibrationManager.RecordStep | static/js/eyecontact.js:106-113 | one step's frames are appended as one record; nothing else changes |
| Calibration.CalibrationManager.CalculateThresholds | static/js/eyecontact.js:127-155 | the summing loop sets the band derived from the recorded steps, or keeps it without centre frames |
| Calibration.CalibrationManager.FinishCalibration | static/js/eyecontact.js:92-98 | the band is recomputed only if calibration was not cancelled; calibration is over either way |
| Calibration.CalibrationManager.CancelCalibration | static/js/eyecontact.js:178-181 | recording stops and is discarded, and the band is kept |
| Calibration.CancelledRunKeepsBand | static/js/eyecontact.js:71-125 | a run cancelled mid-step keeps the band, even though the interrupted step still pushes its frames |
| Scoring.GazeScore | static/js/eyecontact.js:653-663 | 100 exactly for "center", 80 for the other centre-column zones, and off the column 60 above confidence 0.7 and max(20, 100 × confidence) otherwise; always in [20, 100] |
| Scoring.CentreTierOfLabels | static/js/eyecontact.js:653-663 | over the classifier's labels, 80 or more exactly for center, center-up and center-down |
| Scoring.AnalyzeHeadPosition | static/js/eyecontact.js:665-688 | without the landmarks the head is off-centre and level; otherwise rotation is the eye midpoint's offset from 0.5 and centred means within 0.15 and 0.2 |
| Scoring.HeadPositionScore | static/js/eyecontact.js:690-706 | 100 less 40 off-centre and 20 for a tilt over 10°, less 100 per unit of rotation beyond 0.1 floored at 0; in [0, 100], and 100 exactly for a centred, level, unrotated head |
| Scoring.MissingHeadScoresSixty | static/js/eyecontact.js:665-706 | a face without the head landmarks scores 60 |
| Scoring.AnalyzeEyeAlignment | static/js/eyecontact.js:708-728 | disparity is non-negative, aligned exactly below 0.05, 1 without landmarks, and 0 exactly when both pupils sit equally far from their corners |
| Scoring.AlignmentScore | static/js/eyecontact.js:730-736 | the alignment score is in [0, 100], 100 when aligned, and 0 exactly from a disparity of 0.2 |
| Scoring.AlignmentScoreSeparates | static/js/eyecontact.js:708-736 | the alignment score exceeds 75 exactly when the eyes are aligned |
| Scoring.ApplyCalibration | static/js/eyecontact.js:738-751 | the score is kept or multiplied by 0.8, reduced exactly when a band exists and the ratio is outside its left-eye bounds |
| Scoring.RightBandIgnored | static/js/eyecontact.js:745-746 | the right-eye bounds never affect the penalty |
| Scoring.NaNEscapesPenalty | static/js/eyecontact.js:745-746 | a NaN horizontal ratio is never penalised |
| Scoring.AnalyzeEyeContact | static/js/eyecontact.js:632-651 | the score exists exactly when reading the gaze does not throw, and is in [8, 100] |
| Scoring.OffCentrePenalisedIsNotGood | static/js/eyecontact.js:632-751 | a gaze off the centre column and outside the band scores at most 68, so it is never a good frame |
| Scoring.PerfectFrame | static/js/eyecontact.js:632-751 | a centred, level, aligned face looking at the centre inside the band scores 100 |
| Scoring.ScoreColor | static/js/eyecontact.js:939-944 | one of four colours, each exactly on its band: green from 80, yellow in [60, 80), orange in [40, 60), red below 40 |
| Scoring.ScoreColorMonotone | static/js/eyecontact.js:939-944 | a higher score never gets a worse colour |
| Scoring.GoodPercentage | static/js/eyecontact.js:946-957 | the running percentage of good frames is in [0, 100] |
| Scoring.GoodPercentageExtremes | static/js/eyecontact.js:946-957 | all frames good gives 100, none good gives 0 |
| Scoring.AlternatingIsHalf | static/js/eyecontact.js:946-957 | alternating good and bad frames give exactly 50 |
| Scoring.EyeContactStats.constructor | static/js/eyecontact.js:22-23 | no frame counted and no overall score yet |
| Scoring.EyeContactStats.Reset | static/js/eyecontact.js:1052-1053 | the counters restart from zero |
| Scoring.EyeContactStats.UpdateEyeContactStats | static/js/eyecontact.js:946-957 | the frame is counted, it is good exactly above 70, and the overall score is 100 × good / total |
| Scoring.EyeContactStats.FinalPercentage | static/js/eyecontact.js:1069-1071 | the final percentage is the good-frame percentage, 0 without frames |
| Session.CapFrames | static/js/eyecontact.js:476-478 | at most 1000 frames survive, the newest ones in order |
| Session.LongestRunIsLongestWindow | static/js/eyecontact.js:522-536 | the scanned streak is the length of a window of consecutive frames above 70, and no such window is longer |
| Session.NoStreakIffNoGoodFrame | static/js/eyecontact.js:522-536 | the streak is 0 exactly when no frame scores above 70 |
| Session.AllGoodStreak | static/js/eyecontact.js:522-536 | all frames good makes the streak the whole session |
| Session.AlternatingStreak | static/js/eyecontact.js:522-536 | alternating good and bad frames give a streak of 1 |
| Session.CalculateBestStreak | static/js/eyecontact.js:522-536 | the streak loop computes the longest run |
| Session.PickDominantIsLastMaximal | static/js/eyecontact.js:515-516 | the fold picks a key of maximal count, and every later key counts strictly less |
| Session.Dominant | static/js/eyecontact.js:502-516 | the dominant value occurs in the list |
| Session.DominantIsMostFrequent | static/js/eyecontact.js:502-516 | the dominant value is at least as frequent as any other; values first seen after it are strictly less frequent |
| Session.TieGoesToLaterKey | static/js/eyecontact.js:515 | of two equally frequent zones, the one seen second wins |
| Session.Consistency | static/js/eyecontact.js:538-548 | consistency is in [0, 1] and 0 below two frames |
| Session.VarianceZeroIffNoDeviation | static/js/eyecontact.js:541-543 | the variance is non-negative and 0 exactly when every squared deviation is 0 |
| Session.ConstantScoresHaveNoVariance | static/js/eyecontact.js:541-543 | equal scores have variance 0 |
| Session.FullScoreIffNoDeviation | static/js/eyecontact.js:544-547 | `max(0, 1 - stdDev / 50)` is 1 exactly when the variance is 0 |
| Session.FullConsistencyIffNoVariance | static/js/eyecontact.js:538-548 | for two or more frames consistency is 1 exactly when the variance is 0, and equal scores reach it |
| Session.StaticTimeWithinSpan | static/js/eyecontact.js:577-586 | with ordered timestamps the static time lies between 0 and the session's span |
| Session.StaticTimeOfOneZone | static/js/eyecontact.js:577-586 | a session in one zone is static for its whole span |
| Session.CountGazePatterns | static/js/eyecontact.js:573-586 | the loop counts the frames whose zone contains left, right and center, and sums the static time |
| Session.AnalyzeGazePatterns | static/js/eyecontact.js:572-594 | the three biases are those counts over the frame count, with the static time |
| Session.ImprovementsFor | static/js/eyecontact.js:550-570 | each of the three hints appears exactly when its rule fires |
| Session.GenerateImprovements | static/js/eyecontact.js:550-570 | returns the hints of the three rules, in order |
| Session.LowCountOf | static/js/eyecontact.js:554 | counts the frames scoring below 50 |
| Session.CentreStareAdvice | static/js/eyecontact.js:550-594 | a session held in the centre for over 10 s is told to move its gaze and never to balance right |
| Session.SummaryOf | static/js/eyecontact.js:494-520 | there is no summary exactly when there are no frames |
| Session.SummaryAverageInRange | static/js/eyecontact.js:513-514 | the average lies within the scores' range and the streak within the frame count |
| Session.GenerateSummary | static/js/eyecontact.js:494-520 | returns the summary of the frames |
| Session.SessionRecord.constructor | static/js/eyecontact.js:455-461 | a new session has its id and start time, no frames and no summary |
| Session.SessionRecord.Finish | static/js/eyecontact.js:484-486 | end time, final score and summary are set; nothing else changes |
| Session.ReportLength | static/js/eyecontact.js:615 | `slice(-limit)` keeps min(limit, n) sessions, and all of them for a limit of 0 |
| Session.SessionManager.constructor | static/js/eyecontact.js:449-452 | the sessions are the loaded ones and there is no current session |
| Session.SessionManager.StartNewSession | static/js/eyecontact.js:454-462 | a fresh, empty session becomes current; the list is unchanged |
| Session.SessionManager.AddFrameData | static/js/eyecontact.js:464-479 | nothing without a current session; otherwise the frame is appended, the last 1000 kept, and every other field of the session is unchanged |
| Session.SessionManager.EndSession | static/js/eyecontact.js:481-492 | nothing without a current session; otherwise it is stamped, summarised, appended once, and stays current |
| Session.SessionManager.GetProgressReport | static/js/eyecontact.js:614-621 | the last `limit` sessions in order with their first improvement; it throws exactly when one of them has no final score |
| Session.SessionManager.ClearAllSessions | static/js/eyecontact.js:623-626 | the list is emptied and the current session kept |
| Session.FrameAfterEndReachesStoredSession | static/js/eyecontact.js:464-492 | a frame added after `endSession` grows the session already stored in the list, which keeps its final score |
| Speech.SpacedEntriesArePhrases | static/js/main.js:38-42 | the lexicon entries with a space are exactly the four phrases |
| Speech.AfterWordsCounts | static/js/main.js:185-201 | the word pass adds one word per token and one filler per lexicon token, and a counted total grows by the word weights |
| Speech.AfterPhrasesCounts | static/js/main.js:203-209 | the phrase pass adds every phrase match to fillers and hesitations, turns the counter into a number on any match, and changes nothing without one |
| Speech.SegmentCounts | static/js/main.js:180-209 | a segment adds its token count to the words and its lexicon tokens plus phrase matches to the fillers |
| Speech.WordsAreNeverPhrases | static/js/main.js:183-188 | no token is a phrase, so phrases are never counted by the token check |
| Speech.DoubledEntriesNeverWords | static/js/main.js:182-188 | the entries with a doubled letter never match a token |
| Speech.UmAndEhAddTwo | static/js/main.js:188-200 | "um" and "eh" each add 2 hesitations |
| Speech.FirstAhMakesNaN | static/js/main.js:188-200 | an "ah" before any other hesitation makes the counter NaN, further "ah" keeps it NaN, and a lexicon word resets it to 1 |
| Speech.NaNShownAsZero | static/js/main.js:331 | an undefined or NaN counter is shown as 0 |
| Speech.NoPhraseLettersNoHits | static/js/main.js:203-209 | a text without the letters y, m and f adds no phrase match |
| Speech.NoVlastneAko | static/js/main.js:180-209 | "no vlastne ako" adds three words, three fillers and three hesitations |
| Speech.EmptySegmentCountsOne | static/js/main.js:358-367 | an empty segment still adds one to the chart |
| Speech.CumulativeIsRunningSums | static/js/main.js:355-370 | each point of the chart series is the total up to that segment, and the series never decreases |
| Speech.TempoBandOf | static/js/main.js:407-413 | slow exactly below 80 words per minute, fast exactly above 140 |
| Speech.HesitationBandOf | static/js/main.js:415-423 | with the one-decimal rounding, fluent exactly when 2000·h < 99·words and frequent exactly when 2000·h ≥ 301·words |
| Speech.GazeBandOf | static/js/main.js:425-433 | with the whole-percent rounding, strong exactly from a centre share of 59.5% and weak exactly below 39.5% |
| GazeDirection.PresentPoints | static/js/main.js:89-91 | the points used are at most the indices, and all of them when every landmark is present |
| GazeDirection.AverageInBox | static/js/main.js:97-100 | the mean of points inside a box lies inside it |
| GazeDirection.AverageOfCopies | static/js/main.js:97-100 | the mean of copies of one point is that point |
| GazeDirection.GetPoint | static/js/main.js:87-95 | null exactly when no landmark of the list is present, otherwise the mean of the present ones |
| GazeDirection.DetectGaze | static/js/main.js:251-262 | CENTER exactly inside both dead zones, RIGHT and LEFT exactly beyond the horizontal one, DOWN exactly below and UP exactly above the vertical one when the horizontal one holds |
| GazeDirection.CentreReadsCentre | static/js/main.js:251-262 | the calibrated centre reads CENTER |
| GazeDirection.DetectGazeMirror | static/js/main.js:251-262 | mirroring face and calibration swaps LEFT and RIGHT and nothing else |
| GazeDirection.CollapsedCalibrationHasNoDeadZone | static/js/main.js:254-258 | with equal left and right calibration any horizontal offset leaves CENTER |
| GazeDirection.Smooth | static/js/main.js:281-283 | the first offset is taken as is; later ones stay between the previous and new offsets, and a repeated offset is a fixed point |
| Coach.CountsPartition | static/js/main.js:294-298 | the five direction counts add up to the history length |
| Coach.TempoOf | static/js/main.js:300-316 | words per minute is non-negative, 0 when no time passed, and the word count over exactly one minute |
| Coach.FillerRatioOf | static/js/main.js:317-319 | the filler ratio is non-negative, 0 without words, and at most 1 when fillers do not exceed words |
| Coach.PercentagesOf | static/js/main.js:293-310 | the five shares are each in [0, 1] and sum to 1 |
| Coach.MeasureOffset | static/js/main.js:276-280 | the eye-minus-nose offset, absent when either point is missing |
| Coach.CountWords | static/js/main.js:185-201 | the per-word loop computes the word pass |
| Coach.CountWord | static/js/main.js:186-200 | one word updates the counters as the per-word rules say |
| Coach.CountPhrases | static/js/main.js:203-209 | the per-phrase loop computes the phrase pass |
| Coach.CountSegment | static/js/main.js:180-209 | the two passes compute the counters of one segment |
| Coach.CountDirections | static/js/main.js:294-298 | the counting loop yields the five direction counts |
| Coach.CumulativeSeries | static/js/main.js:355-370 | the chart loop yields the running totals of the segment counts |
| Coach.CoachState.constructor | static/js/main.js:17-36 | the page starts uncalibrated and idle with empty history, counters at zero and the hesitation counter undefined |
| Coach.CoachState.Calibrate | static/js/main.js:103-135 | the five calibrated offsets are the means of their 15 samples and the page becomes calibrated |
| Coach.CoachState.StartSession | static/js/main.js:216-231 | nothing before calibration; otherwise the session starts with history, smoothing, words, fillers and transcript reset, and the hesitation counter kept |
| Coach.CoachState.ProcessFinalSpeech | static/js/main.js:180-213 | the counters become those of the segment's two passes and the raw segment is appended to the transcript |
| Coach.CoachState.HandleResults | static/js/main.js:265-287 | a face becomes the latest landmarks; during a session a measurable frame updates the smoothed offset and appends its direction |
| Coach.CoachState.SaveSession | static/js/main.js:290-324 | nothing for an empty history; otherwise the metrics are computed from the counts, the counters and the session's length |
| Coach.CoachState.HesitationSeries | static/js/main.js:353-370 | one point per segment, each the running total, never decreasing |
| Coach.CoachState.ResultsReport | static/js/main.js:327-436 | no report before metrics exist; otherwise the shown counter, the series of running hesitation totals per transcript segment, and the three bands |
| Coach.CoachState.StopSession | static/js/main.js:233-239 | the session ends and its metrics are saved; the report exists exactly when metrics do and carries the shown counter, the running totals and the three bands; calibration, landmarks, smoothing, start time, gaze history, counters and transcript are unchanged |
| History.Get | test/views.py:26-28 | a missing key reads as null |
| History.LastN | test/views.py:30 | `history[-10:]` keeps min(10, n) entries, the newest ones |
| History.AppendKeepsNewest | test/views.py:24-30 | after a save the new entry is last, the length is min(10, old + 1), and the older survivors keep their order |
| History.ShortHistoryKeepsAll | test/views.py:30 | below the limit nothing is dropped |
| History.MissingKeysAreNull | test/views.py:25-29 | an object without the three keys is stored as three nulls |
| History.SessionStore.constructor | test/views.py:16 | a new session holds no history |
| History.SessionStore.GetHistory | test/views.py:14-17 | the stored list, or empty when absent |
| History.SessionStore.SaveSession | test/views.py:19-35 | success exactly for a POST with a JSON object body, which appends and keeps the last 10; other methods and bad bodies leave the history unchanged with the matching error |

## Left out

- Session.FullConsistencyIffNoVariance: it proves that consistency is 1 exactly when the variance is 0, and that equal scores reach 1. It does not prove the converse, that consistency 1 forces all scores to be equal. That step needs "a zero square means a zero base" for reals, which is left unproved.
- Session.Consistency and the summary take the standard deviation as an argument tied to the variance by `SqrtOf`, because Dafny has no built-in square root on reals. `SqrtOf` keeps only the sign and the zero of the square root: it holds for any non-negative `stdDev` that is zero exactly when the variance is. So for a session whose scores vary, the consistency is not determined by its scores. Only the all-equal case is: consistency 1 exactly when the variance is 0.
- Text.Lower: only the capitals of Basic Latin, Latin-1 and Latin Extended-A are lowered, which covers Slovak. Greek, Cyrillic and other scripts are kept as they are. `İ` (U+0130) is kept too, though JavaScript lowers it to two UTF-16 units. Strings are sequences of code points, so a word's length counts code points, not UTF-16 units.
- Scoring.AnalyzeHeadPosition takes the tilt as an argument, because `Math.atan2` is not modelled.
- Floating-point rounding is not modelled; every number is an exact real. `toFixed` is modelled only where its result is compared (the hesitation and gaze bands).
- `Date.now()` and `new Date().toISOString()` are an integer `now` parameter. Session start times are that integer, not an ISO string. The date formatting of the progress report is left out.
- `calculateVerticalGaze` is computed by `getCurrentGazeZone` but never used, so it is not modelled.
- Camera, MediaPipe and script loading, speech-recognition start and stop, Chart.js, the canvas, the DOM updates, modals, the countdown, the beep and the timers are left out. These are foreign calls and UI.
- `calibrateStep`'s frame capture is not modelled, including its read of `currentLandmarks`, a variable that eyecontact.js never declares and that is only assigned while a test runs. Whether a step captures any frame is therefore an input, and `Calibration.NoCentreFrameKeepsBand` covers the case where none does.
- The asynchronous timing of `startCalibration`, `calibrateStep` and `calibrateUser` is left out. Each step's captured frames, and the 15 calibration samples, are inputs.
- `localStorage` and `JSON.parse` persistence (`loadSessions`, `saveSessions`, `saveToLocalStorage`, `loadFromLocalStorage`) are left out. The session manager's constructor takes the loaded sessions instead.
- In the Django view, JSON parsing is an input: the body is given as parsed JSON or as unparseable. The error message text and the response encoding are left out.
- `getTestDuration`'s prompt loop, `shouldRenderFrame` and `createDebouncedUpdate` are left out. They are UI scheduling.
- The display-only parts of `showResultsPanel` are left out: the percentage bars, the mm:ss session time and the chart's time labels.
- The placeholder stubs `calculateGazeRatios` and `calculateHeadPosition` are constants (0.4 and 0.5) and are modelled as such.
- accounts/views.py, accounts/models.py and speakercoach/urls.py are not part of this model. They are authentication, ORM and routing glue.
