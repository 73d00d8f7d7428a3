/**
 * The session manager of the eye-contact page: per-frame records with a
 * 1000-frame cap, the end-of-session summary (mean score, best streak,
 * dominant zone and mood, consistency, improvement rules) and the list of
 * finished sessions.
 */
module Session {
  import opened Common
  import opened Gaze
  import opened Expression

  const MaxFrames: nat := 1000
  /** A frame scoring strictly above this extends a streak. */
  const StreakScore: real := 70.0
  /** A frame scoring strictly below this is a low-contact frame. */
  const LowContactScore: real := 50.0
  /** Milliseconds of repeated zone after which the speaker is told to move their gaze. */
  const StaticTimeLimit: int := 10000

  /** One frame recorded by `addFrameData`. */
  datatype Frame = Frame(timestamp: int, eyeContactScore: real, gazeZone: string, gazeVariation: Num,
                         emotion: Mood, confidence: real)

  function Scores(f: seq<Frame>): (s: seq<real>)
    ensures |s| == |f| && forall i :: 0 <= i < |f| ==> s[i] == f[i].eyeContactScore
  {
    seq(|f|, i requires 0 <= i < |f| => f[i].eyeContactScore)
  }

  function Zones(f: seq<Frame>): (z: seq<string>)
    ensures |z| == |f| && forall i :: 0 <= i < |f| ==> z[i] == f[i].gazeZone
  {
    seq(|f|, i requires 0 <= i < |f| => f[i].gazeZone)
  }

  function Moods(f: seq<Frame>): (m: seq<Mood>)
    ensures |m| == |f| && forall i :: 0 <= i < |f| ==> m[i] == f[i].emotion
  {
    seq(|f|, i requires 0 <= i < |f| => f[i].emotion)
  }

  /** `frames.slice(-1000)` once the list has grown past 1000. */
  function CapFrames(f: seq<Frame>): (r: seq<Frame>)
    ensures |r| == if |f| > MaxFrames then MaxFrames else |f|
    ensures r == f[|f| - |r|..]
  {
    if |f| > MaxFrames then f[|f| - MaxFrames..] else f
  }

  // ---------------------------------------------------------------- streaks

  predicate Good(fr: Frame) {
    fr.eyeContactScore > StreakScore
  }

  /** Frames `i` to `j - 1` are all good. */
  predicate GoodWindow(f: seq<Frame>, i: int, j: int) {
    0 <= i <= j <= |f| && forall k :: i <= k < j ==> Good(f[k])
  }

  /** The length of the run of good frames that ends the sequence. */
  function TrailingRun(f: seq<Frame>): (n: nat)
    ensures n <= |f|
  {
    if f == [] || !Good(f[|f| - 1]) then 0 else TrailingRun(f[..|f| - 1]) + 1
  }

  /** The best streak as a left-to-right scan computes it. */
  function LongestRun(f: seq<Frame>): (n: nat)
    ensures n <= |f|
  {
    if f == [] then 0
    else
      var before := LongestRun(f[..|f| - 1]);
      var here := TrailingRun(f);
      if before < here then here else before
  }

  lemma GoodWindowPrefix(f: seq<Frame>, m: nat, i: int, j: int)
    requires j <= m <= |f|
    ensures GoodWindow(f[..m], i, j) <==> GoodWindow(f, i, j)
  {
    if 0 <= i <= j {
      assert forall k :: i <= k < j ==> f[..m][k] == f[k];
    }
  }

  lemma {:induction false} TrailingRunIsGood(f: seq<Frame>)
    ensures GoodWindow(f, |f| - TrailingRun(f), |f|)
  {
    if f != [] && Good(f[|f| - 1]) {
      var p := f[..|f| - 1];
      TrailingRunIsGood(p);
      GoodWindowPrefix(f, |p|, |p| - TrailingRun(p), |p|);
    }
  }

  lemma {:induction false} TrailingRunMaximal(f: seq<Frame>, i: int)
    requires GoodWindow(f, i, |f|)
    ensures |f| - i <= TrailingRun(f)
  {
    if i < |f| {
      var p := f[..|f| - 1];
      GoodWindowPrefix(f, |p|, i, |p|);
      TrailingRunMaximal(p, i);
    }
  }

  /**
   * The scan's result is the length of the longest window of consecutive
   * good frames: some window has that length and none is longer.
   */
  lemma {:induction false} LongestRunIsLongestWindow(f: seq<Frame>)
    ensures exists i, j :: GoodWindow(f, i, j) && j - i == LongestRun(f)
    ensures forall i, j :: GoodWindow(f, i, j) ==> j - i <= LongestRun(f)
  {
    if f == [] {
      assert GoodWindow(f, 0, 0);
    } else {
      var p := f[..|f| - 1];
      LongestRunIsLongestWindow(p);
      TrailingRunIsGood(f);
      if LongestRun(f) == TrailingRun(f) {
        assert GoodWindow(f, |f| - TrailingRun(f), |f|);
      } else {
        var i, j :| GoodWindow(p, i, j) && j - i == LongestRun(p);
        GoodWindowPrefix(f, |p|, i, j);
      }
      forall i, j | GoodWindow(f, i, j) ensures j - i <= LongestRun(f) {
        if j == |f| {
          TrailingRunMaximal(f, i);
        } else {
          GoodWindowPrefix(f, |p|, i, j);
        }
      }
    }
  }

  /** The best streak is 0 exactly when no frame scores above 70. */
  lemma NoStreakIffNoGoodFrame(f: seq<Frame>)
    ensures LongestRun(f) == 0 <==> forall k :: 0 <= k < |f| ==> !Good(f[k])
  {
    LongestRunIsLongestWindow(f);
    if exists k :: 0 <= k < |f| && Good(f[k]) {
      var k :| 0 <= k < |f| && Good(f[k]);
      assert GoodWindow(f, k, k + 1);
    }
  }

  /** All frames good: the streak is the whole session (ten frames at 80 give 10). */
  lemma AllGoodStreak(f: seq<Frame>)
    requires forall k :: 0 <= k < |f| ==> Good(f[k])
    ensures LongestRun(f) == |f|
  {
    LongestRunIsLongestWindow(f);
    assert GoodWindow(f, 0, |f|);
  }

  /** Good and bad frames alternating, good first (80, 60, 80, ...): the streak is 1. */
  lemma AlternatingStreak(f: seq<Frame>)
    requires |f| > 0
    requires forall k :: 0 <= k < |f| ==> (Good(f[k]) <==> k % 2 == 0)
    ensures LongestRun(f) == 1
  {
    LongestRunIsLongestWindow(f);
    assert GoodWindow(f, 0, 1);
    forall i, j | GoodWindow(f, i, j) ensures j - i <= 1 {
      if j - i >= 2 {
        assert false;
      }
    }
  }

  /** `calculateBestStreak`. */
  method CalculateBestStreak(frames: seq<Frame>) returns (bestStreak: nat)
    ensures bestStreak == LongestRun(frames)
  {
    var currentStreak := 0;
    bestStreak := 0;
    var i := 0;
    while i < |frames|
      invariant 0 <= i <= |frames|
      invariant currentStreak == TrailingRun(frames[..i])
      invariant bestStreak == LongestRun(frames[..i])
    {
      assert frames[..i + 1][..i] == frames[..i];
      if frames[i].eyeContactScore > StreakScore {
        currentStreak := currentStreak + 1;
        bestStreak := if bestStreak < currentStreak then currentStreak else bestStreak;
      } else {
        currentStreak := 0;
      }
      i := i + 1;
    }
    assert frames[..i] == frames;
  }

  // ---------------------------------------------------------- dominant key

  function Occurrences<T(==,!new)>(xs: seq<T>, k: T): nat
  {
    multiset(xs)[k]
  }

  /** The distinct values of `xs` in order of first appearance (`Object.keys` of the count table). */
  function FirstSeen<T(==,!new)>(xs: seq<T>): (ks: seq<T>)
    ensures forall k :: k in ks <==> k in xs
    ensures forall i, j :: 0 <= i < j < |ks| ==> ks[i] != ks[j]
  {
    if xs == [] then []
    else
      var init := xs[..|xs| - 1];
      var x := xs[|xs| - 1];
      assert xs == init + [x];
      var ks := FirstSeen(init);
      if x in ks then ks else ks + [x]
  }

  /** `keys.reduce((a, b) => count[a] > count[b] ? a : b)`: a left fold that hands ties to `b`. */
  function PickDominant<T(==,!new)>(xs: seq<T>, ks: seq<T>): (r: T)
    requires |ks| > 0
    ensures r in ks
  {
    if |ks| == 1 then ks[0]
    else
      var a := PickDominant(xs, ks[..|ks| - 1]);
      var b := ks[|ks| - 1];
      if Occurrences(xs, a) > Occurrences(xs, b) then a else b
  }

  /**
   * The fold returns a key of maximal count, and every key after it in
   * the order has a strictly smaller count: ties go to the last key.
   */
  lemma {:induction false} PickDominantIsLastMaximal<T(!new)>(xs: seq<T>, ks: seq<T>)
    requires |ks| > 0
    requires forall i, j :: 0 <= i < j < |ks| ==> ks[i] != ks[j]
    ensures forall k :: k in ks ==> Occurrences(xs, k) <= Occurrences(xs, PickDominant(xs, ks))
    ensures forall i, j :: 0 <= i < j < |ks| && ks[i] == PickDominant(xs, ks) ==>
              Occurrences(xs, ks[j]) < Occurrences(xs, ks[i])
  {
    if |ks| > 1 {
      var init := ks[..|ks| - 1];
      var b := ks[|ks| - 1];
      assert ks == init + [b];
      PickDominantIsLastMaximal(xs, init);
      var a := PickDominant(xs, init);
      if Occurrences(xs, a) > Occurrences(xs, b) {
        forall i, j | 0 <= i < j < |ks| && ks[i] == a
          ensures Occurrences(xs, ks[j]) < Occurrences(xs, ks[i])
        {
          if j < |init| {
            assert ks[j] == init[j] && ks[i] == init[i];
          }
        }
      }
    }
  }

  /** The dominant zone or mood of a non-empty list. */
  function Dominant<T(==,!new)>(xs: seq<T>): (r: T)
    requires |xs| > 0
    ensures r in xs
  {
    assert xs[0] in FirstSeen(xs);
    PickDominant(xs, FirstSeen(xs))
  }

  /**
   * The dominant value occurs at least as often as any other, and any value
   * first seen after it occurs strictly less often.
   */
  lemma DominantIsMostFrequent<T(!new)>(xs: seq<T>)
    requires |xs| > 0
    ensures forall x :: x in xs ==> Occurrences(xs, x) <= Occurrences(xs, Dominant(xs))
    ensures var ks := FirstSeen(xs);
      forall i, j :: 0 <= i < j < |ks| && ks[i] == Dominant(xs) ==> Occurrences(xs, ks[j]) < Occurrences(xs, ks[i])
  {
    assert xs[0] in FirstSeen(xs);
    PickDominantIsLastMaximal(xs, FirstSeen(xs));
  }

  /** With two values seen equally often, the one seen second wins. */
  lemma TieGoesToLaterKey()
    ensures Dominant(["center", "left"]) == "left"
  {
    var xs := ["center", "left"];
    assert xs[..1] == ["center"];
    assert FirstSeen(xs[..1]) == ["center"] by {
      assert xs[..1][..0] == [];
    }
    assert FirstSeen(xs) == ["center", "left"];
    assert multiset(xs)["center"] == 1 && multiset(xs)["left"] == 1;
  }

  // ------------------------------------------------------------ consistency

  function SquaredDeviations(s: seq<real>, m: real): (d: seq<real>)
    ensures |d| == |s| && forall i :: 0 <= i < |s| ==> d[i] == (s[i] - m) * (s[i] - m)
  {
    seq(|s|, i requires 0 <= i < |s| => (s[i] - m) * (s[i] - m))
  }

  /** Population variance of the scores. */
  function Variance(s: seq<real>): real
    requires |s| > 0
  {
    Mean(SquaredDeviations(s, Mean(s)))
  }

  /**
   * What the model keeps of `Math.sqrt`: the standard deviation is a
   * non-negative number that is zero exactly when the variance is.
   */
  predicate SqrtOf(stdDev: real, variance: real) {
    stdDev >= 0.0 && (stdDev == 0.0 <==> variance == 0.0)
  }

  /**
   * `calculateConsistency`: 0 below two frames, otherwise 1 - stdDev / 50
   * floored at 0.  The square root is not modelled: the caller supplies the
   * standard deviation of the scores.
   */
  function Consistency(scores: seq<real>, stdDev: real): (r: real)
    requires |scores| >= 2 ==> SqrtOf(stdDev, Variance(scores))
    ensures 0.0 <= r <= 1.0
    ensures |scores| < 2 ==> r == 0.0
  {
    if |scores| < 2 then 0.0 else Max(0.0, 1.0 - stdDev / 50.0)
  }

  lemma {:induction false} SumZeroIffAllZero(xs: seq<real>)
    requires forall i :: 0 <= i < |xs| ==> xs[i] >= 0.0
    ensures Sum(xs) == 0.0 <==> forall i :: 0 <= i < |xs| ==> xs[i] == 0.0
  {
    if xs != [] {
      var init := xs[..|xs| - 1];
      SumZeroIffAllZero(init);
      SumBounds(init, 0.0, Sum(init) + 1.0) by {
        assert forall i :: 0 <= i < |init| ==> init[i] >= 0.0;
        if init != [] {
          SumAtLeastEach(init);
        }
      }
    }
  }

  lemma {:induction false} SumAtLeastEach(xs: seq<real>)
    requires forall i :: 0 <= i < |xs| ==> xs[i] >= 0.0
    ensures forall i :: 0 <= i < |xs| ==> xs[i] <= Sum(xs)
    ensures Sum(xs) >= 0.0
  {
    if xs != [] {
      var init := xs[..|xs| - 1];
      SumAtLeastEach(init);
    }
  }

  /** A square is never negative. */
  lemma SquareNonNegative(x: real)
    ensures x * x >= 0.0
  {
  }

  lemma DeviationsNonNegative(s: seq<real>, m: real)
    ensures forall i :: 0 <= i < |s| ==> SquaredDeviations(s, m)[i] >= 0.0
  {
    var d := SquaredDeviations(s, m);
    forall i | 0 <= i < |s|
      ensures d[i] >= 0.0
    {
      SquareNonNegative(s[i] - m);
    }
  }

  /**
   * The variance is never negative, and it is 0 exactly when every squared
   * deviation from the mean is 0.
   */
  lemma VarianceZeroIffNoDeviation(scores: seq<real>)
    requires |scores| > 0
    ensures Variance(scores) >= 0.0
    ensures Variance(scores) == 0.0 <==>
      forall i :: 0 <= i < |scores| ==> SquaredDeviations(scores, Mean(scores))[i] == 0.0
  {
    var d := SquaredDeviations(scores, Mean(scores));
    DeviationsNonNegative(scores, Mean(scores));
    SumZeroIffAllZero(d);
    SumAtLeastEach(d);
    RatioCompare(Sum(d), |d| as real, 0.0);
  }

  /** Equal scores have no variance. */
  lemma ConstantScoresHaveNoVariance(scores: seq<real>)
    requires |scores| > 0
    requires forall i :: 0 <= i < |scores| ==> scores[i] == scores[0]
    ensures Variance(scores) == 0.0
  {
    MeanOfConstant(scores, scores[0]);
    VarianceZeroIffNoDeviation(scores);
  }

  /** 1 - stdDev / 50, floored at 0, is 1 exactly when the variance is 0. */
  lemma FullScoreIffNoDeviation(stdDev: real, variance: real)
    requires SqrtOf(stdDev, variance)
    ensures Max(0.0, 1.0 - stdDev / 50.0) == 1.0 <==> variance == 0.0
  {
    if stdDev > 0.0 {
      assert 1.0 - stdDev / 50.0 < 1.0;
    }
  }

  /**
   * For two or more frames the consistency is 1 exactly when the scores have
   * no variance, and a session whose scores are all equal reaches it.
   */
  lemma FullConsistencyIffNoVariance(scores: seq<real>, stdDev: real)
    requires |scores| >= 2 && SqrtOf(stdDev, Variance(scores))
    ensures Consistency(scores, stdDev) == 1.0 <==> Variance(scores) == 0.0
    ensures (forall i :: 0 <= i < |scores| ==> scores[i] == scores[0]) ==> Consistency(scores, stdDev) == 1.0
  {
    FullScoreIffNoDeviation(stdDev, Variance(scores));
    if forall i :: 0 <= i < |scores| ==> scores[i] == scores[0] {
      ConstantScoresHaveNoVariance(scores);
    }
  }

  // --------------------------------------------------------- gaze patterns

  /** How many frames have a zone containing `sub` (`includes`). */
  function ZoneCount(f: seq<Frame>, sub: string): (n: nat)
    ensures n <= |f|
  {
    if f == [] then 0
    else ZoneCount(f[..|f| - 1], sub) + (if Contains(f[|f| - 1].gazeZone, sub) then 1 else 0)
  }

  /** Time spent across consecutive frames that stayed in the same zone. */
  function StaticTime(f: seq<Frame>): int
  {
    if |f| < 2 then 0
    else
      var n := |f|;
      StaticTime(f[..n - 1]) + (if f[n - 1].gazeZone == f[n - 2].gazeZone then f[n - 1].timestamp - f[n - 2].timestamp else 0)
  }

  predicate ChronologicalFrames(f: seq<Frame>) {
    forall i, j :: 0 <= i <= j < |f| ==> f[i].timestamp <= f[j].timestamp
  }

  /** With timestamps in order, the static time lies between 0 and the session's span. */
  lemma {:induction false} StaticTimeWithinSpan(f: seq<Frame>)
    requires |f| > 0 && ChronologicalFrames(f)
    ensures 0 <= StaticTime(f) <= f[|f| - 1].timestamp - f[0].timestamp
  {
    if |f| >= 2 {
      var p := f[..|f| - 1];
      assert ChronologicalFrames(p);
      StaticTimeWithinSpan(p);
    }
  }

  /** A session spent in one zone is static for its whole span. */
  lemma {:induction false} StaticTimeOfOneZone(f: seq<Frame>)
    requires |f| > 0 && forall i :: 0 <= i < |f| ==> f[i].gazeZone == f[0].gazeZone
    ensures StaticTime(f) == f[|f| - 1].timestamp - f[0].timestamp
  {
    if |f| >= 2 {
      var p := f[..|f| - 1];
      StaticTimeOfOneZone(p);
    }
  }

  lemma ZoneCountStep(f: seq<Frame>, i: nat, sub: string)
    requires i < |f|
    ensures ZoneCount(f[..i + 1], sub) == ZoneCount(f[..i], sub) + (if Contains(f[i].gazeZone, sub) then 1 else 0)
  {
    assert f[..i + 1][..i] == f[..i];
  }

  lemma StaticTimeStep(f: seq<Frame>, i: nat)
    requires i < |f|
    ensures StaticTime(f[..i + 1]) == StaticTime(f[..i])
              + (if i > 0 && f[i].gazeZone == f[i - 1].gazeZone then f[i].timestamp - f[i - 1].timestamp else 0)
  {
    assert f[..i + 1][..i] == f[..i];
  }

  /** What `analyzeGazePatterns` returns. */
  datatype GazePatterns = GazePatterns(leftBias: real, rightBias: real, centerBias: real, staticTime: int)

  /** The counting loop of `analyzeGazePatterns`. */
  method CountGazePatterns(frames: seq<Frame>) returns (leftCount: nat, rightCount: nat, centerCount: nat, staticTime: int)
    ensures leftCount == ZoneCount(frames, "left")
    ensures rightCount == ZoneCount(frames, "right")
    ensures centerCount == ZoneCount(frames, "center")
    ensures staticTime == StaticTime(frames)
  {
    leftCount, rightCount, centerCount := 0, 0, 0;
    var lastZone: Option<string> := None;
    staticTime := 0;
    var i := 0;
    while i < |frames|
      invariant 0 <= i <= |frames|
      invariant leftCount == ZoneCount(frames[..i], "left")
      invariant rightCount == ZoneCount(frames[..i], "right")
      invariant centerCount == ZoneCount(frames[..i], "center")
      invariant staticTime == StaticTime(frames[..i])
      invariant i > 0 ==> lastZone == Some(frames[i - 1].gazeZone)
    {
      ZoneCountStep(frames, i, "left");
      ZoneCountStep(frames, i, "right");
      ZoneCountStep(frames, i, "center");
      StaticTimeStep(frames, i);
      var frame := frames[i];
      if Contains(frame.gazeZone, "left") { leftCount := leftCount + 1; }
      if Contains(frame.gazeZone, "right") { rightCount := rightCount + 1; }
      if Contains(frame.gazeZone, "center") { centerCount := centerCount + 1; }
      if i > 0 && lastZone == Some(frame.gazeZone) {
        staticTime := staticTime + (frames[i].timestamp - frames[i - 1].timestamp);
      }
      lastZone := Some(frame.gazeZone);
      i := i + 1;
    }
    assert frames[..i] == frames;
  }

  /** `analyzeGazePatterns`; its callers always pass at least one frame. */
  method AnalyzeGazePatterns(frames: seq<Frame>) returns (p: GazePatterns)
    requires |frames| > 0
    ensures p.leftBias == ZoneCount(frames, "left") as real / |frames| as real
    ensures p.rightBias == ZoneCount(frames, "right") as real / |frames| as real
    ensures p.centerBias == ZoneCount(frames, "center") as real / |frames| as real
    ensures p.staticTime == StaticTime(frames)
  {
    var leftCount, rightCount, centerCount, staticTime := CountGazePatterns(frames);
    var n := |frames| as real;
    p := GazePatterns(leftCount as real / n, rightCount as real / n, centerCount as real / n, staticTime);
  }

  // ----------------------------------------------------------- improvements

  datatype Improvement = MoreEyeContact | MoveGazeMoreOften | BalanceTowardsRight

  /** Frames scoring below 50. */
  function LowCount(f: seq<Frame>): (n: nat)
    ensures n <= |f|
  {
    if f == [] then 0
    else LowCount(f[..|f| - 1]) + (if f[|f| - 1].eyeContactScore < LowContactScore then 1 else 0)
  }

  /** The three improvement rules, in the order they are listed. */
  function ImprovementsFor(f: seq<Frame>): (r: seq<Improvement>)
    requires |f| > 0
    ensures |r| <= 3
    ensures MoreEyeContact in r <==> LowCount(f) as real / |f| as real > 0.3
    ensures MoveGazeMoreOften in r <==> StaticTime(f) > StaticTimeLimit
    ensures BalanceTowardsRight in r <==> ZoneCount(f, "left") as real / |f| as real > 0.6
  {
    var n := |f| as real;
    (if LowCount(f) as real / n > 0.3 then [MoreEyeContact] else [])
    + (if StaticTime(f) > StaticTimeLimit then [MoveGazeMoreOften] else [])
    + (if ZoneCount(f, "left") as real / n > 0.6 then [BalanceTowardsRight] else [])
  }

  /** `generateImprovements`. */
  method GenerateImprovements(frames: seq<Frame>) returns (improvements: seq<Improvement>)
    requires |frames| > 0
    ensures improvements == ImprovementsFor(frames)
  {
    improvements := [];
    var low := LowCountOf(frames);
    var gazeAnalysis := AnalyzeGazePatterns(frames);
    if low as real / |frames| as real > 0.3 {
      improvements := improvements + [MoreEyeContact];
    }
    if gazeAnalysis.staticTime > StaticTimeLimit {
      improvements := improvements + [MoveGazeMoreOften];
    }
    if gazeAnalysis.leftBias > 0.6 {
      improvements := improvements + [BalanceTowardsRight];
    }
  }

  /** The `filter(f => f.eyeContactScore < 50).length` of `generateImprovements`. */
  method LowCountOf(frames: seq<Frame>) returns (n: nat)
    ensures n == LowCount(frames)
  {
    n := 0;
    var i := 0;
    while i < |frames|
      invariant 0 <= i <= |frames|
      invariant n == LowCount(frames[..i])
    {
      assert frames[..i + 1][..i] == frames[..i];
      if frames[i].eyeContactScore < LowContactScore {
        n := n + 1;
      }
      i := i + 1;
    }
    assert frames[..i] == frames;
  }

  /** A session held in the centre zone, with ordered stamps spanning over 10 s, is told to move its gaze and never to balance right. */
  lemma CentreStareAdvice(f: seq<Frame>)
    requires |f| > 0 && ChronologicalFrames(f)
    requires forall i :: 0 <= i < |f| ==> f[i].gazeZone == "center"
    requires f[|f| - 1].timestamp - f[0].timestamp > StaticTimeLimit
    ensures MoveGazeMoreOften in ImprovementsFor(f)
    ensures BalanceTowardsRight !in ImprovementsFor(f)
  {
    StaticTimeOfOneZone(f);
    NoLeftInCentre(f);
  }

  lemma {:induction false} NoLeftInCentre(f: seq<Frame>)
    requires forall i :: 0 <= i < |f| ==> f[i].gazeZone == "center"
    ensures ZoneCount(f, "left") == 0
  {
    if f != [] {
      NoLeftInCentre(f[..|f| - 1]);
      NoLetterNoContains("center", "left");
    }
  }

  // ---------------------------------------------------------------- summary

  /** What `generateSummary` returns. */
  datatype Summary = Summary(avgEyeContact: real, bestStreak: nat, dominantGazeZone: string,
                             dominantEmotion: Mood, consistency: real, improvements: seq<Improvement>)

  /** `generateSummary` as a function of the frames: `None` (null) when there are none. */
  function SummaryOf(frames: seq<Frame>, stdDev: real): (r: Option<Summary>)
    requires |frames| >= 2 ==> SqrtOf(stdDev, Variance(Scores(frames)))
    ensures r.None? <==> frames == []
  {
    if frames == [] then None
    else
      Some(Summary(Mean(Scores(frames)), LongestRun(frames), Dominant(Zones(frames)),
                   Dominant(Moods(frames)), Consistency(Scores(frames), stdDev), ImprovementsFor(frames)))
  }

  /** The average of a session lies within the range of its scores. */
  lemma SummaryAverageInRange(frames: seq<Frame>, stdDev: real, lo: real, hi: real)
    requires |frames| >= 2 ==> SqrtOf(stdDev, Variance(Scores(frames)))
    requires |frames| > 0 && forall i :: 0 <= i < |frames| ==> lo <= frames[i].eyeContactScore <= hi
    ensures lo <= SummaryOf(frames, stdDev).value.avgEyeContact <= hi
    ensures SummaryOf(frames, stdDev).value.bestStreak <= |frames|
  {
    MeanBounds(Scores(frames), lo, hi);
  }

  method GenerateSummary(frames: seq<Frame>, stdDev: real) returns (r: Option<Summary>)
    requires |frames| >= 2 ==> SqrtOf(stdDev, Variance(Scores(frames)))
    ensures r == SummaryOf(frames, stdDev)
  {
    if |frames| == 0 {
      return None;
    }
    var bestStreak := CalculateBestStreak(frames);
    var improvements := GenerateImprovements(frames);
    r := Some(Summary(Mean(Scores(frames)), bestStreak, Dominant(Zones(frames)), Dominant(Moods(frames)),
                      Consistency(Scores(frames), stdDev), improvements));
  }

  // --------------------------------------------------------------- sessions

  /** One session as the manager stores it; times are millisecond stamps. */
  class SessionRecord {
    var id: int
    var startTime: int
    var duration: int
    var frames: seq<Frame>
    var summary: Option<Summary>
    var endTime: Option<int>
    var finalScore: Option<real>

    constructor (now: int, duration: int)
      ensures id == now && startTime == now && this.duration == duration
      ensures frames == [] && summary.None? && endTime.None? && finalScore.None?
    {
      id := now;
      startTime := now;
      this.duration := duration;
      frames := [];
      summary := None;
      endTime := None;
      finalScore := None;
    }

    /** The stamping part of `endSession`: end time, final score and summary are set. */
    method Finish(now: int, score: real, s: Option<Summary>)
      modifies this
      ensures endTime == Some(now) && finalScore == Some(score) && summary == s
      ensures id == old(id) && startTime == old(startTime) && duration == old(duration)
      ensures frames == old(frames)
    {
      endTime := Some(now);
      finalScore := Some(score);
      summary := s;
    }
  }

  /** One row of `getProgressReport` before formatting. */
  datatype ProgressEntry = ProgressEntry(startTime: int, duration: int, finalScore: real,
                                         improvement: Option<Improvement>)

  /** `summary?.improvements?.[0]`: absent without a summary or without improvements. */
  function FirstImprovement(s: Option<Summary>): Option<Improvement>
  {
    if s.Some? && |s.value.improvements| > 0 then Some(s.value.improvements[0]) else None
  }

  /** How many sessions `slice(-limit)` keeps: `-0` is `0`, so a limit of 0 keeps them all. */
  function ReportLength(limit: nat, n: nat): (k: nat)
    ensures k <= n
    ensures limit == 0 ==> k == n
    ensures 0 < limit ==> k <= limit && (k == limit || k == n)
  {
    if limit == 0 || limit >= n then n else limit
  }

  class SessionManager {
    var sessions: seq<SessionRecord>
    var currentSession: SessionRecord?

    /** The manager starts from the sessions loaded from storage. */
    constructor (saved: seq<SessionRecord>)
      ensures sessions == saved && currentSession == null
    {
      sessions := saved;
      currentSession := null;
    }

    /** `startNewSession`: a fresh, empty session becomes current. */
    method StartNewSession(duration: int, now: int)
      modifies this
      ensures sessions == old(sessions)
      ensures currentSession != null && fresh(currentSession)
      ensures currentSession.id == now && currentSession.startTime == now && currentSession.duration == duration
      ensures currentSession.frames == [] && currentSession.summary.None?
      ensures currentSession.endTime.None? && currentSession.finalScore.None?
    {
      currentSession := new SessionRecord(now, duration);
    }

    /**
     * `addFrameData`: nothing without a current session; otherwise the frame
     * is appended and only the last 1000 frames are kept.
     */
    method AddFrameData(eyeContactScore: real, gazeData: GazeData, emotionData: EmotionData, now: int)
      modifies currentSession
      ensures currentSession == old(currentSession) && sessions == old(sessions)
      ensures currentSession != null ==>
        currentSession.frames == CapFrames(old(currentSession.frames)
          + [Frame(now, eyeContactScore, gazeData.currentZone, gazeData.variation,
                   emotionData.overallMood, emotionData.confidence)])
      ensures currentSession != null ==>
        && currentSession.id == old(currentSession.id)
        && currentSession.startTime == old(currentSession.startTime)
        && currentSession.duration == old(currentSession.duration)
        && currentSession.endTime == old(currentSession.endTime)
        && currentSession.finalScore == old(currentSession.finalScore)
        && currentSession.summary == old(currentSession.summary)
    {
      if currentSession == null {
        return;
      }
      var frame := Frame(now, eyeContactScore, gazeData.currentZone, gazeData.variation,
                         emotionData.overallMood, emotionData.confidence);
      currentSession.frames := currentSession.frames + [frame];
      if |currentSession.frames| > MaxFrames {
        currentSession.frames := currentSession.frames[|currentSession.frames| - MaxFrames..];
      }
    }

    /**
     * `endSession`: nothing (and no result) without a current session;
     * otherwise the session is stamped, summarised and appended to the list.
     * The current session is not cleared, so it stays aliased to the last
     * stored session.
     */
    method EndSession(finalScore: real, now: int, stdDev: real) returns (r: SessionRecord?)
      requires currentSession != null && |currentSession.frames| >= 2 ==>
        SqrtOf(stdDev, Variance(Scores(currentSession.frames)))
      modifies this, currentSession
      ensures currentSession == old(currentSession)
      ensures old(currentSession) == null ==> r == null && sessions == old(sessions)
      ensures old(currentSession) != null ==>
        && r == currentSession
        && sessions == old(sessions) + [currentSession]
        && currentSession.frames == old(currentSession.frames)
        && currentSession.endTime == Some(now)
        && currentSession.finalScore == Some(finalScore)
        && currentSession.summary == SummaryOf(currentSession.frames, stdDev)
        && currentSession.id == old(currentSession.id)
        && currentSession.startTime == old(currentSession.startTime)
        && currentSession.duration == old(currentSession.duration)
    {
      if currentSession == null {
        return null;
      }
      var s := currentSession;
      var summary := GenerateSummary(s.frames, stdDev);
      s.Finish(now, finalScore, summary);
      sessions := sessions + [s];
      r := s;
    }

    /**
     * `getProgressReport` without the date and number formatting: the last
     * `limit` sessions, oldest first.  A stored session without a final
     * score makes the formatting throw: `None`.
     */
    method GetProgressReport(limit: nat) returns (r: Option<seq<ProgressEntry>>)
      ensures var k := ReportLength(limit, |sessions|);
        var picked := sessions[|sessions| - k..];
        r.None? <==> exists i :: 0 <= i < |picked| && picked[i].finalScore.None?
      ensures var k := ReportLength(limit, |sessions|);
        var picked := sessions[|sessions| - k..];
        r.Some? ==> (|r.value| == k
          && forall i :: 0 <= i < k ==>
               r.value[i] == ProgressEntry(picked[i].startTime, picked[i].duration, picked[i].finalScore.value,
                                           FirstImprovement(picked[i].summary)))
    {
      var k := ReportLength(limit, |sessions|);
      var picked := sessions[|sessions| - k..];
      var entries: seq<ProgressEntry> := [];
      var i := 0;
      while i < k
        invariant 0 <= i <= k
        invariant |entries| == i
        invariant forall j :: 0 <= j < i ==> picked[j].finalScore.Some?
        invariant forall j :: 0 <= j < i ==>
          entries[j] == ProgressEntry(picked[j].startTime, picked[j].duration, picked[j].finalScore.value,
                                      FirstImprovement(picked[j].summary))
      {
        var s := picked[i];
        if s.finalScore.None? {
          return None;
        }
        entries := entries + [ProgressEntry(s.startTime, s.duration, s.finalScore.value, FirstImprovement(s.summary))];
        i := i + 1;
      }
      r := Some(entries);
    }

    /** `clearAllSessions`. */
    method ClearAllSessions()
      modifies this
      ensures sessions == [] && currentSession == old(currentSession)
    {
      sessions := [];
    }
  }

  /**
   * Because `endSession` does not clear the current session, a frame added
   * after it lands in the session already stored in the list.
   */
  method FrameAfterEndReachesStoredSession(m: SessionManager, score: real, gazeData: GazeData,
                                           emotionData: EmotionData, now: int)
    requires m.currentSession != null
    requires |m.currentSession.frames| == 1
    modifies m, m.currentSession
    ensures |m.sessions| == |old(m.sessions)| + 1
    ensures |m.sessions[|m.sessions| - 1].frames| == |old(m.currentSession.frames)| + 1
    ensures m.sessions[|m.sessions| - 1].finalScore == Some(score)
  {
    var stored := m.EndSession(score, now, 0.0);
    m.AddFrameData(score, gazeData, emotionData, now);
  }
}
