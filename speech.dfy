/**
 * The speech counters of the practice page: the filler lexicon, the way a
 * final recognition result is normalised into words, the per-word and
 * per-phrase counting rules (with the `undefined`/NaN arithmetic JavaScript
 * applies to the hesitation counter), the cumulative series of the results
 * chart and the three feedback bands.
 */
module Speech {
  import opened Common
  import opened Text

  /** `FILLER_WORDS`, in the page's order. */
  const FillerWords: seq<string> := ["ehm", "eh", "hm", "hmm", "no", "akože", "takže",
    "vlastne", "proste", "ako", "um", "uh", "like", "you know", "actually",
    "i mean", "sort of", "kind of", "literally", "basically", "right", "okay", "ok", "well"]

  /** The alternatives of `/\b(um|ah|eh|uhm)\b/gi`. */
  const MiniSoundPattern: seq<string> := ["um", "ah", "eh", "uhm"]

  /** The multi-word entries, `FILLER_WORDS.filter(f => f.includes(' '))`. */
  const Phrases: seq<string> := ["you know", "i mean", "sort of", "kind of"]

  /**
   * `appState.speech.hesitationCount`.  It is never initialised, so it starts
   * `undefined`; `(h || 0) + k` treats undefined, NaN and 0 alike, while
   * `h += k` turns undefined into NaN, which stays NaN under `+=`.
   */
  datatype Hes = Undefined | NotANumber | Count(n: nat)

  /** `(h || 0) + k`. */
  function IncOr(h: Hes, k: nat): Hes
  {
    Count(if h.Count? then h.n + k else k)
  }

  /** `h += k`. */
  function AddTo(h: Hes, k: nat): Hes
  {
    if h.Count? then Count(h.n + k) else NotANumber
  }

  /** `hesitationCount || 0`: the value the results panel reads. */
  function Shown(h: Hes): nat
  {
    if h.Count? then h.n else 0
  }

  /** The three speech counters `processFinalSpeech` updates. */
  datatype Counters = Counters(totalWords: nat, fillerCount: nat, hesitations: Hes)

  /** `text.toLowerCase().trim().replace(/([a-z])\1{1,}/g, '$1')`. */
  function Normalize(text: string): string
  {
    Collapse(Trim(Lower(text)))
  }

  /** The words of one recognised segment: `normalized.split(/\s+/).filter(Boolean)`. */
  function Words(text: string): seq<string>
  {
    Tokens(Normalize(text))
  }

  /** `w.length <= 1 && !/\d/.test(w)`. */
  predicate IsBareSound(w: string)
  {
    |w| <= 1 && !HasDigit(w)
  }

  /** `(w.match(/\b(um|ah|eh|uhm)\b/gi) || []).length` on an already lower-cased word. */
  function MiniSounds(w: string): nat
  {
    CountMatches(w, MiniSoundPattern)
  }

  /** The body of the per-word `forEach` of `processFinalSpeech`. */
  function WordStep(c: Counters, w: string): Counters
  {
    Tally(c, w in FillerWords, IsBareSound(w), MiniSounds(w))
  }

  /**
   * The per-word body once the word has been looked at: a lexicon hit adds a
   * filler and a hesitation, a bare sound another hesitation, and the mini
   * sounds are added on top.
   */
  function Tally(c: Counters, lexicon: bool, bare: bool, m: nat): Counters
  {
    var h1 := if lexicon then IncOr(c.hesitations, 1) else c.hesitations;
    var h2 := if bare then IncOr(h1, 1) else h1;
    Counters(c.totalWords + 1, if lexicon then c.fillerCount + 1 else c.fillerCount,
             if m > 0 then AddTo(h2, m) else h2)
  }

  /** The counters after the per-word pass over `ws`. */
  function AfterWords(c: Counters, ws: seq<string>): Counters
  {
    if ws == [] then c else WordStep(AfterWords(c, ws[..|ws| - 1]), ws[|ws| - 1])
  }

  /** The body of the per-phrase `forEach`, for an entry containing a space. */
  function PhraseStep(c: Counters, normalized: string, phrase: string): Counters
    requires |phrase| > 0
  {
    var m := CountMatches(normalized, [phrase]);
    if m > 0 then Counters(c.totalWords, c.fillerCount + m, IncOr(c.hesitations, m)) else c
  }

  /** The phrase pass over the lexicon entries `es`; entries without a space are filtered out. */
  function AfterPhrases(c: Counters, normalized: string, es: seq<string>): Counters
    requires AllNonEmpty(es)
  {
    if es == [] then c
    else
      var prev := AfterPhrases(c, normalized, es[..|es| - 1]);
      var e := es[|es| - 1];
      if ' ' in e then PhraseStep(prev, normalized, e) else prev
  }

  lemma LexiconNonEmpty()
    ensures AllNonEmpty(FillerWords)
  {
  }

  /** `processFinalSpeech` on the counters: the word pass, then the phrase pass. */
  function AfterSegment(c: Counters, text: string): Counters
  {
    LexiconNonEmpty();
    var n := Normalize(text);
    AfterPhrases(AfterWords(c, Tokens(n)), n, FillerWords)
  }

  // Independent counts the counters are compared against.

  /** How many of `ws` are lexicon entries. */
  function LexiconHits(ws: seq<string>): nat
  {
    if ws == [] then 0 else LexiconHits(ws[..|ws| - 1]) + (if ws[|ws| - 1] in FillerWords then 1 else 0)
  }

  /** What one word adds to a counted hesitation total: a lexicon hit, a bare sound and its mini sounds. */
  function WordWeight(w: string): nat
  {
    (if w in FillerWords then 1 else 0) + (if IsBareSound(w) then 1 else 0) + MiniSounds(w)
  }

  function WordWeights(ws: seq<string>): nat
  {
    if ws == [] then 0 else WordWeights(ws[..|ws| - 1]) + WordWeight(ws[|ws| - 1])
  }

  /** The total number of matches of the spaced entries of `es` in `normalized`. */
  function PhraseHits(normalized: string, es: seq<string>): nat
    requires AllNonEmpty(es)
  {
    if es == [] then 0
    else PhraseHits(normalized, es[..|es| - 1])
         + (if ' ' in es[|es| - 1] then CountMatches(normalized, [es[|es| - 1]]) else 0)
  }

  /** The single-word entries hold no space. */
  lemma SingleWordEntriesA()
    ensures ' ' !in "ehm" && ' ' !in "eh" && ' ' !in "hm" && ' ' !in "hmm" && ' ' !in "no"
    ensures ' ' !in "akože" && ' ' !in "takže" && ' ' !in "vlastne"
  {
  }

  lemma SingleWordEntriesB()
    ensures ' ' !in "proste" && ' ' !in "ako" && ' ' !in "um" && ' ' !in "uh" && ' ' !in "like"
    ensures ' ' !in "actually" && ' ' !in "literally" && ' ' !in "basically"
  {
  }

  lemma SingleWordEntriesC()
    ensures ' ' !in "right" && ' ' !in "okay" && ' ' !in "ok" && ' ' !in "well"
  {
  }

  /** The entries that contain a space are exactly the four phrases. */
  lemma SpacedEntriesArePhrases()
    ensures forall w :: w in FillerWords ==> (' ' in w <==> w in Phrases)
    ensures forall p :: p in Phrases ==> p in FillerWords
  {
    assert FillerWords[13] == "you know" && FillerWords[15] == "i mean";
    assert FillerWords[16] == "sort of" && FillerWords[17] == "kind of";
    assert "you know"[3] == ' ' && "i mean"[1] == ' ' && "sort of"[4] == ' ' && "kind of"[4] == ' ';
    SingleWordEntriesA();
    SingleWordEntriesB();
    SingleWordEntriesC();
  }

  /** From a counted start, one word adds its weight to the counter. */
  lemma WordStepFromCount(c: Counters, w: string)
    requires c.hesitations.Count?
    ensures WordStep(c, w).hesitations == Count(c.hesitations.n + WordWeight(w))
  {
  }

  /**
   * The word pass adds one word per token, one filler per lexicon token and,
   * from a counted start, the sum of the word weights.
   */
  lemma {:induction false} AfterWordsCounts(c: Counters, ws: seq<string>)
    ensures AfterWords(c, ws).totalWords == c.totalWords + |ws|
    ensures AfterWords(c, ws).fillerCount == c.fillerCount + LexiconHits(ws)
    ensures c.hesitations.Count? ==> AfterWords(c, ws).hesitations == Count(c.hesitations.n + WordWeights(ws))
  {
    if ws != [] {
      var init := ws[..|ws| - 1];
      AfterWordsCounts(c, init);
      if c.hesitations.Count? {
        WordStepFromCount(AfterWords(c, init), ws[|ws| - 1]);
      }
    }
  }

  /**
   * The phrase pass leaves the word count alone, adds every phrase match to
   * the filler count and to a counted hesitation total, and any match at all
   * leaves the hesitation counter a number even if it was undefined or NaN.
   */
  lemma {:induction false} AfterPhrasesCounts(c: Counters, normalized: string, es: seq<string>)
    requires AllNonEmpty(es)
    ensures AfterPhrases(c, normalized, es).totalWords == c.totalWords
    ensures AfterPhrases(c, normalized, es).fillerCount == c.fillerCount + PhraseHits(normalized, es)
    ensures c.hesitations.Count? ==>
      AfterPhrases(c, normalized, es).hesitations == Count(c.hesitations.n + PhraseHits(normalized, es))
    ensures PhraseHits(normalized, es) > 0 ==> AfterPhrases(c, normalized, es).hesitations.Count?
    ensures PhraseHits(normalized, es) == 0 ==> AfterPhrases(c, normalized, es) == c
  {
    if es != [] {
      AfterPhrasesCounts(c, normalized, es[..|es| - 1]);
    }
  }

  /**
   * One segment: `totalWords` grows by the number of words, `fillerCount`
   * by the lexicon words plus the phrase matches, and a counted hesitation
   * total by the word weights plus the phrase matches.
   */
  lemma {:induction false} SegmentCounts(c: Counters, text: string)
    ensures AllNonEmpty(FillerWords)
    ensures AfterSegment(c, text).totalWords == c.totalWords + |Words(text)|
    ensures AfterSegment(c, text).fillerCount
            == c.fillerCount + LexiconHits(Words(text)) + PhraseHits(Normalize(text), FillerWords)
    ensures c.hesitations.Count? ==>
      (AfterSegment(c, text).hesitations
       == Count(c.hesitations.n + WordWeights(Words(text)) + PhraseHits(Normalize(text), FillerWords)))
  {
    LexiconNonEmpty();
    var n := Normalize(text);
    var afterWords := AfterWords(c, Tokens(n));
    assert AfterSegment(c, text) == AfterPhrases(afterWords, n, FillerWords);
    assert Words(text) == Tokens(n);
    AfterWordsCounts(c, Tokens(n));
    AfterPhrasesCounts(afterWords, n, FillerWords);
  }

  /** Every phrase holds a space. */
  lemma PhrasesHaveSpaces()
    ensures forall p :: p in Phrases ==> !NoSpace(p)
  {
    assert IsSpace("you know"[3]);
    assert IsSpace("i mean"[1]);
    assert IsSpace("sort of"[4]);
    assert IsSpace("kind of"[4]);
  }

  /** Strings without a space are none of the strings that have one. */
  lemma SpaceFreeAvoidsSpaced(ws: seq<string>, bad: seq<string>)
    requires forall i :: 0 <= i < |ws| ==> NoSpace(ws[i])
    requires forall e :: e in bad ==> !NoSpace(e)
    ensures forall i :: 0 <= i < |ws| ==> ws[i] !in bad
  {
  }

  /** A word never contains a space, so no phrase is ever counted by the per-word check. */
  lemma WordsAreNeverPhrases(text: string)
    ensures forall i :: 0 <= i < |Words(text)| ==> Words(text)[i] !in Phrases
  {
    TokensAreWords(Normalize(text));
    PhrasesHaveSpaces();
    SpaceFreeAvoidsSpaced(Words(text), Phrases);
  }

  /** The lexicon entries with a doubled letter. */
  const DoubledEntries: seq<string> := ["hmm", "actually", "literally", "basically", "well"]

  /** Each doubled entry holds a doubled letter. */
  lemma DoubledEntriesHaveRuns()
    ensures forall e :: e in DoubledEntries ==> !NoLetterRun(e)
  {
    assert "hmm"[1] == "hmm"[2];
    assert "actually"[5] == "actually"[6];
    assert "literally"[6] == "literally"[7];
    assert "basically"[6] == "basically"[7];
    assert "well"[2] == "well"[3];
  }

  /** After the collapse no word holds a doubled letter. */
  lemma WordsHaveNoLetterRun(text: string)
    ensures forall i :: 0 <= i < |Words(text)| ==> NoLetterRun(Words(text)[i])
  {
    var n := Normalize(text);
    CollapseHasNoLetterRun(Trim(Lower(text)));
    SplitPiecesHaveNoLetterRun(n);
    forall i | 0 <= i < |Words(text)|
      ensures NoLetterRun(Words(text)[i])
    {
      assert Words(text)[i] in Split(n);
    }
  }

  /** Strings without a doubled letter are none of the strings that have one. */
  lemma RunFreeAvoidsRuns(ws: seq<string>, bad: seq<string>)
    requires forall i :: 0 <= i < |ws| ==> NoLetterRun(ws[i])
    requires forall e :: e in bad ==> !NoLetterRun(e)
    ensures forall i :: 0 <= i < |ws| ==> ws[i] !in bad
  {
  }

  /**
   * The lexicon entries with a doubled letter can never be counted as words:
   * the collapse has already rewritten them ("hmm" arrives as "hm").
   */
  lemma DoubledEntriesNeverWords(text: string)
    ensures forall i :: 0 <= i < |Words(text)| ==> Words(text)[i] !in DoubledEntries
  {
    WordsHaveNoLetterRun(text);
    DoubledEntriesHaveRuns();
    RunFreeAvoidsRuns(Words(text), DoubledEntries);
  }

  /** "um" and "eh" are both lexicon entries and mini sounds. */
  lemma UmWeight()
    ensures "um" in FillerWords && !IsBareSound("um") && MiniSounds("um") == 1
  {
    assert FillerWords[10] == "um";
    assert MiniSoundPattern[0] == "um" && IsWordChar('u') && IsWordChar('m');
    WholeWordMatchesOnce("um", MiniSoundPattern);
  }

  lemma EhWeight()
    ensures "eh" in FillerWords && !IsBareSound("eh") && MiniSounds("eh") == 1
  {
    assert FillerWords[1] == "eh";
    assert MiniSoundPattern[2] == "eh" && IsWordChar('e') && IsWordChar('h');
    WholeWordMatchesOnce("eh", MiniSoundPattern);
  }

  /** "ah" is a mini sound only; "ako" is a lexicon entry only. */
  lemma AhWeight()
    ensures "ah" !in FillerWords && !IsBareSound("ah") && MiniSounds("ah") == 1
  {
    AhNotLexicon();
    assert MiniSoundPattern[1] == "ah" && IsWordChar('a') && IsWordChar('h');
    WholeWordMatchesOnce("ah", MiniSoundPattern);
  }

  lemma AhNotLexicon()
    ensures "ah" !in FillerWords
  {
  }

  lemma AkoWeight()
    ensures "ako" in FillerWords && !IsBareSound("ako") && MiniSounds("ako") == 0
  {
    assert FillerWords[9] == "ako";
    NoMiniSoundWithoutUOrH("ako");
  }

  /** "um" and "eh" are lexicon words and mini sounds: each adds 2 to a counted total. */
  lemma UmAndEhAddTwo(c: Counters)
    requires c.hesitations.Count?
    ensures WordStep(c, "um").hesitations == Count(c.hesitations.n + 2)
    ensures WordStep(c, "eh").hesitations == Count(c.hesitations.n + 2)
  {
    UmWeight();
    EhWeight();
    WordStepFromCount(c, "um");
    WordStepFromCount(c, "eh");
  }

  /**
   * "ah" is a mini sound but not a lexicon word: when it comes before any
   * other hesitation, `undefined += 1` leaves the counter NaN, and it stays
   * NaN under further mini sounds.  A later lexicon word resets it through
   * `(NaN || 0) + 1`.
   */
  lemma FirstAhMakesNaN(c: Counters)
    requires c.hesitations == Undefined
    ensures WordStep(c, "ah").hesitations == NotANumber
    ensures WordStep(WordStep(c, "ah"), "ah").hesitations == NotANumber
    ensures WordStep(WordStep(c, "ah"), "ako").hesitations == Count(1)
  {
    AhWeight();
    AkoWeight();
  }

  /** A NaN counter is shown as 0. */
  lemma NaNShownAsZero()
    ensures Shown(NotANumber) == 0 && Shown(Undefined) == 0
  {
  }

  /** A phrase that contains a character absent from `s` is never matched in it. */
  lemma ForeignCharNoMatch(s: string, a: string, c: char)
    requires |a| > 0 && c in a && c !in s
    ensures CountMatches(s, [a]) == 0
  {
    forall i, k | 0 <= i <= |s| && 0 <= k < |[a]|
      ensures !MatchesAt(s, i, [a][k])
    {
    }
    NoMatchNoCount(s, [a], 0);
  }

  /** No phrase match in any spaced entry of `es` means no phrase hits at all. */
  lemma {:induction false} NoPhraseNoHits(n: string, es: seq<string>)
    requires AllNonEmpty(es)
    requires forall k :: 0 <= k < |es| && ' ' in es[k] ==> CountMatches(n, [es[k]]) == 0
    ensures PhraseHits(n, es) == 0
  {
    if es != [] {
      NoPhraseNoHits(n, es[..|es| - 1]);
    }
  }

  /** A word with neither 'u' nor 'h' holds no mini sound. */
  lemma NoMiniSoundWithoutUOrH(w: string)
    requires 'u' !in w && 'h' !in w
    ensures MiniSounds(w) == 0
  {
    forall i, k | 0 <= i <= |w| && 0 <= k < |MiniSoundPattern|
      ensures !MatchesAt(w, i, MiniSoundPattern[k])
    {
    }
    NoMatchNoCount(w, MiniSoundPattern, 0);
  }

  lemma ExampleIsLower()
    ensures Lower("no vlastne ako") == "no vlastne ako"
  {
  }

  /** A filler shouted in capitals is still found in the lexicon once lowered. */
  lemma ExampleCapitalFiller()
    ensures Lower("AKOŽE") == "akože"
    ensures Lower("AKOŽE") in FillerWords
  {
    var w := Lower("AKOŽE");
    assert w[3] == 'ž';
    assert w == "akože";
    assert FillerWords[5] == "akože";
  }

  lemma ExampleIsTrimmed()
    ensures Trim("no vlastne ako") == "no vlastne ako"
  {
    assert TrimStart("no vlastne ako") == "no vlastne ako";
    assert TrimEnd("no vlastne ako") == "no vlastne ako";
  }

  lemma ExampleIsCollapsed()
    ensures Collapse("no vlastne ako") == "no vlastne ako"
  {
    CollapseKeepsRunFree("no vlastne ako");
  }

  lemma ExampleIsNormal()
    ensures Normalize("no vlastne ako") == "no vlastne ako"
  {
    ExampleIsLower();
    ExampleIsTrimmed();
    ExampleIsCollapsed();
  }

  lemma ExampleTokens()
    ensures Tokens("no vlastne ako") == ["no", "vlastne", "ako"]
  {
    var ws := ["no", "vlastne", "ako"];
    ExampleJoin(ws);
    ExampleWordsAreWords(ws);
    SplitJoin(ws);
    assert NonEmpty(ws) == ws;
  }

  lemma ExampleJoin(ws: seq<string>)
    requires ws == ["no", "vlastne", "ako"]
    ensures Join(ws) == "no vlastne ako"
  {
    assert Join(ws[2..]) == "ako";
    assert Join(ws[1..]) == "vlastne ako";
  }

  lemma ExampleWordsAreWords(ws: seq<string>)
    requires ws == ["no", "vlastne", "ako"]
    ensures |ws| > 0 && forall i :: 0 <= i < |ws| ==> ws[i] != [] && NoSpace(ws[i])
  {
  }

  lemma ExampleWords()
    ensures Words("no vlastne ako") == ["no", "vlastne", "ako"]
  {
    ExampleIsNormal();
    ExampleTokens();
  }

  /**
   * Each phrase holds a 'y', an 'm' or an 'f', so a text with none of those
   * letters adds no phrase hit.
   */
  lemma NoPhraseLettersNoHits(s: string)
    requires 'y' !in s && 'm' !in s && 'f' !in s
    ensures AllNonEmpty(FillerWords)
    ensures PhraseHits(s, FillerWords) == 0
  {
    LexiconNonEmpty();
    ForeignCharNoMatch(s, "you know", 'y');
    ForeignCharNoMatch(s, "i mean", 'm');
    ForeignCharNoMatch(s, "sort of", 'f');
    ForeignCharNoMatch(s, "kind of", 'f');
    SpacedEntriesArePhrases();
    forall k | 0 <= k < |FillerWords| && ' ' in FillerWords[k]
      ensures CountMatches(s, [FillerWords[k]]) == 0
    {
      assert FillerWords[k] in Phrases;
    }
    NoPhraseNoHits(s, FillerWords);
  }

  lemma NoWeight()
    ensures "no" in FillerWords && !IsBareSound("no") && MiniSounds("no") == 0
  {
    assert FillerWords[4] == "no";
    NoMiniSoundWithoutUOrH("no");
  }

  lemma VlastneWeight()
    ensures "vlastne" in FillerWords && !IsBareSound("vlastne") && MiniSounds("vlastne") == 0
  {
    assert FillerWords[7] == "vlastne";
    NoMiniSoundWithoutUOrH("vlastne");
  }

  /** Words that are lexicon entries with no other hesitation weigh one each. */
  lemma {:induction false} PlainFillersWeighOne(ws: seq<string>)
    requires forall i :: 0 <= i < |ws| ==> ws[i] in FillerWords && !IsBareSound(ws[i]) && MiniSounds(ws[i]) == 0
    ensures LexiconHits(ws) == |ws| && WordWeights(ws) == |ws|
  {
    if ws != [] {
      PlainFillersWeighOne(ws[..|ws| - 1]);
    }
  }

  lemma ExampleWordCounts(text: string)
    requires text == "no vlastne ako"
    ensures |Words(text)| == 3 && LexiconHits(Words(text)) == 3 && WordWeights(Words(text)) == 3
  {
    var ws := ["no", "vlastne", "ako"];
    ExampleWords();
    forall i | 0 <= i < |ws|
      ensures ws[i] in FillerWords && !IsBareSound(ws[i]) && MiniSounds(ws[i]) == 0
    {
      if i == 0 {
        NoWeight();
      } else if i == 1 {
        VlastneWeight();
      } else {
        AkoWeight();
      }
    }
    PlainFillersWeighOne(ws);
  }

  /** The example holds none of the letters every phrase needs. */
  lemma ExampleLacksPhraseLetters(text: string)
    requires text == "no vlastne ako"
    ensures 'y' !in Normalize(text) && 'm' !in Normalize(text) && 'f' !in Normalize(text)
  {
    ExampleIsNormal();
    ExampleLetters();
  }

  lemma ExampleLetters()
    ensures 'y' !in "no vlastne ako" && 'm' !in "no vlastne ako" && 'f' !in "no vlastne ako"
  {
  }

  /** "no vlastne ako" is three words and three fillers, since "no" is a lexicon entry too. */
  lemma NoVlastneAko(c: Counters, text: string)
    requires c.hesitations.Count? && text == "no vlastne ako"
    ensures AfterSegment(c, text) == Counters(c.totalWords + 3, c.fillerCount + 3, Count(c.hesitations.n + 3))
  {
    ExampleWordCounts(text);
    ExampleLacksPhraseLetters(text);
    NoPhraseLettersNoHits(Normalize(text));
    SegmentCounts(c, text);
  }

  // The results chart.

  /** How many pieces of a split are at most two characters long (empty pieces included). */
  function ShortPieces(ps: seq<string>): nat
  {
    if ps == [] then 0 else ShortPieces(ps[..|ps| - 1]) + (if |ps[|ps| - 1]| <= 2 then 1 else 0)
  }

  /** The `\b<entry>\b` matches of every lexicon entry in `t`, summed. */
  function LexiconMatches(t: string, es: seq<string>): nat
    requires AllNonEmpty(es)
  {
    if es == [] then 0 else LexiconMatches(t, es[..|es| - 1]) + CountMatches(t, [es[|es| - 1]])
  }

  /**
   * What the chart counts for one transcript segment: the lower-cased raw
   * text (neither trimmed nor collapsed), every lexicon match, plus every
   * piece of `split(/\s+/)` of length at most two.
   */
  function SegmentHesitations(text: string): nat
  {
    LexiconNonEmpty();
    var t := Lower(text);
    LexiconMatches(t, FillerWords) + ShortPieces(Split(t))
  }

  /** The per-segment chart counts of a transcript. */
  function ChartCounts(texts: seq<string>): (r: seq<nat>)
    ensures |r| == |texts|
  {
    seq(|texts|, i requires 0 <= i < |texts| => SegmentHesitations(texts[i]))
  }

  /** The running total `cumulative` after the counts `xs`. */
  function RunningSum(xs: seq<nat>): nat
  {
    if xs == [] then 0 else RunningSum(xs[..|xs| - 1]) + xs[|xs| - 1]
  }

  lemma {:induction false} LexiconMatchesOfEmpty(es: seq<string>)
    requires AllNonEmpty(es)
    ensures LexiconMatches("", es) == 0
  {
    if es != [] {
      LexiconMatchesOfEmpty(es[..|es| - 1]);
    }
  }

  /** An empty segment still adds one to the chart: it splits into one empty piece. */
  lemma EmptySegmentCountsOne()
    ensures SegmentHesitations("") == 1
  {
    LexiconNonEmpty();
    assert Lower("") == "";
    LexiconMatchesOfEmpty(FillerWords);
  }

  /** The running total only grows: the chart series never goes down. */
  lemma {:induction false} RunningSumGrows(xs: seq<nat>, i: nat, j: nat)
    requires i <= j <= |xs|
    ensures RunningSum(xs[..i]) <= RunningSum(xs[..j])
    decreases j
  {
    if i < j {
      RunningSumGrows(xs, i, j - 1);
      assert xs[..j][..j - 1] == xs[..j - 1];
    }
  }

  /** The running totals after each count: the series the results chart plots. */
  function Cumulative(xs: seq<nat>): (r: seq<nat>)
    ensures |r| == |xs|
  {
    if xs == [] then [] else Cumulative(xs[..|xs| - 1]) + [RunningSum(xs)]
  }

  /** Entry `i` of the series is the total of the first `i + 1` counts, and the series never decreases. */
  lemma {:induction false} CumulativeIsRunningSums(xs: seq<nat>)
    ensures forall i :: 0 <= i < |xs| ==> Cumulative(xs)[i] == RunningSum(xs[..i + 1])
    ensures forall i, j :: 0 <= i <= j < |xs| ==> Cumulative(xs)[i] <= Cumulative(xs)[j]
  {
    if xs != [] {
      var init := xs[..|xs| - 1];
      CumulativeIsRunningSums(init);
      forall i | 0 <= i < |xs|
        ensures Cumulative(xs)[i] == RunningSum(xs[..i + 1])
      {
        if i < |init| {
          assert init[..i + 1] == xs[..i + 1];
        } else {
          assert xs[..i + 1] == xs;
        }
      }
      forall i, j | 0 <= i <= j < |xs|
        ensures Cumulative(xs)[i] <= Cumulative(xs)[j]
      {
        RunningSumGrows(xs, i + 1, j + 1);
      }
    }
  }

  // Feedback bands.

  datatype TempoBand = Slow | GoodTempo | Fast
  datatype HesitationBand = Fluent | SomeHesitation | FrequentHesitation
  datatype GazeBand = StrongContact | OccasionalContact | WeakContact

  /** The tempo band of `updateFeedback`: below 80 words per minute, up to 140, above. */
  function TempoBandOf(wpm: int): (b: TempoBand)
    ensures b == Slow <==> wpm < 80
    ensures b == Fast <==> wpm > 140
  {
    if wpm < 80 then Slow else if wpm <= 140 then GoodTempo else Fast
  }

  /** `Math.round` compared with an integer is the unrounded value compared with the half below. */
  lemma RoundBelow(x: real, n: int)
    ensures Round(x) < n <==> x + 0.5 < n as real
  {
  }

  /**
   * `(h / (words || 1) * 100).toFixed(1)`, as the number it is compared as:
   * the percentage rounded to one decimal, halves up.
   */
  function HesitationPercent(hesitations: nat, totalWords: nat): real
  {
    var words := if totalWords == 0 then 1 else totalWords;
    Round(hesitations as real / words as real * 100.0 * 10.0) as real / 10.0
  }

  /**
   * The hesitation band: the rounded percentage below 5, up to 15, above.
   * Because of the rounding, fluent means an unrounded percentage below 4.95
   * and frequent one of at least 15.05: in integers, 2000·h < 99·words and
   * 2000·h >= 301·words.
   */
  function HesitationBandOf(hesitations: nat, totalWords: nat): (b: HesitationBand)
    ensures var words := if totalWords == 0 then 1 else totalWords;
      (b == Fluent <==> 2000 * hesitations < 99 * words)
      && (b == FrequentHesitation <==> 2000 * hesitations >= 301 * words)
  {
    var words := if totalWords == 0 then 1 else totalWords;
    var q := hesitations as real / words as real;
    RoundBelow(q * 100.0 * 10.0, 50);
    RoundBelow(q * 100.0 * 10.0, 151);
    RatioCompare(hesitations as real, words as real, 0.0495);
    RatioCompare(hesitations as real, words as real, 0.1505);
    var pct := HesitationPercent(hesitations, totalWords);
    if pct < 5.0 then Fluent else if pct <= 15.0 then SomeHesitation else FrequentHesitation
  }

  /**
   * The gaze band: `(center * 100).toFixed(0)` at least 60, at least 40,
   * below.  With the rounding that is a centre share of at least 59.5% and
   * at least 39.5%.
   */
  function GazeBandOf(center: real): (b: GazeBand)
    ensures b == StrongContact <==> center * 200.0 >= 119.0
    ensures b == WeakContact <==> center * 200.0 < 79.0
  {
    var shown := Round(center * 100.0);
    RoundBelow(center * 100.0, 60);
    RoundBelow(center * 100.0, 40);
    if shown >= 60 then StrongContact else if shown >= 40 then OccasionalContact else WeakContact
  }
}
