/**
 * The string operations the speech counter is built from, with the
 * semantics JavaScript gives them: `toLowerCase`, `trim`, the `\s` class, the
 * letter-run collapse `replace(/([a-z])\1{1,}/g, '$1')`, `split(/\s+/)` and
 * global matching of a `\b(...)\b` pattern.
 */
module Text {
  import opened Common

  /** JavaScript white space and line terminators: what `\s` and `trim` both match. */
  predicate IsSpace(c: char) {
    c == ' ' || c == '\t' || c == '\n' || c == '\r' || c == '\U{000B}' || c == '\U{000C}'
    || c == '\U{00A0}' || c == '\U{1680}' || ('\U{2000}' <= c <= '\U{200A}')
    || c == '\U{2028}' || c == '\U{2029}' || c == '\U{202F}' || c == '\U{205F}'
    || c == '\U{3000}' || c == '\U{FEFF}'
  }

  /** The class `[a-z]` of the collapse pattern. */
  predicate IsLower(c: char) {
    'a' <= c <= 'z'
  }

  /** The class `\d` (no `u` flag: ASCII digits only). */
  predicate IsDigit(c: char) {
    '0' <= c <= '9'
  }

  /** The word characters that `\b` looks at (no `u` flag: `[A-Za-z0-9_]`). */
  predicate IsWordChar(c: char) {
    IsLower(c) || ('A' <= c <= 'Z') || IsDigit(c) || c == '_'
  }

  predicate HasDigit(s: string) {
    exists i :: 0 <= i < |s| && IsDigit(s[i])
  }

  predicate NoSpace(s: string) {
    forall i :: 0 <= i < |s| ==> !IsSpace(s[i])
  }

  /**
   * The capitals that `toLowerCase` maps to one other UTF-16 unit, within
   * Basic Latin, Latin-1 and Latin Extended-A (the blocks of Slovak text):
   * `A`-`Z`, `À`-`Þ` except `×`, and the capital of each pair in Latin
   * Extended-A.  `İ` (U+0130) is not among them.
   */
  predicate IsCapital(c: char) {
    ('A' <= c <= 'Z')
    || ('\U{00C0}' <= c <= '\U{00DE}' && c != '\U{00D7}')
    || ('\U{0100}' <= c <= '\U{012F}' && c as int % 2 == 0)
    || ('\U{0132}' <= c <= '\U{0137}' && c as int % 2 == 0)
    || ('\U{0139}' <= c <= '\U{0148}' && c as int % 2 == 1)
    || ('\U{014A}' <= c <= '\U{0177}' && c as int % 2 == 0)
    || c == '\U{0178}'
    || ('\U{0179}' <= c <= '\U{017E}' && c as int % 2 == 1)
  }

  /** `toLowerCase` on one character: each capital becomes its small letter. */
  function LowerChar(c: char): (r: char)
    ensures IsCapital(c) ==> r != c
    ensures !IsCapital(c) ==> r == c
    ensures !IsCapital(r)
    ensures !IsSpace(c) ==> !IsSpace(r)
  {
    if 'A' <= c <= 'Z' || '\U{00C0}' <= c <= '\U{00DE}' then
      if c == '\U{00D7}' then c else (c as int + 32) as char
    else if c == '\U{0178}' then '\U{00FF}'
    else if IsCapital(c) then (c as int + 1) as char
    else c
  }

  /** `toLowerCase`, for the capitals of `IsCapital`. */
  function Lower(s: string): (r: string)
    ensures |r| == |s|
    ensures forall i :: 0 <= i < |s| ==> r[i] == LowerChar(s[i])
  {
    seq(|s|, i requires 0 <= i < |s| => LowerChar(s[i]))
  }

  /** Leading white space removed. */
  function TrimStart(s: string): (r: string)
    ensures |r| <= |s|
    ensures r == [] || !IsSpace(r[0])
    ensures r == s[|s| - |r|..]
  {
    if s != [] && IsSpace(s[0]) then TrimStart(s[1..]) else s
  }

  function TrimEnd(s: string): (r: string)
    ensures |r| <= |s|
    ensures r == [] || !IsSpace(r[|r| - 1])
    ensures r == s[..|r|]
  {
    if s != [] && IsSpace(s[|s| - 1]) then TrimEnd(s[..|s| - 1]) else s
  }

  /** `r` is the slice of `s` starting at `a`, and everything around it is white space. */
  predicate TrimmedAt(s: string, r: string, a: int) {
    0 <= a <= a + |r| <= |s| && r == s[a..a + |r|]
    && (forall i :: 0 <= i < a ==> IsSpace(s[i]))
    && (forall i :: a + |r| <= i < |s| ==> IsSpace(s[i]))
  }

  /** `trim`: white space removed from both ends, nothing else changed. */
  function Trim(s: string): (r: string)
    ensures r == [] || (!IsSpace(r[0]) && !IsSpace(r[|r| - 1]))
    ensures exists a :: TrimmedAt(s, r, a)
  {
    TrimIsSlice(s);
    TrimEnd(TrimStart(s))
  }

  /** `TrimStart` removes white space only. */
  lemma {:induction false} TrimStartDropsSpaces(s: string)
    ensures forall i :: 0 <= i < |s| - |TrimStart(s)| ==> IsSpace(s[i])
  {
    if s != [] && IsSpace(s[0]) {
      TrimStartDropsSpaces(s[1..]);
      forall i | 1 <= i < |s| - |TrimStart(s)|
        ensures IsSpace(s[i])
      {
        assert s[i] == s[1..][i - 1];
      }
    }
  }

  /** `TrimEnd` removes white space only. */
  lemma {:induction false} TrimEndDropsSpaces(s: string)
    ensures forall i :: |TrimEnd(s)| <= i < |s| ==> IsSpace(s[i])
  {
    if s != [] && IsSpace(s[|s| - 1]) {
      TrimEndDropsSpaces(s[..|s| - 1]);
      forall i | |TrimEnd(s)| <= i < |s| - 1
        ensures IsSpace(s[i])
      {
        assert s[i] == s[..|s| - 1][i];
      }
    }
  }

  /**
   * A prefix `t` of `s` with white space before it, and a prefix `r` of `t`
   * with white space after it, is a slice of `s` with white space around it.
   */
  lemma SliceBetweenSpaces(s: string, t: string, r: string)
    requires |r| <= |t| <= |s| && t == s[|s| - |t|..] && r == t[..|r|]
    requires forall i :: 0 <= i < |s| - |t| ==> IsSpace(s[i])
    requires forall i :: |r| <= i < |t| ==> IsSpace(t[i])
    ensures TrimmedAt(s, r, |s| - |t|)
  {
    var a := |s| - |t|;
    forall i | a + |r| <= i < |s|
      ensures IsSpace(s[i])
    {
      assert s[i] == t[i - a];
    }
  }

  /** Leading white space, once dropped, leaves a shorter string. */
  lemma TrimStartShortens(s: string)
    requires s != [] && IsSpace(s[0])
    ensures |TrimStart(s)| < |s|
  {
  }

  /** The witness for `Trim`: the slice starts after the leading white space. */
  lemma TrimIsSlice(s: string)
    ensures TrimmedAt(s, TrimEnd(TrimStart(s)), |s| - |TrimStart(s)|)
  {
    TrimStartDropsSpaces(s);
    TrimEndDropsSpaces(TrimStart(s));
    TrimmedBetweenSpaces(s);
  }

  lemma TrimmedBetweenSpaces(s: string)
    requires forall i :: 0 <= i < |s| - |TrimStart(s)| ==> IsSpace(s[i])
    requires forall i :: |TrimEnd(TrimStart(s))| <= i < |TrimStart(s)| ==> IsSpace(TrimStart(s)[i])
    ensures TrimmedAt(s, TrimEnd(TrimStart(s)), |s| - |TrimStart(s)|)
  {
    SliceBetweenSpaces(s, TrimStart(s), TrimEnd(TrimStart(s)));
  }

  /** No lower-case letter is immediately followed by the same letter. */
  predicate NoLetterRun(s: string) {
    forall i :: 0 < i < |s| ==> !(IsLower(s[i]) && s[i - 1] == s[i])
  }

  /**
   * `replace(/([a-z])\1{1,}/g, '$1')`: every run of two or more equal
   * letters `a`-`z` becomes one letter.  Dropping the first letter of each
   * equal pair leaves the same text as keeping the first letter of each run.
   */
  function Collapse(s: string): (r: string)
    ensures |r| <= |s|
    ensures s != [] ==> r != [] && r[0] == s[0]
  {
    if |s| < 2 then s
    else if IsLower(s[0]) && s[1] == s[0] then Collapse(s[1..])
    else [s[0]] + Collapse(s[1..])
  }

  /** The characters of `s` other than `a`-`z`, in order. */
  function NonLetters(s: string): string
  {
    if s == [] then [] else (if IsLower(s[0]) then [] else [s[0]]) + NonLetters(s[1..])
  }

  lemma {:induction false} CollapseHasNoLetterRun(s: string)
    ensures NoLetterRun(Collapse(s))
  {
    if |s| >= 2 {
      CollapseHasNoLetterRun(s[1..]);
      if !(IsLower(s[0]) && s[1] == s[0]) {
        var t := Collapse(s[1..]);
        assert t[0] == s[1];
        forall i | 0 < i < |[s[0]] + t|
          ensures !(IsLower(([s[0]] + t)[i]) && ([s[0]] + t)[i - 1] == ([s[0]] + t)[i])
        {
          if i > 1 {
            assert ([s[0]] + t)[i] == t[i - 1] && ([s[0]] + t)[i - 1] == t[i - 2];
          }
        }
      }
    }
  }

  lemma {:induction false} CollapseKeepsRunFree(s: string)
    requires NoLetterRun(s)
    ensures Collapse(s) == s
  {
    if |s| >= 2 {
      assert !(IsLower(s[1]) && s[0] == s[1]);
      assert NoLetterRun(s[1..]) by {
        forall i | 0 < i < |s[1..]| ensures !(IsLower(s[1..][i]) && s[1..][i - 1] == s[1..][i]) {
          assert s[1..][i] == s[i + 1] && s[1..][i - 1] == s[i];
        }
      }
      CollapseKeepsRunFree(s[1..]);
      assert [s[0]] + s[1..] == s;
    }
  }

  /** Collapsing is idempotent: normalising normalised text changes nothing. */
  lemma CollapseIdempotent(s: string)
    ensures Collapse(Collapse(s)) == Collapse(s)
  {
    CollapseHasNoLetterRun(s);
    CollapseKeepsRunFree(Collapse(s));
  }

  /** Collapsing only removes letters `a`-`z`: every other character survives in order. */
  lemma {:induction false} CollapseKeepsNonLetters(s: string)
    ensures NonLetters(Collapse(s)) == NonLetters(s)
  {
    if |s| >= 2 {
      CollapseKeepsNonLetters(s[1..]);
      if IsLower(s[0]) && s[1] == s[0] {
        assert NonLetters(s) == NonLetters(s[1..]);
      } else {
        var t := Collapse(s[1..]);
        assert ([s[0]] + t)[1..] == t;
      }
    }
  }

  /**
   * The first letter of every run, read the other way: keep `s[i]` unless it
   * is a letter `a`-`z` equal to the character before it.
   */
  function RunHeads(s: string): string
  {
    if s == [] then []
    else
      var n := |s| - 1;
      RunHeads(s[..n]) + (if n >= 1 && IsLower(s[n]) && s[n - 1] == s[n] then [] else [s[n]])
  }

  /** Appending one character to the input of `Collapse`. */
  lemma {:induction false} CollapseSnoc(s: string, c: char)
    ensures Collapse(s + [c])
         == if s != [] && IsLower(c) && s[|s| - 1] == c then Collapse(s) else Collapse(s) + [c]
  {
    if s == [] {
      assert s + [c] == [c];
    } else if |s| == 1 {
      assert s + [c] == [s[0], c];
      assert [s[0], c][1..] == [c];
    } else {
      var t := s + [c];
      assert t[0] == s[0] && t[1] == s[1];
      assert t[1..] == s[1..] + [c];
      CollapseSnoc(s[1..], c);
      assert s[1..][|s[1..]| - 1] == s[|s| - 1];
    }
  }

  /** `Collapse` keeps exactly the first letter of every run. */
  lemma {:induction false} CollapseIsRunHeads(s: string)
    ensures Collapse(s) == RunHeads(s)
  {
    if s != [] {
      var n := |s| - 1;
      var init, c := s[..n], s[n];
      var tail: string := if n >= 1 && IsLower(c) && s[n - 1] == c then [] else [c];
      assert RunHeads(s) == RunHeads(init) + tail;
      assert Collapse(s) == Collapse(init) + tail by {
        assert init + [c] == s;
        CollapseSnoc(init, c);
        assert init != [] ==> init[|init| - 1] == s[n - 1];
      }
      CollapseIsRunHeads(init);
    }
  }

  /**
   * `split(/\s+/)`: the pieces between maximal runs of white space,
   * including an empty first piece when `s` starts with white space, an
   * empty last piece when it ends with it, and `[""]` for the empty string.
   */
  function Split(s: string): (r: seq<string>)
    ensures |r| > 0
    decreases |s|
  {
    if s == [] then [""]
    else if IsSpace(s[0]) then TrimStartShortens(s); [""] + Split(TrimStart(s))
    else var rest := Split(s[1..]); [[s[0]] + rest[0]] + rest[1..]
  }

  function NonEmpty(ps: seq<string>): (r: seq<string>)
    ensures forall i :: 0 <= i < |r| ==> r[i] != [] && r[i] in ps
  {
    if ps == [] then []
    else (if ps[0] == [] then [] else [ps[0]]) + NonEmpty(ps[1..])
  }

  /** `split(/\s+/).filter(Boolean)`: the words of `s`. */
  function Tokens(s: string): seq<string>
  {
    NonEmpty(Split(s))
  }

  /** No piece of a split contains white space. */
  lemma {:induction false} SplitPiecesHaveNoSpace(s: string)
    ensures forall i :: 0 <= i < |Split(s)| ==> NoSpace(Split(s)[i])
    decreases |s|
  {
    if s == [] {
    } else if IsSpace(s[0]) {
      SplitPiecesHaveNoSpace(TrimStart(s));
    } else {
      SplitPiecesHaveNoSpace(s[1..]);
    }
  }

  /** Every token is non-empty and free of white space. */
  lemma TokensAreWords(s: string)
    ensures forall i :: 0 <= i < |Tokens(s)| ==> Tokens(s)[i] != [] && NoSpace(Tokens(s)[i])
  {
    SplitPiecesHaveNoSpace(s);
    forall i | 0 <= i < |Tokens(s)| ensures NoSpace(Tokens(s)[i]) {
      var t := Tokens(s)[i];
      assert t in Split(s);
      var j :| 0 <= j < |Split(s)| && Split(s)[j] == t;
    }
  }

  /** Splitting keeps the absence of letter runs: each piece is a slice of the input. */
  lemma {:induction false} SplitPiecesHaveNoLetterRun(s: string)
    requires NoLetterRun(s)
    ensures forall i :: 0 <= i < |Split(s)| ==> NoLetterRun(Split(s)[i])
    decreases |s|
  {
    if s == [] {
    } else if IsSpace(s[0]) {
      var d := TrimStart(s);
      assert d == s[|s| - |d|..];
      assert NoLetterRun(d) by {
        forall i | 0 < i < |d| ensures !(IsLower(d[i]) && d[i - 1] == d[i]) {
          assert d[i] == s[|s| - |d| + i] && d[i - 1] == s[|s| - |d| + i - 1];
        }
      }
      SplitPiecesHaveNoLetterRun(d);
    } else {
      var t := s[1..];
      assert NoLetterRun(t) by {
        forall i | 0 < i < |t| ensures !(IsLower(t[i]) && t[i - 1] == t[i]) {
          assert t[i] == s[i + 1] && t[i - 1] == s[i];
        }
      }
      SplitPiecesHaveNoLetterRun(t);
      var rest := Split(t);
      var head := [s[0]] + rest[0];
      assert NoLetterRun(head) by {
        if |rest[0]| > 0 {
          assert rest[0][0] == s[1] by { SplitFirstChar(t); }
        }
        forall i | 0 < i < |head| ensures !(IsLower(head[i]) && head[i - 1] == head[i]) {
          if i > 1 {
            assert head[i] == rest[0][i - 1] && head[i - 1] == rest[0][i - 2];
          } else {
            assert head[1] == s[1] && head[0] == s[0];
          }
        }
      }
      assert Split(s) == [head] + rest[1..];
    }
  }

  /** A non-empty first piece starts with the first character of the input. */
  lemma {:induction false} SplitFirstChar(s: string)
    requires |Split(s)[0]| > 0
    ensures s != [] && Split(s)[0][0] == s[0]
  {
    if s == [] {
    } else if IsSpace(s[0]) {
    } else {
    }
  }

  /** The words joined by single spaces. */
  function Join(ws: seq<string>): string
  {
    if ws == [] then "" else if |ws| == 1 then ws[0] else ws[0] + " " + Join(ws[1..])
  }

  lemma {:induction false} SplitWordThen(w: string, t: string)
    requires NoSpace(w)
    ensures Split(w + t) == [w + Split(t)[0]] + Split(t)[1..]
  {
    if w == [] {
      assert w + t == t && w + Split(t)[0] == Split(t)[0];
      assert Split(t) == [Split(t)[0]] + Split(t)[1..];
    } else {
      SplitWordThen(w[1..], t);
      assert (w + t)[0] == w[0] && (w + t)[1..] == w[1..] + t;
      var rest := Split(w[1..] + t);
      assert rest == [w[1..] + Split(t)[0]] + Split(t)[1..];
      assert Split(w + t) == [[w[0]] + rest[0]] + rest[1..];
      assert [w[0]] + (w[1..] + Split(t)[0]) == w + Split(t)[0];
    }
  }

  /** A single space before a word starts a new, empty-prefixed piece. */
  lemma SplitAfterSpace(rest: string)
    requires rest != [] && !IsSpace(rest[0])
    ensures Split(" " + rest) == [""] + Split(rest)
  {
    var t := " " + rest;
    assert t[0] == ' ' && t[1..] == rest;
    assert TrimStart(rest) == rest;
    assert TrimStart(t) == rest;
  }

  /** Joining words with single spaces and splitting again gives the words back. */
  lemma {:induction false} SplitJoin(ws: seq<string>)
    requires |ws| > 0
    requires forall i :: 0 <= i < |ws| ==> ws[i] != [] && NoSpace(ws[i])
    ensures Split(Join(ws)) == ws
  {
    if |ws| == 1 {
      SplitWordThen(ws[0], "");
      assert ws[0] + "" == ws[0];
    } else {
      var rest := Join(ws[1..]);
      assert Join(ws) == ws[0] + (" " + rest);
      SplitJoin(ws[1..]);
      JoinStartsWithWord(ws[1..]);
      SplitAfterSpace(rest);
      var sp := Split(" " + rest);
      assert sp == [""] + ws[1..];
      SplitWordThen(ws[0], " " + rest);
      assert Split(Join(ws)) == [ws[0] + sp[0]] + sp[1..];
      assert ws[0] + "" == ws[0];
      assert sp[1..] == ws[1..];
    }
  }

  lemma {:induction false} JoinStartsWithWord(ws: seq<string>)
    requires |ws| > 0 && ws[0] != [] && !IsSpace(ws[0][0])
    ensures Join(ws) != [] && Join(ws)[0] == ws[0][0]
  {
  }

  /** `\b` at position `i`: a word character on exactly one side. */
  predicate Boundary(s: string, i: nat)
    requires i <= |s|
  {
    (i > 0 && IsWordChar(s[i - 1])) != (i < |s| && IsWordChar(s[i]))
  }

  /** `\b` + `a` + `\b` matches at position `i`. */
  predicate MatchesAt(s: string, i: nat, a: string)
    requires i <= |s|
  {
    Boundary(s, i) && i + |a| <= |s| && s[i..i + |a|] == a && Boundary(s, i + |a|)
  }

  /**
   * The length of the match of `\b(a1|a2|...)\b` at position `i`: the first
   * alternative, in order, for which the whole pattern succeeds there.
   */
  function MatchAt(s: string, i: nat, alts: seq<string>): (r: Option<nat>)
    requires i <= |s|
    ensures r.Some? ==> exists k :: 0 <= k < |alts| && |alts[k]| == r.value && MatchesAt(s, i, alts[k])
    ensures r.None? ==> forall k :: 0 <= k < |alts| ==> !MatchesAt(s, i, alts[k])
  {
    if alts == [] then None
    else if MatchesAt(s, i, alts[0]) then Some(|alts[0]|)
    else
      var r := MatchAt(s, i, alts[1..]);
      assert forall k :: 1 <= k < |alts| ==> alts[k] == alts[1..][k - 1];
      r
  }

  predicate AllNonEmpty(alts: seq<string>) {
    forall k :: 0 <= k < |alts| ==> |alts[k]| > 0
  }

  /** The number of matches `s.match(/\b(alts)\b/g)` returns, scanning from `p`. */
  function CountMatchesFrom(s: string, alts: seq<string>, p: nat): nat
    requires p <= |s|
    requires AllNonEmpty(alts)
    decreases |s| - p
  {
    if p == |s| then 0
    else match MatchAt(s, p, alts)
      case Some(len) => 1 + CountMatchesFrom(s, alts, p + len)
      case None => CountMatchesFrom(s, alts, p + 1)
  }

  /** `(s.match(/\b(alts)\b/g) || []).length`. */
  function CountMatches(s: string, alts: seq<string>): nat
    requires AllNonEmpty(alts)
  {
    CountMatchesFrom(s, alts, 0)
  }

  /** A word made of word characters only, and listed among the alternatives, is counted exactly once. */
  lemma WholeWordMatchesOnce(w: string, alts: seq<string>)
    requires AllNonEmpty(alts) && |w| > 0 && w in alts
    requires forall i :: 0 <= i < |w| ==> IsWordChar(w[i])
    ensures CountMatches(w, alts) == 1
  {
    var k :| 0 <= k < |alts| && alts[k] == w;
    assert w[0..|w|] == w;
    assert MatchesAt(w, 0, alts[k]);
    var r := MatchAt(w, 0, alts);
    assert r.Some?;
    var j :| 0 <= j < |alts| && |alts[j]| == r.value && MatchesAt(w, 0, alts[j]);
    assert forall q :: 0 < q < |w| ==> !Boundary(w, q);
    assert |alts[j]| > 0;
    assert r.value == |w|;
    assert CountMatchesFrom(w, alts, |w|) == 0;
  }

  /** A pattern that matches nowhere is counted zero times. */
  lemma {:induction false} NoMatchNoCount(s: string, alts: seq<string>, p: nat)
    requires p <= |s| && AllNonEmpty(alts)
    requires forall i, k :: p <= i <= |s| && 0 <= k < |alts| ==> !MatchesAt(s, i, alts[k])
    ensures CountMatchesFrom(s, alts, p) == 0
    decreases |s| - p
  {
    if p < |s| {
      NoMatchNoCount(s, alts, p + 1);
    }
  }

  /** A pattern containing white space never matches inside a space-free string. */
  lemma NoSpaceNoSpacedMatch(s: string, a: string)
    requires NoSpace(s) && |a| > 0 && !NoSpace(a)
    ensures CountMatches(s, [a]) == 0
  {
    forall i | 0 <= i <= |s| ensures !MatchesAt(s, i, a) {
      if MatchesAt(s, i, a) {
        assert false;
      }
    }
    NoMatchNoCount(s, [a], 0);
  }
}
