/** What splitting a string on a separator means.  The separator is any non-empty
    string; `Words` is the reference that the loops in StringUtils are proved against. */
module Splitting {

  type Separator = s: string | s != "" witness " "

  function TrimStart(s: string, sep: string): string
    requires sep != ""
  {
    if sep <= s then TrimStart(s[|sep|..], sep) else s
  }

  /** The distance from the start of `s` to its first separator, or to its end. */
  function WordLength(s: string, sep: string): (n: nat)
    requires sep != ""
    ensures n <= |s|
  {
    if s == "" || sep <= s then 0 else 1 + WordLength(s[1..], sep)
  }

  function Words(s: string, sep: string): seq<string>
    requires sep != ""
    decreases |s|
  {
    if sep <= s then Words(s[|sep|..], sep)
    else if s == "" then []
    else
      var n := WordLength(s, sep);
      [s[..n]] + Words(s[n..], sep)
  }

  /** How many separators stand before, between and after the words. */
  function Gaps(s: string, sep: string): (g: seq<nat>)
    requires sep != ""
    ensures |g| == |Words(s, sep)| + 1
    decreases |s|
  {
    if sep <= s then
      var g := Gaps(s[|sep|..], sep);
      [g[0] + 1] + g[1..]
    else if s == "" then [0]
    else [0] + Gaps(s[WordLength(s, sep)..], sep)
  }

  function Repeat(s: string, n: nat): string {
    if n == 0 then "" else s + Repeat(s, n - 1)
  }

  function Weave(words: seq<string>, gaps: seq<nat>, sep: string): string
    requires |gaps| == |words| + 1
  {
    Repeat(sep, gaps[0]) + if words == [] then "" else words[0] + Weave(words[1..], gaps[1..], sep)
  }

  predicate Occurs(sep: string, s: string) {
    exists i | 0 <= i <= |s| :: sep <= s[i..]
  }

  lemma TrimStartKeepsWords(s: string, sep: string)
    requires sep != ""
    ensures Words(TrimStart(s, sep), sep) == Words(s, sep)
    ensures !(sep <= TrimStart(s, sep))
    ensures TrimStart(s, sep) == "" <==> Words(s, sep) == []
  {
  }

  /** A word runs up to the first separator and contains none. */
  lemma {:induction false} WordLengthStops(s: string, sep: string)
    requires sep != ""
    ensures forall i | 0 <= i < WordLength(s, sep) :: !(sep <= s[i..])
    ensures WordLength(s, sep) < |s| ==> sep <= s[WordLength(s, sep)..]
  {
    var n := WordLength(s, sep);
    if s != "" && !(sep <= s) {
      WordLengthStops(s[1..], sep);
      forall i | 0 <= i < n
        ensures !(sep <= s[i..])
      {
        if i > 0 {
          assert s[i..] == s[1..][i - 1..];
        }
      }
      assert n < |s| ==> s[n..] == s[1..][n - 1..];
    }
  }

  lemma {:induction false} WordIsClean(s: string, sep: string)
    requires sep != "" && s != "" && !(sep <= s)
    ensures var w := s[..WordLength(s, sep)]; w != "" && !Occurs(sep, w)
  {
    var n := WordLength(s, sep);
    WordLengthStops(s, sep);
    forall i | 0 <= i <= n
      ensures !(sep <= s[..n][i..])
    {
      var cut, whole := s[..n][i..], s[i..];
      assert cut <= whole;
      assert sep <= cut ==> sep <= whole;
    }
  }

  lemma {:induction false} WordsAreClean(s: string, sep: string)
    requires sep != ""
    ensures forall w | w in Words(s, sep) :: w != "" && !Occurs(sep, w)
    decreases |s|
  {
    if sep <= s {
      WordsAreClean(s[|sep|..], sep);
    } else if s != "" {
      WordIsClean(s, sep);
      WordsAreClean(s[WordLength(s, sep)..], sep);
    }
  }

  lemma WeaveOneMoreGap(words: seq<string>, gaps: seq<nat>, sep: string)
    requires |gaps| == |words| + 1
    ensures Weave(words, [gaps[0] + 1] + gaps[1..], sep) == sep + Weave(words, gaps, sep)
  {
    var more := [gaps[0] + 1] + gaps[1..];
    assert more[1..] == gaps[1..];
    var tail := if words == [] then "" else words[0] + Weave(words[1..], gaps[1..], sep);
    assert Repeat(sep, gaps[0] + 1) == sep + Repeat(sep, gaps[0]);
    assert (sep + Repeat(sep, gaps[0])) + tail == sep + (Repeat(sep, gaps[0]) + tail);
  }

  lemma WeaveOneMoreWord(w: string, words: seq<string>, gaps: seq<nat>, sep: string)
    requires |gaps| == |words| + 1
    ensures Weave([w] + words, [0] + gaps, sep) == w + Weave(words, gaps, sep)
  {
    assert ([0] + gaps)[1..] == gaps && ([w] + words)[1..] == words;
    assert Repeat(sep, 0) == "";
  }

  lemma RebuildPastSeparator(s: string, sep: string)
    requires sep != "" && sep <= s
    requires Weave(Words(s[|sep|..], sep), Gaps(s[|sep|..], sep), sep) == s[|sep|..]
    ensures Weave(Words(s, sep), Gaps(s, sep), sep) == s
  {
    WeaveOneMoreGap(Words(s[|sep|..], sep), Gaps(s[|sep|..], sep), sep);
    assert s == sep + s[|sep|..];
  }

  lemma OneWordOff(s: string, sep: string)
    requires sep != "" && s != "" && !(sep <= s)
    ensures var n := WordLength(s, sep);
            && n > 0
            && Words(s, sep) == [s[..n]] + Words(s[n..], sep)
            && Gaps(s, sep) == [0] + Gaps(s[n..], sep)
  {
  }

  lemma RebuildPastWord(s: string, sep: string)
    requires sep != "" && s != "" && !(sep <= s)
    requires var t := s[WordLength(s, sep)..]; Weave(Words(t, sep), Gaps(t, sep), sep) == t
    ensures Weave(Words(s, sep), Gaps(s, sep), sep) == s
  {
    hide Words; hide Gaps; hide Weave; hide WordLength;
    OneWordOff(s, sep);
    var n := WordLength(s, sep);
    WeaveOneMoreWord(s[..n], Words(s[n..], sep), Gaps(s[n..], sep), sep);
    assert s == s[..n] + s[n..];
  }

  /** The string is its words with whole separators around them. */
  lemma {:induction false} WordsAndGapsRebuild(s: string, sep: string)
    requires sep != ""
    ensures Weave(Words(s, sep), Gaps(s, sep), sep) == s
    decreases |s|
  {
    if sep <= s {
      WordsAndGapsRebuild(s[|sep|..], sep);
      RebuildPastSeparator(s, sep);
    } else if s != "" {
      WordsAndGapsRebuild(s[WordLength(s, sep)..], sep);
      RebuildPastWord(s, sep);
    }
  }

  /** At least one separator stands between neighbouring words. */
  lemma {:induction false} InnerGapsArePositive(s: string, sep: string)
    requires sep != ""
    ensures forall i | 0 < i < |Words(s, sep)| :: Gaps(s, sep)[i] >= 1
    ensures sep <= s <==> Gaps(s, sep)[0] >= 1
    decreases |s|
  {
    var gaps := Gaps(s, sep);
    if sep <= s {
      InnerGapsArePositive(s[|sep|..], sep);
    } else if s != "" {
      var n := WordLength(s, sep);
      WordLengthStops(s, sep);
      InnerGapsArePositive(s[n..], sep);
      var later := Gaps(s[n..], sep);
      assert gaps == [0] + later;
      assert forall i | 0 < i < |gaps| :: gaps[i] == later[i - 1];
    }
  }

  /** The words that still end in `s`: when reading has stopped inside a word, that one included. */
  function WordsLeft(s: string, sep: string, inWord: bool): nat
    requires sep != ""
  {
    if inWord then 1 + |Words(s[WordLength(s, sep)..], sep)| else |Words(s, sep)|
  }

  lemma WordsLeftBounds(s: string, sep: string, inWord: bool)
    requires sep != ""
    ensures !inWord ==> WordsLeft(s, sep, inWord) == |Words(s, sep)|
    ensures s == "" ==> WordsLeft(s, sep, inWord) == if inWord then 1 else 0
  {
  }

  lemma WordsLeftStep(s: string, sep: string, inWord: bool)
    requires sep != "" && s != ""
    ensures sep <= s ==> WordsLeft(s, sep, inWord)
                         == (if inWord then 1 else 0) + WordsLeft(s[|sep|..], sep, false)
    ensures !(sep <= s) ==> WordsLeft(s, sep, inWord) == WordsLeft(s[1..], sep, true)
  {
    if !(sep <= s) {
      var n := WordLength(s[1..], sep);
      assert WordLength(s, sep) == 1 + n;
      assert s[1..][n..] == s[1 + n..];
    }
  }

  /** Word `i` is followed by a separator when the gap behind it is not empty. */
  predicate IsFollowed(s: string, sep: string, i: nat)
    requires sep != "" && i < |Words(s, sep)|
  {
    Gaps(s, sep)[i + 1] >= 1
  }

  /** How many words are followed by a separator: all of them, or all but the last. */
  function FollowedCount(s: string, sep: string): nat
    requires sep != ""
  {
    var n := |Words(s, sep)|;
    if n == 0 then 0 else if IsFollowed(s, sep, n - 1) then n else n - 1
  }

  lemma FollowedCountIsExact(s: string, sep: string)
    requires sep != ""
    ensures FollowedCount(s, sep) <= |Words(s, sep)|
    ensures forall i: nat | i < |Words(s, sep)| :: i < FollowedCount(s, sep) <==> IsFollowed(s, sep, i)
  {
    InnerGapsArePositive(s, sep);
    var gaps := Gaps(s, sep);
    var n := |Words(s, sep)|;
    forall i: nat | i < n
      ensures i < FollowedCount(s, sep) <==> IsFollowed(s, sep, i)
    {
      assert i + 1 < n ==> gaps[i + 1] >= 1;
    }
  }

  lemma {:induction false} TrimStartKeepsGaps(s: string, sep: string)
    requires sep != ""
    ensures Words(TrimStart(s, sep), sep) == Words(s, sep)
    ensures TrimStart(TrimStart(s, sep), sep) == TrimStart(s, sep) && !(sep <= TrimStart(s, sep))
    ensures TrimStart(s, sep) == "" <==> Words(s, sep) == []
    ensures FollowedCount(TrimStart(s, sep), sep) == FollowedCount(s, sep)
    ensures Words(s, sep) == [] ==> FollowedCount(s, sep) == 0
  {
    if sep <= s {
      TrimStartKeepsGaps(s[|sep|..], sep);
    }
  }

  lemma RestIsDelimited(s: string, sep: string)
    requires sep != ""
    ensures var t := s[WordLength(s, sep)..]; Words(t, sep) != [] ==> sep <= t
  {
    WordLengthStops(s, sep);
  }

  lemma FollowedStep(before: string, after: string, sep: string)
    requires sep != "" && before != "" && TrimStart(before, sep) == before
    requires after == before[WordLength(before, sep)..]
    ensures FollowedCount(before, sep) == (if sep <= after then 1 else 0) + FollowedCount(after, sep)
    ensures Words(before, sep) == [before[..WordLength(before, sep)]] + Words(after, sep)
  {
    hide Words; hide Gaps; hide TrimStart; hide WordLength;
    TrimStartKeepsGaps(before, sep);
    OneWordOff(before, sep);
    RestIsDelimited(before, sep);
    InnerGapsArePositive(after, sep);
    assert Gaps(before, sep)[|Words(after, sep)| + 1] == Gaps(after, sep)[|Words(after, sep)|];
  }

  lemma NothingInEmpty(sep: string)
    requires sep != ""
    ensures TrimStart("", sep) == "" && Words("", sep) == [] && FollowedCount("", sep) == 0
  {
  }

  function Join(tokens: seq<string>, sep: string): string {
    if tokens == [] then "" else if |tokens| == 1 then tokens[0]
    else tokens[0] + sep + Join(tokens[1..], sep)
  }

  const SPACE := " "

  /** What splitting on spaces can yield. */
  predicate IsToken(w: string) {
    w != "" && ' ' !in w
  }

  predicate AreTokens(ws: seq<string>) {
    forall w | w in ws :: IsToken(w)
  }

  lemma {:induction false} FreeWordLength(w: string, c: char, rest: string)
    requires c !in w && (rest == "" || [c] <= rest)
    ensures WordLength(w + rest, [c]) == |w|
  {
    if w == "" {
      assert w + rest == rest;
    } else {
      assert (w + rest)[1..] == w[1..] + rest;
      FreeWordLength(w[1..], c, rest);
      assert (w + rest)[0] == w[0];
    }
  }

  /** A word and the separator behind it, for a separator of one character. */
  lemma TakeWord(w: string, c: char, rest: string)
    requires w != "" && c !in w && (rest == "" || [c] <= rest)
    ensures Words(w + rest, [c]) == [w] + Words(rest, [c])
    ensures FollowedCount(w + rest, [c]) == (if rest == "" then 0 else 1) + FollowedCount(rest, [c])
  {
    hide Words; hide Gaps; hide FollowedCount;
    var s := w + rest;
    FreeWordLength(w, c, rest);
    assert s[0] == w[0] && !([c] <= s);
    assert s[..|w|] == w && s[|w|..] == rest;
    FollowedStep(s, rest, [c]);
  }

  lemma SkipSeparator(c: char, rest: string)
    ensures Words([c] + rest, [c]) == Words(rest, [c])
    ensures FollowedCount([c] + rest, [c]) == FollowedCount(rest, [c])
  {
    hide Words; hide Gaps; hide FollowedCount;
    assert ([c] + rest)[1..] == rest;
    TrimStartKeepsGaps([c] + rest, [c]);
    TrimStartKeepsGaps(rest, [c]);
  }

  lemma TakeToken(w: string, rest: string)
    requires IsToken(w)
    ensures Words(w + SPACE + rest, SPACE) == [w] + Words(rest, SPACE)
    ensures Words(w, SPACE) == [w]
  {
    hide Words; hide FollowedCount;
    NothingInEmpty(SPACE);
    TakeWord(w, ' ', SPACE + rest);
    TakeWord(w, ' ', "");
    SkipSeparator(' ', rest);
    assert w + SPACE + rest == w + (SPACE + rest) && w + "" == w;
  }

  /** Re-tokenizing what was joined with spaces gives the same tokens back. */
  lemma SplitOfJoin(tokens: seq<string>)
    requires AreTokens(tokens)
    ensures Words(Join(tokens, SPACE), SPACE) == tokens
  {
    SplitOfPaddedJoin(tokens, "");
    assert Join(tokens, SPACE) + "" == Join(tokens, SPACE);
  }

  /** Also with a space at the end. */
  lemma {:induction false} SplitOfPaddedJoin(tokens: seq<string>, tail: string)
    requires AreTokens(tokens) && (tail == "" || tail == SPACE)
    ensures Words(Join(tokens, SPACE) + tail, SPACE) == tokens
  {
    hide Words; hide FollowedCount;
    NothingInEmpty(SPACE);
    if tokens == [] {
      assert Join(tokens, SPACE) + tail == tail;
      SkipSeparator(' ', "");
      assert SPACE + "" == SPACE;
    } else {
      var w := tokens[0];
      assert w in tokens && IsToken(w);
      if |tokens| == 1 {
        TakeWord(w, ' ', tail);
        SkipSeparator(' ', "");
        assert SPACE + "" == SPACE;
        assert Words(tail, SPACE) == [];
      } else {
        var after := Join(tokens[1..], SPACE) + tail;
        assert Join(tokens, SPACE) + tail == w + (SPACE + after);
        forall v | v in tokens[1..] ensures v in tokens {}
        SplitOfPaddedJoin(tokens[1..], tail);
        TakeWord(w, ' ', SPACE + after);
        SkipSeparator(' ', after);
      }
    }
  }

  lemma SpaceWordsAreTokens(s: string)
    ensures AreTokens(Words(s, SPACE))
  {
    WordsAreClean(s, SPACE);
    forall w | w in Words(s, SPACE)
      ensures IsToken(w)
    {
      assert forall i | 0 <= i < |w| && w[i] == ' ' :: SPACE <= w[i..];
    }
  }
}
