/** The tokenizer of src/string_utils.c: a cursor moving over a string, the one-pass word
    count, the two splitters, and the trimming helpers. */
module StringUtils {
  import opened Options
  import opened Splitting

  class StringIterator {
    var text: string       // the unread suffix
    const separator: Separator
    var index: nat         // words handed out so far

    constructor (text: string, separator: Separator)
      ensures this.text == text && this.separator == separator && index == 0
    {
      this.text := text;
      this.separator := separator;
      this.index := 0;
    }

    method SkipSeparators()
      modifies this`text
      ensures text == TrimStart(old(text), separator)
    {
      while separator <= text
        invariant TrimStart(text, separator) == TrimStart(old(text), separator)
        decreases |text|
      {
        text := text[|separator|..];
      }
    }

    method HasNextWord() returns (more: bool)
      modifies this`text
      ensures text == TrimStart(old(text), separator)
      ensures more == (text != "")
      ensures more == (Words(old(text), separator) != [])
      ensures Words(text, separator) == Words(old(text), separator)
    {
      TrimStartKeepsWords(text, separator);
      SkipSeparators();
      more := |text| > 0;
    }

    /** Hands out the first word, leaving the cursor on the separator behind it; at the end of
        the text there is no word and the empty string comes back. */
    method NextWord() returns (word: string)
      modifies this
      ensures Words(old(text), separator) == [] ==> word == "" && text == "" && index == old(index)
      ensures Words(old(text), separator) != [] ==>
                && Words(old(text), separator) == [word] + Words(text, separator)
                && index == old(index) + 1
                && text == var t := TrimStart(old(text), separator); t[WordLength(t, separator)..]
    {
      hide Words; hide TrimStart; hide FollowedCount;
      TrimStartKeepsGaps(text, separator);
      SkipSeparators();
      ghost var trimmed := text;
      TrimStartKeepsGaps(trimmed, separator);
      var more := HasNextWord();
      if !more {
        return "";
      }
      OneWordOff(trimmed, separator);
      var size: nat := 0;
      while size < |text| && !(separator <= text[size..])
        invariant size <= |text|
        invariant WordLength(text, separator) == size + WordLength(text[size..], separator)
      {
        assert text[size..][1..] == text[size + 1..];
        size := size + 1;
      }
      word := text[..size];
      text := text[size..];
      index := index + 1;
    }

    /** The count is made in one pass with a flag for "inside a word", and agrees with the
        words that `NextWord` will hand out. */
    method GetNumberOfWordsLeft() returns (total: nat)
      ensures total == |Words(text, separator)|
    {
      hide WordsLeft; hide Words; hide WordLength;
      var inWord, totalWords: nat := false, 0;
      var i: nat := 0;
      assert text[i..] == text;
      WordsLeftBounds(text, separator, inWord);
      while i < |text|
        invariant i <= |text|
        invariant totalWords + WordsLeft(text[i..], separator, inWord) == |Words(text, separator)|
      {
        var isDelimiter := separator <= text[i..];
        WordsLeftStep(text[i..], separator, inWord);
        assert text[i..][1..] == text[i + 1..];
        if inWord {
          if isDelimiter {
            inWord, totalWords := false, totalWords + 1;
            assert text[i..][|separator|..] == text[i + |separator|..];
            i := i + (|separator| - 1);
          }
        } else {
          if !isDelimiter {
            inWord := true;
          } else {
            assert text[i..][|separator|..] == text[i + |separator|..];
            i := i + (|separator| - 1);
          }
        }
        i := i + 1;
      }
      WordsLeftBounds(text[i..], separator, inWord);
      total := totalWords + if inWord then 1 else 0;
    }
  }

  /** The array is sized by the one-pass count and filled by the iterator: the two agree, so
      every write is in range and every slot is filled. */
  method SplitString(s: string, delimiter: string) returns (tokens: array?<string>, size: nat)
    requires delimiter != ""
    ensures size == |Words(s, delimiter)|
    ensures tokens == null <==> size == 0
    ensures tokens != null ==> fresh(tokens) && tokens[..] == Words(s, delimiter)
  {
    var last;
    tokens, size, last := SplitStringKeepTrace(s, delimiter);
  }

  lemma TakeOne<T>(all: seq<T>, i: nat, first: T, rest: seq<T>)
    requires i < |all| && all[i..] == [first] + rest
    ensures first == all[i] && rest == all[i + 1..] && all[..i + 1] == all[..i] + [first]
  {
    assert all[i..][0] == all[i] && all[i..][1..] == all[i + 1..];
  }

  /** Also reports how many words had a delimiter right behind them: `last` is the index of the
      final such word, or -1. */
  method SplitStringKeepTrace(s: string, delimiter: string) returns (tokens: array?<string>, size: nat, last: int)
    requires delimiter != ""
    ensures size == |Words(s, delimiter)|
    ensures tokens == null <==> size == 0
    ensures tokens != null ==> fresh(tokens) && tokens[..] == Words(s, delimiter)
    ensures last == FollowedCount(s, delimiter) - 1
  {
    hide Words; hide FollowedCount; hide WordLength; hide TrimStart;
    NothingInEmpty(delimiter);
    var words := new StringIterator(s, delimiter);
    size := words.GetNumberOfWordsLeft();
    last := -1;
    TrimStartKeepsGaps(s, delimiter);
    if size == 0 {
      return null, 0, -1;
    }
    var slots := new string[size];
    ghost var all := Words(s, delimiter);
    var more := words.HasNextWord();
    while more
      invariant fresh(words) && words.separator == delimiter
      invariant words.index <= size && more == (words.text != "")
      invariant TrimStart(words.text, delimiter) == words.text
      invariant forall k | 0 <= k < words.index :: slots[k] == all[k]
      invariant Words(words.text, delimiter) == all[words.index..]
      invariant last + 1 + FollowedCount(words.text, delimiter) == FollowedCount(s, delimiter)
      decreases size - words.index
    {
      ghost var before := words.text;
      var i := words.index;
      TrimStartKeepsGaps(before, delimiter);
      var word := words.NextWord();
      FollowedStep(before, words.text, delimiter);
      TakeOne(all, i, word, Words(words.text, delimiter));
      slots[i] := word;
      last := last + if delimiter <= words.text then 1 else 0;
      TrimStartKeepsGaps(words.text, delimiter);
      more := words.HasNextWord();
    }
    TrimStartKeepsGaps(words.text, delimiter);
    assert words.index == size;
    tokens := slots;
  }

  method JoinStrings(tokens: seq<string>, sep: string) returns (joined: string)
    ensures joined == Join(tokens, sep)
  {
    joined := "";
    var i: nat := 0;
    while i < |tokens|
      invariant i <= |tokens|
      invariant Join(tokens, sep) == joined + if i == |tokens| then "" else Join(tokens[i..], sep)
    {
      joined := joined + tokens[i];
      if i != |tokens| - 1 {
        joined := joined + sep;
        assert tokens[i..][1..] == tokens[i + 1..];
      }
      i := i + 1;
    }
  }

  method IsOnlyComposedOf(s: string, pattern: string) returns (only: bool)
    requires pattern != ""
    ensures only <==> Words(s, pattern) == []
  {
    var i: nat := 0;
    while i < |s|
      invariant i <= |s|
      invariant Words(s[i..], pattern) == Words(s, pattern)
    {
      if !(pattern <= s[i..]) {
        return false;
      }
      assert s[i..][|pattern|..] == s[i + |pattern|..];
      i := i + |pattern|;
    }
    only := true;
  }

  /** `t` is `s` without its leading and trailing spaces. */
  ghost predicate IsTrimmed(s: string, t: string) {
    && t != "" && t[0] != ' ' && t[|t| - 1] != ' '
    && exists front: nat, back: nat :: s == Repeat(SPACE, front) + t + Repeat(SPACE, back)
  }

  predicate OnlySpaces(s: string) {
    forall i | 0 <= i < |s| :: s[i] == ' '
  }

  /** The backward scan has no lower bound of its own.  The answer is None exactly when it
      would run past the start of the buffer: on a non-empty string of spaces. */
  method TrimSpaces(s: string) returns (t: Option<string>)
    ensures t.None? <==> s != "" && OnlySpaces(s)
    ensures s == "" ==> t == Some("")
    ensures t.Some? && s != "" ==> IsTrimmed(s, t.value)
  {
    if |s| == 0 {
      return Some("");
    }
    var front: nat := 0;
    while front < |s| && s[front] == ' '
      invariant front <= |s| && OnlySpaces(s[..front])
    {
      front := front + 1;
    }
    var back: nat := 0;
    while back < |s| && s[|s| - 1 - back] == ' '
      invariant back <= |s| && OnlySpaces(s[|s| - back..])
    {
      assert s[|s| - (back + 1)..] == SPACE + s[|s| - back..];
      back := back + 1;
    }
    if back == |s| {
      assert s[|s| - back..] == s;
      return None;
    }
    assert s[|s| - 1 - back] != ' ';
    assert forall k | 0 <= k < front :: s[..front][k] == s[k];
    assert front <= |s| - 1 - back;
    var trimmed := s[front..|s| - back];
    SpacesAreRepeated(s[..front]);
    SpacesAreRepeated(s[|s| - back..]);
    assert s == Repeat(SPACE, front) + trimmed + Repeat(SPACE, back);
    if front == 0 && back == 0 {
      return Some(s);
    }
    t := Some(trimmed);
  }

  lemma {:induction false} SpacesAreRepeated(s: string)
    ensures OnlySpaces(s) <==> s == Repeat(SPACE, |s|)
  {
    if s != "" {
      SpacesAreRepeated(s[1..]);
      assert s == [s[0]] + s[1..];
    }
  }

  lemma RepeatSpace(n: nat)
    ensures |Repeat(SPACE, n)| == n && OnlySpaces(Repeat(SPACE, n))
  {
    if n > 0 {
      RepeatSpace(n - 1);
    }
  }

  lemma TrimmedBounds(s: string, front: nat, t: string, back: nat)
    requires t != "" && s == Repeat(SPACE, front) + t + Repeat(SPACE, back)
    ensures front + |t| + back == |s| && t == s[front..|s| - back]
    ensures forall k | 0 <= k < front || |s| - back <= k < |s| :: s[k] == ' '
    ensures s[front] == t[0] && s[|s| - 1 - back] == t[|t| - 1]
  {
    RepeatSpace(front);
    RepeatSpace(back);
    assert forall k | 0 <= k < front :: s[k] == Repeat(SPACE, front)[k];
    assert forall k | |s| - back <= k < |s| :: s[k] == Repeat(SPACE, back)[k - (|s| - back)];
  }

  /** There is only one way to trim a string. */
  lemma TrimmedIsUnique(s: string, t: string, u: string)
    requires IsTrimmed(s, t) && IsTrimmed(s, u)
    ensures t == u
  {
    var f: nat, b: nat :| s == Repeat(SPACE, f) + t + Repeat(SPACE, b);
    var g: nat, c: nat :| s == Repeat(SPACE, g) + u + Repeat(SPACE, c);
    TrimmedBounds(s, f, t, b);
    TrimmedBounds(s, g, u, c);
    assert f == g && b == c;
  }

  /** A string whose splitting on spaces yields a word is safe to trim. */
  lemma SplittableIsTrimmable(s: string)
    ensures Words(s, SPACE) != [] <==> !OnlySpaces(s)
  {
    if s != "" {
      if s[0] == ' ' {
        SplittableIsTrimmable(s[1..]);
        assert s == [s[0]] + s[1..];
      } else {
        assert !(SPACE <= s);
      }
    }
  }
}
