/** The command language: symbols, syntax trees, and the tokens a tree prints to.

      pipeline := call ('|' call)*
      call     := WORD (WORD | redir WORD | '<(' pipeline ')')*

    A pipeline is held as its first stage followed by the rest of the line, which is the order
    in which the parser meets the tokens. */
module Syntax {
  import opened Options

  const SUBSTITUTION_START := "<("
  const SUBSTITUTION_END := ")"
  const PIPE_SYMBOL := "|"

  datatype Stream = Stdin | Stdout | Stderr

  predicate IsRedirection(w: string) {
    w == "<" || w == ">" || w == ">|" || w == ">>" || w == "2>" || w == "2>|" || w == "2>>"
  }

  predicate IsSymbol(w: string) {
    IsRedirection(w) || w == SUBSTITUTION_START || w == SUBSTITUTION_END || w == PIPE_SYMBOL
  }

  function StreamOf(op: string): Stream
    requires IsRedirection(op)
  {
    if op == "<" then Stdin
    else if op == ">" || op == ">|" || op == ">>" then Stdout
    else Stderr
  }

  datatype Pipeline = Stage(name: string, rest: Rest)

  datatype Rest =
    | Done
    | Arg(word: string, rest: Rest)
    | Redirect(op: string, file: string, rest: Rest)
    | Substitute(body: Pipeline, rest: Rest)
    | PipeTo(next: Pipeline)

  /** Names, arguments and files are not symbols; redirection operators are. */
  predicate WellFormed(p: Pipeline)
  {
    !IsSymbol(p.name) && WellFormedRest(p.rest)
  }

  predicate WellFormedRest(r: Rest)
  {
    match r
    case Done => true
    case Arg(w, r) => !IsSymbol(w) && WellFormedRest(r)
    case Redirect(op, file, r) => IsRedirection(op) && !IsSymbol(file) && WellFormedRest(r)
    case Substitute(body, r) => WellFormed(body) && WellFormedRest(r)
    case PipeTo(next) => WellFormed(next)
  }

  function Print(p: Pipeline): (t: seq<string>)
    ensures t != []
  {
    [p.name] + PrintRest(p.rest)
  }

  function PrintRest(r: Rest): seq<string>
  {
    match r
    case Done => []
    case Arg(w, r) => [w] + PrintRest(r)
    case Redirect(op, file, r) => [op, file] + PrintRest(r)
    case Substitute(body, r) => [SUBSTITUTION_START] + Print(body) + [SUBSTITUTION_END] + PrintRest(r)
    case PipeTo(next) => [PIPE_SYMBOL] + Print(next)
  }

  function NextDepth(w: string, depth: nat): nat
    requires !(w == SUBSTITUTION_END && depth == 0)
  {
    if w == SUBSTITUTION_START then depth + 1 else if w == SUBSTITUTION_END then depth - 1 else depth
  }

  /** The index of the first closing symbol that no opening symbol of `t` matches. */
  function ClosingIndex(t: seq<string>, depth: nat): (i: Option<nat>)
    ensures i.Some? ==> i.value < |t| && t[i.value] == SUBSTITUTION_END
  {
    if t == [] then None
    else if t[0] == SUBSTITUTION_END && depth == 0 then Some(0)
    else
      match ClosingIndex(t[1..], NextDepth(t[0], depth))
      case None => None
      case Some(i) => Some(i + 1)
  }

  /** The tree that a sequence of tokens derives from, if any. */
  function Parse(t: seq<string>): Option<Pipeline>
    decreases |t|
  {
    if t == [] || IsSymbol(t[0]) then None
    else
      match ParseRest(t[1..])
      case None => None
      case Some(r) => Some(Stage(t[0], r))
  }

  function ParseRest(t: seq<string>): Option<Rest>
    decreases |t|
  {
    if t == [] then Some(Done)
    else if !IsSymbol(t[0]) then
      match ParseRest(t[1..])
      case None => None
      case Some(r) => Some(Arg(t[0], r))
    else if |t| == 1 || IsSymbol(t[1]) then None
    else if t[0] == SUBSTITUTION_START then
      match ClosingIndex(t[1..], 0)
      case None => None
      case Some(i) =>
        match Parse(t[1..][..i])
        case None => None
        case Some(body) =>
          match ParseRest(t[1..][i + 1..])
          case None => None
          case Some(r) => Some(Substitute(body, r))
    else if t[0] == PIPE_SYMBOL then
      match Parse(t[1..])
      case None => None
      case Some(next) => Some(PipeTo(next))
    else if IsRedirection(t[0]) then
      match ParseRest(t[2..])
      case None => None
      case Some(r) => Some(Redirect(t[0], t[1], r))
    else None
  }

  lemma {:induction false} ParseIsSound(t: seq<string>)
    ensures Parse(t).Some? ==> WellFormed(Parse(t).value) && Print(Parse(t).value) == t
    decreases |t|
  {
    if Parse(t).Some? {
      ParseRestIsSound(t[1..]);
      assert t == [t[0]] + t[1..];
    }
  }

  lemma {:induction false} ParseRestIsSound(t: seq<string>)
    ensures ParseRest(t).Some? ==> WellFormedRest(ParseRest(t).value) && PrintRest(ParseRest(t).value) == t
    decreases |t|
  {
    if ParseRest(t).Some? && t != [] {
      if !IsSymbol(t[0]) {
        ParseRestIsSound(t[1..]);
        assert t == [t[0]] + t[1..];
      } else if t[0] == SUBSTITUTION_START {
        var i := ClosingIndex(t[1..], 0).value;
        SplitAtClosing(t, i);
        ParseIsSound(t[1..][..i]);
        ParseRestIsSound(t[1..][i + 1..]);
      } else if t[0] == PIPE_SYMBOL {
        ParseIsSound(t[1..]);
        assert t == [t[0]] + t[1..];
      } else {
        ParseRestIsSound(t[2..]);
        assert t == [t[0], t[1]] + t[2..];
      }
    }
  }

  lemma SplitAtClosing(t: seq<string>, i: nat)
    requires |t| > 1 && i < |t[1..]|
    ensures t == [t[0]] + t[1..][..i] + [t[1..][i]] + t[1..][i + 1..]
  {
  }

  function Shift(i: Option<nat>, n: nat): Option<nat> {
    match i
    case None => None
    case Some(k) => Some(k + n)
  }

  /** Scanning past `t` leaves the nesting depth as it was and meets no unmatched closing symbol. */
  ghost predicate Balanced(t: seq<string>) {
    forall after: seq<string>, depth: nat ::
      ClosingIndex(t + after, depth) == Shift(ClosingIndex(after, depth), |t|)
  }

  lemma ClosingStep(w: string, after: seq<string>, depth: nat)
    requires !(w == SUBSTITUTION_END && depth == 0)
    ensures ClosingIndex([w] + after, depth) == Shift(ClosingIndex(after, NextDepth(w, depth)), 1)
  {
    assert ([w] + after)[1..] == after;
  }

  lemma BalancedToken(w: string)
    requires w != SUBSTITUTION_START && w != SUBSTITUTION_END
    ensures Balanced([w])
  {
    forall after: seq<string>, depth: nat
      ensures ClosingIndex([w] + after, depth) == Shift(ClosingIndex(after, depth), 1)
    {
      ClosingStep(w, after, depth);
    }
  }

  lemma ConcatCloses(t: seq<string>, u: seq<string>, after: seq<string>, depth: nat)
    requires ClosingIndex(t + (u + after), depth) == Shift(ClosingIndex(u + after, depth), |t|)
    requires ClosingIndex(u + after, depth) == Shift(ClosingIndex(after, depth), |u|)
    ensures ClosingIndex(t + u + after, depth) == Shift(ClosingIndex(after, depth), |t + u|)
  {
    hide ClosingIndex;
    assert t + u + after == t + (u + after);
  }

  lemma BalancedConcat(t: seq<string>, u: seq<string>)
    requires Balanced(t) && Balanced(u)
    ensures Balanced(t + u)
  {
    hide ClosingIndex;
    forall after: seq<string>, depth: nat
      ensures ClosingIndex(t + u + after, depth) == Shift(ClosingIndex(after, depth), |t + u|)
    {
      ConcatCloses(t, u, after, depth);
    }
  }

  lemma BracketsClose(t: seq<string>, after: seq<string>, depth: nat)
    requires var closed := [SUBSTITUTION_END] + after;
             ClosingIndex(t + closed, depth + 1) == Shift(ClosingIndex(closed, depth + 1), |t|)
    ensures ClosingIndex([SUBSTITUTION_START] + t + [SUBSTITUTION_END] + after, depth)
         == Shift(ClosingIndex(after, depth), |t| + 2)
  {
    hide ClosingIndex;
    var closed := [SUBSTITUTION_END] + after;
    ClosingStep(SUBSTITUTION_START, t + closed, depth);
    ClosingStep(SUBSTITUTION_END, after, depth + 1);
    assert [SUBSTITUTION_START] + t + [SUBSTITUTION_END] + after == [SUBSTITUTION_START] + (t + closed);
  }

  lemma BalancedBrackets(t: seq<string>)
    requires Balanced(t)
    ensures Balanced([SUBSTITUTION_START] + t + [SUBSTITUTION_END])
  {
    forall after: seq<string>, depth: nat
      ensures ClosingIndex([SUBSTITUTION_START] + t + [SUBSTITUTION_END] + after, depth)
           == Shift(ClosingIndex(after, depth), |t| + 2)
    {
      BracketsClose(t, after, depth);
    }
  }

  lemma {:induction false} PrintIsBalanced(p: Pipeline)
    requires WellFormed(p)
    ensures Balanced(Print(p))
    decreases p
  {
    BalancedToken(p.name);
    PrintRestIsBalanced(p.rest);
    BalancedConcat([p.name], PrintRest(p.rest));
  }

  lemma {:induction false} PrintRestIsBalanced(r: Rest)
    requires WellFormedRest(r)
    ensures Balanced(PrintRest(r))
    decreases r
  {
    match r
    case Done =>
      assert forall after: seq<string> :: [] + after == after;
    case Arg(w, q) =>
      BalancedToken(w);
      PrintRestIsBalanced(q);
      BalancedConcat([w], PrintRest(q));
    case Redirect(op, file, q) =>
      BalancedToken(op);
      BalancedToken(file);
      BalancedConcat([op], [file]);
      PrintRestIsBalanced(q);
      BalancedConcat([op] + [file], PrintRest(q));
      assert [op] + [file] == [op, file];
    case Substitute(body, q) =>
      PrintIsBalanced(body);
      BalancedBrackets(Print(body));
      PrintRestIsBalanced(q);
      BalancedConcat([SUBSTITUTION_START] + Print(body) + [SUBSTITUTION_END], PrintRest(q));
    case PipeTo(next) =>
      BalancedToken(PIPE_SYMBOL);
      PrintIsBalanced(next);
      BalancedConcat([PIPE_SYMBOL], Print(next));
  }

  /** The closing symbol chosen is the one that encloses a whole pipeline. */
  lemma ClosingFindsBody(body: Pipeline, after: seq<string>)
    requires WellFormed(body)
    ensures ClosingIndex(Print(body) + [SUBSTITUTION_END] + after, 0) == Some(|Print(body)|)
  {
    PrintIsBalanced(body);
    assert Print(body) + [SUBSTITUTION_END] + after == Print(body) + ([SUBSTITUTION_END] + after);
  }

  lemma {:induction false} ParseIsComplete(p: Pipeline)
    requires WellFormed(p)
    ensures Parse(Print(p)) == Some(p)
    decreases p
  {
    assert Print(p)[1..] == PrintRest(p.rest);
    ParseRestIsComplete(p.rest);
  }

  lemma {:induction false} ParseRestIsComplete(r: Rest)
    requires WellFormedRest(r)
    ensures ParseRest(PrintRest(r)) == Some(r)
    decreases r
  {
    var t := PrintRest(r);
    match r
    case Done =>
    case Arg(w, q) =>
      assert t[1..] == PrintRest(q);
      ParseRestIsComplete(q);
    case Redirect(op, file, q) =>
      assert t[2..] == PrintRest(q);
      ParseRestIsComplete(q);
    case Substitute(body, q) =>
      var u := t[1..];
      assert u == Print(body) + [SUBSTITUTION_END] + PrintRest(q);
      ClosingFindsBody(body, PrintRest(q));
      assert u[..|Print(body)|] == Print(body) && u[|Print(body)| + 1..] == PrintRest(q);
      assert t[1] == body.name;
      ParseIsComplete(body);
      ParseRestIsComplete(q);
    case PipeTo(next) =>
      assert t[1..] == Print(next) && t[1] == next.name;
      ParseIsComplete(next);
  }

  /** Tokens derive from at most one tree, and `Parse` finds it. */
  lemma ParseIsExact(t: seq<string>, p: Pipeline)
    ensures Parse(t) == Some(p) <==> WellFormed(p) && Print(p) == t
  {
    ParseIsSound(t);
    if WellFormed(p) {
      ParseIsComplete(p);
    }
  }
}
