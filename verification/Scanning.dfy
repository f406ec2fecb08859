/** The parser in the middle of a line: what the token array, the builder and the state still have
    to decide is what the whole line decides. */
module Scanning {
  import opened Options
  import opened Descriptors
  import opened Syntax
  import opened Commands
  import opened Salvage
  import opened Verdict
  import opened Residue
  import opened CommandObjects

  const NO_CALL := -1

  /** The question asked of one call of the parser. */
  datatype Question = Question(oracle: Oracle, words: seq<string>, inside: bool, piped: bool, start: State, stale: bool)
  {
    function Answer(): Option<Decision> {
      Decide(oracle, words, inside, piped, start, stale)
    }

    function AnswerFrom(index: nat, b: Builder, now: State, stale: bool): Option<Decision>
      requires index <= |words|
    {
      DecideRest(oracle, words[index..], b, inside, piped, now, stale)
    }

    /** The substitution global is set when the call returns. */
    ghost predicate Left() {
      LeftSet(oracle, words, inside, piped, start.table.opens, stale)
    }

    ghost predicate LeftAfter(index: nat, b: Builder, now: State, stale: bool)
      requires index <= |words|
    {
      LeftFrom(oracle, words[index..], b, inside, piped, now, stale)
    }
  }

  ghost predicate Aligned(q: Question, index: nat, toks: seq<Option<Word>>, b: Builder, now: State, stale: bool) {
    && 0 < index <= |q.words| && Untouched(toks, q.words, index)
    && b.argv == Present(toks[..index])
    && Progress(q.start, b, now)
    && q.Answer() == q.AnswerFrom(index, b, now, stale)
    && (q.Left() <==> q.LeftAfter(index, b, now, stale))
  }

  /** The line is refused, and giving up the builder's descriptors leaves nothing unaccounted for. */
  ghost predicate Refuses(q: Question, b: Builder, left: State, extra: int) {
    q.Answer() == None && Salvageable(q.start, WithoutFds(b, left), extra)
  }

  lemma RefusesSameFds(q: Question, b: Builder, c: Builder, left: State, extra: int)
    requires Refuses(q, b, left, extra)
    requires b.stdin == c.stdin && b.stdout == c.stdout && b.stderr == c.stderr
    ensures Refuses(q, c, left, extra)
  {
    hide Salvageable;
  }

  lemma AlignedTokens(q: Question, index: nat, toks: seq<Option<Word>>, b: Builder, now: State, stale: bool)
    requires Aligned(q, index, toks, b, now, stale)
    ensures Untouched(toks, q.words, index) && 0 < index && b.argv == Present(toks[..index])
  {
  }

  lemma GiveUp(q: Question, b: Builder, now: State)
    requires Progress(q.start, b, now) && q.Answer() == None
    ensures Refuses(q, b, now, NO_CALL)
  {
    hide Progress; hide Salvageable; hide Decide;
    SalvageNothing(now);
    AbandonStage(q.start, b, now, now, NO_CALL);
  }

  lemma AlignName(q: Question, toks: seq<Option<Word>>)
    requires q.words != [] && Untouched(toks, q.words, 0)
    ensures IsSymbol(q.words[0]) ==> q.Answer() == None && (q.Left() <==> q.stale)
    ensures !IsSymbol(q.words[0]) ==> Aligned(q, 1, toks, NewBuilder(q.words[0]), q.start, q.stale)
  {
    hide Progress; hide Decide; hide DecideRest; hide IsSymbol; hide Present; hide LeftSetRest;
    DecideName(q.oracle, q.words, q.inside, q.piped, q.start, q.stale);
    ProgressStart(q.start, q.words[0]);
    PresentSnoc([], toks[0]);
    NonePresent();
    assert toks[..1] == [] + [toks[0]];
  }

  lemma NonePresent()
    ensures Present([]) == []
  {
  }

  lemma AlignArg(q: Question, index: nat, toks: seq<Option<Word>>, b: Builder, now: State, stale: bool)
    requires Aligned(q, index, toks, b, now, stale)
    requires index < |q.words| && !IsSymbol(q.words[index])
    ensures Aligned(q, index + 1, toks, b.(argv := b.argv + [Text(q.words[index])]), now, stale)
  {
    hide Progress; hide Decide; hide DecideRest; hide IsSymbol; hide Present; hide LeftSet; hide LeftFrom;
    var t := q.words[index..];
    DecideArg(q.oracle, t, b, q.inside, q.piped, now, stale);
    LeftArg(q.oracle, t, b, q.inside, q.piped, now, stale);
    assert t[1..] == q.words[index + 1..];
    ProgressSameFds(q.start, b, b.(argv := b.argv + [Text(q.words[index])]), now);
    PresentSnoc(toks[..index], toks[index]);
    assert toks[..index + 1] == toks[..index] + [toks[index]];
  }

  lemma AlignMalformed(q: Question, index: nat, toks: seq<Option<Word>>, b: Builder, now: State, stale: bool)
    requires Aligned(q, index, toks, b, now, stale)
    requires index < |q.words| && IsSymbol(q.words[index])
    requires index == |q.words| - 1 || IsSymbol(q.words[index + 1]) || q.words[index] == SUBSTITUTION_END
    ensures Refuses(q, b, now, NO_CALL) && (q.Left() <==> stale)
  {
    hide Progress; hide Decide; hide DecideRest; hide IsSymbol; hide Present; hide Refuses; hide LeftSet; hide LeftFrom;
    LeftMalformed(q.oracle, q.words[index..], b, q.inside, q.piped, now, stale);
    DecideMalformed(q.oracle, q.words[index..], b, q.inside, q.piped, now, stale);
    GiveUp(q, b, now);
  }

  lemma AlignRedirect(q: Question, index: nat, toks: seq<Option<Word>>, b: Builder, now: State, stale: bool,
                      later: seq<Option<Word>>)
    requires Aligned(q, index, toks, b, now, stale)
    requires index + 1 < |q.words| && IsRedirection(q.words[index]) && !IsSymbol(q.words[index + 1])
    requires later == toks[index := None][index + 1 := None]
    ensures !q.oracle.grants(now.table.opens) ==>
              var opening := Opening(q.words[index + 1], ModeOf(q.words[index]));
              Refuses(q, b, now.(table := Refused(now.table, opening)), NO_CALL) && (q.Left() <==> stale)
    ensures q.oracle.grants(now.table.opens) ==>
              Aligned(q, index + 2, later, WithFd(b, StreamOf(q.words[index]), Fresh(q.oracle, now.table)),
                      now.(table := Reopened(q.oracle, now.table, b, q.words[index], q.words[index + 1])), stale)
  {
    hide Progress; hide Decide; hide DecideRest; hide IsSymbol; hide Present; hide CloseIfOpened; hide Fresh;
    hide Salvageable; hide LeftSet; hide LeftFrom;
    DecideRedirect(q.oracle, q.words[index..], b, q.inside, q.piped, now, stale);
    LeftRedirect(q.oracle, q.words[index..], b, q.inside, q.piped, now, stale);
    assert q.words[index..][2..] == q.words[index + 2..];
    if q.oracle.grants(now.table.opens) {
      ProgressRedirect(q.oracle, q.start, b, now, q.words[index], q.words[index + 1]);
      PresentOfNulls(toks[..index], [None, None]);
      assert later[..index + 2] == toks[..index] + [None, None];
    } else {
      var opening := Opening(q.words[index + 1], ModeOf(q.words[index]));
      SalvageRefused(now, opening);
      AbandonStage(q.start, b, now, now.(table := Refused(now.table, opening)), NO_CALL);
    }
  }

  lemma AlignNoSubstitution(q: Question, index: nat, toks: seq<Option<Word>>, b: Builder, now: State, stale: bool,
                            left: State)
    requires Aligned(q, index, toks, b, now, stale)
    requires index + 1 < |q.words| && q.words[index] == SUBSTITUTION_START && !IsSymbol(q.words[index + 1])
    requires RunBody(q.oracle, q.words[index..], now) == None && Salvageable(now, left, NO_CALL)
    ensures Refuses(q, b, left, NO_CALL) && (q.Left() <==> LeftSetByBody(q.oracle, q.words[index..], now.table.opens))
  {
    hide Progress; hide Decide; hide DecideRest; hide IsSymbol; hide Present; hide RunBody; hide Salvageable;
    hide LeftSet; hide LeftFrom; hide LeftSetByBody;
    DecideSubstitute(q.oracle, q.words[index..], b, q.inside, q.piped, now, stale);
    LeftSubstitute(q.oracle, q.words[index..], b, q.inside, q.piped, now, stale);
    AbandonStage(q.start, b, now, left, NO_CALL);
  }

  lemma AlignSubstitution(q: Question, index: nat, toks: seq<Option<Word>>, b: Builder, now: State, stale: bool,
                          later: seq<Option<Word>>, end: nat)
    requires Aligned(q, index, toks, b, now, stale)
    requires index + 1 < |q.words| && q.words[index] == SUBSTITUTION_START && !IsSymbol(q.words[index + 1])
    requires RunBody(q.oracle, q.words[index..], now).Some?
    requires index < end < |q.words| && ClosingIndex(q.words[index + 1..], 0) == Some(end - (index + 1))
    requires |later| == |toks| && later[end] == Some(DevFd(NewPipe(q.oracle, now.table).readEnd))
    requires forall j | 0 <= j < |toks| :: later[j] == if index <= j < end then None
                                                       else if j == end then later[end] else toks[j]
    ensures var pipe := NewPipe(q.oracle, now.table);
            Aligned(q, end + 1, later, AfterBody(b, pipe, |now.pipes|),
                    WithBody(RunBody(q.oracle, q.words[index..], now).value, pipe, |now.pipes|), false)
  {
    hide Progress; hide Decide; hide DecideRest; hide IsSymbol; hide Present; hide RunPipeline; hide NewPipe;
    hide ClosingIndex; hide Parse; hide WithBody; hide LeftSet; hide LeftFrom; hide LeftSetByBody;
    var t := q.words[index..];
    DecideSubstitute(q.oracle, t, b, q.inside, q.piped, now, stale);
    LeftSubstitute(q.oracle, t, b, q.inside, q.piped, now, stale);
    assert t[1..] == q.words[index + 1..];
    assert t[1..][end - (index + 1) + 1..] == q.words[end + 1..];
    ProgressBody(q.oracle, q.start, b, now, Body(t).value);
    var nulls := later[index..end];
    PresentOfNulls(toks[..index], nulls);
    assert later[..index] == toks[..index];
    assert later[..end] == toks[..index] + nulls;
    PresentSnoc(later[..end], later[end]);
    assert later[..end + 1] == later[..end] + [later[end]];
  }

  /** The end of a stage, with everything to its right parsed: the rest is two checks. */
  ghost predicate Concluded(q: Question, b: Builder, now: State, last: nat, linked: bool, stale: bool, extra: int) {
    && q.Answer() ==
         (if q.piped && (b.stdin != UNINITIALIZED_FD || (linked && !q.inside && stale)) then None
          else Some(Decision(Parsed(Finish(b, now), last), stale)))
    && Salvageable(q.start, WithoutFds(b, now), extra)
  }

  lemma AlignEnd(q: Question, toks: seq<Option<Word>>, b: Builder, now: State, stale: bool)
    requires Aligned(q, |q.words|, toks, b, now, stale)
    ensures Concluded(q, b, now, |now.store|, false, stale, NO_CALL)
    ensures q.Left() <==> stale || (q.inside && !(q.piped && b.stdin != UNINITIALIZED_FD))
  {
    hide Progress; hide Decide; hide DecideRest; hide IsSymbol; hide Present; hide Salvageable; hide Finish;
    hide LeftSet; hide LeftFrom;
    DecideEnd(q.oracle, b, q.inside, q.piped, now, stale);
    LeftEnd(q.oracle, b, q.inside, q.piped, now, stale);
    assert q.words[|q.words|..] == [];
    SalvageNothing(now);
    AbandonStage(q.start, b, now, now, NO_CALL);
  }

  lemma AlignNoNext(q: Question, index: nat, toks: seq<Option<Word>>, b: Builder, now: State, stale: bool, left: State,
                    extra: int)
    requires Aligned(q, index, toks, b, now, stale)
    requires index + 1 < |q.words| && q.words[index] == PIPE_SYMBOL && !IsSymbol(q.words[index + 1])
    requires b.stdout != UNINITIALIZED_FD
             || Decide(q.oracle, q.words[index + 1..], q.inside, true, now, stale) == None
    requires Salvageable(now, left, extra)
    ensures Refuses(q, b, left, extra)
    ensures q.Left() <==> if b.stdout != UNINITIALIZED_FD then stale
                          else LeftSet(q.oracle, q.words[index + 1..], q.inside, true, now.table.opens, stale)
  {
    hide Progress; hide Decide; hide DecideRest; hide IsSymbol; hide Present; hide Salvageable; hide LeftSet;
    hide LeftFrom;
    DecidePipe(q.oracle, q.words[index..], b, q.inside, q.piped, now, stale);
    LeftPipe(q.oracle, q.words[index..], b, q.inside, q.piped, now, stale);
    assert q.words[index..][1..] == q.words[index + 1..];
    AbandonStage(q.start, b, now, left, extra);
  }

  lemma AlignNext(q: Question, index: nat, toks: seq<Option<Word>>, b: Builder, now: State, stale: bool)
    requires Aligned(q, index, toks, b, now, stale)
    requires index + 1 < |q.words| && q.words[index] == PIPE_SYMBOL && !IsSymbol(q.words[index + 1])
    requires b.stdout == UNINITIALIZED_FD
    requires Decide(q.oracle, q.words[index + 1..], q.inside, true, now, stale).Some?
    ensures var d := Decide(q.oracle, q.words[index + 1..], q.inside, true, now, stale).value;
            Concluded(q, AfterNext(b, NewPipe(q.oracle, d.parsed.state.table), |d.parsed.state.pipes|),
                      WithNext(q.oracle, d.parsed, q.inside), d.parsed.last, true, d.stale,
                      if q.inside then NO_CALL else d.parsed.last)
    ensures q.Left() <==> LeftSet(q.oracle, q.words[index + 1..], q.inside, true, now.table.opens, stale)
  {
    hide LeftSet; hide LeftFrom; hide Progress; hide DecideRest; hide IsSymbol; hide Present; hide Salvageable;
    hide RunPipeline; hide WithNext; hide Parse; hide NewPipe; hide Finish;
    DecidePipe(q.oracle, q.words[index..], b, q.inside, q.piped, now, stale);
    LeftPipe(q.oracle, q.words[index..], b, q.inside, q.piped, now, stale);
    assert q.words[index..][1..] == q.words[index + 1..];
    AbandonLinked(q.oracle, q.start, b, now, Parse(q.words[index + 1..]).value, q.inside);
  }
}
