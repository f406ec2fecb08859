/** What the parser decides about a line, as a function of its tokens.  Besides the tree and the
    kernel's answers it depends on whether the global last_parsed_command_call_substitution was
    left set by an earlier line: then a middle stage of the main pipeline is refused. */
module Verdict {
  import opened Options
  import opened Descriptors
  import opened Syntax
  import opened Commands
  import opened Acceptance

  /** The global is still set after the pipeline: no substitution has reset it. */
  predicate StillSet(p: Pipeline, stale: bool)
    decreases p
  {
    StillSetRest(p.rest, stale)
  }

  predicate StillSetRest(r: Rest, stale: bool)
    decreases r
  {
    match r
    case Done => stale
    case Arg(_, q) => StillSetRest(q, stale)
    case Redirect(_, _, q) => StillSetRest(q, stale)
    case Substitute(_, q) => StillSetRest(q, false)
    case PipeTo(next) => StillSet(next, stale)
  }

  /** No stage in the middle of the main pipeline is finished while the global is set. */
  predicate Unspoiled(p: Pipeline, piped: bool, stale: bool)
    decreases p
  {
    UnspoiledRest(p.rest, piped, stale)
  }

  predicate UnspoiledRest(r: Rest, piped: bool, stale: bool)
    decreases r
  {
    match r
    case Done => true
    case Arg(_, q) => UnspoiledRest(q, piped, stale)
    case Redirect(_, _, q) => UnspoiledRest(q, piped, stale)
    case Substitute(_, q) => UnspoiledRest(q, piped, false)
    case PipeTo(next) => Unspoiled(next, true, stale) && !(piped && StillSet(next, stale))
  }

  datatype Decision = Decision(parsed: Parsed, stale: bool)

  function Decide(o: Oracle, t: seq<string>, inside: bool, piped: bool, st: State, stale: bool): (d: Option<Decision>)
    ensures d.Some? ==> |st.store| <= d.value.parsed.last < |d.value.parsed.state.store|
  {
    match Parse(t)
    case None => None
    case Some(p) =>
      if !inside && !Unspoiled(p, piped, stale) then None
      else
        match RunPipeline(o, p, inside, piped, st)
        case None => None
        case Some(parsed) => Some(Decision(parsed, StillSet(p, stale)))
  }

  function DecideRest(o: Oracle, t: seq<string>, b: Builder, inside: bool, piped: bool, st: State, stale: bool)
    : (d: Option<Decision>)
    ensures d.Some? ==> |st.store| <= d.value.parsed.last < |d.value.parsed.state.store|
  {
    match ParseRest(t)
    case None => None
    case Some(r) =>
      if !inside && !UnspoiledRest(r, piped, stale) then None
      else
        match RunRest(o, r, b, inside, piped, st)
        case None => None
        case Some(parsed) => Some(Decision(parsed, StillSetRest(r, stale)))
  }

  /* One token at a time. */

  lemma DecideName(o: Oracle, t: seq<string>, inside: bool, piped: bool, st: State, stale: bool)
    ensures t == [] || IsSymbol(t[0]) ==> Decide(o, t, inside, piped, st, stale) == None
    ensures t != [] && !IsSymbol(t[0]) ==>
              Decide(o, t, inside, piped, st, stale) == DecideRest(o, t[1..], NewBuilder(t[0]), inside, piped, st,
                                                                   stale)
  {
    hide RunRest; hide ParseRest; hide UnspoiledRest; hide StillSetRest;
  }

  lemma DecideEnd(o: Oracle, b: Builder, inside: bool, piped: bool, st: State, stale: bool)
    ensures DecideRest(o, [], b, inside, piped, st, stale) ==
            if piped && b.stdin != UNINITIALIZED_FD then None
            else Some(Decision(Parsed(Finish(b, st), |st.store|), stale))
  {
    RunDone(o, b, inside, piped, st);
    hide RunRest;
  }

  lemma DecideArg(o: Oracle, t: seq<string>, b: Builder, inside: bool, piped: bool, st: State, stale: bool)
    requires t != [] && !IsSymbol(t[0])
    ensures DecideRest(o, t, b, inside, piped, st, stale) ==
            DecideRest(o, t[1..], b.(argv := b.argv + [Text(t[0])]), inside, piped, st, stale)
  {
    hide RunRest;
    if ParseRest(t[1..]).Some? {
      RunArg(o, t[0], ParseRest(t[1..]).value, b, inside, piped, st);
    }
  }

  lemma DecideMalformed(o: Oracle, t: seq<string>, b: Builder, inside: bool, piped: bool, st: State, stale: bool)
    requires t != [] && IsSymbol(t[0])
    requires |t| == 1 || IsSymbol(t[1]) || t[0] == SUBSTITUTION_END
    ensures DecideRest(o, t, b, inside, piped, st, stale) == None
  {
    hide RunRest;
  }

  lemma DecideRedirect(o: Oracle, t: seq<string>, b: Builder, inside: bool, piped: bool, st: State, stale: bool)
    requires |t| > 1 && IsRedirection(t[0]) && !IsSymbol(t[1])
    ensures DecideRest(o, t, b, inside, piped, st, stale) ==
            if !o.grants(st.table.opens) then None
            else DecideRest(o, t[2..], WithFd(b, StreamOf(t[0]), Fresh(o, st.table)), inside, piped,
                            st.(table := Reopened(o, st.table, b, t[0], t[1])), stale)
  {
    hide RunRest;
    if ParseRest(t[2..]).Some? {
      RunRedirect(o, t[0], t[1], ParseRest(t[2..]).value, b, inside, piped, st);
    }
  }

  /** The substitution that starts behind the opening symbol `t[0]`. */
  function Body(t: seq<string>): Option<Pipeline>
    requires t != []
  {
    match ClosingIndex(t[1..], 0)
    case None => None
    case Some(i) => Parse(t[1..][..i])
  }

  function RunBody(o: Oracle, t: seq<string>, st: State): (r: Option<Parsed>)
    requires t != []
    ensures r.Some? ==> r.value.last < |r.value.state.store| && r.value.state.store[r.value.last].stdout == 1
  {
    match Body(t)
    case None => None
    case Some(body) =>
      match RunPipeline(o, body, true, false, WithPipe(o, st))
      case None => None
      case Some(parsed) => if parsed.state.store[parsed.last].stdout != 1 then None else Some(parsed)
  }

  lemma DecideSubstitute(o: Oracle, t: seq<string>, b: Builder, inside: bool, piped: bool, st: State, stale: bool)
    requires |t| > 1 && t[0] == SUBSTITUTION_START && !IsSymbol(t[1])
    ensures DecideRest(o, t, b, inside, piped, st, stale) ==
            var pipe := NewPipe(o, st.table);
            var parsed := RunBody(o, t, st);
            if parsed.None? then None
            else DecideRest(o, t[1..][ClosingIndex(t[1..], 0).value + 1..], AfterBody(b, pipe, |st.pipes|),
                            inside, piped, WithBody(parsed.value, pipe, |st.pipes|), false)
  {
    hide RunRest; hide RunPipeline; hide ClosingIndex;
    var u := t[1..];
    if Body(t).Some? {
      var i := ClosingIndex(u, 0).value;
      if ParseRest(u[i + 1..]).Some? {
        RunSubstitute(o, Body(t).value, ParseRest(u[i + 1..]).value, b, inside, piped, st);
      }
    }
  }

  lemma DecidePipe(o: Oracle, t: seq<string>, b: Builder, inside: bool, piped: bool, st: State, stale: bool)
    requires |t| > 1 && t[0] == PIPE_SYMBOL && !IsSymbol(t[1])
    ensures DecideRest(o, t, b, inside, piped, st, stale) ==
            var next := Decide(o, t[1..], inside, true, st, stale);
            if b.stdout != UNINITIALIZED_FD || next.None? || (piped && b.stdin != UNINITIALIZED_FD)
               || (!inside && piped && next.value.stale) then None
            else
              var now := next.value.parsed.state;
              Some(Decision(Parsed(Finish(AfterNext(b, NewPipe(o, now.table), |now.pipes|),
                                          WithNext(o, next.value.parsed, inside)), next.value.parsed.last),
                            next.value.stale))
  {
    hide RunRest; hide RunPipeline;
    if Parse(t[1..]).Some? {
      RunPipeTo(o, Parse(t[1..]).value, b, inside, piped, st);
    }
  }

  /* When the line is accepted, in terms of its tree. */

  function Stages(p: Pipeline): nat
    decreases p
  {
    StagesRest(p.rest)
  }

  function StagesRest(r: Rest): nat
    decreases r
  {
    match r
    case Done => 1
    case Arg(_, q) => StagesRest(q)
    case Redirect(_, _, q) => StagesRest(q)
    case Substitute(_, q) => StagesRest(q)
    case PipeTo(next) => 1 + Stages(next)
  }

  /** The pipeline, substitutions themselves apart, contains a substitution. */
  predicate HasSubstitution(p: Pipeline)
    decreases p
  {
    HasSubstitutionRest(p.rest)
  }

  predicate HasSubstitutionRest(r: Rest)
    decreases r
  {
    match r
    case Done => false
    case Arg(_, q) => HasSubstitutionRest(q)
    case Redirect(_, _, q) => HasSubstitutionRest(q)
    case Substitute(_, _) => true
    case PipeTo(next) => HasSubstitution(next)
  }

  lemma {:induction false} StillSetUnlessReset(p: Pipeline, stale: bool)
    ensures StillSet(p, stale) <==> stale && !HasSubstitution(p)
    decreases p
  {
    StillSetUnlessResetRest(p.rest, stale);
  }

  lemma {:induction false} StillSetUnlessResetRest(r: Rest, stale: bool)
    ensures StillSetRest(r, stale) <==> stale && !HasSubstitutionRest(r)
    decreases r
  {
    match r
    case Done =>
    case Arg(_, q) => StillSetUnlessResetRest(q, stale);
    case Redirect(_, _, q) => StillSetUnlessResetRest(q, stale);
    case Substitute(_, q) => StillSetUnlessResetRest(q, false);
    case PipeTo(next) => StillSetUnlessReset(next, stale);
  }

  /** Starting with the global unset, it stays unset. */
  lemma NeverSetAgain(o: Oracle, t: seq<string>, inside: bool, piped: bool, st: State)
    ensures var d := Decide(o, t, inside, piped, st, false); d.Some? ==> !d.value.stale
  {
    hide RunPipeline; hide Unspoiled;
    if Parse(t).Some? {
      StillSetUnlessReset(Parse(t).value, false);
    }
  }

  /** A global left set spoils exactly the pipelines with a middle stage and no substitution. */
  lemma {:induction false} SpoiledExactly(p: Pipeline, piped: bool, stale: bool)
    ensures Unspoiled(p, piped, stale) <==>
              !stale || HasSubstitution(p) || Stages(p) <= (if piped then 1 else 2)
    decreases p
  {
    SpoiledExactlyRest(p.rest, piped, stale);
  }

  lemma {:induction false} SpoiledExactlyRest(r: Rest, piped: bool, stale: bool)
    ensures UnspoiledRest(r, piped, stale) <==>
              !stale || HasSubstitutionRest(r) || StagesRest(r) <= (if piped then 1 else 2)
    decreases r
  {
    match r
    case Done =>
    case Arg(_, q) => SpoiledExactlyRest(q, piped, stale);
    case Redirect(_, _, q) => SpoiledExactlyRest(q, piped, stale);
    case Substitute(_, q) => SpoiledExactlyRest(q, piped, false);
    case PipeTo(next) =>
      SpoiledExactly(next, true, stale);
      StillSetUnlessReset(next, stale);
      AtLeastOneStage(next);
  }

  lemma {:induction false} AtLeastOneStage(p: Pipeline)
    ensures Stages(p) >= 1
    decreases p
  {
    AtLeastOneStageRest(p.rest);
  }

  lemma {:induction false} AtLeastOneStageRest(r: Rest)
    ensures StagesRest(r) >= 1
    decreases r
  {
    match r
    case Done =>
    case Arg(_, q) => AtLeastOneStageRest(q);
    case Redirect(_, _, q) => AtLeastOneStageRest(q);
    case Substitute(_, q) => AtLeastOneStageRest(q);
    case PipeTo(_) =>
  }

  /** The line derives from a tree that obeys the placement rules, and every open it asks for is granted. */
  ghost predicate Derivable(o: Oracle, t: seq<string>, opens: nat, stale: bool) {
    exists p :: DerivesFrom(o, t, opens, stale, p)
  }

  ghost predicate DerivesFrom(o: Oracle, t: seq<string>, opens: nat, stale: bool, p: Pipeline) {
    && WellFormed(p) && Print(p) == t
    && Allowed(p, true) && Granted(o, opens, Opens(p))
    && (stale ==> HasSubstitution(p) || Stages(p) <= 2)
  }

  /** The parser accepts exactly the derivable lines, and builds the command of their only tree. */
  lemma AcceptsExactlyDerivable(o: Oracle, t: seq<string>, st: State, stale: bool)
    ensures Decide(o, t, false, false, st, stale).Some? <==> Derivable(o, t, st.table.opens, stale)
    ensures forall p | DerivesFrom(o, t, st.table.opens, stale, p) ::
              && RunPipeline(o, p, false, false, st).Some?
              && Decide(o, t, false, false, st, stale).value.parsed == RunPipeline(o, p, false, false, st).value
  {
    hide RunPipeline; hide Print; hide WellFormed; hide Allowed; hide Granted;
    forall p
      ensures DerivesFrom(o, t, st.table.opens, stale, p) <==>
                Parse(t) == Some(p) && Decide(o, t, false, false, st, stale).Some?
    {
      ParseIsExact(t, p);
      PipelineAcceptance(o, p, false, false, st);
      SpoiledExactly(p, false, stale);
    }
    if Decide(o, t, false, false, st, stale).Some? {
      assert DerivesFrom(o, t, st.table.opens, stale, Parse(t).value);
    }
  }

  /** The smallest line that a global left set spoils: accepted with the global unset, refused with
      it set. */
  lemma ThreeStagesCanBeSpoiled(o: Oracle, st: State)
    ensures Decide(o, ["a", PIPE_SYMBOL, "b", PIPE_SYMBOL, "c"], false, false, st, false).Some?
    ensures Decide(o, ["a", PIPE_SYMBOL, "b", PIPE_SYMBOL, "c"], false, false, st, true) == None
  {
    hide RunPipeline;
    var c := Pipeline.Stage("c", Done);
    var b := Pipeline.Stage("b", PipeTo(c));
    var p := Pipeline.Stage("a", PipeTo(b));
    var t := ["a", PIPE_SYMBOL, "b", PIPE_SYMBOL, "c"];
    assert Print(c) == ["c"] && Print(b) == ["b", PIPE_SYMBOL, "c"] && Print(p) == t;
    assert WellFormed(c) && WellFormed(b) && WellFormed(p);
    assert Stages(c) == 1 && Stages(b) == 2 && Stages(p) == 3 && !HasSubstitution(p);
    assert DerivesFrom(o, t, st.table.opens, false, p);
    AcceptsExactlyDerivable(o, t, st, false);
    AcceptsExactlyDerivable(o, t, st, true);
    forall q
      ensures !DerivesFrom(o, t, st.table.opens, true, q)
    {
      ParseIsExact(t, p);
      ParseIsExact(t, q);
    }
  }

  lemma OnlyTreeDerives(o: Oracle, t: seq<string>, opens: nat, stale: bool, p: Pipeline)
    requires WellFormed(p) && Print(p) == t
    ensures Derivable(o, t, opens, stale) <==> DerivesFrom(o, t, opens, stale, p)
  {
    hide Parse; hide Print; hide WellFormed; hide Allowed; hide Granted; hide HasSubstitution; hide Stages;
    ParseIsExact(t, p);
    if Derivable(o, t, opens, stale) {
      var q :| DerivesFrom(o, t, opens, stale, q);
      ParseIsExact(t, q);
    }
  }
}
