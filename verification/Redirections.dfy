/** What a redirection does, from the characters it is written with: the first says which stream leads
    to the file, the others how the file is opened. */
module Redirections {
  import opened Options
  import opened Descriptors
  import opened Syntax
  import opened Commands
  import opened Acceptance
  import opened PipeTree
  import opened Wiring
  import opened Slots
  import opened Verdict
  import opened Channels

  const OPERATORS := ["<", ">", ">|", ">>", "2>", "2>|", "2>>"]

  function ModeByCharacters(op: string): Mode
    requires op != ""
  {
    if op[0] == '<' then Read
    else if op[|op| - 1] == '|' then Truncate
    else if |op| >= 2 && op[|op| - 2] == '>' then Append
    else Create
  }

  lemma OperatorsAreThese(op: string)
    ensures IsRedirection(op) <==> op in OPERATORS
    ensures IsSymbol(op) <==> op in OPERATORS || op in ["<(", ")", "|"]
    ensures IsRedirection(op) ==>
              && op != "" && op[0] in ['<', '>', '2']
              && ModeOf(op) == ModeByCharacters(op)
              && StreamOf(op) == if op[0] == '<' then Stdin else if op[0] == '>' then Stdout else Stderr
  {
  }

  /* What is opened. */

  /** The files of a line from the left to the right. */
  function Openings(p: Pipeline): seq<Opening>
    decreases p
  {
    OpeningsRest(p.rest)
  }

  function OpeningsRest(r: Rest): seq<Opening>
    decreases r
  {
    match r
    case Done => []
    case Arg(_, q) => OpeningsRest(q)
    case Redirect(op, file, q) => (if op == "" then [] else [Opening(file, ModeByCharacters(op))]) + OpeningsRest(q)
    case Substitute(body, q) => Openings(body) + OpeningsRest(q)
    case PipeTo(next) => Openings(next)
  }

  /** Parsing asks for exactly these files, in this order and with these modes. */
  lemma {:induction false} PipelineOpens(o: Oracle, p: Pipeline, inside: bool, piped: bool, st: State)
    requires RunPipeline(o, p, inside, piped, st).Some?
    ensures RunPipeline(o, p, inside, piped, st).value.state.table.asked == st.table.asked + Openings(p)
    ensures |Openings(p)| == Opens(p)
    decreases p
  {
    hide RunRest; hide OpeningsRest; hide OpensRest;
    RestOpens(o, p.rest, NewBuilder(p.name), inside, piped, st);
  }

  lemma {:induction false} RestOpens(o: Oracle, r: Rest, b: Builder, inside: bool, piped: bool, st: State)
    requires RunRest(o, r, b, inside, piped, st).Some?
    ensures RunRest(o, r, b, inside, piped, st).value.state.table.asked == st.table.asked + OpeningsRest(r)
    ensures |OpeningsRest(r)| == OpensRest(r)
    decreases r
  {
    hide RunRest; hide RunPipeline; hide Fresh; hide NewPipe; hide Openings; hide Opens; hide WithFd; hide Piped;
    hide ModeByCharacters; hide ModeOf; hide StreamOf; hide IsRedirection; hide BuildCall; hide AfterBody;
    hide AfterNext; hide Redirected; hide Linked; hide FdOf;
    match r
    case Done =>
      RunDone(o, b, inside, piped, st);
    case Arg(w, q) =>
      RunArg(o, w, q, b, inside, piped, st);
      RestOpens(o, q, b.(argv := b.argv + [Text(w)]), inside, piped, st);
    case Redirect(op, file, q) =>
      RunRedirect(o, op, file, q, b, inside, piped, st);
      OperatorsAreThese(op);
      RestOpens(o, q, WithFd(b, StreamOf(op), Fresh(o, st.table)), inside, piped,
                st.(table := Reopened(o, st.table, b, op, file)));
      assert st.table.asked + [Opening(file, ModeOf(op))] + OpeningsRest(q)
          == st.table.asked + ([Opening(file, ModeOf(op))] + OpeningsRest(q));
    case Substitute(body, q) =>
      RunSubstitute(o, body, q, b, inside, piped, st);
      PipelineOpens(o, body, true, false, WithPipe(o, st));
      var parsed := RunPipeline(o, body, true, false, WithPipe(o, st)).value;
      var pipe := NewPipe(o, st.table);
      RestOpens(o, q, AfterBody(b, pipe, |st.pipes|), inside, piped, WithBody(parsed, pipe, |st.pipes|));
      assert st.table.asked + Openings(body) + OpeningsRest(q) == st.table.asked + (Openings(body) + OpeningsRest(q));
    case PipeTo(next) =>
      RunPipeTo(o, next, b, inside, piped, st);
      PipelineOpens(o, next, inside, true, st);
  }

  /* Where the streams lead. */

  /** The last redirection of the stage at the head of `r` whose symbol begins with `c`, as the number of
      its opening; `n` openings have gone before. */
  function LastBy(r: Rest, c: char, n: nat): Source
    decreases r
  {
    match r
    case Done => Standard
    case Arg(_, q) => LastBy(q, c, n)
    case Redirect(op, _, q) =>
      if LastBy(q, c, n + 1) != Standard then LastBy(q, c, n + 1)
      else if op != "" && op[0] == c then File(n) else Standard
    case Substitute(body, q) => LastBy(q, c, n + |Openings(body)|)
    case PipeTo(_) => Standard
  }

  lemma {:induction false} LastByCharacter(r: Rest, n: nat)
    requires WellFormedRest(r)
    ensures LastOpen(r, Stdin, n) == LastBy(r, '<', n)
    ensures LastOpen(r, Stdout, n) == LastBy(r, '>', n)
    ensures LastOpen(r, Stderr, n) == LastBy(r, '2', n)
    ensures |OpeningsRest(r)| == OpensRest(r)
    decreases r
  {
    match r
    case Done =>
    case Arg(_, q) => LastByCharacter(q, n);
    case Redirect(op, _, q) =>
      OperatorsAreThese(op);
      LastByCharacter(q, n + 1);
    case Substitute(body, q) =>
      OpeningsAreOpens(body);
      LastByCharacter(q, n + Opens(body));
    case PipeTo(next) =>
      OpeningsAreOpens(next);
  }

  lemma {:induction false} OpeningsAreOpens(p: Pipeline)
    requires WellFormed(p)
    ensures |Openings(p)| == Opens(p)
    decreases p
  {
    LastByCharacter(p.rest, 0);
  }

  /** The last redirection of that stage whose symbol begins with `c`. */
  function LastOpening(r: Rest, c: char): Option<Opening>
    decreases r
  {
    match r
    case Done => None
    case Arg(_, q) => LastOpening(q, c)
    case Redirect(op, file, q) =>
      if LastOpening(q, c).Some? then LastOpening(q, c)
      else if op != "" && op[0] == c then Some(Opening(file, ModeByCharacters(op))) else None
    case Substitute(_, q) => LastOpening(q, c)
    case PipeTo(_) => None
  }

  lemma {:induction false} LastByOpens(r: Rest, c: char, n: nat)
    requires WellFormedRest(r)
    ensures match LastBy(r, c, n)
            case Standard => LastOpening(r, c) == None
            case File(k) =>
              n <= k < n + |OpeningsRest(r)| && LastOpening(r, c) == Some(OpeningsRest(r)[k - n])
            case PipeEnd(_) => false
    decreases r
  {
    hide ModeByCharacters;
    match r
    case Done =>
    case Arg(_, q) => LastByOpens(q, c, n);
    case Redirect(op, _, q) =>
      OperatorsAreThese(op);
      LastByOpens(q, c, n + 1);
    case Substitute(body, q) => LastByOpens(q, c, n + |Openings(body)|);
    case PipeTo(_) =>
  }

  /** The stream is the standard one if nothing redirects it, and otherwise what the kernel has returned
      for the opening that does. */
  ghost predicate StreamLeads(fd: int, standard: int, opening: Option<Opening>, t: Table, u: Table) {
    match opening
    case None => fd == standard
    case Some(x) => exists j: nat :: IsAnswer(fd, x, t, u, j)
  }

  /** It is the answer to the `j`-th opening since `t`. */
  predicate IsAnswer(fd: int, x: Opening, t: Table, u: Table, j: nat) {
    && |t.files| + j < |u.files| && u.files[|t.files| + j] == fd
    && |t.asked| + j < |u.asked| && u.asked[|t.asked| + j] == x
  }

  /** The streams of a stage: the last redirection by a symbol that begins with `<`, `>` or `2` decides
      where its standard input, its standard output and its standard error lead; but in front of a `|`
      standard output is the write end of the pipe. */
  lemma StageStreams(o: Oracle, p: Pipeline, inside: bool, piped: bool, st: State)
    requires RunPipeline(o, p, inside, piped, st).Some? && WellFormed(p)
    ensures var r := RunPipeline(o, p, inside, piped, st).value;
            var c, t, u := r.state.store[First(r)], st.table, r.state.table;
            && StreamLeads(c.stdin, 0, LastOpening(p.rest, '<'), t, u)
            && StreamLeads(c.stderr, 2, LastOpening(p.rest, '2'), t, u)
            && if Next(p.rest).Some? then r.state.pipes != [] && c.stdout == r.state.pipes[|r.state.pipes| - 1].writeEnd
               else StreamLeads(c.stdout, 1, LastOpening(p.rest, '>'), t, u)
  {
    hide RunPipeline; hide Opens; hide Openings; hide WellFormedRest; hide OpeningsRest; hide OpensRest; hide SizeRest;
    hide LastBy; hide LastOpening; hide LastOpen; hide StreamLeads; hide RestSources;
    var r := RunPipeline(o, p, inside, piped, st).value;
    var now, n, q := r.state, |st.table.files|, |st.pipes|;
    PipelineSizes(o, p, inside, piped, st);
    PipelineRecords(o, p, inside, piped, st);
    PipelineOpens(o, p, inside, piped, st);
    PipelineStreams(o, p, inside, piped, st, now.pipes, now.table.files, |st.store| + Size(p) - 1);
    LastByCharacter(p.rest, n);
    assert AllSources(p, n, q)[Size(p) - 1] == OwnSources(p.rest, n, q);
    var c := now.store[First(r)];
    SourceLeads(c.stdin, 0, false, p, '<', st.table, now);
    SourceLeads(c.stderr, 2, true, p, '2', st.table, now);
    NextHasCalls(p.rest);
    if Next(p.rest).None? {
      SourceLeads(c.stdout, 1, true, p, '>', st.table, now);
    }
  }

  lemma SourceLeads(fd: int, standard: int, writing: bool, p: Pipeline, c: char, t: Table, now: State)
    requires WellFormed(p) && Leads(fd, LastBy(p.rest, c, |t.files|), standard, writing, now.pipes, now.table.files)
    requires now.table.asked == t.asked + Openings(p) && |Openings(p)| == Opens(p)
    ensures StreamLeads(fd, standard, LastOpening(p.rest, c), t, now.table)
  {
    hide WellFormedRest; hide OpeningsRest; hide LastBy; hide LastOpening;
    LastByOpens(p.rest, c, |t.files|);
    if LastBy(p.rest, c, |t.files|).File? {
      assert IsAnswer(fd, LastOpening(p.rest, c).value, t, now.table, LastBy(p.rest, c, |t.files|).n - |t.files|);
    }
  }

  /* Where redirections may stand. */

  /** A symbol that begins with `<` stands on the first stage of a pipeline only, and one that begins with
      `>` on its last stage only, and not on that of a substitution. */
  predicate PlacedWell(p: Pipeline, first: bool)
    decreases p, 1
  {
    && (LastOpening(p.rest, '<').Some? ==> first)
    && (LastOpening(p.rest, '>').Some? ==> Next(p.rest).None?)
    && PartsPlacedWell(p.rest)
  }

  predicate PartsPlacedWell(r: Rest)
    decreases r, 0
  {
    match r
    case Done => true
    case Arg(_, q) => PartsPlacedWell(q)
    case Redirect(_, _, q) => PartsPlacedWell(q)
    case Substitute(body, q) =>
      PlacedWell(body, true) && LastOpening(LastStage(body).rest, '>').None? && PartsPlacedWell(q)
    case PipeTo(next) => PlacedWell(next, false)
  }

  lemma {:induction false} PlacementByCharacter(p: Pipeline, first: bool)
    requires WellFormed(p)
    ensures Allowed(p, first) <==> PlacedWell(p, first)
    decreases p, 1
  {
    RedirectsByCharacter(p.rest);
    PartsByCharacter(p.rest);
  }

  lemma {:induction false} PartsByCharacter(r: Rest)
    requires WellFormedRest(r)
    ensures PartsAllowed(r) <==> PartsPlacedWell(r)
    decreases r, 0
  {
    match r
    case Done =>
    case Arg(_, q) => PartsByCharacter(q);
    case Redirect(_, _, q) => PartsByCharacter(q);
    case Substitute(body, q) =>
      PlacementByCharacter(body, true);
      LastOutputByCharacter(body, body.rest, false);
      LastStageIsItself(body, body.rest);
      PartsByCharacter(q);
    case PipeTo(next) => PlacementByCharacter(next, false);
  }

  lemma {:induction false} RedirectsByCharacter(r: Rest)
    requires WellFormedRest(r)
    ensures Redirects(r, Stdin) <==> LastOpening(r, '<').Some?
    ensures Redirects(r, Stdout) <==> LastOpening(r, '>').Some?
    decreases r
  {
    hide ModeByCharacters;
    match r
    case Done =>
    case Arg(_, q) => RedirectsByCharacter(q);
    case Redirect(op, _, q) =>
      OperatorsAreThese(op);
      RedirectsByCharacter(q);
    case Substitute(_, q) => RedirectsByCharacter(q);
    case PipeTo(_) =>
  }

  lemma {:induction false} LastOutputByCharacter(p: Pipeline, r: Rest, already: bool)
    requires WellFormedRest(r)
    ensures LastRedirectsOutputRest(r, already) <==>
              if Next(r).None? then already || LastOpening(r, '>').Some?
              else LastOpening(LastStageOf(p, r).rest, '>').Some?
    decreases r
  {
    hide ModeByCharacters;
    match r
    case Done =>
    case Arg(_, q) => LastOutputByCharacter(p, q, already);
    case Redirect(op, _, q) =>
      OperatorsAreThese(op);
      LastOutputByCharacter(p, q, already || op[0] == '>');
    case Substitute(_, q) => LastOutputByCharacter(p, q, already);
    case PipeTo(next) =>
      LastOutputByCharacter(next, next.rest, false);
      LastStageIsItself(next, next.rest);
  }

  lemma {:induction false} LastStageIsItself(p: Pipeline, r: Rest)
    ensures Next(r).None? ==> LastStageOf(p, r) == p
    decreases r
  {
    match r
    case Done =>
    case Arg(_, q) => LastStageIsItself(p, q);
    case Redirect(_, _, q) => LastStageIsItself(p, q);
    case Substitute(_, q) => LastStageIsItself(p, q);
    case PipeTo(_) =>
  }

  /** The lines that are accepted, in the terms of the characters of their symbols. */
  lemma AcceptedByCharacters(o: Oracle, t: seq<string>, st: State, stale: bool)
    ensures Decide(o, t, false, false, st, stale).Some? <==> exists p :: IsAcceptable(o, t, st.table.opens, stale, p)
  {
    hide Decide; hide WellFormed; hide Print; hide Allowed; hide PlacedWell; hide Granted; hide Stages;
    hide HasSubstitution;
    AcceptsExactlyDerivable(o, t, st, stale);
    forall p
      ensures DerivesFrom(o, t, st.table.opens, stale, p) <==> IsAcceptable(o, t, st.table.opens, stale, p)
    {
      if WellFormed(p) {
        PlacementByCharacter(p, true);
      }
    }
  }

  ghost predicate IsAcceptable(o: Oracle, t: seq<string>, opens: nat, stale: bool, p: Pipeline) {
    && WellFormed(p) && Print(p) == t && PlacedWell(p, true) && Granted(o, opens, Opens(p))
    && (stale ==> HasSubstitution(p) || Stages(p) <= 2)
  }

  /* Single words. */

  /** Each of the seven symbols behind a name is taken as a redirection: the line is accepted exactly if
      the file can be opened, and then the stream that the first character says leads to it. */
  lemma EachOperator(o: Oracle, name: string, op: string, file: string, t: Table, stale: bool)
    requires op in OPERATORS && !IsSymbol(name) && !IsSymbol(file)
    ensures var d := Decide(o, [name, op, file], false, false, State(t, [], [], []), stale);
            && (d.Some? <==> o.grants(t.opens))
            && (d.Some? ==>
                  var st := d.value.parsed.state;
                  && |st.store| == 1 && st.store[0].argv == [Text(name)] && st.pipes == []
                  && st.table.asked == t.asked + [Opening(file, ModeByCharacters(op))]
                  && st.store[0].stdin == (if op[0] == '<' then Fresh(o, t) else 0)
                  && st.store[0].stdout == (if op[0] == '>' then Fresh(o, t) else 1)
                  && st.store[0].stderr == (if op[0] == '2' then Fresh(o, t) else 2))
  {
    hide Fresh; hide RunPipeline; hide ModeByCharacters; hide IsSymbol;
    OperatorsAreThese(op);
    OnlyStageDerives(o, name, op, file, t.opens, stale);
    AcceptsExactlyDerivable(o, [name, op, file], State(t, [], [], []), stale);
    if o.grants(t.opens) {
      SingleRedirection(o, name, op, file, State(t, [], [], []));
    }
  }

  lemma OnlyStageDerives(o: Oracle, name: string, op: string, file: string, opens: nat, stale: bool)
    requires IsRedirection(op) && !IsSymbol(name) && !IsSymbol(file)
    ensures Derivable(o, [name, op, file], opens, stale) <==> o.grants(opens)
    ensures o.grants(opens) ==>
              DerivesFrom(o, [name, op, file], opens, stale, Pipeline.Stage(name, Redirect(op, file, Rest.Done)))
  {
    hide IsSymbol; hide IsRedirection; hide StreamOf;
    var r := Redirect(op, file, Rest.Done);
    var p := Pipeline.Stage(name, r);
    assert PrintRest(r) == [op, file] && WellFormedRest(r);
    assert Print(p) == [name] + PrintRest(r) && WellFormed(p);
    assert OpensRest(r) == 1 && StagesRest(r) == 1 && PartsAllowed(r) && Next(r) == None;
    OnlyTreeDerives(o, [name, op, file], opens, stale, p);
  }

  lemma SingleRedirection(o: Oracle, name: string, op: string, file: string, st: State)
    requires IsRedirection(op) && o.grants(st.table.opens)
    ensures RunPipeline(o, Pipeline.Stage(name, Redirect(op, file, Rest.Done)), false, false, st) ==
            var b := WithFd(NewBuilder(name), StreamOf(op), Fresh(o, st.table));
            Some(Parsed(Finish(b, st.(table := Reopened(o, st.table, NewBuilder(name), op, file))), |st.store|))
  {
    hide Fresh; hide StreamOf; hide Reopened; hide WithFd; hide IsRedirection;
    RunRedirect(o, op, file, Rest.Done, NewBuilder(name), false, false, st);
    RunDone(o, WithFd(NewBuilder(name), StreamOf(op), Fresh(o, st.table)), false, false,
            st.(table := Reopened(o, st.table, NewBuilder(name), op, file)));
  }
}
