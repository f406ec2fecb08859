/** Which trees the parser accepts: the placement rules for redirections, and every open granted. */
module Acceptance {
  import opened Options
  import opened Descriptors
  import opened Syntax
  import opened Commands

  /** The stage at the head of `r` redirects stream `s`. */
  predicate Redirects(r: Rest, s: Stream)
    decreases r
  {
    match r
    case Done => false
    case Arg(_, q) => Redirects(q, s)
    case Redirect(op, _, q) => (IsRedirection(op) && StreamOf(op) == s) || Redirects(q, s)
    case Substitute(_, q) => Redirects(q, s)
    case PipeTo(_) => false
  }

  /** The pipeline continues after the stage at the head of `r`. */
  function Next(r: Rest): Option<Pipeline>
    decreases r
  {
    match r
    case Done => None
    case Arg(_, q) => Next(q)
    case Redirect(_, _, q) => Next(q)
    case Substitute(_, q) => Next(q)
    case PipeTo(next) => Some(next)
  }

  /** The last stage of the pipeline redirects its standard output. */
  predicate LastRedirectsOutput(p: Pipeline)
    decreases p
  {
    LastRedirectsOutputRest(p.rest, false)
  }

  predicate LastRedirectsOutputRest(r: Rest, already: bool)
    decreases r
  {
    match r
    case Done => already
    case Arg(_, q) => LastRedirectsOutputRest(q, already)
    case Redirect(op, _, q) => LastRedirectsOutputRest(q, already || (IsRedirection(op) && StreamOf(op) == Stdout))
    case Substitute(_, q) => LastRedirectsOutputRest(q, already)
    case PipeTo(next) => LastRedirectsOutput(next)
  }

  /** Standard input may be redirected on the first stage of a pipeline only, standard output on
      its last stage only, and not at all on the last stage of a substitution. */
  predicate Allowed(p: Pipeline, first: bool)
    decreases p, 1
  {
    && (Redirects(p.rest, Stdin) ==> first)
    && (Redirects(p.rest, Stdout) ==> Next(p.rest).None?)
    && PartsAllowed(p.rest)
  }

  /** The substitutions of this stage and the stages on its right obey the rules. */
  predicate PartsAllowed(r: Rest)
    decreases r, 0
  {
    match r
    case Done => true
    case Arg(_, q) => PartsAllowed(q)
    case Redirect(op, _, q) => IsRedirection(op) && PartsAllowed(q)
    case Substitute(body, q) => Allowed(body, true) && !LastRedirectsOutput(body) && PartsAllowed(q)
    case PipeTo(next) => Allowed(next, false)
  }

  /** How many files the line asks to open. */
  function Opens(p: Pipeline): nat
    decreases p
  {
    OpensRest(p.rest)
  }

  function OpensRest(r: Rest): nat
    decreases r
  {
    match r
    case Done => 0
    case Arg(_, q) => OpensRest(q)
    case Redirect(_, _, q) => 1 + OpensRest(q)
    case Substitute(body, q) => Opens(body) + OpensRest(q)
    case PipeTo(next) => Opens(next)
  }

  ghost predicate Granted(o: Oracle, from: nat, count: nat) {
    forall n: nat | from <= n < from + count :: o.grants(n)
  }

  lemma {:induction false} PipelineAcceptance(o: Oracle, p: Pipeline, inside: bool, piped: bool, st: State)
    ensures var r := RunPipeline(o, p, inside, piped, st);
            && (r.Some? <==> Allowed(p, !piped) && Granted(o, st.table.opens, Opens(p)))
            && (r.Some? ==>
                  && r.value.state.table.opens == st.table.opens + Opens(p)
                  && (r.value.state.store[r.value.last].stdout != 1 <==> LastRedirectsOutput(p)))
    decreases p
  {
    RestAcceptance(o, p.rest, NewBuilder(p.name), inside, piped, st);
  }

  /** The streams the builder holds already count as redirected. */
  predicate RestAllowed(r: Rest, b: Builder, piped: bool) {
    && (b.stdin != UNINITIALIZED_FD || Redirects(r, Stdin) ==> !piped)
    && (b.stdout != UNINITIALIZED_FD || Redirects(r, Stdout) ==> Next(r).None?)
    && PartsAllowed(r)
  }

  predicate NoStandardFds(b: Builder) {
    (b.stdin == UNINITIALIZED_FD || b.stdin > 2) && (b.stdout == UNINITIALIZED_FD || b.stdout > 2)
  }

  lemma {:induction false} RestAcceptance(o: Oracle, r: Rest, b: Builder, inside: bool, piped: bool, st: State)
    requires NoStandardFds(b)
    ensures AcceptedRest(o, r, b, piped, st, RunRest(o, r, b, inside, piped, st))
    decreases r, 1
  {
    hide RunRest; hide RunPipeline; hide Fresh; hide NewPipe; hide Granted;
    match r
    case Done =>
      RunDone(o, b, inside, piped, st);
      GrantedNone(o, st.table.opens);
    case Arg(w, q) =>
      RunArg(o, w, q, b, inside, piped, st);
      RestAcceptance(o, q, b.(argv := b.argv + [Text(w)]), inside, piped, st);
    case Redirect(op, file, q) =>
      RunRedirect(o, op, file, q, b, inside, piped, st);
      if IsRedirection(op) {
        var s := StreamOf(op);
        RestAcceptance(o, q, WithFd(b, s, Fresh(o, st.table)), inside, piped,
                       st.(table := Reopened(o, st.table, b, op, file)));
        GrantedStep(o, st.table.opens, OpensRest(q));
      }
    case Substitute(body, q) => SubstituteAcceptance(o, body, q, b, inside, piped, st);
    case PipeTo(next) => PipeToAcceptance(o, next, b, inside, piped, st);
  }

  /** What accepting the rest of a stage comes to. */
  ghost predicate AcceptedRest(o: Oracle, r: Rest, b: Builder, piped: bool, st: State, res: Option<Parsed>) {
    && (res.Some? <==> RestAllowed(r, b, piped) && Granted(o, st.table.opens, OpensRest(r)))
    && (res.Some? ==>
          && res.value.last < |res.value.state.store|
          && res.value.state.table.opens == st.table.opens + OpensRest(r)
          && (res.value.state.store[res.value.last].stdout != 1
              <==> LastRedirectsOutputRest(r, b.stdout != UNINITIALIZED_FD)))
  }

  lemma {:induction false} SubstituteAcceptance(o: Oracle, body: Pipeline, q: Rest, b: Builder, inside: bool,
                                                piped: bool, st: State)
    requires NoStandardFds(b)
    ensures AcceptedRest(o, Substitute(body, q), b, piped, st, RunRest(o, Substitute(body, q), b, inside, piped, st))
    decreases Substitute(body, q), 0
  {
    hide RunRest; hide RunPipeline; hide Fresh; hide NewPipe; hide Granted; hide Piped;
    RunSubstitute(o, body, q, b, inside, piped, st);
    PipelineAcceptance(o, body, true, false, WithPipe(o, st));
    GrantedSplit(o, st.table.opens, Opens(body), OpensRest(q));
    var parsed := RunPipeline(o, body, true, false, WithPipe(o, st));
    if parsed.Some? && parsed.value.state.store[parsed.value.last].stdout == 1 {
      var pipe, index := NewPipe(o, st.table), |st.pipes|;
      RestAcceptance(o, q, AfterBody(b, pipe, index), inside, piped, WithBody(parsed.value, pipe, index));
    }
  }

  lemma {:induction false} PipeToAcceptance(o: Oracle, next: Pipeline, b: Builder, inside: bool, piped: bool, st: State)
    requires NoStandardFds(b)
    ensures AcceptedRest(o, PipeTo(next), b, piped, st, RunRest(o, PipeTo(next), b, inside, piped, st))
    decreases PipeTo(next), 0
  {
    hide RunRest; hide RunPipeline; hide Fresh; hide NewPipe; hide Granted; hide Piped;
    RunPipeTo(o, next, b, inside, piped, st);
    PipelineAcceptance(o, next, inside, true, st);
  }

  lemma GrantedNone(o: Oracle, from: nat)
    ensures Granted(o, from, 0)
  {
  }

  lemma GrantedStep(o: Oracle, from: nat, count: nat)
    ensures Granted(o, from, 1 + count) <==> o.grants(from) && Granted(o, from + 1, count)
  {
  }

  lemma GrantedSplit(o: Oracle, from: nat, m: nat, n: nat)
    ensures Granted(o, from, m + n) <==> Granted(o, from, m) && Granted(o, from + m, n)
  {
  }
}
