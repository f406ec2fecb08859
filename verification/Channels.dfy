/** Where each call's standard streams lead, computed from the tree alone: to the shell's own, to the
    file that the last redirection of that stream opened, or to an end of a pipe. */
module Channels {
  import opened Descriptors
  import opened Syntax
  import opened Commands
  import opened Acceptance
  import opened PipeTree
  import opened Wiring

  /** File n is the one that the n-th granted open opened. */
  datatype Source = Standard | File(n: nat) | PipeEnd(pipe: nat)

  datatype Sources = Sources(input: Source, output: Source, errors: Source)

  /** The last redirection of stream `s` in the stage at the head of `r`, `n` opens having gone
      before. */
  function LastOpen(r: Rest, s: Stream, n: nat): Source
    decreases r
  {
    match r
    case Done => Standard
    case Arg(_, q) => LastOpen(q, s, n)
    case Redirect(op, _, q) =>
      var later := LastOpen(q, s, n + 1);
      if later != Standard then later else if IsRedirection(op) && StreamOf(op) == s then File(n) else Standard
    case Substitute(body, q) => LastOpen(q, s, n + Opens(body))
    case PipeTo(_) => Standard
  }

  /** The stage at the head of `r`; pipes are numbered from `q`, and the one to the stage on the
      right is allocated last. */
  function OwnSources(r: Rest, n: nat, q: nat): Sources {
    Sources(LastOpen(r, Stdin, n),
            if Next(r).Some? && SizeRest(r) > 0 then PipeEnd(q + SizeRest(r) - 1) else LastOpen(r, Stdout, n),
            LastOpen(r, Stderr, n))
  }

  /** All calls of a pipeline, in the order they are built. */
  function AllSources(p: Pipeline, n: nat, q: nat): (all: seq<Sources>)
    ensures |all| == Size(p)
    decreases p
  {
    RestSources(p.rest, n, q) + [OwnSources(p.rest, n, q)]
  }

  function RestSources(r: Rest, n: nat, q: nat): (all: seq<Sources>)
    ensures |all| == SizeRest(r)
    decreases r
  {
    match r
    case Done => []
    case Arg(_, s) => RestSources(s, n, q)
    case Redirect(_, _, s) => RestSources(s, n + 1, q)
    case Substitute(body, s) =>
      var all, last := AllSources(body, n, q + 1), LastId(body, 0);
      all[last := all[last].(output := PipeEnd(q))] + RestSources(s, n + Opens(body), q + Size(body))
    case PipeTo(next) =>
      var all, first := AllSources(next, n, q), Size(next) - 1;
      all[first := all[first].(input := PipeEnd(q + first))]
  }

  /** The descriptor that a source stands for. */
  predicate Leads(fd: int, source: Source, standard: int, writing: bool, pipes: seq<Pipe>, files: seq<int>) {
    match source
    case Standard => fd == standard
    case File(n) => n < |files| && fd == files[n]
    case PipeEnd(i) => i < |pipes| && fd == if writing then pipes[i].writeEnd else pipes[i].readEnd
  }

  predicate LeadsTo(c: Call, sources: Sources, pipes: seq<Pipe>, files: seq<int>) {
    && Leads(c.stdin, sources.input, 0, false, pipes, files)
    && Leads(c.stdout, sources.output, 1, true, pipes, files)
    && Leads(c.stderr, sources.errors, 2, true, pipes, files)
  }

  /** What a stream of the call under construction leads to if nothing redirects it any more. */
  function Already(fd: int, standard: int): int {
    if fd == UNINITIALIZED_FD then standard else fd
  }

  /** The same for the stage under construction, whose streams may have been redirected before. */
  predicate OwnLeads(c: Call, sources: Sources, b: Builder, pipes: seq<Pipe>, files: seq<int>) {
    && Leads(c.stdin, sources.input, Already(b.stdin, 0), false, pipes, files)
    && Leads(c.stdout, sources.output, Already(b.stdout, 1), true, pipes, files)
    && Leads(c.stderr, sources.errors, Already(b.stderr, 2), true, pipes, files)
  }

  predicate Recorded(st: State, now: State, opens: nat) {
    st.table.files <= now.table.files && |now.table.files| == |st.table.files| + opens
  }

  /** Every open of the line is on record. */
  lemma {:induction false} PipelineRecords(o: Oracle, p: Pipeline, inside: bool, piped: bool, st: State)
    requires RunPipeline(o, p, inside, piped, st).Some?
    ensures Recorded(st, RunPipeline(o, p, inside, piped, st).value.state, Opens(p))
    decreases p
  {
    hide RunRest;
    RestRecords(o, p.rest, NewBuilder(p.name), inside, piped, st);
  }

  lemma {:induction false} RestRecords(o: Oracle, r: Rest, b: Builder, inside: bool, piped: bool, st: State)
    requires RunRest(o, r, b, inside, piped, st).Some?
    ensures Recorded(st, RunRest(o, r, b, inside, piped, st).value.state, OpensRest(r))
    decreases r
  {
    hide RunRest; hide RunPipeline; hide Fresh; hide NewPipe; hide Opens; hide WithFd; hide Piped;
    match r
    case Done =>
      RunDone(o, b, inside, piped, st);
    case Arg(w, s) =>
      RunArg(o, w, s, b, inside, piped, st);
      RestRecords(o, s, b.(argv := b.argv + [Text(w)]), inside, piped, st);
    case Redirect(op, file, s) =>
      RunRedirect(o, op, file, s, b, inside, piped, st);
      RestRecords(o, s, WithFd(b, StreamOf(op), Fresh(o, st.table)), inside, piped,
                  st.(table := Reopened(o, st.table, b, op, file)));
    case Substitute(body, s) =>
      RunSubstitute(o, body, s, b, inside, piped, st);
      PipelineRecords(o, body, true, false, WithPipe(o, st));
      var parsed := RunPipeline(o, body, true, false, WithPipe(o, st)).value;
      var pipe, q := NewPipe(o, st.table), |st.pipes|;
      RestRecords(o, s, AfterBody(b, pipe, q), inside, piped, WithBody(parsed, pipe, q));
    case PipeTo(next) =>
      RunPipeTo(o, next, b, inside, piped, st);
      PipelineRecords(o, next, inside, true, st);
  }

  /** The streams of every call lead where the tree says: the last redirection of a stream wins, and
      pipes go before redirections. */
  lemma {:induction false} PipelineStreams(o: Oracle, p: Pipeline, inside: bool, piped: bool, st: State,
                                           pipes: seq<Pipe>, files: seq<int>, id: nat)
    requires RunPipeline(o, p, inside, piped, st).Some?
    requires var now := RunPipeline(o, p, inside, piped, st).value.state; now.pipes <= pipes && now.table.files <= files
    requires |st.store| <= id < |st.store| + Size(p)
    ensures var store := RunPipeline(o, p, inside, piped, st).value.state.store;
            && id < |store|
            && LeadsTo(store[id], AllSources(p, |st.table.files|, |st.pipes|)[id - |st.store|], pipes, files)
    decreases p
  {
    hide RunRest; hide RestSources; hide OwnSources; hide Leads;
    RestStreams(o, p.rest, NewBuilder(p.name), inside, piped, st, pipes, files, id);
  }

  lemma {:induction false} RestStreams(o: Oracle, r: Rest, b: Builder, inside: bool, piped: bool, st: State,
                                       pipes: seq<Pipe>, files: seq<int>, id: nat)
    requires RunRest(o, r, b, inside, piped, st).Some?
    requires var now := RunRest(o, r, b, inside, piped, st).value.state; now.pipes <= pipes && now.table.files <= files
    requires |st.store| <= id <= |st.store| + SizeRest(r)
    ensures var store := RunRest(o, r, b, inside, piped, st).value.state.store;
            var n, q := |st.table.files|, |st.pipes|;
            && id < |store|
            && if id == |st.store| + SizeRest(r) then OwnLeads(store[id], OwnSources(r, n, q), b, pipes, files)
               else LeadsTo(store[id], RestSources(r, n, q)[id - |st.store|], pipes, files)
    decreases r, 1
  {
    hide RunRest; hide RunPipeline; hide Fresh; hide NewPipe; hide AllSources; hide Size; hide Opens;
    match r
    case Done =>
      RunDone(o, b, inside, piped, st);
    case Arg(w, s) =>
      RunArg(o, w, s, b, inside, piped, st);
      RestStreams(o, s, b.(argv := b.argv + [Text(w)]), inside, piped, st, pipes, files, id);
    case Redirect(op, file, s) => RedirectStreams(o, op, file, s, b, inside, piped, st, pipes, files, id);
    case Substitute(body, s) =>
      if id < |st.store| + Size(body) {
        BodyStreams(o, body, s, b, inside, piped, st, pipes, files, id);
      } else {
        LaterStreams(o, body, s, b, inside, piped, st, pipes, files, id);
      }
    case PipeTo(next) => PipeToStreams(o, next, b, inside, piped, st, pipes, files, id);
  }

  lemma {:induction false} RedirectStreams(o: Oracle, op: string, file: string, s: Rest, b: Builder, inside: bool,
                                           piped: bool, st: State, pipes: seq<Pipe>, files: seq<int>, id: nat)
    requires RunRest(o, Redirect(op, file, s), b, inside, piped, st).Some?
    requires var now := RunRest(o, Redirect(op, file, s), b, inside, piped, st).value.state;
             now.pipes <= pipes && now.table.files <= files
    requires |st.store| <= id <= |st.store| + SizeRest(s)
    ensures var store := RunRest(o, Redirect(op, file, s), b, inside, piped, st).value.state.store;
            var n, q := |st.table.files|, |st.pipes|;
            && id < |store|
            && if id == |st.store| + SizeRest(s)
               then OwnLeads(store[id], OwnSources(Redirect(op, file, s), n, q), b, pipes, files)
               else LeadsTo(store[id], RestSources(s, n + 1, q)[id - |st.store|], pipes, files)
    decreases Redirect(op, file, s), 0
  {
    hide RunRest; hide RunPipeline; hide Fresh; hide NewPipe; hide RestSources; hide OpensRest; hide LastId;
    RunRedirect(o, op, file, s, b, inside, piped, st);
    var fd := Fresh(o, st.table);
    var c := WithFd(b, StreamOf(op), fd);
    var mid := st.(table := Reopened(o, st.table, b, op, file));
    RestStreams(o, s, c, inside, piped, mid, pipes, files, id);
    RestRecords(o, s, c, inside, piped, mid);
    assert files[|st.table.files|] == fd by {
      assert mid.table.files[|st.table.files|] == fd;
    }
  }

  /** The calls of a substitution. */
  lemma {:induction false} BodyStreams(o: Oracle, body: Pipeline, s: Rest, b: Builder, inside: bool, piped: bool,
                                       st: State, pipes: seq<Pipe>, files: seq<int>, id: nat)
    requires RunRest(o, Substitute(body, s), b, inside, piped, st).Some?
    requires var now := RunRest(o, Substitute(body, s), b, inside, piped, st).value.state;
             now.pipes <= pipes && now.table.files <= files
    requires |st.store| <= id < |st.store| + Size(body)
    ensures var store := RunRest(o, Substitute(body, s), b, inside, piped, st).value.state.store;
            var n, q := |st.table.files|, |st.pipes|;
            && id < |store|
            && LeadsTo(store[id], RestSources(Substitute(body, s), n, q)[id - |st.store|], pipes, files)
    decreases Substitute(body, s), 0
  {
    hide RunRest; hide RunPipeline; hide Fresh; hide NewPipe; hide AllSources; hide Size; hide Opens; hide Piped;
    hide OwnSources; hide LastId;
    var a, n, q := |st.store|, |st.table.files|, |st.pipes|;
    var pipe := NewPipe(o, st.table);
    RunSubstitute(o, body, s, b, inside, piped, st);
    PipelineSizes(o, body, true, false, WithPipe(o, st));
    PipelineRecords(o, body, true, false, WithPipe(o, st));
    var parsed := RunPipeline(o, body, true, false, WithPipe(o, st)).value;
    var mid := WithBody(parsed, pipe, q);
    RestSizes(o, s, AfterBody(b, pipe, q), inside, piped, mid);
    RestRecords(o, s, AfterBody(b, pipe, q), inside, piped, mid);
    assert mid.pipes[q] == pipe && mid.pipes <= pipes;
    PipelineStreams(o, body, true, false, WithPipe(o, st), pipes, files, id);
    LastIsShifted(body, a);
  }

  /** The calls built behind it, and the stage itself. */
  lemma {:induction false} LaterStreams(o: Oracle, body: Pipeline, s: Rest, b: Builder, inside: bool, piped: bool,
                                        st: State, pipes: seq<Pipe>, files: seq<int>, id: nat)
    requires RunRest(o, Substitute(body, s), b, inside, piped, st).Some?
    requires var now := RunRest(o, Substitute(body, s), b, inside, piped, st).value.state;
             now.pipes <= pipes && now.table.files <= files
    requires |st.store| + Size(body) <= id <= |st.store| + Size(body) + SizeRest(s)
    ensures var store := RunRest(o, Substitute(body, s), b, inside, piped, st).value.state.store;
            var n, q := |st.table.files|, |st.pipes|;
            && id < |store|
            && if id == |st.store| + Size(body) + SizeRest(s)
               then OwnLeads(store[id], OwnSources(Substitute(body, s), n, q), b, pipes, files)
               else LeadsTo(store[id], RestSources(Substitute(body, s), n, q)[id - |st.store|], pipes, files)
    decreases Substitute(body, s), 0
  {
    hide RunRest; hide RunPipeline; hide Fresh; hide NewPipe; hide AllSources; hide Size; hide Opens; hide Piped;
    hide LastId;
    var a, n, q := |st.store|, |st.table.files|, |st.pipes|;
    var pipe := NewPipe(o, st.table);
    RunSubstitute(o, body, s, b, inside, piped, st);
    PipelineSizes(o, body, true, false, WithPipe(o, st));
    PipelineRecords(o, body, true, false, WithPipe(o, st));
    var parsed := RunPipeline(o, body, true, false, WithPipe(o, st)).value;
    var mid := WithBody(parsed, pipe, q);
    RestSizes(o, s, AfterBody(b, pipe, q), inside, piped, mid);
    RestRecords(o, s, AfterBody(b, pipe, q), inside, piped, mid);
    RestStreams(o, s, AfterBody(b, pipe, q), inside, piped, mid, pipes, files, id);
    NextHasCalls(s);
  }

  lemma {:induction false} NextHasCalls(r: Rest)
    ensures Next(r).Some? ==> SizeRest(r) > 0
    decreases r
  {
    match r
    case Done =>
    case Arg(_, q) => NextHasCalls(q);
    case Redirect(_, _, q) => NextHasCalls(q);
    case Substitute(_, q) => NextHasCalls(q);
    case PipeTo(next) =>
  }

  /** Numbers of calls are relative to the first. */
  lemma {:induction false} LastIsShifted(p: Pipeline, a: nat)
    ensures LastId(p, a) == a + LastId(p, 0)
    decreases p
  {
    LastIsShiftedRest(p.rest, a, 0, FirstId(p, a), FirstId(p, 0));
  }

  lemma {:induction false} LastIsShiftedRest(r: Rest, a: nat, c: nat, me: nat, ne: nat)
    requires me - a == ne - c
    ensures LastIdRest(r, a, me) - a == LastIdRest(r, c, ne) - c
    decreases r
  {
    match r
    case Done =>
    case Arg(_, q) => LastIsShiftedRest(q, a, c, me, ne);
    case Redirect(_, _, q) => LastIsShiftedRest(q, a, c, me, ne);
    case Substitute(body, q) => LastIsShiftedRest(q, a + Size(body), c + Size(body), me, ne);
    case PipeTo(next) =>
      LastIsShifted(next, a);
      LastIsShifted(next, c);
  }

  lemma {:induction false} PipeToStreams(o: Oracle, next: Pipeline, b: Builder, inside: bool, piped: bool, st: State,
                                         pipes: seq<Pipe>, files: seq<int>, id: nat)
    requires RunRest(o, PipeTo(next), b, inside, piped, st).Some?
    requires var now := RunRest(o, PipeTo(next), b, inside, piped, st).value.state;
             now.pipes <= pipes && now.table.files <= files
    requires |st.store| <= id <= |st.store| + Size(next)
    ensures var store := RunRest(o, PipeTo(next), b, inside, piped, st).value.state.store;
            var n, q := |st.table.files|, |st.pipes|;
            && id < |store|
            && if id == |st.store| + Size(next)
               then OwnLeads(store[id], OwnSources(PipeTo(next), n, q), b, pipes, files)
               else LeadsTo(store[id], RestSources(PipeTo(next), n, q)[id - |st.store|], pipes, files)
    decreases PipeTo(next), 0
  {
    hide RunRest; hide RunPipeline; hide Fresh; hide NewPipe; hide AllSources; hide Size; hide Piped;
    RunPipeTo(o, next, b, inside, piped, st);
    PipelineSizes(o, next, inside, true, st);
    var parsed := RunPipeline(o, next, inside, true, st).value;
    var pipe := NewPipe(o, parsed.state.table);
    var now := WithNext(o, parsed, inside);
    assert now.pipes[|parsed.state.pipes|] == pipe && now.pipes <= pipes;
    if id < |st.store| + Size(next) {
      PipelineStreams(o, next, inside, true, st, pipes, files, id);
    }
  }
}
