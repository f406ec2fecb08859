/** The arguments and standard streams of the calls that the parser builds. */
module Plugging {
  import opened Descriptors
  import opened Syntax
  import opened Commands
  import opened Ledger
  import opened PipeTree
  import opened Wiring

  function ReadEndOf(pipes: seq<Pipe>, i: nat): int {
    if i < |pipes| then pipes[i].readEnd else UNINITIALIZED_FD
  }

  /** The arguments of the stage at the head of `r`, in the order of the line: redirections are
      gone, and each substitution stands as the path of the read end of its pipe.  `q` is the
      number of the next pipe. */
  function ArgvRest(r: Rest, pipes: seq<Pipe>, q: nat): seq<Word>
    decreases r
  {
    match r
    case Done => []
    case Arg(w, s) => [Text(w)] + ArgvRest(s, pipes, q)
    case Redirect(_, _, s) => ArgvRest(s, pipes, q)
    case Substitute(body, s) => [DevFd(ReadEndOf(pipes, q))] + ArgvRest(s, pipes, q + Size(body))
    case PipeTo(_) => []
  }

  function Argv(p: Pipeline, pipes: seq<Pipe>, q: nat): seq<Word> {
    [Text(p.name)] + ArgvRest(p.rest, pipes, q)
  }

  /** The arguments of every call, in the order the calls are built. */
  function Argvs(p: Pipeline, pipes: seq<Pipe>, q: nat): (args: seq<seq<Word>>)
    ensures |args| == Size(p)
    decreases p
  {
    ArgvsRest(p.rest, pipes, q) + [Argv(p, pipes, q)]
  }

  function ArgvsRest(r: Rest, pipes: seq<Pipe>, q: nat): (args: seq<seq<Word>>)
    ensures |args| == SizeRest(r)
    decreases r
  {
    match r
    case Done => []
    case Arg(_, s) => ArgvsRest(s, pipes, q)
    case Redirect(_, _, s) => ArgvsRest(s, pipes, q)
    case Substitute(body, s) => Argvs(body, pipes, q + 1) + ArgvsRest(s, pipes, q + Size(body))
    case PipeTo(next) => Argvs(next, pipes, q)
  }

  lemma {:induction false} PipelineArgs(o: Oracle, p: Pipeline, inside: bool, piped: bool, st: State, pipes: seq<Pipe>,
                                        id: nat)
    requires RunPipeline(o, p, inside, piped, st).Some?
    requires RunPipeline(o, p, inside, piped, st).value.state.pipes <= pipes
    requires |st.store| <= id < |st.store| + Size(p)
    ensures var store := RunPipeline(o, p, inside, piped, st).value.state.store;
            id < |store| && store[id].argv == Argvs(p, pipes, |st.pipes|)[id - |st.store|]
    decreases p
  {
    hide RunRest; hide ArgvsRest; hide ArgvRest;
    RestArgs(o, p.rest, NewBuilder(p.name), inside, piped, st, pipes, id);
  }

  lemma {:induction false} RestArgs(o: Oracle, r: Rest, b: Builder, inside: bool, piped: bool, st: State,
                                    pipes: seq<Pipe>, id: nat)
    requires RunRest(o, r, b, inside, piped, st).Some?
    requires RunRest(o, r, b, inside, piped, st).value.state.pipes <= pipes
    requires |st.store| <= id <= |st.store| + SizeRest(r)
    ensures var store := RunRest(o, r, b, inside, piped, st).value.state.store;
            && id < |store|
            && store[id].argv == if id == |st.store| + SizeRest(r) then b.argv + ArgvRest(r, pipes, |st.pipes|)
                                 else ArgvsRest(r, pipes, |st.pipes|)[id - |st.store|]
    decreases r, 1
  {
    hide RunRest; hide RunPipeline; hide Fresh; hide NewPipe; hide Argvs; hide Size;
    match r
    case Done =>
      RunDone(o, b, inside, piped, st);
    case Arg(w, s) =>
      RunArg(o, w, s, b, inside, piped, st);
      RestArgs(o, s, b.(argv := b.argv + [Text(w)]), inside, piped, st, pipes, id);
      var rest := ArgvRest(s, pipes, |st.pipes|);
      assert b.argv + [Text(w)] + rest == b.argv + ([Text(w)] + rest);
    case Redirect(op, file, s) =>
      RunRedirect(o, op, file, s, b, inside, piped, st);
      RestArgs(o, s, WithFd(b, StreamOf(op), Fresh(o, st.table)), inside, piped,
               st.(table := Reopened(o, st.table, b, op, file)), pipes, id);
    case Substitute(body, s) => SubstituteArgs(o, body, s, b, inside, piped, st, pipes, id);
    case PipeTo(next) =>
      RunPipeTo(o, next, b, inside, piped, st);
      PipelineSizes(o, next, inside, true, st);
      if id < |st.store| + Size(next) {
        PipelineArgs(o, next, inside, true, st, pipes, id);
      }
  }

  lemma {:induction false} SubstituteArgs(o: Oracle, body: Pipeline, s: Rest, b: Builder, inside: bool, piped: bool,
                                          st: State, pipes: seq<Pipe>, id: nat)
    requires RunRest(o, Substitute(body, s), b, inside, piped, st).Some?
    requires RunRest(o, Substitute(body, s), b, inside, piped, st).value.state.pipes <= pipes
    requires |st.store| <= id <= |st.store| + Size(body) + SizeRest(s)
    ensures var store := RunRest(o, Substitute(body, s), b, inside, piped, st).value.state.store;
            var a, q, me := |st.store|, |st.pipes|, |st.store| + Size(body) + SizeRest(s);
            && id < |store|
            && store[id].argv ==
                 if id == me then b.argv + ([DevFd(ReadEndOf(pipes, q))] + ArgvRest(s, pipes, q + Size(body)))
                 else (Argvs(body, pipes, q + 1) + ArgvsRest(s, pipes, q + Size(body)))[id - a]
    decreases Substitute(body, s), 0
  {
    hide RunRest; hide RunPipeline; hide Fresh; hide NewPipe; hide Argvs; hide ArgvsRest; hide ArgvRest; hide Size;
    hide SizeRest; hide LastId; hide Piped;
    var a, q, me := |st.store|, |st.pipes|, |st.store| + Size(body) + SizeRest(s);
    var pipe := NewPipe(o, st.table);
    RunSubstitute(o, body, s, b, inside, piped, st);
    PipelineSizes(o, body, true, false, WithPipe(o, st));
    var parsed := RunPipeline(o, body, true, false, WithPipe(o, st)).value;
    var mid := WithBody(parsed, pipe, q);
    RestSizes(o, s, AfterBody(b, pipe, q), inside, piped, mid);
    assert mid.pipes[q] == pipe && mid.pipes <= pipes;
    if id < a + Size(body) {
      PipelineArgs(o, body, true, false, WithPipe(o, st), pipes, id);
      assert mid.store[id].argv == parsed.state.store[id].argv;
    } else {
      RestArgs(o, s, AfterBody(b, pipe, q), inside, piped, mid, pipes, id);
      var own, rest := [DevFd(pipe.readEnd)], ArgvRest(s, pipes, q + Size(body));
      assert (b.argv + own) + rest == b.argv + (own + rest);
    }
  }

  /** The writer's standard output is the pipe, and the reader has the other end as its standard
      input or as an argument. */
  predicate Plugged(store: seq<Call>, pipe: Pipe, reader: nat, writer: nat) {
    && pipe.readEnd > 2 && pipe.writeEnd > 2
    && reader < |store| && writer < |store|
    && store[writer].stdout == pipe.writeEnd
    && (store[reader].stdin == pipe.readEnd || DevFd(pipe.readEnd) in store[reader].argv)
  }

  lemma PluggedLater(store: seq<Call>, later: seq<Call>, pipe: Pipe, reader: nat, writer: nat)
    requires Plugged(store, pipe, reader, writer) && store <= later
    ensures Plugged(later, pipe, reader, writer)
  {
  }

  /** Giving the last stage of a substitution its output unplugs nothing: it had none. */
  lemma PluggedAfterBody(parsed: Parsed, pipe: Pipe, index: nat, p: Pipe, reader: nat, writer: nat)
    requires parsed.last < |parsed.state.store| && parsed.state.store[parsed.last].stdout == 1
    requires Plugged(parsed.state.store, p, reader, writer)
    ensures Plugged(WithBody(parsed, pipe, index).store, p, reader, writer)
  {
  }

  /** Giving the next stage its input unplugs nothing: it had none. */
  lemma PluggedAfterNext(o: Oracle, parsed: Parsed, inside: bool, p: Pipe, reader: nat, writer: nat)
    requires parsed.last < |parsed.state.store| && parsed.state.store[First(parsed)].stdin == 0
    requires Plugged(parsed.state.store, p, reader, writer)
    ensures Plugged(WithNext(o, parsed, inside).store, p, reader, writer)
  {
  }

  lemma {:induction false} PipelinePlugs(o: Oracle, p: Pipeline, inside: bool, piped: bool, st: State, k: nat)
    requires RunPipeline(o, p, inside, piped, st).Some?
    requires k < Size(p) - 1
    ensures var now := RunPipeline(o, p, inside, piped, st).value.state;
            && |st.pipes| + k < |now.pipes|
            && Plugged(now.store, now.pipes[|st.pipes| + k], Readers(p, |st.store|)[k], Writers(p, |st.store|)[k])
    decreases p
  {
    hide RunRest; hide Plugged; hide ReadersRest; hide WritersRest; hide BuilderOk;
    assert BuilderOk(NewBuilder(p.name), st.table.open) by { FreshBuilder(p.name, st.table.open); }
    RestPlugs(o, p.rest, NewBuilder(p.name), inside, piped, st, k);
  }

  lemma FreshBuilder(name: string, open: set<int>)
    ensures BuilderOk(NewBuilder(name), open)
  {
  }

  lemma {:induction false} RestPlugs(o: Oracle, r: Rest, b: Builder, inside: bool, piped: bool, st: State, k: nat)
    requires BuilderOk(b, st.table.open)
    requires RunRest(o, r, b, inside, piped, st).Some?
    requires k < SizeRest(r)
    ensures var now := RunRest(o, r, b, inside, piped, st).value.state;
            var a, me := |st.store|, |st.store| + SizeRest(r);
            && |st.pipes| + k < |now.pipes|
            && Plugged(now.store, now.pipes[|st.pipes| + k], ReadersRest(r, a, me)[k], WritersRest(r, a, me)[k])
    decreases r, 2
  {
    hide RunRest; hide RunPipeline; hide Fresh; hide NewPipe; hide Plugged; hide BuilderOk; hide Settled; hide Size;
    hide Reopened; hide StreamOf; hide IsRedirection; hide WithFd; hide Readers; hide Writers; hide LastId;
    match r
    case Done =>
      assert false;
    case Arg(w, s) =>
      RunArg(o, w, s, b, inside, piped, st);
      SameFds(b, b.(argv := b.argv + [Text(w)]), st.table.open);
      RestPlugs(o, s, b.(argv := b.argv + [Text(w)]), inside, piped, st, k);
    case Redirect(op, file, s) => RedirectPlugs(o, op, file, s, b, inside, piped, st, k);
    case Substitute(body, s) => SubstitutePlugs(o, body, s, b, inside, piped, st, k);
    case PipeTo(next) => PipeToPlugs(o, next, b, inside, piped, st, k);
  }

  lemma {:induction false} RedirectPlugs(o: Oracle, op: string, file: string, s: Rest, b: Builder, inside: bool,
                                         piped: bool, st: State, k: nat)
    requires BuilderOk(b, st.table.open)
    requires RunRest(o, Redirect(op, file, s), b, inside, piped, st).Some?
    requires k < SizeRest(s)
    ensures var now := RunRest(o, Redirect(op, file, s), b, inside, piped, st).value.state;
            var a, me := |st.store|, |st.store| + SizeRest(s);
            && |st.pipes| + k < |now.pipes|
            && Plugged(now.store, now.pipes[|st.pipes| + k], ReadersRest(s, a, me)[k], WritersRest(s, a, me)[k])
    decreases Redirect(op, file, s), 0
  {
    hide RunRest; hide RunPipeline; hide Fresh; hide Plugged; hide BuilderOk; hide Settled; hide Reopened;
    hide StreamOf; hide IsRedirection; hide WithFd; hide ReadersRest; hide WritersRest; hide SizeRest;
    RunRedirect(o, op, file, s, b, inside, piped, st);
    RedirectSettles(o, b, op, file, st.table);
    RestPlugs(o, s, WithFd(b, StreamOf(op), Fresh(o, st.table)), inside, piped,
              st.(table := Reopened(o, st.table, b, op, file)), k);
  }

  lemma {:induction false} PipeToPlugs(o: Oracle, next: Pipeline, b: Builder, inside: bool, piped: bool, st: State,
                                       k: nat)
    requires RunRest(o, PipeTo(next), b, inside, piped, st).Some?
    requires k < Size(next)
    ensures var now := RunRest(o, PipeTo(next), b, inside, piped, st).value.state;
            var a, me := |st.store|, |st.store| + Size(next);
            && |st.pipes| + k < |now.pipes|
            && Plugged(now.store, now.pipes[|st.pipes| + k],
                       (Readers(next, a) + [FirstId(next, a)])[k], (Writers(next, a) + [me])[k])
    decreases PipeTo(next), 0
  {
    hide RunRest; hide RunPipeline; hide Fresh; hide NewPipe; hide Plugged; hide Size; hide Readers; hide Writers;
    hide LastId;
    RunPipeTo(o, next, b, inside, piped, st);
    var parsed := RunPipeline(o, next, inside, true, st).value;
    PipelineSizes(o, next, inside, true, st);
    var ps, cs := PipelineLedger(o, next, inside, true, st);
    var pipe := NewPipe(o, parsed.state.table);
    var mid := WithNext(o, parsed, inside);
    var c := AfterNext(b, pipe, |parsed.state.pipes|);
    if k < Size(next) - 1 {
      PipelinePlugs(o, next, inside, true, st, k);
      var p := parsed.state.pipes[|st.pipes| + k];
      var reader, writer := Readers(next, |st.store|)[k], Writers(next, |st.store|)[k];
      PluggedAfterNext(o, parsed, inside, p, reader, writer);
      PluggedLater(mid.store, Finish(c, mid).store, p, reader, writer);
    } else {
      LinkPlugs(o, parsed, b, inside);
    }
  }

  lemma LinkPlugs(o: Oracle, parsed: Parsed, b: Builder, inside: bool)
    requires parsed.last < |parsed.state.store|
    ensures var pipe := NewPipe(o, parsed.state.table);
            var now := Finish(AfterNext(b, pipe, |parsed.state.pipes|), WithNext(o, parsed, inside));
            Plugged(now.store, pipe, First(parsed), |parsed.state.store|)
  {
  }

  /** The substitution's own pipe. */
  lemma {:induction false} SubstitutePlugs(o: Oracle, body: Pipeline, s: Rest, b: Builder, inside: bool, piped: bool,
                                           st: State, k: nat)
    requires BuilderOk(b, st.table.open)
    requires RunRest(o, Substitute(body, s), b, inside, piped, st).Some?
    requires k < Size(body) + SizeRest(s)
    ensures var now := RunRest(o, Substitute(body, s), b, inside, piped, st).value.state;
            var a, me := |st.store|, |st.store| + Size(body) + SizeRest(s);
            && |st.pipes| + k < |now.pipes|
            && Plugged(now.store, now.pipes[|st.pipes| + k],
                       ([me] + Readers(body, a) + ReadersRest(s, a + Size(body), me))[k],
                       ([LastId(body, a)] + Writers(body, a) + WritersRest(s, a + Size(body), me))[k])
    decreases Substitute(body, s), 1
  {
    hide RunRest; hide Plugged; hide Size; hide SizeRest; hide LastId; hide Readers; hide Writers; hide ReadersRest;
    hide WritersRest; hide BuilderOk;
    if k == 0 {
      OwnPipePlugs(o, body, s, b, inside, piped, st, k);
    } else if k < Size(body) {
      BodyPlugs(o, body, s, b, inside, piped, st, k);
    } else {
      LaterPlugs(o, body, s, b, inside, piped, st, k);
    }
  }

  lemma {:induction false} OwnPipePlugs(o: Oracle, body: Pipeline, s: Rest, b: Builder, inside: bool, piped: bool,
                                        st: State, k: nat)
    requires BuilderOk(b, st.table.open)
    requires RunRest(o, Substitute(body, s), b, inside, piped, st).Some?
    requires k == 0
    ensures var now := RunRest(o, Substitute(body, s), b, inside, piped, st).value.state;
            var a, me := |st.store|, |st.store| + Size(body) + SizeRest(s);
            && |st.pipes| + k < |now.pipes|
            && Plugged(now.store, now.pipes[|st.pipes| + k],
                       ([me] + Readers(body, a) + ReadersRest(s, a + Size(body), me))[k],
                       ([LastId(body, a)] + Writers(body, a) + WritersRest(s, a + Size(body), me))[k])
    decreases Substitute(body, s), 0
  {
    hide RunRest; hide RunPipeline; hide Fresh; hide NewPipe; hide Plugged; hide Size; hide SizeRest; hide LastId;
    hide Readers; hide Writers; hide ReadersRest; hide WritersRest; hide BuilderOk; hide Settled; hide Books;
    var a, q, me := |st.store|, |st.pipes|, |st.store| + Size(body) + SizeRest(s);
    var pipe := NewPipe(o, st.table);
    RunSubstitute(o, body, s, b, inside, piped, st);
    PipelineSizes(o, body, true, false, WithPipe(o, st));
    var parsed := RunPipeline(o, body, true, false, WithPipe(o, st)).value;
    var mid := WithBody(parsed, pipe, q);
    RestSizes(o, s, AfterBody(b, pipe, q), inside, piped, mid);
    var now := RunRest(o, Substitute(body, s), b, inside, piped, st).value.state;
    assert mid.pipes[q] == pipe && mid.pipes <= now.pipes && mid.store <= now.store;
    RestArgs(o, s, AfterBody(b, pipe, q), inside, piped, mid, now.pipes, me);
    assert DevFd(pipe.readEnd) in AfterBody(b, pipe, q).argv;
    BodyPipePlugs(now.store, mid.store, parsed, pipe, q, me);
  }

  /** The pipes of its body. */
  lemma {:induction false} BodyPlugs(o: Oracle, body: Pipeline, s: Rest, b: Builder, inside: bool, piped: bool,
                                     st: State, k: nat)
    requires BuilderOk(b, st.table.open)
    requires RunRest(o, Substitute(body, s), b, inside, piped, st).Some?
    requires 0 < k < Size(body)
    ensures var now := RunRest(o, Substitute(body, s), b, inside, piped, st).value.state;
            var a, me := |st.store|, |st.store| + Size(body) + SizeRest(s);
            && |st.pipes| + k < |now.pipes|
            && Plugged(now.store, now.pipes[|st.pipes| + k],
                       ([me] + Readers(body, a) + ReadersRest(s, a + Size(body), me))[k],
                       ([LastId(body, a)] + Writers(body, a) + WritersRest(s, a + Size(body), me))[k])
    decreases Substitute(body, s), 0
  {
    hide RunRest; hide RunPipeline; hide Fresh; hide NewPipe; hide Plugged; hide Size; hide SizeRest; hide LastId;
    hide Readers; hide Writers; hide ReadersRest; hide WritersRest; hide BuilderOk; hide Settled; hide Books;
    var a, q, me := |st.store|, |st.pipes|, |st.store| + Size(body) + SizeRest(s);
    var pipe := NewPipe(o, st.table);
    RunSubstitute(o, body, s, b, inside, piped, st);
    PipelineSizes(o, body, true, false, WithPipe(o, st));
    var parsed := RunPipeline(o, body, true, false, WithPipe(o, st)).value;
    var mid := WithBody(parsed, pipe, q);
    RestSizes(o, s, AfterBody(b, pipe, q), inside, piped, mid);
    var now := RunRest(o, Substitute(body, s), b, inside, piped, st).value.state;
    assert mid.pipes[q] == pipe && mid.pipes <= now.pipes && mid.store <= now.store;
    PipelinePlugs(o, body, true, false, WithPipe(o, st), k - 1);
    var p, reader, writer := parsed.state.pipes[q + k], Readers(body, a)[k - 1], Writers(body, a)[k - 1];
    PluggedAfterBody(parsed, pipe, q, p, reader, writer);
    PluggedLater(mid.store, now.store, p, reader, writer);
    assert now.pipes[q + k] == p;
  }

  /** The pipes behind it. */
  lemma {:induction false} LaterPlugs(o: Oracle, body: Pipeline, s: Rest, b: Builder, inside: bool, piped: bool,
                                      st: State, k: nat)
    requires BuilderOk(b, st.table.open)
    requires RunRest(o, Substitute(body, s), b, inside, piped, st).Some?
    requires Size(body) <= k < Size(body) + SizeRest(s)
    ensures var now := RunRest(o, Substitute(body, s), b, inside, piped, st).value.state;
            var a, me := |st.store|, |st.store| + Size(body) + SizeRest(s);
            && |st.pipes| + k < |now.pipes|
            && Plugged(now.store, now.pipes[|st.pipes| + k],
                       ([me] + Readers(body, a) + ReadersRest(s, a + Size(body), me))[k],
                       ([LastId(body, a)] + Writers(body, a) + WritersRest(s, a + Size(body), me))[k])
    decreases Substitute(body, s), 0
  {
    hide RunRest; hide RunPipeline; hide Fresh; hide NewPipe; hide Plugged; hide Size; hide SizeRest; hide LastId;
    hide Readers; hide Writers; hide ReadersRest; hide WritersRest; hide BuilderOk; hide Settled; hide Books;
    var a, q, me := |st.store|, |st.pipes|, |st.store| + Size(body) + SizeRest(s);
    var pipe := NewPipe(o, st.table);
    RunSubstitute(o, body, s, b, inside, piped, st);
    PipelineSizes(o, body, true, false, WithPipe(o, st));
    var parsed := RunPipeline(o, body, true, false, WithPipe(o, st)).value;
    var mid := WithBody(parsed, pipe, q);
    RestSizes(o, s, AfterBody(b, pipe, q), inside, piped, mid);
    var now := RunRest(o, Substitute(body, s), b, inside, piped, st).value.state;
    assert mid.pipes[q] == pipe && mid.pipes <= now.pipes && mid.store <= now.store;
    var ps0, cs0 := PipelineLedger(o, body, true, false, WithPipe(o, st));
    var ps1, cs1 := BodyLedger(o, b, st, parsed, ps0, cs0);
    SameFds(b, AfterBody(b, pipe, q), mid.table.open);
    RestPlugs(o, s, AfterBody(b, pipe, q), inside, piped, mid, k - Size(body));
  }

  lemma BodyPipePlugs(store: seq<Call>, mid: seq<Call>, parsed: Parsed, pipe: Pipe, q: nat, me: nat)
    requires pipe.readEnd > 2 && pipe.writeEnd > 2
    requires parsed.last < |parsed.state.store| && mid == WithBody(parsed, pipe, q).store && mid <= store
    requires me < |store| && DevFd(pipe.readEnd) in store[me].argv
    ensures Plugged(store, pipe, me, parsed.last)
  {
  }
}
