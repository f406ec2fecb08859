/** What the parser builds is the flow computed from the tree: each call's lists of pipes, its
    standard streams and its arguments. */
module Wiring {
  import opened Descriptors
  import opened Syntax
  import opened Commands
  import opened PipeTree

  predicate Sized(st: State, now: State, size: nat) {
    && |now.store| == |st.store| + size + 1 && |now.pipes| == |st.pipes| + size
    && st.store <= now.store && st.pipes <= now.pipes
  }

  lemma {:induction false} PipelineSizes(o: Oracle, p: Pipeline, inside: bool, piped: bool, st: State)
    requires RunPipeline(o, p, inside, piped, st).Some?
    ensures var r := RunPipeline(o, p, inside, piped, st).value;
            Sized(st, r.state, Size(p) - 1) && r.last == LastId(p, |st.store|)
    decreases p
  {
    hide RunRest;
    RestSizes(o, p.rest, NewBuilder(p.name), inside, piped, st);
  }

  lemma {:induction false} RestSizes(o: Oracle, r: Rest, b: Builder, inside: bool, piped: bool, st: State)
    requires RunRest(o, r, b, inside, piped, st).Some?
    ensures var res := RunRest(o, r, b, inside, piped, st).value;
            && Sized(st, res.state, SizeRest(r))
            && res.last == LastIdRest(r, |st.store|, |st.store| + SizeRest(r))
    decreases r, 1
  {
    hide RunRest; hide RunPipeline; hide Fresh; hide NewPipe; hide Size; hide LastId; hide CloseIfOpened; hide WithFd;
    hide Piped; hide Redirected; hide Linked; hide AfterBody; hide AfterNext; hide Opened; hide BuildCall;
    match r
    case Done =>
      RunDone(o, b, inside, piped, st);
    case Arg(w, s) =>
      RunArg(o, w, s, b, inside, piped, st);
      RestSizes(o, s, b.(argv := b.argv + [Text(w)]), inside, piped, st);
    case Redirect(op, file, s) =>
      RunRedirect(o, op, file, s, b, inside, piped, st);
      RestSizes(o, s, WithFd(b, StreamOf(op), Fresh(o, st.table)), inside, piped,
                st.(table := Reopened(o, st.table, b, op, file)));
    case Substitute(body, s) => SubstituteSizes(o, body, s, b, inside, piped, st);
    case PipeTo(next) =>
      RunPipeTo(o, next, b, inside, piped, st);
      PipelineSizes(o, next, inside, true, st);
  }

  lemma {:induction false} SubstituteSizes(o: Oracle, body: Pipeline, s: Rest, b: Builder, inside: bool, piped: bool,
                                           st: State)
    requires RunRest(o, Substitute(body, s), b, inside, piped, st).Some?
    ensures var res := RunRest(o, Substitute(body, s), b, inside, piped, st).value;
            && Sized(st, res.state, SizeRest(Substitute(body, s)))
            && res.last == LastIdRest(Substitute(body, s), |st.store|, |st.store| + SizeRest(Substitute(body, s)))
    decreases Substitute(body, s), 0
  {
    hide RunRest; hide RunPipeline; hide Fresh; hide NewPipe; hide Size; hide LastId; hide Piped; hide Redirected;
    hide AfterBody;
    RunSubstitute(o, body, s, b, inside, piped, st);
    PipelineSizes(o, body, true, false, WithPipe(o, st));
    var parsed := RunPipeline(o, body, true, false, WithPipe(o, st)).value;
    var pipe, q := NewPipe(o, st.table), |st.pipes|;
    RestSizes(o, s, AfterBody(b, pipe, q), inside, piped, WithBody(parsed, pipe, q));
  }

  /** Call `id` reads and writes the pipes, numbered from `q`, that the flow gives it, after
      those it had before. */
  predicate Wired(c: Call, reading: seq<nat>, writing: seq<nat>, rs: seq<nat>, ws: seq<nat>, q: nat, id: nat) {
    && c.reading == reading + Positions(rs, q, id)
    && c.writing == writing + Positions(ws, q, id)
  }

  /** A call of a substitution, once its last stage has been given the substitution's pipe. */
  lemma BodyCallWired(c: Call, d: Call, body: Pipeline, s: Rest, a: nat, q: nat, me: nat, id: nat)
    requires a <= id < a + Size(body) && me >= a + Size(body) + SizeRest(s)
    requires Wired(c, [], [], Readers(body, a), Writers(body, a), q + 1, id)
    requires d.reading == c.reading
    requires d.writing == c.writing + if id == LastId(body, a) then [q] else []
    ensures Wired(d, [], [], [me] + Readers(body, a) + ReadersRest(s, a + Size(body), me),
                  [LastId(body, a)] + Writers(body, a) + WritersRest(s, a + Size(body), me), q, id)
  {
    hide Positions; hide Readers; hide Writers; hide ReadersRest; hide WritersRest; hide Size; hide SizeRest;
    hide LastId;
    PositionsAround(me, Readers(body, a), ReadersRest(s, a + Size(body), me), q, id);
    PositionsAround(LastId(body, a), Writers(body, a), WritersRest(s, a + Size(body), me), q, id);
    NoFlowOutsideRest(s, a + Size(body), me, q + Size(body), id);
    WritesOnce(body, a, q + 1, id);
  }

  /** A call built after a substitution; the enclosing stage reads the substitution's pipe. */
  lemma LaterCallWired(c: Call, reading: seq<nat>, writing: seq<nat>, body: Pipeline, s: Rest, a: nat, q: nat, me: nat,
                       id: nat)
    requires a + Size(body) <= id && me >= a + Size(body) + SizeRest(s)
    requires Wired(c, reading + if id == me then [q] else [], writing,
                   ReadersRest(s, a + Size(body), me), WritersRest(s, a + Size(body), me), q + Size(body), id)
    ensures Wired(c, reading, writing, [me] + Readers(body, a) + ReadersRest(s, a + Size(body), me),
                  [LastId(body, a)] + Writers(body, a) + WritersRest(s, a + Size(body), me), q, id)
  {
    hide Positions; hide Readers; hide Writers; hide ReadersRest; hide WritersRest; hide Size; hide SizeRest;
    hide LastId;
    NoFlowOutside(body, a, q + 1, id);
    PastBody(c.reading, reading, me, Readers(body, a), ReadersRest(s, a + Size(body), me), q, id);
    assert writing + [] == writing && LastId(body, a) != id;
    PastBody(c.writing, writing, LastId(body, a), Writers(body, a), WritersRest(s, a + Size(body), me), q, id);
  }

  /** A call that no pipe of the body concerns. */
  lemma PastBody(list: seq<nat>, before: seq<nat>, x: nat, ys: seq<nat>, zs: seq<nat>, q: nat, id: nat)
    requires Positions(ys, q + 1, id) == []
    requires list == before + (if x == id then [q] else []) + Positions(zs, q + 1 + |ys|, id)
    ensures list == before + Positions([x] + ys + zs, q, id)
  {
    hide Positions;
    PositionsAround(x, ys, zs, q, id);
    var own, rest := if x == id then [q] else [], Positions(zs, q + 1 + |ys|, id);
    assert before + own + rest == before + (own + [] + rest);
  }

  /** A call on the right of a `|`; the stage next to it is given the link to read. */
  lemma NextCallWired(c: Call, d: Call, next: Pipeline, a: nat, q: nat, me: nat, id: nat)
    requires id != me
    requires Wired(c, [], [], Readers(next, a), Writers(next, a), q, id)
    requires d.writing == c.writing
    requires d.reading == c.reading + if id == FirstId(next, a) then [q + Size(next) - 1] else []
    ensures Wired(d, [], [], Readers(next, a) + [FirstId(next, a)], Writers(next, a) + [me], q, id)
  {
    hide Positions; hide Readers; hide Writers;
    PositionsBefore(Readers(next, a), FirstId(next, a), q, id);
    PositionsBefore(Writers(next, a), me, q, id);
  }

  /** The stage on the left of a `|` writes the link. */
  lemma OwnCallWired(c: Call, reading: seq<nat>, writing: seq<nat>, next: Pipeline, a: nat, q: nat)
    requires c.reading == reading && c.writing == writing + [q + Size(next) - 1]
    ensures var me := a + Size(next);
            Wired(c, reading, writing, Readers(next, a) + [FirstId(next, a)], Writers(next, a) + [me], q, me)
  {
    hide Positions; hide Readers; hide Writers; hide Size;
    var me := a + Size(next);
    PositionsBefore(Readers(next, a), FirstId(next, a), q, me);
    PositionsBefore(Writers(next, a), me, q, me);
    NoFlowOutside(next, a, q, me);
    assert reading + ([] + []) == reading;
  }

  lemma {:induction false} PipelineWiring(o: Oracle, p: Pipeline, inside: bool, piped: bool, st: State, id: nat)
    requires RunPipeline(o, p, inside, piped, st).Some?
    requires |st.store| <= id < |st.store| + Size(p)
    ensures var store := RunPipeline(o, p, inside, piped, st).value.state.store;
            && id < |store|
            && Wired(store[id], [], [], Readers(p, |st.store|), Writers(p, |st.store|), |st.pipes|, id)
    decreases p
  {
    hide RunRest; hide Positions;
    RestWiring(o, p.rest, NewBuilder(p.name), inside, piped, st, id);
  }

  lemma {:induction false} RestWiring(o: Oracle, r: Rest, b: Builder, inside: bool, piped: bool, st: State, id: nat)
    requires RunRest(o, r, b, inside, piped, st).Some?
    requires |st.store| <= id <= |st.store| + SizeRest(r)
    ensures var store := RunRest(o, r, b, inside, piped, st).value.state.store;
            var a, q, me := |st.store|, |st.pipes|, |st.store| + SizeRest(r);
            && id < |store|
            && Wired(store[id], if id == me then b.reading else [], if id == me then b.writing else [],
                     ReadersRest(r, a, me), WritersRest(r, a, me), q, id)
    decreases r, 1
  {
    hide RunRest; hide RunPipeline; hide Fresh; hide NewPipe; hide Positions; hide Readers; hide Writers; hide Size;
    hide LastId;
    match r
    case Done =>
      RunDone(o, b, inside, piped, st);
      NoneInEmpty(|st.pipes|, id);
    case Arg(w, s) =>
      RunArg(o, w, s, b, inside, piped, st);
      RestWiring(o, s, b.(argv := b.argv + [Text(w)]), inside, piped, st, id);
    case Redirect(op, file, s) =>
      RunRedirect(o, op, file, s, b, inside, piped, st);
      RestWiring(o, s, WithFd(b, StreamOf(op), Fresh(o, st.table)), inside, piped,
                 st.(table := Reopened(o, st.table, b, op, file)), id);
    case Substitute(body, s) => SubstituteWiring(o, body, s, b, inside, piped, st, id);
    case PipeTo(next) => PipeToWiring(o, next, b, inside, piped, st, id);
  }


  lemma {:induction false} SubstituteWiring(o: Oracle, body: Pipeline, s: Rest, b: Builder, inside: bool, piped: bool,
                                            st: State, id: nat)
    requires RunRest(o, Substitute(body, s), b, inside, piped, st).Some?
    requires |st.store| <= id <= |st.store| + Size(body) + SizeRest(s)
    ensures var store := RunRest(o, Substitute(body, s), b, inside, piped, st).value.state.store;
            var a, q, me := |st.store|, |st.pipes|, |st.store| + Size(body) + SizeRest(s);
            && id < |store|
            && Wired(store[id], if id == me then b.reading else [], if id == me then b.writing else [],
                     [me] + Readers(body, a) + ReadersRest(s, a + Size(body), me),
                     [LastId(body, a)] + Writers(body, a) + WritersRest(s, a + Size(body), me), q, id)
    decreases Substitute(body, s), 0
  {
    hide RunRest; hide RunPipeline; hide Fresh; hide NewPipe; hide Wired; hide Readers; hide Writers; hide ReadersRest;
    hide WritersRest; hide LastId;
    var a, q, me := |st.store|, |st.pipes|, |st.store| + Size(body) + SizeRest(s);
    var pipe := NewPipe(o, st.table);
    RunSubstitute(o, body, s, b, inside, piped, st);
    PipelineSizes(o, body, true, false, WithPipe(o, st));
    var parsed := RunPipeline(o, body, true, false, WithPipe(o, st)).value;
    var mid := WithBody(parsed, pipe, q);
    RestSizes(o, s, AfterBody(b, pipe, q), inside, piped, mid);
    if id < a + Size(body) {
      PipelineWiring(o, body, true, false, WithPipe(o, st), id);
      BodyCallWired(parsed.state.store[id], mid.store[id], body, s, a, q, me, id);
    } else {
      RestWiring(o, s, AfterBody(b, pipe, q), inside, piped, mid, id);
      var c := RunRest(o, Substitute(body, s), b, inside, piped, st).value.state.store[id];
      var reading := if id == me then b.reading else [];
      assert reading + (if id == me then [q] else []) == if id == me then b.reading + [q] else [];
      LaterCallWired(c, reading, if id == me then b.writing else [], body, s, a, q, me, id);
    }
  }

  lemma {:induction false} PipeToWiring(o: Oracle, next: Pipeline, b: Builder, inside: bool, piped: bool, st: State,
                                        id: nat)
    requires RunRest(o, PipeTo(next), b, inside, piped, st).Some?
    requires |st.store| <= id <= |st.store| + Size(next)
    ensures var store := RunRest(o, PipeTo(next), b, inside, piped, st).value.state.store;
            var a, q, me := |st.store|, |st.pipes|, |st.store| + Size(next);
            && id < |store|
            && Wired(store[id], if id == me then b.reading else [], if id == me then b.writing else [],
                     Readers(next, a) + [FirstId(next, a)], Writers(next, a) + [me], q, id)
    decreases PipeTo(next), 0
  {
    hide RunRest; hide RunPipeline; hide Fresh; hide NewPipe; hide Wired; hide Readers; hide Writers;
    var a, q, me := |st.store|, |st.pipes|, |st.store| + Size(next);
    RunPipeTo(o, next, b, inside, piped, st);
    PipelineSizes(o, next, inside, true, st);
    var parsed := RunPipeline(o, next, inside, true, st).value;
    var c := RunRest(o, PipeTo(next), b, inside, piped, st).value.state.store[id];
    if id < me {
      PipelineWiring(o, next, inside, true, st, id);
      NextCallWired(parsed.state.store[id], c, next, a, q, me, id);
    } else {
      OwnCallWired(c, b.reading, b.writing, next, a, q);
    }
  }
}
