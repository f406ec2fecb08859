/** Who owns which descriptor after parsing.  A ledger says that the open descriptors are those
    of before plus both ends of every new pipe plus the redirected streams of every new call,
    that nothing new was open before, and that no two owners share a descriptor. */
module Ledger {
  import opened Descriptors
  import opened Syntax
  import opened Commands

  function CallFds(c: Call): set<int> {
    Above({c.stdin, c.stdout, c.stderr})
  }

  function BuilderFds(b: Builder): set<int> {
    Above({b.stdin, b.stdout, b.stderr})
  }

  function CallsFds(cs: seq<Call>): set<int> {
    if cs == [] then {} else CallsFds(cs[..|cs| - 1]) + CallFds(cs[|cs| - 1])
  }

  /** No two calls hold the same redirected descriptor. */
  predicate SeparateCalls(cs: seq<Call>) {
    cs == [] || (SeparateCalls(cs[..|cs| - 1]) && CallsFds(cs[..|cs| - 1]) !! CallFds(cs[|cs| - 1]))
  }

  predicate SeparatePipes(ps: seq<Pipe>) {
    ps == [] ||
    (var p := ps[|ps| - 1];
     && SeparatePipes(ps[..|ps| - 1]) && Ends(ps[..|ps| - 1]) !! PipeEnds(p)
     && p.readEnd != p.writeEnd && p.readEnd > 2 && p.writeEnd > 2)
  }

  lemma CallsFdsSnoc(cs: seq<Call>, c: Call)
    ensures CallsFds(cs + [c]) == CallsFds(cs) + CallFds(c)
    ensures SeparateCalls(cs + [c]) <==> SeparateCalls(cs) && CallsFds(cs) !! CallFds(c)
  {
    assert (cs + [c])[..|cs|] == cs;
  }

  lemma {:induction false} CallsFdsOfConcat(cs: seq<Call>, ds: seq<Call>)
    ensures CallsFds(cs + ds) == CallsFds(cs) + CallsFds(ds)
    ensures SeparateCalls(cs) && SeparateCalls(ds) && CallsFds(cs) !! CallsFds(ds) ==> SeparateCalls(cs + ds)
  {
    if ds == [] {
      assert cs + ds == cs;
    } else {
      var n := |ds| - 1;
      CallsFdsOfConcat(cs, ds[..n]);
      CallsFdsSnoc(cs + ds[..n], ds[n]);
      assert cs + ds[..n] + [ds[n]] == cs + ds;
    }
  }

  lemma {:induction false} SeparatePipesOfConcat(ps: seq<Pipe>, qs: seq<Pipe>)
    requires SeparatePipes(ps) && SeparatePipes(qs) && Ends(ps) !! Ends(qs)
    ensures SeparatePipes(ps + qs)
  {
    if qs == [] {
      assert ps + qs == ps;
    } else {
      var n := |qs| - 1;
      SeparatePipesOfConcat(ps, qs[..n]);
      EndsOfConcat(ps, qs[..n]);
      assert (ps + qs)[..|ps| + n] == ps + qs[..n];
    }
  }

  /** One call of a list takes over a descriptor that no call of the list holds. */
  lemma {:induction false} CallsFdsUpdate(cs: seq<Call>, k: nat, c: Call, fd: int)
    requires k < |cs| && SeparateCalls(cs)
    requires fd !in CallsFds(cs) && CallFds(c) == CallFds(cs[k]) + {fd}
    ensures SeparateCalls(cs[k := c]) && CallsFds(cs[k := c]) == CallsFds(cs) + {fd}
  {
    var n := |cs| - 1;
    if k == n {
      assert cs[k := c] == cs[..n] + [c];
      CallsFdsSnoc(cs[..n], c);
    } else {
      CallsFdsUpdate(cs[..n], k, c, fd);
      assert cs[k := c] == cs[..n][k := c] + [cs[n]];
      CallsFdsSnoc(cs[..n][k := c], cs[n]);
    }
  }

  lemma {:induction false} CallsFdsMember(cs: seq<Call>, i: nat)
    requires i < |cs|
    ensures CallFds(cs[i]) <= CallsFds(cs)
  {
    if i < |cs| - 1 {
      CallsFdsMember(cs[..|cs| - 1], i);
    }
  }

  predicate Books(base: set<int>, ps: seq<Pipe>, cs: seq<Call>, open: set<int>) {
    && open == base + Ends(ps) + CallsFds(cs)
    && base !! Ends(ps) && base !! CallsFds(cs)
    && SeparateCalls(cs) && SeparatePipes(ps)
  }

  lemma LedgerCompose(base: set<int>, ps: seq<Pipe>, cs: seq<Call>, mid: set<int>, qs: seq<Pipe>, ds: seq<Call>,
                      open: set<int>)
    requires Books(base, ps, cs, mid) && Books(mid, qs, ds, open)
    ensures Books(base, ps + qs, cs + ds, open)
  {
    EndsOfConcat(ps, qs);
    CallsFdsOfConcat(cs, ds);
    SeparatePipesOfConcat(ps, qs);
  }

  lemma LedgerPipe(base: set<int>, ps: seq<Pipe>, cs: seq<Call>, o: Oracle, t: Table)
    requires Books(base, ps, cs, t.open)
    ensures Books(base, ps + [NewPipe(o, t)], cs, Piped(o, t).open)
  {
    var p := NewPipe(o, t);
    EndsSnoc(ps, p);
    assert (ps + [p])[..|ps|] == ps;
  }

  /** One call takes over an end of a pipe that is on the books and that no other call holds. */
  lemma LedgerAssign(base: set<int>, ps: seq<Pipe>, cs: seq<Call>, open: set<int>, k: nat, c: Call, fd: int)
    requires Books(base, ps, cs, open) && k < |cs|
    requires fd in Ends(ps) && fd !in CallsFds(cs)
    requires CallFds(c) == CallFds(cs[k]) + {fd}
    ensures Books(base, ps, cs[k := c], open)
    ensures CallsFds(cs[k := c]) == CallsFds(cs) + {fd}
  {
    CallsFdsUpdate(cs, k, c, fd);
  }

  /** The builder's streams are untouched or hold distinct open descriptors. */
  predicate BuilderOk(b: Builder, open: set<int>) {
    && (b.stdin == UNINITIALIZED_FD || (b.stdin > 2 && b.stdin in open))
    && (b.stdout == UNINITIALIZED_FD || (b.stdout > 2 && b.stdout in open))
    && (b.stderr == UNINITIALIZED_FD || (b.stderr > 2 && b.stderr in open))
    && (b.stdin == UNINITIALIZED_FD || (b.stdin != b.stdout && b.stdin != b.stderr))
    && (b.stdout == UNINITIALIZED_FD || b.stdout != b.stderr)
  }

  /** What is open and not held by the call under construction. */
  function Settled(b: Builder, open: set<int>): set<int> {
    open - BuilderFds(b)
  }

  lemma BuildKeepsFds(b: Builder, open: set<int>)
    requires BuilderOk(b, open)
    ensures CallFds(BuildCall(b)) == BuilderFds(b) <= open
  {
  }

  lemma LedgerFinish(b: Builder, base: set<int>, ps: seq<Pipe>, cs: seq<Call>, open: set<int>)
    requires BuilderOk(b, open) && Books(base, ps, cs, Settled(b, open))
    ensures Books(base, ps, cs + [BuildCall(b)], open)
  {
    BuildKeepsFds(b, open);
    assert open == Settled(b, open) + BuilderFds(b);
    CallsFdsSnoc(cs, BuildCall(b));
  }

  lemma LedgerSettle(b: Builder, base: set<int>, ps: seq<Pipe>, cs: seq<Call>, open: set<int>)
    requires Books(base, ps, cs, open) && BuilderFds(b) <= base
    ensures Books(Settled(b, base), ps, cs, Settled(b, open))
  {
  }

  lemma RedirectSettles(o: Oracle, b: Builder, op: string, file: string, t: Table)
    requires BuilderOk(b, t.open) && IsRedirection(op)
    ensures var c := WithFd(b, StreamOf(op), Fresh(o, t));
            var u := Reopened(o, t, b, op, file);
            BuilderOk(c, u.open) && Settled(c, u.open) == Settled(b, t.open)
  {
  }

  /** `later` adds the pipes `ps` and the calls `cs` to `st`, and their ledger over `base` holds. */
  predicate Adds(base: set<int>, st: State, ps: seq<Pipe>, cs: seq<Call>, later: State, open: set<int>) {
    && later.pipes == st.pipes + ps
    && later.store == st.store + cs
    && Books(base, ps, cs, open)
  }

  lemma AddsCompose(base: set<int>, st: State, ps: seq<Pipe>, cs: seq<Call>, mid: State, midOpen: set<int>,
                    qs: seq<Pipe>, ds: seq<Call>, later: State, open: set<int>)
    requires Adds(base, st, ps, cs, mid, midOpen) && Adds(midOpen, mid, qs, ds, later, open)
    ensures Adds(base, st, ps + qs, cs + ds, later, open)
  {
    LedgerCompose(base, ps, cs, midOpen, qs, ds, open);
    assert st.pipes + ps + qs == st.pipes + (ps + qs);
    assert st.store + cs + ds == st.store + (cs + ds);
  }

  lemma AddsOne(b: Builder, st: State)
    requires BuilderOk(b, st.table.open)
    ensures Adds(Settled(b, st.table.open), st, [], [BuildCall(b)], Finish(b, st), st.table.open)
  {
    LedgerFinish(b, Settled(b, st.table.open), [], [], st.table.open);
    assert [] + [BuildCall(b)] == [BuildCall(b)];
    assert st.pipes + [] == st.pipes;
  }

  /** A parsed pipeline owes exactly its pipes and its redirected streams. */
  lemma {:induction false} PipelineLedger(o: Oracle, p: Pipeline, inside: bool, piped: bool, st: State)
    returns (ps: seq<Pipe>, cs: seq<Call>)
    requires RunPipeline(o, p, inside, piped, st).Some?
    ensures var now := RunPipeline(o, p, inside, piped, st).value.state;
            && Adds(st.table.open, st, ps, cs, now, now.table.open)
            && cs != [] && (piped ==> cs[|cs| - 1].stdin == 0)
    decreases p
  {
    var b := NewBuilder(p.name);
    assert Settled(b, st.table.open) == st.table.open;
    ps, cs := RestLedger(o, p.rest, b, inside, piped, st);
  }

  lemma {:induction false} RestLedger(o: Oracle, r: Rest, b: Builder, inside: bool, piped: bool, st: State)
    returns (ps: seq<Pipe>, cs: seq<Call>)
    requires BuilderOk(b, st.table.open)
    requires RunRest(o, r, b, inside, piped, st).Some?
    ensures var now := RunRest(o, r, b, inside, piped, st).value.state;
            && Adds(Settled(b, st.table.open), st, ps, cs, now, now.table.open)
            && cs != [] && (piped ==> cs[|cs| - 1].stdin == 0)
    decreases r, 1
  {
    hide RunRest; hide RunPipeline; hide Fresh; hide NewPipe; hide BuilderOk; hide Settled; hide Books;
    match r
    case Done =>
      RunDone(o, b, inside, piped, st);
      ps, cs := [], [BuildCall(b)];
      AddsOne(b, st);
    case Arg(w, q) =>
      RunArg(o, w, q, b, inside, piped, st);
      SameFds(b, b.(argv := b.argv + [Text(w)]), st.table.open);
      ps, cs := RestLedger(o, q, b.(argv := b.argv + [Text(w)]), inside, piped, st);
    case Redirect(op, file, q) =>
      RunRedirect(o, op, file, q, b, inside, piped, st);
      var s := StreamOf(op);
      RedirectSettles(o, b, op, file, st.table);
      ps, cs := RestLedger(o, q, WithFd(b, s, Fresh(o, st.table)), inside, piped,
                           st.(table := Reopened(o, st.table, b, op, file)));
    case Substitute(_, _) =>
      ps, cs := SubstituteLedger(o, r, b, inside, piped, st);
    case PipeTo(next) =>
      RunPipeTo(o, next, b, inside, piped, st);
      var parsed := RunPipeline(o, next, inside, true, st).value;
      var ps0, cs0 := PipelineLedger(o, next, inside, true, st);
      ps, cs := NextLedger(o, b, st, parsed, inside, ps0, cs0);
  }

  lemma SameFds(b: Builder, c: Builder, open: set<int>)
    requires b.stdin == c.stdin && b.stdout == c.stdout && b.stderr == c.stderr
    ensures (BuilderOk(c, open) <==> BuilderOk(b, open)) && Settled(c, open) == Settled(b, open)
  {
  }

  lemma {:induction false} SubstituteLedger(o: Oracle, r: Rest, b: Builder, inside: bool, piped: bool, st: State)
    returns (ps: seq<Pipe>, cs: seq<Call>)
    requires r.Substitute? && BuilderOk(b, st.table.open)
    requires RunRest(o, r, b, inside, piped, st).Some?
    ensures var now := RunRest(o, r, b, inside, piped, st).value.state;
            && Adds(Settled(b, st.table.open), st, ps, cs, now, now.table.open)
            && cs != [] && (piped ==> cs[|cs| - 1].stdin == 0)
    decreases r, 0
  {
    hide RunRest; hide RunPipeline; hide Fresh; hide NewPipe; hide BuilderOk; hide Books; hide Settled;
    RunSubstitute(o, r.body, r.rest, b, inside, piped, st);
    var pipe, index := NewPipe(o, st.table), |st.pipes|;
    var parsed := RunPipeline(o, r.body, true, false, WithPipe(o, st)).value;
    var ps0, cs0 := PipelineLedger(o, r.body, true, false, WithPipe(o, st));
    var ps1, cs1 := BodyLedger(o, b, st, parsed, ps0, cs0);
    var mid := WithBody(parsed, pipe, index);
    SameFds(b, AfterBody(b, pipe, index), mid.table.open);
    var ps2, cs2 := RestLedger(o, r.rest, AfterBody(b, pipe, index), inside, piped, mid);
    ps, cs := ps1 + ps2, cs1 + cs2;
    var now := RunRest(o, r.rest, AfterBody(b, pipe, index), inside, piped, mid).value.state;
    AddsCompose(Settled(b, st.table.open), st, ps1, cs1, mid, Settled(b, mid.table.open),
                ps2, cs2, now, now.table.open);
  }

  /** The state after a substitution, given the ledger of its body. */
  lemma BodyLedger(o: Oracle, b: Builder, st: State, parsed: Parsed, ps: seq<Pipe>, cs: seq<Call>)
    returns (ps': seq<Pipe>, cs': seq<Call>)
    requires BuilderOk(b, st.table.open)
    requires Adds(Piped(o, st.table).open, WithPipe(o, st), ps, cs, parsed.state, parsed.state.table.open)
    requires |st.store| <= parsed.last < |parsed.state.store| && parsed.state.store[parsed.last].stdout == 1
    ensures var mid := WithBody(parsed, NewPipe(o, st.table), |st.pipes|);
            && Adds(Settled(b, st.table.open), st, ps', cs', mid, Settled(b, mid.table.open))
            && BuilderOk(b, mid.table.open)
  {
    var pipe := NewPipe(o, st.table);
    var base, open := st.table.open, parsed.state.table.open;
    var k := parsed.last - |st.store|;
    var c := Redirected(cs[k], pipe.writeEnd, |st.pipes|);
    ps', cs' := [pipe] + ps, cs[k := c];
    BodyBooks(o, st.table, ps, cs, open, k, c);
    LedgerSettle(b, base, ps', cs', open);
    assert (st.store + cs)[|st.store| + k := c] == st.store + cs';
    assert st.pipes + [pipe] + ps == st.pipes + ps';
    assert BuilderFds(b) <= base <= open;
  }

  lemma BodyBooks(o: Oracle, t: Table, ps: seq<Pipe>, cs: seq<Call>, open: set<int>, k: nat, c: Call)
    requires Books(Piped(o, t).open, ps, cs, open)
    requires k < |cs| && cs[k].stdout == 1
    requires c.stdin == cs[k].stdin && c.stderr == cs[k].stderr && c.stdout == NewPipe(o, t).writeEnd
    ensures Books(t.open, [NewPipe(o, t)] + ps, cs[k := c], open)
  {
    var pipe := NewPipe(o, t);
    LedgerPipe(t.open, [], [], o, t);
    assert [] + [pipe] == [pipe] && [] + cs == cs;
    LedgerCompose(t.open, [pipe], [], Piped(o, t).open, ps, cs, open);
    EndsMember([pipe] + ps, 0);
    assert CallFds(c) == CallFds(cs[k]) + {pipe.writeEnd};
    LedgerAssign(t.open, [pipe] + ps, cs, open, k, c, pipe.writeEnd);
  }

  /** The state after `|`, given the ledger of the stages on its right. */
  lemma NextLedger(o: Oracle, b: Builder, st: State, parsed: Parsed, inside: bool, ps: seq<Pipe>, cs: seq<Call>)
    returns (ps': seq<Pipe>, cs': seq<Call>)
    requires BuilderOk(b, st.table.open) && b.stdout == UNINITIALIZED_FD
    requires Adds(st.table.open, st, ps, cs, parsed.state, parsed.state.table.open)
    requires |st.store| <= parsed.last < |parsed.state.store| && cs != [] && cs[|cs| - 1].stdin == 0
    ensures var mid := WithNext(o, parsed, inside);
            var c := AfterNext(b, NewPipe(o, parsed.state.table), |parsed.state.pipes|);
            && BuilderOk(c, mid.table.open)
            && Adds(Settled(b, st.table.open), st, ps', cs', Finish(c, mid), mid.table.open)
            && cs' != [] && cs'[|cs'| - 1] == BuildCall(c)
  {
    var now := parsed.state;
    var pipe := NewPipe(o, now.table);
    var mid := WithNext(o, parsed, inside);
    var c := AfterNext(b, pipe, |now.pipes|);
    var base, open := st.table.open, mid.table.open;
    var k := |cs| - 1;
    var linked := Linked(cs[k], pipe.readEnd, |now.pipes|);
    ps' := ps + [pipe];
    var ds := cs[k := linked];
    LedgerPipe(base, ps, cs, o, now.table);
    EndsSnoc(ps, pipe);
    assert CallFds(linked) == CallFds(cs[k]) + {pipe.readEnd};
    LedgerAssign(base, ps', cs, open, k, linked, pipe.readEnd);
    LedgerSettle(b, base, ps', ds, open);
    assert Settled(b, open) == Settled(c, open) + {pipe.writeEnd};
    cs' := ds + [BuildCall(c)];
    StageLedger(b, c, base, ps', ds, open, pipe.writeEnd);
    assert (st.store + cs)[First(parsed) := linked] == st.store + ds;
  }

  /** Closing the books on a stage whose output is an end of a pipe nobody else holds. */
  lemma StageLedger(b: Builder, c: Builder, base: set<int>, ps: seq<Pipe>, cs: seq<Call>, open: set<int>, fd: int)
    requires BuilderOk(b, base) && b.stdout == UNINITIALIZED_FD
    requires Books(base, ps, cs, open)
    requires fd > 2 && fd in Ends(ps) && fd !in CallsFds(cs)
    requires c.stdin == b.stdin && c.stderr == b.stderr && c.stdout == fd
    ensures BuilderOk(c, open)
    ensures Books(Settled(b, base), ps, cs + [BuildCall(c)], open)
  {
    BuildKeepsFds(c, open);
    assert BuilderFds(c) == BuilderFds(b) + {fd};
    CallsFdsSnoc(cs, BuildCall(c));
    assert Settled(b, base) + BuilderFds(b) == base;
  }
}
