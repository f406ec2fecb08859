/** Descriptors over the life of a command: what parsing it adds is closed again after it has been
    launched, each descriptor once. */
module Conservation {
  import opened Descriptors
  import opened Syntax
  import opened Commands
  import opened Ledger
  import opened Listing
  import opened Salvage
  import opened Utils
  import opened Files
  import opened Closing
  import opened Acceptance
  import opened PipeTree
  import opened Wiring

  predicate NoDuplicates(s: seq<int>) {
    forall i, j | 0 <= i < j < |s| :: s[i] != s[j]
  }

  lemma {:induction false} OnceEach(s: seq<int>, v: int)
    requires NoDuplicates(s)
    ensures multiset(s)[v] == if v in s then 1 else 0
  {
    if s != [] {
      var n := |s| - 1;
      OnceEach(s[..n], v);
      assert s == s[..n] + [s[n]];
    }
  }

  lemma NoDuplicatesConcat(xs: seq<int>, ys: seq<int>)
    requires NoDuplicates(xs) && NoDuplicates(ys) && Listed(xs) !! Listed(ys)
    ensures NoDuplicates(xs + ys) && Listed(xs + ys) == Listed(xs) + Listed(ys)
  {
    forall i, j | 0 <= i < j < |xs + ys|
      ensures (xs + ys)[i] != (xs + ys)[j]
    {
      if i < |xs| <= j {
        assert xs[i] in Listed(xs) && ys[j - |xs|] in Listed(ys);
      }
    }
  }

  lemma {:induction false} KeptOnce(s: seq<int>, spared: set<int>)
    requires OnceAbove2(s)
    ensures NoDuplicates(Kept(s, spared))
  {
    if s != [] {
      var n := |s| - 1;
      KeptOnce(s[..n], spared);
      KeptMember(s[..n], spared, s[n]);
    }
  }

  lemma CallIsClosedOnce(c: Call, spared: set<int>)
    ensures NoDuplicates(ClosedForCall(c, spared))
    ensures Listed(ClosedForCall(c, spared)) == CallFds(c) - spared
  {
    hide Kept; hide Distinct3; hide Above;
    Distinct3Members(c.stdin, c.stdout, c.stderr);
    KeptOnce(Distinct3(c.stdin, c.stdout, c.stderr), spared);
    KeptOfThree(c.stdin, c.stdout, c.stderr, spared);
  }

  lemma {:induction false} SeparateAt(cs: seq<Call>, i: nat, j: nat)
    requires SeparateCalls(cs) && i < |cs| && j < |cs| && i != j
    ensures CallFds(cs[i]) !! CallFds(cs[j])
    decreases |cs|
  {
    var n := |cs| - 1;
    if i < n && j < n {
      SeparateAt(cs[..n], i, j);
    } else if i < n {
      CallsFdsMember(cs[..n], i);
    } else {
      CallsFdsMember(cs[..n], j);
    }
  }

  lemma {:induction false} CallsAreClosedOnce(store: seq<Call>, ids: seq<nat>, spared: set<int>)
    requires SeparateCalls(store) && NoRepeats(ids) && forall id | id in ids :: id < |store|
    ensures NoDuplicates(ClosedForCalls(store, ids, spared))
    ensures Listed(ClosedForCalls(store, ids, spared)) == FdsOf(store, ids) - spared
  {
    hide ClosedForCall; hide CallFds; hide SeparateCalls;
    if ids == [] {
      NothingForNone(store, spared);
    } else {
      var n := |ids| - 1;
      assert forall id | id in ids[..n] :: id in ids;
      assert ids[n] in ids;
      CallsAreClosedOnce(store, ids[..n], spared);
      CallIsClosedOnce(store[ids[n]], spared);
      forall fd | fd in FdsOf(store, ids[..n])
        ensures fd !in CallFds(store[ids[n]])
      {
        FdsOfMember(store, ids[..n], fd);
        var id :| id in ids[..n] && id < |store| && fd in CallFds(store[id]);
        SeparateAt(store, id, ids[n]);
      }
      NoDuplicatesConcat(ClosedForCalls(store, ids[..n], spared), ClosedForCall(store[ids[n]], spared));
      assert ids[..n + 1] == ids;
      ClosedForCallsSnoc(store, ids, n, spared);
    }
  }

  lemma {:induction false} PipesAreClosedOnce(ps: seq<Pipe>)
    requires SeparatePipes(ps)
    ensures NoDuplicates(EndsInOrder(ps)) && Listed(EndsInOrder(ps)) == Ends(ps)
  {
    if ps != [] {
      var n := |ps| - 1;
      PipesAreClosedOnce(ps[..n]);
      NoDuplicatesConcat(EndsInOrder(ps[..n]), [ps[n].readEnd, ps[n].writeEnd]);
    }
  }

  /** What is known of an accepted line's calls and descriptors. */
  ghost predicate AccountedFor(base: set<int>, parsed: Parsed) {
    && parsed.last < |parsed.state.store|
    && (forall id | id in FinalOrder(parsed) :: id < |parsed.state.store|)
    && NoRepeats(FinalOrder(parsed))
    && Books(base, parsed.state.pipes, parsed.state.store, parsed.state.table.open)
    && FdsOf(parsed.state.store, FinalOrder(parsed)) == CallsFds(parsed.state.store)
  }

  /** Parsing adds both ends of each pipe and the redirected streams of each call, and nothing else. */
  lemma ParsingIsBalanced(o: Oracle, p: Pipeline, t: Table)
    requires RunPipeline(o, p, false, false, State(t, [], [], [])).Some?
    ensures AccountedFor(t.open, RunPipeline(o, p, false, false, State(t, [], [], [])).value)
  {
    hide RunPipeline; hide FdsOf; hide CallsFds; hide SeparateCalls; hide SeparatePipes; hide Ends; hide FinalOrder;
    hide NoRepeats;
    var st := State(t, [], [], []);
    var r := RunPipeline(o, p, false, false, st).value;
    FinalOrderIsComplete(o, p, st);
    var ps, cs := PipelineLedger(o, p, false, false, st);
    assert [] + ps == ps && [] + cs == cs;
    var store := r.state.store;
    assert Lists(FinalOrder(r), 0, |store|, {|store|});
    ListedFds(store, 0, FinalOrder(r), |store|);
    assert store[0..] == store;
    NoExtra(store, |store|);
  }

  /* When a command adds no descriptor at all. */

  /** The tokens ask for no pipe, no substitution and no redirection. */
  predicate IsBare(tokens: seq<string>) {
    forall w | w in tokens :: !IsSymbol(w)
  }

  lemma {:induction false} BareTree(r: Rest)
    requires WellFormedRest(r)
    ensures IsBare(PrintRest(r)) <==> SizeRest(r) == 0 && OpensRest(r) == 0
    decreases r
  {
    match r
    case Done =>
    case Arg(w, q) => BareTree(q);
    case Redirect(op, file, q) => assert op in PrintRest(r);
    case Substitute(body, q) => assert SUBSTITUTION_START in PrintRest(r);
    case PipeTo(next) => assert PIPE_SYMBOL in PrintRest(r);
  }

  predicate IsUnusedOrOpen(fd: int) {
    fd == UNINITIALIZED_FD || fd > 2
  }

  /** A stage without pipes builds one call, which holds a descriptor exactly if a stream of it has
      been redirected. */
  lemma {:induction false} StageAlone(o: Oracle, r: Rest, b: Builder, inside: bool, piped: bool, st: State)
    requires SizeRest(r) == 0 && RunRest(o, r, b, inside, piped, st).Some?
    requires IsUnusedOrOpen(b.stdin) && IsUnusedOrOpen(b.stdout) && IsUnusedOrOpen(b.stderr)
    ensures var now := RunRest(o, r, b, inside, piped, st).value.state;
            && now.pipes == st.pipes && |now.store| == |st.store| + 1 && st.store <= now.store
            && (CallFds(now.store[|st.store|]) == {} <==> BuilderFds(b) == {} && OpensRest(r) == 0)
    decreases r
  {
    hide RunRest; hide Fresh;
    match r
    case Done =>
      RunDone(o, b, inside, piped, st);
      assert CallFds(BuildCall(b)) == BuilderFds(b);
    case Arg(w, q) =>
      RunArg(o, w, q, b, inside, piped, st);
      StageAlone(o, q, b.(argv := b.argv + [Text(w)]), inside, piped, st);
    case Redirect(op, file, q) =>
      RunRedirect(o, op, file, q, b, inside, piped, st);
      var fd := Fresh(o, st.table);
      var c := WithFd(b, StreamOf(op), fd);
      assert fd in BuilderFds(c);
      StageAlone(o, q, c, inside, piped, st.(table := Reopened(o, st.table, b, op, file)));
  }

  /** The descriptors of a command: the ends of its pipes and the redirected streams of its calls. */
  function Held(st: State): set<int> {
    Ends(st.pipes) + CallsFds(st.store)
  }

  predicate HoldsNothing(st: State) {
    |st.pipes| == 0 && forall i | 0 <= i < |st.store| :: CallFds(st.store[i]) == {}
  }

  lemma {:induction false} NothingHeld(st: State)
    ensures HoldsNothing(st) <==> Held(st) == {}
  {
    hide CallFds; hide Ends;
    EndsOfSome(st.pipes);
    CallsHoldNothing(st.store);
  }

  lemma EndsOfSome(ps: seq<Pipe>)
    ensures Ends(ps) == {} <==> |ps| == 0
  {
    if ps != [] {
      EndsMember(ps, 0);
      assert ps[0].readEnd in Ends(ps);
    }
  }

  lemma {:induction false} CallsHoldNothing(cs: seq<Call>)
    ensures CallsFds(cs) == {} <==> forall i | 0 <= i < |cs| :: CallFds(cs[i]) == {}
  {
    hide CallFds;
    if cs != [] {
      var n := |cs| - 1;
      CallsHoldNothing(cs[..n]);
      assert forall i | 0 <= i < n :: cs[..n][i] == cs[i];
    }
  }

  /** An accepted line holds no descriptor exactly if none of its tokens is a symbol. */
  lemma HoldsNothingExactly(o: Oracle, p: Pipeline, st: State)
    requires st.store == [] && st.pipes == []
    requires WellFormed(p) && RunPipeline(o, p, false, false, st).Some?
    ensures HoldsNothing(RunPipeline(o, p, false, false, st).value.state) <==> IsBare(Print(p))
  {
    hide RunRest; hide SizeRest; hide OpensRest; hide WellFormedRest; hide PrintRest; hide Ends; hide CallsFds;
    hide CallFds; hide IsBare; hide LastId;
    var now := RunPipeline(o, p, false, false, st).value.state;
    PipelineSizes(o, p, false, false, st);
    BareTree(p.rest);
    BareWithName(p.name, PrintRest(p.rest));
    if SizeRest(p.rest) == 0 {
      NewBuilderHoldsNothing(p.name);
      StageAlone(o, p.rest, NewBuilder(p.name), false, false, st);
    }
  }

  lemma NewBuilderHoldsNothing(name: string)
    ensures BuilderFds(NewBuilder(name)) == {}
  {
  }

  lemma BareWithName(name: string, tokens: seq<string>)
    requires !IsSymbol(name)
    ensures IsBare([name] + tokens) <==> IsBare(tokens)
  {
    assert forall w :: w in [name] + tokens <==> w == name || w in tokens;
  }

  /** What is closed after a launch: the pipes, then the streams of the calls that are not pipes. */
  function ClosedAfter(parsed: Parsed): seq<int>
    requires parsed.last < |parsed.state.store|
  {
    EndsInOrder(parsed.state.pipes) + ClosedForCalls(parsed.state.store, FinalOrder(parsed), Ends(parsed.state.pipes))
  }

  /** These are the descriptors that parsing added, each once; without them the table is what it was
      before parsing. */
  lemma ClosedAfterIsExact(base: set<int>, parsed: Parsed)
    requires AccountedFor(base, parsed)
    ensures NoDuplicates(ClosedAfter(parsed))
    ensures Listed(ClosedAfter(parsed)) == parsed.state.table.open - base
    ensures var st := parsed.state;
            st.table.open - Ends(st.pipes) - (FdsOf(st.store, FinalOrder(parsed)) - Ends(st.pipes)) == base
  {
    hide SeparateCalls; hide SeparatePipes; hide Ends; hide EndsInOrder; hide ClosedForCalls; hide FinalOrder;
    hide FdsOf; hide NoRepeats; hide Listed; hide NoDuplicates; hide CallsFds;
    var st := parsed.state;
    PipesAreClosedOnce(st.pipes);
    CallsAreClosedOnce(st.store, FinalOrder(parsed), Ends(st.pipes));
    NoDuplicatesConcat(EndsInOrder(st.pipes), ClosedForCalls(st.store, FinalOrder(parsed), Ends(st.pipes)));
  }
}
