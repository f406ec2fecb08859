/** The record of closes over the life of a command. */
module ClosedOnce {
  import opened Descriptors
  import opened Commands
  import opened Ledger
  import opened Listing
  import opened Salvage
  import opened Files
  import opened Closing
  import opened CommandTree
  import opened Conservation
  import opened Kernels
  import opened Sessions
  import opened Launches
  import opened Lines

  /** Launching closes ends of pipes it has itself allocated, and nothing that was open before. */
  lemma {:induction false} LaunchingClosesItsOwn(w: World, con: Console, o: Oracle, pipes: seq<Pipe>, calls: seq<Call>,
                                                 s: Session, t: Table)
    ensures var p := LaunchAll(w, con, o, pipes, calls, s, t); t.open <= p.table.open && Listed(p.closes) !! t.open
  {
    hide Builtin; hide IsInternal; hide Forked; hide Foreign; hide NewPid;
    if calls != [] {
      LaunchingClosesItsOwn(w, con, o, pipes, calls[..|calls| - 1], s, t);
      var p := LaunchAll(w, con, o, pipes, calls[..|calls| - 1], s, t);
      EndsAreNew(o, p.table);
    }
  }

  lemma EndsAreNew(o: Oracle, t: Table)
    ensures t.open !! PipeEnds(Down(o, t)) + PipeEnds(Up(o, t))
  {
    hide Fresh;
  }

  /** Over the launch of a command and the closing behind it, each descriptor that parsing added is
      closed exactly once, and no other of those that were open is closed at all. */
  lemma EachIsClosedOnce(w: World, con: Console, o: Oracle, base: set<int>, parsed: Parsed, background: bool,
                         s: Session, start: Table, fd: int)
    requires AccountedFor(base, parsed) && |Assembled(parsed)| == |parsed.state.pipes| + 1
    requires fd in start.open
    ensures var st := parsed.state;
            var x := Execute(w, con, o, st.pipes, Assembled(parsed), background, s, start, EndsInOrder(st.pipes));
            var log := x.closes + ClosedForCalls(st.store, FinalOrder(parsed), Descriptors.Ends(st.pipes));
            multiset(log)[fd] == if fd in st.table.open - base then 1 else 0
  {
    hide Books; hide NoRepeats; hide FdsOf; hide CallsFds; hide Conclude; hide Builtin; hide LaunchAll;
    hide ClosedForCalls; hide Descriptors.Ends; hide EndsInOrder; hide NoDuplicates; hide Assembled; hide FinalOrder;
    hide IsInternal;
    var st, calls := parsed.state, Assembled(parsed);
    var closed := ClosedForCalls(st.store, FinalOrder(parsed), Descriptors.Ends(st.pipes));
    var ends := EndsInOrder(st.pipes);
    ClosedAfterIsExact(base, parsed);
    OnceEach(ends + closed, fd);
    assert ends + closed == ClosedAfter(parsed);
    var x := Execute(w, con, o, st.pipes, calls, background, s, start, ends);
    if |calls| == 1 && IsInternal(calls[0]) {
      assert ends == [] by { NoEndsOfNone(st.pipes); }
      assert x.closes + closed == ends + closed;
    } else {
      LaunchingClosesItsOwn(w, con, o, st.pipes, calls, s, start);
      var p := LaunchAll(w, con, o, st.pipes, calls, s, start);
      ConcludeKeepsTable(w, background, p.session, LaunchedJob(p), p.chief);
      assert x.closes == p.closes + ends;
      assert x.closes + closed == p.closes + (ends + closed);
      assert multiset(p.closes + (ends + closed)) == multiset(p.closes) + multiset(ends + closed);
      assert fd !in p.closes;
    }
  }

  lemma NoEndsOfNone(ps: seq<Pipe>)
    ensures ps == [] ==> EndsInOrder(ps) == []
  {
  }
}
