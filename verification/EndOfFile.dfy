/** Who holds the ends of a pipe once a command has been launched, and so who can wait for whom. */
module EndOfFile {
  import opened Descriptors
  import opened Commands
  import opened Ledger
  import opened Plugging
  import opened CommandTree
  import opened Sessions
  import opened Launches
  import opened Soundness
  import opened LaunchSoundness

  lemma {:induction false} SeparateEnds(ps: seq<Pipe>, i: nat, j: nat)
    requires SeparatePipes(ps) && i < |ps| && j < |ps|
    ensures ps[i].readEnd != ps[j].writeEnd
    ensures i != j ==> PipeEnds(ps[i]) !! PipeEnds(ps[j])
    decreases |ps|
  {
    var n := |ps| - 1;
    if i < n && j < n {
      SeparateEnds(ps[..n], i, j);
    } else {
      if i < n {
        EndsMember(ps[..n], i);
      }
      if j < n {
        EndsMember(ps[..n], j);
      }
    }
  }

  lemma {:induction false} ForeignReadsMember(ps: seq<Pipe>, c: Call, fd: int)
    ensures fd in ForeignReads(ps, c) <==> exists i: nat :: i < |ps| && ps[i].readEnd == fd && i !in c.reading
  {
    if ps != [] {
      ForeignReadsMember(ps[..|ps| - 1], c, fd);
      assert forall i | 0 <= i < |ps| - 1 :: ps[..|ps| - 1][i] == ps[i];
    }
  }

  lemma {:induction false} ForeignWritesMember(ps: seq<Pipe>, c: Call, fd: int)
    ensures fd in ForeignWrites(ps, c) <==> exists i: nat :: i < |ps| && ps[i].writeEnd == fd && i !in c.writing
  {
    if ps != [] {
      ForeignWritesMember(ps[..|ps| - 1], c, fd);
      assert forall i | 0 <= i < |ps| - 1 :: ps[..|ps| - 1][i] == ps[i];
    }
  }

  lemma ForeignIsExact(ps: seq<Pipe>, c: Call, i: nat)
    requires SeparatePipes(ps) && i < |ps|
    ensures ps[i].writeEnd in Foreign(ps, c) <==> i !in c.writing
    ensures ps[i].readEnd in Foreign(ps, c) <==> i !in c.reading
  {
    hide ForeignReads; hide ForeignWrites;
    forall j: nat | j < |ps|
      ensures ps[j].readEnd != ps[i].writeEnd && ps[i].readEnd != ps[j].writeEnd
      ensures ps[j].readEnd == ps[i].readEnd || ps[j].writeEnd == ps[i].writeEnd ==> j == i
    {
      SeparateEnds(ps, i, j);
      SeparateEnds(ps, j, i);
    }
    ForeignReadsMember(ps, c, ps[i].readEnd);
    ForeignReadsMember(ps, c, ps[i].writeEnd);
    ForeignWritesMember(ps, c, ps[i].readEnd);
    ForeignWritesMember(ps, c, ps[i].writeEnd);
  }

  lemma ForeignIsOfPipes(ps: seq<Pipe>, c: Call)
    ensures Foreign(ps, c) <= Ends(ps)
  {
    hide ForeignReads; hide ForeignWrites; hide Ends;
    forall fd | fd in Foreign(ps, c)
      ensures fd in Ends(ps)
    {
      ForeignReadsMember(ps, c, fd);
      ForeignWritesMember(ps, c, fd);
      var i: nat :| i < |ps| && (ps[i].readEnd == fd || ps[i].writeEnd == fd);
      EndsMember(ps, i);
    }
  }

  /** Slot `c` of the job runs in a process of its own, with `fd` open. */
  predicate Holds(p: Progress, c: nat, fd: int) {
    && c < |p.subs| && p.subs[c].Some?
    && p.subs[c].value.pid in p.session.kernel.children
    && fd in p.session.kernel.children[p.subs[c].value.pid].image.open
  }

  /** A process of the job holds the write end of a pipe exactly if its call writes the pipe, and
      the read end exactly if its call reads it. */
  lemma HoldsWhatItUses(base: set<int>, pipes: seq<Pipe>, call: Call, p: Progress, c: nat, i: nat)
    requires c < |p.subs| && IsLaunched(p.session.kernel, p.subs[c], call, p.pgid, base - Foreign(pipes, call))
    requires SeparatePipes(pipes) && Ends(pipes) <= base
    requires i < |pipes|
    ensures Holds(p, c, pipes[i].writeEnd) <==> !IsInternal(call) && i in call.writing
    ensures Holds(p, c, pipes[i].readEnd) <==> !IsInternal(call) && i in call.reading
  {
    hide Foreign; hide IsInternal; hide SeparatePipes; hide Ends;
    ForeignIsExact(pipes, call, i);
    EndsMember(pipes, i);
  }

  lemma CallIsLaunched(base: set<int>, pipes: seq<Pipe>, calls: seq<Call>, p: Progress, c: nat)
    requires Underway(base, pipes, calls, p) && c < |calls|
    ensures |p.subs| == |calls|
    ensures IsLaunched(p.session.kernel, p.subs[c], calls[c], p.pgid, base - Foreign(pipes, calls[c]))
  {
    hide Foreign; hide Sound; hide LedByFirst; hide IsLaunched;
  }

  /** Each end of a pipe is open in the process of its only reader or writer, in none if that call was
      an internal command, and in no other process of the job. */
  lemma OnlyItsWriterHolds(base: set<int>, pipes: seq<Pipe>, calls: seq<Call>, ks: seq<nat>, p: Progress, i: nat)
    returns (r: nat, w: nat)
    requires Underway(base, pipes, calls, p) && IsPipeTree(calls, pipes, ks)
    requires SeparatePipes(pipes) && Ends(pipes) <= base
    requires i < |pipes|
    ensures IsOnlyReader(calls, i, r) && IsOnlyWriter(calls, i, w) && ks[w] == ks[r] + 1
    ensures forall c: nat | c < |calls| :: Holds(p, c, pipes[i].writeEnd) <==> c == w && !IsInternal(calls[w])
    ensures forall c: nat | c < |calls| :: Holds(p, c, pipes[i].readEnd) <==> c == r && !IsInternal(calls[r])
  {
    hide Underway; hide SeparatePipes; hide Ends; hide Ordered; hide InRange; hide Holds; hide Plugged; hide IsInternal;
    assert HasReaderAndWriter(calls, pipes[i], i);
    r, w :| IsOnlyReader(calls, i, r) && IsOnlyWriter(calls, i, w) && Plugged(calls, pipes[i], r, w);
    forall c: nat | c < |calls|
      ensures Holds(p, c, pipes[i].writeEnd) <==> c == w && !IsInternal(calls[w])
      ensures Holds(p, c, pipes[i].readEnd) <==> c == r && !IsInternal(calls[r])
    {
      CallIsLaunched(base, pipes, calls, p, c);
      HoldsWhatItUses(base, pipes, calls[c], p, c, i);
    }
  }

  /** Process `c` reads a pipe that process `d` could still write. */
  ghost predicate WaitsFor(pipes: seq<Pipe>, calls: seq<Call>, p: Progress, c: nat, d: nat) {
    && c < |calls| && d < |calls|
    && exists i: nat :: i < |pipes| && i in calls[c].reading && Holds(p, d, pipes[i].writeEnd)
  }

  ghost predicate IsWaitingChain(pipes: seq<Pipe>, calls: seq<Call>, p: Progress, chain: seq<nat>) {
    chain != [] && forall k | 0 <= k < |chain| - 1 :: WaitsFor(pipes, calls, p, chain[k], chain[k + 1])
  }

  lemma TreeHasRanks(calls: seq<Call>, pipes: seq<Pipe>, ks: seq<nat>)
    requires IsPipeTree(calls, pipes, ks)
    ensures |ks| == |calls|
  {
  }

  /** Waiting for the end of a file never goes in a circle, and every chain of waiting processes
      ends: it climbs the tree one pipe at a time. */
  lemma {:induction false} WaitingIsWellFounded(base: set<int>, pipes: seq<Pipe>, calls: seq<Call>, ks: seq<nat>,
                                                p: Progress, chain: seq<nat>)
    requires Underway(base, pipes, calls, p) && IsPipeTree(calls, pipes, ks)
    requires SeparatePipes(pipes) && Ends(pipes) <= base
    requires IsWaitingChain(pipes, calls, p, chain) && chain[0] < |calls|
    ensures chain[|chain| - 1] < |calls| == |ks|
    ensures ks[chain[|chain| - 1]] == ks[chain[0]] + |chain| - 1
    ensures |chain| > 1 ==> chain[|chain| - 1] != chain[0]
  {
    hide Underway; hide SeparatePipes; hide Ends; hide IsPipeTree; hide Holds;
    TreeHasRanks(calls, pipes, ks);
    if |chain| > 1 {
      var n := |chain| - 1;
      WaitingIsWellFounded(base, pipes, calls, ks, p, chain[..n]);
      assert WaitsFor(pipes, calls, p, chain[n - 1], chain[n - 1 + 1]);
      var i: nat :| i < |pipes| && i in calls[chain[n - 1]].reading && Holds(p, chain[n], pipes[i].writeEnd);
      var r, w := OnlyItsWriterHolds(base, pipes, calls, ks, p, i);
    }
  }

  /** What is open in the shell and belongs to no pipe of the command is open in every process of
      the command, so also the pipes of commands still to come on the same line. */
  lemma InheritsTheRest(base: set<int>, pipes: seq<Pipe>, call: Call, p: Progress, c: nat, fd: int)
    requires c < |p.subs| && IsLaunched(p.session.kernel, p.subs[c], call, p.pgid, base - Foreign(pipes, call))
    requires fd !in Ends(pipes)
    ensures Holds(p, c, fd) <==> !IsInternal(call) && fd in base
  {
    hide Foreign; hide Ends; hide IsInternal;
    ForeignIsOfPipes(pipes, call);
  }
}
