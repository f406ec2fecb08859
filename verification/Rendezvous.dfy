/** Every interleaving of parent and child ends in the state that a launch records.  This is what
    lets the launcher be read as if each process were started in one step. */
module Rendezvous {
  import opened Options
  import opened Descriptors
  import opened Commands
  import opened Kernels
  import opened Sessions
  import opened Launches
  import opened LaunchSoundness
  import opened EndOfFile
  import opened Handshake

  /** The handshake of the next process of a job that is under way. */
  function HandshakeOf(w: World, o: Oracle, pipes: seq<Pipe>, c: Call, p: Launches.Progress, ignored: bool): Launch {
    var k := p.session.kernel;
    Launch(NewPid(w, k), p.pgid, SHELL_GROUP, Down(o, p.table), Up(o, p.table), p.table.open, Foreign(pipes, c),
           set pid | pid in k.children :: k.children[pid].group, ignored)
  }

  lemma HandshakeIsPossible(w: World, o: Oracle, base: set<int>, pipes: seq<Pipe>, calls: seq<Call>, c: Call,
                            p: Launches.Progress, ignored: bool)
    requires Underway(base, pipes, calls, p) && Ends(pipes) <= base
    ensures Possible(HandshakeOf(w, o, pipes, c, p, ignored))
  {
    hide Foreign; hide Ends; hide Fresh; hide Soundness.Sound; hide IsLaunched; hide LedByFirst;
    LeaderIsThere(base, pipes, calls, p);
    ForeignIsOfPipes(pipes, c);
    HandshakeEnds(o, p.table);
  }

  lemma HandshakeEnds(o: Oracle, t: Table)
    ensures var down, up := Down(o, t), Up(o, t);
            && PipeEnds(down) !! PipeEnds(up) && t.open !! PipeEnds(down) + PipeEnds(up)
            && down.readEnd != down.writeEnd && up.readEnd != up.writeEnd
  {
    hide Fresh;
  }

  /** If nothing kills the child, every run that is at its end has the shell and the child where the
      launch puts them: the group, what each has open, and the group's name in the job. */
  lemma EveryRunEndsAsLaunched(w: World, con: Console, o: Oracle, base: set<int>, pipes: seq<Pipe>, calls: seq<Call>,
                               c: Call, p: Launches.Progress, ignored: bool, run: seq<Handshake.State>,
                               actors: seq<Actor>)
    requires Underway(base, pipes, calls, p) && Ends(pipes) <= base && !IsInternal(c)
    requires IsRun(HandshakeOf(w, o, pipes, c, p, ignored), run, actors) && Finished(run[|actors|])
    requires Killer !in actors && w.survives(p.session.kernel.started)
    ensures var q := LaunchOne(w, con, o, pipes, c, p);
            var s := run[|actors|];
            var pid := NewPid(w, p.session.kernel);
            && s.parent == Returned && s.child == Executing
            && q.pgid == s.pgid == s.group && q.table.open == s.parentOpen
            && pid in q.session.kernel.children
            && q.session.kernel.children[pid] ==
                 Process(p.session.kernel.started, s.group, Image(s.childOpen, Some(ProgramOf(c))))
  {
    hide Underway; hide Ends; hide Foreign; hide Fresh; hide NewPipe; hide Piped; hide NewPid; hide IsRun;
    hide Handshake.Sound; hide Possible; hide IsInternal;
    var x := HandshakeOf(w, o, pipes, c, p, ignored);
    HandshakeIsPossible(w, o, base, pipes, calls, c, p, ignored);
    EndOfLaunch(x, run, actors);
    ReturnsOnlyAfterJoining(x, run, actors);
  }

  /** If the child dies before it has answered and the write to it does not end the shell, the shell
      gives up with the one descriptor more that a failed launch records; with a second one, the
      write end of the other pipe, only if SIGPIPE is ignored and it was the write that failed. */
  lemma EveryFailureEndsAsRecorded(w: World, con: Console, o: Oracle, base: set<int>, pipes: seq<Pipe>,
                                   calls: seq<Call>, c: Call, p: Launches.Progress, ignored: bool,
                                   run: seq<Handshake.State>, actors: seq<Actor>)
    requires Underway(base, pipes, calls, p) && Ends(pipes) <= base && !IsInternal(c)
    requires IsRun(HandshakeOf(w, o, pipes, c, p, ignored), run, actors) && run[|actors|].parent == GaveUp
    requires !w.survives(p.session.kernel.started)
    ensures var q := LaunchOne(w, con, o, pipes, c, p);
            var open, second := run[|actors|].parentOpen, Down(o, p.table).writeEnd;
            && !q.ok && q.pgid == run[|actors|].pgid
            && open == q.table.open + (if second in open then {second} else {})
            && (second in open ==> ignored)
  {
    hide Underway; hide Ends; hide Foreign; hide Fresh; hide NewPipe; hide Piped; hide NewPid; hide IsRun;
    hide IsInternal;
    HandshakeIsPossible(w, o, base, pipes, calls, c, p, ignored);
    RunsAreSound(HandshakeOf(w, o, pipes, c, p, ignored), run, actors);
  }
}
