/** The exit code of a pipeline is the exit code of its last stage: the parser puts that stage into
    slot 0, and the launcher and the waiter take the code of slot 0. */
module ExitCodes {
  import opened Options
  import opened Descriptors
  import opened Syntax
  import opened Commands
  import opened Slots
  import opened Plugging
  import opened CommandTree
  import opened Statuses
  import opened Kernels
  import opened Waiting
  import opened JobTables
  import opened Tracking
  import opened Sessions
  import opened Launches
  import opened Soundness
  import opened LaunchSoundness
  import opened Runs

  /** The code of a round is what the look at slot 0 gave. */
  lemma {:induction false} RoundCodeIsOfSlotZero(w: World, k: Kernel, subs: Pool, noHang: bool)
    requires subs != [] && LookAll(w, k, subs, noHang).ok
    ensures LookAll(w, k, subs, noHang).code == LookAt(w, k, subs[0], noHang).code
    ensures LookAll(w, k, subs, noHang).subs[0] == LookAt(w, k, subs[0], noHang).sub
  {
    hide LookAt;
    var n := |subs| - 1;
    if n > 0 {
      RoundCodeIsOfSlotZero(w, k, subs[..n], noHang);
    } else {
      assert subs[..0] == [];
    }
  }

  /** What a process returns to a shell that waits for its end. */
  function CodeOf(c: Change): int {
    match c
    case Exit(code) => code
    case Kill(_, _) => 0
    case Stop(_) => 0
    case Continue => 0
  }

  /** The code a launch remembers is what the internal command in slot 0 returned. */
  lemma {:induction false} ChiefIsSlotZero(w: World, con: Console, o: Oracle, pipes: seq<Pipe>, calls: seq<Call>,
                                           s: Session, t: Table)
    requires calls != []
    ensures LaunchAll(w, con, o, pipes, calls, s, t).chief
         == if IsInternal(calls[0]) then Builtin(w, con, s, calls[0]).1 else NO_CODE
    ensures LaunchAll(w, con, o, pipes, calls, s, t).ok ==> LaunchAll(w, con, o, pipes, calls, s, t).subs != []
  {
    hide Builtin; hide IsInternal; hide Forked; hide NewPid; hide Piped; hide NewPipe; hide Foreign;
    var n := |calls| - 1;
    if n > 0 {
      ChiefIsSlotZero(w, con, o, pipes, calls[..n], s, t);
    } else {
      assert calls[..0] == [];
    }
  }

  /** The exit code of a job that finishes in the foreground: what slot 0 itself returned if it is
      an internal command, and otherwise the status with which its process exited, 0 if a signal
      killed it. */
  lemma ForegroundCode(w: World, con: Console, o: Oracle, pipes: seq<Pipe>, calls: seq<Call>, s: Session, t: Table,
                       ends: seq<int>)
    requires Sound(s, []) && calls != []
    requires LaunchAll(w, con, o, pipes, calls, s, t).ok
    ensures var p := LaunchAll(w, con, o, pipes, calls, s, t);
            var x := RunJob(w, con, o, pipes, calls, false, s, t, ends);
            x.jobId == None ==>
              x.code == if IsInternal(calls[0]) then Builtin(w, con, s, calls[0]).1
                        else CodeOf(w.awaited(p.session.kernel.clock))
  {
    hide LaunchAll; hide LookAll; hide LookAt; hide Builtin; hide Sound; hide Descriptors.Ends; hide InTable;
    hide IsInternal; hide AllFinished; hide JobStatus; hide Grown; hide LeastFree;
    var p := LaunchAll(w, con, o, pipes, calls, s, t);
    ChiefIsSlotZero(w, con, o, pipes, calls, s, t);
    EveryLaunchEnds(w, con, o, pipes, calls, s, t);
    ForegroundKeeps(w, t.open, pipes, calls, p);
    if !IsInternal(calls[0]) {
      RoundCodeIsOfSlotZero(w, p.session.kernel, p.subs, false);
      ProcessCode(w, t.open, pipes, calls, p);
    }
  }

  lemma ProcessCode(w: World, base: set<int>, pipes: seq<Pipe>, calls: seq<Call>, p: Progress)
    requires Underway(base, pipes, calls, p) && calls != [] && !IsInternal(calls[0])
    ensures LookAt(w, p.session.kernel, p.subs[0], false).code == CodeOf(w.awaited(p.session.kernel.clock))
  {
    hide Coupled; hide Orphans; hide Flat; hide TableOk; hide Foreign; hide LedByFirst; hide IsInternal;
    hide StatusWord; hide StatusFromWord; hide WExitStatus;
    assert IsLaunched(p.session.kernel, p.subs[0], calls[0], p.pgid, base - Foreign(pipes, calls[0]));
    PidIsPositive(p.session.kernel, p.subs[0].value.pid);
    DecodingRecovers(w.awaited(p.session.kernel.clock));
  }

  /** The exit code of a pipeline that finishes in the foreground is that of its last stage, as it is
      written: an internal command's own return value, or the exit status of a process. */
  lemma ExitCodeOfPipeline(w: World, con: Console, o: Oracle, p: Pipeline, t: Table, s: Session, start: Table,
                           ends: seq<int>)
    requires Sound(s, []) && RunPipeline(o, p, false, false, State(t, [], [], [])).Some?
    ensures var r := RunPipeline(o, p, false, false, State(t, [], [], [])).value;
            && (forall id | id in FinalOrder(r) :: id < |r.state.store|)
            && var calls := Assembled(r);
               var launch := LaunchAll(w, con, o, r.state.pipes, calls, s, start);
               var x := Execute(w, con, o, r.state.pipes, calls, false, s, start, ends);
               && calls[0].argv == Argv(LastStage(p), r.state.pipes, PipesBefore(p, 0))
               && (Starts(w, con, o, r.state.pipes, calls, s, start) && x.jobId == None ==>
                     x.session.code == if IsInternal(calls[0]) then Builtin(w, con, s, calls[0]).1
                                       else CodeOf(w.awaited(launch.session.kernel.clock)))
  {
    hide RunPipeline; hide Builtin; hide LaunchAll; hide RunJob; hide Sound; hide Argv; hide PipesBefore;
    hide LastStage; hide IsInternal;
    SlotZeroIsLastStage(o, p, t);
    var r := RunPipeline(o, p, false, false, State(t, [], [], [])).value;
    var calls := Assembled(r);
    if Starts(w, con, o, r.state.pipes, calls, s, start) && !(|calls| == 1 && IsInternal(calls[0])) {
      ForegroundCode(w, con, o, r.state.pipes, calls, s, start, ends);
    }
  }
}
