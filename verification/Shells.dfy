/** The shell itself: internal commands, launching and waiting as they change the shell's state
    (src/internals.c, src/exit.c, src/fg.c, src/bg.c). */
module Shells {
  import opened Options
  import opened Descriptors
  import opened Commands
  import opened Statuses
  import opened Kernels
  import opened Waiting
  import opened Jobs
  import opened JobTables
  import opened Sessions
  import opened Launches
  import opened Utils
  import opened Files
  import opened CommandObjects
  import opened Closing
  import opened CommandTree
  import opened Salvage

  const UNINITIALIZED_PID := -2

  datatype InternalExitInfo = InternalExitInfo(pid: int, serial: nat, exitCode: int)

  datatype CommandResult = CommandResult(exitCode: int, jobId: Option<nat>)

  /** The loops with which a child closes the pipe ends of other calls, one for each direction. */
  method CloseReadingPipes(table: FileTable, pipes: seq<Pipe>, c: Call)
    modifies table
    ensures table.table == old(table.table).(open := old(table.table).open - ForeignReads(pipes, c))
  {
    var i: nat := 0;
    while i < |pipes|
      invariant i <= |pipes|
      invariant table.table == old(table.table).(open := old(table.table).open - ForeignReads(pipes[..i], c))
    {
      assert pipes[..i + 1][..i] == pipes[..i];
      var used := Contains(c.reading, i);
      if !used {
        table.Close(pipes[i].readEnd);
      }
      i := i + 1;
    }
    assert pipes[..i] == pipes;
  }

  method CloseWritingPipes(table: FileTable, pipes: seq<Pipe>, c: Call)
    modifies table
    ensures table.table == old(table.table).(open := old(table.table).open - ForeignWrites(pipes, c))
  {
    var i: nat := 0;
    while i < |pipes|
      invariant i <= |pipes|
      invariant table.table == old(table.table).(open := old(table.table).open - ForeignWrites(pipes[..i], c))
    {
      assert pipes[..i + 1][..i] == pipes[..i];
      var used := Contains(c.writing, i);
      if !used {
        table.Close(pipes[i].writeEnd);
      }
      i := i + 1;
    }
    assert pipes[..i] == pipes;
  }

  class Shell {
    const con: Console
    const files: FileTable
    const sys: System
    const jobs: JobTable
    var lastExitCode: int
    var shouldExit: bool

    constructor (con: Console, files: FileTable, sys: System)
      requires sys.kernel == Kernel(map[], 0, 0, [], 0)
      ensures this.con == con && this.files == files && this.sys == sys && fresh(jobs)
      ensures Valid() && State() == Session(sys.kernel, seq(CAPACITY_STEP, _ => None), 0, false)
    {
      this.con, this.files, this.sys := con, files, sys;
      lastExitCode, shouldExit := 0, false;
      jobs := new JobTable(sys);
    }

    ghost predicate Valid()
      reads this, jobs, jobs.slots
    {
      jobs.Valid() && jobs.sys == sys
    }

    function State(): Session
      reads this, sys, jobs, jobs.slots
    {
      Session(sys.kernel, jobs.View(), lastExitCode, shouldExit)
    }

    method UpdateJobs()
      requires Valid()
      modifies sys, jobs`slots, jobs`size, jobs.repr
      ensures Valid() && State() == Refreshed(sys.world, old(State()))
    {
      jobs.FdUpdateJobs();
    }

    /** The guard: leave only when no job is alive. */
    method ExitCommand(argv: seq<Word>) returns (code: int)
      requires Valid()
      modifies this, sys, jobs`slots, jobs`size, jobs.repr
      ensures Valid() && (State(), code) == Sessions.ExitCommand(sys.world, con, old(State()), argv)
    {
      hide Sweep; hide Occupied; hide TableOk;
      if |argv| > 2 {
        return 1;
      }
      UpdateJobs();
      var running := jobs.AreJobsRunning();
      if running {
        return 1;
      }
      if |argv| == 2 {
        var parsed := NumberOf(con, argv[1]);
        if parsed.None? {
          return 1;
        }
        if parsed.value < 0 || parsed.value > 255 {
          return 1;
        }
        lastExitCode := parsed.value;
      }
      shouldExit := true;
      code := lastExitCode;
    }

    method FgCommand(argv: seq<Word>) returns (code: int)
      requires Valid()
      modifies sys, jobs`slots, jobs`size, jobs.repr
      ensures Valid() && (State(), code) == Sessions.FgCommand(sys.world, con, old(State()), argv)
    {
      hide Wait; hide Occupied; hide TableOk;
      if |argv| != 2 {
        return 1;
      }
      var job := FindJob(argv[1]);
      if job == null {
        return 1;
      }
      var done := jobs.PutJobInForeground(job);
      code := if done then 0 else 1;
    }

    method FindJob(word: Word) returns (job: Job?)
      requires Valid()
      ensures job == null <==> NamedSlot(con, jobs.View(), word).None?
      ensures job != null ==>
                && job.id == NamedSlot(con, jobs.View(), word).value + 1
                && job.id <= |jobs.slots| && jobs.slots[job.id - 1] == job
    {
      hide Occupied; hide TableOk;
      if word.DevFd? {
        return null;
      }
      var number := if "%" <= word.text then con.number(word.text[1..]) else None;
      job := jobs.GetJob(word.text, number);
    }

    method BgCommand(argv: seq<Word>) returns (code: int)
      requires Valid()
      modifies sys
      ensures Valid() && (State(), code) == Sessions.BgCommand(sys.world, con, old(State()), argv)
    {
      hide Occupied; hide TableOk;
      if |argv| != 2 {
        return 1;
      }
      var job := FindJob(argv[1]);
      if job == null {
        return 1;
      }
      var continued := sys.Ping(job.pgid);
      code := if continued then 0 else 1;
    }

    /** What it prints is not modelled. */
    method JobsCommand(argv: seq<Word>) returns (code: int)
      requires Valid()
      modifies sys, jobs`slots, jobs`size, jobs.repr
      ensures Valid() && State() == Refreshed(sys.world, old(State())) && code == JobsCode(con, State().slots, argv)
    {
      hide Sweep; hide Occupied; hide TableOk;
      UpdateJobs();
      if |argv| > 3 {
        return 1;
      }
      var at := 1;
      if |argv| > 1 && argv[1] == Text("-t") {
        at := 2;
      }
      if |argv| > at && argv[at].Text? && "%" <= argv[at].text {
        var job := FindJob(argv[at]);
        if job == null {
          return 1;
        }
      }
      code := 0;
    }

    method ExecuteInternalCommand(c: Call) returns (code: int)
      requires Valid() && IsInternal(c)
      modifies this, sys, jobs`slots, jobs`size, jobs.repr
      ensures Valid() && (State(), code) == Builtin(sys.world, con, old(State()), c)
    {
      hide Sessions.ExitCommand; hide Sessions.FgCommand; hide Sessions.BgCommand; hide Refreshed; hide Occupied;
      hide TableOk;
      var name := c.argv[0].text;
      if name == "exit" {
        code := ExitCommand(c.argv);
      } else if name == "fg" {
        code := FgCommand(c.argv);
      } else if name == "bg" {
        code := BgCommand(c.argv);
      } else if name == "jobs" {
        code := JobsCommand(c.argv);
      } else if name == "?" {
        code := if |c.argv| != 1 then 1 else 0;
      } else {
        var good := con.succeeds(sys.kernel.clock);
        sys.Tick();
        code := if good then 0 else 1;
      }
    }

    /** Starts one call for a job: in the shell if it is internal, else in a process of its own.
        The steps of parent and child are one of the interleavings of module Handshake, which all
        end alike; None when the child died before it answered. */
    method ExecuteSingleCommand(cmd: Command, c: Call, job: Job) returns (info: Option<InternalExitInfo>)
      requires Valid() && job !in jobs.repr
      modifies this, sys, files, job`pgid, jobs`slots, jobs`size, jobs.repr
      ensures Valid()
      ensures var q := LaunchOne(sys.world, con, files.oracle, cmd.pipes, c,
                                 Progress(old(State()), old(files.table), old(job.pgid), [], NO_CODE, true, []));
              && State() == q.session && files.table == q.table && job.pgid == q.pgid
              && files.closed == old(files.closed) + q.closes
              && (info.Some? <==> q.ok)
              && (info.Some? ==> q.subs == [SubjobOf(info.value)] && q.chief == info.value.exitCode)
    {
      if IsInternal(c) {
        var code := ExecuteInternalCommand(c);
        return Some(InternalExitInfo(UNINITIALIZED_PID, 0, code));
      }
      info := StartProcess(cmd, c, job);
    }

    method StartProcess(cmd: Command, c: Call, job: Job) returns (info: Option<InternalExitInfo>)
      requires Valid() && !IsInternal(c)
      modifies sys, files, job`pgid
      ensures var q := LaunchOne(sys.world, con, files.oracle, cmd.pipes, c,
                                 Progress(old(State()), old(files.table), old(job.pgid), [], NO_CODE, true, []));
              && sys.kernel == q.session.kernel && q.session == old(State()).(kernel := q.session.kernel)
              && files.table == q.table && job.pgid == q.pgid
              && files.closed == old(files.closed) + q.closes
              && (info.Some? <==> q.ok)
              && (info.Some? ==>
                    info.value.pid > 0 && q.subs == [SubjobOf(info.value)] && q.chief == info.value.exitCode)
    {
      hide NewPid; hide Foreign; hide Fresh; hide NewPipe; hide Piped; hide Builtin; hide Forked; hide LaunchOne;
      hide IsInternal; hide JobTable.Valid; hide JobTable.View; hide PipeEnds;
      ProcessLaunch(sys.world, con, files.oracle, cmd.pipes, c,
                    Progress(State(), files.table, job.pgid, [], NO_CODE, true, []));
      ghost var k0, t0 := sys.kernel, files.table;
      var down, up := files.MakeTwoPipes();
      HandshakePipes(files.oracle, t0);
      var child := new FileTable(files.oracle, files.table);
      var pid, serial := sys.Fork(files.table.open);
      if job.pgid == 0 {
        job.pgid := pid;
      }
      ForkThenBecome(sys.world, k0, files.table.open, job.pgid,
                     if sys.world.survives(serial) then Image(t0.open - Foreign(cmd.pipes, c), Some(ProgramOf(c)))
                     else DEAD);
      SendGroup(down, up, t0);
      if !sys.world.survives(serial) {
        // The shell's read finds the pipe closed.
        sys.Become(pid, job.pgid, DEAD);
        return None;
      }
      // The child answers.
      var program := BecomeCall(child, down, up, t0.open, cmd.pipes, c);
      sys.Become(pid, job.pgid, Image(child.table.open, Some(program)));
      LogOneMore(files.closed, old(files.closed), down.readEnd, up.writeEnd, down.writeEnd, up.readEnd);
      files.Close(up.readEnd);
      info := Some(InternalExitInfo(pid, serial, NO_CODE));
    }

    /** What the shell closes up to the point where it has sent the group. */
    method SendGroup(down: Pipe, up: Pipe, ghost t: Table)
      requires down == Down(files.oracle, t) && up == Up(files.oracle, t)
      requires files.table == Piped(files.oracle, Piped(files.oracle, t))
      modifies files
      ensures files.table == old(files.table).(open := t.open + {up.readEnd})
      ensures files.closed == old(files.closed) + [down.readEnd, up.writeEnd, down.writeEnd]
    {
      hide Fresh; hide NewPipe; hide Piped;
      HandshakePipes(files.oracle, t);
      files.Close(down.readEnd);
      files.Close(up.writeEnd);
      files.Close(down.writeEnd);
    }

    /** What the child does on its way to its program. */
    method BecomeCall(child: FileTable, down: Pipe, up: Pipe, ghost base: set<int>, pipes: seq<Pipe>, c: Call)
      returns (program: Program)
      requires child.table.open == base + PipeEnds(down) + PipeEnds(up)
      requires base !! PipeEnds(down) + PipeEnds(up)
      modifies child
      ensures child.table.open == base - Foreign(pipes, c) && program == ProgramOf(c)
    {
      hide ForeignReads; hide ForeignWrites;
      child.Close(down.writeEnd);
      child.Close(up.readEnd);
      child.Close(down.readEnd);
      child.Close(up.writeEnd);
      assert child.table.open == base;
      CloseReadingPipes(child, pipes, c);
      CloseWritingPipes(child, pipes, c);
      assert base - ForeignReads(pipes, c) - ForeignWrites(pipes, c) == base - Foreign(pipes, c);
      var streams := [0, 1, 2];
      streams := Duplicated(streams, c.stdin, 0);
      streams := Duplicated(streams, c.stdout, 1);
      streams := Duplicated(streams, c.stderr, 2);
      program := Program(c.argv, streams);
    }

    /** Launches the calls slot by slot; None when that fails, and otherwise what became of slot 0. */
    method ExecuteAsJob(cmd: Command, job: Job) returns (info: Option<InternalExitInfo>)
      requires Valid() && job !in jobs.repr && (forall id | id in cmd.calls :: id < |cmd.store|) && cmd.calls != []
      requires job.pgid == 0 && job.subjobs == seq(|cmd.calls|, _ => None)
      modifies this, sys, files, job`pgid, job`subjobs, jobs`slots, jobs`size, jobs.repr
      ensures Valid()
      ensures var p := LaunchAll(sys.world, con, files.oracle, cmd.pipes, CallsInOrder(cmd.store, cmd.calls),
                                 old(State()), old(files.table));
              && State() == p.session && files.table == p.table && job.pgid == p.pgid
              && files.closed == old(files.closed) + p.closes
              && (info.Some? <==> p.ok)
              && (info.Some? ==> job.subjobs == p.subs && info.value.exitCode == p.chief)
    {
      hide LaunchOne; hide LaunchAll;
      ghost var calls := CallsInOrder(cmd.store, cmd.calls);
      ghost var w, o, s0, t0 := sys.world, files.oracle, State(), files.table;
      info := None;
      var i: nat := 0;
      ghost var p := LaunchAll(w, con, o, cmd.pipes, calls[..0], s0, t0);
      LaunchNone(w, con, o, cmd.pipes, s0, t0);
      assert calls[..0] == [];
      while i < |cmd.calls|
        invariant i <= |cmd.calls| && Valid()
        invariant p == LaunchAll(w, con, o, cmd.pipes, calls[..i], s0, t0) && p.ok && |p.subs| == i
        invariant State() == p.session && files.table == p.table && job.pgid == p.pgid
        invariant files.closed == old(files.closed) + p.closes
        invariant job.subjobs == p.subs + seq(|cmd.calls| - i, _ => None)
        invariant if i == 0 then p.chief == NO_CODE else info.Some? && info.value.exitCode == p.chief
      {
        LaunchStep(w, con, o, cmd.pipes, calls, s0, t0, i);
        LaunchOneAdds(w, con, o, cmd.pipes, calls[i], p);
        assert cmd.calls[i] in cmd.calls;
        var call := cmd.store[cmd.calls[i]];
        var step := ExecuteSingleCommand(cmd, call, job);
        p := LaunchAll(w, con, o, cmd.pipes, calls[..i + 1], s0, t0);
        if step.None? {
          LaunchStops(w, con, o, cmd.pipes, calls, s0, t0, i + 1);
          return None;
        }
        if i == 0 {
          info := step;
        }
        if step.value.pid != UNINITIALIZED_PID {
          job.subjobs := job.subjobs[i := Some(Subjob(step.value.pid, step.value.serial, Running))];
        }
        i := i + 1;
      }
      assert calls[..i] == calls;
    }

    /** Launches a job, and either waits for it or puts it into the table. */
    method ExecuteExternalCommand(cmd: Command) returns (result: CommandResult)
      requires Valid() && (forall id | id in cmd.calls :: id < |cmd.store|) && cmd.calls != []
      modifies this, sys, files, jobs, jobs.repr
      ensures Valid() && fresh(jobs.repr - old(jobs.repr))
      ensures var x := RunJob(sys.world, con, files.oracle, cmd.pipes, CallsInOrder(cmd.store, cmd.calls),
                              cmd.background, old(State()), old(files.table), EndsInOrder(cmd.pipes));
              && State() == x.session && files.table == x.table
              && files.closed == old(files.closed) + x.closes
              && result == CommandResult(x.code, x.jobId)
    {
      hide LaunchAll; hide Wait; hide EndsInOrder; hide Descriptors.Ends; hide TableOk; hide Occupied; hide Grown;
      hide LeastFree; hide CallsInOrder; hide JobTable.View; hide Placed;
      var job := new Job(|cmd.calls|);
      ghost var p := LaunchAll(sys.world, con, files.oracle, cmd.pipes, CallsInOrder(cmd.store, cmd.calls), State(),
                               files.table);
      var info := ExecuteAsJob(cmd, job);
      ClosePipes(files, cmd);
      result := CommandResult(1, None);
      if info.None? {
        return;
      }
      result := Conclude(cmd.background, job, info.value.exitCode, cmd.pipes,
                         Execution(State(), files.table, 1, None, p.closes + EndsInOrder(cmd.pipes)));
      assert forall j | j in jobs.repr - old(jobs.repr) :: j == job;
    }

    /** Waits for a launched job or puts it into the table.  The shell must not wait as long as it holds
        an end of a pipe of the job: a reader would never come to the end of the file. */
    method Conclude(background: bool, job: Job, chief: int, ghost pipes: seq<Pipe>, ghost launched: Execution)
      returns (result: CommandResult)
      requires Valid() && job !in jobs.repr && files.table.open !! Descriptors.Ends(pipes)
      requires launched.session == State() && launched.code == 1 && launched.jobId == None
      modifies jobs, sys, job
      ensures Valid() && jobs.repr <= old(jobs.repr) + {job}
      ensures var x := Launches.Conclude(sys.world, background, old(State()), old(job.Value()), chief, launched);
              && State() == x.session && result == CommandResult(x.code, x.jobId)
              && x.table == launched.table && x.closes == launched.closes
    {
      hide Wait; hide TableOk; hide Occupied; hide Grown; hide LeastFree; hide JobTable.View; hide Placed;
      if !background {
        WaitCode(sys.world, sys.kernel, job.Value(), false);
        var code := BlockingWaitForJob(sys, job);
        if code == -1 {
          return CommandResult(1, None);
        }
        if IsFinishedStatus(job.status) {
          return CommandResult(if chief != NO_CODE then chief else code, None);
        }
      }
      var id := jobs.AddJob(job);
      result := CommandResult(0, Some(id));
    }

    /** Runs one command, closes the streams that were redirected for it, and remembers its code. */
    method ExecuteCommand(cmd: Command) returns (result: CommandResult)
      requires Valid() && (forall id | id in cmd.calls :: id < |cmd.store|) && cmd.calls != []
      modifies this, sys, files, jobs, jobs.repr
      ensures Valid() && fresh(jobs.repr - old(jobs.repr))
      ensures var x := Execute(sys.world, con, files.oracle, cmd.pipes, CallsInOrder(cmd.store, cmd.calls),
                               cmd.background, old(State()), old(files.table), EndsInOrder(cmd.pipes));
              var spared := Descriptors.Ends(cmd.pipes);
              && State() == x.session && result == CommandResult(x.code, x.jobId)
              && files.table == x.table.(open := x.table.open - (FdsOf(cmd.store, cmd.calls) - spared))
              && files.closed == old(files.closed) + x.closes + ClosedForCalls(cmd.store, cmd.calls, spared)
    {
      hide RunJob; hide Builtin; hide EndsInOrder; hide Descriptors.Ends; hide TableOk; hide Occupied; hide FdsOf;
      hide ClosedForCalls;
      assert cmd.calls[0] in cmd.calls;
      if |cmd.calls| == 1 && IsInternal(cmd.store[cmd.calls[0]]) {
        var code := ExecuteInternalCommand(cmd.store[cmd.calls[0]]);
        result := CommandResult(code, None);
      } else {
        result := ExecuteExternalCommand(cmd);
      }
      CloseUnusedFileDescriptors(files, cmd);
      lastExitCode := result.exitCode;
    }
  }

  /** The two pipes of a handshake, and what the shell has open as it closes their ends. */
  lemma HandshakePipes(o: Oracle, t: Table)
    ensures var down, up := Down(o, t), Up(o, t);
            var all := t.open + PipeEnds(down) + PipeEnds(up);
            && Piped(o, Piped(o, t)).open == all
            && t.open !! PipeEnds(down) + PipeEnds(up)
            && all - {down.readEnd} - {up.writeEnd} - {down.writeEnd} == t.open + {up.readEnd}
            && t.open + {up.readEnd} - {up.readEnd} == t.open
  {
    hide Fresh; hide NewPipe; hide Piped;
    var down, up := Down(o, t), Up(o, t);
    assert PipeEnds(down) !! PipeEnds(up);
  }

  lemma LogOneMore(log: seq<int>, was: seq<int>, a: int, b: int, c: int, d: int)
    requires log == was + [a, b, c]
    ensures log + [d] == was + ([a, b, c] + [d])
  {
  }

  /** Launching a process that is the first thing launched. */
  lemma ProcessLaunch(w: World, con: Console, o: Oracle, pipes: seq<Pipe>, c: Call, p: Progress)
    requires !IsInternal(c) && p.subs == [] && p.chief == NO_CODE && p.closes == [] && p.ok
    ensures var q := LaunchOne(w, con, o, pipes, c, p);
            var k := p.session.kernel;
            var down, up, pid := Down(o, p.table), Up(o, p.table), NewPid(w, k);
            var image := if q.ok then Image(p.table.open - Foreign(pipes, c), Some(ProgramOf(c))) else DEAD;
            && q.pgid == GroupOf(p.pgid, pid) && q.chief == NO_CODE && q.ok == w.survives(k.started)
            && q.session == p.session.(kernel := Forked(w, k, q.pgid, image))
            && q.table == Piped(o, Piped(o, p.table)).(open := p.table.open + if q.ok then {} else {up.readEnd})
            && (q.ok ==> q.subs == [Some(Subjob(pid, k.started, Running))])
            && q.closes == [down.readEnd, up.writeEnd, down.writeEnd] + if q.ok then [up.readEnd] else []
  {
    hide NewPid; hide Foreign; hide Fresh; hide NewPipe; hide Piped; hide Forked;
  }

  lemma ForkThenBecome(w: World, k: Kernel, copied: set<int>, group: int, image: Image)
    ensures var pid, l := NewPid(w, k), Forked(w, k, SHELL_GROUP, Image(copied, None));
            && pid > 0 && pid in l.children
            && var process := Process(l.children[pid].serial, group, image);
               l.(children := l.children[pid := process]) == Forked(w, k, group, image)
  {
    hide NewPid;
  }

  lemma LaunchNone(w: World, con: Console, o: Oracle, pipes: seq<Pipe>, s: Session, t: Table)
    ensures LaunchAll(w, con, o, pipes, [], s, t) == Progress(s, t, 0, [], NO_CODE, true, [])
  {
  }

  /** Internal commands leave no subjob. */
  function SubjobOf(info: InternalExitInfo): Option<Subjob> {
    if info.pid == UNINITIALIZED_PID then None else Some(Subjob(info.pid, info.serial, Running))
  }
}
