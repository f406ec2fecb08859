/** How launched jobs end, from what the kernel answers about each of their processes
    (src/internals.c, src/jobs.c). */
module Endings {
  import opened Options
  import opened Descriptors
  import opened Commands
  import opened Statuses
  import opened Kernels
  import opened Waiting
  import opened JobTables
  import opened Tracking
  import opened Sessions
  import opened Launches
  import opened Soundness
  import opened LaunchSoundness
  import opened Runs
  import opened ExitCodes
  import opened Polling

  /** The answer to the wait for the process of call `c`, the waits having begun at `clock`. */
  function AnswerTo(w: World, clock: nat, calls: seq<Call>, c: nat): Awaited
    requires c < |calls|
  {
    w.awaited(clock + Externals(calls[..c]))
  }

  predicate IsStopped(w: World, clock: nat, calls: seq<Call>, c: nat) {
    c < |calls| && !IsInternal(calls[c]) && AnswerTo(w, clock, calls, c).Stop?
  }

  predicate IsKilled(w: World, clock: nat, calls: seq<Call>, c: nat) {
    c < |calls| && !IsInternal(calls[c]) && AnswerTo(w, clock, calls, c).Kill?
  }

  /** The record of call `c` after the wait. */
  lemma AnswerIsRecorded(w: World, base: set<int>, pipes: seq<Pipe>, calls: seq<Call>, p: Progress, c: nat)
    requires Underway(base, pipes, calls, p) && c < |calls|
    ensures var subs := LookAll(w, p.session.kernel, p.subs, false).subs;
            && |subs| == |calls| && (subs[c].Some? <==> !IsInternal(calls[c]))
            && (subs[c].Some? ==>
                  subs[c].value.lastStatus ==
                    match AnswerTo(w, p.session.kernel.clock, calls, c)
                    case Exit(_) => Done case Kill(_, _) => Killed case Stop(_) => Stopped case Continue => Running)
  {
    hide KernelOk; hide Coupled; hide Flat; hide TableOk; hide LookAll; hide LedByFirst; hide Foreign; hide IsInternal;
    hide Owns; hide WaitedBefore; hide Externals;
    var left := Flat(p.session.slots);
    assert left + p.subs + [] == left + p.subs;
    RoundReports(w, p.session.kernel, left, p.subs, [], false);
    var now := LookAll(w, p.session.kernel, p.subs, false).subs;
    assert IsLaunched(p.session.kernel, p.subs[c], calls[c], p.pgid, base - Foreign(pipes, calls[c]));
    assert Reports(p.subs[c], AnswerAt(w, p.session.kernel.clock + WaitedBefore(p.subs, c), false), now[c]);
    WaitedAreExternal(base, pipes, calls, p, c);
  }

  lemma {:induction false} WaitedAreExternal(base: set<int>, pipes: seq<Pipe>, calls: seq<Call>, p: Progress, c: nat)
    requires Underway(base, pipes, calls, p) && c <= |calls|
    ensures WaitedBefore(p.subs, c) == Externals(calls[..c])
  {
    hide Sound; hide LedByFirst; hide Foreign; hide IsInternal; hide Owns;
    if c > 0 {
      WaitedAreExternal(base, pipes, calls, p, c - 1);
      assert calls[..c][..c - 1] == calls[..c - 1];
      assert IsLaunched(p.session.kernel, p.subs[c - 1], calls[c - 1], p.pgid, base - Foreign(pipes, calls[c - 1]));
    }
  }

  /** The status of a launched job when the shell has waited for it: Stopped exactly if some process
      was reported to be stopped; otherwise Detached while a process is left in its group; otherwise
      Killed exactly if some process was reported to be killed, and else Done. */
  lemma ForegroundStatus(w: World, base: set<int>, pipes: seq<Pipe>, calls: seq<Call>, p: Progress)
    requires Underway(base, pipes, calls, p)
    ensures var clock := p.session.kernel.clock;
            var k := LookAll(w, p.session.kernel, p.subs, false).kernel;
            Wait(w, p.session.kernel, LaunchedJob(p), false).job.status ==
              if exists c: nat :: IsStopped(w, clock, calls, c) then Stopped
              else if GroupExists(w, k, p.pgid) then Detached
              else if exists c: nat :: IsKilled(w, clock, calls, c) then Killed
              else Done
  {
    hide LookAll; hide Underway; hide AnswerTo; hide IsInternal; hide GroupExists; hide Lost;
    var clock, subs := p.session.kernel.clock, LookAll(w, p.session.kernel, p.subs, false).subs;
    ForegroundKeeps(w, base, pipes, calls, p);
    SubsLength(base, pipes, calls, p, LookAll(w, p.session.kernel, p.subs, false).subs);
    forall c: nat | c < |calls|
      ensures Has(subs, c, Stopped) <==> IsStopped(w, clock, calls, c)
      ensures Has(subs, c, Killed) <==> IsKilled(w, clock, calls, c)
      ensures !Has(subs, c, Running)
    {
      AnswerIsRecorded(w, base, pipes, calls, p, c);
    }
    assert !SomeHave(subs, Running);
    assert SomeHave(subs, Stopped) <==> exists c: nat :: IsStopped(w, clock, calls, c) by {
      assert forall c: nat :: Has(subs, c, Stopped) <==> IsStopped(w, clock, calls, c);
    }
    assert SomeHave(subs, Killed) <==> exists c: nat :: IsKilled(w, clock, calls, c) by {
      assert forall c: nat :: Has(subs, c, Killed) <==> IsKilled(w, clock, calls, c);
    }
  }

  lemma SubsLength(base: set<int>, pipes: seq<Pipe>, calls: seq<Call>, p: Progress, subs: Pool)
    requires Underway(base, pipes, calls, p)
    ensures |p.subs| == |calls|
  {
    hide Sound; hide IsLaunched; hide LedByFirst;
  }

  /** The code of a command that is run as a job, the session it leaves and the number of the job in the
      table, if it goes there: `started` tells whether its launch has succeeded, `stopped` whether one
      of its processes was reported to be stopped, and `own` is what slot 0 returned. */
  predicate EndsAs(left: Session, code: int, jobId: Option<nat>, p: Progress, background: bool, started: bool,
                   stopped: bool, own: int)
  {
    if !started then jobId == None && code == 1 && left.slots == p.session.slots
    else if !background && !stopped then jobId == None && code == own && left.slots == p.session.slots
    else
      && jobId.Some? && code == 0
      && 1 <= jobId.value <= |left.slots| && left.slots[jobId.value - 1].Some?
      && var job := left.slots[jobId.value - 1].value;
         && job.id == jobId.value && job.pgid == p.pgid
         && (!background ==> job.status == Stopped)
         && (background ==> job.status == Running && job.subs == p.subs && left.kernel == p.session.kernel)
  }

  /** A launch that fails has code 1 and leaves no job.  Otherwise a job in the background has code 0 and
      is put into the table as it was launched, without a wait for anybody; one in the foreground has
      code 0 and goes there if it was stopped, and else has the code of slot 0 and is forgotten. */
  lemma JobAnswers(w: World, con: Console, o: Oracle, pipes: seq<Pipe>, calls: seq<Call>, background: bool, s: Session,
                   t: Table, ends: seq<int>)
    requires Sound(s, []) && calls != []
    ensures var p := LaunchAll(w, con, o, pipes, calls, s, t);
            var x := RunJob(w, con, o, pipes, calls, background, s, t, ends);
            EndsAs(x.session, x.code, x.jobId, p, background, NextSurvive(w, s.kernel, Externals(calls)),
                   exists c: nat :: IsStopped(w, p.session.kernel.clock, calls, c),
                   if IsInternal(calls[0]) then Builtin(w, con, s, calls[0]).1
                   else CodeOf(w.awaited(p.session.kernel.clock)))
  {
    hide LaunchAll; hide Wait; hide Sound; hide Descriptors.Ends; hide Underway; hide AllFinished; hide Grown;
    hide LeastFree; hide TableOk; hide Lost; hide Occupied; hide Externals; hide NextSurvive; hide IsStopped;
    hide Builtin; hide CodeOf; hide IsInternal; hide GroupExists; hide IsKilled; hide LookAll;
    LaunchStartsExactly(w, con, o, pipes, calls, s, t);
    EveryLaunchEnds(w, con, o, pipes, calls, s, t);
    var p := LaunchAll(w, con, o, pipes, calls, s, t);
    if p.ok {
      UnderwayIsSound(t.open, pipes, calls, p);
      TableKeeps(p.session, LaunchedJob(p));
      if !background {
        ForegroundKeeps(w, t.open, pipes, calls, p);
        ForegroundStatus(w, t.open, pipes, calls, p);
        StoppedUnlessFinished(w, t.open, pipes, calls, p);
        ForegroundCode(w, con, o, pipes, calls, s, t, ends);
        ForegroundEnds(w, con, o, pipes, calls, s, t, ends);
        WaitKeepsId(w, p.session.kernel, LaunchedJob(p), false);
      }
    }
  }
}
