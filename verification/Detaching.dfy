/** Which launched jobs end up detached although no process of theirs is left (src/jobs.c): those of
    internal commands alone. */
module Detaching {
  import opened Options
  import opened Descriptors
  import opened Commands
  import opened Statuses
  import opened Kernels
  import opened Waiting
  import opened Jobs
  import opened JobTables
  import opened Tracking
  import opened Sessions
  import opened Launches
  import opened Soundness
  import opened LaunchSoundness
  import opened Runs

  predicate OnlyInternal(calls: seq<Call>) {
    forall i | 0 <= i < |calls| :: IsInternal(calls[i])
  }

  /** A launched job has no group exactly if all its calls are internal, and then it has no process. */
  lemma GroupUnlessInternal(base: set<int>, pipes: seq<Pipe>, calls: seq<Call>, p: Progress)
    requires Underway(base, pipes, calls, p)
    ensures p.pgid == 0 <==> OnlyInternal(calls)
    ensures |p.subs| == |calls| && (OnlyInternal(calls) ==> forall i | 0 <= i < |p.subs| :: p.subs[i] == None)
  {
    hide Coupled; hide Orphans; hide Flat; hide TableOk; hide Foreign; hide IsInternal;
    forall i | 0 <= i < |calls|
      ensures IsInternal(calls[i]) <==> p.subs[i] == None
      ensures p.subs[i].Some? ==> p.subs[i].value.pid > 0
    {
      assert IsLaunched(p.session.kernel, p.subs[i], calls[i], p.pgid, base - Foreign(pipes, calls[i]));
    }
  }

  /** Without processes there is nothing to wait for. */
  lemma {:induction false} NothingToLookAt(w: World, k: Kernel, subs: Pool, noHang: bool)
    requires AllFinished(subs)
    ensures LookAll(w, k, subs, noHang) == Round(k, subs, true, 0)
  {
    hide IsFinishedStatus;
    if subs != [] {
      var n := |subs| - 1;
      NothingToLookAt(w, k, subs[..n], noHang);
      assert subs == subs[..n] + [subs[n]];
    }
  }

  /** When the shell has waited for a job in the foreground, the job's status is that of the written
      definition exactly if some call of it runs in a process of its own; and otherwise the job is
      detached, in every world, though it has never had a process. */
  lemma DetachedExactly(w: World, con: Console, o: Oracle, pipes: seq<Pipe>, calls: seq<Call>, s: Session, t: Table)
    requires Sound(s, []) && LaunchAll(w, con, o, pipes, calls, s, t).ok
    ensures var p := LaunchAll(w, con, o, pipes, calls, s, t);
            var k := LookAll(w, p.session.kernel, p.subs, false).kernel;
            var job := Wait(w, p.session.kernel, LaunchedJob(p), false).job;
            && (job.status == JobStatus(job.subs, p.pgid != 0 && GroupExists(w, k, p.pgid)) <==> !OnlyInternal(calls))
            && (OnlyInternal(calls) ==>
                  p.pgid == 0 && job.status == Detached && forall i | 0 <= i < |job.subs| :: job.subs[i] == None)
  {
    hide LaunchAll; hide Sound; hide LookAll; hide OnlyInternal; hide JobStatus; hide GroupExists; hide Underway;
    hide Lost; hide TableShrinks;
    var p := LaunchAll(w, con, o, pipes, calls, s, t);
    EveryLaunchEnds(w, con, o, pipes, calls, s, t);
    GroupUnlessInternal(t.open, pipes, calls, p);
    ForegroundKeeps(w, t.open, pipes, calls, p);
    var r := LookAll(w, p.session.kernel, p.subs, false);
    DetachedWithoutProcesses(w, r.kernel, LaunchedJob(p).(subs := r.subs));
    if OnlyInternal(calls) {
      NothingToLookAt(w, p.session.kernel, p.subs, false);
      NoneHasStatus(p.subs, GroupExists(w, r.kernel, 0));
      NoGroupIsOurs(w, r.kernel);
    }
  }

  lemma NoneHasStatus(subs: Pool, grouped: bool)
    requires forall i | 0 <= i < |subs| :: subs[i] == None
    ensures grouped ==> JobStatus(subs, grouped) == Detached
  {
  }

  lemma NoGroupIsOurs(w: World, k: Kernel)
    ensures GroupExists(w, k, 0)
  {
  }

  lemma {:induction false} NoneExternal(calls: seq<Call>)
    requires OnlyInternal(calls)
    ensures Externals(calls) == 0
  {
    hide IsInternal;
    if calls != [] {
      NoneExternal(calls[..|calls| - 1]);
    }
  }

  /** So the shell reaches such a job whenever it launches internal commands alone. */
  lemma InternalJobsDetach(w: World, con: Console, o: Oracle, pipes: seq<Pipe>, calls: seq<Call>, s: Session, t: Table)
    requires Sound(s, []) && OnlyInternal(calls)
    ensures var p := LaunchAll(w, con, o, pipes, calls, s, t);
            && p.ok && p.pgid == 0
            && Wait(w, p.session.kernel, LaunchedJob(p), false).job.status == Detached
            && AllFinished(Wait(w, p.session.kernel, LaunchedJob(p), false).job.subs)
  {
    hide LaunchAll; hide Sound; hide OnlyInternal; hide Wait; hide LookAll; hide JobStatus; hide GroupExists;
    hide Externals;
    NoneExternal(calls);
    LaunchStartsExactly(w, con, o, pipes, calls, s, t);
    DetachedExactly(w, con, o, pipes, calls, s, t);
  }
}
