/** Whole commands and whole sessions: what every command keeps, and what therefore holds of every
    run of the shell. */
module Runs {
  import opened Options
  import opened Descriptors
  import opened Commands
  import opened Statuses
  import opened Kernels
  import opened Waiting
  import opened JobTables
  import opened Tracking
  import opened Sessions
  import opened Launches
  import opened Soundness
  import opened LaunchSoundness

  /** Records at the end of the pool are dropped together with their job. */
  lemma DropLast(k: Kernel, pool: Pool, dropped: Pool)
    requires Coupled(k, pool + dropped)
    ensures Coupled(k, pool + [])
    ensures Orphans(k, pool + dropped) <= Orphans(k, pool + [])
  {
    var all := pool + dropped;
    forall i | 0 <= i < |pool + []|
      ensures Matches(k, (pool + [])[i]) && (pool + [])[i] == all[i]
    {
      assert Matches(k, all[i]);
    }
    forall pid | pid in k.children && Recorded(k, pid, pool + [])
      ensures Recorded(k, pid, all)
    {
      var i :| 0 <= i < |pool + []| && IsRecordOf(k, pid, (pool + [])[i]);
      assert IsRecordOf(k, pid, all[i]);
    }
  }

  /** The job moves from the end of the pool into its slot of the table. */
  lemma MoveBlock(k: Kernel, a: Pool, b: Pool, c: Pool)
    requires Coupled(k, a + c + b)
    ensures Coupled(k, a + b + c)
    ensures Orphans(k, a + b + c) == Orphans(k, a + c + b)
  {
    var was, now := a + c + b, a + b + c;
    forall i: nat | i < |now|
      ensures now[i] == was[Moved(a, b, c, i)] && Matches(k, now[i])
    {
      assert Matches(k, was[Moved(a, b, c, i)]);
    }
    forall pid | pid in k.children
      ensures Recorded(k, pid, was) <==> Recorded(k, pid, now)
    {
      if Recorded(k, pid, was) {
        RecordedMoved(k, pid, a, b, c);
      }
      if Recorded(k, pid, now) {
        RecordedMoved(k, pid, a, c, b);
      }
    }
  }

  lemma RecordedMoved(k: Kernel, pid: int, a: Pool, b: Pool, c: Pool)
    requires pid in k.children && Recorded(k, pid, a + c + b)
    ensures Recorded(k, pid, a + b + c)
  {
    var was, now := a + c + b, a + b + c;
    var i :| 0 <= i < |was| && IsRecordOf(k, pid, was[i]);
    assert now[Moved(a, c, b, i)] == was[i];
  }

  function Moved(a: Pool, b: Pool, c: Pool, i: nat): (j: nat)
    requires i < |a| + |b| + |c|
    ensures j < |a| + |b| + |c|
  {
    if i < |a| then i else if i < |a| + |b| then i + |c| else i - |b|
  }

  lemma {:induction false} FlatOfFree(n: nat)
    ensures Flat(seq(n, _ => None)) == []
  {
    if n > 0 {
      FlatOfFree(n - 1);
      assert seq<Option<JobValue>>(n, _ => None)[..n - 1] == seq(n - 1, _ => None);
    }
  }

  lemma FlatOfGrown(slots: Slots)
    ensures Flat(Grown(slots)) == Flat(slots)
  {
    FlatOfFree(CAPACITY_STEP);
    FlatOfConcat(slots, seq(CAPACITY_STEP, _ => None));
  }

  lemma TableKeeps(s: Session, j: JobValue)
    requires Sound(s, j.subs)
    ensures LeastFree(Grown(s.slots)) < |Grown(s.slots)|
    ensures Sound(InTable(s, j), []) && Occupied(InTable(s, j).slots) == Occupied(s.slots) + 1
    ensures Lost(InTable(s, j), []) == Lost(s, j.subs)
  {
    hide Coupled; hide Orphans; hide KernelOk; hide Grown; hide LeastFree; hide Flat; hide TableOk; hide Occupied;
    AddingAlwaysFits(s.slots, j);
    var slots := Grown(s.slots);
    var i := LeastFree(slots);
    FlatOfGrown(s.slots);
    FlatUpdate(slots, i, Some(j.(id := i + 1)));
    var left, right := Flat(slots[..i]), Flat(slots[i + 1..]);
    assert Flat(s.slots) + j.subs == left + right + j.subs;
    MoveBlock(s.kernel, left, j.subs, right);
    assert Flat(Placed(s.slots, j)) + [] == left + j.subs + right;
  }

  lemma FailedLaunch(w: World, con: Console, o: Oracle, pipes: seq<Pipe>, c: Call, p: Progress)
    requires Sound(p.session, p.subs) && !IsInternal(c) && !w.survives(p.session.kernel.started)
    ensures var q := LaunchOne(w, con, o, pipes, c, p);
            && !q.ok && Sound(q.session, [])
            && q.session.exiting == p.session.exiting && q.session.slots == p.session.slots
            && Lost(p.session, p.subs) < Lost(q.session, [])
            && exists fd :: fd !in p.table.open && q.table.open == p.table.open + {fd}
  {
    hide Coupled; hide Orphans; hide KernelOk; hide Flat; hide TableOk; hide Foreign; hide Forked; hide Piped;
    hide NewPipe; hide NewPid;
    var q := LaunchOne(w, con, o, pipes, c, p);
    var k := p.session.kernel;
    ForkKeepsCoupled(w, k, q.pgid, DEAD, Flat(p.session.slots) + p.subs);
    DropLast(q.session.kernel, Flat(p.session.slots), p.subs);
    OrphansAreChildren(k, Flat(p.session.slots) + p.subs);
    UpIsNew(o, p.table);
  }

  lemma OrphansAreChildren(k: Kernel, pool: Pool)
    ensures Orphans(k, pool) <= k.children.Keys
  {
  }

  lemma UpIsNew(o: Oracle, t: Table)
    ensures Up(o, t).readEnd !in t.open
  {
  }

  /** What launching does to the table: internal commands among the calls may empty it, and only
      with an empty table does one of them decide to leave. */
  ghost predicate TableShrinks(s: Session, calls: seq<Call>, t: Session) {
    && Occupied(t.slots) <= Occupied(s.slots)
    && ((forall c | c in calls :: !Looks(c)) ==> t.slots == s.slots)
    && (s.exiting ==> t.exiting)
    && (t.exiting && !s.exiting ==> Occupied(t.slots) == 0)
  }

  /** How a launch ends: with all processes in place, or, after one has died, with the job dropped
      and one more descriptor left open. */
  ghost predicate LaunchEnds(s: Session, t: Table, pipes: seq<Pipe>, calls: seq<Call>, p: Progress) {
    && TableShrinks(s, calls, p.session)
    && (p.ok ==> Underway(t.open, pipes, calls, p) && Lost(p.session, p.subs) == Lost(s, []))
    && (!p.ok ==>
          && Sound(p.session, []) && Lost(s, []) < Lost(p.session, [])
          && exists fd :: fd !in t.open && p.table.open == t.open + {fd})
  }

  lemma {:induction false} EveryLaunchEnds(w: World, con: Console, o: Oracle, pipes: seq<Pipe>, calls: seq<Call>,
                                           s: Session, t: Table)
    requires Sound(s, [])
    ensures LaunchEnds(s, t, pipes, calls, LaunchAll(w, con, o, pipes, calls, s, t))
  {
    hide Sound; hide Lost; hide LaunchOne; hide Underway; hide TableShrinks;
    if calls == [] {
      NothingLaunched(w, con, o, pipes, s, t);
    } else {
      var n := |calls| - 1;
      var p := LaunchAll(w, con, o, pipes, calls[..n], s, t);
      EveryLaunchEnds(w, con, o, pipes, calls[..n], s, t);
      assert calls == calls[..n] + [calls[n]];
      if p.ok {
        UnderwayIsSound(t.open, pipes, calls[..n], p);
        if IsInternal(calls[n]) {
          BuiltinUnderway(w, con, o, t.open, pipes, calls[..n], calls[n], p);
          BuiltinGuards(w, con, o, pipes, calls[n], p);
        } else if w.survives(p.session.kernel.started) {
          ProcessUnderway(w, con, o, t.open, pipes, calls[..n], calls[n], p);
          ProcessIsQuiet(w, con, o, pipes, calls[n], p);
        } else {
          FailedLaunch(w, con, o, pipes, calls[n], p);
          ProcessIsQuiet(w, con, o, pipes, calls[n], p);
        }
        ShrinksTwice(s, calls[..n], p.session, [calls[n]], LaunchOne(w, con, o, pipes, calls[n], p).session);
      } else {
        ShrinksMore(s, calls[..n], p.session, calls[n]);
      }
    }
  }

  lemma ShrinksTwice(s: Session, xs: seq<Call>, t: Session, ys: seq<Call>, u: Session)
    requires TableShrinks(s, xs, t) && TableShrinks(t, ys, u)
    ensures TableShrinks(s, xs + ys, u)
  {
    hide Occupied; hide Looks;
    assert forall c | c in xs || c in ys :: c in xs + ys;
  }

  lemma ShrinksMore(s: Session, calls: seq<Call>, t: Session, c: Call)
    requires TableShrinks(s, calls, t)
    ensures TableShrinks(s, calls + [c], t)
  {
    hide Occupied; hide Looks;
    assert forall d | d in calls :: d in calls + [c];
  }

  lemma UnderwayIsSound(base: set<int>, pipes: seq<Pipe>, calls: seq<Call>, p: Progress)
    requires Underway(base, pipes, calls, p)
    ensures Sound(p.session, p.subs) && p.table.open == base
  {
    hide Sound; hide IsLaunched;
  }

  lemma NothingLaunched(w: World, con: Console, o: Oracle, pipes: seq<Pipe>, s: Session, t: Table)
    requires Sound(s, [])
    ensures var p := LaunchAll(w, con, o, pipes, [], s, t);
            p.ok && p.session == s && p.subs == [] && Underway(t.open, pipes, [], p) && TableShrinks(s, [], s)
  {
  }

  lemma BuiltinGuards(w: World, con: Console, o: Oracle, pipes: seq<Pipe>, c: Call, p: Progress)
    requires Sound(p.session, p.subs) && IsInternal(c)
    ensures TableShrinks(p.session, [c], LaunchOne(w, con, o, pipes, c, p).session)
  {
    hide Sound; hide Builtin; hide Occupied;
    BuiltinKeeps(w, con, p.session, c, p.subs);
    BuiltinStays(w, con, p.session, c);
  }

  lemma ProcessIsQuiet(w: World, con: Console, o: Oracle, pipes: seq<Pipe>, c: Call, p: Progress)
    requires !IsInternal(c)
    ensures TableShrinks(p.session, [c], LaunchOne(w, con, o, pipes, c, p).session)
  {
    hide Forked; hide NewPid; hide Piped; hide NewPipe; hide Foreign;
  }

  /** The session when all calls of the command have been started. */
  ghost function Started(w: World, con: Console, o: Oracle, pipes: seq<Pipe>, calls: seq<Call>, s: Session, t: Table)
    : Session
  {
    if |calls| == 1 && IsInternal(calls[0]) then Builtin(w, con, s, calls[0]).0
    else LaunchAll(w, con, o, pipes, calls, s, t).session
  }

  /** The command puts a job into the table: it is no internal command by itself, all its processes
      have started, and it runs in the background or some subjob is only stopped when the shell's
      wait is over. */
  ghost predicate LeavesJob(w: World, con: Console, o: Oracle, pipes: seq<Pipe>, calls: seq<Call>, background: bool,
                            s: Session, t: Table) {
    && !(|calls| == 1 && IsInternal(calls[0]))
    && var p := LaunchAll(w, con, o, pipes, calls, s, t);
       p.ok && (background || !AllFinished(Wait(w, p.session.kernel, LaunchedJob(p), false).job.subs))
  }

  /** What every command keeps, whatever the kernel answers: `mid` is the session when its calls
      have been started, and `leaves` tells whether it puts a job into the table. */
  ghost predicate CommandKeeps(s: Session, calls: seq<Call>, mid: Session, leaves: bool, x: Execution) {
    && Sound(x.session, []) && x.session.code == x.code
    && TableShrinks(s, calls, mid)
    && Occupied(x.session.slots) == Occupied(mid.slots) + (if leaves then 1 else 0)
    && (x.jobId.Some? <==> leaves)
    && x.session.exiting == mid.exiting && x.session.kernel.started == mid.kernel.started
  }

  lemma ForegroundKeeps(w: World, base: set<int>, pipes: seq<Pipe>, calls: seq<Call>, p: Progress)
    requires Underway(base, pipes, calls, p)
    ensures var r := Wait(w, p.session.kernel, LaunchedJob(p), false);
            var now := p.session.(kernel := r.kernel);
            && r.ok && Sound(now, r.job.subs) && 0 <= r.code <= 255 && r.kernel.started == p.session.kernel.started
            && Lost(now, r.job.subs) == Lost(p.session, p.subs)
            && (IsFinishedStatus(r.job.status) <==> AllFinished(r.job.subs))
            && (AllFinished(r.job.subs) ==> Sound(now, []) && Lost(now, []) == Lost(p.session, p.subs))
  {
    hide Coupled; hide Orphans; hide KernelOk; hide Flat; hide TableOk; hide Wait; hide IsLaunched; hide Occupied;
    hide AllFinished; hide LedByFirst;
    var left, j := Flat(p.session.slots), LaunchedJob(p);
    var r := Wait(w, p.session.kernel, j, false);
    assert left + p.subs + [] == left + p.subs && left + r.job.subs + [] == left + r.job.subs;
    WaitKeepsCoupled(w, p.session.kernel, left, j, [], false);
    AfterBlockingWait(w, p.session.kernel, left, j, []);
    WaitCode(w, p.session.kernel, j, false);
    if AllFinished(r.job.subs) {
      DropFinished(r.kernel, left, r.job.subs, []);
    }
  }

  lemma JobKeeps(w: World, con: Console, o: Oracle, pipes: seq<Pipe>, calls: seq<Call>, background: bool, s: Session,
                 t: Table, ends: seq<int>)
    requires Sound(s, []) && !(|calls| == 1 && IsInternal(calls[0]))
    ensures var x := RunJob(w, con, o, pipes, calls, background, s, t, ends);
            var p := LaunchAll(w, con, o, pipes, calls, s, t);
            var leaves := LeavesJob(w, con, o, pipes, calls, background, s, t);
            && Sound(x.session.(code := x.code), [])
            && Occupied(x.session.slots) == Occupied(p.session.slots) + (if leaves then 1 else 0)
            && (x.jobId.Some? <==> leaves) && x.session.exiting == p.session.exiting
            && x.session.kernel.started == p.session.kernel.started
            && Lost(x.session, []) == (if p.ok then Lost(s, []) else Lost(p.session, []))
  {
    hide LaunchAll; hide Wait; hide Coupled; hide Orphans; hide KernelOk; hide Flat; hide TableOk; hide Occupied;
    hide Descriptors.Ends; hide IsLaunched; hide LedByFirst; hide AllFinished; hide InTable; hide Grown; hide LeastFree;
    hide IsInternal;
    var p := LaunchAll(w, con, o, pipes, calls, s, t);
    EveryLaunchEnds(w, con, o, pipes, calls, s, t);
    if p.ok {
      var j := LaunchedJob(p);
      if background {
        TableKeeps(p.session, j);
        InTableKeepsRest(p.session, j);
      } else {
        ForegroundKeeps(w, t.open, pipes, calls, p);
        var r := Wait(w, p.session.kernel, j, false);
        var now := p.session.(kernel := r.kernel);
        TableKeeps(now, r.job);
        InTableKeepsRest(now, r.job);
      }
    }
  }

  /** A job launched in the foreground is afterwards either finished and not in the table, or stopped
      and in the table under its id. */
  lemma ForegroundEnds(w: World, con: Console, o: Oracle, pipes: seq<Pipe>, calls: seq<Call>, s: Session, t: Table,
                       ends: seq<int>)
    requires Sound(s, []) && LaunchAll(w, con, o, pipes, calls, s, t).ok
    ensures var p := LaunchAll(w, con, o, pipes, calls, s, t);
            var x := RunJob(w, con, o, pipes, calls, false, s, t, ends);
            var job := Wait(w, p.session.kernel, LaunchedJob(p), false).job;
            if AllFinished(job.subs) then x.jobId == None && x.session.slots == p.session.slots
            else
              && job.status == Stopped && x.jobId.Some? && 1 <= x.jobId.value <= |x.session.slots|
              && x.session.slots[x.jobId.value - 1] == Some(job.(id := x.jobId.value))
  {
    hide LaunchAll; hide Wait; hide Sound; hide Descriptors.Ends; hide Underway; hide AllFinished; hide Grown;
    hide LeastFree; hide TableOk; hide Lost; hide Occupied;
    var p := LaunchAll(w, con, o, pipes, calls, s, t);
    EveryLaunchEnds(w, con, o, pipes, calls, s, t);
    ForegroundKeeps(w, t.open, pipes, calls, p);
    var r := Wait(w, p.session.kernel, LaunchedJob(p), false);
    var now := p.session.(kernel := r.kernel);
    TableKeeps(now, r.job);
    StoppedUnlessFinished(w, t.open, pipes, calls, p);
  }

  lemma StoppedUnlessFinished(w: World, base: set<int>, pipes: seq<Pipe>, calls: seq<Call>, p: Progress)
    requires Underway(base, pipes, calls, p)
    ensures var job := Wait(w, p.session.kernel, LaunchedJob(p), false).job;
            job.status == Stopped <==> !AllFinished(job.subs)
  {
    hide Coupled; hide KernelOk; hide Flat; hide TableOk; hide Wait; hide IsLaunched; hide AllFinished; hide LedByFirst;
    var left := Flat(p.session.slots);
    assert left + p.subs + [] == left + p.subs;
    AfterBlockingWait(w, p.session.kernel, left, LaunchedJob(p), []);
  }

  /** After fg the job has either finished and is out of the table, or is stopped and where it was;
      every other job is where it was. */
  lemma FgEnds(w: World, s: Session, i: nat)
    requires Sound(s, []) && i < |s.slots| && s.slots[i].Some? && Foregrounded(w, s.kernel, s.slots, i).2
    ensures var slots := Foregrounded(w, s.kernel, s.slots, i).1;
            var job := Wait(w, Ticked(s.kernel), s.slots[i].value, false).job;
            && slots == s.slots[i := slots[i]]
            && (slots[i] == None <==> AllFinished(job.subs))
            && (slots[i].Some? ==> slots[i].value == job && job.status == Stopped && job.id == i + 1)
  {
    hide Coupled; hide Orphans; hide KernelOk; hide Flat; hide Wait; hide AllFinished;
    TickKeepsSession(s, []);
    var k, j := Ticked(s.kernel), s.slots[i].value;
    var left, right := Flat(s.slots[..i]), Flat(s.slots[i + 1..]);
    FlatUpdate(s.slots, i, None);
    assert Flat(s.slots) + [] == left + j.subs + right;
    WaitKeepsCoupled(w, k, left, j, right, false);
    AfterBlockingWait(w, k, left, j, right);
  }

  /** All processes of a launched job are in one group, named after the first of them. */
  lemma OneGroupLedByFirst(w: World, con: Console, o: Oracle, pipes: seq<Pipe>, calls: seq<Call>, s: Session, t: Table,
                           first: nat, i: nat)
    requires Sound(s, []) && LaunchAll(w, con, o, pipes, calls, s, t).ok
    requires first <= i < |calls| && !IsInternal(calls[i]) && !IsInternal(calls[first])
    requires forall j | 0 <= j < first :: IsInternal(calls[j])
    ensures var p := LaunchAll(w, con, o, pipes, calls, s, t);
            && |p.subs| == |calls| && p.subs[i].Some? && p.subs[first].Some?
            && Owns(p.session.kernel, p.subs[i].value)
            && p.session.kernel.children[p.subs[i].value.pid].group == p.pgid == p.subs[first].value.pid
  {
    hide LaunchAll; hide Sound; hide Foreign; hide IsInternal; hide Lost; hide Occupied;
    EveryLaunchEnds(w, con, o, pipes, calls, s, t);
    var p := LaunchAll(w, con, o, pipes, calls, s, t);
    forall j | 0 <= j <= first || j == i
      ensures IsLaunched(p.session.kernel, p.subs[j], calls[j], p.pgid, t.open - Foreign(pipes, calls[j]))
    {
    }
    var lead :| IsFirst(p.subs, lead) && p.subs[lead].value.pid == p.pgid;
    assert lead == first;
  }

  lemma InTableKeepsRest(s: Session, j: JobValue)
    ensures InTable(s, j).exiting == s.exiting && InTable(s, j).code == s.code && InTable(s, j).kernel == s.kernel
  {
  }

  /** No process of the command dies before it has joined its group. */
  ghost predicate Starts(w: World, con: Console, o: Oracle, pipes: seq<Pipe>, calls: seq<Call>, s: Session, t: Table) {
    (|calls| == 1 && IsInternal(calls[0])) || LaunchAll(w, con, o, pipes, calls, s, t).ok
  }

  /** How many of the calls are run in processes of their own. */
  function Externals(calls: seq<Call>): nat {
    if calls == [] then 0
    else Externals(calls[..|calls| - 1]) + if IsInternal(calls[|calls| - 1]) then 0 else 1
  }

  /** The next `count` children live to answer the shell. */
  ghost predicate NextSurvive(w: World, k: Kernel, count: nat) {
    forall n | k.started <= n < k.started + count :: w.survives(n)
  }

  /** A launch succeeds if and only if all of its children, the next ones to be started, survive
      until they have answered. */
  lemma {:induction false} LaunchStartsExactly(w: World, con: Console, o: Oracle, pipes: seq<Pipe>, calls: seq<Call>,
                                               s: Session, t: Table)
    requires Sound(s, [])
    ensures var p := LaunchAll(w, con, o, pipes, calls, s, t);
            && (p.ok <==> NextSurvive(w, s.kernel, Externals(calls)))
            && (p.ok ==> p.session.kernel.started == s.kernel.started + Externals(calls))
  {
    hide Sound; hide IsInternal; hide Foreign; hide Piped; hide NewPipe; hide NewPid; hide Builtin; hide Underway;
    hide Occupied; hide Lost; hide Looks;
    if calls != [] {
      var n := |calls| - 1;
      LaunchStartsExactly(w, con, o, pipes, calls[..n], s, t);
      var p := LaunchAll(w, con, o, pipes, calls[..n], s, t);
      EveryLaunchEnds(w, con, o, pipes, calls[..n], s, t);
      if p.ok {
        UnderwayIsSound(t.open, pipes, calls[..n], p);
        if IsInternal(calls[n]) {
          BuiltinStartsNothing(w, con, p.session, calls[n], p.subs);
        }
      }
    }
  }

  lemma BuiltinStartsNothing(w: World, con: Console, s: Session, c: Call, launching: Pool)
    requires Sound(s, launching) && IsInternal(c)
    ensures Builtin(w, con, s, c).0.kernel.started == s.kernel.started
  {
    hide Sound; hide Builtin; hide Occupied; hide Lost;
    BuiltinKeeps(w, con, s, c, launching);
  }

  /** The same for a command; one internal call by itself starts no process. */
  lemma CommandStartsExactly(w: World, con: Console, o: Oracle, pipes: seq<Pipe>, calls: seq<Call>, s: Session,
                             t: Table)
    requires Sound(s, [])
    ensures Starts(w, con, o, pipes, calls, s, t) <==> NextSurvive(w, s.kernel, Externals(calls))
    ensures Starts(w, con, o, pipes, calls, s, t) ==>
              Started(w, con, o, pipes, calls, s, t).kernel.started == s.kernel.started + Externals(calls)
  {
    hide Sound; hide Builtin; hide LaunchAll; hide IsInternal;
    LaunchStartsExactly(w, con, o, pipes, calls, s, t);
    if |calls| == 1 && IsInternal(calls[0]) {
      assert calls[..0] == [];
      BuiltinStartsNothing(w, con, s, calls[0], []);
    }
  }

  lemma EveryCommandKeeps(w: World, con: Console, o: Oracle, pipes: seq<Pipe>, calls: seq<Call>, background: bool,
                          s: Session, t: Table, ends: seq<int>)
    requires Sound(s, [])
    ensures var x := Execute(w, con, o, pipes, calls, background, s, t, ends);
            && CommandKeeps(s, calls, Started(w, con, o, pipes, calls, s, t),
                            LeavesJob(w, con, o, pipes, calls, background, s, t), x)
            && Lost(s, []) <= Lost(x.session, [])
            && (Lost(x.session, []) == Lost(s, []) <==> Starts(w, con, o, pipes, calls, s, t))
  {
    hide RunJob; hide Builtin; hide Coupled; hide Orphans; hide KernelOk; hide Flat; hide TableOk; hide Occupied;
    hide LaunchAll; hide Wait; hide AllFinished; hide Looks; hide Underway;
    if |calls| == 1 && IsInternal(calls[0]) {
      BuiltinKeeps(w, con, s, calls[0], []);
      BuiltinStays(w, con, s, calls[0]);
    } else {
      EveryLaunchEnds(w, con, o, pipes, calls, s, t);
      JobKeeps(w, con, o, pipes, calls, background, s, t, ends);
    }
  }

  /* Runs: any sequence of refreshes, refused lines and commands. */

  datatype Turn = Refresh | Refuse
                | Run(pipes: seq<Pipe>, calls: seq<Call>, background: bool, table: Table, ends: seq<int>)

  ghost function After(w: World, con: Console, o: Oracle, s: Session, turn: Turn): Session {
    match turn
    case Refresh => Refreshed(w, s)
    case Refuse => s.(code := 1)
    case Run(pipes, calls, background, table, ends) =>
      Execute(w, con, o, pipes, calls, background, s, table, ends).session
  }

  function AtStart(): Session {
    Session(Kernel(map[], 0, 0, [], 0), seq(CAPACITY_STEP, _ => None), 0, false)
  }

  ghost function Reached(w: World, con: Console, o: Oracle, turns: seq<Turn>): Session {
    if turns == [] then AtStart()
    else After(w, con, o, Reached(w, con, o, turns[..|turns| - 1]), turns[|turns| - 1])
  }

  lemma StartIsSound()
    ensures Sound(AtStart(), []) && Lost(AtStart(), []) == {} && Occupied(AtStart().slots) == 0
  {
    FlatOfFree(CAPACITY_STEP);
    OccupiedNone(CAPACITY_STEP);
  }

  ghost predicate StartsWell(w: World, con: Console, o: Oracle, turns: seq<Turn>) {
    forall i | 0 <= i < |turns| && turns[i].Run? ::
      Starts(w, con, o, turns[i].pipes, turns[i].calls, Reached(w, con, o, turns[..i]), turns[i].table)
  }

  /** Every session that can be reached is right about all its children; and there is a child that
      the shell will never wait for if and only if some process has died while it was being launched. */
  lemma {:induction false} EveryRunIsSound(w: World, con: Console, o: Oracle, turns: seq<Turn>)
    ensures Sound(Reached(w, con, o, turns), [])
    ensures Lost(Reached(w, con, o, turns), []) == {} <==> StartsWell(w, con, o, turns)
  {
    hide Sound; hide Lost; hide Execute; hide Refreshed; hide Starts; hide TableShrinks; hide Started; hide LeavesJob;
    if turns == [] {
      StartIsSound();
    } else {
      var n := |turns| - 1;
      var s := Reached(w, con, o, turns[..n]);
      EveryRunIsSound(w, con, o, turns[..n]);
      StartsOneMore(w, con, o, turns);
      match turns[n]
      case Refresh => RefreshKeepsSession(w, s);
      case Refuse => CodeIsApart(s, 1);
      case Run(pipes, calls, background, table, ends) =>
        EveryCommandKeeps(w, con, o, pipes, calls, background, s, table, ends);
    }
  }

  lemma StartsOneMore(w: World, con: Console, o: Oracle, turns: seq<Turn>)
    requires turns != []
    ensures var n := |turns| - 1;
            StartsWell(w, con, o, turns) <==>
              && StartsWell(w, con, o, turns[..n])
              && (turns[n].Run? ==>
                    Starts(w, con, o, turns[n].pipes, turns[n].calls, Reached(w, con, o, turns[..n]), turns[n].table))
  {
    hide Reached; hide Starts;
    var n := |turns| - 1;
    assert forall i | 0 <= i < n :: turns[..n][i] == turns[i] && turns[..n][..i] == turns[..i];
  }

  lemma RefreshKeepsSession(w: World, s: Session)
    requires Sound(s, [])
    ensures Sound(Refreshed(w, s), []) && Lost(Refreshed(w, s), []) == Lost(s, [])
  {
    RefreshKeeps(w, s, []);
  }

  lemma CodeIsApart(s: Session, code: int)
    requires Sound(s, []) && 0 <= code <= 255
    ensures Sound(s.(code := code), []) && Lost(s.(code := code), []) == Lost(s, [])
  {
  }

  /** In particular: waitpid is never called on anything but an unreaped child, no child is reaped
      twice, a watched subjob is Running or Stopped exactly while its child is unreaped, and the
      last exit code is one byte. */
  lemma InEveryRun(w: World, con: Console, o: Oracle, turns: seq<Turn>, i: nat, n: nat)
    ensures var s := Reached(w, con, o, turns);
            && s.kernel.refused == 0
            && (forall a, b | 0 <= a < b < |s.kernel.reaped| :: s.kernel.reaped[a] != s.kernel.reaped[b])
            && 0 <= s.code <= 255
            && TableOk(s.slots)
            && (i < |s.slots| && s.slots[i].Some? && n < |s.slots[i].value.subs| && s.slots[i].value.subs[n].Some? ==>
                  var sub := s.slots[i].value.subs[n].value;
                  (sub.lastStatus == Running || sub.lastStatus == Stopped <==> Owns(s.kernel, sub)))
  {
    hide Reached; hide Sound; hide TableOk;
    EveryRunIsSound(w, con, o, turns);
    WhatSoundMeans(Reached(w, con, o, turns), i, n);
  }

  lemma WhatSoundMeans(s: Session, i: nat, n: nat)
    requires Sound(s, [])
    ensures s.kernel.refused == 0 && 0 <= s.code <= 255 && TableOk(s.slots)
    ensures forall a, b | 0 <= a < b < |s.kernel.reaped| :: s.kernel.reaped[a] != s.kernel.reaped[b]
    ensures i < |s.slots| && s.slots[i].Some? && n < |s.slots[i].value.subs| && s.slots[i].value.subs[n].Some? ==>
              var sub := s.slots[i].value.subs[n].value;
              (sub.lastStatus == Running || sub.lastStatus == Stopped <==> Owns(s.kernel, sub))
  {
    hide TableOk; hide Flat; hide Orphans;
    if i < |s.slots| && s.slots[i].Some? && n < |s.slots[i].value.subs| {
      FlatUpdate(s.slots, i, None);
      var pool := Flat(s.slots) + [];
      assert pool[|Flat(s.slots[..i])| + n] == s.slots[i].value.subs[n];
      assert Matches(s.kernel, pool[|Flat(s.slots[..i])| + n]);
    }
  }
}
