/** Every watched process that has not ended is in its job's own group, in every session; so a job that
    lives can always be continued. */
module Groups {
  import opened Options
  import opened Descriptors
  import opened Commands
  import opened Statuses
  import opened Kernels
  import opened Waiting
  import opened Jobs
  import opened JobTables
  import opened Tracking
  import opened Sessions
  import opened Launches
  import opened Soundness
  import opened LaunchSoundness
  import opened Runs
  import opened Polling
  import opened Continuing

  predicate InGroup(k: Kernel, sub: Option<Subjob>, pgid: int) {
    IsWaitedFor(sub) ==>
      sub.value.pid in k.children && k.children[sub.value.pid].group == pgid && pgid > 0
  }

  ghost predicate JobGrouped(k: Kernel, j: JobValue) {
    forall n | 0 <= n < |j.subs| :: InGroup(k, j.subs[n], j.pgid)
  }

  ghost predicate Grouped(s: Session) {
    forall i | 0 <= i < |s.slots| && s.slots[i].Some? :: JobGrouped(s.kernel, s.slots[i].value)
  }

  /* Jobs that only grow older. */

  ghost predicate Older(was: JobValue, now: JobValue) {
    now.pgid == was.pgid && FollowsAll(was.subs, now.subs)
  }

  lemma GroupedLater(k: Kernel, l: Kernel, was: JobValue, now: JobValue)
    requires JobGrouped(k, was) && Later(k, l) && Older(was, now)
    requires forall n | 0 <= n < |now.subs| :: Matches(l, now.subs[n])
    ensures JobGrouped(l, now)
  {
    forall n | 0 <= n < |now.subs|
      ensures InGroup(l, now.subs[n], now.pgid)
    {
      assert Follows(was.subs[n], now.subs[n]) && InGroup(k, was.subs[n], was.pgid) && Matches(l, now.subs[n]);
    }
  }

  /** Jobs leave the table or grow older. */
  ghost predicate Aging(was: Slots, now: Slots) {
    && |now| == |was|
    && forall i | 0 <= i < |was| && now[i].Some? :: was[i].Some? && Older(was[i].value, now[i].value)
  }

  lemma SlotMatches(s: Session, launching: Pool, i: nat, n: nat)
    requires Sound(s, launching) && i < |s.slots| && s.slots[i].Some? && n < |s.slots[i].value.subs|
    ensures Matches(s.kernel, s.slots[i].value.subs[n])
  {
    hide KernelOk; hide TableOk; hide Flat;
    FlatUpdate(s.slots, i, None);
    var pool := Flat(s.slots) + launching;
    assert pool[|Flat(s.slots[..i])| + n] == s.slots[i].value.subs[n];
    assert Matches(s.kernel, pool[|Flat(s.slots[..i])| + n]);
  }

  lemma AgingKeepsGroups(s: Session, t: Session, launching: Pool)
    requires Grouped(s) && Sound(t, launching) && Later(s.kernel, t.kernel) && Aging(s.slots, t.slots)
    ensures Grouped(t)
  {
    hide Sound; hide Later; hide JobGrouped; hide Older;
    forall i: nat | i < |t.slots| && t.slots[i].Some?
      ensures JobGrouped(t.kernel, t.slots[i].value)
    {
      forall n: nat | n < |t.slots[i].value.subs|
        ensures Matches(t.kernel, t.slots[i].value.subs[n])
      {
        SlotMatches(t, launching, i, n);
      }
      GroupedLater(s.kernel, t.kernel, s.slots[i].value, t.slots[i].value);
    }
  }

  lemma SameIsOlder(j: JobValue)
    ensures Older(j, j)
  {
  }

  lemma SweptIsOlder(w: World, clock: nat, was: JobValue, now: Option<JobValue>)
    requires JobSwept(w, clock, was, now) && now.Some?
    ensures Older(was, now.value)
  {
    hide WaitedBefore; hide AnswerAt;
    var subs :| SweptTo(w, clock, was, subs, now);
    forall n | 0 <= n < |was.subs|
      ensures Follows(was.subs[n], subs[n])
    {
      assert Reports(was.subs[n], AnswerAt(w, clock + WaitedBefore(was.subs, n), true), subs[n]);
    }
  }

  lemma RefreshAges(w: World, s: Session, launching: Pool)
    requires Sound(s, launching)
    ensures Aging(s.slots, Refreshed(w, s).slots)
  {
    hide KernelOk; hide Coupled; hide Flat; hide TableOk; hide Sweep; hide Older; hide JobSwept;
    forall i: nat | i < |s.slots| && Refreshed(w, s).slots[i].Some?
      ensures s.slots[i].Some? && Older(s.slots[i].value, Refreshed(w, s).slots[i].value)
    {
      SweepLeavesTheLiving(w, s.kernel, s.slots, i);
      assert [] + Flat(s.slots) + launching == Flat(s.slots) + launching;
      var clock := SweepReports(w, s.kernel, [], s.slots, launching, i);
      SweptIsOlder(w, clock, s.slots[i].value, Refreshed(w, s).slots[i]);
    }
  }

  lemma ForegroundAges(w: World, s: Session, i: nat, launching: Pool)
    requires Sound(s, launching) && i < |s.slots| && s.slots[i].Some?
    ensures Aging(s.slots, Foregrounded(w, s.kernel, s.slots, i).1)
  {
    hide KernelOk; hide Coupled; hide Flat; hide TableOk; hide Wait; hide FollowsAll; hide AllFinished;
    hide GroupExists;
    forall k: nat | k < |s.slots| && s.slots[k].Some?
      ensures Older(s.slots[k].value, s.slots[k].value)
    {
      SameIsOlder(s.slots[k].value);
    }
    TickKeepsSession(s, launching);
    var j := s.slots[i].value;
    var left, right := Flat(s.slots[..i]), Flat(s.slots[i + 1..]) + launching;
    FlatUpdate(s.slots, i, None);
    assert Flat(s.slots) + launching == left + j.subs + right;
    WaitKeepsCoupled(w, Ticked(s.kernel), left, j, right, false);
  }

  lemma NothingAges(slots: Slots)
    ensures Aging(slots, slots)
  {
    hide Older;
    forall i: nat | i < |slots| && slots[i].Some?
      ensures Older(slots[i].value, slots[i].value)
    {
      SameIsOlder(slots[i].value);
    }
  }

  lemma BuiltinAges(w: World, con: Console, s: Session, c: Call, launching: Pool)
    requires Sound(s, launching) && IsInternal(c)
    ensures Aging(s.slots, Builtin(w, con, s, c).0.slots)
  {
    hide Sound; hide Aging; hide Sweep; hide Foregrounded; hide SomeJobAlive; hide NamedSlot;
    NothingAges(s.slots);
    RefreshAges(w, s, launching);
    if c.argv[0].text == "fg" && |c.argv| == 2 && NamedSlot(con, s.slots, c.argv[1]).Some? {
      ForegroundAges(w, s, NamedSlot(con, s.slots, c.argv[1]).value, launching);
    }
  }

  lemma BuiltinKeepsGroups(w: World, con: Console, s: Session, c: Call, launching: Pool)
    requires Sound(s, launching) && Grouped(s) && IsInternal(c)
    ensures Grouped(Builtin(w, con, s, c).0)
  {
    hide Sound; hide Grouped; hide Aging; hide Builtin; hide Later; hide Lost; hide Occupied;
    BuiltinAges(w, con, s, c, launching);
    BuiltinKeeps(w, con, s, c, launching);
    AgingKeepsGroups(s, Builtin(w, con, s, c).0, launching);
  }

  /* Launching. */

  lemma ForkKeepsGroups(w: World, s: Session, group: int, image: Image)
    requires Grouped(s)
    ensures Grouped(s.(kernel := Forked(w, s.kernel, group, image)))
  {
    hide NewPid;
    forall i: nat | i < |s.slots| && s.slots[i].Some?
      ensures JobGrouped(Forked(w, s.kernel, group, image), s.slots[i].value)
    {
      assert JobGrouped(s.kernel, s.slots[i].value);
      forall n | 0 <= n < |s.slots[i].value.subs|
        ensures InGroup(Forked(w, s.kernel, group, image), s.slots[i].value.subs[n], s.slots[i].value.pgid)
      {
        assert InGroup(s.kernel, s.slots[i].value.subs[n], s.slots[i].value.pgid);
      }
    }
  }

  lemma {:induction false} LaunchKeepsGroups(w: World, con: Console, o: Oracle, pipes: seq<Pipe>, calls: seq<Call>,
                                             s: Session, t: Table)
    requires Sound(s, []) && Grouped(s)
    ensures Grouped(LaunchAll(w, con, o, pipes, calls, s, t).session)
  {
    hide Sound; hide Grouped; hide Builtin; hide IsInternal; hide Forked; hide NewPid; hide Piped; hide NewPipe;
    hide Foreign; hide Lost; hide Underway; hide Occupied; hide Looks;
    if calls != [] {
      var n := |calls| - 1;
      LaunchKeepsGroups(w, con, o, pipes, calls[..n], s, t);
      EveryLaunchEnds(w, con, o, pipes, calls[..n], s, t);
      var p := LaunchAll(w, con, o, pipes, calls[..n], s, t);
      if p.ok {
        UnderwayIsSound(t.open, pipes, calls[..n], p);
        if IsInternal(calls[n]) {
          BuiltinKeepsGroups(w, con, p.session, calls[n], p.subs);
        } else {
          var group := GroupOf(p.pgid, NewPid(w, p.session.kernel));
          ForkKeepsGroups(w, p.session, group,
                          Image(p.table.open - Foreign(pipes, calls[n]), Some(ProgramOf(calls[n]))));
          ForkKeepsGroups(w, p.session, group, DEAD);
        }
      }
    }
  }

  lemma LaunchedIsGrouped(base: set<int>, pipes: seq<Pipe>, calls: seq<Call>, p: Progress)
    requires Underway(base, pipes, calls, p)
    ensures JobGrouped(p.session.kernel, LaunchedJob(p))
  {
    LeaderIsThere(base, pipes, calls, p);
    hide Sound; hide LedByFirst; hide Foreign; hide IsInternal;
    forall n: nat | n < |p.subs|
      ensures InGroup(p.session.kernel, p.subs[n], p.pgid)
    {
      assert IsLaunched(p.session.kernel, p.subs[n], calls[n], p.pgid, base - Foreign(pipes, calls[n]));
    }
  }

  lemma TableKeepsGroups(s: Session, j: JobValue)
    requires Sound(s, j.subs) && Grouped(s) && JobGrouped(s.kernel, j)
    ensures Grouped(InTable(s, j))
  {
    hide KernelOk; hide Coupled; hide Flat; hide Grown; hide LeastFree; hide TableOk; hide InGroup; hide Occupied;
    AddingAlwaysFits(s.slots, j);
    var now := InTable(s, j).slots;
    forall i | 0 <= i < |now| && now[i].Some?
      ensures JobGrouped(s.kernel, now[i].value)
    {
      if i == LeastFree(Grown(s.slots)) {
        assert now[i].value == j.(id := i + 1);
      } else {
        OnlyOneIsNew(s.slots, j, i);
      }
    }
  }

  lemma OnlyOneIsNew(slots: Slots, j: JobValue, i: int)
    requires LeastFree(Grown(slots)) < |Grown(slots)| && 0 <= i < |Grown(slots)| && i != LeastFree(Grown(slots))
    ensures Placed(slots, j)[i].Some? ==> i < |slots| && Placed(slots, j)[i] == slots[i]
  {
    hide LeastFree; hide Occupied;
  }

  lemma JobKeepsGroups(w: World, con: Console, o: Oracle, pipes: seq<Pipe>, calls: seq<Call>, background: bool,
                       s: Session, t: Table, ends: seq<int>)
    requires Sound(s, []) && Grouped(s)
    ensures Grouped(RunJob(w, con, o, pipes, calls, background, s, t, ends).session)
  {
    hide LaunchAll; hide Wait; hide Sound; hide Grouped; hide Descriptors.Ends; hide Underway; hide InTable; hide Lost;
    hide JobGrouped; hide IsInternal; hide Occupied; hide AllFinished; hide Looks; hide Grown; hide LeastFree;
    LaunchKeepsGroups(w, con, o, pipes, calls, s, t);
    EveryLaunchEnds(w, con, o, pipes, calls, s, t);
    var p := LaunchAll(w, con, o, pipes, calls, s, t);
    if p.ok {
      UnderwayIsSound(t.open, pipes, calls, p);
      LaunchedIsGrouped(t.open, pipes, calls, p);
      if background {
        TableKeepsGroups(p.session, LaunchedJob(p));
      } else {
        WaitKeepsGroups(w, t.open, pipes, calls, p);
        var r := Wait(w, p.session.kernel, LaunchedJob(p), false);
        ForegroundKeeps(w, t.open, pipes, calls, p);
        TableKeepsGroups(p.session.(kernel := r.kernel), r.job);
      }
    }
  }

  lemma WaitKeepsGroups(w: World, base: set<int>, pipes: seq<Pipe>, calls: seq<Call>, p: Progress)
    requires Underway(base, pipes, calls, p) && Grouped(p.session)
    ensures var r := Wait(w, p.session.kernel, LaunchedJob(p), false);
            Grouped(p.session.(kernel := r.kernel)) && JobGrouped(r.kernel, r.job)
  {
    hide Underway; hide Grouped; hide JobGrouped; hide Wait; hide Sound; hide Aging; hide AllFinished; hide Later;
    hide Lost; hide FollowsAll;
    LaunchedIsGrouped(base, pipes, calls, p);
    ForegroundKeeps(w, base, pipes, calls, p);
    UnderwayIsSound(base, pipes, calls, p);
    var r := Wait(w, p.session.kernel, LaunchedJob(p), false);
    WaitAges(w, p.session, LaunchedJob(p));
    NothingAges(p.session.slots);
    AgingKeepsGroups(p.session, p.session.(kernel := r.kernel), r.job.subs);
    GroupedLater(p.session.kernel, r.kernel, LaunchedJob(p), r.job);
  }

  lemma WaitAges(w: World, s: Session, j: JobValue)
    requires Sound(s, j.subs)
    ensures var r := Wait(w, s.kernel, j, false);
            && Later(s.kernel, r.kernel) && Older(j, r.job)
            && forall n | 0 <= n < |r.job.subs| :: Matches(r.kernel, r.job.subs[n])
  {
    hide Wait; hide KernelOk; hide Flat; hide TableOk; hide FollowsAll; hide Later;
    var left := Flat(s.slots);
    var r := Wait(w, s.kernel, j, false);
    assert left + j.subs + [] == left + j.subs && left + r.job.subs + [] == left + r.job.subs;
    WaitKeepsCoupled(w, s.kernel, left, j, [], false);
    forall n | 0 <= n < |r.job.subs|
      ensures Matches(r.kernel, r.job.subs[n])
    {
      assert (left + r.job.subs)[|left| + n] == r.job.subs[n];
    }
  }

  lemma CommandKeepsGroups(w: World, con: Console, o: Oracle, pipes: seq<Pipe>, calls: seq<Call>, background: bool,
                           s: Session, t: Table, ends: seq<int>)
    requires Sound(s, []) && Grouped(s)
    ensures Grouped(Execute(w, con, o, pipes, calls, background, s, t, ends).session)
  {
    hide RunJob; hide Builtin; hide Sound; hide JobGrouped;
    if |calls| == 1 && IsInternal(calls[0]) {
      BuiltinKeepsGroups(w, con, s, calls[0], []);
    } else {
      JobKeepsGroups(w, con, o, pipes, calls, background, s, t, ends);
    }
  }

  /** In every session that can be reached. */
  lemma {:induction false} EveryRunIsGrouped(w: World, con: Console, o: Oracle, turns: seq<Turn>)
    ensures Grouped(Reached(w, con, o, turns))
  {
    hide Sound; hide JobGrouped; hide Execute; hide Refreshed; hide Later; hide Aging; hide Lost; hide Occupied;
    if turns != [] {
      var n := |turns| - 1;
      var s := Reached(w, con, o, turns[..n]);
      EveryRunIsGrouped(w, con, o, turns[..n]);
      EveryRunIsSound(w, con, o, turns[..n]);
      match turns[n]
      case Refresh =>
        RefreshAges(w, s, []);
        RefreshKeeps(w, s, []);
        AgingKeepsGroups(s, Refreshed(w, s), []);
      case Refuse =>
      case Run(pipes, calls, background, table, ends) =>
        CommandKeepsGroups(w, con, o, pipes, calls, background, s, table, ends);
    }
  }

  /** So a job with a subjob that has not ended can be continued, whatever its other processes have done:
      fg and bg return 0 for it. */
  lemma LivingJobsContinue(w: World, con: Console, s: Session, word: Word, i: nat)
    requires Sound(s, []) && Grouped(s) && Names(con, s.slots, word, i) && Alive(s.slots[i].value.subs)
    ensures forall c: Call | c.argv == [Text("fg"), word] || c.argv == [Text("bg"), word] ::
              IsInternal(c) && Builtin(w, con, s, c).1 == 0
  {
    hide Sound; hide Builtin; hide Foregrounded; hide GroupExists;
    LivingJobHasGroup(w, s, s.slots[i].value);
    assert NamesGroup(w, con, s, word, i);
    forall c: Call | c.argv == [Text("fg"), word] || c.argv == [Text("bg"), word]
      ensures IsInternal(c) && Builtin(w, con, s, c).1 == 0
    {
      assert NamesGroup(w, con, s, c.argv[1], i) && s.slots[i].value.pgid != 0;
      if c.argv[0] == Text("fg") {
        FgAnswers(w, con, s, c);
      } else {
        BgAnswers(w, con, s, c);
      }
    }
  }

  lemma LivingJobHasGroup(w: World, s: Session, j: JobValue)
    requires JobGrouped(s.kernel, j) && Alive(j.subs)
    ensures j.pgid > 0 && GroupExists(w, s.kernel, j.pgid)
  {
    FinishedOrAlive(j.subs);
    var n :| 0 <= n < |j.subs| && IsWaitedFor(j.subs[n]);
    assert InGroup(s.kernel, j.subs[n], j.pgid);
    assert j.subs[n].value.pid in s.kernel.children;
  }
}
