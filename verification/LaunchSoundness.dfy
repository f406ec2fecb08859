/** What holds at every point of a launch: every process started for the job is in the job's group,
    is still unreaped, and has open what the shell had open but the pipe ends foreign to its call. */
module LaunchSoundness {
  import opened Options
  import opened Descriptors
  import opened Commands
  import opened Statuses
  import opened Kernels
  import opened JobTables
  import opened Tracking
  import opened Sessions
  import opened Launches
  import opened Soundness

  /** The process in slot `i` of the job. */
  ghost predicate IsLaunched(k: Kernel, sub: Option<Subjob>, c: Call, pgid: int, open: set<int>) {
    if IsInternal(c) then sub == None
    else
      && sub.Some? && sub.value.lastStatus == Running && Owns(k, sub.value)
      && k.children[sub.value.pid].group == pgid && k.children[sub.value.pid].image == Image(open, Some(ProgramOf(c)))
  }

  /** The group is named after the first process started. */
  ghost predicate LedByFirst(subs: Pool, pgid: int) {
    if forall i | 0 <= i < |subs| :: subs[i] == None then pgid == 0
    else exists i :: IsFirst(subs, i) && subs[i].value.pid == pgid
  }

  predicate IsFirst(subs: Pool, i: int) {
    0 <= i < |subs| && subs[i].Some? && forall j | 0 <= j < i :: subs[j] == None
  }

  ghost predicate Underway(base: set<int>, pipes: seq<Pipe>, calls: seq<Call>, p: Progress) {
    && Sound(p.session, p.subs)
    && p.table.open == base && |p.subs| == |calls|
    && (forall i | 0 <= i < |calls| ::
          IsLaunched(p.session.kernel, p.subs[i], calls[i], p.pgid, base - Foreign(pipes, calls[i])))
    && LedByFirst(p.subs, p.pgid)
    && NO_CODE <= p.chief <= 255
    && (p.chief != NO_CODE <==> calls != [] && IsInternal(calls[0]))
  }

  /** Children that stay, stay as they are. */
  lemma LaunchedLater(k: Kernel, l: Kernel, pool: Pool, at: nat, c: Call, pgid: int, open: set<int>)
    requires at < |pool| && IsLaunched(k, pool[at], c, pgid, open)
    requires Later(k, l) && Coupled(l, pool)
    ensures IsLaunched(l, pool[at], c, pgid, open)
  {
    assert Matches(l, pool[at]);
  }

  lemma BuiltinUnderway(w: World, con: Console, o: Oracle, base: set<int>, pipes: seq<Pipe>, calls: seq<Call>, c: Call,
                        p: Progress)
    requires Underway(base, pipes, calls, p) && IsInternal(c)
    ensures var q := LaunchOne(w, con, o, pipes, c, p);
            && Underway(base, pipes, calls + [c], q)
            && Lost(q.session, q.subs) == Lost(p.session, p.subs)
            && q.ok == p.ok
  {
    hide KernelOk; hide Coupled; hide Orphans; hide Flat; hide Builtin; hide TableOk; hide Foreign; hide LedByFirst;
    hide IsLaunched;
    BuiltinKeeps(w, con, p.session, c, p.subs);
    var q := LaunchOne(w, con, o, pipes, c, p);
    var k, l := p.session.kernel, q.session.kernel;
    var pool := Flat(q.session.slots) + p.subs;
    assert Flat(q.session.slots) + q.subs == pool + [None];
    NoneAdded(l, pool);
    NoneLeads(p.subs, p.pgid);
    forall i | 0 <= i < |calls + [c]|
      ensures IsLaunched(l, q.subs[i], (calls + [c])[i], q.pgid, base - Foreign(pipes, (calls + [c])[i]))
    {
      if i < |calls| {
        assert pool[|Flat(q.session.slots)| + i] == p.subs[i];
        LaunchedLater(k, l, pool, |Flat(q.session.slots)| + i, calls[i], p.pgid, base - Foreign(pipes, calls[i]));
      } else {
        InternalIsNotLaunched(l, c, q.pgid, base - Foreign(pipes, c));
      }
    }
  }

  lemma InternalIsNotLaunched(k: Kernel, c: Call, pgid: int, open: set<int>)
    requires IsInternal(c)
    ensures IsLaunched(k, None, c, pgid, open)
  {
  }

  lemma NoneAdded(k: Kernel, pool: Pool)
    requires Coupled(k, pool)
    ensures Coupled(k, pool + [None])
    ensures Orphans(k, pool + [None]) == Orphans(k, pool)
  {
    forall pid | pid in k.children
      ensures Recorded(k, pid, pool) <==> Recorded(k, pid, pool + [None])
    {
      RecordedInMore(k, pid, pool, None);
    }
  }

  lemma RecordedInMore(k: Kernel, pid: int, pool: Pool, sub: Option<Subjob>)
    requires pid in k.children
    ensures Recorded(k, pid, pool + [sub]) <==> Recorded(k, pid, pool) || IsRecordOf(k, pid, sub)
  {
    if Recorded(k, pid, pool) {
      var i :| 0 <= i < |pool| && IsRecordOf(k, pid, pool[i]);
      assert IsRecordOf(k, pid, (pool + [sub])[i]);
    }
    if IsRecordOf(k, pid, sub) {
      assert IsRecordOf(k, pid, (pool + [sub])[|pool|]);
    }
  }

  lemma NoneLeads(subs: Pool, pgid: int)
    requires LedByFirst(subs, pgid)
    ensures LedByFirst(subs + [None], pgid)
  {
    if !(forall i | 0 <= i < |subs| :: subs[i] == None) {
      var i :| IsFirst(subs, i) && subs[i].value.pid == pgid;
      assert IsFirst(subs + [None], i);
      assert (subs + [None])[i] != None;
    } else {
      assert forall i | 0 <= i < |subs + [None]| :: (subs + [None])[i] == None;
    }
  }

  lemma ProcessLeads(subs: Pool, pgid: int, sub: Subjob)
    requires LedByFirst(subs, pgid) && (pgid == 0 <==> forall i | 0 <= i < |subs| :: subs[i] == None)
    ensures LedByFirst(subs + [Some(sub)], GroupOf(pgid, sub.pid))
  {
    var all := subs + [Some(sub)];
    assert all[|subs|] != None;
    if forall i | 0 <= i < |subs| :: subs[i] == None {
      assert IsFirst(all, |subs|);
    } else {
      var i :| IsFirst(subs, i) && subs[i].value.pid == pgid;
      assert IsFirst(all, i);
    }
  }

  /** A new child matches its new record, and no old record even if the pid is used again. */
  lemma ForkKeepsCoupled(w: World, k: Kernel, group: int, image: Image, pool: Pool)
    requires KernelOk(k) && Coupled(k, pool)
    ensures var l := Forked(w, k, group, image);
            var sub := Some(Subjob(NewPid(w, k), k.started, Running));
            && KernelOk(l) && Coupled(l, pool) && Coupled(l, pool + [sub])
            && Orphans(l, pool + [sub]) == Orphans(k, pool)
            && Orphans(l, pool) == Orphans(k, pool) + {NewPid(w, k)}
  {
    hide NewPid;
    var l := Forked(w, k, group, image);
    var sub := Some(Subjob(NewPid(w, k), k.started, Running));
    forall i | 0 <= i < |pool|
      ensures Matches(l, pool[i]) && (pool[i].Some? ==> pool[i].value.serial < k.started)
    {
      assert Matches(k, pool[i]);
    }
    assert Matches(l, sub);
    forall pid | pid in l.children
      ensures Recorded(l, pid, pool + [sub]) <==> Recorded(l, pid, pool) || pid == NewPid(w, k)
      ensures pid == NewPid(w, k) ==> !Recorded(l, pid, pool)
      ensures pid != NewPid(w, k) ==> (Recorded(l, pid, pool) <==> Recorded(k, pid, pool))
    {
      RecordedInMore(l, pid, pool, sub);
      RecordedAfterFork(w, k, group, image, pool, pid);
    }
  }

  lemma RecordedAfterFork(w: World, k: Kernel, group: int, image: Image, pool: Pool, pid: int)
    requires Coupled(k, pool) && pid in Forked(w, k, group, image).children
    ensures pid == NewPid(w, k) ==> !Recorded(Forked(w, k, group, image), pid, pool)
    ensures pid != NewPid(w, k) ==> (Recorded(Forked(w, k, group, image), pid, pool) <==> Recorded(k, pid, pool))
  {
    hide NewPid;
    forall i | 0 <= i < |pool|
      ensures pid == NewPid(w, k) ==> !IsRecordOf(Forked(w, k, group, image), pid, pool[i])
      ensures pid != NewPid(w, k) ==>
                (IsRecordOf(Forked(w, k, group, image), pid, pool[i]) <==> IsRecordOf(k, pid, pool[i]))
    {
      assert Matches(k, pool[i]);
    }
  }

  /** A group that has a leader is a group the kernel knows: the leader has not been reaped. */
  lemma LeaderIsThere(base: set<int>, pipes: seq<Pipe>, calls: seq<Call>, p: Progress)
    requires Underway(base, pipes, calls, p)
    ensures p.pgid == 0 || (p.pgid > 0 && IsGroup(p.session.kernel, p.pgid))
    ensures p.pgid == 0 <==> forall i | 0 <= i < |p.subs| :: p.subs[i] == None
  {
    hide Coupled; hide Orphans; hide Flat; hide TableOk; hide Foreign;
    if !(forall i | 0 <= i < |p.subs| :: p.subs[i] == None) {
      var i :| IsFirst(p.subs, i) && p.subs[i].value.pid == p.pgid;
      assert IsLaunched(p.session.kernel, p.subs[i], calls[i], p.pgid, base - Foreign(pipes, calls[i]));
      assert p.pgid in p.session.kernel.children;
    }
  }

  /** Forking adds a child and leaves the others as they are. */
  lemma LaunchedAfterFork(w: World, k: Kernel, group: int, image: Image, sub: Option<Subjob>, c: Call, pgid: int,
                          open: set<int>)
    requires IsLaunched(k, sub, c, pgid, open)
    ensures IsLaunched(Forked(w, k, group, image), sub, c, pgid, open)
  {
    hide NewPid;
  }

  lemma ProcessUnderway(w: World, con: Console, o: Oracle, base: set<int>, pipes: seq<Pipe>, calls: seq<Call>, c: Call,
                        p: Progress)
    requires Underway(base, pipes, calls, p) && !IsInternal(c)
    requires w.survives(p.session.kernel.started)
    ensures var q := LaunchOne(w, con, o, pipes, c, p);
            && Underway(base, pipes, calls + [c], q)
            && Lost(q.session, q.subs) == Lost(p.session, p.subs)
            && q.ok == p.ok
  {
    hide KernelOk; hide Coupled; hide Orphans; hide Flat; hide TableOk; hide Foreign; hide LedByFirst; hide NewPid;
    hide IsLaunched; hide Forked; hide Piped; hide NewPipe; hide IsInternal;
    var q := LaunchOne(w, con, o, pipes, c, p);
    var k, l := p.session.kernel, q.session.kernel;
    var pool := Flat(p.session.slots) + p.subs;
    var sub := Subjob(NewPid(w, k), k.started, Running);
    LeaderIsThere(base, pipes, calls, p);
    var image := Image(base - Foreign(pipes, c), Some(ProgramOf(c)));
    ForkKeepsCoupled(w, k, q.pgid, image, pool);
    assert Flat(q.session.slots) + q.subs == pool + [Some(sub)];
    ProcessLeads(p.subs, p.pgid, sub);
    NewIsLaunched(w, k, c, q.pgid, base - Foreign(pipes, c));
    forall i | 0 <= i < |calls + [c]|
      ensures IsLaunched(l, q.subs[i], (calls + [c])[i], q.pgid, base - Foreign(pipes, (calls + [c])[i]))
    {
      if i < |calls| {
        assert q.subs[i] == p.subs[i];
        LaunchedAfterFork(w, k, q.pgid, image, p.subs[i], calls[i], p.pgid,
                          base - Foreign(pipes, calls[i]));
        SameGroup(l, p.subs, i, calls[i], p.pgid, q.pgid, base - Foreign(pipes, calls[i]));
      }
    }
  }

  /** Only a job without processes changes its group. */
  lemma SameGroup(k: Kernel, subs: Pool, i: nat, c: Call, pgid: int, later: int, open: set<int>)
    requires i < |subs| && IsLaunched(k, subs[i], c, pgid, open)
    requires pgid == 0 ==> forall j | 0 <= j < |subs| :: subs[j] == None
    requires pgid != 0 ==> later == pgid
    ensures IsLaunched(k, subs[i], c, later, open)
  {
  }

  lemma NewIsLaunched(w: World, k: Kernel, c: Call, group: int, open: set<int>)
    requires !IsInternal(c)
    ensures var image := Image(open, Some(ProgramOf(c)));
            IsLaunched(Forked(w, k, group, image), Some(Subjob(NewPid(w, k), k.started, Running)), c, group, open)
  {
    hide NewPid;
  }
}
