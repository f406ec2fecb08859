/** The shell's view of its children agrees with the kernel's: a subjob's status is Running or
    Stopped exactly while its process has not been reaped. */
module Tracking {
  import opened Options
  import opened Statuses
  import opened Kernels
  import opened Waiting
  import opened Jobs
  import opened JobTables

  type Pool = seq<Option<Subjob>>

  /** `s` is the record of a child that has not been reaped. */
  predicate Owns(k: Kernel, s: Subjob) {
    s.pid in k.children && k.children[s.pid].serial == s.serial
  }

  /** No child has been reaped twice, and no waitpid has been refused. */
  ghost predicate KernelOk(k: Kernel) {
    && k.refused == 0
    && (forall pid | pid in k.children :: pid > 0 && k.children[pid].serial < k.started)
    && (forall p, q | p in k.children && q in k.children && k.children[p].serial == k.children[q].serial :: p == q)
    && (forall i, j | 0 <= i < j < |k.reaped| :: k.reaped[i] != k.reaped[j])
    && (forall n | n in k.reaped :: n < k.started)
    && (forall pid | pid in k.children :: k.children[pid].serial !in k.reaped)
  }

  predicate Matches(k: Kernel, sub: Option<Subjob>) {
    sub.Some? ==> sub.value.serial < k.started && (IsWaitedFor(sub) <==> Owns(k, sub.value))
  }

  ghost predicate Coupled(k: Kernel, pool: Pool) {
    && (forall i | 0 <= i < |pool| :: Matches(k, pool[i]))
    && (forall i, j | 0 <= i < j < |pool| && pool[i].Some? && pool[j].Some? ::
          pool[i].value.serial != pool[j].value.serial)
  }

  predicate IsRecordOf(k: Kernel, pid: int, sub: Option<Subjob>)
    requires pid in k.children
  {
    sub.Some? && sub.value.pid == pid && sub.value.serial == k.children[pid].serial
  }

  ghost predicate Recorded(k: Kernel, pid: int, pool: Pool)
    requires pid in k.children
  {
    exists i :: 0 <= i < |pool| && IsRecordOf(k, pid, pool[i])
  }

  /** The unreaped children that nobody in the pool is waiting for. */
  ghost function Orphans(k: Kernel, pool: Pool): set<int> {
    set pid | pid in k.children && !Recorded(k, pid, pool)
  }

  /** Between two moments at which nothing is started, children only go. */
  predicate Later(k: Kernel, l: Kernel) {
    && l.started == k.started && l.children.Keys <= k.children.Keys
    && forall pid | pid in l.children :: l.children[pid] == k.children[pid]
  }

  /** The record before and after a look: finished ones do not change, and who it is never does. */
  predicate Follows(a: Option<Subjob>, b: Option<Subjob>) {
    && a.Some? == b.Some?
    && (!IsWaitedFor(a) ==> b == a)
    && (a.Some? ==> b.value.pid == a.value.pid && b.value.serial == a.value.serial)
  }

  lemma AnswerKeepsKernelOk(w: World, k: Kernel, pid: int, noHang: bool)
    requires KernelOk(k) && pid in k.children
    ensures var r := WaitPid(w, k, pid, noHang);
            && KernelOk(r.kernel) && Later(k, r.kernel)
            && (r.pid == pid || (noHang && r.pid == 0 && r.kernel.children == k.children))
            && (r.pid == pid ==>
                  r.kernel.children ==
                    if IsFinishedStatus(StatusFromWord(r.word)) then k.children - {pid} else k.children)
            && (r.pid == pid && !noHang ==> StatusFromWord(r.word) != Running)
  {
    hide StatusFromWord; hide StatusWord;
    if !noHang {
      DecodingRecovers(w.awaited(k.clock));
    } else if w.polled(k.clock).Some? {
      DecodingRecovers(w.polled(k.clock).value);
    }
  }

  /** One look keeps everybody's record right. */
  lemma LookKeepsCoupled(w: World, k: Kernel, pool: Pool, i: nat, noHang: bool)
    requires i < |pool| && KernelOk(k) && Coupled(k, pool)
    ensures var l := LookAt(w, k, pool[i], noHang);
            && l.ok && KernelOk(l.kernel) && Later(k, l.kernel) && Follows(pool[i], l.sub)
            && Coupled(l.kernel, pool[i := l.sub])
            && Orphans(l.kernel, pool[i := l.sub]) == Orphans(k, pool)
            && (!noHang && l.sub.Some? ==> l.sub.value.lastStatus != Running)
  {
    hide KernelOk; hide WaitPid; hide StatusFromWord; hide Orphans;
    assert Matches(k, pool[i]);
    if IsWaitedFor(pool[i]) {
      PidIsPositive(k, pool[i].value.pid);
      AnswerKeepsKernelOk(w, k, pool[i].value.pid, noHang);
      var l := LookAt(w, k, pool[i], noHang);
      CoupledAfter(k, l.kernel, pool, i, l.sub);
    } else {
      assert pool[i := pool[i]] == pool;
    }
  }

  lemma PidIsPositive(k: Kernel, pid: int)
    requires KernelOk(k) && pid in k.children
    ensures pid > 0
  {
  }

  /** The child of slot `i` has been reaped, or nobody has. */
  lemma CoupledAfter(k: Kernel, l: Kernel, pool: Pool, i: nat, sub: Option<Subjob>)
    requires i < |pool| && Coupled(k, pool) && IsWaitedFor(pool[i])
    requires Follows(pool[i], sub) && l.started == k.started
    requires l.children == if IsWaitedFor(sub) then k.children else k.children - {pool[i].value.pid}
    ensures Coupled(l, pool[i := sub])
    ensures Orphans(l, pool[i := sub]) == Orphans(k, pool)
  {
    var now := pool[i := sub];
    assert Matches(k, pool[i]);
    forall j | 0 <= j < |pool|
      ensures Matches(l, now[j])
    {
      assert Matches(k, pool[j]);
    }
    assert IsRecordOf(k, pool[i].value.pid, pool[i]);
    forall pid | pid in l.children
      ensures Recorded(k, pid, pool) <==> Recorded(l, pid, now)
    {
      RecordedAlike(k, pid, pool, l, now);
    }
  }

  /** Looking at a child does not change who records it. */
  lemma RecordedAlike(k: Kernel, pid: int, pool: Pool, l: Kernel, now: Pool)
    requires pid in k.children && pid in l.children && l.children[pid].serial == k.children[pid].serial
    requires FollowsAll(pool, now)
    ensures Recorded(k, pid, pool) <==> Recorded(l, pid, now)
  {
    forall j | 0 <= j < |pool|
      ensures IsRecordOf(k, pid, pool[j]) <==> IsRecordOf(l, pid, now[j])
    {
      assert Follows(pool[j], now[j]);
    }
  }

  ghost predicate FollowsAll(xs: Pool, ys: Pool) {
    |xs| == |ys| && forall i | 0 <= i < |xs| :: Follows(xs[i], ys[i])
  }

  predicate NoneRunning(subs: Pool) {
    forall i | 0 <= i < |subs| && subs[i].Some? :: subs[i].value.lastStatus != Running
  }

  /** A round over the subjobs in the middle of the pool. */
  lemma {:induction false} RoundKeepsCoupled(w: World, k: Kernel, before: Pool, subs: Pool, after: Pool, noHang: bool)
    requires KernelOk(k) && Coupled(k, before + subs + after)
    ensures var r := LookAll(w, k, subs, noHang);
            && r.ok && KernelOk(r.kernel) && Later(k, r.kernel) && FollowsAll(subs, r.subs)
            && Coupled(r.kernel, before + r.subs + after)
            && Orphans(r.kernel, before + r.subs + after) == Orphans(k, before + subs + after)
            && (!noHang ==> NoneRunning(r.subs))
  {
    hide KernelOk; hide Coupled; hide Orphans; hide LookAt;
    if subs != [] {
      var n := |subs| - 1;
      assert subs == subs[..n] + [subs[n]];
      assert before + subs + after == before + subs[..n] + ([subs[n]] + after);
      RoundKeepsCoupled(w, k, before, subs[..n], [subs[n]] + after, noHang);
      var r := LookAll(w, k, subs[..n], noHang);
      var pool := before + r.subs + ([subs[n]] + after);
      LookKeepsCoupled(w, r.kernel, pool, |before| + n, noHang);
      var l := LookAt(w, r.kernel, subs[n], noHang);
      assert pool[|before| + n := l.sub] == before + (r.subs + [l.sub]) + after;
    }
  }

  /** Waiting for a job never fails, and keeps everybody's record right. */
  lemma WaitKeepsCoupled(w: World, k: Kernel, before: Pool, j: JobValue, after: Pool, noHang: bool)
    requires KernelOk(k) && Coupled(k, before + j.subs + after)
    ensures var r := Wait(w, k, j, noHang);
            && r.ok && KernelOk(r.kernel) && Later(k, r.kernel) && FollowsAll(j.subs, r.job.subs)
            && r.job.id == j.id && r.job.pgid == j.pgid
            && Coupled(r.kernel, before + r.job.subs + after)
            && Orphans(r.kernel, before + r.job.subs + after) == Orphans(k, before + j.subs + after)
  {
    RoundKeepsCoupled(w, k, before, j.subs, after, noHang);
    hide LookAll; hide JobStatus;
    var mid := LookAll(w, k, j.subs, noHang);
    TickKeeps(mid.kernel, before + mid.subs + after);
  }

  lemma TickKeeps(k: Kernel, pool: Pool)
    ensures KernelOk(k) ==> KernelOk(Ticked(k))
    ensures Coupled(k, pool) ==> Coupled(Ticked(k), pool)
    ensures Orphans(Ticked(k), pool) == Orphans(k, pool)
  {
    if Coupled(k, pool) {
      forall i | 0 <= i < |pool|
        ensures Matches(Ticked(k), pool[i])
      {
        assert Matches(k, pool[i]);
      }
    }
    forall pid | pid in k.children
      ensures Recorded(k, pid, pool) <==> Recorded(Ticked(k), pid, pool)
    {
      RecordedAlike(k, pid, pool, Ticked(k), pool);
    }
  }

  /** After a blocking wait nothing runs: the job has finished or is stopped. */
  lemma AfterBlockingWait(w: World, k: Kernel, before: Pool, j: JobValue, after: Pool)
    requires KernelOk(k) && Coupled(k, before + j.subs + after)
    ensures var r := Wait(w, k, j, false);
            && NoneRunning(r.job.subs) && r.job.status != Running
            && (IsFinishedStatus(r.job.status) <==> AllFinished(r.job.subs))
            && (r.job.status == Stopped <==> !AllFinished(r.job.subs))
  {
    RoundKeepsCoupled(w, k, before, j.subs, after, false);
    hide LookAll;
    var subs := LookAll(w, k, j.subs, false).subs;
    assert forall i: nat :: !Has(subs, i, Running);
    FinishedOrAlive(subs);
  }

  /** What the whole table is waiting for. */
  function Flat(slots: Slots): Pool {
    if slots == [] then []
    else
      var n := |slots| - 1;
        Flat(slots[..n]) + Subs(slots[n])
  }

  /** Records of finished children can be dropped. */
  lemma DropFinished(k: Kernel, before: Pool, subs: Pool, after: Pool)
    requires Coupled(k, before + subs + after) && AllFinished(subs)
    ensures Coupled(k, before + after)
    ensures Orphans(k, before + after) == Orphans(k, before + subs + after)
  {
    var pool, rest := before + subs + after, before + after;
    var b, s := |before|, |subs|;
    forall i: nat | i < |rest|
      ensures Matches(k, rest[i])
    {
      assert rest[i] == pool[if i < b then i else i + s];
    }
    forall i: nat, j: nat | i < j < |rest| && rest[i].Some? && rest[j].Some?
      ensures rest[i].value.serial != rest[j].value.serial
    {
      assert rest[i] == pool[if i < b then i else i + s];
      assert rest[j] == pool[if j < b then j else j + s];
    }
    forall pid | pid in k.children
      ensures Recorded(k, pid, pool) <==> Recorded(k, pid, rest)
    {
      NobodyElseRecords(k, pid, before, subs, after);
    }
  }

  lemma NobodyElseRecords(k: Kernel, pid: int, before: Pool, subs: Pool, after: Pool)
    requires Coupled(k, before + subs + after) && AllFinished(subs) && pid in k.children
    ensures Recorded(k, pid, before + subs + after) <==> Recorded(k, pid, before + after)
  {
    var pool, rest := before + subs + after, before + after;
    var b, s := |before|, |subs|;
    if Recorded(k, pid, rest) {
      var i: nat :| i < |rest| && IsRecordOf(k, pid, rest[i]);
      assert IsRecordOf(k, pid, pool[if i < b then i else i + s]);
    }
    if Recorded(k, pid, pool) {
      var i: nat :| i < |pool| && IsRecordOf(k, pid, pool[i]);
      assert Matches(k, pool[i]);
      if b <= i < b + s {
        InsideIsFinished(before, subs, after, i);
        assert false;
      }
      assert IsRecordOf(k, pid, rest[if i < b then i else i - s]);
    }
  }

  lemma InsideIsFinished(before: Pool, subs: Pool, after: Pool, i: nat)
    requires AllFinished(subs) && |before| <= i < |before| + |subs|
    ensures !IsWaitedFor((before + subs + after)[i])
  {
    assert (before + subs + after)[i] == subs[i - |before|];
  }

  function Subs(slot: Option<JobValue>): Pool {
    if slot.Some? then slot.value.subs else []
  }

  lemma FlatSnoc(slots: Slots, slot: Option<JobValue>)
    ensures Flat(slots + [slot]) == Flat(slots) + Subs(slot)
  {
    assert (slots + [slot])[..|slots|] == slots;
  }

  lemma Regroup(a: Pool, b: Pool, c: Pool, d: Pool)
    ensures a + (b + c) + d == a + b + (c + d) && a + b + c + d == a + (b + c) + d
  {
    assert a + (b + c) + d == a + b + (c + d);
    assert a + b + c + d == a + (b + c) + d;
  }

  lemma {:induction false} SweepKeepsCoupled(w: World, k: Kernel, before: Pool, slots: Slots, after: Pool)
    requires KernelOk(k) && Coupled(k, before + Flat(slots) + after)
    ensures var r := Sweep(w, k, slots);
            && KernelOk(r.0) && Later(k, r.0) && Coupled(r.0, before + Flat(r.1) + after)
            && Orphans(r.0, before + Flat(r.1) + after) == Orphans(k, before + Flat(slots) + after)
  {
    hide KernelOk; hide Coupled; hide Orphans; hide SweepOne; hide Subs;
    if slots != [] {
      var n := |slots| - 1;
      hide Flat;
      var r := Sweep(w, k, slots[..n]);
      var one := SweepOne(w, r.0, slots[n]);
      assert slots == slots[..n] + [slots[n]];
      FlatSnoc(slots[..n], slots[n]);
      FlatSnoc(r.1, one.1);
      Regroup(before, Flat(slots[..n]), Subs(slots[n]), after);
      SweepKeepsCoupled(w, k, before, slots[..n], Subs(slots[n]) + after);
      Regroup(before, Flat(r.1), Subs(slots[n]), after);
      SweepOneKeepsCoupled(w, r.0, before + Flat(r.1), slots[n], after);
      Regroup(before, Flat(r.1), Subs(one.1), after);
    }
  }

  lemma SweepOneKeepsCoupled(w: World, k: Kernel, before: Pool, slot: Option<JobValue>, after: Pool)
    requires KernelOk(k) && Coupled(k, before + Subs(slot) + after)
    ensures var r := SweepOne(w, k, slot);
            && KernelOk(r.0) && Later(k, r.0) && Coupled(r.0, before + Subs(r.1) + after)
            && Orphans(r.0, before + Subs(r.1) + after) == Orphans(k, before + Subs(slot) + after)
  {
    hide KernelOk; hide Coupled; hide Orphans; hide Wait; hide AllFinished;
    if slot.Some? {
      var j := slot.value;
      WaitKeepsCoupled(w, k, before, j, after, true);
      var r := Wait(w, k, j, true);
      if AllFinished(r.job.subs) {
        DropFinished(r.kernel, before, r.job.subs, after);
        assert before + [] == before;
      }
    }
  }

  /* What a sweep leaves, whatever the kernel answers. */

  lemma {:induction false} FailedRoundIsAlive(w: World, k: Kernel, subs: Pool, noHang: bool)
    requires !LookAll(w, k, subs, noHang).ok
    ensures !AllFinished(LookAll(w, k, subs, noHang).subs)
  {
    var n := |subs| - 1;
    var r := LookAll(w, k, subs[..n], noHang);
    var all := LookAll(w, k, subs, noHang).subs;
    if !r.ok {
      FailedRoundIsAlive(w, k, subs[..n], noHang);
      var i: nat :| i < |r.subs| && IsWaitedFor(r.subs[i]);
      assert IsWaitedFor(all[i]);
    } else {
      assert IsWaitedFor(all[n]);
    }
  }

  /** A sweep leaves only jobs with a living subjob, even where waitpid fails; no job moves. */
  lemma {:induction false} SweepLeavesTheLiving(w: World, k: Kernel, slots: Slots, i: nat)
    requires i < |slots|
    ensures var now := Sweep(w, k, slots).1[i];
            && (now.Some? ==> Alive(now.value.subs))
            && (now.Some? ==> slots[i].Some? && now.value.id == slots[i].value.id)
  {
    var n := |slots| - 1;
    if i < n {
      SweepLeavesTheLiving(w, k, slots[..n], i);
    } else if slots[n].Some? {
      var l := Sweep(w, k, slots[..n]).0;
      var r := Wait(w, l, slots[n].value, true);
      if !r.ok {
        FailedRoundIsAlive(w, l, slots[n].value.subs, true);
      }
      WaitKeepsId(w, l, slots[n].value, true);
      FinishedOrAlive(r.job.subs);
    }
  }

  /** So after a sweep some job is alive exactly when the table is not empty. */
  lemma AliveUnlessEmpty(w: World, k: Kernel, slots: Slots)
    ensures var now := Sweep(w, k, slots).1;
            (exists i :: 0 <= i < |now| && now[i].Some? && Alive(now[i].value.subs)) <==> Occupied(now) > 0
  {
    var now := Sweep(w, k, slots).1;
    forall i: nat | i < |now| && now[i].Some?
      ensures Alive(now[i].value.subs)
    {
      SweepLeavesTheLiving(w, k, slots, i);
    }
    SomeoneOccupies(now);
  }

  lemma {:induction false} SomeoneOccupies(slots: Slots)
    ensures Occupied(slots) > 0 <==> exists i :: 0 <= i < |slots| && slots[i].Some?
  {
    if slots != [] {
      var n := |slots| - 1;
      SomeoneOccupies(slots[..n]);
      assert forall i | 0 <= i < n :: slots[..n][i] == slots[i];
    }
  }
}
