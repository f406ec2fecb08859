/** Looking at jobs without waiting, and waiting for them (src/jobs.c): which answers of the kernel a
    round asks for, and what it makes of each. */
module Polling {
  import opened Options
  import opened Statuses
  import opened Kernels
  import opened Waiting
  import opened JobTables
  import opened Tracking
  import opened Sessions
  import opened Soundness

  /* A look does not wait, and a wait does not look away. */

  lemma {:induction false} LookingDoesNotWait(w: World, k: Kernel, subs: Pool, awaited: nat -> Awaited)
    ensures LookAll(w.(awaited := awaited), k, subs, true) == LookAll(w, k, subs, true)
  {
    hide StatusFromWord; hide StatusWord; hide WExitStatus;
    if subs != [] {
      LookingDoesNotWait(w, k, subs[..|subs| - 1], awaited);
    }
  }

  lemma {:induction false} WaitingDoesNotPoll(w: World, k: Kernel, subs: Pool, polled: nat -> Option<Change>)
    ensures LookAll(w.(polled := polled), k, subs, false) == LookAll(w, k, subs, false)
  {
    hide StatusFromWord; hide StatusWord; hide WExitStatus;
    if subs != [] {
      WaitingDoesNotPoll(w, k, subs[..|subs| - 1], polled);
    }
  }

  /** What wait_for_job, the sweep of the table and the refresh before a prompt do does not depend on
      what the kernel would report to somebody who waits; so they never wait. */
  lemma {:induction false} SweepingDoesNotWait(w: World, k: Kernel, slots: Slots, awaited: nat -> Awaited)
    ensures forall j :: Wait(w.(awaited := awaited), k, j, true) == Wait(w, k, j, true)
    ensures Sweep(w.(awaited := awaited), k, slots) == Sweep(w, k, slots)
  {
    hide LookAll; hide JobStatus; hide AllFinished;
    forall j
      ensures Wait(w.(awaited := awaited), k, j, true) == Wait(w, k, j, true)
    {
      JobIsNotWaitedFor(w, k, j, awaited);
    }
    if slots != [] {
      var n := |slots| - 1;
      SweepingDoesNotWait(w, k, slots[..n], awaited);
      if slots[n].Some? {
        JobIsNotWaitedFor(w, Sweep(w, k, slots[..n]).0, slots[n].value, awaited);
      }
    }
  }

  lemma JobIsNotWaitedFor(w: World, k: Kernel, j: JobValue, awaited: nat -> Awaited)
    ensures Wait(w.(awaited := awaited), k, j, true) == Wait(w, k, j, true)
  {
    hide LookAll; hide JobStatus; hide AllFinished;
    LookingDoesNotWait(w, k, j.subs, awaited);
  }

  lemma BlockingDoesNotPoll(w: World, k: Kernel, j: JobValue, polled: nat -> Option<Change>)
    ensures Wait(w.(polled := polled), k, j, false) == Wait(w, k, j, false)
  {
    hide LookAll; hide JobStatus; hide AllFinished;
    WaitingDoesNotPoll(w, k, j.subs, polled);
  }

  lemma RefreshingDoesNotWait(w: World, s: Session, awaited: nat -> Awaited)
    ensures Refreshed(w.(awaited := awaited), s) == Refreshed(w, s)
  {
    hide Sweep;
    SweepingDoesNotWait(w, s.kernel, s.slots, awaited);
  }

  /* What becomes of each answer. */

  /** How many of the first `i` subjobs are waited for: each of them takes one answer. */
  function WaitedBefore(subs: Pool, i: nat): nat
    requires i <= |subs|
  {
    if i == 0 then 0 else WaitedBefore(subs, i - 1) + if IsWaitedFor(subs[i - 1]) then 1 else 0
  }

  function AnswerAt(w: World, clock: nat, noHang: bool): Option<Change> {
    if noHang then w.polled(clock) else Some(w.awaited(clock))
  }

  /** The record of a child after an answer: unchanged when nothing is reported. */
  predicate Reports(was: Option<Subjob>, answer: Option<Change>, now: Option<Subjob>) {
    if !IsWaitedFor(was) || answer.None? then now == was
    else
      && now.Some? && now.value.pid == was.value.pid && now.value.serial == was.value.serial
      && match answer.value
         case Exit(_) => now.value.lastStatus == Done
         case Kill(_, _) => now.value.lastStatus == Killed
         case Stop(_) => now.value.lastStatus == Stopped
         case Continue => now.value.lastStatus == Running
  }

  /** A round in which the answers from `clock` on are taken by the subjobs in order. */
  ghost predicate RoundOf(w: World, clock: nat, was: Pool, noHang: bool, now: Pool) {
    && |now| == |was|
    && forall i | 0 <= i < |was| :: Reports(was[i], AnswerAt(w, clock + WaitedBefore(was, i), noHang), now[i])
  }

  lemma LookReports(w: World, k: Kernel, pool: Pool, i: nat, noHang: bool)
    requires i < |pool| && KernelOk(k) && Coupled(k, pool)
    ensures var l := LookAt(w, k, pool[i], noHang);
            && Reports(pool[i], AnswerAt(w, k.clock, noHang), l.sub)
            && l.kernel.clock == k.clock + if IsWaitedFor(pool[i]) then 1 else 0
  {
    hide StatusFromWord; hide StatusWord; hide WExitStatus; hide KernelOk;
    assert Matches(k, pool[i]);
    if IsWaitedFor(pool[i]) {
      PidIsPositive(k, pool[i].value.pid);
    }
    if !noHang {
      DecodingRecovers(w.awaited(k.clock));
    } else if w.polled(k.clock).Some? {
      DecodingRecovers(w.polled(k.clock).value);
    }
  }

  /** Every round over a job takes exactly one answer for each subjob that is waited for, and makes of
      it what it says. */
  lemma {:induction false} RoundReports(w: World, k: Kernel, before: Pool, subs: Pool, after: Pool, noHang: bool)
    requires KernelOk(k) && Coupled(k, before + subs + after)
    ensures var r := LookAll(w, k, subs, noHang);
            RoundOf(w, k.clock, subs, noHang, r.subs) && r.kernel.clock == k.clock + WaitedBefore(subs, |subs|)
  {
    hide KernelOk; hide Coupled; hide LookAt; hide Orphans; hide Reports; hide RoundOf; hide WaitedBefore;
    hide AnswerAt;
    RoundOfNone(w, k.clock, noHang);
    if subs != [] {
      var n := |subs| - 1;
      assert subs == subs[..n] + [subs[n]];
      assert before + subs + after == before + subs[..n] + ([subs[n]] + after);
      RoundReports(w, k, before, subs[..n], [subs[n]] + after, noHang);
      RoundKeepsCoupled(w, k, before, subs[..n], [subs[n]] + after, noHang);
      var r := LookAll(w, k, subs[..n], noHang);
      LookReports(w, r.kernel, before + r.subs + ([subs[n]] + after), |before| + n, noHang);
      RoundSnoc(w, k.clock, subs[..n], noHang, r.subs, subs[n], LookAt(w, r.kernel, subs[n], noHang).sub);
    }
  }

  lemma RoundOfNone(w: World, clock: nat, noHang: bool)
    ensures RoundOf(w, clock, [], noHang, []) && WaitedBefore([], 0) == 0
  {
  }

  lemma RoundSnoc(w: World, clock: nat, was: Pool, noHang: bool, now: Pool, a: Option<Subjob>, b: Option<Subjob>)
    requires RoundOf(w, clock, was, noHang, now)
    requires Reports(a, AnswerAt(w, clock + WaitedBefore(was, |was|), noHang), b)
    ensures RoundOf(w, clock, was + [a], noHang, now + [b])
    ensures WaitedBefore(was + [a], |was| + 1) == WaitedBefore(was, |was|) + if IsWaitedFor(a) then 1 else 0
  {
    hide Reports; hide AnswerAt; hide WaitedBefore; hide IsWaitedFor;
    forall i | 0 <= i <= |was|
      ensures WaitedBefore(was + [a], i) == WaitedBefore(was, i)
    {
      WaitedInConcat(was, a, i);
    }
    WaitedStep(was + [a], |was|);
  }

  lemma WaitedInConcat(subs: Pool, a: Option<Subjob>, i: nat)
    requires i <= |subs|
    ensures WaitedBefore(subs + [a], i) == WaitedBefore(subs, i)
  {
    assert (subs + [a])[..|subs|] == subs;
    WaitedInPrefix(subs + [a], |subs|, i);
  }

  lemma WaitedStep(subs: Pool, i: nat)
    requires i < |subs|
    ensures WaitedBefore(subs, i + 1) == WaitedBefore(subs, i) + if IsWaitedFor(subs[i]) then 1 else 0
  {
  }

  lemma {:induction false} WaitedInPrefix(subs: Pool, n: nat, i: nat)
    requires i <= n <= |subs|
    ensures WaitedBefore(subs[..n], i) == WaitedBefore(subs, i)
  {
    if i > 0 {
      WaitedInPrefix(subs, n, i - 1);
    }
  }

  /** The same of the whole table: the sweep comes to each job at some moment, and makes of it what the
      polls from that moment on say.  The job leaves the table if and only if by then all its subjobs
      have ended. */
  lemma {:induction false} SweepReports(w: World, k: Kernel, before: Pool, slots: Slots, after: Pool, i: nat)
    returns (clock: nat)
    requires KernelOk(k) && Coupled(k, before + Flat(slots) + after) && i < |slots| && slots[i].Some?
    ensures k.clock <= clock
    ensures JobSwept(w, clock, slots[i].value, Sweep(w, k, slots).1[i])
  {
    hide KernelOk; hide Coupled; hide Orphans; hide SweepOne; hide Flat; hide Subs; hide JobSwept;
    var n := |slots| - 1;
    assert slots == slots[..n] + [slots[n]];
    FlatSnoc(slots[..n], slots[n]);
    Regroup(before, Flat(slots[..n]), Subs(slots[n]), after);
    if i < n {
      clock := SweepReports(w, k, before, slots[..n], Subs(slots[n]) + after, i);
    } else {
      var r := Sweep(w, k, slots[..n]);
      SweepKeepsCoupled(w, k, before, slots[..n], Subs(slots[n]) + after);
      Regroup(before, Flat(r.1), Subs(slots[n]), after);
      clock := r.0.clock;
      SweepGoesOn(w, k, slots[..n]);
      SweptJob(w, r.0, before + Flat(r.1), slots[n].value, after);
    }
  }

  /** What a sweep that comes to a job at `clock` leaves of it. */
  ghost predicate JobSwept(w: World, clock: nat, was: JobValue, now: Option<JobValue>) {
    exists subs :: SweptTo(w, clock, was, subs, now)
  }

  ghost predicate SweptTo(w: World, clock: nat, was: JobValue, subs: Pool, now: Option<JobValue>) {
    && RoundOf(w, clock, was.subs, true, subs)
    && (now == None <==> AllFinished(subs))
    && (now.Some? ==> now.value.subs == subs && now.value.id == was.id && now.value.pgid == was.pgid)
  }

  lemma SweptJob(w: World, k: Kernel, before: Pool, j: JobValue, after: Pool)
    requires KernelOk(k) && Coupled(k, before + Subs(Some(j)) + after)
    ensures JobSwept(w, k.clock, j, SweepOne(w, k, Some(j)).1)
  {
    hide KernelOk; hide Coupled; hide Orphans; hide LookAll; hide RoundOf; hide JobStatus; hide AllFinished;
    WaitKeepsCoupled(w, k, before, j, after, true);
    RoundReports(w, k, before, j.subs, after, true);
    assert SweptTo(w, k.clock, j, LookAll(w, k, j.subs, true).subs, SweepOne(w, k, Some(j)).1);
  }

  lemma {:induction false} SweepGoesOn(w: World, k: Kernel, slots: Slots)
    ensures k.clock <= Sweep(w, k, slots).0.clock
  {
    hide LookAll; hide JobStatus; hide AllFinished;
    if slots != [] {
      SweepGoesOn(w, k, slots[..|slots| - 1]);
      if slots[|slots| - 1].Some? {
        RoundGoesOn(w, Sweep(w, k, slots[..|slots| - 1]).0, slots[|slots| - 1].value.subs, true);
      }
    }
  }

  lemma {:induction false} RoundGoesOn(w: World, k: Kernel, subs: Pool, noHang: bool)
    ensures k.clock <= LookAll(w, k, subs, noHang).kernel.clock
  {
    hide StatusFromWord; hide StatusWord; hide WExitStatus;
    if subs != [] {
      RoundGoesOn(w, k, subs[..|subs| - 1], noHang);
    }
  }

  lemma QuietRound(w: World, clock: nat, was: Pool, now: Pool)
    requires RoundOf(w, clock, was, true, now) && forall n | n >= clock :: w.polled(n) == None
    ensures now == was
  {
    hide WaitedBefore;
    forall i | 0 <= i < |was|
      ensures now[i] == was[i]
    {
      assert Reports(was[i], AnswerAt(w, clock + WaitedBefore(was, i), true), now[i]);
    }
  }

  lemma QuietSwept(w: World, clock: nat, was: JobValue, now: Option<JobValue>)
    requires JobSwept(w, clock, was, now) && forall n | n >= clock :: w.polled(n) == None
    ensures now.Some? <==> !AllFinished(was.subs)
    ensures now.Some? ==> now.value.subs == was.subs && now.value.pgid == was.pgid
  {
    hide RoundOf; hide AllFinished;
    var subs :| SweptTo(w, clock, was, subs, now);
    QuietRound(w, clock, was.subs, subs);
  }

  /** In particular, a refresh during which no child has anything to report takes no living job out of
      the table and changes no subjob. */
  lemma QuietRefresh(w: World, s: Session, i: nat)
    requires Sound(s, []) && i < |s.slots| && s.slots[i].Some?
    requires forall n | n >= s.kernel.clock :: w.polled(n) == None
    ensures var now := Refreshed(w, s).slots[i];
            && (now.Some? <==> !AllFinished(s.slots[i].value.subs))
            && (now.Some? ==> now.value.subs == s.slots[i].value.subs && now.value.pgid == s.slots[i].value.pgid)
  {
    hide Coupled; hide KernelOk; hide Flat; hide TableOk; hide Sweep; hide AllFinished; hide JobSwept;
    assert [] + Flat(s.slots) + [] == Flat(s.slots) + [];
    var clock := SweepReports(w, s.kernel, [], s.slots, [], i);
    QuietSwept(w, clock, s.slots[i].value, Refreshed(w, s).slots[i]);
  }
}
