/** What a round of waiting does to a job, as functions of the kernel and the job (src/jobs.c). */
module Waiting {
  import opened Options
  import opened Statuses
  import opened Kernels

  /** The value of a job. */
  datatype JobValue = JobValue(id: nat, status: Status, pgid: int, subs: seq<Option<Subjob>>)

  /** After one subjob: `ok` unless waitpid failed, `code` the exit status if it has finished now. */
  datatype Look = Look(kernel: Kernel, sub: Option<Subjob>, ok: bool, code: int)

  predicate IsWaitedFor(sub: Option<Subjob>) {
    sub.Some? && !IsFinishedStatus(sub.value.lastStatus)
  }

  function LookAt(w: World, k: Kernel, sub: Option<Subjob>, noHang: bool): Look {
    if !IsWaitedFor(sub) then Look(k, sub, true, 0)
    else
      var r := WaitPid(w, k, sub.value.pid, noHang);
      if r.pid == -1 then Look(r.kernel, sub, false, 0)
      else if r.pid == 0 then Look(r.kernel, sub, true, 0)
      else
        var status := StatusFromWord(r.word);
        Look(r.kernel, Some(sub.value.(lastStatus := status)), true,
             if status != Running && status != Stopped then WExitStatus(r.word) else 0)
  }

  /** After the subjobs in order, up to a failure; `code` is that of the subjob in slot 0. */
  datatype Round = Round(kernel: Kernel, subs: seq<Option<Subjob>>, ok: bool, code: int)

  function LookAll(w: World, k: Kernel, subs: seq<Option<Subjob>>, noHang: bool): (r: Round)
    ensures |r.subs| == |subs|
  {
    if subs == [] then Round(k, [], true, 0)
    else
      var n := |subs| - 1;
      var r := LookAll(w, k, subs[..n], noHang);
      if !r.ok then Round(r.kernel, r.subs + [subs[n]], false, r.code)
      else
        var l := LookAt(w, r.kernel, subs[n], noHang);
        Round(l.kernel, r.subs + [l.sub], l.ok, if n == 0 then l.code else r.code)
  }

  predicate AllFinished(subs: seq<Option<Subjob>>) {
    forall i | 0 <= i < |subs| :: !IsWaitedFor(subs[i])
  }

  datatype Waited = Waited(kernel: Kernel, job: JobValue, ok: bool, code: int)

  /** The job's status after its subjobs'; the group is asked for only when they have all finished. */
  ghost function Updated(w: World, k: Kernel, j: JobValue): JobValue {
    j.(status := JobStatus(j.subs, GroupExists(w, k, j.pgid)))
  }

  function Asked(k: Kernel, j: JobValue): Kernel {
    if AllFinished(j.subs) then Ticked(k) else k
  }

  ghost function Wait(w: World, k: Kernel, j: JobValue, noHang: bool): Waited {
    var r := LookAll(w, k, j.subs, noHang);
    var now := j.(subs := r.subs);
    if !r.ok then Waited(r.kernel, now, false, -1)
    else Waited(Asked(r.kernel, now), Updated(w, r.kernel, now), true, r.code)
  }

  /** After a sweep of one slot of the table. */
  ghost function SweepOne(w: World, k: Kernel, slot: Option<JobValue>): (Kernel, Option<JobValue>) {
    if slot.None? then (k, None)
    else
      var r := Wait(w, k, slot.value, true);
      (r.kernel, if r.ok && AllFinished(r.job.subs) then None else Some(r.job))
  }

  ghost function Sweep(w: World, k: Kernel, slots: seq<Option<JobValue>>): (r: (Kernel, seq<Option<JobValue>>))
    ensures |r.1| == |slots|
  {
    if slots == [] then (k, [])
    else
      var n := |slots| - 1;
      var r := Sweep(w, k, slots[..n]);
      var one := SweepOne(w, r.0, slots[n]);
      (one.0, r.1 + [one.1])
  }
}
