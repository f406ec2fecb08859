/** A job as the shell keeps it, and the loops over its subjobs (src/jobs.c).  NULL is a job too. */
module Jobs {
  import opened Options
  import opened Statuses
  import opened Kernels
  import opened Waiting

  class Job {
    var id: nat
    var status: Status
    var pgid: int
    var subjobs: seq<Option<Subjob>>

    constructor (size: nat)
      ensures id == 0 && status == Running && pgid == 0
      ensures subjobs == seq(size, _ => None)
    {
      id, status, pgid := 0, Running, 0;
      subjobs := seq(size, _ => None);
    }

    function Value(): JobValue
      reads this
    {
      JobValue(id, status, pgid, subjobs)
    }
  }

  method IsJobAlive(j: Job?) returns (alive: bool)
    ensures alive <==> j != null && Alive(j.subjobs)
  {
    if j == null {
      return false;
    }
    var i: nat := 0;
    while i < |j.subjobs|
      invariant i <= |j.subjobs| && !Alive(j.subjobs[..i])
    {
      AliveStep(j.subjobs, i);
      WholeIsPrefix(j.subjobs, i);
      if j.subjobs[i].Some? {
        if j.subjobs[i].value.lastStatus == Running || j.subjobs[i].value.lastStatus == Stopped {
          return true;
        }
      }
      i := i + 1;
    }
    assert j.subjobs[..i] == j.subjobs;
    alive := false;
  }

  /** What some have in a prefix, some have. */
  lemma WholeIsPrefix(subs: seq<Option<Subjob>>, i: nat)
    requires i < |subs|
    ensures forall s :: Has(subs, i, s) ==> SomeHave(subs, s)
  {
  }

  method IsJobFinished(j: Job?) returns (finished: bool)
    ensures finished <==> j == null || AllFinished(j.subjobs)
  {
    if j == null {
      return true;
    }
    var i: nat := 0;
    while i < |j.subjobs|
      invariant i <= |j.subjobs| && forall k | 0 <= k < i :: !IsWaitedFor(j.subjobs[k])
    {
      if j.subjobs[i].Some? && !IsFinishedStatus(j.subjobs[i].value.lastStatus) {
        return false;
      }
      i := i + 1;
    }
    finished := true;
  }

  method IsJobKilled(j: Job?) returns (killed: bool)
    ensures killed <==> j != null && AllFinished(j.subjobs) && SomeHave(j.subjobs, Killed)
  {
    if j == null {
      return false;
    }
    var finished := IsJobFinished(j);
    if !finished {
      return false;
    }
    killed := FindStatus(j, Killed);
  }

  /** The loop shared by the three tests for one status. */
  method FindStatus(j: Job, s: Status) returns (found: bool)
    ensures found <==> SomeHave(j.subjobs, s)
  {
    var i: nat := 0;
    while i < |j.subjobs|
      invariant i <= |j.subjobs| && forall k: nat | k < i :: !Has(j.subjobs, k, s)
    {
      if j.subjobs[i].Some? && j.subjobs[i].value.lastStatus == s {
        assert Has(j.subjobs, i, s);
        return true;
      }
      i := i + 1;
    }
    found := false;
  }

  method IsJobSuspended(j: Job?) returns (suspended: bool)
    ensures suspended <==> j != null && !AllFinished(j.subjobs) && !SomeHave(j.subjobs, Running)
  {
    if j == null {
      return false;
    }
    var finished := IsJobFinished(j);
    if finished {
      return false;
    }
    var running := FindStatus(j, Running);
    suspended := !running;
  }

  method IsJobRunning(j: Job?) returns (running: bool)
    ensures running <==> j != null && SomeHave(j.subjobs, Running)
  {
    if j == null {
      return false;
    }
    running := FindStatus(j, Running);
  }

  lemma FinishedOrAlive(subs: seq<Option<Subjob>>)
    ensures AllFinished(subs) <==> !Alive(subs)
  {
    if !AllFinished(subs) {
      var i: nat :| i < |subs| && IsWaitedFor(subs[i]);
      assert Has(subs, i, subs[i].value.lastStatus);
    }
  }

  /** Exactly one of running, suspended and finished holds of any job, NULL included. */
  lemma ExactlyOneStatus(subs: seq<Option<Subjob>>)
    ensures var running := SomeHave(subs, Running);
            var suspended := !AllFinished(subs) && !SomeHave(subs, Running);
            var finished := AllFinished(subs);
            && (running || suspended || finished)
            && !(running && suspended) && !(running && finished) && !(suspended && finished)
            && (Alive(subs) <==> !finished)
            && (suspended <==> SomeHave(subs, Stopped) && !SomeHave(subs, Running))
  {
    FinishedOrAlive(subs);
  }

  /** The status agrees with the written definition, by which a job is detached when a process of
      its own group is left, except for a finished job without processes: its group is 0, and
      asking for that group asks about the shell's own, so it counts as detached. */
  lemma DetachedWithoutProcesses(w: World, k: Kernel, j: JobValue)
    ensures Updated(w, k, j).status == JobStatus(j.subs, j.pgid != 0 && GroupExists(w, k, j.pgid))
            <==> !(j.pgid == 0 && AllFinished(j.subs))
  {
    FinishedOrAlive(j.subs);
  }

  method UpdateJobStatus(sys: System, j: Job?)
    modifies sys, j
    ensures j == null ==> sys.kernel == old(sys.kernel)
    ensures j != null ==>
              && j.Value() == Updated(sys.world, old(sys.kernel), old(j.Value()))
              && sys.kernel == Asked(old(sys.kernel), old(j.Value()))
  {
    if j == null {
      return;
    }
    ExactlyOneStatus(j.subjobs);
    var running := IsJobRunning(j);
    var suspended := IsJobSuspended(j);
    var finished := IsJobFinished(j);
    if running {
      j.status := Running;
    } else if suspended {
      j.status := Stopped;
    } else {
      // The three cases are all: the source's last branch is never taken.
      assert finished;
      var grouped := sys.Ping(j.pgid);
      if grouped {
        j.status := Detached;
      } else {
        var killed := IsJobKilled(j);
        j.status := if killed then Killed else Done;
      }
    }
  }

  /** Takes in one answer of waitpid; false when it failed. */
  method ProcessWaitpidResponse(answer: int, word: nat, last: Status) returns (ok: bool, status: Status)
    ensures ok <==> answer != -1
    ensures status == if answer == -1 || answer == 0 then last else StatusFromWord(word)
  {
    if answer == -1 {
      return false, last;
    }
    if answer == 0 {
      return true, last;
    }
    ok, status := true, StatusFromWord(word);
  }

  lemma LookAllStep(w: World, k: Kernel, subs: seq<Option<Subjob>>, i: nat, noHang: bool)
    requires i < |subs|
    ensures var r := LookAll(w, k, subs[..i], noHang);
            var l := LookAt(w, r.kernel, subs[i], noHang);
            LookAll(w, k, subs[..i + 1], noHang) ==
              if !r.ok then Round(r.kernel, r.subs + [subs[i]], false, r.code)
              else Round(l.kernel, r.subs + [l.sub], l.ok, if i == 0 then l.code else r.code)
  {
    assert subs[..i + 1][..i] == subs[..i];
  }

  /** Once a waitpid has failed, nothing else is looked at. */
  lemma {:induction false} LookAllFails(w: World, k: Kernel, subs: seq<Option<Subjob>>, i: nat, noHang: bool)
    requires i <= |subs| && !LookAll(w, k, subs[..i], noHang).ok
    ensures var r := LookAll(w, k, subs[..i], noHang);
            LookAll(w, k, subs, noHang) == Round(r.kernel, r.subs + subs[i..], false, r.code)
    decreases |subs| - i
  {
    if i == |subs| {
      assert subs[..i] == subs;
    } else {
      LookAllStep(w, k, subs, i, noHang);
      LookAllFails(w, k, subs, i + 1, noHang);
      var r := LookAll(w, k, subs[..i], noHang);
      assert r.subs + [subs[i]] + subs[i + 1..] == r.subs + subs[i..];
    }
  }

  method WaitForJob(sys: System, j: Job?) returns (ok: bool)
    modifies sys, j
    ensures j == null ==> !ok && sys.kernel == old(sys.kernel)
    ensures j != null ==>
              var r := Wait(sys.world, old(sys.kernel), old(j.Value()), true);
              sys.kernel == r.kernel && j.Value() == r.job && ok == r.ok
  {
    if j == null {
      return false;
    }
    var code;
    ok, code := WaitForSubjobs(sys, j, true);
    if !ok {
      return false;
    }
    UpdateJobStatus(sys, j);
  }

  /** The exit status of the subjob in slot 0, or -1 on an error. */
  method BlockingWaitForJob(sys: System, j: Job?) returns (code: int)
    modifies sys, j
    ensures j == null ==> code == -1 && sys.kernel == old(sys.kernel)
    ensures j != null ==>
              var r := Wait(sys.world, old(sys.kernel), old(j.Value()), false);
              sys.kernel == r.kernel && j.Value() == r.job && code == r.code
  {
    if j == null {
      return -1;
    }
    var ok;
    ok, code := WaitForSubjobs(sys, j, false);
    if !ok {
      return -1;
    }
    UpdateJobStatus(sys, j);
  }

  /** The loop of the two waits: subjobs that have finished are left alone. */
  method WaitForSubjobs(sys: System, j: Job, noHang: bool) returns (ok: bool, code: int)
    modifies sys, j`subjobs
    ensures var r := LookAll(sys.world, old(sys.kernel), old(j.subjobs), noHang);
            sys.kernel == r.kernel && j.subjobs == r.subs && ok == r.ok && code == r.code
  {
    hide LookAll; hide StatusFromWord; hide WaitPid;
    ghost var k0, subs := sys.kernel, j.subjobs;
    code := 0;
    var i: nat := 0;
    LookAllNone(sys.world, k0, noHang);
    assert subs[..0] == [];
    while i < |j.subjobs|
      invariant i <= |j.subjobs| == |subs|
      invariant LookAll(sys.world, k0, subs[..i], noHang) == Round(sys.kernel, j.subjobs[..i], true, code)
      invariant j.subjobs[i..] == subs[i..]
    {
      LookAllStep(sys.world, k0, subs, i, noHang);
      assert j.subjobs[i] == subs[i..][0];
      if j.subjobs[i].Some? && !IsFinishedStatus(j.subjobs[i].value.lastStatus) {
        var sub := j.subjobs[i].value;
        var answer, word := sys.Wait(sub.pid, noHang);
        var good, status := ProcessWaitpidResponse(answer, word, sub.lastStatus);
        j.subjobs := j.subjobs[i := Some(sub.(lastStatus := status))];
        if !good {
          assert j.subjobs == j.subjobs[..i] + [subs[i]] + subs[i + 1..];
          LookAllFails(sys.world, k0, subs, i + 1, noHang);
          return false, code;
        }
        if i == 0 && status != Running && status != Stopped {
          code := WExitStatus(word);
        }
      }
      i := i + 1;
    }
    assert subs[..i] == subs && j.subjobs[..i] == j.subjobs;
    ok := true;
  }

  lemma LookAllNone(w: World, k: Kernel, noHang: bool)
    ensures LookAll(w, k, [], noHang) == Round(k, [], true, 0)
  {
  }
}
