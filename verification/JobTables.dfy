/** The table of the jobs under watch (src/jobs.c): slot i holds the job with id i + 1, and the
    table grows by 64 slots when it is full. */
module JobTables {
  import opened Options
  import opened Statuses
  import opened Kernels
  import opened Waiting
  import opened Jobs

  const CAPACITY_STEP := 64

  type Slots = seq<Option<JobValue>>

  function Occupied(slots: Slots): nat {
    if slots == [] then 0 else Occupied(slots[..|slots| - 1]) + if slots[|slots| - 1].Some? then 1 else 0
  }

  /** The least free slot, or the length when there is none. */
  function LeastFree(slots: Slots): (i: nat)
    ensures i <= |slots|
    ensures forall k | 0 <= k < i :: slots[k].Some?
    ensures i < |slots| ==> slots[i] == None
  {
    if slots == [] then 0
    else
      var i := LeastFree(slots[..|slots| - 1]);
      if i == |slots| - 1 && slots[i].Some? then i + 1 else i
  }

  function Grown(slots: Slots): Slots {
    if Occupied(slots) == |slots| then slots + seq(CAPACITY_STEP, _ => None) else slots
  }

  predicate TableOk(slots: Slots) {
    && |slots| > 0 && |slots| % CAPACITY_STEP == 0
    && forall i | 0 <= i < |slots| && slots[i].Some? :: slots[i].value.id == i + 1
  }

  /** The table after a job has been added under the least free id. */
  function Placed(slots: Slots, j: JobValue): Slots
    requires LeastFree(Grown(slots)) < |Grown(slots)|
  {
    var i := LeastFree(Grown(slots));
    Grown(slots)[i := Some(j.(id := i + 1))]
  }

  lemma {:induction false} OccupiedOfConcat(xs: Slots, ys: Slots)
    ensures Occupied(xs + ys) == Occupied(xs) + Occupied(ys)
  {
    if ys == [] {
      assert xs + ys == xs;
    } else {
      var n := |ys| - 1;
      OccupiedOfConcat(xs, ys[..n]);
      assert (xs + ys)[..|xs| + n] == xs + ys[..n];
    }
  }

  lemma {:induction false} OccupiedBound(slots: Slots)
    ensures Occupied(slots) <= |slots|
    ensures Occupied(slots) == |slots| <==> forall i | 0 <= i < |slots| :: slots[i].Some?
  {
    if slots != [] {
      var n := |slots| - 1;
      OccupiedBound(slots[..n]);
      assert slots == slots[..n] + [slots[n]];
      assert (forall i | 0 <= i < |slots| :: slots[i].Some?)
        <==> (forall i | 0 <= i < n :: slots[..n][i].Some?) && slots[n].Some?;
    }
  }

  lemma {:induction false} OccupiedUpdate(slots: Slots, i: nat, slot: Option<JobValue>)
    requires i < |slots|
    ensures Occupied(slots[i := slot])
         == Occupied(slots) - (if slots[i].Some? then 1 else 0) + (if slot.Some? then 1 else 0)
  {
    var n := |slots| - 1;
    if i == n {
      assert slots[i := slot][..n] == slots[..n];
    } else {
      OccupiedUpdate(slots[..n], i, slot);
      assert slots[i := slot][..n] == slots[..n][i := slot];
    }
  }

  lemma {:induction false} OccupiedNone(n: nat)
    ensures Occupied(seq(n, _ => None)) == 0
  {
    if n > 0 {
      OccupiedNone(n - 1);
      assert seq<Option<JobValue>>(n, _ => None)[..n - 1] == seq(n - 1, _ => None);
    }
  }

  /** There is always room after growing, so adding a job never fails; the table grows only when it is
      full; and every other job keeps its slot and its id. */
  lemma AddingAlwaysFits(slots: Slots, j: JobValue)
    requires TableOk(slots)
    ensures LeastFree(Grown(slots)) < |Grown(slots)|
    ensures TableOk(Placed(slots, j)) && Occupied(Placed(slots, j)) == Occupied(slots) + 1
    ensures var full := forall k | 0 <= k < |slots| :: slots[k].Some?;
            |Placed(slots, j)| == |slots| + if full then CAPACITY_STEP else 0
    ensures var i := LeastFree(Grown(slots));
            && (i < |slots| ==> slots[i] == None)
            && (forall k | 0 <= k < |slots| && slots[k].Some? :: k != i && Placed(slots, j)[k] == slots[k])
            && (forall k | 0 <= k < i :: k < |slots| && slots[k].Some?)
            && (forall k | |slots| <= k < |Placed(slots, j)| && k != i :: Placed(slots, j)[k] == None)
  {
    OccupiedBound(slots);
    OccupiedBound(Grown(slots));
    OccupiedNone(CAPACITY_STEP);
    OccupiedOfConcat(slots, seq(CAPACITY_STEP, _ => None));
    var i := LeastFree(Grown(slots));
    assert i < |Grown(slots)| by {
      if Occupied(slots) == |slots| {
        assert Grown(slots)[|slots|] == None;
      }
    }
    OccupiedUpdate(Grown(slots), i, Some(j.(id := i + 1)));
    assert Occupied(slots) == |slots| ==> i == |slots| by {
      assert Occupied(slots) == |slots| ==> Grown(slots)[|slots|] == None;
    }
  }

  class JobTable {
    const sys: System
    var slots: seq<Job?>
    var size: nat
    ghost var repr: set<Job>     // every job that has been in the table

    function View(): (v: Slots)
      reads this, slots
    {
      seq(|slots|,
          i requires 0 <= i < |slots| reads this, slots => if slots[i] == null then None else Some(slots[i].Value()))
    }

    ghost predicate Valid()
      reads this, slots
    {
      TableOk(View()) && size == Occupied(View()) && forall i | 0 <= i < |slots| && slots[i] != null :: slots[i] in repr
    }

    constructor (sys: System)
      ensures this.sys == sys && Valid() && repr == {} && View() == seq(CAPACITY_STEP, _ => None)
    {
      this.sys, size, repr := sys, 0, {};
      slots := seq(CAPACITY_STEP, _ => null);
      new;
      assert View() == seq(CAPACITY_STEP, _ => None);
      OccupiedNone(CAPACITY_STEP);
    }

    /** The id of the job in the table, -1 for NULL. */
    method AddJob(j: Job?) returns (id: int)
      requires Valid() && (j != null ==> j !in repr)
      modifies this, j
      ensures Valid() && repr == old(repr) + if j == null then {} else {j}
      ensures j == null ==> id == -1 && View() == old(View())
      ensures j != null ==>
                && LeastFree(Grown(old(View()))) < |Grown(old(View()))|
                && id == LeastFree(Grown(old(View()))) + 1
                && View() == Placed(old(View()), old(j.Value()))
                && |slots| == |View()| && slots[id - 1] == j
    {
      hide Occupied; hide LeastFree; hide Grown; hide TableOk;
      if j == null {
        return -1;
      }
      ghost var was := View();
      AddingAlwaysFits(was, j.Value());
      OccupiedBound(was);
      Grow();
      var i := FindFree();
      // A table that has been grown is never full.
      Install(i, j);
      id := i + 1;
    }

    method FindFree() returns (i: nat)
      requires LeastFree(View()) < |View()|
      ensures i == LeastFree(View())
    {
      assert View()[LeastFree(View())] == None;
      i := 0;
      while slots[i] != null
        invariant i <= LeastFree(View()) < |slots|
        decreases |slots| - i
      {
        assert View()[i].Some?;
        i := i + 1;
      }
      assert View()[i] == None;
    }

    method Install(i: nat, j: Job)
      requires i < |slots| && slots[i] == null && j !in slots
      modifies this, j
      ensures slots == old(slots)[i := j] && size == old(size) + 1 && repr == old(repr) + {j}
      ensures View() == old(View())[i := Some(old(j.Value()).(id := i + 1))]
    {
      j.id := i + 1;
      slots := slots[i := j];
      size := size + 1;
      repr := repr + {j};
      assert View() == old(View())[i := Some(old(j.Value()).(id := i + 1))];
    }

    method Grow()
      requires Valid()
      modifies `slots
      ensures View() == Grown(old(View()))
      ensures forall i | 0 <= i < |slots| && slots[i] != null :: slots[i] in repr
    {
      if size == |slots| {
        slots := slots + seq(CAPACITY_STEP, _ => null);
        assert View() == Grown(old(View()));
      }
    }

    /** 0 when the job has been removed, 1 when there is none with that id. */
    method RemoveJob(id: int) returns (failed: int)
      requires Valid()
      modifies `slots, `size
      ensures failed == if 1 <= id <= |old(slots)| && old(slots)[id - 1] != null then 0 else 1
      ensures Valid() && slots == if failed == 0 then old(slots)[id - 1 := null] else old(slots)
      ensures View() == if failed == 0 then old(View())[id - 1 := None] else old(View())
    {
      ghost var was := View();
      if id < 1 || id > |slots| || size == 0 {
        if 1 <= id <= |slots| && slots[id - 1] != null {
          OccupiedUpdate(was, id - 1, None);
          assert false;
        }
        return 1;
      }
      if slots[id - 1] == null {
        return 1;
      }
      slots := slots[id - 1 := null];
      size := size - 1;
      OccupiedUpdate(was, id - 1, None);
      assert View() == was[id - 1 := None];
      failed := 0;
    }

    method AreJobsRunning() returns (running: bool)
      requires Valid()
      ensures running <==> exists i :: 0 <= i < |View()| && View()[i].Some? && Alive(View()[i].value.subs)
    {
      var i: nat := 0;
      while i < |slots|
        invariant i <= |slots|
        invariant forall k | 0 <= k < i && View()[k].Some? :: !Alive(View()[k].value.subs)
      {
        if slots[i] != null {
          var alive := IsJobAlive(slots[i]);
          if alive {
            assert View()[i].Some?;
            return true;
          }
        }
        i := i + 1;
      }
      running := false;
    }

    /** Looks at every job without waiting, and takes those that have finished out of the table. */
    method FdUpdateJobs()
      requires Valid()
      modifies `slots, `size, sys, repr
      ensures Valid()
      ensures var r := Sweep(sys.world, old(sys.kernel), old(View())); sys.kernel == r.0 && View() == r.1
    {
      hide Sweep; hide SweepOne; hide Valid; hide View; hide Swept;
      ghost var was, k0 := View(), sys.kernel;
      var i: nat := 0;
      SweptNone(sys.world, k0, was);
      ViewLength();
      while i < |slots|
        invariant i <= |slots| == |was| && Valid()
        invariant (sys.kernel, View()) == Swept(sys.world, k0, was, i)
      {
        SweptStep(sys.world, k0, was, i);
        FdUpdateJob(i);
        i := i + 1;
      }
      SweptAll(sys.world, k0, was);
    }

    lemma ViewLength()
      ensures |View()| == |slots|
    {
    }

    /** The body of the loop, for one slot. */
    method FdUpdateJob(i: nat)
      requires Valid() && i < |slots|
      modifies `slots, `size, sys, repr
      ensures Valid() && |slots| == |old(slots)| == |View()|
      ensures var r := SweepOne(sys.world, old(sys.kernel), old(View()[i]));
              sys.kernel == r.0 && View() == old(View())[i := r.1]
    {
      hide Wait; hide Occupied;
      ghost var was := View();
      var job := slots[i];
      if job == null {
        assert was[i := None] == was;
        return;
      }
      assert was[i] == Some(job.Value());
      OnlyInItsSlot(i);
      var ok := WaitForJob(sys, job);
      WaitKeepsId(sys.world, old(sys.kernel), was[i].value, true);
      OccupiedUpdate(was, i, Some(job.Value()));
      assert View() == was[i := Some(job.Value())];
      if ok {
        var finished := IsJobFinished(job);
        if finished {
          var failed := RemoveJob(job.id);
        }
      }
    }

    method PutJobInForeground(job: Job?) returns (done: bool)
      requires Valid() && (job != null ==> 1 <= job.id <= |slots| && slots[job.id - 1] == job)
      modifies `slots, `size, sys, repr
      ensures Valid()
      ensures job == null ==> !done && sys.kernel == old(sys.kernel) && View() == old(View())
      ensures job != null ==>
                && old(View())[old(job.id) - 1].Some?
                && (sys.kernel, View(), done) == Foregrounded(sys.world, old(sys.kernel), old(View()), old(job.id) - 1)
    {
      hide Wait; hide Occupied;
      if job == null {
        return false;
      }
      ghost var was, i := View(), job.id - 1;
      assert slots[i] != null && was[i] == Some(job.Value());
      if job.pgid == 0 {
        return false;
      }
      var continued := sys.Ping(job.pgid);
      if !continued {
        return false;
      }
      OnlyInItsSlot(i);
      var code := BlockingWaitForJob(sys, job);
      WaitKeepsId(sys.world, Ticked(old(sys.kernel)), was[i].value, false);
      WaitCode(sys.world, Ticked(old(sys.kernel)), was[i].value, false);
      OccupiedUpdate(was, i, Some(job.Value()));
      assert View() == was[i := Some(job.Value())];
      if code == -1 {
        return false;
      }
      var finished := IsJobFinished(job);
      if finished {
        var failed := RemoveJob(job.id);
        assert View() == was[i := None];
      }
      done := true;
    }

    /** A job is in one slot only: its id says in which. */
    lemma OnlyInItsSlot(i: nat)
      requires Valid() && i < |slots| && slots[i] != null
      ensures slots[i].id == i + 1 && slots[i] in repr
      ensures forall k | 0 <= k < |slots| && k != i && slots[k] != null :: slots[k] != slots[i]
    {
      assert forall k | 0 <= k < |slots| && slots[k] != null :: View()[k].value.id == slots[k].id;
    }

    /** The job a word such as %3 names; `number` is what its digits read as. */
    method GetJob(word: string, number: Option<int>) returns (job: Job?)
      requires Valid()
      ensures job != null <==>
                && "%" <= word && number.Some? && 1 <= number.value <= |slots| && slots[number.value - 1] != null
      ensures job != null ==> job == slots[number.value - 1] && job.id == number.value
    {
      if !("%" <= word) || number.None? || number.value < 0 {
        return null;
      }
      var id := number.value;
      if id < 1 || id > |slots| || size == 0 {
        if 1 <= id <= |slots| && slots[id - 1] != null {
          assert View()[id - 1].Some?;
          OccupiedUpdate(View(), id - 1, None);
          assert false;
        }
        return null;
      }
      assert slots[id - 1] != null ==> View()[id - 1].Some?;
      job := slots[id - 1];
    }
  }

  /** The kernel and the table after the first `i` slots have been swept. */
  ghost function Swept(w: World, k: Kernel, slots: Slots, i: nat): (Kernel, Slots)
    requires i <= |slots|
  {
    var r := Sweep(w, k, slots[..i]);
    (r.0, r.1 + slots[i..])
  }

  lemma SweptNone(w: World, k: Kernel, slots: Slots)
    ensures Swept(w, k, slots, 0) == (k, slots)
  {
    assert slots[..0] == [] && [] + slots[0..] == slots;
  }

  lemma SweptAll(w: World, k: Kernel, slots: Slots)
    ensures Swept(w, k, slots, |slots|) == Sweep(w, k, slots)
  {
    assert slots[..|slots|] == slots;
    assert Sweep(w, k, slots).1 + slots[|slots|..] == Sweep(w, k, slots).1;
  }

  lemma SweptStep(w: World, k: Kernel, slots: Slots, i: nat)
    requires i < |slots|
    ensures var r := Swept(w, k, slots, i);
            && |r.1| == |slots| && r.1[i] == slots[i]
            && var one := SweepOne(w, r.0, slots[i]);
               Swept(w, k, slots, i + 1) == (one.0, r.1[i := one.1])
  {
    assert slots[..i + 1][..i] == slots[..i];
    var r := Sweep(w, k, slots[..i]);
    var one := SweepOne(w, r.0, slots[i]);
    assert (r.1 + slots[i..])[i := one.1] == r.1 + [one.1] + slots[i + 1..];
  }

  /** The job in slot `i` is given the terminal, which a job without a group cannot be given, and is
      continued and waited for; true unless that fails. */
  ghost function Foregrounded(w: World, k: Kernel, slots: Slots, i: nat): (Kernel, Slots, bool)
    requires i < |slots| && slots[i].Some?
  {
    if slots[i].value.pgid == 0 then (k, slots, false)
    else if !GroupExists(w, k, slots[i].value.pgid) then (Ticked(k), slots, false)
    else
      var r := Wait(w, Ticked(k), slots[i].value, false);
      (r.kernel, slots[i := if r.ok && AllFinished(r.job.subs) then None else Some(r.job)], r.ok)
  }

  lemma WaitKeepsId(w: World, k: Kernel, j: JobValue, noHang: bool)
    ensures var r := Wait(w, k, j, noHang); r.job.id == j.id && r.job.pgid == j.pgid && |r.job.subs| == |j.subs|
  {
  }

  /** The answer -1 of a blocking wait means nothing but an error. */
  lemma WaitCode(w: World, k: Kernel, j: JobValue, noHang: bool)
    ensures var r := Wait(w, k, j, noHang); r.code == -1 <==> !r.ok
    ensures -1 <= Wait(w, k, j, noHang).code <= 255
  {
    RoundCodesAreBytes(w, k, j.subs, noHang);
  }

  lemma {:induction false} RoundCodesAreBytes(w: World, k: Kernel, subs: seq<Option<Subjob>>, noHang: bool)
    ensures 0 <= LookAll(w, k, subs, noHang).code <= 255
  {
    if subs != [] {
      RoundCodesAreBytes(w, k, subs[..|subs| - 1], noHang);
    }
  }
}
