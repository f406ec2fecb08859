/** Internal commands keep what the shell knows about its children right, also while a job is
    being launched: its subjobs, not yet in the table, are the end of the pool. */
module Soundness {
  import opened Options
  import opened Commands
  import opened Kernels
  import opened Waiting
  import opened JobTables
  import opened Tracking
  import opened Sessions

  /** The session is right about every child, counting the records `launching` of a job on its way. */
  ghost predicate Sound(s: Session, launching: Pool) {
    && KernelOk(s.kernel) && Coupled(s.kernel, Flat(s.slots) + launching)
    && TableOk(s.slots) && 0 <= s.code <= 255
  }

  /** The children that the shell will never wait for. */
  ghost function Lost(s: Session, launching: Pool): set<int> {
    Orphans(s.kernel, Flat(s.slots) + launching)
  }

  /** What any internal command may do. */
  ghost predicate Keeps(s: Session, t: Session, launching: Pool) {
    && Sound(t, launching) && Later(s.kernel, t.kernel)
    && Lost(t, launching) == Lost(s, launching)
    && Occupied(t.slots) <= Occupied(s.slots)
  }

  lemma {:induction false} FlatOfConcat(xs: Slots, ys: Slots)
    ensures Flat(xs + ys) == Flat(xs) + Flat(ys)
  {
    hide Subs;
    if ys == [] {
      assert xs + ys == xs;
    } else {
      var n := |ys| - 1;
      FlatOfConcat(xs, ys[..n]);
      FlatSnoc(ys[..n], ys[n]);
      FlatSnoc(xs + ys[..n], ys[n]);
      assert ys == ys[..n] + [ys[n]];
      assert xs + ys == xs + ys[..n] + [ys[n]];
      Regroup(Flat(xs), Flat(ys[..n]), Subs(ys[n]), []);
    }
  }

  lemma FlatUpdate(slots: Slots, i: nat, slot: Option<JobValue>)
    requires i < |slots|
    ensures Flat(slots) == Flat(slots[..i]) + Subs(slots[i]) + Flat(slots[i + 1..])
    ensures Flat(slots[i := slot]) == Flat(slots[..i]) + Subs(slot) + Flat(slots[i + 1..])
  {
    hide Flat; hide Subs;
    FlatSnoc(slots[..i], slots[i]);
    FlatSnoc(slots[..i], slot);
    FlatOfConcat(slots[..i] + [slots[i]], slots[i + 1..]);
    FlatOfConcat(slots[..i] + [slot], slots[i + 1..]);
    assert slots[..i] + [slots[i]] + slots[i + 1..] == slots;
    assert slots[..i] + [slot] + slots[i + 1..] == slots[i := slot];
  }

  lemma {:induction false} OccupiedLess(xs: Slots, ys: Slots)
    requires |xs| == |ys| && forall i | 0 <= i < |xs| :: ys[i].Some? ==> xs[i].Some?
    ensures Occupied(ys) <= Occupied(xs)
  {
    if xs != [] {
      OccupiedLess(xs[..|xs| - 1], ys[..|ys| - 1]);
    }
  }

  lemma RefreshKeeps(w: World, s: Session, launching: Pool)
    requires Sound(s, launching)
    ensures Keeps(s, Refreshed(w, s), launching)
    ensures SomeJobAlive(Refreshed(w, s).slots) <==> Occupied(Refreshed(w, s).slots) > 0
  {
    hide KernelOk; hide Coupled; hide Orphans; hide Sweep; hide Flat;
    var t := Refreshed(w, s);
    assert [] + Flat(s.slots) + launching == Flat(s.slots) + launching;
    assert [] + Flat(t.slots) + launching == Flat(t.slots) + launching;
    SweepKeepsCoupled(w, s.kernel, [], s.slots, launching);
    AliveUnlessEmpty(w, s.kernel, s.slots);
    forall i | 0 <= i < |t.slots| && t.slots[i].Some?
      ensures s.slots[i].Some? && t.slots[i].value.id == i + 1
    {
      SweepLeavesTheLiving(w, s.kernel, s.slots, i);
    }
    OccupiedLess(s.slots, t.slots);
  }

  lemma TickKeepsSession(s: Session, launching: Pool)
    requires Sound(s, launching)
    ensures Keeps(s, s.(kernel := Ticked(s.kernel)), launching)
  {
    TickKeeps(s.kernel, Flat(s.slots) + launching);
  }

  /** The shell decides to exit only when it watches no job. */
  lemma ExitKeeps(w: World, con: Console, s: Session, argv: seq<Word>, launching: Pool)
    requires Sound(s, launching)
    ensures var r := ExitCommand(w, con, s, argv);
            && Keeps(s, r.0, launching) && 0 <= r.1 <= 255
            && (r.0.exiting && !s.exiting ==> Occupied(r.0.slots) == 0)
  {
    RefreshKeeps(w, s, launching);
    hide KernelOk; hide Coupled; hide Orphans; hide Sweep; hide Flat; hide SomeJobAlive; hide Occupied; hide TableOk;
  }

  lemma WaitingFor(w: World, s: Session, i: nat, launching: Pool)
    requires Sound(s, launching) && i < |s.slots| && s.slots[i].Some?
    ensures var r := Wait(w, s.kernel, s.slots[i].value, false);
            var slot := if AllFinished(r.job.subs) then None else Some(r.job);
            r.ok && Keeps(s, s.(kernel := r.kernel, slots := s.slots[i := slot]), launching)
  {
    hide KernelOk; hide Coupled; hide Orphans; hide Wait; hide Flat; hide AllFinished; hide Occupied; hide FollowsAll;
    var j := s.slots[i].value;
    var left, right := Flat(s.slots[..i]), Flat(s.slots[i + 1..]) + launching;
    var r := Wait(w, s.kernel, j, false);
    var slot := if AllFinished(r.job.subs) then None else Some(r.job);
    FlatUpdate(s.slots, i, slot);
    OccupiedUpdate(s.slots, i, slot);
    assert Flat(s.slots) + launching == left + j.subs + right;
    WaitKeepsCoupled(w, s.kernel, left, j, right, false);
    if AllFinished(r.job.subs) {
      DropFinished(r.kernel, left, r.job.subs, right);
    }
    assert Flat(s.slots[i := slot]) + launching == left + Subs(slot) + right;
    assert left + [] + right == left + right;
  }

  lemma FgKeeps(w: World, con: Console, s: Session, argv: seq<Word>, launching: Pool)
    requires Sound(s, launching)
    ensures var r := FgCommand(w, con, s, argv);
            Keeps(s, r.0, launching) && 0 <= r.1 <= 1 && r.0.exiting == s.exiting
  {
    hide KernelOk; hide Coupled; hide Orphans; hide Wait; hide Flat; hide AllFinished; hide TableOk;
    KeepsItself(s, launching);
    if |argv| == 2 && NamedSlot(con, s.slots, argv[1]).Some? {
      TickKeepsSession(s, launching);
      WaitingFor(w, s.(kernel := Ticked(s.kernel)), NamedSlot(con, s.slots, argv[1]).value, launching);
    }
  }

  lemma BuiltinKeeps(w: World, con: Console, s: Session, c: Call, launching: Pool)
    requires Sound(s, launching) && IsInternal(c)
    ensures var r := Builtin(w, con, s, c);
            && Keeps(s, r.0, launching) && 0 <= r.1 <= 255
            && (r.0.exiting && !s.exiting ==> Occupied(r.0.slots) == 0)
  {
    hide Sound; hide Keeps; hide ExitCommand; hide FgCommand; hide Refreshed; hide Occupied;
    ExitKeeps(w, con, s, c.argv, launching);
    FgKeeps(w, con, s, c.argv, launching);
    TickKeepsSession(s, launching);
    RefreshKeeps(w, s, launching);
    KeepsIsSound(s, Refreshed(w, s), launching);
    TickKeepsSession(Refreshed(w, s), launching);
    KeepsTwice(s, Refreshed(w, s), Refreshed(w, s).(kernel := Ticked(Refreshed(w, s).kernel)), launching);
    assert Refreshed(w, s).exiting == s.exiting by { RefreshIsQuiet(w, s); }
    KeepsItself(s, launching);
  }

  lemma RefreshIsQuiet(w: World, s: Session)
    ensures Refreshed(w, s).exiting == s.exiting && Refreshed(w, s).code == s.code
  {
  }

  lemma KeepsIsSound(s: Session, t: Session, launching: Pool)
    requires Keeps(s, t, launching)
    ensures Sound(t, launching)
  {
  }

  lemma KeepsItself(s: Session, launching: Pool)
    requires Sound(s, launching)
    ensures Keeps(s, s, launching)
  {
  }

  lemma KeepsTwice(s: Session, t: Session, u: Session, launching: Pool)
    requires Keeps(s, t, launching) && Keeps(t, u, launching)
    ensures Keeps(s, u, launching)
  {
  }
}
