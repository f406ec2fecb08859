/** Leaving the shell.  The guard of exit looks at the jobs that are there when exit is called, but
    the rest of its own pipeline and the rest of its line are still executed; so whether the shell
    leaves with an empty table depends on what these put into it. */
module Leaving {
  import opened Splitting
  import opened Descriptors
  import opened Commands
  import opened Verdict
  import opened CommandTree
  import opened Closing
  import opened Kernels
  import opened JobTables
  import opened Sessions
  import opened Launches
  import opened Soundness
  import opened Runs
  import opened Lines
  import opened ReadLine

  /** A line that is executed: its commands, how many of them are followed by `&`, and where they
      begin. */
  datatype LineRun = LineRun(world: World, con: Console, oracle: Oracle, ds: seq<Decision>, followed: int,
                             session: Session, table: Table)
  {
    ghost predicate Valid() {
      Sound(session, []) && forall i | 0 <= i < |ds| :: HasCalls(ds[i])
    }

    /** What the first `i` commands leave. */
    ghost function Before(i: nat): (Session, Table)
      requires Valid() && i <= |ds|
    {
      ExecuteLine(world, con, oracle, ds[..i], followed, session, table)
    }

    function Calls(i: nat): seq<Call>
      requires i < |ds| && HasCalls(ds[i])
    {
      Assembled(ds[i].parsed)
    }

    /** The session when the calls of command `i` have been started. */
    ghost function Midway(i: nat): Session
      requires Valid() && i < |ds|
    {
      assert HasCalls(ds[i]);
      Started(world, con, oracle, ds[i].parsed.state.pipes, Calls(i), Before(i).0, Before(i).1)
    }

    /** Command `i` puts a job into the table. */
    ghost predicate Leaves(i: nat)
      requires Valid() && i < |ds|
    {
      assert HasCalls(ds[i]);
      LeavesJob(world, con, oracle, ds[i].parsed.state.pipes, Calls(i), i < followed, Before(i).0, Before(i).1)
    }

    ghost predicate LeavesNone(from: nat, to: nat)
      requires Valid() && from <= to <= |ds|
    {
      forall i | from <= i < to :: !Leaves(i)
    }

    /** No call of command `i` is exit, jobs or fg. */
    predicate LooksAway(i: nat)
      requires i < |ds| && HasCalls(ds[i])
    {
      forall c | c in Calls(i) :: !Looks(c)
    }

    ghost function Jobs(i: nat): nat
      requires Valid() && i <= |ds|
    {
      Occupied(Before(i).0.slots)
    }
  }

  /** One command: internal commands among its calls may take jobs out of the table, and at its end
      it may put its own job in. */
  lemma CommandStep(x: LineRun, i: nat)
    requires x.Valid() && i < |x.ds|
    ensures HasCalls(x.ds[i]) && TableShrinks(x.Before(i).0, x.Calls(i), x.Midway(i))
    ensures x.Jobs(i + 1) == Occupied(x.Midway(i).slots) + if x.Leaves(i) then 1 else 0
    ensures x.Before(i + 1).0.exiting == x.Midway(i).exiting
  {
    hide Sound; hide Execute; hide TableShrinks; hide Started; hide LeavesJob; hide Occupied; hide Assembled;
    hide FinalOrder;
    assert HasCalls(x.ds[i]);
    assert forall k | 0 <= k < i :: x.ds[..i][k] == x.ds[k];
    LineKeepsSound(x.world, x.con, x.oracle, x.ds[..i], x.followed, x.session, x.table);
    ExecuteStep(x.world, x.con, x.oracle, x.ds, x.followed, x.session, x.table, i);
    var st := x.ds[i].parsed.state;
    EveryCommandKeeps(x.world, x.con, x.oracle, st.pipes, x.Calls(i), i < x.followed, x.Before(i).0, x.Before(i).1,
                      EndsInOrder(st.pipes));
  }

  /** The first command of a line behind which the shell has decided to leave. */
  lemma {:induction false} FirstToLeave(x: LineRun, n: nat) returns (e: nat)
    requires x.Valid() && n <= |x.ds| && !x.session.exiting && x.Before(n).0.exiting
    ensures e < n && !x.Before(e).0.exiting && x.Before(e + 1).0.exiting
  {
    hide ExecuteOne; hide Sound; hide HasCalls;
    assert x.ds[..0] == [];
    e := n - 1;
    if x.Before(e).0.exiting {
      e := FirstToLeave(x, e);
    }
  }

  /** At the end of a line in which command `e` has decided to leave, the table is empty if and only
      if it was empty when the calls of some command from `e` on had been started (for `e` itself it
      always was) and no command from that one on has left a job. */
  lemma {:induction false} TableOfALeavingLine(x: LineRun, e: nat, n: nat)
    requires x.Valid() && e < n <= |x.ds| && !x.Before(e).0.exiting && x.Before(e + 1).0.exiting
    ensures Occupied(x.Midway(e).slots) == 0
    ensures x.Jobs(n) == 0 <==> exists m | e <= m < n :: Occupied(x.Midway(m).slots) == 0 && x.LeavesNone(m, n)
    decreases n
  {
    hide Occupied; hide Sound; hide HasCalls; hide ExecuteLine; hide Started; hide LeavesJob; hide Looks;
    hide Assembled;
    CommandStep(x, e);
    var k := n - 1;
    CommandStep(x, k);
    if k > e {
      TableOfALeavingLine(x, e, k);
      if x.Jobs(k) == 0 {
        var m :| e <= m < k && Occupied(x.Midway(m).slots) == 0 && x.LeavesNone(m, k);
        assert !x.Leaves(k) ==> x.LeavesNone(m, n);
      }
      forall m | e <= m < k && Occupied(x.Midway(m).slots) == 0 && x.LeavesNone(m, n)
        ensures x.Jobs(n) == 0
      {
        assert x.LeavesNone(m, k);
        assert !x.Leaves(k);
      }
    }
    assert x.LeavesNone(k, n) <==> !x.Leaves(k);
  }

  /** If no later command of the line looks at the jobs, the table is empty if and only if no command
      from the one that has decided to leave on has left a job. */
  lemma {:induction false} TableOfAnUnattendedLine(x: LineRun, e: nat, n: nat)
    requires x.Valid() && e < n <= |x.ds| && !x.Before(e).0.exiting && x.Before(e + 1).0.exiting
    requires forall i | e < i < n :: HasCalls(x.ds[i]) && x.LooksAway(i)
    ensures x.Jobs(n) == 0 <==> x.LeavesNone(e, n)
    decreases n
  {
    hide Occupied; hide Sound; hide HasCalls; hide ExecuteLine; hide Started; hide LeavesJob; hide Looks;
    hide Assembled;
    TableOfALeavingLine(x, e, n);
    var k := n - 1;
    CommandStep(x, k);
    if k > e {
      TableOfAnUnattendedLine(x, e, k);
      assert x.LooksAway(k);
      assert x.LeavesNone(e, n) <==> x.LeavesNone(e, k) && !x.Leaves(k);
    } else {
      assert x.LeavesNone(e, n) <==> !x.Leaves(e);
    }
  }

  /** The execution of a typed line. */
  ghost function Typed(w: World, con: Console, o: Oracle, line: string, t: Table, stale: bool, s: Session, start: Table)
    : LineRun
  {
    LineRun(w, con, o, Accepted(o, t, stale, Words(line, BACKGROUND)), FollowedCount(line, BACKGROUND),
              Entered(w, o, line, t, stale, s), start)
  }

  /** A turn of the prompt's loop after which the shell leaves: the line has been executed, some
      command of it has decided to leave, and the table is empty exactly as said above. */
  lemma TableWhenLeaving(w: World, con: Console, o: Oracle, line: string, t: Table, stale: bool, s: Session,
                         start: Table)
    returns (e: nat)
    requires Sound(s, []) && !s.exiting && FoundBy(o, line, t, stale, start)
    requires IsLine(Accepted(o, t, stale, Words(line, BACKGROUND)))
    requires Outcome(w, con, o, line, t, stale, s, start).0.exiting
    ensures var x := Typed(w, con, o, line, t, stale, s, start);
            var n := |x.ds|;
            var left := Outcome(w, con, o, line, t, stale, s, start).0;
            && x.Valid() && e < n && !x.Before(e).0.exiting && x.Before(e + 1).0.exiting
            && (Occupied(left.slots) == 0 <==>
                  exists m | e <= m < n :: Occupied(x.Midway(m).slots) == 0 && x.LeavesNone(m, n))
            && ((forall i | e < i < n :: x.LooksAway(i)) ==> (Occupied(left.slots) == 0 <==> x.LeavesNone(e, n)))
  {
    hide Occupied; hide Sound; hide HasCalls; hide ExecuteLine; hide Started; hide LeavesJob; hide Looks;
    hide Assembled; hide Words; hide Accepted; hide FollowedCount; hide Refreshed; hide IsLine;
    EnteredIsSound(w, o, line, t, stale, s);
    var x := Typed(w, con, o, line, t, stale, s, start);
    LineHasCalls(x.ds);
    assert x.ds[..|x.ds|] == x.ds;
    e := FirstToLeave(x, |x.ds|);
    TableOfALeavingLine(x, e, |x.ds|);
    if forall i | e < i < |x.ds| :: x.LooksAway(i) {
      TableOfAnUnattendedLine(x, e, |x.ds|);
    }
  }
}
