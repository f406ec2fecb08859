/** Lines whose last segment alone is refused: they are executed all the same (src/command.c). */
module LastSegment {
  import opened Splitting
  import opened Descriptors
  import opened Commands
  import opened Verdict
  import opened Listing
  import opened CommandTree
  import opened Closing
  import opened Kernels
  import opened Waiting
  import opened JobTables
  import opened Sessions
  import opened Launches
  import opened Lines
  import opened ReadLine

  /** The one call that looks at the last exit code. */
  predicate IsPlainExit(c: Call) {
    c.argv == [Text("exit")]
  }

  lemma BuiltinIgnoresCode(w: World, con: Console, s: Session, c: Call, code: int)
    requires IsInternal(c) && !IsPlainExit(c)
    ensures var r := Builtin(w, con, s, c);
            var q := Builtin(w, con, s.(code := code), c);
            q.1 == r.1 && q.0.(code := 0) == r.0.(code := 0)
  {
    hide Sweep; hide Foregrounded; hide SomeJobAlive; hide NamedSlot; hide GroupExists;
    assert c.argv == [c.argv[0]] + c.argv[1..];
  }

  lemma {:induction false} LaunchIgnoresCode(w: World, con: Console, o: Oracle, pipes: seq<Pipe>, calls: seq<Call>,
                                             s: Session, t: Table, code: int)
    requires forall c | c in calls :: !IsPlainExit(c)
    ensures var p := LaunchAll(w, con, o, pipes, calls, s, t);
            var q := LaunchAll(w, con, o, pipes, calls, s.(code := code), t);
            q.(session := q.session.(code := 0)) == p.(session := p.session.(code := 0))
  {
    hide Builtin; hide IsInternal; hide Forked; hide NewPid; hide Piped; hide NewPipe; hide Foreign;
    if calls != [] {
      var n := |calls| - 1;
      LaunchIgnoresCode(w, con, o, pipes, calls[..n], s, t, code);
      var p := LaunchAll(w, con, o, pipes, calls[..n], s, t);
      var q := LaunchAll(w, con, o, pipes, calls[..n], s.(code := code), t);
      if IsInternal(calls[n]) {
        BuiltinIgnoresCode(w, con, p.session, calls[n], q.session.code);
      }
    }
  }

  /** A command without a plain exit does not depend on the code of the one before. */
  lemma ExecuteIgnoresCode(w: World, con: Console, o: Oracle, pipes: seq<Pipe>, calls: seq<Call>, background: bool,
                           s: Session, t: Table, ends: seq<int>, code: int)
    requires forall c | c in calls :: !IsPlainExit(c)
    ensures Execute(w, con, o, pipes, calls, background, s.(code := code), t, ends)
         == Execute(w, con, o, pipes, calls, background, s, t, ends)
  {
    hide LaunchAll; hide Builtin; hide IsInternal; hide Wait; hide Grown; hide LeastFree; hide Placed;
    hide Descriptors.Ends; hide IsPlainExit;
    LaunchIgnoresCode(w, con, o, pipes, calls, s, t, code);
    if |calls| == 1 && IsInternal(calls[0]) {
      BuiltinIgnoresCode(w, con, s, calls[0], code);
    }
  }

  lemma {:induction false} LineIgnoresCode(w: World, con: Console, o: Oracle, ds: seq<Decision>, followed: int,
                                           s: Session, t: Table, code: int)
    requires ds != [] && (forall i | 0 <= i < |ds| :: HasCalls(ds[i]))
    requires HasCalls(ds[0]) && forall c | c in Assembled(ds[0].parsed) :: !IsPlainExit(c)
    ensures ExecuteLine(w, con, o, ds, followed, s.(code := code), t) == ExecuteLine(w, con, o, ds, followed, s, t)
  {
    hide Execute; hide FinalOrder; hide Assembled; hide IsPlainExit;
    var n := |ds| - 1;
    if n > 0 {
      LineIgnoresCode(w, con, o, ds[..n], followed, s, t, code);
    } else {
      assert ds[..0] == [];
      var st := ds[0].parsed.state;
      ExecuteIgnoresCode(w, con, o, st.pipes, Assembled(ds[0].parsed), n < followed, s, t, EndsInOrder(st.pipes), code);
    }
  }

  /** If the last of several segments is refused, and it alone, the commands before it are executed,
      and the last exit code is that of the last of them.  Unless the first of them has a plain exit,
      nothing is left of the refusal, not even the documented code 1: the session and the table are
      those that the accepted commands leave by themselves. */
  lemma OnlyTheLastRefused(w: World, con: Console, o: Oracle, line: string, t: Table, stale: bool, s: Session,
                           start: Table)
    requires !(BACKGROUND <= line)
    requires |Accepted(o, t, stale, Words(line, BACKGROUND))| + 1 == |Words(line, BACKGROUND)| > 1
    ensures IsLine(Accepted(o, t, stale, Words(line, BACKGROUND)))
    ensures var ds := Accepted(o, t, stale, Words(line, BACKGROUND));
            var followed := FollowedCount(line, BACKGROUND);
            var left := Outcome(w, con, o, line, t, stale, s, start);
            var n := |ds| - 1;
            var before := ExecuteLine(w, con, o, ds[..n], followed, Refreshed(w, s).(code := 1), start);
            var pipes := ds[n].parsed.state.pipes;
            && left == ExecuteLine(w, con, o, ds, followed, Refreshed(w, s).(code := 1), start)
            && left.0.code == Execute(w, con, o, pipes, Assembled(ds[n].parsed), n < followed, before.0, before.1,
                                      EndsInOrder(pipes)).code
            && ((forall c | c in Assembled(ds[0].parsed) :: !IsPlainExit(c)) ==>
                  left == ExecuteLine(w, con, o, ds, followed, Refreshed(w, s), start))
  {
    hide Words; hide Accepted; hide Refreshed; hide FollowedCount; hide RunJob; hide FinalOrder; hide Assembled;
    hide IsPlainExit; hide IsLine; hide Builtin; hide IsInternal;
    var ds := Accepted(o, t, stale, Words(line, BACKGROUND));
    AcceptedIsLine(o, t, stale, Words(line, BACKGROUND));
    LineHasCalls(ds);
    assert HasCalls(ds[0]);
    if forall c | c in Assembled(ds[0].parsed) :: !IsPlainExit(c) {
      LineIgnoresCode(w, con, o, ds, FollowedCount(line, BACKGROUND), Refreshed(w, s), start, 1);
    }
  }
}
