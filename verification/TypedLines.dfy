/** What a typed line does, command by command (src/command.c, src/prompt.c). */
module TypedLines {
  import opened Options
  import opened Splitting
  import opened Descriptors
  import opened Commands
  import opened Verdict
  import opened CommandTree
  import opened Closing
  import opened Kernels
  import opened JobTables
  import opened Sessions
  import opened Launches
  import opened Soundness
  import opened Runs
  import opened ExitCodes
  import opened Endings
  import opened Lines
  import opened ReadLine

  /** A line that begins with `&`, and one that has nothing but `&`, do nothing: the jobs are looked at,
      and the last exit code, the table and the substitution global stay as they are. */
  lemma NothingTyped(w: World, con: Console, o: Oracle, line: string, t: Table, stale: bool, s: Session, start: Table)
    requires BACKGROUND <= line || Words(line, BACKGROUND) == []
    requires FoundBy(o, line, t, stale, start)
    ensures IsLine(Accepted(o, t, stale, Words(line, BACKGROUND)))
    ensures Outcome(w, con, o, line, t, stale, s, start) == (Refreshed(w, s), start) && start.open == t.open
    ensures StaleThen(o, line, t, stale) <==> stale
  {
    hide Words; hide Refreshed; hide ExecuteLine; hide IsLine;
    AcceptedIsLine(o, t, stale, Words(line, BACKGROUND));
    AcceptedNone(o, t, stale);
  }

  /** Command `i` of a line that is executed, in the state that those before it have left. */
  lemma EachCommandEnds(w: World, con: Console, o: Oracle, line: string, ds: seq<Decision>, s: Session, t: Table,
                        i: nat)
    requires Sound(s, []) && i < |ds| <= |Words(line, BACKGROUND)| && forall k | 0 <= k < |ds| :: HasCalls(ds[k])
    requires HasCalls(ds[i]) && Assembled(ds[i].parsed) != []
    ensures var before := ExecuteLine(w, con, o, ds[..i], FollowedCount(line, BACKGROUND), s, t);
            var after := ExecuteLine(w, con, o, ds[..i + 1], FollowedCount(line, BACKGROUND), s, t);
            CommandEnds(w, con, o, ds[i].parsed.state.pipes, Assembled(ds[i].parsed), IsFollowed(line, BACKGROUND, i),
                        before.0, before.1, after.0)
  {
    hide Execute; hide ExecuteLine; hide Assembled; hide FinalOrder; hide Words; hide IsFollowed; hide Sound;
    hide CommandEnds;
    var followed := FollowedCount(line, BACKGROUND);
    FollowedCountIsExact(line, BACKGROUND);
    LineKeepsSound(w, con, o, ds[..i], followed, s, t);
    ExecuteStep(w, con, o, ds, followed, s, t, i);
    var before := ExecuteLine(w, con, o, ds[..i], followed, s, t);
    var st := ds[i].parsed.state;
    CommandAnswers(w, con, o, st.pipes, Assembled(ds[i].parsed), i < followed, before.0, before.1,
                   EndsInOrder(st.pipes));
  }

  /** An internal command by itself changes the session as it does and returns its own code.  Any other
      command runs as a job, in the background if and only if it is followed by `&`. */
  ghost predicate CommandEnds(w: World, con: Console, o: Oracle, pipes: seq<Pipe>, calls: seq<Call>, followed: bool,
                              s: Session, t: Table, after: Session)
    requires calls != []
  {
    if |calls| == 1 && IsInternal(calls[0]) then
      var r := Builtin(w, con, s, calls[0]);
      after == r.0.(code := r.1)
    else exists jobId: Option<nat> :: JobEnds(w, con, o, pipes, calls, followed, s, t, after, jobId)
  }

  ghost predicate JobEnds(w: World, con: Console, o: Oracle, pipes: seq<Pipe>, calls: seq<Call>, background: bool,
                          s: Session, t: Table, after: Session, jobId: Option<nat>)
    requires calls != []
  {
    var p := LaunchAll(w, con, o, pipes, calls, s, t);
    EndsAs(after, after.code, jobId, p, background, NextSurvive(w, s.kernel, Externals(calls)),
           exists c: nat :: IsStopped(w, p.session.kernel.clock, calls, c),
           if IsInternal(calls[0]) then Builtin(w, con, s, calls[0]).1
           else CodeOf(w.awaited(p.session.kernel.clock)))
  }

  lemma CommandAnswers(w: World, con: Console, o: Oracle, pipes: seq<Pipe>, calls: seq<Call>, background: bool,
                       s: Session, t: Table, ends: seq<int>)
    requires Sound(s, []) && calls != []
    ensures CommandEnds(w, con, o, pipes, calls, background, s, t,
                        Execute(w, con, o, pipes, calls, background, s, t, ends).session)
  {
    hide Sound; hide RunJob; hide Builtin; hide LaunchAll; hide IsStopped; hide NextSurvive; hide CodeOf;
    hide Externals; hide IsInternal;
    if !(|calls| == 1 && IsInternal(calls[0])) {
      JobAnswers(w, con, o, pipes, calls, background, s, t, ends);
      var x := Execute(w, con, o, pipes, calls, background, s, t, ends);
      assert JobEnds(w, con, o, pipes, calls, background, s, t, x.session, x.jobId);
    }
  }
}
