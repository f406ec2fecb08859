/** Lines at which the shell does not do what one expects of it. */
module Examples {
  import opened Options
  import opened Splitting
  import opened Descriptors
  import opened Syntax
  import opened Commands
  import opened Residue
  import opened Verdict
  import opened PipeTree
  import opened Plugging
  import opened CommandTree
  import opened Slots
  import opened PlainLines
  import opened Redirections
  import opened Statuses
  import opened Kernels
  import opened Waiting
  import opened JobTables
  import opened Sessions
  import opened Launches
  import opened Soundness
  import opened Runs
  import opened EndOfFile
  import opened Lines
  import opened ReadLine
  import opened Leaving
  import opened Detaching
  import opened LastSegment
  import opened Prompt

  /* A refused line spoils the next one. */

  const REFUSED := "a <( b > f )"
  const SPOILED := "a | b | c"

  lemma RefusedTokens()
    ensures Words(REFUSED, BACKGROUND) == [REFUSED]
    ensures Words(REFUSED, SPACE) == ["a", SUBSTITUTION_START, "b", ">", "f", SUBSTITUTION_END]
  {
    hide Words; hide FollowedCount;
    TakeToken("a", "<( b > f )");
    TakeToken("<(", "b > f )");
    TakeToken("b", "> f )");
    TakeToken(">", "f )");
    TakeToken("f", ")");
    TakeToken(")", "");
    assert "f" + SPACE + ")" == "f )" && ">" + SPACE + "f )" == "> f )" && "b" + SPACE + "> f )" == "b > f )";
    assert "<(" + SPACE + "b > f )" == "<( b > f )" && "a" + SPACE + "<( b > f )" == REFUSED;
    NothingInEmpty(BACKGROUND);
    TakeWord(REFUSED, '&', "");
    assert REFUSED + "" == REFUSED;
  }

  lemma SpoiledTokens()
    ensures Words(SPOILED, BACKGROUND) == [SPOILED]
    ensures Words(SPOILED, SPACE) == ["a", PIPE_SYMBOL, "b", PIPE_SYMBOL, "c"]
  {
    hide Words; hide FollowedCount;
    TakeToken("a", "| b | c");
    TakeToken("|", "b | c");
    TakeToken("b", "| c");
    TakeToken("|", "c");
    TakeToken("c", "");
    assert "|" + SPACE + "c" == "| c" && "b" + SPACE + "| c" == "b | c";
    assert "|" + SPACE + "b | c" == "| b | c" && "a" + SPACE + "| b | c" == SPOILED;
    NothingInEmpty(BACKGROUND);
    TakeWord(SPOILED, '&', "");
    assert SPOILED + "" == SPOILED;
  }

  /** A substitution whose last stage redirects its output is rightly refused; but the line behind it,
      three plain words, is refused too, although it is accepted when the global is unset. */
  lemma RefusalSpoilsTheNextLine(w: World, con: Console, o: Oracle, states: seq<Standing>)
    requires IsSession(w, con, o, [REFUSED, SPOILED], states)
    requires o.grants(states[0].table.opens)
    ensures states[1].stale && Accepted(o, states[1].table, true, [SPOILED]) == []
    ensures Accepted(o, states[1].table, false, [SPOILED]) != []
    ensures states[2].session == Refreshed(w, states[1].session).(code := 1)
  {
    hide Words; hide Decide; hide LeftSet; hide Refreshed; hide FollowedCount; hide ExecuteLine; hide LeftSetRest;
    var lines := [REFUSED, SPOILED];
    var a, b, c := states[0], states[1], states[2];
    assert TakesTurn(w, con, o, lines[0], a, b) && TakesTurn(w, con, o, lines[1], b, states[1 + 1]);
    RefusedSets(o, a.table);
    SpoiledTokens();
    ThreeStagesCanBeSpoiled(o, State(b.table, [], [], []));
    AcceptedOfOne(o, b.table, true, SPOILED);
    AcceptedOfOne(o, b.table, false, SPOILED);
    AcceptedIsLine(o, b.table, b.stale, Words(lines[1], BACKGROUND));
    var start :| Follows(w, con, o, lines[1], b, c, start);
  }

  lemma RefusedSets(o: Oracle, t: Table)
    requires o.grants(t.opens)
    ensures StaleThen(o, REFUSED, t, false)
  {
    hide Words; hide Decide; hide LeftSet;
    RefusedTokens();
    SetByRefusedSubstitution(o, t.opens);
    RefusedIsRefused(o, t);
    AcceptedOfOne(o, t, false, REFUSED);
    assert !(BACKGROUND <= REFUSED) by { assert REFUSED[0] == 'a'; }
    assert TableAfter(t, []) == t && !StaleAfter(false, []);
  }

  lemma RefusedIsRefused(o: Oracle, t: Table)
    requires o.grants(t.opens)
    ensures DecideSegment(o, REFUSED, t, false) == None
  {
    hide Words; hide Decide; hide LeftSet;
    RefusedTokens();
    var st := State(t, [], [], []);
    var tokens := Words(REFUSED, SPACE);
    if Decide(o, tokens, false, false, st, false).Some? {
      SetByRefusedSubstitution(o, t.opens);
      AcceptedLeaves(o, tokens, false, false, st, false);
      NeverSetAgain(o, tokens, false, false, st);
      assert false;
    }
  }

  /* A refused line leaks. */

  const LEAKING := "a > f & ) & b"
  const TO_FILE := Pipeline.Stage("a", Redirect(">", "f", Rest.Done))

  lemma LeakingTokens()
    ensures Words(LEAKING, BACKGROUND) == ["a > f ", " ) ", " b"]
    ensures Words("a > f ", SPACE) == ["a", ">", "f"] && Words(" ) ", SPACE) == [SUBSTITUTION_END]
  {
    hide Words; hide FollowedCount;
    NothingInEmpty(SPACE);
    NothingInEmpty(BACKGROUND);
    TakeWord("a > f ", '&', "& ) & b");
    SkipSeparator('&', " ) & b");
    TakeWord(" ) ", '&', "& b");
    SkipSeparator('&', " b");
    TakeWord(" b", '&', "");
    assert "a > f " + "& ) & b" == LEAKING && BACKGROUND + " ) & b" == "& ) & b";
    assert " ) " + "& b" == " ) & b" && BACKGROUND + " b" == "& b" && " b" + "" == " b";
    TakeToken("a", "> f ");
    TakeToken(">", "f ");
    TakeToken("f", "");
    assert "f" + SPACE + "" == "f " && ">" + SPACE + "f " == "> f " && "a" + SPACE + "> f " == "a > f ";
    SkipSeparator(' ', ") ");
    TakeToken(")", "");
    assert ")" + SPACE + "" == ") " && SPACE + ") " == " ) ";
  }

  lemma FileIsDerived(o: Oracle, opens: nat)
    requires o.grants(opens)
    ensures DerivesFrom(o, ["a", ">", "f"], opens, false, TO_FILE)
  {
    assert Print(TO_FILE) == ["a", ">", "f"];
  }

  /** The file that the first command of a refused line opened stays open. */
  lemma RefusedLineKeepsItsFile(w: World, con: Console, o: Oracle, t: Table, s: Session, start: Table)
    requires Sound(s, []) && FoundBy(o, LEAKING, t, false, start) && o.grants(t.opens)
    ensures IsLine(Accepted(o, t, false, Words(LEAKING, BACKGROUND)))
    ensures IsRefused(LEAKING, Words(LEAKING, BACKGROUND), Accepted(o, t, false, Words(LEAKING, BACKGROUND)))
    ensures Outcome(w, con, o, LEAKING, t, false, s, start).1.open != t.open
  {
    hide Words; hide Decide; hide Outcome; hide Sound; hide FoundBy; hide FollowedCount; hide DerivesFrom; hide Size;
    hide LastStage; hide Argv; hide IsLine;
    LeakingTokens();
    var segments := Words(LEAKING, BACKGROUND);
    FileIsDerived(o, t.opens);
    TreeIsAccepted(o, "a > f ", t, false, TO_FILE);
    var d := DecideSegment(o, "a > f ", t, false).value;
    DecideName(o, [SUBSTITUTION_END], false, false, State(d.parsed.state.table, [], [], []), d.stale);
    AcceptedOfTwo(o, t, false, "a > f ", " ) ");
    assert segments[..2] == ["a > f ", " ) "];
    AcceptedStops(o, t, false, segments, 2);
    assert !(BACKGROUND <= LEAKING) by { assert LEAKING[0] == 'a'; }
    TurnKeeps(w, con, o, LEAKING, t, false, s, start);
    assert ">" in Words(segments[0], SPACE);
  }

  /* An earlier command keeps the pipes of a later one open. */

  const INHERITING := "sleep 9 & cat <( ls )"

  lemma InheritingSegments()
    ensures Words(INHERITING, BACKGROUND) == ["sleep 9 ", " cat <( ls )"]
  {
    hide Words; hide FollowedCount;
    NothingInEmpty(BACKGROUND);
    TakeWord("sleep 9 ", '&', "& cat <( ls )");
    SkipSeparator('&', " cat <( ls )");
    TakeWord(" cat <( ls )", '&', "");
    assert "sleep 9 " + "& cat <( ls )" == INHERITING && BACKGROUND + " cat <( ls )" == "& cat <( ls )";
    assert " cat <( ls )" + "" == " cat <( ls )";
  }

  lemma SleepTokens()
    ensures Words("sleep 9 ", SPACE) == ["sleep", "9"]
  {
    hide Words; hide FollowedCount;
    NothingInEmpty(SPACE);
    TakeToken("sleep", "9 ");
    TakeToken("9", "");
    assert "9" + SPACE + "" == "9 " && "sleep" + SPACE + "9 " == "sleep 9 ";
  }

  lemma CatTokens()
    ensures Words(" cat <( ls )", SPACE) == ["cat", SUBSTITUTION_START, "ls", SUBSTITUTION_END]
  {
    hide Words; hide FollowedCount;
    SkipSeparator(' ', "cat <( ls )");
    TakeToken("cat", "<( ls )");
    TakeToken("<(", "ls )");
    TakeToken("ls", ")");
    TakeToken(")", "");
    assert "ls" + SPACE + ")" == "ls )" && "<(" + SPACE + "ls )" == "<( ls )";
    assert "cat" + SPACE + "<( ls )" == "cat <( ls )";
    assert SPACE + "cat <( ls )" == " cat <( ls )";
  }

  const CAT := Pipeline.Stage("cat", Substitute(Pipeline.Stage("ls", Rest.Done), Rest.Done))

  lemma CatIsDerived(o: Oracle, opens: nat, stale: bool)
    ensures DerivesFrom(o, ["cat", SUBSTITUTION_START, "ls", SUBSTITUTION_END], opens, stale, CAT) && Size(CAT) == 2
  {
    var body := Pipeline.Stage("ls", Rest.Done);
    assert Print(body) == ["ls"] && Print(CAT) == ["cat", SUBSTITUTION_START, "ls", SUBSTITUTION_END];
  }

  /** The command `sleep 9 `, at any place of any line. */
  lemma SleepIsAccepted(o: Oracle, segment: string, t: Table, stale: bool) returns (d: Decision)
    requires Words(segment, SPACE) == ["sleep", "9"]
    ensures DecideSegment(o, segment, t, stale) == Some(d)
    ensures HasCalls(d) && |Assembled(d.parsed)| == 1 && !IsInternal(Assembled(d.parsed)[0])
  {
    hide Words; hide DecideSegment; hide FinalOrder; hide Assembled;
    d := WordsAreAccepted(o, segment, t, stale, ["sleep", "9"]);
  }

  lemma InheritingIsAccepted(o: Oracle, t: Table) returns (d: Decision, e: Decision)
    ensures Accepted(o, t, false, ["sleep 9 ", " cat <( ls )"]) == [d, e]
    ensures HasCalls(d) && |Assembled(d.parsed)| == 1 && !IsInternal(Assembled(d.parsed)[0])
    ensures HasCalls(e) && |e.parsed.state.pipes| == 1
  {
    hide Words; hide Decide; hide FollowedCount; hide DerivesFrom; hide Size; hide LastStage; hide Argv;
    SleepTokens();
    d := SleepIsAccepted(o, "sleep 9 ", t, false);
    var u := d.parsed.state.table;
    CatTokens();
    CatIsDerived(o, u.opens, d.stale);
    TreeIsAccepted(o, " cat <( ls )", u, d.stale, CAT);
    e := DecideSegment(o, " cat <( ls )", u, d.stale).value;
    AcceptedOfTwo(o, t, false, "sleep 9 ", " cat <( ls )");
  }

  /** The process of sleep holds both ends of the pipe between cat and ls. */
  lemma SleepHoldsThePipeOfCat(w: World, con: Console, o: Oracle, t: Table, start: Table, s: Session)
    requires Sound(s, []) && FoundBy(o, INHERITING, t, false, start)
    requires var ds := Accepted(o, t, false, Words(INHERITING, BACKGROUND));
             |ds| > 0 && IsLine(ds) && LineSurvives(w, ds, s, 1)
    ensures var ds := Accepted(o, t, false, Words(INHERITING, BACKGROUND));
            && |ds| == 2 && |ds[1].parsed.state.pipes| == 1
            && var p := LaunchIn(w, con, o, ds, 1, s, start, 0);
               Holds(p, 0, ds[1].parsed.state.pipes[0].readEnd) && Holds(p, 0, ds[1].parsed.state.pipes[0].writeEnd)
  {
    hide Words; hide Accepted; hide Sound; hide LineSurvives; hide IsInternal; hide Assembled; hide FinalOrder;
    hide LaunchIn; hide Holds; hide TableAfter; hide Chained; hide FollowedCount; hide Descriptors.Ends;
    InheritingSegments();
    var d, e := InheritingIsAccepted(o, t);
    var ds := [d, e];
    assert !(BACKGROUND <= INHERITING) by { assert INHERITING[0] == 's'; }
    AcceptedIsChained(o, t, false, ["sleep 9 ", " cat <( ls )"]);
    var pipes := e.parsed.state.pipes;
    EndsMember(pipes, 0);
    LaterPipesAreInherited(w, con, o, t, start, ds, 1, s, 0, 1, 0, pipes[0].readEnd);
    LaterPipesAreInherited(w, con, o, t, start, ds, 1, s, 0, 1, 0, pipes[0].writeEnd);
  }

  /* The shell leaves with a job. */

  lemma {:induction false} EveryLaunchSucceeds(w: World, con: Console, o: Oracle, pipes: seq<Pipe>, calls: seq<Call>,
                                               s: Session, t: Table)
    requires forall n :: w.survives(n)
    ensures LaunchAll(w, con, o, pipes, calls, s, t).ok
  {
    hide Builtin; hide IsInternal; hide Forked; hide Foreign; hide Piped; hide NewPipe; hide NewPid;
    if calls != [] {
      EveryLaunchSucceeds(w, con, o, pipes, calls[..|calls| - 1], s, t);
    }
  }

  /** With an empty table, a plain exit decides to leave. */
  lemma ExitDecides(w: World, con: Console, s: Session, c: Call)
    requires Sound(s, []) && Occupied(s.slots) == 0 && c.argv == [Text("exit")]
    ensures IsInternal(c) && Builtin(w, con, s, c).0.exiting
  {
    hide Sound; hide Occupied; hide Refreshed; hide SomeJobAlive;
    RefreshKeeps(w, s, []);
    RefreshEmpties(s, Refreshed(w, s));
  }

  lemma RefreshEmpties(s: Session, t: Session)
    requires Keeps(s, t, [])
    ensures Occupied(t.slots) <= Occupied(s.slots)
  {
  }

  /** A pipeline whose slot 0 is a plain exit decides to leave when its calls are started. */
  lemma ExitInSlotZero(w: World, con: Console, o: Oracle, pipes: seq<Pipe>, calls: seq<Call>, s: Session, t: Table)
    requires Sound(s, []) && Occupied(s.slots) == 0 && calls != [] && calls[0].argv == [Text("exit")]
    ensures Runs.Started(w, con, o, pipes, calls, s, t).exiting
  {
    hide Sound; hide Builtin; hide Occupied; hide IsInternal; hide LaunchOne;
    ExitDecides(w, con, s, calls[0]);
    SlotZeroDecides(w, con, o, pipes, calls, s, t);
  }

  lemma {:induction false} SlotZeroDecides(w: World, con: Console, o: Oracle, pipes: seq<Pipe>, calls: seq<Call>,
                                           s: Session, t: Table)
    requires calls != [] && IsInternal(calls[0]) && Builtin(w, con, s, calls[0]).0.exiting
    ensures LaunchAll(w, con, o, pipes, calls, s, t).session.exiting
  {
    hide Builtin; hide IsInternal; hide Forked; hide Foreign; hide Piped; hide NewPipe; hide NewPid;
    var n := |calls| - 1;
    if n > 0 {
      SlotZeroDecides(w, con, o, pipes, calls[..n], s, t);
      var p := LaunchAll(w, con, o, pipes, calls[..n], s, t);
      if IsInternal(calls[n]) {
        BuiltinStays(w, con, p.session, calls[n]);
      }
    } else {
      assert calls[..0] == [];
    }
  }

  const PIPED_EXIT := "sleep 9 | exit &"

  lemma PipedExitTokens()
    ensures Words(PIPED_EXIT, BACKGROUND) == ["sleep 9 | exit "] && FollowedCount(PIPED_EXIT, BACKGROUND) == 1
    ensures Words("sleep 9 | exit ", SPACE) == ["sleep", "9", PIPE_SYMBOL, "exit"]
  {
    hide Words; hide FollowedCount;
    NothingInEmpty(SPACE);
    NothingInEmpty(BACKGROUND);
    TakeWord("sleep 9 | exit ", '&', "&");
    SkipSeparator('&', "");
    assert "sleep 9 | exit " + "&" == PIPED_EXIT && BACKGROUND + "" == "&";
    TakeToken("sleep", "9 | exit ");
    TakeToken("9", "| exit ");
    TakeToken("|", "exit ");
    TakeToken("exit", "");
    assert "exit" + SPACE + "" == "exit " && "|" + SPACE + "exit " == "| exit ";
    assert "9" + SPACE + "| exit " == "9 | exit ";
    assert "sleep" + SPACE + "9 | exit " == "sleep 9 | exit ";
  }

  lemma PipedExitIsAccepted(o: Oracle, t: Table) returns (d: Decision)
    ensures Accepted(o, t, false, ["sleep 9 | exit "]) == [d]
    ensures HasCalls(d) && |Assembled(d.parsed)| == 2 && Assembled(d.parsed)[0].argv == [Text("exit")]
  {
    hide Words; hide DecideSegment; hide FollowedCount; hide FinalOrder; hide Assembled;
    PipedExitTokens();
    var stages := [["sleep", "9"], ["exit"]];
    assert PlainTokens(stages[1..]) == ["exit"];
    assert PlainTokens(stages) == ["sleep", "9", PIPE_SYMBOL, "exit"];
    PlainIsAccepted(o, "sleep 9 | exit ", t, false, stages, 0);
    assert Texts(["exit"]) == [Text("exit")];
    d := DecideSegment(o, "sleep 9 | exit ", t, false).value;
    AcceptedOfOne(o, t, false, "sleep 9 | exit ");
  }

  /** The guard of exit does not see the job that exit itself is part of. */
  lemma PipedExitLeavesItsJob(w: World, con: Console, o: Oracle, t: Table, s: Session, start: Table)
    requires Sound(s, []) && !s.exiting && Occupied(s.slots) == 0 && FoundBy(o, PIPED_EXIT, t, false, start)
    requires forall n :: w.survives(n)
    ensures IsLine(Accepted(o, t, false, Words(PIPED_EXIT, BACKGROUND)))
    ensures var left := Outcome(w, con, o, PIPED_EXIT, t, false, s, start).0; left.exiting && Occupied(left.slots) == 1
  {
    hide Words; hide Decide; hide Sound; hide Occupied; hide Refreshed; hide Runs.Started; hide LeavesJob; hide FoundBy;
    hide FollowedCount; hide Accepted; hide IsInternal; hide Assembled; hide FinalOrder; hide IsLine;
    PipedExitTokens();
    var d := PipedExitIsAccepted(o, t);
    AcceptedIsLine(o, t, false, Words(PIPED_EXIT, BACKGROUND));
    EnteredIsSound(w, o, PIPED_EXIT, t, false, s);
    EnteredIsEmpty(w, o, PIPED_EXIT, t, false, s);
    assert !(BACKGROUND <= PIPED_EXIT) by { assert PIPED_EXIT[0] == 's'; }
    var x := Typed(w, con, o, PIPED_EXIT, t, false, s, start);
    LineHasCalls(x.ds);
    assert x.ds[..0] == [] && x.ds[..1] == x.ds;
    CommandStep(x, 0);
    ShrinksToNothing(x.session, x.Calls(0), x.Midway(0));
    ExitInSlotZero(w, con, o, d.parsed.state.pipes, x.Calls(0), x.session, start);
    BackgroundLeaves(w, con, o, d.parsed.state.pipes, x.Calls(0), x.session, start);
  }

  lemma BackgroundLeaves(w: World, con: Console, o: Oracle, pipes: seq<Pipe>, calls: seq<Call>, s: Session, t: Table)
    requires (forall n :: w.survives(n)) && !(|calls| == 1 && IsInternal(calls[0]))
    ensures LeavesJob(w, con, o, pipes, calls, true, s, t)
  {
    hide LaunchAll; hide IsInternal; hide Wait; hide AllFinished;
    EveryLaunchSucceeds(w, con, o, pipes, calls, s, t);
  }

  lemma EnteredIsEmpty(w: World, o: Oracle, line: string, t: Table, stale: bool, s: Session)
    requires Sound(s, []) && Occupied(s.slots) == 0
    ensures Occupied(Entered(w, o, line, t, stale, s).slots) == 0
  {
    hide Sound; hide Occupied; hide Words; hide Accepted;
    RefreshKeeps(w, s, []);
    RefreshEmpties(s, Refreshed(w, s));
  }

  lemma ShrinksToNothing(s: Session, calls: seq<Call>, t: Session)
    requires TableShrinks(s, calls, t)
    ensures Occupied(s.slots) == 0 ==> Occupied(t.slots) == 0
  {
  }

  const EXIT_THEN := "exit & sleep 9 &"

  lemma ExitThenTokens()
    ensures Words(EXIT_THEN, BACKGROUND) == ["exit ", " sleep 9 "] && FollowedCount(EXIT_THEN, BACKGROUND) == 2
    ensures Words("exit ", SPACE) == ["exit"] && Words(" sleep 9 ", SPACE) == ["sleep", "9"]
  {
    hide Words; hide FollowedCount;
    NothingInEmpty(SPACE);
    NothingInEmpty(BACKGROUND);
    TakeWord("exit ", '&', "& sleep 9 &");
    SkipSeparator('&', " sleep 9 &");
    TakeWord(" sleep 9 ", '&', "&");
    SkipSeparator('&', "");
    assert "exit " + "& sleep 9 &" == EXIT_THEN && BACKGROUND + " sleep 9 &" == "& sleep 9 &";
    assert " sleep 9 " + "&" == " sleep 9 &" && BACKGROUND + "" == "&";
    TakeToken("exit", "");
    assert "exit" + SPACE + "" == "exit ";
    SleepTokens();
    SkipSeparator(' ', "sleep 9 ");
    assert SPACE + "sleep 9 " == " sleep 9 ";
  }

  lemma ExitThenIsAccepted(o: Oracle, t: Table) returns (d: Decision, e: Decision)
    ensures Accepted(o, t, false, ["exit ", " sleep 9 "]) == [d, e]
    ensures HasCalls(d) && |Assembled(d.parsed)| == 1 && Assembled(d.parsed)[0].argv == [Text("exit")]
    ensures HasCalls(e) && |Assembled(e.parsed)| == 1 && !IsInternal(Assembled(e.parsed)[0])
  {
    hide Words; hide DecideSegment; hide FollowedCount; hide FinalOrder; hide Assembled;
    ExitThenTokens();
    d := WordsAreAccepted(o, "exit ", t, false, ["exit"]);
    assert Texts(["exit"]) == [Text("exit")];
    e := SleepIsAccepted(o, " sleep 9 ", d.parsed.state.table, d.stale);
    AcceptedOfTwo(o, t, false, "exit ", " sleep 9 ");
  }

  /** Nor does it see the commands behind it: the rest of the line is still executed. */
  lemma ExitThenLeavesAJob(w: World, con: Console, o: Oracle, t: Table, s: Session, start: Table)
    requires Sound(s, []) && !s.exiting && Occupied(s.slots) == 0 && FoundBy(o, EXIT_THEN, t, false, start)
    requires forall n :: w.survives(n)
    ensures IsLine(Accepted(o, t, false, Words(EXIT_THEN, BACKGROUND)))
    ensures var left := Outcome(w, con, o, EXIT_THEN, t, false, s, start).0; left.exiting && Occupied(left.slots) == 1
  {
    hide Words; hide Decide; hide Sound; hide Occupied; hide Refreshed; hide Runs.Started; hide LeavesJob; hide FoundBy;
    hide FollowedCount; hide Accepted; hide IsInternal; hide Assembled; hide FinalOrder; hide IsLine; hide ExecuteOne;
    ExitThenTokens();
    var d, e := ExitThenIsAccepted(o, t);
    AcceptedIsLine(o, t, false, Words(EXIT_THEN, BACKGROUND));
    EnteredIsSound(w, o, EXIT_THEN, t, false, s);
    EnteredIsEmpty(w, o, EXIT_THEN, t, false, s);
    assert !(BACKGROUND <= EXIT_THEN) by { assert EXIT_THEN[0] == 'e'; }
    var x := Typed(w, con, o, EXIT_THEN, t, false, s, start);
    LineHasCalls(x.ds);
    assert x.ds[..0] == [] && x.ds[..2] == x.ds;
    CommandStep(x, 0);
    ShrinksToNothing(x.session, x.Calls(0), x.Midway(0));
    ExitDecides(w, con, x.session, x.Calls(0)[0]);
    ExitInSlotZero(w, con, o, d.parsed.state.pipes, x.Calls(0), x.session, start);
    assert !x.Leaves(0) by { AloneLeavesNothing(w, con, o, d.parsed.state.pipes, x.Calls(0), x.session, start); }
    CommandStep(x, 1);
    ShrinksToNothing(x.Before(1).0, x.Calls(1), x.Midway(1));
    StaysExiting(x.Before(1).0, x.Calls(1), x.Midway(1));
    BackgroundLeaves(w, con, o, e.parsed.state.pipes, x.Calls(1), x.Before(1).0, x.Before(1).1);
  }

  lemma AloneLeavesNothing(w: World, con: Console, o: Oracle, pipes: seq<Pipe>, calls: seq<Call>, s: Session, t: Table)
    requires |calls| == 1 && IsInternal(calls[0])
    ensures !LeavesJob(w, con, o, pipes, calls, true, s, t)
  {
  }

  lemma StaysExiting(s: Session, calls: seq<Call>, t: Session)
    requires TableShrinks(s, calls, t)
    ensures s.exiting ==> t.exiting
  {
  }

  /* A process that dies before it has answered. */

  const LIST := "ls"

  lemma ListIsAccepted(o: Oracle, t: Table) returns (d: Decision)
    ensures Accepted(o, t, false, Words(LIST, BACKGROUND)) == [d] && |Words(LIST, BACKGROUND)| == 1
    ensures HasCalls(d) && Externals(Assembled(d.parsed)) == 1
  {
    hide Words; hide DecideSegment; hide FollowedCount; hide FinalOrder; hide Assembled; hide Externals;
    NothingInEmpty(SPACE);
    NothingInEmpty(BACKGROUND);
    TakeWord(LIST, '&', "");
    TakeToken(LIST, "");
    assert LIST + "" == LIST;
    d := WordsAreAccepted(o, LIST, t, false, [LIST]);
    AcceptedOfOne(o, t, false, LIST);
    OneExternal(Assembled(d.parsed));
  }

  lemma OneExternal(calls: seq<Call>)
    requires |calls| == 1 && !IsInternal(calls[0])
    ensures Externals(calls) == 1
  {
    assert calls[..0] == [];
  }

  /** If the process of a plain `ls` dies before it has answered, the shell has a descriptor more
      after the line than before, and a child that it will never wait for. */
  lemma DeadProcessKeepsADescriptor(w: World, con: Console, o: Oracle, t: Table, s: Session, start: Table)
    requires Sound(s, []) && FoundBy(o, LIST, t, false, start)
    requires !w.survives(Entered(w, o, LIST, t, false, s).kernel.started)
    ensures IsLine(Accepted(o, t, false, Words(LIST, BACKGROUND)))
    ensures Outcome(w, con, o, LIST, t, false, s, start).1.open != t.open
    ensures Lost(Outcome(w, con, o, LIST, t, false, s, start).0, []) != {}
  {
    hide Words; hide Accepted; hide Outcome; hide Sound; hide FoundBy; hide IsLine; hide Entered; hide Externals;
    hide Assembled; hide FinalOrder;
    var d := ListIsAccepted(o, t);
    assert !(BACKGROUND <= LIST) by { assert LIST[0] == 'l'; }
    TurnKeeps(w, con, o, LIST, t, false, s, start);
    assert LineExternals([d], 1) == 1;
  }

  /* A job without processes is detached. */

  const INTERNAL := "pwd | pwd"

  lemma InternalTokens()
    ensures Words(INTERNAL, BACKGROUND) == [INTERNAL]
    ensures Words(INTERNAL, SPACE) == ["pwd", PIPE_SYMBOL, "pwd"]
  {
    hide Words; hide FollowedCount;
    TakeToken("pwd", "| pwd");
    TakeToken("|", "pwd");
    TakeToken("pwd", "");
    assert "|" + SPACE + "pwd" == "| pwd" && "pwd" + SPACE + "| pwd" == INTERNAL;
    NothingInEmpty(BACKGROUND);
    TakeWord(INTERNAL, '&', "");
    assert INTERNAL + "" == INTERNAL;
  }

  lemma InternalIsAccepted(o: Oracle, t: Table) returns (d: Decision)
    ensures Accepted(o, t, false, Words(INTERNAL, BACKGROUND)) == [d]
    ensures HasCalls(d) && OnlyInternal(Assembled(d.parsed))
  {
    hide Words; hide DecideSegment; hide FollowedCount; hide FinalOrder; hide Assembled;
    InternalTokens();
    var stages := [["pwd"], ["pwd"]];
    assert PlainTokens(stages[1..]) == ["pwd"];
    assert PlainTokens(stages) == ["pwd", PIPE_SYMBOL, "pwd"];
    PlainIsAccepted(o, INTERNAL, t, false, stages, 0);
    PlainIsAccepted(o, INTERNAL, t, false, stages, 1);
    d := DecideSegment(o, INTERNAL, t, false).value;
    AcceptedOfOne(o, t, false, INTERNAL);
  }

  /** The job of `pwd | pwd` never has a process, and is detached when the shell has waited for it. */
  lemma InternalLineDetaches(w: World, con: Console, o: Oracle, t: Table, s: Session, start: Table)
    requires Sound(s, [])
    ensures var ds := Accepted(o, t, false, Words(INTERNAL, BACKGROUND));
            && |ds| == 1 && HasCalls(ds[0])
            && var p := LaunchIn(w, con, o, ds, 0, s, start, 0);
               && p.ok && p.pgid == 0
               && Wait(w, p.session.kernel, LaunchedJob(p), false).job.status == Detached
  {
    hide Words; hide Accepted; hide Sound; hide LaunchAll; hide Wait; hide OnlyInternal; hide FinalOrder;
    var d := InternalIsAccepted(o, t);
    assert [d][..0] == [];
    InternalJobsDetach(w, con, o, d.parsed.state.pipes, Assembled(d.parsed), s, start);
  }

  /* A line whose redirection fails is executed. */

  const UNGRANTED := "pwd & a > f"

  lemma UngrantedTokens()
    ensures Words(UNGRANTED, BACKGROUND) == ["pwd ", " a > f"] && FollowedCount(UNGRANTED, BACKGROUND) == 1
    ensures Words("pwd ", SPACE) == ["pwd"] && Words(" a > f", SPACE) == ["a", ">", "f"]
  {
    hide Words; hide FollowedCount;
    NothingInEmpty(SPACE);
    NothingInEmpty(BACKGROUND);
    TakeWord("pwd ", '&', "& a > f");
    SkipSeparator('&', " a > f");
    TakeWord(" a > f", '&', "");
    assert "pwd " + "& a > f" == UNGRANTED && BACKGROUND + " a > f" == "& a > f" && " a > f" + "" == " a > f";
    TakeToken("pwd", "");
    assert "pwd" + SPACE + "" == "pwd ";
    SkipSeparator(' ', "a > f");
    TakeToken("a", "> f");
    TakeToken(">", "f");
    TakeToken("f", "");
    assert ">" + SPACE + "f" == "> f" && "a" + SPACE + "> f" == "a > f" && SPACE + "a > f" == " a > f";
  }

  lemma FileIsNotDerived(o: Oracle, opens: nat, stale: bool)
    requires !o.grants(opens)
    ensures !Derivable(o, ["a", ">", "f"], opens, stale)
  {
    hide DerivesFrom; hide Derivable;
    OnlyStageDerives(o, "a", ">", "f", opens, stale);
  }

  lemma UngrantedIsAccepted(o: Oracle, t: Table) returns (d: Decision)
    requires forall n :: !o.grants(n)
    ensures Accepted(o, t, false, Words(UNGRANTED, BACKGROUND)) == [d] && |Words(UNGRANTED, BACKGROUND)| == 2
    ensures HasCalls(d) && |Assembled(d.parsed)| == 1 && Assembled(d.parsed)[0].argv == [Text("pwd")]
  {
    hide Words; hide Decide; hide FollowedCount; hide Derivable; hide FinalOrder; hide Assembled;
    UngrantedTokens();
    d := WordsAreAccepted(o, "pwd ", t, false, ["pwd"]);
    assert Texts(["pwd"]) == [Text("pwd")];
    var u := d.parsed.state.table;
    FileIsNotDerived(o, u.opens, d.stale);
    AcceptsExactlyDerivable(o, ["a", ">", "f"], State(u, [], [], []), d.stale);
    AcceptedOfTwo(o, t, false, "pwd ", " a > f");
  }

  /** A redirection of the line has failed; the line is executed and its code is 0. */
  lemma FailedRedirectionGivesZero(w: World, con: Console, o: Oracle, t: Table, s: Session, start: Table)
    requires (forall n :: !o.grants(n)) && forall n :: con.succeeds(n)
    ensures IsLine(Accepted(o, t, false, Words(UNGRANTED, BACKGROUND)))
    ensures Outcome(w, con, o, UNGRANTED, t, false, s, start).0.code == 0
  {
    hide Words; hide Accepted; hide Outcome; hide FollowedCount; hide IsLine; hide Assembled; hide FinalOrder;
    hide Refreshed; hide ExecuteLine;
    var d := UngrantedIsAccepted(o, t);
    assert !(BACKGROUND <= UNGRANTED) by { assert UNGRANTED[0] == 'p'; }
    OnlyTheLastRefused(w, con, o, UNGRANTED, t, false, s, start);
  }
}
