/** With which code the shell leaves (src/exit.c). */
module Quitting {
  import opened Options
  import opened Splitting
  import opened Descriptors
  import opened Syntax
  import opened Commands
  import opened Verdict
  import opened CommandTree
  import opened Closing
  import opened Kernels
  import opened Waiting
  import opened JobTables
  import opened Tracking
  import opened Sessions
  import opened Launches
  import opened Soundness
  import opened Lines
  import opened PlainLines
  import opened ReadLine

  /** The number that a word reads as is the code of a process. */
  predicate IsCode(con: Console, word: string) {
    con.number(word).Some? && 0 <= con.number(word).value <= 255
  }

  /** A command that is nothing but exit.  With too many arguments it does nothing; otherwise the jobs
      are looked at, and if one is left, or the argument is no code, it does nothing more.  In all
      these cases its code is 1.  Otherwise the shell is to leave, with the code that the argument
      says, and without an argument with the code of the command before. */
  lemma ExitAlone(w: World, con: Console, o: Oracle, pipes: seq<Pipe>, calls: seq<Call>, background: bool, s: Session,
                  t: Table, ends: seq<int>, args: seq<string>)
    requires |calls| == 1 && calls[0].argv == [Text("exit")] + Texts(args)
    ensures var x := Execute(w, con, o, pipes, calls, background, s, t, ends);
            var now := Refreshed(w, s);
            && x.code == x.session.code && x.jobId == None
            && if |args| > 1 then x.session == s.(code := 1)
               else if Occupied(now.slots) > 0 || (args != [] && !IsCode(con, args[0]))
               then x.session == now.(code := 1)
               else if args == [] then x.session == now.(exiting := true)
               else x.session == now.(exiting := true, code := con.number(args[0]).value)
  {
    hide Sweep; hide Occupied;
    AliveUnlessEmpty(w, s.kernel, s.slots);
    RefreshIsQuiet(w, s);
    assert args != [] ==> calls[0].argv[1] == Text(args[0]);
  }

  /** A typed line that is nothing but exit, whatever its arguments: when the shell leaves, and with
      which code. */
  lemma TypedExit(w: World, con: Console, o: Oracle, line: string, t: Table, stale: bool, s: Session, start: Table,
                  segment: string, args: seq<string>)
    requires Sound(s, []) && !s.exiting && FoundBy(o, line, t, stale, start) && !(BACKGROUND <= line)
    requires Words(line, BACKGROUND) == [segment] && Words(segment, SPACE) == ["exit"] + args
    requires forall a | a in args :: !IsSymbol(a)
    ensures IsLine(Accepted(o, t, stale, Words(line, BACKGROUND)))
    ensures var left := Outcome(w, con, o, line, t, stale, s, start).0;
            var now := Refreshed(w, Refreshed(w, s));
            && (left.exiting <==> |args| <= 1 && Occupied(now.slots) == 0 && (args != [] ==> IsCode(con, args[0])))
            && left.code == (if !left.exiting then 1
                             else if args == [] then s.code else con.number(args[0]).value)
            && left.slots == (if |args| > 1 then Refreshed(w, s) else now).slots
  {
    hide Words; hide Accepted; hide Sound; hide Refreshed; hide Occupied; hide FinalOrder; hide IsLine; hide FoundBy;
    hide FollowedCount; hide Execute; hide IsSymbol; hide ExecuteOne; hide IsCode;
    assert !IsSymbol("exit") by { ExitIsPlain(); }
    var d := WordsAreAccepted(o, segment, t, stale, ["exit"] + args);
    AcceptedOfOne(o, t, stale, segment);
    AcceptedIsLine(o, t, stale, Words(line, BACKGROUND));
    var calls, pipes := Assembled(d.parsed), d.parsed.state.pipes;
    assert Texts(["exit"] + args) == [Text("exit")] + Texts(args);
    var followed, now := FollowedCount(line, BACKGROUND), Refreshed(w, s);
    ExitAlone(w, con, o, pipes, calls, 0 < followed, now, start, EndsInOrder(pipes), args);
    ExecuteSingleLine(w, con, o, d, followed, now, start);
    RefreshIsQuiet(w, s);
    RefreshIsQuiet(w, now);
  }

  lemma ExitIsPlain()
    ensures !IsSymbol("exit")
  {
  }

  lemma ExecuteSingleLine(w: World, con: Console, o: Oracle, d: Decision, followed: int, s: Session, t: Table)
    requires HasCalls(d)
    ensures var pipes := d.parsed.state.pipes;
            ExecuteLine(w, con, o, [d], followed, s, t).0
            == Execute(w, con, o, pipes, Assembled(d.parsed), 0 < followed, s, t, EndsInOrder(pipes)).session
  {
    hide Execute; hide FinalOrder; hide Assembled;
    assert [d][..0] == [];
  }
}
