/** Reading a line (src/command.c) and one turn of the prompt's loop (src/prompt.c). */
module ReadLine {
  import opened Options
  import opened Descriptors
  import opened Splitting
  import opened StringUtils
  import opened Commands
  import opened Verdict
  import opened Residue
  import opened Conservation
  import opened Scanning
  import opened CommandObjects
  import opened Parser
  import opened Kernels
  import opened Sessions
  import opened Soundness
  import opened Runs
  import opened Launches
  import opened Shells
  import opened Lines

  /** The command object of an accepted segment. */
  ghost predicate Represents(cmd: Command?, d: Decision, background: bool)
    reads cmd
  {
    && cmd != null
    && cmd.store == d.parsed.state.store && cmd.pipes == d.parsed.state.pipes
    && d.parsed.last < |d.parsed.state.store| && cmd.calls == FinalOrder(d.parsed)
    && cmd.background == background
  }

  ghost predicate RepresentAll(cmds: seq<Command?>, ds: seq<Decision>, followed: int)
    reads cmds
  {
    && |ds| <= |cmds|
    && forall k | 0 <= k < |ds| :: Represents(cmds[k], ds[k], k < followed)
  }

  class Reader {
    const parser: Parser
    const shell: Shell

    constructor (parser: Parser, shell: Shell)
      requires parser.files == shell.files
      ensures this.parser == parser && this.shell == shell
    {
      this.parser, this.shell := parser, shell;
    }

    ghost predicate Stale()
      reads parser
    {
      parser.lastSubstitution != NO_CALL
    }

    /** The commands of a line, or None. */
    method ParseReadLine(line: string) returns (commands: Option<seq<Command?>>)
      requires parser.files == shell.files
      modifies parser, shell.files, shell`lastExitCode
      ensures var segments := Words(line, BACKGROUND);
              var ds := Accepted(shell.files.oracle, old(shell.files.table), old(Stale()), segments);
              && (commands.None? <==> IsRefused(line, segments, ds))
              && (commands.Some? ==>
                    && |commands.value| == |ds|
                    && RepresentAll(commands.value, ds, FollowedCount(line, BACKGROUND)))
              && shell.files.table.open ==
                   (if BACKGROUND <= line then old(shell.files.table.open)
                    else TableAfter(old(shell.files.table), ds).open)
              && shell.lastExitCode ==
                   (if BACKGROUND <= line || |ds| == |segments| then old(shell.lastExitCode) else 1)
      ensures Stale() <==> StaleThen(shell.files.oracle, line, old(shell.files.table), old(Stale()))
    {
      hide LeftSet; hide Words; hide Accepted; hide DecideSegment; hide FollowedCount; hide RepresentAll;
      hide TableAfter; hide StaleAfter;
      if BACKGROUND <= line {
        return None;
      }
      var tokens, total, last := SplitStringKeepTrace(line, BACKGROUND);
      ghost var segments := Words(line, BACKGROUND);
      ghost var o, t0, stale := shell.files.oracle, shell.files.table, Stale();
      ghost var followed := FollowedCount(line, BACKGROUND);
      AcceptedNone(o, t0, stale);
      if tokens == null {
        assert segments == [];
        return None;
      }
      var cmds: seq<Command?> := [];
      var abort, trimLast := false, false;
      var index: nat := 0;
      ghost var ds: seq<Decision> := [];
      RepresentNone(followed);
      assert segments[..0] == [];
      while index < total
        invariant index <= total == tokens.Length == |segments| && tokens[..] == segments && |cmds| == index
        invariant ds == Accepted(o, t0, stale, segments[..index])
        invariant RepresentAll(cmds, ds, followed)
        invariant forall k | 0 <= k < |cmds| && cmds[k] != null :: fresh(cmds[k])
        invariant shell.files.table.open == TableAfter(t0, ds).open
        invariant |ds| < index <==> abort || trimLast
        invariant abort ==> |ds| + 1 < total
        invariant trimLast ==> !abort && index == total && |ds| + 1 == index
        invariant !abort && !trimLast ==>
                    shell.files.table == TableAfter(t0, ds) && (Stale() <==> StaleAfter(stale, ds))
        invariant abort || trimLast ==>
                    (Stale() <==> LeftSet(o, Words(segments[|ds|], SPACE), false, false, TableAfter(t0, ds).opens,
                                          StaleAfter(stale, ds)))
        invariant shell.lastExitCode == if abort || trimLast then 1 else old(shell.lastExitCode)
      {
        if abort {
          AcceptedStays(o, t0, stale, segments, index);
          RepresentMore(cmds, null, ds, followed);
          cmds := cmds + [null];
        } else {
          AcceptedStep(o, t0, stale, segments, index);
          ghost var d := DecideSegment(o, segments[index], TableAfter(t0, ds), StaleAfter(stale, ds));
          var cmd := ParseSegment(tokens[index], TableAfter(t0, ds), StaleAfter(stale, ds));
          if cmd == null {
            shell.lastExitCode := 1;
            if index == total - 1 {
              trimLast := true;
            } else {
              abort := true;
            }
            RepresentMore(cmds, null, ds, followed);
            cmds := cmds + [null];
          } else {
            if index <= last {
              cmd.background := true;
            }
            RepresentNext(cmds, cmd, ds, d.value, followed);
            NextTable(t0, stale, ds, d.value);
            cmds := cmds + [cmd];
            ds := ds + [d.value];
          }
        }
        index := index + 1;
      }
      assert segments[..index] == segments;
      if abort {
        return None;
      }
      if !trimLast {
        return Some(cmds);
      }
      if total == 1 {
        return None;
      }
      RepresentLess(cmds, ds, followed);
      commands := Some(cmds[..total - 1]);
    }

    method ParseSegment(segment: string, ghost t: Table, ghost stale: bool) returns (cmd: Command?)
      requires parser.files == shell.files && t == shell.files.table && stale == Stale()
      modifies parser, shell.files
      ensures var d := DecideSegment(shell.files.oracle, segment, t, stale);
              && (cmd != null <==> d.Some?)
              && (cmd != null ==>
                    && fresh(cmd) && Represents(cmd, d.value, false)
                    && shell.files.table == d.value.parsed.state.table && (Stale() <==> d.value.stale))
              && (cmd == null ==> shell.files.table.open == t.open)
      ensures cmd == null ==>
                (Stale() <==> LeftSet(shell.files.oracle, Words(segment, SPACE), false, false, t.opens, stale))
    {
      hide Decide; hide Words; hide LeftSet;
      NeverSetAgain(shell.files.oracle, Words(segment, SPACE), false, false, State(t, [], [], []));
      cmd := parser.ParseCommand(segment);
    }

    /** One turn of the prompt's loop, for the line that was typed: the jobs are looked at, the
        line is parsed, and its commands are executed in order.  `start` is the table that the
        first of them finds. */
    method Turn(line: string) returns (ghost start: Table)
      requires shell.Valid() && parser.files == shell.files
      modifies parser, shell, shell.sys, shell.files, shell.jobs, shell.jobs.repr
      ensures shell.Valid()
      ensures IsLine(Accepted(shell.files.oracle, old(shell.files.table), old(Stale()), Words(line, BACKGROUND)))
      ensures FoundBy(shell.files.oracle, line, old(shell.files.table), old(Stale()), start)
      ensures (shell.State(), shell.files.table) ==
              Outcome(shell.sys.world, shell.con, shell.files.oracle, line, old(shell.files.table), old(Stale()),
                      old(shell.State()), start)
      ensures Stale() <==> StaleThen(shell.files.oracle, line, old(shell.files.table), old(Stale()))
    {
      hide StaleThen; hide Words; hide Accepted; hide FollowedCount; hide RepresentAll; hide TableAfter; hide IsLine;
      hide Refreshed; hide ExecuteLine; hide IsRefused; hide ExecuteOne;
      ghost var w, con, o := shell.sys.world, shell.con, shell.files.oracle;
      ghost var segments, followed := Words(line, BACKGROUND), FollowedCount(line, BACKGROUND);
      ghost var ds := Accepted(o, shell.files.table, Stale(), segments);
      AcceptedIsLine(o, shell.files.table, Stale(), segments);
      LineHasCalls(ds);
      shell.UpdateJobs();
      var commands := ParseReadLine(line);
      start := shell.files.table;
      if commands.None? {
        return;
      }
      ExecuteAll(commands.value, ds, followed);
    }

    /** The commands of a line, one after the other. */
    method ExecuteAll(commands: seq<Command?>, ghost ds: seq<Decision>, ghost followed: int)
      requires shell.Valid() && |commands| == |ds| && RepresentAll(commands, ds, followed)
      requires forall k | 0 <= k < |ds| :: HasCalls(ds[k])
      modifies shell, shell.sys, shell.files, shell.jobs, shell.jobs.repr
      ensures shell.Valid() && fresh(shell.jobs.repr - old(shell.jobs.repr))
      ensures (shell.State(), shell.files.table) ==
              ExecuteLine(shell.sys.world, shell.con, shell.files.oracle, ds, followed, old(shell.State()),
                          old(shell.files.table))
    {
      hide RepresentAll; hide ExecuteLine; hide ExecuteOne; hide HasCalls;
      ghost var w, con, o, s, start := shell.sys.world, shell.con, shell.files.oracle, shell.State(), shell.files.table;
      var index: nat := 0;
      ExecuteNothing(w, con, o, followed, s, start);
      assert ds[..0] == [];
      while index < |commands|
        invariant index <= |commands| && shell.Valid() && fresh(shell.jobs.repr - old(shell.jobs.repr))
        invariant RepresentAll(commands, ds, followed)
        invariant (shell.State(), shell.files.table) == ExecuteLine(w, con, o, ds[..index], followed, s, start)
      {
        ExecuteStep(w, con, o, ds, followed, s, start, index);
        RepresentsOne(commands, ds, followed, index);
        ExecuteParsed(commands[index], ds[index], index < followed);
        index := index + 1;
      }
      assert ds[..index] == ds;
    }

    method ExecuteParsed(cmd: Command?, ghost d: Decision, ghost background: bool)
      requires shell.Valid() && Represents(cmd, d, background) && HasCalls(d)
      modifies shell, shell.sys, shell.files, shell.jobs, shell.jobs.repr
      ensures shell.Valid() && fresh(shell.jobs.repr - old(shell.jobs.repr))
      ensures (shell.State(), shell.files.table) ==
              ExecuteOne(shell.sys.world, shell.con, shell.files.oracle, d, background, old(shell.State()),
                         old(shell.files.table))
    {
      hide Execute;
      var result := shell.ExecuteCommand(cmd);
    }
  }

  /** What a turn leaves, by the contract of Turn. */
  ghost function Outcome(w: World, con: Console, o: Oracle, line: string, t: Table, stale: bool, s: Session,
                         start: Table): (Session, Table)
    requires IsLine(Accepted(o, t, stale, Words(line, BACKGROUND)))
  {
    var segments := Words(line, BACKGROUND);
    var ds := Accepted(o, t, stale, segments);
    LineHasCalls(ds);
    var now := Entered(w, o, line, t, stale, s);
    if IsRefused(line, segments, ds) then (now, start)
    else ExecuteLine(w, con, o, ds, FollowedCount(line, BACKGROUND), now, start)
  }

  /** The table that the first command of a line finds. */
  predicate FoundBy(o: Oracle, line: string, t: Table, stale: bool, start: Table) {
    start.open ==
      if BACKGROUND <= line then t.open else TableAfter(t, Accepted(o, t, stale, Words(line, BACKGROUND))).open
  }

  /** The session in which the commands of a line are executed. */
  ghost function Entered(w: World, o: Oracle, line: string, t: Table, stale: bool, s: Session): Session {
    var segments := Words(line, BACKGROUND);
    if BACKGROUND <= line || |Accepted(o, t, stale, segments)| == |segments| then Refreshed(w, s)
    else Refreshed(w, s).(code := 1)
  }

  lemma EnteredIsSound(w: World, o: Oracle, line: string, t: Table, stale: bool, s: Session)
    requires Sound(s, [])
    ensures Sound(Entered(w, o, line, t, stale, s), [])
    ensures var now := Entered(w, o, line, t, stale, s);
            && now.exiting == s.exiting && now.slots == Refreshed(w, s).slots && now.kernel == Refreshed(w, s).kernel
            && Lost(now, []) == Lost(s, [])
  {
    hide Sound; hide Waiting.Sweep; hide Accepted; hide Words;
    RefreshKeepsSession(w, s);
    CodeIsApart(Refreshed(w, s), 1);
  }

  /** All processes of the line live to answer the shell, if the line is executed. */
  ghost predicate LineLives(w: World, o: Oracle, line: string, t: Table, stale: bool, s: Session)
    requires IsLine(Accepted(o, t, stale, Words(line, BACKGROUND)))
  {
    var ds := Accepted(o, t, stale, Words(line, BACKGROUND));
    LineHasCalls(ds);
    LineSurvives(w, ds, Entered(w, o, line, t, stale, s), |ds|)
  }

  /** A line that leaves the descriptor table as it was. */
  ghost predicate KeepsTable(w: World, o: Oracle, line: string, t: Table, stale: bool, s: Session)
    requires IsLine(Accepted(o, t, stale, Words(line, BACKGROUND)))
  {
    var segments := Words(line, BACKGROUND);
    var ds := Accepted(o, t, stale, segments);
    if !IsRefused(line, segments, ds) then LineLives(w, o, line, t, stale, s)
    else BACKGROUND <= line || forall i | 0 <= i < |ds| :: IsBare(Words(segments[i], SPACE))
  }

  /** Over a whole turn: the shell stays right about its children; a line that is executed leaves
      the table as it was, and loses no child, exactly if all its processes live to answer the shell;
      and a line that is refused loses none, and leaves the table exactly if no segment accepted
      before has a symbol.  Nothing is ever closed that was open before. */
  lemma TurnKeeps(w: World, con: Console, o: Oracle, line: string, t: Table, stale: bool, s: Session, start: Table)
    requires Sound(s, []) && FoundBy(o, line, t, stale, start)
    ensures IsLine(Accepted(o, t, stale, Words(line, BACKGROUND)))
    ensures var segments := Words(line, BACKGROUND);
            var ds := Accepted(o, t, stale, segments);
            var r := Outcome(w, con, o, line, t, stale, s, start);
            && Sound(r.0, []) && t.open <= r.1.open && Lost(s, []) <= Lost(r.0, [])
            && (r.1.open == t.open <==> KeepsTable(w, o, line, t, stale, s))
            && (Lost(r.0, []) == Lost(s, []) <==>
                  IsRefused(line, segments, ds) || LineLives(w, o, line, t, stale, s))
  {
    hide Words; hide Accepted; hide Refreshed; hide Sound; hide FollowedCount; hide ExecuteLine; hide TableAfter;
    hide Chained; hide IsLine; hide LineSurvives; hide IsBare; hide Entered; hide Lost;
    var segments := Words(line, BACKGROUND);
    var ds := Accepted(o, t, stale, segments);
    AcceptedIsLine(o, t, stale, segments);
    AcceptedIsChained(o, t, stale, segments);
    LineHasCalls(ds);
    EnteredIsSound(w, o, line, t, stale, s);
    RefusedLineLeaks(o, t, stale, segments);
    var now := Entered(w, o, line, t, stale, s);
    assert ds[..|ds|] == ds;
    if IsRefused(line, segments, ds) {
      NothingAfter(t);
      assert ds[..0] == [];
      ChainGrows(t, ds, 0, |ds|);
    } else {
      var leaks := LineConserves(w, con, o, t, start, ds, FollowedCount(line, BACKGROUND), now, |ds|);
    }
  }

  lemma RepresentsOne(cmds: seq<Command?>, ds: seq<Decision>, followed: int, i: nat)
    requires RepresentAll(cmds, ds, followed) && i < |ds|
    ensures i < |cmds| && Represents(cmds[i], ds[i], i < followed)
  {
  }

  lemma ExecuteNothing(w: World, con: Console, o: Oracle, followed: int, s: Session, t: Table)
    ensures ExecuteLine(w, con, o, [], followed, s, t) == (s, t)
  {
  }

  lemma LineHasCalls(ds: seq<Decision>)
    requires IsLine(ds)
    ensures forall k | 0 <= k < |ds| :: HasCalls(ds[k])
  {
  }

  lemma AcceptedNone(o: Oracle, t: Table, stale: bool)
    ensures Accepted(o, t, stale, []) == [] && TableAfter(t, []) == t && StaleAfter(stale, []) == stale
  {
  }

  lemma AcceptedStays(o: Oracle, t: Table, stale: bool, segments: seq<string>, i: nat)
    requires i < |segments| && |Accepted(o, t, stale, segments[..i])| < i
    ensures Accepted(o, t, stale, segments[..i + 1]) == Accepted(o, t, stale, segments[..i])
  {
    assert segments[..i + 1][..i] == segments[..i];
  }

  lemma NextTable(t: Table, stale: bool, ds: seq<Decision>, d: Decision)
    ensures TableAfter(t, ds + [d]) == d.parsed.state.table && StaleAfter(stale, ds + [d]) == d.stale
  {
  }

  lemma RepresentNone(followed: int)
    ensures RepresentAll([], [], followed)
  {
  }

  lemma RepresentMore(cmds: seq<Command?>, cmd: Command?, ds: seq<Decision>, followed: int)
    requires RepresentAll(cmds, ds, followed)
    ensures RepresentAll(cmds + [cmd], ds, followed)
  {
  }

  lemma RepresentNext(cmds: seq<Command?>, cmd: Command?, ds: seq<Decision>, d: Decision, followed: int)
    requires RepresentAll(cmds, ds, followed) && |cmds| == |ds| && Represents(cmd, d, |ds| < followed)
    ensures RepresentAll(cmds + [cmd], ds + [d], followed)
  {
  }

  lemma RepresentLess(cmds: seq<Command?>, ds: seq<Decision>, followed: int)
    requires RepresentAll(cmds, ds, followed) && |ds| < |cmds|
    ensures RepresentAll(cmds[..|cmds| - 1], ds, followed)
  {
  }
}
