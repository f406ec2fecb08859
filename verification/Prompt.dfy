/** Whole sessions: the lines that are typed at the prompt, one after the other, until the shell has
    decided to leave (src/prompt.c). */
module Prompt {
  import opened Splitting
  import opened Descriptors
  import opened Verdict
  import opened Commands
  import opened Kernels
  import opened Statuses
  import opened Closing
  import opened CommandTree
  import opened JobTables
  import opened Continuing
  import opened Launches
  import opened Tracking
  import opened Sessions
  import opened Soundness
  import opened Runs
  import opened Lines
  import opened ReadLine
  import opened Leaving
  import opened Groups

  /** What the shell is in between two lines; `stale` tells whether the substitution global is set. */
  datatype Standing = Standing(session: Session, table: Table, stale: bool)

  /** One turn, as the contract of ReadLine.Reader.Turn has it. */
  ghost predicate TakesTurn(w: World, con: Console, o: Oracle, line: string, a: Standing, b: Standing) {
    AcceptedIsLine(o, a.table, a.stale, Words(line, BACKGROUND));
    && (exists start :: Follows(w, con, o, line, a, b, start))
    && (b.stale <==> StaleThen(o, line, a.table, a.stale))
  }

  ghost predicate Follows(w: World, con: Console, o: Oracle, line: string, a: Standing, b: Standing, start: Table)
    requires IsLine(Accepted(o, a.table, a.stale, Words(line, BACKGROUND)))
  {
    && FoundBy(o, line, a.table, a.stale, start)
    && (b.session, b.table) == Outcome(w, con, o, line, a.table, a.stale, a.session, start)
  }

  /** The loop reads a line only while the shell has not decided to leave. */
  ghost predicate IsSession(w: World, con: Console, o: Oracle, lines: seq<string>, states: seq<Standing>) {
    && |states| == |lines| + 1
    && states[0].session == AtStart() && !states[0].stale
    && forall i | 0 <= i < |lines| ::
         !states[i].session.exiting && TakesTurn(w, con, o, lines[i], states[i], states[i + 1])
  }

  /** After any lines at all, the shell is right about every child: no waitpid has been refused, no
      child has been reaped twice, a watched subjob is Running or Stopped exactly while its child is
      unreaped, and the last exit code is one byte. */
  lemma {:induction false} EverySessionIsSound(w: World, con: Console, o: Oracle, lines: seq<string>,
                                               states: seq<Standing>, i: nat, n: nat)
    requires IsSession(w, con, o, lines, states)
    ensures var s := states[|lines|].session;
            && Sound(s, []) && s.kernel.refused == 0 && 0 <= s.code <= 255 && TableOk(s.slots)
            && (forall a, b | 0 <= a < b < |s.kernel.reaped| :: s.kernel.reaped[a] != s.kernel.reaped[b])
            && (i < |s.slots| && s.slots[i].Some? && n < |s.slots[i].value.subs| && s.slots[i].value.subs[n].Some? ==>
                  var sub := s.slots[i].value.subs[n].value;
                  (sub.lastStatus.Running? || sub.lastStatus.Stopped? <==> Owns(s.kernel, sub)))
  {
    hide Sound; hide Outcome; hide FoundBy; hide TableOk; hide Owns; hide Accepted; hide Words; hide StaleThen;
    if lines == [] {
      StartIsSound();
    } else {
      var k := |lines| - 1;
      EverySessionIsSound(w, con, o, lines[..k], states[..k + 1], i, n);
      var a, b := states[k], states[k + 1];
      assert TakesTurn(w, con, o, lines[k], a, b);
      AcceptedIsLine(o, a.table, a.stale, Words(lines[k], BACKGROUND));
      var start :| Follows(w, con, o, lines[k], a, b, start);
      TurnIsSound(w, con, o, lines[k], a.table, a.stale, a.session, start);
    }
    WhatSoundMeans(states[|lines|].session, i, n);
  }

  lemma TurnIsSound(w: World, con: Console, o: Oracle, line: string, t: Table, stale: bool, s: Session, start: Table)
    requires Sound(s, []) && FoundBy(o, line, t, stale, start)
    ensures IsLine(Accepted(o, t, stale, Words(line, BACKGROUND)))
    ensures Sound(Outcome(w, con, o, line, t, stale, s, start).0, [])
  {
    hide Sound; hide FoundBy; hide Accepted; hide Words; hide Outcome; hide LineSurvives; hide IsLine;
    TurnKeeps(w, con, o, line, t, stale, s, start);
  }

  lemma {:induction false} LineKeepsGroups(w: World, con: Console, o: Oracle, ds: seq<Decision>, followed: int,
                                           s: Session, t: Table)
    requires Sound(s, []) && Grouped(s) && forall i | 0 <= i < |ds| :: HasCalls(ds[i])
    ensures Grouped(ExecuteLine(w, con, o, ds, followed, s, t).0)
  {
    hide Sound; hide Grouped; hide Execute; hide Assembled; hide FinalOrder;
    if ds != [] {
      var n := |ds| - 1;
      LineKeepsGroups(w, con, o, ds[..n], followed, s, t);
      LineKeepsSound(w, con, o, ds[..n], followed, s, t);
      var r := ExecuteLine(w, con, o, ds[..n], followed, s, t);
      var st := ds[n].parsed.state;
      assert HasCalls(ds[n]);
      CommandKeepsGroups(w, con, o, st.pipes, Assembled(ds[n].parsed), n < followed, r.0, r.1, EndsInOrder(st.pipes));
    }
  }

  lemma TurnKeepsGroups(w: World, con: Console, o: Oracle, line: string, t: Table, stale: bool, s: Session,
                        start: Table)
    requires Sound(s, []) && Grouped(s)
    ensures IsLine(Accepted(o, t, stale, Words(line, BACKGROUND)))
    ensures Grouped(Outcome(w, con, o, line, t, stale, s, start).0)
  {
    hide Sound; hide JobGrouped; hide Accepted; hide Words; hide ExecuteLine; hide Refreshed; hide Aging; hide Later;
    hide Occupied; hide Lost; hide FollowedCount;
    var ds := Accepted(o, t, stale, Words(line, BACKGROUND));
    AcceptedIsLine(o, t, stale, Words(line, BACKGROUND));
    RefreshAges(w, s, []);
    RefreshKeeps(w, s, []);
    AgingKeepsGroups(s, Refreshed(w, s), []);
    EnteredIsSound(w, o, line, t, stale, s);
    LineKeepsGroups(w, con, o, ds, FollowedCount(line, BACKGROUND), Entered(w, o, line, t, stale, s), start);
  }

  /** After any lines at all, a job of the table that has a subjob which has not ended can be continued: fg
      and bg return 0 for it. */
  lemma {:induction false} EveryLivingJobContinues(w: World, con: Console, o: Oracle, lines: seq<string>,
                                                   states: seq<Standing>, word: Word, i: nat)
    requires IsSession(w, con, o, lines, states)
    ensures var s := states[|lines|].session;
            Names(con, s.slots, word, i) && Alive(s.slots[i].value.subs) ==>
              forall c: Call | c.argv == [Text("fg"), word] || c.argv == [Text("bg"), word] ::
                IsInternal(c) && Builtin(w, con, s, c).1 == 0
  {
    hide Sound; hide Grouped; hide Builtin;
    EverySessionIsGrouped(w, con, o, lines, states);
    EverySessionIsSound(w, con, o, lines, states, 0, 0);
    var s := states[|lines|].session;
    if Names(con, s.slots, word, i) && Alive(s.slots[i].value.subs) {
      LivingJobsContinue(w, con, s, word, i);
    }
  }

  lemma {:induction false} EverySessionIsGrouped(w: World, con: Console, o: Oracle, lines: seq<string>,
                                                 states: seq<Standing>)
    requires IsSession(w, con, o, lines, states)
    ensures Grouped(states[|lines|].session)
  {
    hide Sound; hide JobGrouped; hide Outcome; hide FoundBy; hide Accepted; hide Words; hide StaleThen; hide TableOk;
    hide Owns;
    if lines != [] {
      var k := |lines| - 1;
      EverySessionIsGrouped(w, con, o, lines[..k], states[..k + 1]);
      EverySessionIsSound(w, con, o, lines[..k], states[..k + 1], 0, 0);
      var a, b := states[k], states[k + 1];
      assert TakesTurn(w, con, o, lines[k], a, b);
      AcceptedIsLine(o, a.table, a.stale, Words(lines[k], BACKGROUND));
      var start :| Follows(w, con, o, lines[k], a, b, start);
      TurnKeepsGroups(w, con, o, lines[k], a.table, a.stale, a.session, start);
    }
  }

  /** The turn in which a line has been typed leaves the descriptor table as it was; it loses no child. */
  ghost predicate KeptTable(w: World, o: Oracle, line: string, a: Standing) {
    AcceptedIsLine(o, a.table, a.stale, Words(line, BACKGROUND));
    KeepsTable(w, o, line, a.table, a.stale, a.session)
  }

  ghost predicate LostNone(w: World, o: Oracle, line: string, a: Standing) {
    AcceptedIsLine(o, a.table, a.stale, Words(line, BACKGROUND));
    || IsRefused(line, Words(line, BACKGROUND), Accepted(o, a.table, a.stale, Words(line, BACKGROUND)))
    || LineLives(w, o, line, a.table, a.stale, a.session)
  }

  lemma TurnLoses(w: World, con: Console, o: Oracle, line: string, a: Standing, b: Standing)
    requires Sound(a.session, []) && TakesTurn(w, con, o, line, a, b)
    ensures a.table.open <= b.table.open && Lost(a.session, []) <= Lost(b.session, [])
    ensures b.table.open == a.table.open <==> KeptTable(w, o, line, a)
    ensures Lost(b.session, []) == Lost(a.session, []) <==> LostNone(w, o, line, a)
    ensures KeptTable(w, o, line, a) ==> LostNone(w, o, line, a)
  {
    hide Sound; hide FoundBy; hide Accepted; hide Words; hide Outcome; hide LineSurvives; hide IsLine; hide Lost;
    hide StaleThen; hide LineLives; hide Entered;
    AcceptedIsLine(o, a.table, a.stale, Words(line, BACKGROUND));
    var start :| Follows(w, con, o, line, a, b, start);
    TurnKeeps(w, con, o, line, a.table, a.stale, a.session, start);
  }

  /** Over a whole session descriptors are only ever added to the table and children only ever lost.
      After any lines the table is what it was if and only if every turn has left it as it was; the
      shell still waits for all its children if and only if all processes of all executed lines have
      lived to answer it; and a shell that has its table has lost no child. */
  lemma {:induction false} WhatASessionLoses(w: World, con: Console, o: Oracle, lines: seq<string>,
                                             states: seq<Standing>)
    requires IsSession(w, con, o, lines, states)
    ensures var a, b := states[0], states[|lines|];
            && a.table.open <= b.table.open
            && (b.table.open == a.table.open <==> forall i | 0 <= i < |lines| :: KeptTable(w, o, lines[i], states[i]))
            && (Lost(b.session, []) == {} <==> forall i | 0 <= i < |lines| :: LostNone(w, o, lines[i], states[i]))
            && (b.table.open == a.table.open ==> Lost(b.session, []) == {})
  {
    hide Sound; hide TakesTurn; hide KeptTable; hide LostNone; hide Lost;
    if lines == [] {
      StartIsSound();
    } else {
      var k := |lines| - 1;
      WhatASessionLoses(w, con, o, lines[..k], states[..k + 1]);
      EverySessionIsSound(w, con, o, lines[..k], states[..k + 1], 0, 0);
      TurnLoses(w, con, o, lines[k], states[k], states[k + 1]);
      assert forall i | 0 <= i < k :: lines[..k][i] == lines[i] && states[..k + 1][i] == states[i];
    }
  }

  /** All segments of the line have been accepted, or none has been looked at. */
  ghost predicate WasAccepted(o: Oracle, line: string, a: Standing) {
    BACKGROUND <= line || |Accepted(o, a.table, a.stale, Words(line, BACKGROUND))| == |Words(line, BACKGROUND)|
  }

  /** Only a refused segment leaves the substitution global set. */
  lemma {:induction false} OnlyRefusalsSpoil(w: World, con: Console, o: Oracle, lines: seq<string>,
                                             states: seq<Standing>)
    requires IsSession(w, con, o, lines, states)
    requires forall i | 0 <= i < |lines| :: WasAccepted(o, lines[i], states[i])
    ensures !states[|lines|].stale
  {
    hide Follows; hide Words; hide FoundBy;
    if lines != [] {
      var k := |lines| - 1;
      OnlyRefusalsSpoil(w, con, o, lines[..k], states[..k + 1]);
      assert TakesTurn(w, con, o, lines[k], states[k], states[k + 1]);
      AcceptedStaysUnset(o, states[k].table, Words(lines[k], BACKGROUND));
    }
  }

  lemma {:induction false} AcceptedStaysUnset(o: Oracle, t: Table, segments: seq<string>)
    ensures !StaleAfter(false, Accepted(o, t, false, segments))
  {
    hide Decide; hide Words;
    if segments != [] {
      var n := |segments| - 1;
      AcceptedStaysUnset(o, t, segments[..n]);
      NeverSetAgain(o, Words(segments[n], SPACE), false, false,
                    State(TableAfter(t, Accepted(o, t, false, segments[..n])), [], [], []));
    }
  }

  /** A session that has come to its end: the shell leaves with an empty table exactly if, from the
      first command of the last line that has decided to leave on, no command has left a job that no
      later call of exit, jobs or fg has taken out. */
  lemma WhenASessionEnds(w: World, con: Console, o: Oracle, lines: seq<string>, states: seq<Standing>)
    returns (start: Table, e: nat)
    requires IsSession(w, con, o, lines, states) && states[|lines|].session.exiting
    ensures lines != []
    ensures var k := |lines| - 1;
            var a, left := states[k], states[k + 1].session;
            var x := Typed(w, con, o, lines[k], a.table, a.stale, a.session, start);
            var n := |x.ds|;
            && x.Valid() && e < n && !x.Before(e).0.exiting && x.Before(e + 1).0.exiting
            && (Occupied(left.slots) == 0 <==>
                  exists m | e <= m < n :: Occupied(x.Midway(m).slots) == 0 && x.LeavesNone(m, n))
            && ((forall i | e < i < n :: x.LooksAway(i)) ==> (Occupied(left.slots) == 0 <==> x.LeavesNone(e, n)))
  {
    hide Sound; hide Outcome; hide FoundBy; hide Occupied; hide Accepted; hide Words; hide StaleThen; hide ExecuteLine;
    hide Runs.Started; hide LeavesJob; hide Looks; hide TableOk; hide Owns; hide Refreshed;
    assert lines != [];
    var k := |lines| - 1;
    var a, b := states[k], states[k + 1];
    assert states[..k + 1][k] == a && forall i | 0 <= i < k :: lines[..k][i] == lines[i];
    EverySessionIsSound(w, con, o, lines[..k], states[..k + 1], 0, 0);
    assert TakesTurn(w, con, o, lines[k], a, b);
    AcceptedIsLine(o, a.table, a.stale, Words(lines[k], BACKGROUND));
    start :| Follows(w, con, o, lines[k], a, b, start);
    e := TableWhenLeaving(w, con, o, lines[k], a.table, a.stale, a.session, start);
  }
}
