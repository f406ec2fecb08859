/** Starting one external call (src/internals.c).  After the fork the parent and the child agree on
    the process group over two pipes, and their steps interleave in any order.  The child may be
    killed at any moment, and groups other than those of unreaped children may come and go. */
module Handshake {
  import opened Options
  import opened Descriptors

  /** What each process does next. */
  datatype ParentPc = NameGroup | CloseRead | CloseWrite | Send | CloseSent | Receive | CloseReceived
                    | Returned | GaveUp | Broken
  datatype ChildPc = DropWrite | DropRead | Listen | CloseHeard | JoinGroup | Confirm | CloseConfirmed
                   | DropPipes | Executing | Dead

  /** What is fixed during one launch.  `asked` is job->pgid before it, 0 when no process of the
      job has been started; `down` and `up` are the two pipes; `base` is what the parent has open
      besides, `foreign` the pipe ends the child is to close; `anchored` are the groups of the
      shell's unreaped children. */
  datatype Launch = Launch(pid: int, asked: int, shellGroup: int, down: Pipe, up: Pipe, base: set<int>,
                           foreign: set<int>, anchored: set<int>, sigpipeIgnored: bool)

  datatype State = State(parent: ParentPc, child: ChildPc, pgid: int, downData: Option<int>, upData: Option<int>,
                         heard: int, group: int, parentOpen: set<int>, childOpen: set<int>, groups: set<int>)

  predicate Distinct4(x: Launch) {
    && x.down.readEnd != x.down.writeEnd && x.up.readEnd != x.up.writeEnd
    && PipeEnds(x.down) !! PipeEnds(x.up)
    && x.base !! PipeEnds(x.down) + PipeEnds(x.up) && x.foreign !! PipeEnds(x.down) + PipeEnds(x.up)
  }

  /** The job's group is anchored by its first process, which nobody has waited for yet. */
  predicate Possible(x: Launch) {
    Distinct4(x) && x.pid > 0 && (x.asked == 0 || x.asked in x.anchored)
  }

  /** The group every process of the job is to be in. */
  function Agreed(x: Launch): int {
    if x.asked == 0 then x.pid else x.asked
  }

  function Start(x: Launch): State {
    var open := x.base + PipeEnds(x.down) + PipeEnds(x.up);
    State(NameGroup, DropWrite, x.asked, None, None, 0, x.shellGroup, open, open, x.anchored)
  }

  predicate IsOpen(s: State, fd: int) {
    fd in s.parentOpen || fd in s.childOpen
  }

  function ChildDied(s: State): State {
    s.(child := Dead, childOpen := {})
  }

  /** The parent's next step; None when it is blocked or has finished. */
  function ParentMove(x: Launch, s: State): Option<State> {
    match s.parent
    case NameGroup => Some(s.(parent := CloseRead, pgid := if s.pgid == 0 then x.pid else s.pgid))
    case CloseRead => Some(s.(parent := CloseWrite, parentOpen := s.parentOpen - {x.down.readEnd}))
    case CloseWrite => Some(s.(parent := Send, parentOpen := s.parentOpen - {x.up.writeEnd}))
    case Send =>
      if IsOpen(s, x.down.readEnd) then Some(s.(parent := CloseSent, downData := Some(s.pgid)))
      else if x.sigpipeIgnored then Some(ChildDied(s).(parent := GaveUp))
      else Some(s.(parent := Broken, parentOpen := {}))
    case CloseSent => Some(s.(parent := Receive, parentOpen := s.parentOpen - {x.down.writeEnd}))
    case Receive =>
      if s.upData.Some? then Some(s.(parent := CloseReceived, upData := None))
      else if !IsOpen(s, x.up.writeEnd) then Some(ChildDied(s).(parent := GaveUp))
      else None
    case CloseReceived => Some(s.(parent := Returned, parentOpen := s.parentOpen - {x.up.readEnd}))
    case Returned => None
    case GaveUp => None
    case Broken => None
  }

  /** The child's next step; None when it is blocked, executing its program or dead. */
  function ChildMove(x: Launch, s: State): Option<State> {
    match s.child
    case DropWrite => Some(s.(child := DropRead, childOpen := s.childOpen - {x.down.writeEnd}))
    case DropRead => Some(s.(child := Listen, childOpen := s.childOpen - {x.up.readEnd}))
    case Listen =>
      if s.downData.Some? then Some(s.(child := CloseHeard, heard := s.downData.value, downData := None))
      else if !IsOpen(s, x.down.writeEnd) then Some(ChildDied(s))
      else None
    case CloseHeard => Some(s.(child := JoinGroup, childOpen := s.childOpen - {x.down.readEnd}))
    case JoinGroup =>
      if s.heard == x.pid || s.heard in s.groups
      then Some(s.(child := Confirm, group := s.heard, groups := s.groups + {s.heard}))
      else Some(ChildDied(s))
    case Confirm =>
      if IsOpen(s, x.up.readEnd) then Some(s.(child := CloseConfirmed, upData := Some(s.heard)))
      else Some(ChildDied(s))
    case CloseConfirmed => Some(s.(child := DropPipes, childOpen := s.childOpen - {x.up.writeEnd}))
    case DropPipes => Some(s.(child := Executing, childOpen := s.childOpen - x.foreign))
    case Executing => None
    case Dead => None
  }

  datatype Actor = Parent | Child | Killer | Others

  predicate Step(x: Launch, a: Actor, s: State, t: State) {
    match a
    case Parent => ParentMove(x, s) == Some(t)
    case Child => ChildMove(x, s) == Some(t)
    case Killer => s.child != Dead && t == ChildDied(s)
    case Others =>
      && t == s.(groups := t.groups) && x.anchored <= t.groups
      && (s.group == Agreed(x) ==> s.group in t.groups)
  }

  ghost predicate IsRun(x: Launch, run: seq<State>, actors: seq<Actor>) {
    && |run| == |actors| + 1 && run[0] == Start(x)
    && forall i | 0 <= i < |actors| :: Step(x, actors[i], run[i], run[i + 1])
  }

  /* The invariant. */

  function ParentRank(pc: ParentPc): nat {
    match pc
    case NameGroup => 0 case CloseRead => 1 case CloseWrite => 2 case Send => 3 case CloseSent => 4
    case Receive => 5 case CloseReceived => 6 case Returned => 7 case GaveUp => 7 case Broken => 7
  }

  function ChildRank(pc: ChildPc): nat {
    match pc
    case DropWrite => 0 case DropRead => 1 case Listen => 2 case CloseHeard => 3 case JoinGroup => 4
    case Confirm => 5 case CloseConfirmed => 6 case DropPipes => 7 case Executing => 8 case Dead => 9
  }

  /** The ends of the two pipes that the parent has open at each point. */
  function ParentEnds(x: Launch, pc: ParentPc): set<int> {
    match pc
    case NameGroup => PipeEnds(x.down) + PipeEnds(x.up)
    case CloseRead => PipeEnds(x.down) + PipeEnds(x.up)
    case CloseWrite => {x.down.writeEnd} + PipeEnds(x.up)
    case Send => {x.down.writeEnd, x.up.readEnd}
    case CloseSent => {x.down.writeEnd, x.up.readEnd}
    case Receive => {x.up.readEnd}
    case CloseReceived => {x.up.readEnd}
    case _ => {}
  }

  function ChildEnds(x: Launch, pc: ChildPc): set<int> {
    match pc
    case DropWrite => PipeEnds(x.down) + PipeEnds(x.up)
    case DropRead => {x.down.readEnd} + PipeEnds(x.up)
    case Listen => {x.down.readEnd, x.up.writeEnd}
    case CloseHeard => {x.down.readEnd, x.up.writeEnd}
    case JoinGroup => {x.up.writeEnd}
    case Confirm => {x.up.writeEnd}
    case CloseConfirmed => {x.up.writeEnd}
    case _ => {}
  }

  predicate ParentTable(x: Launch, s: State) {
    match s.parent
    case GaveUp =>
      || s.parentOpen == x.base + {x.up.readEnd}
      || (x.sigpipeIgnored && s.parentOpen == x.base + {x.down.writeEnd, x.up.readEnd})
    case Broken => s.parentOpen == {}
    case pc => s.parentOpen == x.base + ParentEnds(x, pc)
  }

  predicate ChildTable(x: Launch, s: State) {
    match s.child
    case Executing => s.childOpen == x.base - x.foreign
    case Dead => s.childOpen == {}
    case pc => s.childOpen == x.base + ChildEnds(x, pc)
  }

  predicate Grouped(x: Launch, s: State) {
    s.group == Agreed(x)
  }

  predicate Agreement(x: Launch, s: State) {
    && x.anchored <= s.groups
    && s.pgid == (if s.parent == NameGroup then x.asked else Agreed(x))
    && (s.downData.Some? ==> s.downData.value == Agreed(x) && ParentRank(s.parent) >= 4)
    && (s.upData.Some? ==> Grouped(x, s) && ChildRank(s.child) > 5)
    && (s.child != Dead && ChildRank(s.child) > 2 ==> s.heard == Agreed(x) && ParentRank(s.parent) >= 4)
    && (s.child != Dead && ChildRank(s.child) > 4 ==> Grouped(x, s))
    && (ParentRank(s.parent) >= 6 && s.parent != GaveUp && s.parent != Broken ==> Grouped(x, s))
  }

  /** What is on its way is there to be read. */
  predicate Delivery(s: State) {
    && (4 <= ParentRank(s.parent) && ChildRank(s.child) <= 2 ==> s.downData.Some?)
    && (s.child != Dead && ChildRank(s.child) > 5 && ParentRank(s.parent) <= 5 ==> s.upData.Some?)
    && (s.child != Dead ==> s.parent != GaveUp && s.parent != Broken)
    && (s.child != Dead && ChildRank(s.child) <= 5 ==> ParentRank(s.parent) <= 5)
  }

  predicate Sound(x: Launch, s: State) {
    ParentTable(x, s) && ChildTable(x, s) && Agreement(x, s) && Delivery(s)
  }

  lemma StartIsSound(x: Launch)
    requires Possible(x)
    ensures Sound(x, Start(x))
  {
  }

  lemma ParentKeepsTables(x: Launch, s: State)
    requires Possible(x) && Sound(x, s) && ParentMove(x, s).Some?
    ensures ParentTable(x, ParentMove(x, s).value) && ChildTable(x, ParentMove(x, s).value)
  {
    hide Agreement; hide Delivery; hide IsOpen;
  }

  lemma ParentKeepsAgreement(x: Launch, s: State)
    requires Possible(x) && Sound(x, s) && ParentMove(x, s).Some?
    ensures Agreement(x, ParentMove(x, s).value) && Delivery(ParentMove(x, s).value)
  {
    hide ParentTable; hide ChildTable; hide PipeEnds; hide ParentEnds; hide ChildEnds; hide IsOpen; hide Distinct4;
    if s.parent == Send || s.parent == Receive {
      EndsInUse(x, s);
    }
  }

  /** Until the child has heard, somebody reads; until it has answered, somebody writes. */
  lemma EndsInUse(x: Launch, s: State)
    requires Possible(x) && ParentTable(x, s) && ChildTable(x, s)
    ensures s.child != Dead && ChildRank(s.child) <= 3 ==> IsOpen(s, x.down.readEnd)
    ensures s.child != Dead && ChildRank(s.child) <= 6 ==> IsOpen(s, x.up.writeEnd)
    ensures ParentRank(s.parent) <= 4 ==> IsOpen(s, x.down.writeEnd)
    ensures ParentRank(s.parent) <= 6 ==> IsOpen(s, x.up.readEnd)
  {
  }

  lemma ChildKeepsTables(x: Launch, s: State)
    requires Possible(x) && Sound(x, s) && ChildMove(x, s).Some?
    ensures ParentTable(x, ChildMove(x, s).value) && ChildTable(x, ChildMove(x, s).value)
  {
    hide Agreement; hide Delivery; hide IsOpen;
  }

  lemma ChildKeepsAgreement(x: Launch, s: State)
    requires Possible(x) && Sound(x, s) && ChildMove(x, s).Some?
    ensures Agreement(x, ChildMove(x, s).value) && Delivery(ChildMove(x, s).value)
  {
    hide ParentTable; hide ChildTable; hide PipeEnds; hide ParentEnds; hide ChildEnds; hide IsOpen; hide Distinct4;
    EndsInUse(x, s);
  }

  /** The child is killed, or other groups come and go. */
  lemma OutsideKeepsSound(x: Launch, a: Actor, s: State, t: State)
    requires Sound(x, s) && Step(x, a, s, t) && (a == Killer || a == Others)
    ensures Sound(x, t)
  {
    hide ParentMove; hide ChildMove;
  }

  /** The invariant holds in every state that any interleaving can reach. */
  lemma {:induction false} RunsAreSound(x: Launch, run: seq<State>, actors: seq<Actor>)
    requires Possible(x) && IsRun(x, run, actors)
    ensures Sound(x, run[|actors|])
  {
    hide ParentMove; hide ChildMove; hide ParentTable; hide ChildTable; hide Agreement; hide Delivery; hide Possible;
    if actors == [] {
      StartIsSound(x);
    } else {
      var n := |actors| - 1;
      RunsAreSound(x, run[..n + 1], actors[..n]);
      var s, t := run[n], run[n + 1];
      assert Step(x, actors[n], s, t);
      match actors[n]
      case Parent =>
        ParentKeepsTables(x, s);
        ParentKeepsAgreement(x, s);
      case Child =>
        ChildKeepsTables(x, s);
        ChildKeepsAgreement(x, s);
      case Killer => OutsideKeepsSound(x, Killer, s, t);
      case Others => OutsideKeepsSound(x, Others, s, t);
    }
  }

  /* What the agreement achieves, over all runs. */

  /** No child executes its program outside its job's group, and none is asked to join a group
      that is gone. */
  lemma NoExecutionOutsideTheGroup(x: Launch, run: seq<State>, actors: seq<Actor>)
    requires Possible(x) && IsRun(x, run, actors)
    ensures var s := run[|actors|];
            && (s.child == Executing ==> Grouped(x, s))
            && (s.child == JoinGroup ==> s.heard == x.pid || s.heard in s.groups)
  {
    RunsAreSound(x, run, actors);
  }

  /** The parent returns only after the child has joined the group. */
  lemma ReturnsOnlyAfterJoining(x: Launch, run: seq<State>, actors: seq<Actor>)
    requires Possible(x) && IsRun(x, run, actors)
    requires run[|actors|].parent == Returned
    ensures Grouped(x, run[|actors|]) && run[|actors|].pgid == Agreed(x)
  {
    RunsAreSound(x, run, actors);
  }

  predicate Finished(s: State) {
    ParentRank(s.parent) == 7 && ChildRank(s.child) >= 8
  }

  /** Parent and child never wait for each other. */
  lemma NeverStuck(x: Launch, run: seq<State>, actors: seq<Actor>)
    requires Possible(x) && IsRun(x, run, actors)
    ensures var s := run[|actors|]; Finished(s) || ParentMove(x, s).Some? || ChildMove(x, s).Some?
  {
    RunsAreSound(x, run, actors);
  }

  function Work(actors: seq<Actor>): nat {
    if actors == [] then 0
    else Work(actors[..|actors| - 1]) + if actors[|actors| - 1] == Others then 0 else 1
  }

  /** No run makes more than sixteen steps, so every run that goes on as long as it can finishes:
      the parent's reads return even if the child dies. */
  lemma {:induction false} RunsAreShort(x: Launch, run: seq<State>, actors: seq<Actor>)
    requires IsRun(x, run, actors)
    ensures Work(actors) <= ParentRank(run[|actors|].parent) + ChildRank(run[|actors|].child)
  {
    if actors != [] {
      var n := |actors| - 1;
      RunsAreShort(x, run[..n + 1], actors[..n]);
      StepIsProgress(x, actors[n], run[n], run[n + 1]);
    }
  }

  lemma StepIsProgress(x: Launch, a: Actor, s: State, t: State)
    requires Step(x, a, s, t)
    ensures ParentRank(t.parent) + ChildRank(t.child)
         >= ParentRank(s.parent) + ChildRank(s.child) + if a == Others then 0 else 1
  {
  }

  /** How a launch ends.  If nothing kills the child, the parent returns with its table as it was
      and the child executes with all of that but the foreign pipe ends.  A parent that gives up
      keeps an end of a pipe open. */
  lemma EndOfLaunch(x: Launch, run: seq<State>, actors: seq<Actor>)
    requires Possible(x) && IsRun(x, run, actors) && Finished(run[|actors|])
    ensures var s := run[|actors|];
            && (Killer !in actors ==> s.child == Executing)
            && (s.child == Executing ==> s.parent == Returned && s.childOpen == x.base - x.foreign)
            && (s.parent == Returned ==> s.parentOpen == x.base)
            && (s.parent == GaveUp ==> x.base < s.parentOpen <= x.base + {x.down.writeEnd, x.up.readEnd})
            && (s.parent == Broken ==> !x.sigpipeIgnored)
  {
    RunsAreSound(x, run, actors);
    OnlyKilledChildrenDie(x, run, actors);
    assert run[|actors|].parent == GaveUp ==> x.up.readEnd in run[|actors|].parentOpen;
  }

  lemma {:induction false} OnlyKilledChildrenDie(x: Launch, run: seq<State>, actors: seq<Actor>)
    requires Possible(x) && IsRun(x, run, actors)
    ensures Killer !in actors ==> run[|actors|].child != Dead
    ensures run[|actors|].parent == Broken ==> !x.sigpipeIgnored
  {
    if actors != [] {
      var n := |actors| - 1;
      OnlyKilledChildrenDie(x, run[..n + 1], actors[..n]);
      RunsAreSound(x, run[..n + 1], actors[..n]);
      assert actors[n] in actors;
      assert Step(x, actors[n], run[n], run[n + 1]);
    }
  }

  /* What killing the child does, by the moment it happens. */

  /** The child is killed before it has answered. */
  ghost predicate KilledEarly(run: seq<State>, actors: seq<Actor>) {
    exists k :: 0 <= k < |actors| < |run| && actors[k] == Killer && ChildRank(run[k].child) <= 5
  }

  /** It is killed before the parent sends the group. */
  ghost predicate KilledBeforeSend(run: seq<State>, actors: seq<Actor>) {
    exists i :: SendsTooLate(run, actors, i)
  }

  predicate SendsTooLate(run: seq<State>, actors: seq<Actor>, i: int) {
    0 <= i < |actors| < |run| && actors[i] == Parent && run[i].parent == Send && Killer in actors[..i]
  }

  /** Before the parent has sent the group, only a killed child is dead. */
  lemma {:induction false} DeadBeforeSend(x: Launch, run: seq<State>, actors: seq<Actor>)
    requires Possible(x) && IsRun(x, run, actors)
    ensures ParentRank(run[|actors|].parent) <= 3 ==> (run[|actors|].child == Dead <==> Killer in actors)
  {
    if actors != [] {
      var n := |actors| - 1;
      DeadBeforeSend(x, run[..n + 1], actors[..n]);
      RunsAreSound(x, run[..n + 1], actors[..n]);
      assert actors == actors[..n] + [actors[n]];
      assert Step(x, actors[n], run[n], run[n + 1]);
      if ParentRank(run[n + 1].parent) <= 3 {
        DeadStep(x, actors[n], run[n], run[n + 1]);
      }
    }
  }

  lemma DeadStep(x: Launch, a: Actor, s: State, t: State)
    requires Possible(x) && Sound(x, s) && Step(x, a, s, t) && ParentRank(t.parent) <= 3
    ensures t.child == Dead <==> s.child == Dead || a == Killer
    ensures ParentRank(s.parent) <= 3
  {
    hide Agreed; hide PipeEnds; hide ParentEnds; hide ChildEnds; hide ParentTable; hide ChildTable; hide Distinct4;
    hide IsOpen;
    EndsInUse(x, s);
  }

  /** What the child has managed to do decides what the parent can still read. */
  predicate Outlook(early: bool, s: State) {
    if early then s.child == Dead && s.upData == None && s.parent != CloseReceived && s.parent != Returned
    else
      && s.parent != GaveUp && s.parent != Broken
      && (s.child == Dead ==> ParentRank(s.parent) >= 4 && (s.upData.Some? || ParentRank(s.parent) >= 6))
  }

  lemma OutlookStep(x: Launch, early: bool, a: Actor, s: State, t: State)
    requires Possible(x) && Sound(x, s) && Step(x, a, s, t) && Outlook(early, s)
    ensures Outlook(early || (a == Killer && ChildRank(s.child) <= 5), t)
  {
    hide PipeEnds; hide ParentEnds; hide ChildEnds; hide ParentTable; hide ChildTable; hide Distinct4; hide IsOpen;
    EndsInUse(x, s);
  }

  lemma {:induction false} KillingDecides(x: Launch, run: seq<State>, actors: seq<Actor>)
    requires Possible(x) && IsRun(x, run, actors)
    ensures Outlook(KilledEarly(run, actors), run[|actors|])
  {
    hide Sound; hide Possible; hide Step; hide Outlook;
    if actors == [] {
      StartOutlook(x);
    } else {
      var n := |actors| - 1;
      KillingDecides(x, run[..n + 1], actors[..n]);
      RunsAreSound(x, run[..n + 1], actors[..n]);
      var early := KilledEarly(run[..n + 1], actors[..n]);
      assert Step(x, actors[n], run[n], run[n + 1]);
      OutlookStep(x, early, actors[n], run[n], run[n + 1]);
      EarlyStep(run, actors);
    }
  }

  lemma StartOutlook(x: Launch)
    ensures Outlook(false, Start(x))
  {
  }

  lemma EarlyStep(run: seq<State>, actors: seq<Actor>)
    requires |run| == |actors| + 1 && actors != []
    ensures var n := |actors| - 1;
            KilledEarly(run, actors) <==>
              KilledEarly(run[..n + 1], actors[..n]) || (actors[n] == Killer && ChildRank(run[n].child) <= 5)
  {
    hide ChildRank;
    var n := |actors| - 1;
    if k :| 0 <= k < n && actors[k] == Killer && ChildRank(run[k].child) <= 5 {
      assert actors[..n][k] == Killer && run[..n + 1][k] == run[k];
    }
    if KilledEarly(run[..n + 1], actors[..n]) {
      var k :| 0 <= k < n && actors[..n][k] == Killer && ChildRank(run[..n + 1][k].child) <= 5;
      assert actors[k] == Killer && ChildRank(run[k].child) <= 5;
    }
  }

  /** SIGPIPE has ended the parent exactly if it has sent the group after the kill. */
  lemma {:induction false} BrokenByLateSend(x: Launch, run: seq<State>, actors: seq<Actor>)
    requires Possible(x) && IsRun(x, run, actors)
    ensures run[|actors|].parent == Broken <==> !x.sigpipeIgnored && KilledBeforeSend(run, actors)
  {
    hide SendsTooLate; hide Sound; hide Possible;
    if actors != [] {
      var n := |actors| - 1;
      BrokenByLateSend(x, run[..n + 1], actors[..n]);
      DeadBeforeSend(x, run[..n + 1], actors[..n]);
      assert Step(x, actors[n], run[n], run[n + 1]);
      LateStep(run, actors);
      RunsAreSound(x, run[..n + 1], actors[..n]);
      SendStep(x, actors[n], run[n], run[n + 1]);
    } else {
      assert forall i :: !SendsTooLate(run, actors, i) by { NoSend(run); }
    }
  }

  lemma NoSend(run: seq<State>)
    ensures forall i :: !SendsTooLate(run, [], i)
  {
  }

  lemma LateStep(run: seq<State>, actors: seq<Actor>)
    requires |run| == |actors| + 1 && actors != []
    ensures var n := |actors| - 1;
            KilledBeforeSend(run, actors) <==>
              KilledBeforeSend(run[..n + 1], actors[..n])
              || (actors[n] == Parent && run[n].parent == Send && Killer in actors[..n])
  {
    var n := |actors| - 1;
    assert forall i | 0 <= i < n :: actors[..n][i] == actors[i] && actors[..n][..i] == actors[..i];
    assert forall i | 0 <= i < n :: run[..n + 1][i] == run[i];
    forall i | 0 <= i < n
      ensures SendsTooLate(run, actors, i) <==> SendsTooLate(run[..n + 1], actors[..n], i)
    {
    }
    assert SendsTooLate(run, actors, n) <==> actors[n] == Parent && run[n].parent == Send && Killer in actors[..n];
    if KilledBeforeSend(run, actors) {
      var i :| SendsTooLate(run, actors, i);
      assert i < n ==> SendsTooLate(run[..n + 1], actors[..n], i);
    }
    if KilledBeforeSend(run[..n + 1], actors[..n]) {
      var i :| SendsTooLate(run[..n + 1], actors[..n], i);
      assert SendsTooLate(run, actors, i);
    }
  }

  /** The parent breaks in one step only: a write that nobody can read. */
  lemma SendStep(x: Launch, a: Actor, s: State, t: State)
    requires Possible(x) && Sound(x, s) && Step(x, a, s, t)
    ensures t.parent == Broken <==>
              s.parent == Broken || (a == Parent && s.parent == Send && s.child == Dead && !x.sigpipeIgnored)
  {
    hide Agreed; hide PipeEnds; hide ParentEnds; hide ChildEnds;
    if s.parent == Send {
      DeadReadsNothing(x, s);
    }
  }

  lemma DeadReadsNothing(x: Launch, s: State)
    requires Possible(x) && Sound(x, s) && s.parent == Send
    ensures IsOpen(s, x.down.readEnd) <==> s.child != Dead
  {
    EndsInUse(x, s);
  }

  /** How a launch ends for the parent.  It returns exactly if the child is not killed before it has
      answered.  Otherwise it is ended by SIGPIPE exactly if the child is killed before the parent
      sends the group and the signal is not ignored, and gives up in all other cases. */
  lemma HowALaunchEnds(x: Launch, run: seq<State>, actors: seq<Actor>)
    requires Possible(x) && IsRun(x, run, actors) && Finished(run[|actors|])
    ensures var s := run[|actors|];
            && (s.parent == Returned <==> !KilledEarly(run, actors))
            && (s.parent == Broken <==> !x.sigpipeIgnored && KilledBeforeSend(run, actors))
            && (s.parent == GaveUp <==>
                  KilledEarly(run, actors) && (x.sigpipeIgnored || !KilledBeforeSend(run, actors)))
  {
    hide SendsTooLate; hide Sound; hide Possible; hide KilledEarly; hide KilledBeforeSend; hide IsRun;
    KillingDecides(x, run, actors);
    BrokenByLateSend(x, run, actors);
  }

  /** A child that dies before it is told its group takes the shell with it, unless the shell was
      itself started with SIGPIPE ignored: the write to the pipe that nobody reads any more. */
  lemma DeadChildBreaksTheShell(x: Launch)
    returns (run: seq<State>, actors: seq<Actor>)
    requires Possible(x) && !x.sigpipeIgnored
    ensures IsRun(x, run, actors) && actors == [Killer, Parent, Parent, Parent, Parent]
    ensures run[|actors|].parent == Broken
  {
    var s0 := Start(x);
    var s1 := ChildDied(s0);
    var s2 := ParentMove(x, s1).value;
    var s3 := ParentMove(x, s2).value;
    var s4 := ParentMove(x, s3).value;
    var s5 := ParentMove(x, s4).value;
    run, actors := [s0, s1, s2, s3, s4, s5], [Killer, Parent, Parent, Parent, Parent];
  }
}
