/** Launching the calls of a command as one job (src/internals.c), as functions of the session. */
module Launches {
  import opened Options
  import opened Descriptors
  import opened Commands
  import opened Statuses
  import opened Kernels
  import opened Waiting
  import opened JobTables
  import opened Sessions

  /** The ends of the first `n` pipes that a process running `c` is to close. */
  function ForeignReads(pipes: seq<Pipe>, c: Call): set<int> {
    if pipes == [] then {}
    else
      var n := |pipes| - 1;
      ForeignReads(pipes[..n], c) + if n in c.reading then {} else {pipes[n].readEnd}
  }

  function ForeignWrites(pipes: seq<Pipe>, c: Call): set<int> {
    if pipes == [] then {}
    else
      var n := |pipes| - 1;
      ForeignWrites(pipes[..n], c) + if n in c.writing then {} else {pipes[n].writeEnd}
  }

  function Foreign(pipes: seq<Pipe>, c: Call): set<int> {
    ForeignReads(pipes, c) + ForeignWrites(pipes, c)
  }

  /** The two pipes of the handshake, one after the other. */
  function Down(o: Oracle, t: Table): Pipe {
    NewPipe(o, t)
  }

  function Up(o: Oracle, t: Table): Pipe {
    NewPipe(o, Piped(o, t))
  }

  /** dup2: descriptor `to` becomes a copy of `from`.  The streams are those of 0, 1 and 2. */
  function Duplicated(streams: seq<int>, from: int, to: nat): seq<int>
    requires |streams| == 3 && to < 3
  {
    streams[to := if 0 <= from < 3 then streams[from] else from]
  }

  /** What the process of a call executes, its three streams having been put in place in turn. */
  function ProgramOf(c: Call): Program {
    Program(c.argv, Duplicated(Duplicated(Duplicated([0, 1, 2], c.stdin, 0), c.stdout, 1), c.stderr, 2))
  }

  /** What is left of a child that has died before it has answered. */
  const DEAD := Image({}, None)

  /** The job's group once a process with this pid has been started for it. */
  function GroupOf(pgid: int, pid: int): int {
    if pgid == 0 then pid else pgid
  }

  /** A job on its way: what has been launched of it, `chief` the code of slot 0 if that was an
      internal command and -1 otherwise, and the descriptors that were closed. */
  datatype Progress = Progress(session: Session, table: Table, pgid: int, subs: seq<Option<Subjob>>,
                               chief: int, ok: bool, closes: seq<int>)

  const NO_CODE := -1

  ghost function LaunchOne(w: World, con: Console, o: Oracle, pipes: seq<Pipe>, c: Call, p: Progress): Progress {
    if IsInternal(c) then
      var r := Builtin(w, con, p.session, c);
      p.(session := r.0, subs := p.subs + [None], chief := if p.subs == [] then r.1 else p.chief)
    else
      var k := p.session.kernel;
      var pid := NewPid(w, k);
      var group := GroupOf(p.pgid, pid);
      var table := Piped(o, Piped(o, p.table)).(open := p.table.open);
      var down, up := Down(o, p.table), Up(o, p.table);
      if w.survives(k.started) then
        var image := Image(p.table.open - Foreign(pipes, c), Some(ProgramOf(c)));
        p.(session := p.session.(kernel := Forked(w, k, group, image)),
           table := table, pgid := group, subs := p.subs + [Some(Subjob(pid, k.started, Running))],
           closes := p.closes + [down.readEnd, up.writeEnd, down.writeEnd, up.readEnd])
      else
        p.(session := p.session.(kernel := Forked(w, k, group, DEAD)),
           table := table.(open := p.table.open + {up.readEnd}), pgid := group, ok := false,
           closes := p.closes + [down.readEnd, up.writeEnd, down.writeEnd])
  }

  ghost function LaunchAll(w: World, con: Console, o: Oracle, pipes: seq<Pipe>, calls: seq<Call>, s: Session, t: Table)
    : Progress
  {
    if calls == [] then Progress(s, t, 0, [], NO_CODE, true, [])
    else
      var n := |calls| - 1;
      var p := LaunchAll(w, con, o, pipes, calls[..n], s, t);
      if p.ok then LaunchOne(w, con, o, pipes, calls[n], p) else p
  }

  datatype Execution = Execution(session: Session, table: Table, code: int, jobId: Option<nat>, closes: seq<int>)

  /** The job after it has been launched. */
  function LaunchedJob(p: Progress): JobValue {
    JobValue(0, Running, p.pgid, p.subs)
  }

  function InTable(s: Session, j: JobValue): Session {
    if LeastFree(Grown(s.slots)) < |Grown(s.slots)| then s.(slots := Placed(s.slots, j)) else s
  }

  /** A job that has been put into the table. */
  function Watched(x: Execution, s: Session, j: JobValue): Execution {
    x.(session := InTable(s, j), code := 0, jobId := Some(LeastFree(Grown(s.slots)) + 1))
  }

  /** What becomes of a launched job: in the background it is watched, in the foreground it is
      waited for, and watched if it has been stopped. */
  ghost function Conclude(w: World, background: bool, s: Session, j: JobValue, chief: int, x: Execution): Execution {
    if background then Watched(x, s, j)
    else
      var r := Wait(w, s.kernel, j, false);
      var now := s.(kernel := r.kernel);
      if !r.ok then x.(session := now)
      else if IsFinishedStatus(r.job.status) then x.(session := now, code := if chief != NO_CODE then chief else r.code)
      else Watched(x, now, r.job)
  }

  ghost function RunJob(w: World, con: Console, o: Oracle, pipes: seq<Pipe>, calls: seq<Call>, background: bool,
                        s: Session, t: Table, ends: seq<int>): Execution {
    var p := LaunchAll(w, con, o, pipes, calls, s, t);
    var x := Execution(p.session, p.table.(open := p.table.open - Descriptors.Ends(pipes)), 1, None, p.closes + ends);
    if !p.ok then x else Conclude(w, background, p.session, LaunchedJob(p), p.chief, x)
  }

  /** A command: one internal call runs in the shell itself, anything else as a job. */
  ghost function Execute(w: World, con: Console, o: Oracle, pipes: seq<Pipe>, calls: seq<Call>, background: bool,
                         s: Session, t: Table, ends: seq<int>): Execution {
    var x :=
      if |calls| == 1 && IsInternal(calls[0]) then
        var r := Builtin(w, con, s, calls[0]);
        Execution(r.0, t, r.1, None, [])
      else RunJob(w, con, o, pipes, calls, background, s, t, ends);
    x.(session := x.session.(code := x.code))
  }

  /** What launching one call adds to a launch does not depend on what was launched before. */
  lemma LaunchOneAdds(w: World, con: Console, o: Oracle, pipes: seq<Pipe>, c: Call, p: Progress)
    requires p.ok && (p.subs == [] ==> p.chief == NO_CODE)
    ensures var q := LaunchOne(w, con, o, pipes, c, Alone(p));
            LaunchOne(w, con, o, pipes, c, p) ==
              q.(subs := p.subs + q.subs, chief := if p.subs == [] then q.chief else p.chief,
                 closes := p.closes + q.closes)
    ensures var q := LaunchOne(w, con, o, pipes, c, Alone(p)); |q.subs| == if q.ok then 1 else 0
  {
    hide Builtin; hide Forked; hide NewPid; hide Piped; hide NewPipe; hide Foreign;
    assert p.subs + [] == p.subs && p.closes + [] == p.closes;
  }

  function Alone(p: Progress): Progress {
    p.(subs := [], chief := NO_CODE, closes := [])
  }

  lemma LaunchStep(w: World, con: Console, o: Oracle, pipes: seq<Pipe>, calls: seq<Call>, s: Session, t: Table, i: nat)
    requires i < |calls| && LaunchAll(w, con, o, pipes, calls[..i], s, t).ok
    ensures LaunchAll(w, con, o, pipes, calls[..i + 1], s, t)
         == LaunchOne(w, con, o, pipes, calls[i], LaunchAll(w, con, o, pipes, calls[..i], s, t))
  {
    assert calls[..i + 1][..i] == calls[..i];
  }

  /** A launch that fails at one call goes no further. */
  lemma {:induction false} LaunchStops(w: World, con: Console, o: Oracle, pipes: seq<Pipe>, calls: seq<Call>,
                                       s: Session, t: Table, i: nat)
    requires i <= |calls| && !LaunchAll(w, con, o, pipes, calls[..i], s, t).ok
    ensures LaunchAll(w, con, o, pipes, calls, s, t) == LaunchAll(w, con, o, pipes, calls[..i], s, t)
    decreases |calls| - i
  {
    if i == |calls| {
      assert calls[..i] == calls;
    } else {
      assert calls[..i + 1][..i] == calls[..i];
      LaunchStops(w, con, o, pipes, calls, s, t, i + 1);
    }
  }
}
