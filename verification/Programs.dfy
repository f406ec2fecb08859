/** From a line to the programs that its processes execute: the arguments are those of the stage as it is
    written, and each standard stream leads where the line says. */
module Programs {
  import opened Descriptors
  import opened Syntax
  import opened Commands
  import opened Listing
  import opened PipeTree
  import opened Wiring
  import opened Plugging
  import opened Channels
  import opened CommandTree
  import opened Slots
  import opened Kernels
  import opened JobTables
  import opened Sessions
  import opened Launches
  import opened Soundness
  import opened LaunchSoundness
  import opened Runs
  import opened EndOfFile

  /** Each stream is the standard one of its number, or no standard one at all. */
  predicate IsApart(c: Call) {
    (c.stdin == 0 || c.stdin > 2) && (c.stdout == 1 || c.stdout > 2) && (c.stderr == 2 || c.stderr > 2)
  }

  predicate AreApart(calls: seq<Call>) {
    forall i | 0 <= i < |calls| :: IsApart(calls[i])
  }

  predicate IsBuilderApart(b: Builder) {
    && (b.stdin == UNINITIALIZED_FD || b.stdin > 2) && (b.stdout == UNINITIALIZED_FD || b.stdout > 2)
    && (b.stderr == UNINITIALIZED_FD || b.stderr > 2)
  }

  lemma {:induction false} PipelineIsApart(o: Oracle, p: Pipeline, inside: bool, piped: bool, st: State)
    requires RunPipeline(o, p, inside, piped, st).Some? && AreApart(st.store)
    ensures AreApart(RunPipeline(o, p, inside, piped, st).value.state.store)
    decreases p
  {
    hide RunRest; hide AreApart;
    RestIsApart(o, p.rest, NewBuilder(p.name), inside, piped, st);
  }

  lemma {:induction false} RestIsApart(o: Oracle, r: Rest, b: Builder, inside: bool, piped: bool, st: State)
    requires RunRest(o, r, b, inside, piped, st).Some? && AreApart(st.store) && IsBuilderApart(b)
    ensures AreApart(RunRest(o, r, b, inside, piped, st).value.state.store)
    decreases r
  {
    hide RunRest; hide RunPipeline; hide Fresh; hide NewPipe; hide Reopened; hide Piped; hide IsRedirection;
    hide StreamOf;
    match r
    case Done =>
      RunDone(o, b, inside, piped, st);
    case Arg(w, q) =>
      RunArg(o, w, q, b, inside, piped, st);
      RestIsApart(o, q, b.(argv := b.argv + [Text(w)]), inside, piped, st);
    case Redirect(op, file, q) =>
      RunRedirect(o, op, file, q, b, inside, piped, st);
      RestIsApart(o, q, WithFd(b, StreamOf(op), Fresh(o, st.table)), inside, piped,
                  st.(table := Reopened(o, st.table, b, op, file)));
    case Substitute(body, q) =>
      RunSubstitute(o, body, q, b, inside, piped, st);
      PipelineIsApart(o, body, true, false, WithPipe(o, st));
      var parsed := RunPipeline(o, body, true, false, WithPipe(o, st)).value;
      var pipe := NewPipe(o, st.table);
      RestIsApart(o, q, AfterBody(b, pipe, |st.pipes|), inside, piped, WithBody(parsed, pipe, |st.pipes|));
    case PipeTo(next) =>
      RunPipeTo(o, next, b, inside, piped, st);
      PipelineIsApart(o, next, inside, true, st);
  }

  /** Putting the streams in place in turn does not disturb those already in place. */
  lemma ProgramOfApart(c: Call)
    requires IsApart(c)
    ensures ProgramOf(c) == Program(c.argv, [c.stdin, c.stdout, c.stderr])
  {
    assert Duplicated([0, 1, 2], c.stdin, 0) == [c.stdin, 1, 2];
    assert Duplicated([c.stdin, 1, 2], c.stdout, 1) == [c.stdin, c.stdout, 2];
    assert Duplicated([c.stdin, c.stdout, 2], c.stderr, 2) == [c.stdin, c.stdout, c.stderr];
  }

  /** The process of slot `c` executes the stage of that slot: its arguments in the order of the line, its
      input from the file or pipe that the tree says, and its output and its errors likewise. */
  lemma ProcessExecutesItsStage(w: World, con: Console, o: Oracle, p: Pipeline, t: Table, s: Session, start: Table,
                                c: nat)
    requires Sound(s, []) && RunPipeline(o, p, false, false, State(t, [], [], [])).Some? && c < Size(p)
    ensures var r := RunPipeline(o, p, false, false, State(t, [], [], [])).value;
            && (forall id | id in FinalOrder(r) :: id < |r.state.store|) && |Assembled(r)| == Size(p)
            && var launch := LaunchAll(w, con, o, r.state.pipes, Assembled(r), s, start);
               launch.ok && !IsInternal(Assembled(r)[c]) ==>
                 Executes(launch, c, Argvs(p, r.state.pipes, 0)[CallInSlot(p, c)],
                          AllSources(p, |t.files|, 0)[CallInSlot(p, c)], r.state)
  {
    hide RunPipeline; hide Argvs; hide AllSources; hide Size; hide LaunchAll; hide Sound; hide IsInternal;
    hide ProgramOf; hide FinalOrder; hide Leads; hide Underway; hide TableShrinks; hide Lost; hide NoRepeats;
    hide Foreign; hide StoreWired;
    var st := State(t, [], [], []);
    var r := RunPipeline(o, p, false, false, st).value;
    var id := CallInSlot(p, c);
    StoreIsWired(o, p, t);
    SlotIsStage(o, p, t, c);
    SlotsInOrder(o, p, st, c);
    PipelineIsApart(o, p, false, false, st);
    PipelineStreams(o, p, false, false, st, r.state.pipes, r.state.table.files, id);
    ProgramOfApart(r.state.store[id]);
    var launch := LaunchAll(w, con, o, r.state.pipes, Assembled(r), s, start);
    EveryLaunchEnds(w, con, o, r.state.pipes, Assembled(r), s, start);
    if launch.ok {
      CallIsLaunched(start.open, r.state.pipes, Assembled(r), launch, c);
    }
  }

  /** Slot `c` has a process, which executes a program with these arguments and streams. */
  predicate Executes(launch: Progress, c: nat, argv: seq<Word>, sources: Sources, st: State) {
    && c < |launch.subs| && launch.subs[c].Some?
    && var k, pid := launch.session.kernel, launch.subs[c].value.pid;
       && pid in k.children && k.children[pid].image.program.Some?
       && var program := k.children[pid].image.program.value;
          && program.argv == argv && |program.streams| == 3
          && Leads(program.streams[0], sources.input, 0, false, st.pipes, st.table.files)
          && Leads(program.streams[1], sources.output, 1, true, st.pipes, st.table.files)
          && Leads(program.streams[2], sources.errors, 2, true, st.pipes, st.table.files)
  }
}
