/** Which stage of a line is in which slot of the finished command: the last stage of the main
    pipeline comes first, and the others follow in the order in which they were built, which is from
    the right to the left. */
module Slots {
  import opened Descriptors
  import opened Syntax
  import opened Commands
  import opened Listing
  import opened PipeTree
  import opened Plugging
  import opened CommandTree

  /** The last stage of a pipeline. */
  function LastStage(p: Pipeline): Pipeline
    decreases p
  {
    LastStageOf(p, p.rest)
  }

  function LastStageOf(p: Pipeline, r: Rest): Pipeline
    decreases r
  {
    match r
    case Done => p
    case Arg(_, q) => LastStageOf(p, q)
    case Redirect(_, _, q) => LastStageOf(p, q)
    case Substitute(_, q) => LastStageOf(p, q)
    case PipeTo(next) => LastStage(next)
  }

  /** The number of pipes allocated before those of the last stage. */
  function PipesBefore(p: Pipeline, q: nat): nat
    decreases p
  {
    PipesBeforeRest(p.rest, q, q)
  }

  function PipesBeforeRest(r: Rest, start: nat, q: nat): nat
    decreases r
  {
    match r
    case Done => start
    case Arg(_, s) => PipesBeforeRest(s, start, q)
    case Redirect(_, _, s) => PipesBeforeRest(s, start, q)
    case Substitute(body, s) => PipesBeforeRest(s, start, q + Size(body))
    case PipeTo(next) => PipesBefore(next, q)
  }

  lemma {:induction false} LastArguments(p: Pipeline, a: nat, pipes: seq<Pipe>, q: nat)
    ensures Argvs(p, pipes, q)[LastId(p, a) - a] == Argv(LastStage(p), pipes, PipesBefore(p, q))
    decreases p
  {
    LastArgumentsRest(p, p.rest, a, FirstId(p, a), pipes, q, q);
  }

  lemma {:induction false} LastArgumentsRest(p: Pipeline, r: Rest, a: nat, me: nat, pipes: seq<Pipe>, start: nat,
                                             q: nat)
    requires a + SizeRest(r) <= me
    ensures var id := LastIdRest(r, a, me);
            if id == me then LastStageOf(p, r) == p && PipesBeforeRest(r, start, q) == start
            else ArgvsRest(r, pipes, q)[id - a] == Argv(LastStageOf(p, r), pipes, PipesBeforeRest(r, start, q))
    decreases r
  {
    hide Argv;
    match r
    case Done =>
    case Arg(_, s) => LastArgumentsRest(p, s, a, me, pipes, start, q);
    case Redirect(_, _, s) => LastArgumentsRest(p, s, a, me, pipes, start, q);
    case Substitute(body, s) =>
      LastArgumentsRest(p, s, a + Size(body), me, pipes, start, q + Size(body));
    case PipeTo(next) => LastArguments(next, a, pipes, q);
  }

  /** The number of the call in slot `c`. */
  function CallInSlot(p: Pipeline, c: nat): (id: nat)
    requires c < Size(p)
    ensures id < Size(p)
  {
    if c == 0 then LastId(p, 0) else if c <= LastId(p, 0) then c - 1 else c
  }

  /** The call in any slot of a parsed command has the arguments of its stage. */
  lemma SlotIsStage(o: Oracle, p: Pipeline, t: Table, c: nat)
    requires RunPipeline(o, p, false, false, State(t, [], [], [])).Some?
    ensures var r := RunPipeline(o, p, false, false, State(t, [], [], [])).value;
            && (forall id | id in FinalOrder(r) :: id < |r.state.store|)
            && |Assembled(r)| == Size(p)
            && (c < Size(p) ==> Assembled(r)[c].argv == Argvs(p, r.state.pipes, 0)[CallInSlot(p, c)])
  {
    hide RunPipeline; hide Argvs; hide LastId; hide Size; hide NoRepeats; hide StoreWired; hide FinalOrder;
    var st := State(t, [], [], []);
    var r := RunPipeline(o, p, false, false, st).value;
    StoreIsWired(o, p, t);
    FinalOrderIsComplete(o, p, st);
    SlotsInOrder(o, p, st, c);
    if c < Size(p) {
      PipelineArgs(o, p, false, false, st, r.state.pipes, FinalOrder(r)[c]);
    }
  }

  /** Slot 0 is the last stage of the main pipeline, with all its arguments. */
  lemma SlotZeroIsLastStage(o: Oracle, p: Pipeline, t: Table)
    requires RunPipeline(o, p, false, false, State(t, [], [], [])).Some?
    ensures var r := RunPipeline(o, p, false, false, State(t, [], [], [])).value;
            && (forall id | id in FinalOrder(r) :: id < |r.state.store|)
            && Assembled(r)[0].argv == Argv(LastStage(p), r.state.pipes, PipesBefore(p, 0))
  {
    hide RunPipeline; hide Argvs; hide Argv; hide LastId; hide LastStage; hide PipesBefore; hide Size; hide NoRepeats;
    hide StoreWired;
    var r := RunPipeline(o, p, false, false, State(t, [], [], [])).value;
    StoreIsWired(o, p, t);
    FinalOrderIsComplete(o, p, State(t, [], [], []));
    SlotIsStage(o, p, t, 0);
    LastArguments(p, 0, r.state.pipes, 0);
  }
}
