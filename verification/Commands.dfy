/** Commands as the parser builds them, and what running the parser over a syntax tree yields.

    A `command_call` pointer is an index into `store`, the calls in the order they are built;
    `order` is the array `command_calls` of the command under construction. */
module Commands {
  import opened Options
  import opened Descriptors
  import opened Syntax

  /** An argument: a word of the line, or the path of a descriptor under /dev/fd. */
  datatype Word = Text(text: string) | DevFd(fd: int)

  datatype Call = Call(argv: seq<Word>, stdin: int, stdout: int, stderr: int,
                       reading: seq<nat>, writing: seq<nat>)

  const UNINITIALIZED_FD := -1

  datatype Builder = Builder(argv: seq<Word>, stdin: int, stdout: int, stderr: int,
                             reading: seq<nat>, writing: seq<nat>)

  function NewBuilder(name: string): Builder {
    Builder([Text(name)], UNINITIALIZED_FD, UNINITIALIZED_FD, UNINITIALIZED_FD, [], [])
  }

  function BuildCall(b: Builder): Call {
    Call(b.argv,
         if b.stdin != UNINITIALIZED_FD then b.stdin else 0,
         if b.stdout != UNINITIALIZED_FD then b.stdout else 1,
         if b.stderr != UNINITIALIZED_FD then b.stderr else 2,
         b.reading, b.writing)
  }

  datatype State = State(table: Table, pipes: seq<Pipe>, store: seq<Call>, order: seq<nat>)

  /** A parsed pipeline: its first stage is the newest call of the store, `last` its last stage. */
  datatype Parsed = Parsed(state: State, last: nat)

  function First(r: Parsed): nat
    requires r.state.store != []
  {
    |r.state.store| - 1
  }

  function WithPipe(o: Oracle, st: State): State {
    st.(table := Piped(o, st.table), pipes := st.pipes + [NewPipe(o, st.table)])
  }

  function CloseIfOpened(t: Table, fd: int): Table {
    if fd > 2 then Closed(t, fd) else t
  }

  /** How a redirection symbol opens its file. */
  function ModeOf(op: string): Mode
    requires IsRedirection(op)
  {
    if op == "<" then Read
    else if op == ">" || op == "2>" then Create
    else if op == ">|" || op == "2>|" then Truncate
    else Append
  }

  /** The table when the file has been opened and the one it replaces has been closed. */
  function Reopened(o: Oracle, t: Table, b: Builder, op: string, file: string): Table
    requires IsRedirection(op)
  {
    CloseIfOpened(Opened(o, t, Opening(file, ModeOf(op))), FdOf(b, StreamOf(op)))
  }

  function FdOf(b: Builder, s: Stream): int {
    match s case Stdin => b.stdin case Stdout => b.stdout case Stderr => b.stderr
  }

  function WithFd(b: Builder, s: Stream, fd: int): Builder {
    match s case Stdin => b.(stdin := fd) case Stdout => b.(stdout := fd) case Stderr => b.(stderr := fd)
  }

  /** The stage is complete: it becomes the newest call. */
  function Finish(b: Builder, st: State): State {
    st.(store := st.store + [BuildCall(b)])
  }

  /** The last stage of a substitution writes to the pipe the substitution allocated. */
  function Redirected(c: Call, fd: int, pipe: nat): Call {
    c.(stdout := fd, writing := c.writing + [pipe])
  }

  /** A stage reads from the pipe that links it to the stage on its left. */
  function Linked(c: Call, fd: int, pipe: nat): Call {
    c.(stdin := fd, reading := c.reading + [pipe])
  }

  /** The parser over a tree, left to right; None when it rejects. */
  function RunPipeline(o: Oracle, p: Pipeline, inside: bool, piped: bool, st: State): (r: Option<Parsed>)
    ensures r.Some? ==> |st.store| <= r.value.last < |r.value.state.store|
    decreases p
  {
    RunRest(o, p.rest, NewBuilder(p.name), inside, piped, st)
  }

  function RunRest(o: Oracle, r: Rest, b: Builder, inside: bool, piped: bool, st: State): (res: Option<Parsed>)
    ensures res.Some? ==> |st.store| <= res.value.last < |res.value.state.store|
    decreases r
  {
    match r
    case Done =>
      if piped && b.stdin != UNINITIALIZED_FD then None
      else Some(Parsed(Finish(b, st), |st.store|))
    case Arg(w, q) =>
      RunRest(o, q, b.(argv := b.argv + [Text(w)]), inside, piped, st)
    case Redirect(op, file, q) =>
      if !IsRedirection(op) || !o.grants(st.table.opens) then None
      else RunRest(o, q, WithFd(b, StreamOf(op), Fresh(o, st.table)), inside, piped,
                   st.(table := Reopened(o, st.table, b, op, file)))
    case Substitute(body, q) =>
      var pipe := NewPipe(o, st.table);
      (match RunPipeline(o, body, true, false, WithPipe(o, st))
       case None => None
       case Some(parsed) =>
         if parsed.state.store[parsed.last].stdout != 1 then None
         else RunRest(o, q, AfterBody(b, pipe, |st.pipes|), inside, piped, WithBody(parsed, pipe, |st.pipes|)))
    case PipeTo(next) =>
      if b.stdout != UNINITIALIZED_FD then None
      else
        match RunPipeline(o, next, inside, true, st)
        case None => None
        case Some(parsed) =>
          var pipe := NewPipe(o, parsed.state.table);
          if piped && b.stdin != UNINITIALIZED_FD then None
          else Some(Parsed(Finish(AfterNext(b, pipe, |parsed.state.pipes|), WithNext(o, parsed, inside)), parsed.last))
  }

  /** The substitution becomes an argument, and its pipe one more that the call reads. */
  function AfterBody(b: Builder, pipe: Pipe, index: nat): Builder {
    b.(argv := b.argv + [DevFd(pipe.readEnd)], reading := b.reading + [index])
  }

  function WithBody(parsed: Parsed, pipe: Pipe, index: nat): State
    requires parsed.last < |parsed.state.store|
  {
    var st := parsed.state;
    st.(store := st.store[parsed.last := Redirected(st.store[parsed.last], pipe.writeEnd, index)],
        order := st.order + [First(parsed)])
  }

  function AfterNext(b: Builder, pipe: Pipe, index: nat): Builder {
    b.(stdout := pipe.writeEnd, writing := b.writing + [index])
  }

  /** The stage on the right is linked and, unless it is the last stage of the main pipeline,
      listed. */
  function WithNext(o: Oracle, parsed: Parsed, inside: bool): State
    requires parsed.last < |parsed.state.store|
  {
    var st := parsed.state;
    var first := First(parsed);
    var pipe := NewPipe(o, st.table);
    WithPipe(o, st).(
      store := st.store[first := Linked(st.store[first], pipe.readEnd, |st.pipes|)],
      order := if inside || first != parsed.last then st.order + [first] else st.order)
  }

  /** The finished command: the last stage of the main pipeline comes first, its first stage last. */
  function FinalOrder(parsed: Parsed): seq<nat>
    requires parsed.last < |parsed.state.store|
  {
    [parsed.last] + parsed.state.order + if First(parsed) != parsed.last then [First(parsed)] else []
  }

  /* One step of the parser, for proofs that need no more than that. */

  lemma RunArg(o: Oracle, w: string, q: Rest, b: Builder, inside: bool, piped: bool, st: State)
    ensures RunRest(o, Arg(w, q), b, inside, piped, st)
         == RunRest(o, q, b.(argv := b.argv + [Text(w)]), inside, piped, st)
  {
  }

  lemma RunRedirect(o: Oracle, op: string, file: string, q: Rest, b: Builder, inside: bool, piped: bool, st: State)
    ensures RunRest(o, Redirect(op, file, q), b, inside, piped, st)
         == if !IsRedirection(op) || !o.grants(st.table.opens) then None
            else RunRest(o, q, WithFd(b, StreamOf(op), Fresh(o, st.table)), inside, piped,
                         st.(table := Reopened(o, st.table, b, op, file)))
  {
  }

  lemma RunSubstitute(o: Oracle, body: Pipeline, q: Rest, b: Builder, inside: bool, piped: bool, st: State)
    ensures var pipe := NewPipe(o, st.table);
            var parsed := RunPipeline(o, body, true, false, WithPipe(o, st));
            RunRest(o, Substitute(body, q), b, inside, piped, st) ==
            if parsed.None? || parsed.value.state.store[parsed.value.last].stdout != 1 then None
            else RunRest(o, q, AfterBody(b, pipe, |st.pipes|), inside, piped, WithBody(parsed.value, pipe, |st.pipes|))
  {
  }

  lemma RunPipeTo(o: Oracle, next: Pipeline, b: Builder, inside: bool, piped: bool, st: State)
    ensures var parsed := RunPipeline(o, next, inside, true, st);
            RunRest(o, PipeTo(next), b, inside, piped, st) ==
            if b.stdout != UNINITIALIZED_FD || parsed.None? || (piped && b.stdin != UNINITIALIZED_FD) then None
            else
              var now := parsed.value.state;
              Some(Parsed(Finish(AfterNext(b, NewPipe(o, now.table), |now.pipes|), WithNext(o, parsed.value, inside)),
                          parsed.value.last))
  {
  }

  lemma RunDone(o: Oracle, b: Builder, inside: bool, piped: bool, st: State)
    ensures RunRest(o, Done, b, inside, piped, st)
         == if piped && b.stdin != UNINITIALIZED_FD then None else Some(Parsed(Finish(b, st), |st.store|))
  {
  }
}
