/** The parser of src/command.c, as it works: it re-splits joined token slices in every nested
    call, strikes out consumed tokens, allocates pipes and opens files as it goes, and finds "the
    last stage" through two globals. */
module Parser {
  import opened Options
  import opened Descriptors
  import opened Splitting
  import opened StringUtils
  import opened Syntax
  import opened Commands
  import opened Ledger
  import opened Salvage
  import opened Verdict
  import opened Residue
  import opened Scanning
  import opened Files
  import opened CommandObjects
  import opened Closing

  /** The builder together with the arguments that its token array still holds. */
  ghost function ViewOf(argv: seq<Word>, b: CommandCallBuilder): Builder
    requires b.fds.Length == 3
    reads b, b.fds
  {
    Builder(argv, b.fds[0], b.fds[1], b.fds[2], b.reading, b.writing)
  }

  class Parser {
    const files: FileTable
    var lastCall: int           // last_parsed_command_call
    var lastSubstitution: int   // last_parsed_command_call_substitution

    constructor (files: FileTable)
      ensures this.files == files && lastCall == NO_CALL && lastSubstitution == NO_CALL
    {
      this.files := files;
      lastCall, lastSubstitution := NO_CALL, NO_CALL;
    }

    ghost function StateOf(cmd: Command): State
      reads files, cmd
    {
      State(files.table, cmd.pipes, cmd.store, cmd.calls)
    }

    method ParseRedirections(fds: array<int>, symbol: string, file: string) returns (status: int)
      requires fds.Length == 3
      modifies files, fds
      ensures !IsRedirection(symbol) ==> status == -1 && files.table == old(files.table) && fds[..] == old(fds[..])
      ensures IsRedirection(symbol) && !files.oracle.grants(old(files.table).opens) ==>
                && status == -1 && fds[..] == old(fds[..])
                && files.table == Refused(old(files.table), Opening(file, ModeOf(symbol)))
      ensures IsRedirection(symbol) && files.oracle.grants(old(files.table).opens) ==>
                && status == 0
                && files.table == CloseIfOpened(Opened(files.oracle, old(files.table), Opening(file, ModeOf(symbol))),
                                                old(fds[Slot(StreamOf(symbol))]))
                && fds[..] == old(fds[..])[Slot(StreamOf(symbol)) := Fresh(files.oracle, old(files.table))]
      ensures status == 0 <==>
                symbol in ["<", ">", ">|", ">>", "2>", "2>|", "2>>"] && files.oracle.grants(old(files.table).opens)
      ensures status == 0 ==>
                var slot := if symbol[0] == '<' then 0 else if symbol[0] == '>' then 1 else 2;
                && fds[slot] == Fresh(files.oracle, old(files.table))
                && forall k | 0 <= k < 3 && k != slot :: fds[k] == old(fds[k])
    {
      var slot: nat;
      var mode;
      if symbol == "<" {
        slot, mode := 0, Read;
      } else if symbol == ">" {
        slot, mode := 1, Create;
      } else if symbol == ">|" {
        slot, mode := 1, Truncate;
      } else if symbol == ">>" {
        slot, mode := 1, Append;
      } else if symbol == "2>" {
        slot, mode := 2, Create;
      } else if symbol == "2>|" {
        slot, mode := 2, Truncate;
      } else if symbol == "2>>" {
        slot, mode := 2, Append;
      } else {
        return -1;
      }
      var fd := files.Open(file, mode);
      if fd < 0 {
        return -1;
      }
      if fds[slot] > 2 {
        files.Close(fds[slot]);
      }
      fds[slot] := fd;
      status := 0;
    }

    /** The stage on the right of a `|` reads from a new pipe and the stage on its left writes to it. */
    method LinkPipelines(cmd: Command, prev: CommandCallBuilder, call: nat)
      requires prev.fds.Length == 3 && call < |cmd.store|
      modifies files, cmd`pipes, cmd`store, prev, prev.fds
      ensures var pipe := NewPipe(files.oracle, old(files.table));
              && files.table == Piped(files.oracle, old(files.table))
              && cmd.pipes == old(cmd.pipes) + [pipe]
              && cmd.store == old(cmd.store)[call := Linked(old(cmd.store)[call], pipe.readEnd, |old(cmd.pipes)|)]
              && prev.fds[..] == old(prev.fds[..])[1 := pipe.writeEnd]
              && prev.writing == old(prev.writing) + [|old(cmd.pipes)|] && prev.reading == old(prev.reading)
    {
      var pipe := files.MakePipe();
      prev.writing := prev.writing + [|cmd.pipes|];
      var c := cmd.store[call];
      cmd.store := cmd.store[call := c.(reading := c.reading + [|cmd.pipes|], stdin := pipe.readEnd)];
      cmd.AddPipe(pipe);
      prev.fds[1] := pipe.writeEnd;
    }

    /** Sets consumed tokens to NULL. */
    method StrikeOut(toks: array<Option<Word>>, from: nat, to: nat)
      requires from <= to <= toks.Length
      modifies toks
      ensures forall k | from <= k < to :: toks[k] == None
      ensures forall k | 0 <= k < toks.Length && !(from <= k < to) :: toks[k] == old(toks[k])
    {
      var j := from;
      while j < to
        invariant from <= j <= to
        invariant forall k | from <= k < j :: toks[k] == None
        invariant forall k | 0 <= k < toks.Length && !(from <= k < j) :: toks[k] == old(toks[k])
      {
        toks[j] := None;
        j := j + 1;
      }
    }

    /** The loop that looks for the closing symbol, counting the opening ones on the way. */
    method FindClosing(toks: array<Option<Word>>, index: nat, ghost words: seq<string>) returns (end: Option<nat>)
      requires index <= toks.Length == |words| && Untouched(toks[..], words, index)
      ensures end.None? <==> ClosingIndex(words[index..], 0).None?
      ensures end.Some? ==>
                index <= end.value < toks.Length && ClosingIndex(words[index..], 0) == Some(end.value - index)
    {
      hide ClosingIndex;
      var i, startsFound: nat := index, 0;
      assert words[index..][0..] == words[index..];
      while i < toks.Length
        invariant index <= i <= toks.Length
        invariant ClosingIndex(words[index..], 0) == Shift(ClosingIndex(words[i..], startsFound), i - index)
      {
        assert toks[..][i] == Some(Text(words[i]));
        var w := TextOf(toks[i]);
        ClosingScan(words, i, startsFound);
        if w == SUBSTITUTION_START {
          startsFound := startsFound + 1;
        }
        if w == SUBSTITUTION_END {
          if startsFound == 0 {
            return Some(i);
          }
          startsFound := startsFound - 1;
        }
        i := i + 1;
      }
      ClosingScanEnd(words, i, startsFound);
      end := None;
    }

    /** `index` is the place of the token behind the opening symbol.  On success the whole
        substitution has been replaced by one argument, at the place of its closing symbol. */
    method ParseCommandSubstitution(cmd: Command, builder: CommandCallBuilder, toks: array<Option<Word>>, index: nat,
                                    ghost words: seq<string>) returns (status: int, end: nat)
      requires 0 < index < toks.Length == |words| && Untouched(toks[..], words, index) && AreTokens(words)
      requires !IsSymbol(words[index]) && words[index - 1] == SUBSTITUTION_START
      requires lastCall == NO_CALL
      modifies this, files, cmd`store, cmd`calls, cmd`pipes, builder`reading, toks
      ensures status == 0 || status == -1
      ensures lastCall == NO_CALL
      ensures status == 0 <==> RunBody(files.oracle, words[index - 1..], old(StateOf(cmd))).Some?
      ensures status == 0 ==>
                var st := old(StateOf(cmd));
                var pipe := NewPipe(files.oracle, st.table);
                && index <= end < toks.Length
                && ClosingIndex(words[index..], 0) == Some(end - index)
                && StateOf(cmd) == WithBody(RunBody(files.oracle, words[index - 1..], st).value, pipe, |st.pipes|)
                && builder.reading == old(builder.reading) + [|st.pipes|]
                && (forall j | index <= j < end :: toks[j] == None)
                && toks[end] == Some(DevFd(pipe.readEnd))
                && (forall j | 0 <= j < toks.Length && !(index <= j <= end) :: toks[j] == old(toks[j]))
                && lastSubstitution == NO_CALL
      ensures status == -1 ==> Salvageable(old(StateOf(cmd)), StateOf(cmd), NO_CALL)
      ensures status == -1 ==>
                (lastSubstitution != NO_CALL <==>
                   LeftSetByBody(files.oracle, words[index - 1..], old(files.table.opens)))
      decreases toks.Length - index, 0
    {
      hide ClosingIndex; hide RunPipeline; hide Salvageable; hide Parse; hide RunBody; hide Body; hide Decide;
      hide NewPipe; hide Words; hide Join; hide Untouched; hide AreTokens; hide IsSymbol; hide TextsOf; hide LeftSet;
      hide LeftSetByBody;
      ghost var st := StateOf(cmd);
      lastSubstitution := NO_CALL;
      var closing := FindClosing(toks, index, words);
      BodyDecision(files.oracle, words, index, st);
      BodyLeaves(files.oracle, words, index, files.table.opens);
      if closing.None? {
        SalvageNothing(st);
        return -1, index;
      }
      end := closing.value;
      var position := |cmd.pipes|;
      var pipe := files.MakePipe();
      cmd.AddPipe(pipe);
      assert StateOf(cmd) == WithPipe(files.oracle, st);
      SliceTexts(toks[..], words, index, end);
      assert toks[index..end] == toks[..][index..end];
      TokensOfSlice(words, index, end);
      var call := ParseBody(cmd, TextsOf(toks[index..end]));
      if call == NO_CALL {
        SalvageAfterPipe(files.oracle, st, StateOf(cmd), NO_CALL);
        return -1, index;
      }
      InstallSubstitution(cmd, builder, toks, index, end, position, pipe, call);
      status := 0;
    }

    /** Parses the tokens between the two symbols as a command line of their own. */
    method ParseBody(cmd: Command, slice: seq<string>) returns (call: int)
      requires AreTokens(slice) && lastCall == NO_CALL && lastSubstitution == NO_CALL
      modifies this, files, cmd`store, cmd`calls, cmd`pipes
      ensures lastCall == NO_CALL && call >= NO_CALL
      ensures var d := Decide(files.oracle, slice, true, false, old(StateOf(cmd)), false);
              && (call != NO_CALL <==> d.Some? && d.value.parsed.state.store[d.value.parsed.last].stdout == 1)
              && (call != NO_CALL ==>
                    && StateOf(cmd) == d.value.parsed.state
                    && call == First(d.value.parsed))
              && (d.Some? ==> lastSubstitution == d.value.parsed.last)
      // A last stage that redirects its output is refused, but the global still names it.
      ensures lastSubstitution != NO_CALL <==> LeftSet(files.oracle, slice, true, false, old(files.table.opens), false)
      ensures call == NO_CALL ==> Salvageable(old(StateOf(cmd)), StateOf(cmd), NO_CALL)
      decreases |slice|, 2
    {
      hide RunPipeline; hide Salvageable; hide Parse; hide Decide; hide Words; hide Join; hide AreTokens; hide LeftSet;
      ghost var st := StateOf(cmd);
      var joined := JoinStrings(slice, SPACE);
      SplitOfJoin(slice);
      call := ParseCommandCall(cmd, joined, true, false);
      if lastSubstitution == NO_CALL || call == NO_CALL {
        return NO_CALL;
      }
      if cmd.store[lastSubstitution].stdout != 1 {
        // The last stage of a substitution must not redirect its output.  The first stage is
        // not listed yet, so it is closed here.
        var c := cmd.store[call];
        var fds := new int[3](i => if i == 0 then c.stdin else if i == 1 then c.stdout else c.stderr);
        assert Listed(fds[..]) == {c.stdin, c.stdout, c.stderr} by { assert fds[..] == [c.stdin, c.stdout, c.stderr]; }
        files.CloseUnusedFromArray(fds);
        AbandonSubstitution(files.oracle, slice, st);
        return NO_CALL;
      }
    }

    /** The last stage of a parsed substitution is given the pipe's write end, and the enclosing
        call the read end, as an argument in place of the tokens consumed. */
    method InstallSubstitution(cmd: Command, builder: CommandCallBuilder, toks: array<Option<Word>>, from: nat,
                               end: nat, position: nat, pipe: Pipe, call: nat)
      requires from <= end < toks.Length && 0 <= lastSubstitution < |cmd.store|
      modifies this`lastSubstitution, cmd`store, cmd`calls, builder`reading, toks
      ensures cmd.store == old(cmd.store)[old(lastSubstitution) :=
                             Redirected(old(cmd.store)[old(lastSubstitution)], pipe.writeEnd, position)]
      ensures cmd.calls == old(cmd.calls) + [call]
      ensures builder.reading == old(builder.reading) + [position]
      ensures (forall j | from <= j < end :: toks[j] == None) && toks[end] == Some(DevFd(pipe.readEnd))
      ensures forall j | 0 <= j < toks.Length && !(from <= j <= end) :: toks[j] == old(toks[j])
      ensures lastSubstitution == NO_CALL
    {
      var c := cmd.store[lastSubstitution];
      cmd.store := cmd.store[lastSubstitution := c.(stdout := pipe.writeEnd)];
      toks[end] := Some(DevFd(pipe.readEnd));
      StrikeOut(toks, from, end);
      builder.reading := builder.reading + [position];
      c := cmd.store[lastSubstitution];
      cmd.store := cmd.store[lastSubstitution := c.(writing := c.writing + [position])];
      lastSubstitution := NO_CALL;
      cmd.AddCallAtTheEnd(call);
    }

    /** Gives a call up: the descriptors it holds are closed, each once. */
    method Abandon(builder: CommandCallBuilder, cmd: Command, ghost argv: seq<Word>)
      requires builder.fds.Length == 3
      modifies files
      ensures StateOf(cmd) == WithoutFds(ViewOf(argv, builder), old(StateOf(cmd)))
    {
      assert Listed(builder.fds[..]) == {builder.fds[0], builder.fds[1], builder.fds[2]};
      files.CloseUnusedFromArray(builder.fds);
    }

    /** What the scan so far stands for. */
    ghost predicate Scans(q: Question, cmd: Command, builder: CommandCallBuilder, toks: array<Option<Word>>, index: nat,
                          stale: int)
      requires builder.fds.Length == 3
      reads this, files, cmd, builder, builder.fds, toks
    {
      && index <= toks.Length == |q.words|
      && q.oracle == files.oracle && AreTokens(q.words) && q.stale == (stale != NO_CALL)
      && lastCall == NO_CALL
      && (lastSubstitution == NO_CALL || (!q.inside && lastSubstitution == stale))
      && Aligned(q, index, toks[..], ViewOf(Present(toks[..index]), builder), StateOf(cmd), lastSubstitution != NO_CALL)
    }

    /** A redirection: the next token names the file. */
    method ScanRedirection(ghost q: Question, cmd: Command, builder: CommandCallBuilder, toks: array<Option<Word>>,
                           index: nat, ghost stale: int) returns (ok: bool)
      requires builder.fds.Length == 3 && Scans(q, cmd, builder, toks, index, stale)
      requires index + 1 < toks.Length && IsSymbol(q.words[index]) && !IsSymbol(q.words[index + 1])
      requires q.words[index] != SUBSTITUTION_START && q.words[index] != PIPE_SYMBOL
      modifies files, builder, builder.fds, toks
      ensures ok ==> Scans(q, cmd, builder, toks, index + 2, stale)
      ensures !ok ==> Refuses(q, ViewOf([], builder), StateOf(cmd), NO_CALL)
      ensures !ok ==> (q.Left() <==> lastSubstitution != NO_CALL)
    {
      hide LeftSet; hide LeftFrom; hide Progress; hide Decide; hide DecideRest; hide Present; hide IsSymbol;
      hide Salvageable; hide Fresh; hide CloseIfOpened; hide AreTokens;
      ghost var b := ViewOf(Present(toks[..index]), builder);
      ghost var now := StateOf(cmd);
      ghost var before := toks[..];
      ghost var still := lastSubstitution != NO_CALL;
      assert toks[..index] == before[..index];
      assert before[index] == Some(Text(q.words[index])) && before[index + 1] == Some(Text(q.words[index + 1]));
      var status := ParseRedirections(builder.fds, TextOf(toks[index]), TextOf(toks[index + 1]));
      RedirectionOrEnd(q.words[index]);
      if status < 0 {
        if IsRedirection(q.words[index]) {
          AlignRedirect(q, index, before, b, now, still, before[index := None][index + 1 := None]);
        } else {
          AlignMalformed(q, index, before, b, now, still);
        }
        return false;
      }
      toks[index] := None;
      toks[index + 1] := None;
      assert toks[..] == before[index := None][index + 1 := None];
      AlignRedirect(q, index, before, b, now, still, toks[..]);
      assert toks[..][..index + 2] == toks[..index + 2];
      ok := true;
    }

    /** A process substitution: the tokens up to its closing symbol become one argument. */
    method ScanSubstitution(ghost q: Question, cmd: Command, builder: CommandCallBuilder, toks: array<Option<Word>>,
                            index: nat, ghost stale: int) returns (ok: bool, end: nat)
      requires builder.fds.Length == 3 && Scans(q, cmd, builder, toks, index, stale)
      requires index + 1 < toks.Length && q.words[index] == SUBSTITUTION_START && !IsSymbol(q.words[index + 1])
      modifies this, files, cmd`store, cmd`calls, cmd`pipes, builder`reading, toks
      ensures lastCall == NO_CALL
      ensures ok ==> index < end < toks.Length && Scans(q, cmd, builder, toks, end + 1, stale)
      ensures !ok ==> Refuses(q, ViewOf([], builder), StateOf(cmd), NO_CALL)
      ensures !ok ==> (q.Left() <==> lastSubstitution != NO_CALL)
      decreases toks.Length - index, 0
    {
      hide LeftSet; hide LeftFrom; hide LeftSetByBody; hide Progress; hide Decide; hide DecideRest; hide Present;
      hide IsSymbol; hide Salvageable; hide NewPipe; hide ClosingIndex; hide AreTokens; hide RunBody; hide WithBody;
      ghost var b := ViewOf(Present(toks[..index]), builder);
      ghost var now := StateOf(cmd);
      ghost var before := toks[..];
      ghost var still := lastSubstitution != NO_CALL;
      assert toks[..index] == before[..index];
      toks[index] := None;
      assert Untouched(toks[..], q.words, index + 1);
      assert q.words[index + 1 - 1..] == q.words[index..];
      var status;
      status, end := ParseCommandSubstitution(cmd, builder, toks, index + 1, q.words);
      if status == -1 {
        AlignNoSubstitution(q, index, before, b, now, still, StateOf(cmd));
        return false, index;
      }
      AlignSubstitution(q, index, before, b, now, still, toks[..], end);
      assert toks[..][..end + 1] == toks[..end + 1];
      ok := true;
    }

    /** A `|`: the rest of the line is parsed as the stages on the right, and linked. */
    method ScanPipe(ghost q: Question, cmd: Command, builder: CommandCallBuilder, toks: array<Option<Word>>, index: nat,
                    inside: bool, ghost stale: int) returns (ok: bool, ghost last: nat)
      requires builder.fds.Length == 3 && Scans(q, cmd, builder, toks, index, stale) && inside == q.inside
      requires index + 1 < toks.Length && q.words[index] == PIPE_SYMBOL && !IsSymbol(q.words[index + 1])
      modifies this, files, cmd`store, cmd`calls, cmd`pipes, builder, builder.fds, toks
      ensures ok ==>
                && Concluded(q, ViewOf(Present(toks[..]), builder), StateOf(cmd), last, true,
                             !inside && lastSubstitution != NO_CALL, lastCall)
                && builder.fds[1] > 2
                && lastCall == (if inside then NO_CALL else last)
                && (if inside then lastSubstitution == last
                    else lastSubstitution == NO_CALL || lastSubstitution == stale)
      ensures q.Left() <==> lastSubstitution != NO_CALL
      ensures !ok ==> Refuses(q, ViewOf([], builder), StateOf(cmd), lastCall) && (inside ==> lastCall == NO_CALL)
      decreases toks.Length - index, 0
    {
      hide LeftSet; hide LeftFrom; hide Progress; hide Decide; hide DecideRest; hide Present; hide IsSymbol;
      hide Salvageable; hide NewPipe; hide Words; hide Join; hide AreTokens; hide TextsOf; hide Finish;
      ghost var b := ViewOf(Present(toks[..index]), builder);
      ghost var now := StateOf(cmd);
      ghost var before := toks[..];
      ghost var still := lastSubstitution != NO_CALL;
      ghost var tail := q.words[index + 1..];
      last := 0;
      assert toks[..index] == before[..index];
      if builder.fds[1] != UNINITIALIZED_FD {
        SalvageNothing(now);
        AlignNoNext(q, index, before, b, now, still, now, NO_CALL);
        return false, 0;
      }
      SliceTexts(before, q.words, index + 1, toks.Length);
      assert toks[index + 1..] == before[index + 1..toks.Length];
      assert q.words[index + 1..toks.Length] == tail;
      TokensOfSlice(q.words, index + 1, toks.Length);
      var joined := JoinStrings(TextsOf(toks[index + 1..]), SPACE);
      SplitOfJoin(tail);
      var next := ParseCommandCall(cmd, joined, inside, true);
      if next == NO_CALL {
        AlignNoNext(q, index, before, b, now, still, StateOf(cmd), lastCall);
        return false, 0;
      }
      AlignNext(q, index, before, b, now, still);
      ghost var d := Decide(files.oracle, tail, inside, true, now, still).value;
      last := d.parsed.last;
      LinkNext(cmd, builder, toks, index, next, inside, d.parsed);
      if !still {
        NeverSetAgain(files.oracle, tail, inside, true, now);
      }
      ok := true;
    }

    /** The stage on the right has been parsed: it is linked and listed, and its tokens are gone. */
    method LinkNext(cmd: Command, builder: CommandCallBuilder, toks: array<Option<Word>>, index: nat, next: nat,
                    inside: bool, ghost parsed: Parsed)
      requires builder.fds.Length == 3 && index <= toks.Length
      requires parsed.last < |parsed.state.store| && StateOf(cmd) == parsed.state && next == First(parsed)
      requires lastCall == if inside then NO_CALL else parsed.last
      modifies files, cmd`store, cmd`calls, cmd`pipes, builder, builder.fds, toks
      ensures StateOf(cmd) == WithNext(files.oracle, parsed, inside)
      ensures ViewOf(Present(toks[..]), builder) ==
              AfterNext(old(ViewOf(Present(toks[..index]), builder)), NewPipe(files.oracle, parsed.state.table),
                        |parsed.state.pipes|)
      ensures builder.fds[1] > 2
    {
      hide Present; hide Finish;
      ghost var before := toks[..];
      assert toks[..index] == before[..index];
      LinkPipelines(cmd, builder, next);
      if lastCall != next || inside {
        cmd.AddCallAtTheEnd(next);
      }
      StrikeOut(toks, index, toks.Length);
      PresentOfNulls(before[..index], toks[index..]);
      assert toks[..] == before[..index] + toks[index..];
    }

    /** One symbol of the line; nothing may follow a `|` that its own call has not consumed. */
    method ScanSymbol(ghost q: Question, cmd: Command, builder: CommandCallBuilder, toks: array<Option<Word>>,
                      index: nat, inside: bool, ghost stale: int)
      returns (ok: bool, next: nat, linked: bool, ghost last: nat)
      requires builder.fds.Length == 3 && Scans(q, cmd, builder, toks, index, stale) && inside == q.inside
      requires index < toks.Length && IsSymbol(q.words[index])
      modifies this, files, cmd`store, cmd`calls, cmd`pipes, builder, builder.fds, toks
      ensures ok && !linked ==> index < next && Scans(q, cmd, builder, toks, next, stale)
      ensures ok && linked ==>
                && Concluded(q, ViewOf(Present(toks[..]), builder), StateOf(cmd), last, true,
                             !inside && lastSubstitution != NO_CALL, lastCall)
                && builder.fds[1] > 2
                && lastCall == (if inside then NO_CALL else last)
                && (if inside then lastSubstitution == last
                    else lastSubstitution == NO_CALL || lastSubstitution == stale)
      ensures !ok || linked ==> (q.Left() <==> lastSubstitution != NO_CALL)
      ensures !ok ==> Refuses(q, ViewOf([], builder), StateOf(cmd), lastCall) && (inside ==> lastCall == NO_CALL)
      decreases toks.Length - index, 1
    {
      hide LeftSet; hide LeftFrom; hide Aligned; hide Concluded; hide Refuses; hide IsSymbol; hide AreTokens;
      hide Present;
      ghost var b := ViewOf(Present(toks[..index]), builder);
      ghost var still := lastSubstitution != NO_CALL;
      ok, next, linked, last := false, index, false, 0;
      AlignedTokens(q, index, toks[..], b, StateOf(cmd), still);
      assert toks[..][..index] == toks[..index];
      assert toks[..][index] == Some(Text(q.words[index]));
      var w := TextOf(toks[index]);
      if index == toks.Length - 1 {
        AlignMalformed(q, index, toks[..], b, StateOf(cmd), still);
        RefusesSameFds(q, b, ViewOf([], builder), StateOf(cmd), NO_CALL);
        return;
      }
      assert toks[..][index + 1] == Some(Text(q.words[index + 1]));
      if IsSymbol(TextOf(toks[index + 1])) {
        AlignMalformed(q, index, toks[..], b, StateOf(cmd), still);
        RefusesSameFds(q, b, ViewOf([], builder), StateOf(cmd), NO_CALL);
        return;
      }
      if w == SUBSTITUTION_START {
        ok, next := ScanSubstitution(q, cmd, builder, toks, index, stale);
        next := next + 1;
      } else if w == PIPE_SYMBOL {
        ok, last := ScanPipe(q, cmd, builder, toks, index, inside, stale);
        linked := true;
      } else {
        ok := ScanRedirection(q, cmd, builder, toks, index, stale);
        next := index + 2;
      }
    }

    /** The arguments that the scan has left in the token array. */
    method FilterArguments(toks: array<Option<Word>>) returns (argv: seq<Word>)
      ensures argv == Present(toks[..])
    {
      argv := [];
      NonePresent();
      var i: nat := 0;
      assert toks[..i] == [];
      while i < toks.Length
        invariant i <= toks.Length && argv == Present(toks[..i])
      {
        PresentSnoc(toks[..i], toks[i]);
        assert toks[..i + 1] == toks[..i] + [toks[i]];
        if toks[i].Some? {
          argv := argv + [toks[i].value];
        }
        i := i + 1;
      }
      assert toks[..i] == toks[..];
    }

    /** The call is complete: two checks on its redirections, then it is built and the globals
        take note of it if it is a last stage. */
    method FinishCall(ghost q: Question, cmd: Command, builder: CommandCallBuilder, toks: array<Option<Word>>,
                      text: string, inside: bool, piped: bool, ghost last: nat, ghost linked: bool) returns (c: int)
      requires builder.fds.Length == 3 && inside == q.inside && piped == q.piped && !OnlySpaces(text)
      requires Concluded(q, ViewOf(Present(toks[..]), builder), StateOf(cmd), last, linked,
                         !inside && lastSubstitution != NO_CALL, lastCall)
      requires linked ==>
                 && builder.fds[1] > 2 && lastCall == (if inside then NO_CALL else last)
                 && (inside ==> lastSubstitution == last)
      requires !linked ==> last == |cmd.store| && lastCall == NO_CALL && (inside ==> lastSubstitution == NO_CALL)
      requires q.Left() <==> lastSubstitution != NO_CALL || (inside && !(piped && builder.fds[0] != UNINITIALIZED_FD))
      modifies this, files, cmd`store
      ensures c >= NO_CALL && (q.Left() <==> lastSubstitution != NO_CALL)
      ensures var d := q.Answer();
              && (c != NO_CALL <==> d.Some?)
              && (c != NO_CALL ==>
                    && StateOf(cmd) == d.value.parsed.state
                    && c == First(d.value.parsed)
                    && lastCall == (if inside then NO_CALL else d.value.parsed.last)
                    && lastSubstitution == (if inside then d.value.parsed.last else old(lastSubstitution))
                    && d.value.stale == (!inside && old(lastSubstitution) != NO_CALL))
              && (c == NO_CALL ==> Salvageable(q.start, StateOf(cmd), lastCall) && (inside ==> lastCall == NO_CALL))
    {
      hide Decide; hide Salvageable; hide Present; hide LeftSet;
      ghost var view := ViewOf(Present(toks[..]), builder);
      if piped {
        if builder.fds[0] != UNINITIALIZED_FD {
          Abandon(builder, cmd, Present(toks[..]));
          return NO_CALL;
        }
        // In the middle of a pipeline the output must not be redirected.
        if !(lastCall == NO_CALL || lastSubstitution == NO_CALL) {
          if builder.fds[1] != UNINITIALIZED_FD {
            Abandon(builder, cmd, Present(toks[..]));
            return NO_CALL;
          }
        }
      }
      var argv := FilterArguments(toks);
      var trimmed := TrimSpaces(text);
      assert trimmed.Some?;
      c := |cmd.store|;
      var built := Call(argv,
                        if builder.fds[0] != UNINITIALIZED_FD then builder.fds[0] else 0,
                        if builder.fds[1] != UNINITIALIZED_FD then builder.fds[1] else 1,
                        if builder.fds[2] != UNINITIALIZED_FD then builder.fds[2] else 2,
                        builder.reading, builder.writing);
      cmd.store := cmd.store + [built];
      if lastCall == NO_CALL && !inside {
        lastCall := c;
      }
      if lastSubstitution == NO_CALL && inside {
        lastSubstitution := c;
      }
    }

    method ParseCommandCall(cmd: Command, text: string, inside: bool, piped: bool) returns (c: int)
      requires lastCall == NO_CALL && (inside ==> lastSubstitution == NO_CALL)
      modifies this, files, cmd`store, cmd`calls, cmd`pipes
      ensures c >= NO_CALL
      ensures var st := old(StateOf(cmd));
              var d := Decide(files.oracle, Words(text, SPACE), inside, piped, st, old(lastSubstitution) != NO_CALL);
              && (c != NO_CALL <==> d.Some?)
              && (c != NO_CALL ==>
                    && StateOf(cmd) == d.value.parsed.state
                    && c == First(d.value.parsed)
                    && lastCall == (if inside then NO_CALL else d.value.parsed.last)
                    && lastSubstitution == (if inside then d.value.parsed.last
                                            else if d.value.stale then old(lastSubstitution) else NO_CALL))
              && (c == NO_CALL ==> Salvageable(st, StateOf(cmd), lastCall) && (inside ==> lastCall == NO_CALL))
      ensures lastSubstitution != NO_CALL <==>
                LeftSet(files.oracle, Words(text, SPACE), inside, piped, old(files.table.opens),
                        old(lastSubstitution) != NO_CALL)
      decreases |Words(text, SPACE)|, 1
    {
      hide LeftSet; hide LeftFrom; hide Progress; hide Decide; hide DecideRest; hide Present; hide IsSymbol;
      hide Salvageable; hide Words; hide OnlySpaces; hide Concluded; hide AreTokens;
      ghost var stale := lastSubstitution;
      ghost var q := Question(files.oracle, Words(text, SPACE), inside, piped, StateOf(cmd), stale != NO_CALL);
      var words, argc := SplitString(text, SPACE);
      if argc == 0 {
        assert q.words == [];
        DecideName(files.oracle, q.words, inside, piped, StateOf(cmd), stale != NO_CALL);
        LeftByNothing(files.oracle, inside, piped, files.table.opens, stale != NO_CALL);
        SalvageNothing(StateOf(cmd));
        return NO_CALL;
      }
      SplittableIsTrimmable(text);
      SpaceWordsAreTokens(text);
      var toks := new Option<Word>[argc](i requires 0 <= i < words.Length reads words => Some(Text(words[i])));
      var builder := new CommandCallBuilder();
      AlignName(q, toks[..]);
      assert toks[..][0] == Some(Text(q.words[0]));
      assert toks[..][..1] == toks[..1];
      if IsSymbol(TextOf(toks[0])) {
        SalvageNothing(StateOf(cmd));
        assert BuilderFds(ViewOf([], builder)) == {};
        assert files.table.open - {} == files.table.open;
        Abandon(builder, cmd, []);
        return NO_CALL;
      }
      var index: nat := 1;
      var linked := false;
      ghost var last: nat := |cmd.store|;
      while index < argc && !linked
        invariant index <= argc == toks.Length && fresh(toks)
        invariant fresh(builder) && fresh(builder.fds) && builder.fds.Length == 3
        invariant !linked ==> Scans(q, cmd, builder, toks, index, stale)
        invariant linked ==>
                    && (q.Left() <==> lastSubstitution != NO_CALL)
                    && Concluded(q, ViewOf(Present(toks[..]), builder), StateOf(cmd), last, true,
                                 !inside && lastSubstitution != NO_CALL, lastCall)
                    && builder.fds[1] > 2
                    && lastCall == (if inside then NO_CALL else last)
                    && (if inside then lastSubstitution == last
                    else lastSubstitution == NO_CALL || lastSubstitution == stale)
        decreases !linked, argc - index
      {
        ghost var b := ViewOf(Present(toks[..index]), builder);
        ghost var still := lastSubstitution != NO_CALL;
        assert toks[..][index] == Some(Text(q.words[index]));
        if !IsSymbol(TextOf(toks[index])) {
          AlignArg(q, index, toks[..], b, StateOf(cmd), still);
          assert toks[..][..index + 1] == toks[..index + 1];
          index := index + 1;
        } else {
          var ok, next;
          ok, next, linked, last := ScanSymbol(q, cmd, builder, toks, index, inside, stale);
          if !ok {
            Abandon(builder, cmd, []);
            return NO_CALL;
          }
          if !linked {
            index := next;
          }
        }
      }
      assert !linked ==> toks[..index] == toks[..];
      if !linked {
        last := |cmd.store|;
        AlignEnd(q, toks[..], ViewOf(Present(toks[..]), builder), StateOf(cmd), lastSubstitution != NO_CALL);
      }
      c := FinishCall(q, cmd, builder, toks, text, inside, piped, last, linked);
    }

    /** Parses one command.  A refused line leaves the descriptor table as it was. */
    method ParseCommand(text: string) returns (cmd: Command?)
      modifies this, files
      ensures var st := State(old(files.table), [], [], []);
              var d := Decide(files.oracle, Words(text, SPACE), false, false, st, old(lastSubstitution) != NO_CALL);
              && (cmd != null <==> d.Some?)
              && (cmd != null ==>
                    && fresh(cmd) && !cmd.background
                    && files.table == d.value.parsed.state.table
                    && cmd.store == d.value.parsed.state.store && cmd.pipes == d.value.parsed.state.pipes
                    && cmd.calls == FinalOrder(d.value.parsed)
                    && lastCall == NO_CALL
                    && lastSubstitution == if d.value.stale then old(lastSubstitution) else NO_CALL)
      ensures lastSubstitution != NO_CALL <==>
                LeftSet(files.oracle, Words(text, SPACE), false, false, old(files.table.opens),
                        old(lastSubstitution) != NO_CALL)
      ensures cmd == null ==> files.table.open == old(files.table.open)
    {
      hide Decide; hide Salvageable; hide Words; hide Ends; hide FdsOf; hide OnlySpaces; hide LeftSet;
      ghost var st := State(files.table, [], [], []);
      cmd := null;
      var blank := IsOnlyComposedOf(text, SPACE);
      NothingInEmpty(SPACE);
      if |text| == 0 || blank {
        assert |text| == 0 ==> text == "";
        NothingToParse(files.oracle, text, st, lastSubstitution != NO_CALL);
        LeftByNothing(files.oracle, false, false, files.table.opens, lastSubstitution != NO_CALL);
        return null;
      }
      SplittableIsTrimmable(text);
      var trimmed := TrimSpaces(text);
      assert trimmed.Some?;
      cmd := new Command(trimmed.value);
      lastCall := NO_CALL;
      assert StateOf(cmd) == st;
      var call := ParseCommandCall(cmd, text, false, false);
      if call == NO_CALL {
        CleaningRestores(st, StateOf(cmd), lastCall);
        if lastCall != NO_CALL {
          cmd.AddCallAtTheEnd(lastCall);
        }
        CloseUnusedFileDescriptors(files, cmd);
        ClosePipes(files, cmd);
        return null;
      }
      // The global names the last stage of the main pipeline.
      assert lastCall != NO_CALL;
      if lastCall != call {
        cmd.AddCallAtTheEnd(call);
      }
      cmd.AddCallAtTheBeginning(lastCall);
      lastCall := NO_CALL;
    }
  }

  lemma NothingToParse(o: Oracle, text: string, st: State, stale: bool)
    requires Words(text, SPACE) == []
    ensures Decide(o, Words(text, SPACE), false, false, st, stale) == None
  {
    DecideName(o, [], false, false, st, stale);
  }

  /** What the tokens between the two symbols decide about the substitution. */
  lemma BodyDecision(o: Oracle, words: seq<string>, index: nat, st: State)
    requires 0 < index <= |words|
    ensures match ClosingIndex(words[index..], 0)
            case None => RunBody(o, words[index - 1..], st) == None
            case Some(i) =>
              var d := Decide(o, words[index..index + i], true, false, WithPipe(o, st), false);
              RunBody(o, words[index - 1..], st) ==
                if d.None? || d.value.parsed.state.store[d.value.parsed.last].stdout != 1 then None
                else Some(d.value.parsed)
  {
    hide ClosingIndex; hide RunPipeline; hide Parse;
    assert words[index - 1..][1..] == words[index..];
    if ClosingIndex(words[index..], 0).Some? {
      var i := ClosingIndex(words[index..], 0).value;
      assert words[index..][..i] == words[index..index + i];
    }
  }

  /** The same for what it leaves in the global. */
  lemma BodyLeaves(o: Oracle, words: seq<string>, index: nat, opens: nat)
    requires 0 < index <= |words|
    ensures LeftSetByBody(o, words[index - 1..], opens) <==>
              match ClosingIndex(words[index..], 0)
              case None => false
              case Some(i) => LeftSet(o, words[index..index + i], true, false, opens, false)
  {
    hide ClosingIndex; hide LeftSet;
    assert words[index - 1..][1..] == words[index..];
    if ClosingIndex(words[index..], 0).Some? {
      var i := ClosingIndex(words[index..], 0).value;
      assert words[index..][..i] == words[index..index + i];
    }
  }

  lemma AbandonSubstitution(o: Oracle, slice: seq<string>, st: State)
    requires Decide(o, slice, true, false, st, false).Some?
    ensures var parsed := Decide(o, slice, true, false, st, false).value.parsed;
            var now := parsed.state;
            Salvageable(st, now.(table := now.table.(open := now.table.open - CallFds(now.store[First(parsed)]))), -1)
  {
    hide RunPipeline; hide Salvageable; hide Parse;
    AbandonBody(o, st, Parse(slice).value);
  }

  lemma ClosingScan(words: seq<string>, i: nat, depth: nat)
    requires i < |words|
    ensures words[i] == SUBSTITUTION_END && depth == 0 ==> ClosingIndex(words[i..], depth) == Some(0)
    ensures !(words[i] == SUBSTITUTION_END && depth == 0) ==>
              ClosingIndex(words[i..], depth) == Shift(ClosingIndex(words[i + 1..], NextDepth(words[i], depth)), 1)
  {
    assert words[i..][1..] == words[i + 1..];
  }

  lemma ClosingScanEnd(words: seq<string>, i: nat, depth: nat)
    requires i == |words|
    ensures ClosingIndex(words[i..], depth) == None
  {
  }

  lemma RedirectionOrEnd(w: string)
    requires IsSymbol(w) && w != SUBSTITUTION_START && w != PIPE_SYMBOL
    ensures IsRedirection(w) || w == SUBSTITUTION_END
  {
  }

  lemma SliceTexts(toks: seq<Option<Word>>, words: seq<string>, i: nat, j: nat)
    requires Untouched(toks, words, i) && i <= j <= |words|
    ensures TextsOf(toks[i..j]) == words[i..j]
  {
  }

  lemma TokensOfSlice(words: seq<string>, i: nat, j: nat)
    requires AreTokens(words) && i <= j <= |words|
    ensures AreTokens(words[i..j])
  {
    assert forall w | w in words[i..j] :: w in words;
  }
}
