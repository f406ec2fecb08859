/** The structures that the parser grows in place: the command and the builder of one call. */
module CommandObjects {
  import opened Options
  import opened Descriptors
  import opened Syntax
  import opened Commands

  class Command {
    var store: seq<Call>     // the calls built for this command, in the order they were built
    var calls: seq<nat>      // command_calls: the call in each slot, by its place in the store
    var pipes: seq<Pipe>     // open_pipes
    var background: bool
    var text: string

    constructor (text: string)
      ensures store == [] && calls == [] && pipes == [] && !background && this.text == text
    {
      store, calls, pipes, background, this.text := [], [], [], false, text;
    }

    method AddPipe(pipe: Pipe)
      modifies `pipes
      ensures pipes == old(pipes) + [pipe]
    {
      pipes := pipes + [pipe];
    }

    method AddCallAtTheBeginning(call: nat)
      modifies `calls
      ensures calls == [call] + old(calls)
    {
      calls := [call] + calls;
    }

    method AddCallAtTheEnd(call: nat)
      modifies `calls
      ensures calls == old(calls) + [call]
    {
      calls := calls + [call];
    }
  }

  class CommandCallBuilder {
    const fds: array<int>
    var reading: seq<nat>
    var writing: seq<nat>

    constructor ()
      ensures fresh(fds) && fds.Length == 3
      ensures fds[..] == [UNINITIALIZED_FD, UNINITIALIZED_FD, UNINITIALIZED_FD]
      ensures reading == [] && writing == []
    {
      fds := new int[3](_ => UNINITIALIZED_FD);
      reading, writing := [], [];
      new;
      assert fds[..] == [fds[0], fds[1], fds[2]];
    }
  }

  function Slot(s: Stream): nat {
    match s case Stdin => 0 case Stdout => 1 case Stderr => 2
  }

  /** The entries of a token array that have not been set to NULL. */
  function Present(toks: seq<Option<Word>>): seq<Word> {
    if toks == [] then []
    else
      var n := |toks| - 1;
      Present(toks[..n]) + if toks[n].Some? then [toks[n].value] else []
  }

  lemma PresentSnoc(toks: seq<Option<Word>>, t: Option<Word>)
    ensures Present(toks + [t]) == Present(toks) + if t.Some? then [t.value] else []
  {
    assert (toks + [t])[..|toks|] == toks;
  }

  lemma {:induction false} PresentOfNulls(toks: seq<Option<Word>>, nulls: seq<Option<Word>>)
    requires forall i | 0 <= i < |nulls| :: nulls[i] == None
    ensures Present(toks + nulls) == Present(toks)
  {
    if nulls == [] {
      assert toks + nulls == toks;
    } else {
      var n := |nulls| - 1;
      PresentOfNulls(toks, nulls[..n]);
      PresentSnoc(toks + nulls[..n], nulls[n]);
      assert toks + nulls[..n] + [nulls[n]] == toks + nulls;
    }
  }

  /** The entries from `from` on are the words from `from` on, untouched. */
  ghost predicate Untouched(toks: seq<Option<Word>>, words: seq<string>, from: nat) {
    && |toks| == |words|
    && forall i | from <= i < |toks| :: toks[i] == Some(Text(words[i]))
  }

  function TextOf(t: Option<Word>): string {
    if t.Some? && t.value.Text? then t.value.text else ""
  }

  function TextsOf(toks: seq<Option<Word>>): (words: seq<string>)
    ensures |words| == |toks|
  {
    seq(|toks|, i requires 0 <= i < |toks| => TextOf(toks[i]))
  }
}
