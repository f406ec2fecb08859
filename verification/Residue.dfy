/** What a parse leaves in the global last_parsed_command_call_substitution, set or not, as a
    function of the tokens and of the opens that are granted.  An accepted line never sets it; a line
    that is refused inside a substitution, behind a last stage of that substitution, does. */
module Residue {
  import opened Options
  import opened Descriptors
  import opened Syntax
  import opened Commands
  import opened Acceptance
  import opened Verdict

  /** The body of a substitution is accepted and its last stage leaves its output alone. */
  ghost predicate BodyAccepted(o: Oracle, body: seq<string>, opens: nat) {
    match Parse(body)
    case None => false
    case Some(p) => Allowed(p, true) && !LastRedirectsOutput(p) && Granted(o, opens, Opens(p))
  }

  /** The global is set after a call of the parser for tokens `t`, `opens` files having been asked
      for before, where `was` tells whether it was set before. */
  ghost predicate LeftSet(o: Oracle, t: seq<string>, inside: bool, piped: bool, opens: nat, was: bool)
    decreases |t|
  {
    if t == [] || IsSymbol(t[0]) then was
    else LeftSetRest(o, t[1..], false, false, inside, piped, opens, was)
  }

  /** The same in the middle of a call; `input` and `output` tell whether the stage has redirected
      its standard streams. */
  ghost predicate LeftSetRest(o: Oracle, t: seq<string>, input: bool, output: bool, inside: bool, piped: bool,
                              opens: nat, was: bool)
    decreases |t|
  {
    if t == [] then was || (inside && !(piped && input))
    else if !IsSymbol(t[0]) then LeftSetRest(o, t[1..], input, output, inside, piped, opens, was)
    else if |t| == 1 || IsSymbol(t[1]) || t[0] == SUBSTITUTION_END then was
    else if t[0] == SUBSTITUTION_START then
      match ClosingIndex(t[1..], 0)
      case None => false
      case Some(i) =>
        var body := t[1..][..i];
        if BodyAccepted(o, body, opens)
        then LeftSetRest(o, t[1..][i + 1..], input, output, inside, piped, opens + Opens(Parse(body).value), false)
        else LeftSet(o, body, true, false, opens, false)
    else if t[0] == PIPE_SYMBOL then
      if output then was else LeftSet(o, t[1..], inside, true, opens, was)
    else if !o.grants(opens) then was
    else
      var s := StreamOf(t[0]);
      LeftSetRest(o, t[2..], input || s == Stdin, output || s == Stdout, inside, piped, opens + 1, was)
  }

  /** The substitution that starts behind the opening symbol `t[0]` has been refused. */
  ghost predicate LeftSetByBody(o: Oracle, t: seq<string>, opens: nat)
    requires t != []
  {
    match ClosingIndex(t[1..], 0)
    case None => false
    case Some(i) => LeftSet(o, t[1..][..i], true, false, opens, false)
  }

  /* One token at a time, for a stage under construction. */

  ghost predicate LeftFrom(o: Oracle, t: seq<string>, b: Builder, inside: bool, piped: bool, st: State, was: bool) {
    LeftSetRest(o, t, b.stdin != UNINITIALIZED_FD, b.stdout != UNINITIALIZED_FD, inside, piped, st.table.opens, was)
  }

  lemma LeftByNothing(o: Oracle, inside: bool, piped: bool, opens: nat, was: bool)
    ensures LeftSet(o, [], inside, piped, opens, was) <==> was
  {
  }

  lemma LeftArg(o: Oracle, t: seq<string>, b: Builder, inside: bool, piped: bool, st: State, was: bool)
    requires t != [] && !IsSymbol(t[0])
    ensures LeftFrom(o, t, b, inside, piped, st, was)
        <==> LeftFrom(o, t[1..], b.(argv := b.argv + [Text(t[0])]), inside, piped, st, was)
  {
  }

  lemma LeftEnd(o: Oracle, b: Builder, inside: bool, piped: bool, st: State, was: bool)
    ensures LeftFrom(o, [], b, inside, piped, st, was)
        <==> was || (inside && !(piped && b.stdin != UNINITIALIZED_FD))
  {
  }

  lemma LeftMalformed(o: Oracle, t: seq<string>, b: Builder, inside: bool, piped: bool, st: State, was: bool)
    requires t != [] && IsSymbol(t[0]) && (|t| == 1 || IsSymbol(t[1]) || t[0] == SUBSTITUTION_END)
    ensures LeftFrom(o, t, b, inside, piped, st, was) <==> was
  {
  }

  lemma LeftRedirect(o: Oracle, t: seq<string>, b: Builder, inside: bool, piped: bool, st: State, was: bool)
    requires |t| > 1 && IsRedirection(t[0]) && !IsSymbol(t[1])
    ensures var s := StreamOf(t[0]);
            LeftFrom(o, t, b, inside, piped, st, was) <==>
            if !o.grants(st.table.opens) then was
            else LeftFrom(o, t[2..], WithFd(b, s, Fresh(o, st.table)), inside, piped,
                          st.(table := Reopened(o, st.table, b, t[0], t[1])), was)
  {
    hide Fresh;
  }

  lemma LeftSubstitute(o: Oracle, t: seq<string>, b: Builder, inside: bool, piped: bool, st: State, was: bool)
    requires |t| > 1 && t[0] == SUBSTITUTION_START && !IsSymbol(t[1])
    ensures var pipe := NewPipe(o, st.table);
            var parsed := RunBody(o, t, st);
            LeftFrom(o, t, b, inside, piped, st, was) <==>
            if parsed.None? then LeftSetByBody(o, t, st.table.opens)
            else LeftFrom(o, t[1..][ClosingIndex(t[1..], 0).value + 1..], AfterBody(b, pipe, |st.pipes|), inside, piped,
                          WithBody(parsed.value, pipe, |st.pipes|), false)
  {
    hide RunPipeline; hide ClosingIndex; hide NewPipe; hide Parse; hide Granted; hide Allowed;
    if Body(t).Some? {
      PipelineAcceptance(o, Body(t).value, true, false, WithPipe(o, st));
    }
  }

  lemma LeftPipe(o: Oracle, t: seq<string>, b: Builder, inside: bool, piped: bool, st: State, was: bool)
    requires |t| > 1 && t[0] == PIPE_SYMBOL && !IsSymbol(t[1])
    ensures LeftFrom(o, t, b, inside, piped, st, was) <==>
            if b.stdout != UNINITIALIZED_FD then was else LeftSet(o, t[1..], inside, true, st.table.opens, was)
  {
  }

  /** An accepted line leaves the global set exactly if it was set and no substitution has reset it;
      an accepted substitution always does. */
  lemma {:induction false} AcceptedLeaves(o: Oracle, t: seq<string>, inside: bool, piped: bool, st: State, was: bool)
    requires Decide(o, t, inside, piped, st, was).Some?
    ensures LeftSet(o, t, inside, piped, st.table.opens, was)
            <==> inside || Decide(o, t, inside, piped, st, was).value.stale
    decreases |t|, 1
  {
    hide Decide; hide DecideRest; hide LeftSetRest; hide IsSymbol;
    DecideName(o, t, inside, piped, st, was);
    AcceptedLeavesRest(o, t[1..], NewBuilder(t[0]), inside, piped, st, was);
  }

  lemma {:induction false} AcceptedLeavesRest(o: Oracle, t: seq<string>, b: Builder, inside: bool, piped: bool,
                                              st: State, was: bool)
    requires DecideRest(o, t, b, inside, piped, st, was).Some?
    ensures LeftFrom(o, t, b, inside, piped, st, was)
            <==> inside || DecideRest(o, t, b, inside, piped, st, was).value.stale
    decreases |t|, 0
  {
    hide Decide; hide DecideRest; hide LeftFrom; hide LeftSet; hide IsSymbol; hide RunBody; hide Fresh; hide NewPipe;
    hide CloseIfOpened; hide ClosingIndex; hide WithBody;
    if t == [] {
      DecideEnd(o, b, inside, piped, st, was);
      LeftEnd(o, b, inside, piped, st, was);
    } else if !IsSymbol(t[0]) {
      DecideArg(o, t, b, inside, piped, st, was);
      LeftArg(o, t, b, inside, piped, st, was);
      AcceptedLeavesRest(o, t[1..], b.(argv := b.argv + [Text(t[0])]), inside, piped, st, was);
    } else {
      SymbolHasOperand(o, t, b, inside, piped, st, was);
      if t[0] == SUBSTITUTION_START {
        DecideSubstitute(o, t, b, inside, piped, st, was);
        LeftSubstitute(o, t, b, inside, piped, st, was);
        BodyHasEnd(o, t, st);
        var pipe, parsed := NewPipe(o, st.table), RunBody(o, t, st).value;
        AcceptedLeavesRest(o, t[1..][ClosingIndex(t[1..], 0).value + 1..], AfterBody(b, pipe, |st.pipes|),
                           inside, piped, WithBody(parsed, pipe, |st.pipes|), false);
      } else if t[0] == PIPE_SYMBOL {
        DecidePipe(o, t, b, inside, piped, st, was);
        LeftPipe(o, t, b, inside, piped, st, was);
        AcceptedLeaves(o, t[1..], inside, true, st, was);
      } else {
        DecideRedirect(o, t, b, inside, piped, st, was);
        LeftRedirect(o, t, b, inside, piped, st, was);
        var s := StreamOf(t[0]);
        AcceptedLeavesRest(o, t[2..], WithFd(b, s, Fresh(o, st.table)), inside, piped,
                           st.(table := Reopened(o, st.table, b, t[0], t[1])), was);
      }
    }
  }

  lemma BodyHasEnd(o: Oracle, t: seq<string>, st: State)
    requires t != [] && RunBody(o, t, st).Some?
    ensures ClosingIndex(t[1..], 0).Some?
  {
    hide ClosingIndex; hide RunPipeline; hide Parse;
  }

  lemma SymbolHasOperand(o: Oracle, t: seq<string>, b: Builder, inside: bool, piped: bool, st: State, was: bool)
    requires t != [] && IsSymbol(t[0]) && DecideRest(o, t, b, inside, piped, st, was).Some?
    ensures |t| > 1 && !IsSymbol(t[1]) && t[0] != SUBSTITUTION_END
    ensures t[0] == SUBSTITUTION_START || t[0] == PIPE_SYMBOL || IsRedirection(t[0])
  {
    hide DecideRest;
    if |t| == 1 || IsSymbol(t[1]) || t[0] == SUBSTITUTION_END {
      DecideMalformed(o, t, b, inside, piped, st, was);
    }
  }

  /** The first closing symbol of tokens that have no symbol of nesting before it. */
  lemma {:induction false} ClosingBehind(t: seq<string>, after: seq<string>)
    requires SUBSTITUTION_START !in t && SUBSTITUTION_END !in t
    ensures ClosingIndex(t + [SUBSTITUTION_END] + after, 0) == Some(|t|)
  {
    var all := t + [SUBSTITUTION_END] + after;
    if t != [] {
      ClosingBehind(t[1..], after);
      assert all[1..] == t[1..] + [SUBSTITUTION_END] + after;
      assert all[0] == t[0] && t[0] in t;
    }
  }

  /** A refused line that leaves the global set: the last stage of its substitution redirects its
      output, and the open is granted. */
  lemma SetByRefusedSubstitution(o: Oracle, opens: nat)
    ensures LeftSet(o, ["a", SUBSTITUTION_START, "b", ">", "f", SUBSTITUTION_END], false, false, opens, false)
            <==> o.grants(opens)
  {
    hide ClosingIndex;
    var body := ["b", ">", "f"];
    var line := ["a", SUBSTITUTION_START] + body + [SUBSTITUTION_END];
    ClosingBehind(body, []);
    assert line[1..][1..] == body + [SUBSTITUTION_END] + [];
    assert line[1..][1..][..3] == body && body[1..] == [">", "f"] && body[1..][2..] == [];
    RedirectedBodyIsRefused(o, opens);
    assert LeftSet(o, line, false, false, opens, false)
        == LeftSetRest(o, line[1..], false, false, false, false, opens, false);
    assert LeftSetRest(o, line[1..], false, false, false, false, opens, false)
        == LeftSet(o, body, true, false, opens, false);
    assert LeftSet(o, body, true, false, opens, false)
        == LeftSetRest(o, body[1..], false, false, true, false, opens, false);
    assert line == ["a", SUBSTITUTION_START, "b", ">", "f", SUBSTITUTION_END];
  }

  lemma RedirectedBodyIsRefused(o: Oracle, opens: nat)
    ensures !BodyAccepted(o, ["b", ">", "f"], opens)
  {
    hide Granted;
    var body := ["b", ">", "f"];
    assert body[1..] == [">", "f"] && body[1..][2..] == [];
    assert ParseRest([]) == Some(Done);
    assert ParseRest(body[1..]) == Some(Redirect(">", "f", Done));
    assert Parse(body) == Some(Pipeline.Stage("b", Redirect(">", "f", Done)));
  }
}
