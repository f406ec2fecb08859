/** How segments are read: those that derive from a given tree, and those that are pipelines of plain
    words. */
module PlainLines {
  import opened Options
  import opened Splitting
  import opened Descriptors
  import opened Syntax
  import opened Commands
  import opened Acceptance
  import opened Verdict
  import opened PipeTree
  import opened Plugging
  import opened CommandTree
  import opened Slots
  import opened Lines

  /* Reading lines. */

  /** A line that derives from a tree is accepted, with the calls of that tree. */
  lemma TreeIsAccepted(o: Oracle, segment: string, t: Table, stale: bool, p: Pipeline)
    requires DerivesFrom(o, Words(segment, SPACE), t.opens, stale, p)
    ensures DecideSegment(o, segment, t, stale).Some?
    ensures var r := RunPipeline(o, p, false, false, State(t, [], [], []));
            && r.Some? && DecideSegment(o, segment, t, stale).value.parsed == r.value
            && |r.value.state.pipes| == Size(p) - 1 && |r.value.state.store| == Size(p)
            && HasCalls(DecideSegment(o, segment, t, stale).value) && |Assembled(r.value)| == Size(p)
            && Assembled(r.value)[0].argv == Argv(LastStage(p), r.value.state.pipes, PipesBefore(p, 0))
  {
    hide Decide; hide Words; hide RunPipeline; hide Argv; hide LastStage; hide PipesBefore; hide Size; hide FinalOrder;
    hide StoreWired;
    AcceptsExactlyDerivable(o, Words(segment, SPACE), State(t, [], [], []), stale);
    assert Derivable(o, Words(segment, SPACE), t.opens, stale);
    StoreIsWired(o, p, t);
    SlotZeroIsLastStage(o, p, t);
    var ks := DecidedIsTree(o, segment, t, stale);
    TreeHasOneCallMore(DecideSegment(o, segment, t, stale).value, ks);
  }

  lemma AcceptedOfOne(o: Oracle, t: Table, stale: bool, segment: string)
    ensures Accepted(o, t, stale, [segment]) ==
            match DecideSegment(o, segment, t, stale) case None => [] case Some(d) => [d]
  {
    hide DecideSegment;
    assert [segment][..0] == [];
  }

  lemma AcceptedOfTwo(o: Oracle, t: Table, stale: bool, first: string, second: string)
    requires DecideSegment(o, first, t, stale).Some?
    ensures var d := DecideSegment(o, first, t, stale).value;
            Accepted(o, t, stale, [first, second]) ==
            match DecideSegment(o, second, d.parsed.state.table, d.stale) case None => [d] case Some(e) => [d, e]
  {
    hide DecideSegment;
    AcceptedOfOne(o, t, stale, first);
    assert [first, second][..1] == [first];
  }

  /* Pipelines of plain words. */

  predicate ArePlain(stages: seq<seq<string>>) {
    stages != [] && forall stage | stage in stages :: stage != [] && forall w | w in stage :: !IsSymbol(w)
  }

  /** The tokens of such a pipeline, and its tree. */
  function PlainTokens(stages: seq<seq<string>>): seq<string>
    requires stages != []
  {
    stages[0] + if |stages| == 1 then [] else [PIPE_SYMBOL] + PlainTokens(stages[1..])
  }

  function PlainTree(stages: seq<seq<string>>): Pipeline
    requires ArePlain(stages)
    decreases |stages|, |stages[0]| + 1
  {
    assert stages[0] in stages;
    Pipeline.Stage(stages[0][0], PlainRest(stages[0][1..], stages))
  }

  /** What comes behind the first words of the first stage. */
  function PlainRest(args: seq<string>, stages: seq<seq<string>>): Rest
    requires ArePlain(stages)
    decreases |stages|, |args| + 1
  {
    if args != [] then Arg(args[0], PlainRest(args[1..], stages))
    else if |stages| == 1 then Rest.Done
    else
      assert forall stage | stage in stages[1..] :: stage in stages;
      PipeTo(PlainTree(stages[1..]))
  }

  function Texts(words: seq<string>): seq<Word> {
    seq(|words|, i requires 0 <= i < |words| => Text(words[i]))
  }

  lemma PartsArePlain(stages: seq<seq<string>>)
    requires ArePlain(stages)
    ensures stages[0] != [] && forall w | w in stages[0] :: !IsSymbol(w)
    ensures |stages| > 1 ==> ArePlain(stages[1..]) && stages[1] != []
  {
    hide IsSymbol;
    assert stages[0] in stages;
    assert forall stage | stage in stages[1..] :: stage in stages;
    assert |stages| > 1 ==> stages[1] in stages;
  }

  lemma {:induction false} PlainPrints(args: seq<string>, stages: seq<seq<string>>)
    requires ArePlain(stages) && forall w | w in args :: !IsSymbol(w)
    ensures WellFormedRest(PlainRest(args, stages))
    ensures PrintRest(PlainRest(args, stages))
         == args + if |stages| == 1 then [] else [PIPE_SYMBOL] + PlainTokens(stages[1..])
    decreases |stages|, |args|
  {
    hide IsSymbol;
    PartsArePlain(stages);
    if args != [] {
      PlainPrints(args[1..], stages);
      assert args == [args[0]] + args[1..];
    } else if |stages| > 1 {
      PlainTreePrints(stages[1..]);
    }
  }

  lemma {:induction false} PlainTreePrints(stages: seq<seq<string>>)
    requires ArePlain(stages)
    ensures WellFormed(PlainTree(stages)) && Print(PlainTree(stages)) == PlainTokens(stages)
    decreases |stages|
  {
    hide IsSymbol;
    PartsArePlain(stages);
    assert stages[0] == [stages[0][0]] + stages[0][1..];
    PlainPrints(stages[0][1..], stages);
  }

  /** Nothing in it is redirected or substituted. */
  lemma {:induction false} PlainIsAllowed(args: seq<string>, stages: seq<seq<string>>)
    requires ArePlain(stages)
    ensures var r := PlainRest(args, stages);
            && !Redirects(r, Stdin) && !Redirects(r, Stdout) && PartsAllowed(r)
            && OpensRest(r) == 0 && StagesRest(r) == |stages| && !HasSubstitutionRest(r)
    decreases |stages|, |args|
  {
    hide IsSymbol;
    PartsArePlain(stages);
    if args != [] {
      PlainIsAllowed(args[1..], stages);
    } else if |stages| > 1 {
      PlainIsAllowed(stages[1][1..], stages[1..]);
    }
  }

  /** Its calls are its stages, from the right to the left. */
  lemma {:induction false} PlainIsFlat(args: seq<string>, stages: seq<seq<string>>, a: nat, me: nat)
    requires ArePlain(stages)
    ensures var r := PlainRest(args, stages);
            SizeRest(r) == |stages| - 1 && LastIdRest(r, a, me) == if |stages| == 1 then me else a
    decreases |stages|, |args|
  {
    hide IsSymbol;
    PartsArePlain(stages);
    if args != [] {
      PlainIsFlat(args[1..], stages, a, me);
    } else if |stages| > 1 {
      PlainIsFlat(stages[1][1..], stages[1..], a, a + |stages| - 2);
    }
  }

  lemma {:induction false} PlainArguments(args: seq<string>, stages: seq<seq<string>>, pipes: seq<Pipe>, q: nat, k: nat)
    requires ArePlain(stages)
    ensures var r := PlainRest(args, stages);
            && ArgvRest(r, pipes, q) == Texts(args)
            && (k < |stages| - 1 ==> |ArgvsRest(r, pipes, q)| == |stages| - 1
                                     && ArgvsRest(r, pipes, q)[k] == Texts(stages[|stages| - 1 - k]))
    decreases |stages|, |args|
  {
    hide IsSymbol;
    PartsArePlain(stages);
    if args != [] {
      PlainArguments(args[1..], stages, pipes, q, k);
    } else if |stages| > 1 {
      var less := stages[1..];
      PlainIsFlat(less[0][1..], less, 0, 0);
      PlainArguments(less[0][1..], less, pipes, q, k);
      assert less[0] == [less[0][0]] + less[0][1..];
      assert [Text(less[0][0])] + Texts(less[0][1..]) == Texts(less[0]);
    }
  }

  /** A pipeline of plain words is accepted, unless the substitution global is set and it has more
      than two stages; and its stages stand in the slots from the right to the left. */
  lemma PlainIsAccepted(o: Oracle, segment: string, t: Table, stale: bool, stages: seq<seq<string>>, c: nat)
    requires ArePlain(stages) && Words(segment, SPACE) == PlainTokens(stages)
    ensures DecideSegment(o, segment, t, stale).Some? <==> !stale || |stages| <= 2
    ensures DecideSegment(o, segment, t, stale).Some? ==>
              var d := DecideSegment(o, segment, t, stale).value;
              && HasCalls(d) && |Assembled(d.parsed)| == |stages| && |d.parsed.state.pipes| == |stages| - 1
              && (c < |stages| ==> Assembled(d.parsed)[c].argv == Texts(stages[|stages| - 1 - c]))
  {
    hide Words; hide Decide; hide RunPipeline; hide FinalOrder; hide IsSymbol; hide Print; hide WellFormed;
    hide PlainTree; hide Argvs; hide Size; hide LastStage; hide PipesBefore; hide Argv;
    PlainTreeIsDerived(o, t.opens, stale, stages);
    AcceptsExactlyDerivable(o, Words(segment, SPACE), State(t, [], [], []), stale);
    if !stale || |stages| <= 2 {
      var p := PlainTree(stages);
      TreeIsAccepted(o, segment, t, stale, p);
      PlainTreeArguments(stages, DecideSegment(o, segment, t, stale).value.parsed.state.pipes);
      if c < |stages| {
        SlotIsStage(o, p, t, c);
      }
    }
  }

  lemma PlainTreeIsDerived(o: Oracle, opens: nat, stale: bool, stages: seq<seq<string>>)
    requires ArePlain(stages)
    ensures Derivable(o, PlainTokens(stages), opens, stale) <==> !stale || |stages| <= 2
    ensures !stale || |stages| <= 2 ==> DerivesFrom(o, PlainTokens(stages), opens, stale, PlainTree(stages))
  {
    hide IsSymbol; hide Print; hide WellFormed; hide PlainTokens; hide PlainRest;
    PartsArePlain(stages);
    PlainTreePrints(stages);
    PlainIsAllowed(stages[0][1..], stages);
    OnlyTreeDerives(o, PlainTokens(stages), opens, stale, PlainTree(stages));
  }

  lemma PlainTreeArguments(stages: seq<seq<string>>, pipes: seq<Pipe>)
    requires ArePlain(stages)
    ensures Size(PlainTree(stages)) == |stages|
    ensures forall c | 0 <= c < |stages| ::
              Argvs(PlainTree(stages), pipes, 0)[CallInSlot(PlainTree(stages), c)] == Texts(stages[|stages| - 1 - c])
  {
    PartsArePlain(stages);
    PlainIsFlat(stages[0][1..], stages, 0, |stages| - 1);
    assert [Text(stages[0][0])] + Texts(stages[0][1..]) == Texts(stages[0]);
    forall c | 0 <= c < |stages|
      ensures Argvs(PlainTree(stages), pipes, 0)[CallInSlot(PlainTree(stages), c)] == Texts(stages[|stages| - 1 - c])
    {
      PlainArguments(stages[0][1..], stages, pipes, 0, c);
    }
  }

  /** A single stage of plain words. */
  lemma WordsAreAccepted(o: Oracle, segment: string, t: Table, stale: bool, words: seq<string>) returns (d: Decision)
    requires Words(segment, SPACE) == words != [] && forall w | w in words :: !IsSymbol(w)
    ensures DecideSegment(o, segment, t, stale) == Some(d)
    ensures HasCalls(d) && |Assembled(d.parsed)| == 1 && Assembled(d.parsed)[0].argv == Texts(words)
  {
    hide Words; hide DecideSegment; hide IsSymbol; hide FinalOrder; hide Assembled;
    assert forall stage | stage in [words] :: stage == words;
    PlainIsAccepted(o, segment, t, stale, [words], 0);
    d := DecideSegment(o, segment, t, stale).value;
  }
}
