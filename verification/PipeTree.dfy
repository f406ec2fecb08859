/** The data flow of a command, computed from the syntax tree alone: which call reads and which
    call writes each pipe, and how many pipes lie between a call and the end of the main
    pipeline.  Calls are numbered in the order they are built, pipes in the order they are
    allocated. */
module PipeTree {
  import opened Syntax

  /** How many calls a pipeline builds. */
  function Size(p: Pipeline): (n: nat)
    ensures n > 0
    decreases p
  {
    SizeRest(p.rest) + 1
  }

  function SizeRest(r: Rest): nat
    decreases r
  {
    match r
    case Done => 0
    case Arg(_, q) => SizeRest(q)
    case Redirect(_, _, q) => SizeRest(q)
    case Substitute(body, q) => Size(body) + SizeRest(q)
    case PipeTo(next) => Size(next)
  }

  /** The number of the stage at the head of `p` when the next call to be built has number `a`. */
  function FirstId(p: Pipeline, a: nat): nat {
    a + Size(p) - 1
  }

  /** The number of the last stage of `p`. */
  function LastId(p: Pipeline, a: nat): (id: nat)
    ensures a <= id <= FirstId(p, a)
    decreases p
  {
    LastIdRest(p.rest, a, FirstId(p, a))
  }

  function LastIdRest(r: Rest, a: nat, me: nat): (id: nat)
    ensures id == me || a <= id < a + SizeRest(r)
    decreases r
  {
    match r
    case Done => me
    case Arg(_, q) => LastIdRest(q, a, me)
    case Redirect(_, _, q) => LastIdRest(q, a, me)
    case Substitute(body, q) => LastIdRest(q, a + Size(body), me)
    case PipeTo(next) => LastId(next, a)
  }

  /** The reader of each pipe: a substitution's pipe is read by the call it is an argument of, a
      `|` by the stage on its right. */
  function Readers(p: Pipeline, a: nat): (ids: seq<nat>)
    ensures |ids| == Size(p) - 1
    decreases p
  {
    ReadersRest(p.rest, a, FirstId(p, a))
  }

  function ReadersRest(r: Rest, a: nat, me: nat): (ids: seq<nat>)
    ensures |ids| == SizeRest(r)
    decreases r
  {
    match r
    case Done => []
    case Arg(_, q) => ReadersRest(q, a, me)
    case Redirect(_, _, q) => ReadersRest(q, a, me)
    case Substitute(body, q) => [me] + Readers(body, a) + ReadersRest(q, a + Size(body), me)
    case PipeTo(next) => Readers(next, a) + [FirstId(next, a)]
  }

  /** The writer of each pipe: a substitution's pipe is written by the last stage of its body, a
      `|` by the stage on its left. */
  function Writers(p: Pipeline, a: nat): (ids: seq<nat>)
    ensures |ids| == Size(p) - 1
    decreases p
  {
    WritersRest(p.rest, a, FirstId(p, a))
  }

  function WritersRest(r: Rest, a: nat, me: nat): (ids: seq<nat>)
    ensures |ids| == SizeRest(r)
    decreases r
  {
    match r
    case Done => []
    case Arg(_, q) => WritersRest(q, a, me)
    case Redirect(_, _, q) => WritersRest(q, a, me)
    case Substitute(body, q) => [LastId(body, a)] + Writers(body, a) + WritersRest(q, a + Size(body), me)
    case PipeTo(next) => Writers(next, a) + [me]
  }

  /** How many stages stand to the right of the stage at the head of `r`. */
  function StagesRight(r: Rest): nat
    decreases r
  {
    match r
    case Done => 0
    case Arg(_, q) => StagesRight(q)
    case Redirect(_, _, q) => StagesRight(q)
    case Substitute(_, q) => StagesRight(q)
    case PipeTo(next) => 1 + StagesRight(next.rest)
  }

  /** The distance of each call, in pipes, from the end of the main pipeline, when the last stage
      of `p` is at distance `base`. */
  function Ranks(p: Pipeline, base: nat): (ks: seq<nat>)
    ensures |ks| == Size(p)
    decreases p
  {
    RanksRest(p.rest, base) + [base + StagesRight(p.rest)]
  }

  function RanksRest(r: Rest, base: nat): (ks: seq<nat>)
    ensures |ks| == SizeRest(r)
    decreases r
  {
    match r
    case Done => []
    case Arg(_, q) => RanksRest(q, base)
    case Redirect(_, _, q) => RanksRest(q, base)
    case Substitute(body, q) => Ranks(body, base + StagesRight(q) + 1) + RanksRest(q, base)
    case PipeTo(next) => Ranks(next, base)
  }

  /** The indices, counted from `q`, at which `ids` names `c`. */
  function Positions(ids: seq<nat>, q: nat, c: nat): (ps: seq<nat>)
    ensures forall k | 0 <= k < |ps| :: q <= ps[k] < q + |ids| && ids[ps[k] - q] == c
  {
    if ids == [] then []
    else
      var n := |ids| - 1;
      Positions(ids[..n], q, c) + if ids[n] == c then [q + n] else []
  }

  lemma NoneInEmpty(q: nat, c: nat)
    ensures Positions([], q, c) == []
  {
  }

  /** The positions in the flow of the stages on the right of a `|`. */
  lemma PositionsBefore(ys: seq<nat>, x: nat, q: nat, c: nat)
    ensures Positions(ys + [x], q, c) == Positions(ys, q, c) + if x == c then [q + |ys|] else []
  {
    assert (ys + [x])[..|ys|] == ys;
  }

  lemma {:induction false} PositionsConcat(xs: seq<nat>, ys: seq<nat>, q: nat, c: nat)
    ensures Positions(xs + ys, q, c) == Positions(xs, q, c) + Positions(ys, q + |xs|, c)
  {
    hide Positions;
    if ys == [] {
      assert xs + ys == xs;
      NoneInEmpty(q + |xs|, c);
    } else {
      var n := |ys| - 1;
      PositionsConcat(xs, ys[..n], q, c);
      PositionsBefore(xs + ys[..n], ys[n], q, c);
      PositionsBefore(ys[..n], ys[n], q + |xs|, c);
      assert xs + ys[..n] + [ys[n]] == xs + ys && ys[..n] + [ys[n]] == ys;
    }
  }

  /** The positions in the flow of a substitution followed by the rest of its stage. */
  lemma PositionsAround(x: nat, ys: seq<nat>, zs: seq<nat>, q: nat, c: nat)
    ensures Positions([x] + ys + zs, q, c)
         == (if x == c then [q] else []) + Positions(ys, q + 1, c) + Positions(zs, q + 1 + |ys|, c)
  {
    assert [x][..0] == [];
    PositionsConcat([x], ys, q, c);
    PositionsConcat([x] + ys, zs, q, c);
  }

  lemma {:induction false} PositionsAreComplete(ids: seq<nat>, q: nat, i: nat)
    requires i < |ids|
    ensures forall c: nat :: q + i in Positions(ids, q, c) <==> ids[i] == c
  {
    var n := |ids| - 1;
    if i < n {
      PositionsAreComplete(ids[..n], q, i);
    }
  }

  /** Only the pipeline's own calls take part in its flow. */
  lemma {:induction false} NoFlowOutside(p: Pipeline, a: nat, q: nat, c: nat)
    requires !(a <= c < a + Size(p))
    ensures Positions(Readers(p, a), q, c) == [] && Positions(Writers(p, a), q, c) == []
    decreases p
  {
    NoFlowOutsideRest(p.rest, a, FirstId(p, a), q, c);
  }

  lemma {:induction false} NoFlowOutsideRest(r: Rest, a: nat, me: nat, q: nat, c: nat)
    requires me >= a + SizeRest(r)
    requires c != me && !(a <= c < a + SizeRest(r))
    ensures Positions(ReadersRest(r, a, me), q, c) == [] && Positions(WritersRest(r, a, me), q, c) == []
    decreases r
  {
    hide Positions; hide Readers; hide Writers; hide Size; hide LastId;
    NoneInEmpty(q, c);
    match r
    case Done =>
    case Arg(_, s) => NoFlowOutsideRest(s, a, me, q, c);
    case Redirect(_, _, s) => NoFlowOutsideRest(s, a, me, q, c);
    case Substitute(body, s) =>
      PositionsAround(me, Readers(body, a), ReadersRest(s, a + Size(body), me), q, c);
      PositionsAround(LastId(body, a), Writers(body, a), WritersRest(s, a + Size(body), me), q, c);
      NoFlowOutside(body, a, q + 1, c);
      NoFlowOutsideRest(s, a + Size(body), me, q + Size(body), c);
    case PipeTo(next) =>
      PositionsBefore(Readers(next, a), FirstId(next, a), q, c);
      PositionsBefore(Writers(next, a), me, q, c);
      NoFlowOutside(next, a, q, c);
  }

  /** Every call writes one pipe, except the last stage, which writes none. */
  lemma {:induction false} WritesOnce(p: Pipeline, a: nat, q: nat, c: nat)
    requires a <= c < a + Size(p)
    ensures |Positions(Writers(p, a), q, c)| == if c == LastId(p, a) then 0 else 1
    decreases p
  {
    WritesOnceRest(p.rest, a, FirstId(p, a), q, c);
  }

  lemma {:induction false} WritesOnceRest(r: Rest, a: nat, me: nat, q: nat, c: nat)
    requires me >= a + SizeRest(r)
    requires c == me || a <= c < a + SizeRest(r)
    ensures |Positions(WritersRest(r, a, me), q, c)| == if c == LastIdRest(r, a, me) then 0 else 1
    decreases r, 1
  {
    hide Positions; hide Readers; hide Writers; hide Size; hide LastId;
    NoneInEmpty(q, c);
    match r
    case Done =>
    case Arg(_, s) => WritesOnceRest(s, a, me, q, c);
    case Redirect(_, _, s) => WritesOnceRest(s, a, me, q, c);
    case Substitute(body, s) => WritesOnceSubstitute(body, s, a, me, q, c);
    case PipeTo(next) =>
      PositionsBefore(Writers(next, a), me, q, c);
      if c == me {
        NoFlowOutside(next, a, q, c);
      } else {
        WritesOnce(next, a, q, c);
      }
  }

  lemma {:induction false} WritesOnceSubstitute(body: Pipeline, s: Rest, a: nat, me: nat, q: nat, c: nat)
    requires me >= a + Size(body) + SizeRest(s)
    requires c == me || a <= c < a + Size(body) + SizeRest(s)
    ensures var ids := [LastId(body, a)] + Writers(body, a) + WritersRest(s, a + Size(body), me);
            |Positions(ids, q, c)| == if c == LastIdRest(s, a + Size(body), me) then 0 else 1
    decreases Substitute(body, s), 0
  {
    hide Positions; hide Writers; hide WritersRest; hide LastId; hide LastIdRest; hide Size; hide SizeRest;
    var end := a + Size(body);
    var ws, zs := Writers(body, a), WritersRest(s, end, me);
    var own := if LastId(body, a) == c then 1 else 0;
    PositionsAround(LastId(body, a), ws, zs, q, c);
    assert |Positions([LastId(body, a)] + ws + zs, q, c)|
        == own + |Positions(ws, q + 1, c)| + |Positions(zs, q + Size(body), c)|;
    if a <= c < end {
      WritesOnce(body, a, q + 1, c);
      NoFlowOutsideRest(s, end, me, q + Size(body), c);
    } else {
      NoFlowOutside(body, a, q + 1, c);
      WritesOnceRest(s, end, me, q + Size(body), c);
    }
  }

  /** `rank` gives the calls numbered from `a` the ranks `ks`. */
  ghost predicate Agrees(rank: nat -> nat, ks: seq<nat>, a: nat) {
    forall i | 0 <= i < |ks| :: rank(a + i) == ks[i]
  }

  /** Each pipe leads one step closer to the end: its writer is one further away than its reader. */
  ghost predicate Descends(rank: nat -> nat, rs: seq<nat>, ws: seq<nat>) {
    |rs| == |ws| && forall i | 0 <= i < |rs| :: rank(ws[i]) == rank(rs[i]) + 1
  }

  lemma DescendsConcat(rank: nat -> nat, rs: seq<nat>, ws: seq<nat>, rs': seq<nat>, ws': seq<nat>)
    requires Descends(rank, rs, ws) && Descends(rank, rs', ws')
    ensures Descends(rank, rs + rs', ws + ws')
  {
  }

  lemma AgreesSplit(rank: nat -> nat, ks: seq<nat>, ks': seq<nat>, a: nat)
    requires Agrees(rank, ks + ks', a)
    ensures Agrees(rank, ks, a) && Agrees(rank, ks', a + |ks|)
  {
    assert forall i | 0 <= i < |ks| :: (ks + ks')[i] == ks[i];
    assert forall i | 0 <= i < |ks'| :: (ks + ks')[|ks| + i] == ks'[i];
    assert forall i | 0 <= i < |ks'| :: rank(a + (|ks| + i)) == ks'[i];
  }

  lemma HeadRank(p: Pipeline, a: nat, base: nat, rank: nat -> nat)
    requires Agrees(rank, Ranks(p, base), a)
    ensures Agrees(rank, RanksRest(p.rest, base), a) && rank(FirstId(p, a)) == base + StagesRight(p.rest)
  {
    var mine := [base + StagesRight(p.rest)];
    AgreesSplit(rank, RanksRest(p.rest, base), mine, a);
    assert rank(a + SizeRest(p.rest) + 0) == mine[0];
  }

  lemma {:induction false} LastHasBaseRank(p: Pipeline, a: nat, base: nat, rank: nat -> nat)
    requires Agrees(rank, Ranks(p, base), a)
    ensures rank(LastId(p, a)) == base
    decreases p
  {
    HeadRank(p, a, base, rank);
    LastHasBaseRankRest(p.rest, a, FirstId(p, a), base, rank);
  }

  lemma {:induction false} LastHasBaseRankRest(r: Rest, a: nat, me: nat, base: nat, rank: nat -> nat)
    requires Agrees(rank, RanksRest(r, base), a) && rank(me) == base + StagesRight(r)
    ensures rank(LastIdRest(r, a, me)) == base
    decreases r
  {
    match r
    case Done =>
    case Arg(_, q) => LastHasBaseRankRest(q, a, me, base, rank);
    case Redirect(_, _, q) => LastHasBaseRankRest(q, a, me, base, rank);
    case Substitute(body, q) =>
      AgreesSplit(rank, Ranks(body, base + StagesRight(q) + 1), RanksRest(q, base), a);
      LastHasBaseRankRest(q, a + Size(body), me, base, rank);
    case PipeTo(next) => LastHasBaseRank(next, a, base, rank);
  }

  lemma {:induction false} FlowDescends(p: Pipeline, a: nat, base: nat, rank: nat -> nat)
    requires Agrees(rank, Ranks(p, base), a)
    ensures Descends(rank, Readers(p, a), Writers(p, a))
    decreases p
  {
    HeadRank(p, a, base, rank);
    FlowDescendsRest(p.rest, a, FirstId(p, a), base, rank);
  }

  lemma {:induction false} FlowDescendsRest(r: Rest, a: nat, me: nat, base: nat, rank: nat -> nat)
    requires Agrees(rank, RanksRest(r, base), a) && rank(me) == base + StagesRight(r)
    ensures Descends(rank, ReadersRest(r, a, me), WritersRest(r, a, me))
    decreases r, 1
  {
    match r
    case Done =>
    case Arg(_, q) => FlowDescendsRest(q, a, me, base, rank);
    case Redirect(_, _, q) => FlowDescendsRest(q, a, me, base, rank);
    case Substitute(body, q) => SubstituteDescends(body, q, a, me, base, rank);
    case PipeTo(next) =>
      HeadRank(next, a, base, rank);
      FlowDescends(next, a, base, rank);
      DescendsConcat(rank, Readers(next, a), Writers(next, a), [FirstId(next, a)], [me]);
  }

  lemma {:induction false} SubstituteDescends(body: Pipeline, q: Rest, a: nat, me: nat, base: nat, rank: nat -> nat)
    requires Agrees(rank, Ranks(body, base + StagesRight(q) + 1) + RanksRest(q, base), a)
    requires rank(me) == base + StagesRight(q)
    ensures Descends(rank, [me] + Readers(body, a) + ReadersRest(q, a + Size(body), me),
                           [LastId(body, a)] + Writers(body, a) + WritersRest(q, a + Size(body), me))
    decreases Substitute(body, q), 0
  {
    var inner := base + StagesRight(q) + 1;
    AgreesSplit(rank, Ranks(body, inner), RanksRest(q, base), a);
    LastHasBaseRank(body, a, inner, rank);
    FlowDescends(body, a, inner, rank);
    FlowDescendsRest(q, a + Size(body), me, base, rank);
    DescendsConcat(rank, [me], [LastId(body, a)], Readers(body, a), Writers(body, a));
    DescendsConcat(rank, [me] + Readers(body, a), [LastId(body, a)] + Writers(body, a),
                   ReadersRest(q, a + Size(body), me), WritersRest(q, a + Size(body), me));
  }

  lemma ReadersAreCalls(p: Pipeline, a: nat, i: nat)
    requires i < Size(p) - 1
    ensures a <= Readers(p, a)[i] < a + Size(p) && a <= Writers(p, a)[i] < a + Size(p)
  {
    var r, w := Readers(p, a)[i], Writers(p, a)[i];
    PositionsAreComplete(Readers(p, a), 0, i);
    PositionsAreComplete(Writers(p, a), 0, i);
    assert 0 + i in Positions(Readers(p, a), 0, r) && 0 + i in Positions(Writers(p, a), 0, w);
    if !(a <= r < a + Size(p)) { NoFlowOutside(p, a, 0, r); }
    if !(a <= w < a + Size(p)) { NoFlowOutside(p, a, 0, w); }
  }
}
