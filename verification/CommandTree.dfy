/** The shape of a parsed command: its calls and pipes form a tree of data flow rooted at slot 0. */
module CommandTree {
  import opened Descriptors
  import opened Syntax
  import opened Commands
  import opened Listing
  import opened PipeTree
  import opened Wiring
  import opened Plugging

  function CallsInOrder(store: seq<Call>, order: seq<nat>): (calls: seq<Call>)
    requires forall id | id in order :: id < |store|
    ensures |calls| == |order|
  {
    seq(|order|, i requires 0 <= i < |order| => assert order[i] in order; store[order[i]])
  }

  predicate IsOnlyReader(calls: seq<Call>, i: nat, r: nat) {
    && r < |calls| && i in calls[r].reading
    && forall c | 0 <= c < |calls| && c != r :: i !in calls[c].reading
  }

  predicate IsOnlyWriter(calls: seq<Call>, i: nat, w: nat) {
    && w < |calls| && i in calls[w].writing
    && forall c | 0 <= c < |calls| && c != w :: i !in calls[c].writing
  }

  ghost predicate HasReaderAndWriter(calls: seq<Call>, pipe: Pipe, i: nat) {
    exists r: nat, w: nat :: IsOnlyReader(calls, i, r) && IsOnlyWriter(calls, i, w) && Plugged(calls, pipe, r, w)
  }

  /** A call writes one pipe at most, and reads pipe after pipe. */
  predicate Ordered(calls: seq<Call>, c: nat)
    requires c < |calls|
  {
    && NoRepeats(calls[c].reading)
    && |calls[c].writing| == if c == 0 then 0 else 1
  }

  ghost predicate InRange(calls: seq<Call>, pipes: seq<Pipe>) {
    forall c, i: nat | 0 <= c < |calls| && (i in calls[c].reading || i in calls[c].writing) :: i < |pipes|
  }

  /** The writer of a pipe is one step further from slot 0 than its reader. */
  ghost predicate Ranked(calls: seq<Call>, ks: seq<nat>) {
    && |ks| == |calls|
    && forall c, r, i: nat | 0 <= c < |calls| && 0 <= r < |calls| && i in calls[c].writing && i in calls[r].reading ::
         ks[c] == ks[r] + 1
  }

  ghost predicate IsPipeTree(calls: seq<Call>, pipes: seq<Pipe>, ks: seq<nat>) {
    && |calls| == |pipes| + 1
    && (forall c: nat | c < |calls| :: Ordered(calls, c))
    && (forall i: nat | i < |pipes| :: HasReaderAndWriter(calls, pipes[i], i))
    && InRange(calls, pipes)
    && Ranked(calls, ks) && ks[0] == 0
  }

  /** Following writer to reader from slot `c` leads to slot 0 after `n` pipes. */
  ghost predicate LeadsToFirst(calls: seq<Call>, c: nat, n: nat)
    decreases n
  {
    if n == 0 then c == 0
    else
      && 0 < c < |calls| && |calls[c].writing| == 1
      && exists r: nat :: IsOnlyReader(calls, calls[c].writing[0], r) && LeadsToFirst(calls, r, n - 1)
  }

  /** The rank of a call is its distance from slot 0, which every call has. */
  lemma {:induction false} EveryCallLeadsToFirst(calls: seq<Call>, pipes: seq<Pipe>, ks: seq<nat>, c: nat, n: nat)
    requires IsPipeTree(calls, pipes, ks) && c < |calls|
    ensures LeadsToFirst(calls, c, n) <==> n == ks[c]
    decreases ks[c], n
  {
    if c > 0 {
      assert Ordered(calls, c);
      var i := calls[c].writing[0];
      assert i in calls[c].writing;
      assert HasReaderAndWriter(calls, pipes[i], i);
      var r: nat, w: nat :| IsOnlyReader(calls, i, r) && IsOnlyWriter(calls, i, w) && Plugged(calls, pipes[i], r, w);
      assert ks[c] == ks[r] + 1;
      if n > 0 {
        EveryCallLeadsToFirst(calls, pipes, ks, r, n - 1);
      }
    }
  }

  lemma {:induction false} PositionsDoNotRepeat(ids: seq<nat>, q: nat, c: nat)
    ensures NoRepeats(Positions(ids, q, c))
  {
    if ids != [] {
      var n := |ids| - 1;
      PositionsDoNotRepeat(ids[..n], q, c);
      var ps := Positions(ids[..n], q, c);
      if ids[n] == c {
        assert (ps + [q + n])[..|ps|] == ps;
      } else {
        assert ps + [] == ps;
      }
    }
  }

  lemma PositionsMember(ids: seq<nat>, i: nat, c: nat)
    ensures i in Positions(ids, 0, c) <==> i < |ids| && ids[i] == c
  {
    hide Positions;
    if i < |ids| {
      PositionsAreComplete(ids, 0, i);
      assert 0 + i == i;
    }
  }

  /** The store wired as computed from the tree. */
  ghost predicate StoreWired(store: seq<Call>, rs: seq<nat>, ws: seq<nat>) {
    forall id: nat | id < |store| :: Wired(store[id], [], [], rs, ws, 0, id)
  }

  lemma StoreIsWired(o: Oracle, p: Pipeline, t: Table)
    requires RunPipeline(o, p, false, false, State(t, [], [], [])).Some?
    ensures var r := RunPipeline(o, p, false, false, State(t, [], [], [])).value;
            && |r.state.store| == Size(p) && |r.state.pipes| == Size(p) - 1
            && r.last == LastId(p, 0)
            && StoreWired(r.state.store, Readers(p, 0), Writers(p, 0))
  {
    hide RunPipeline; hide Wired; hide Readers; hide Writers; hide Size; hide LastId;
    var st := State(t, [], [], []);
    PipelineSizes(o, p, false, false, st);
    var store := RunPipeline(o, p, false, false, st).value.state.store;
    forall id: nat | id < |store|
      ensures Wired(store[id], [], [], Readers(p, 0), Writers(p, 0), 0, id)
    {
      PipelineWiring(o, p, false, false, st, id);
    }
  }

  /** The calls of `store`, slot by slot, and the flow of the tree. */
  ghost predicate Laid(store: seq<Call>, order: seq<nat>, pipes: seq<Pipe>, rs: seq<nat>, ws: seq<nat>) {
    && |rs| == |ws| == |pipes| == |store| - 1
    && StoreWired(store, rs, ws)
    && NoRepeats(order) && (forall id: nat :: id in order <==> id < |store|)
    && (forall i | 0 <= i < |rs| :: rs[i] < |store| && ws[i] < |store|)
  }

  lemma SlotFlow(store: seq<Call>, order: seq<nat>, pipes: seq<Pipe>, rs: seq<nat>, ws: seq<nat>, c: nat, i: nat)
    requires Laid(store, order, pipes, rs, ws) && c < |order|
    ensures i in CallsInOrder(store, order)[c].reading <==> i < |rs| && rs[i] == order[c]
    ensures i in CallsInOrder(store, order)[c].writing <==> i < |ws| && ws[i] == order[c]
    ensures NoRepeats(CallsInOrder(store, order)[c].reading)
  {
    hide Positions; hide NoRepeats;
    var id := order[c];
    assert id in order;
    assert Wired(store[id], [], [], rs, ws, 0, id);
    assert [] + Positions(rs, 0, id) == Positions(rs, 0, id);
    assert [] + Positions(ws, 0, id) == Positions(ws, 0, id);
    PositionsMember(rs, i, id);
    PositionsMember(ws, i, id);
    PositionsDoNotRepeat(rs, 0, id);
  }

  lemma SlotOf(store: seq<Call>, order: seq<nat>, pipes: seq<Pipe>, rs: seq<nat>, ws: seq<nat>, id: nat)
    returns (c: nat)
    requires Laid(store, order, pipes, rs, ws) && id < |store|
    ensures c < |order| && order[c] == id && forall d: nat | d < |order| && order[d] == id :: d == c
  {
    hide NoRepeats; hide StoreWired;
    assert id in order;
    c :| 0 <= c < |order| && order[c] == id;
    forall d: nat | d < |order| && order[d] == id
      ensures d == c
    {
      NoRepeatsIsInjective(order, c, d);
    }
  }

  lemma PipeHasReaderAndWriter(store: seq<Call>, order: seq<nat>, pipes: seq<Pipe>, rs: seq<nat>, ws: seq<nat>, i: nat)
    requires Laid(store, order, pipes, rs, ws) && i < |pipes|
    requires Plugged(store, pipes[i], rs[i], ws[i])
    ensures HasReaderAndWriter(CallsInOrder(store, order), pipes[i], i)
  {
    hide NoRepeats; hide StoreWired;
    var calls := CallsInOrder(store, order);
    var r := SlotOf(store, order, pipes, rs, ws, rs[i]);
    var w := SlotOf(store, order, pipes, rs, ws, ws[i]);
    forall c: nat | c < |calls|
      ensures (i in calls[c].reading <==> c == r) && (i in calls[c].writing <==> c == w)
    {
      SlotFlow(store, order, pipes, rs, ws, c, i);
    }
    assert IsOnlyReader(calls, i, r) && IsOnlyWriter(calls, i, w);
    assert Plugged(calls, pipes[i], r, w);
  }

  lemma SlotsAreRanked(store: seq<Call>, order: seq<nat>, pipes: seq<Pipe>, rs: seq<nat>, ws: seq<nat>,
                       rank: nat -> nat, ks: seq<nat>)
    requires Laid(store, order, pipes, rs, ws) && Descends(rank, rs, ws)
    requires |ks| == |order| && forall c | 0 <= c < |ks| :: ks[c] == rank(order[c])
    ensures Ranked(CallsInOrder(store, order), ks) && InRange(CallsInOrder(store, order), pipes)
  {
    hide NoRepeats; hide StoreWired;
    var calls := CallsInOrder(store, order);
    forall c: nat, r: nat, i: nat | c < |calls| && r < |calls| && i in calls[c].writing && i in calls[r].reading
      ensures ks[c] == ks[r] + 1
    {
      SlotFlow(store, order, pipes, rs, ws, c, i);
      SlotFlow(store, order, pipes, rs, ws, r, i);
    }
    forall c: nat, i: nat | c < |calls| && (i in calls[c].reading || i in calls[c].writing)
      ensures i < |pipes|
    {
      SlotFlow(store, order, pipes, rs, ws, c, i);
    }
  }

  /** The command of an accepted line. */
  function Assembled(parsed: Parsed): seq<Call>
    requires parsed.last < |parsed.state.store|
    requires forall id | id in FinalOrder(parsed) :: id < |parsed.state.store|
  {
    CallsInOrder(parsed.state.store, FinalOrder(parsed))
  }

  lemma SlotWritesOnce(o: Oracle, p: Pipeline, t: Table, c: nat)
    requires RunPipeline(o, p, false, false, State(t, [], [], [])).Some?
    ensures var r := RunPipeline(o, p, false, false, State(t, [], [], [])).value;
            && |r.state.store| == Size(p)
            && (forall id | id in FinalOrder(r) :: id < |r.state.store|)
            && (c < |FinalOrder(r)| ==>
                  |Assembled(r)[c].writing| == if c == 0 then 0 else 1)
  {
    hide RunPipeline; hide Positions; hide NoRepeats; hide Readers; hide Writers; hide Size; hide LastId;
    var st := State(t, [], [], []);
    var r := RunPipeline(o, p, false, false, st).value;
    StoreIsWired(o, p, t);
    FinalOrderIsComplete(o, p, st);
    var order := FinalOrder(r);
    if c < |order| {
      var id := order[c];
      assert id in order;
      assert Wired(r.state.store[id], [], [], Readers(p, 0), Writers(p, 0), 0, id);
      assert [] + Positions(Writers(p, 0), 0, id) == Positions(Writers(p, 0), 0, id);
      WritesOnce(p, 0, 0, id);
      if id == r.last {
        NoRepeatsIsInjective(order, c, 0);
      }
    }
  }

  /** Every accepted line is a tree of pipes rooted at slot 0, with the distances of the syntax tree. */
  lemma CommandIsPipeTree(o: Oracle, p: Pipeline, t: Table)
    returns (ks: seq<nat>)
    requires RunPipeline(o, p, false, false, State(t, [], [], [])).Some?
    ensures var r := RunPipeline(o, p, false, false, State(t, [], [], [])).value;
            && (forall id | id in FinalOrder(r) :: id < |r.state.store|)
            && IsPipeTree(Assembled(r), r.state.pipes, ks)
  {
    hide RunPipeline; hide Positions; hide NoRepeats; hide Readers; hide Writers; hide Size; hide LastId;
    hide StoreWired; hide Ranked; hide InRange; hide HasReaderAndWriter; hide Plugged; hide Descends; hide Ranks;
    hide Agrees;
    var st := State(t, [], [], []);
    var r := RunPipeline(o, p, false, false, st).value;
    var store, order, pipes := r.state.store, FinalOrder(r), r.state.pipes;
    var rs, ws := Readers(p, 0), Writers(p, 0);
    StoreIsWired(o, p, t);
    FinalOrderIsComplete(o, p, st);
    PermutationLength(order, |store|);
    forall i: nat | i < |rs|
      ensures rs[i] < |store| && ws[i] < |store|
    {
      ReadersAreCalls(p, 0, i);
    }
    assert Laid(store, order, pipes, rs, ws);
    forall i: nat | i < |pipes|
      ensures HasReaderAndWriter(Assembled(r), pipes[i], i)
    {
      PipelinePlugs(o, p, false, false, st, i);
      PipeHasReaderAndWriter(store, order, pipes, rs, ws, i);
    }
    forall c: nat | c < |order|
      ensures Ordered(Assembled(r), c)
    {
      SlotWritesOnce(o, p, t, c);
      SlotFlow(store, order, pipes, rs, ws, c, 0);
    }
    var rank := TreeRank(p);
    ks := seq(|order|, c requires 0 <= c < |order| => rank(order[c]));
    SlotsAreRanked(store, order, pipes, rs, ws, rank, ks);
  }

  lemma TreeRank(p: Pipeline) returns (rank: nat -> nat)
    ensures Descends(rank, Readers(p, 0), Writers(p, 0)) && rank(LastId(p, 0)) == 0
  {
    var ks := Ranks(p, 0);
    rank := (id: nat) => if id < |ks| then ks[id] else 0;
    LastHasBaseRank(p, 0, 0, rank);
    FlowDescends(p, 0, 0, rank);
  }
}
