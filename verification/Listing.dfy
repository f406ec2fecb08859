/** No call is lost and none is listed twice; and behind the last stage, which comes first, the calls
    stand in the order in which they were built. */
module Listing {
  import opened Descriptors
  import opened Syntax
  import opened Commands

  predicate NoRepeats(ids: seq<nat>) {
    ids == [] || (ids[|ids| - 1] !in ids[..|ids| - 1] && NoRepeats(ids[..|ids| - 1]))
  }

  /** `ids` lists each number of the interval once, except those in `absent`. */
  ghost predicate Lists(ids: seq<nat>, from: nat, to: nat, absent: set<nat>) {
    && NoRepeats(ids)
    && forall id: nat :: id in ids <==> from <= id < to && id !in absent
  }

  predicate Ascending(ids: seq<nat>) {
    forall i, j | 0 <= i < j < |ids| :: ids[i] < ids[j]
  }

  lemma AscendingConcat(xs: seq<nat>, ys: seq<nat>)
    requires Ascending(xs) && Ascending(ys)
    requires forall x, y | x in xs && y in ys :: x < y
    ensures Ascending(xs + ys)
  {
    forall i, j | 0 <= i < j < |xs + ys|
      ensures (xs + ys)[i] < (xs + ys)[j]
    {
      if i < |xs| <= j {
        assert xs[i] in xs && ys[j - |xs|] in ys;
      }
    }
  }

  lemma LastIsGreatest(ids: seq<nat>)
    requires Ascending(ids) && ids != []
    ensures forall id | id in ids :: id <= ids[|ids| - 1]
    ensures forall id: nat :: id in ids[..|ids| - 1] <==> id in ids && id != ids[|ids| - 1]
  {
    assert ids == ids[..|ids| - 1] + [ids[|ids| - 1]];
  }

  lemma {:induction false} NoRepeatsConcat(xs: seq<nat>, ys: seq<nat>)
    requires NoRepeats(xs) && NoRepeats(ys)
    requires forall x | x in xs :: x !in ys
    ensures NoRepeats(xs + ys)
  {
    if ys == [] {
      assert xs + ys == xs;
    } else {
      var n := |ys| - 1;
      assert forall x | x in ys[..n] :: x in ys;
      NoRepeatsConcat(xs, ys[..n]);
      assert (xs + ys)[..|xs| + n] == xs + ys[..n];
      assert ys[n] in ys;
    }
  }

  lemma ListsConcat(xs: seq<nat>, ys: seq<nat>, from: nat, mid: nat, to: nat, absent: set<nat>)
    requires from <= mid <= to && Lists(xs, from, mid, {}) && Lists(ys, mid, to, absent)
    requires forall id | id in absent :: mid <= id
    ensures Lists(xs + ys, from, to, absent)
  {
    NoRepeatsConcat(xs, ys);
  }

  lemma ListsSnoc(xs: seq<nat>, from: nat, to: nat, absent: set<nat>, id: nat)
    requires Lists(xs, from, to, absent) && from <= id < to && id in absent
    ensures Lists(xs + [id], from, to, absent - {id})
  {
    assert (xs + [id])[..|xs|] == xs;
  }

  /** Not in the array yet: the first stage and, for the main pipeline, its last stage. */
  function Unlisted(parsed: Parsed, inside: bool): set<nat>
    requires parsed.last < |parsed.state.store|
  {
    if inside then {First(parsed)} else {First(parsed), parsed.last}
  }

  /** The calls of this pipeline that have been listed. */
  lemma {:induction false} PipelineListing(o: Oracle, p: Pipeline, inside: bool, piped: bool, st: State)
    returns (ids: seq<nat>)
    requires RunPipeline(o, p, inside, piped, st).Some?
    ensures var r := RunPipeline(o, p, inside, piped, st).value;
            && r.state.order == st.order + ids
            && Lists(ids, |st.store|, |r.state.store|, Unlisted(r, inside)) && Ascending(ids)
    decreases p
  {
    ids := RestListing(o, p.rest, NewBuilder(p.name), inside, piped, st);
  }

  lemma {:induction false} RestListing(o: Oracle, r: Rest, b: Builder, inside: bool, piped: bool, st: State)
    returns (ids: seq<nat>)
    requires RunRest(o, r, b, inside, piped, st).Some?
    ensures var res := RunRest(o, r, b, inside, piped, st).value;
            && res.state.order == st.order + ids
            && Lists(ids, |st.store|, |res.state.store|, Unlisted(res, inside)) && Ascending(ids)
    decreases r, 1
  {
    hide RunRest; hide RunPipeline; hide Fresh; hide NewPipe; hide Lists;
    match r
    case Done =>
      RunDone(o, b, inside, piped, st);
      ids := [];
      ListsNone(|st.store|, Unlisted(RunRest(o, r, b, inside, piped, st).value, inside));
    case Arg(w, q) =>
      RunArg(o, w, q, b, inside, piped, st);
      ids := RestListing(o, q, b.(argv := b.argv + [Text(w)]), inside, piped, st);
    case Redirect(op, file, q) =>
      RunRedirect(o, op, file, q, b, inside, piped, st);
      ids := RestListing(o, q, WithFd(b, StreamOf(op), Fresh(o, st.table)), inside, piped,
                         st.(table := Reopened(o, st.table, b, op, file)));
    case Substitute(_, _) =>
      ids := SubstituteListing(o, r, b, inside, piped, st);
    case PipeTo(next) =>
      RunPipeTo(o, next, b, inside, piped, st);
      var parsed := RunPipeline(o, next, inside, true, st).value;
      ids := PipelineListing(o, next, inside, true, st);
      var c := First(parsed);
      var absent := Unlisted(parsed, inside);
      if inside || c != parsed.last {
        ListsSnoc(ids, |st.store|, c + 1, absent, c);
        ListsBelow(ids, |st.store|, c + 1, absent, c);
        AscendingConcat(ids, [c]);
        ids, absent := ids + [c], absent - {c};
      }
      ListsUpToNext(ids, |st.store|, c + 1, absent);
      assert absent + {c + 1} == Unlisted(RunRest(o, r, b, inside, piped, st).value, inside);
  }

  /** The newest call comes behind those listed before. */
  lemma ListsBelow(ids: seq<nat>, from: nat, to: nat, absent: set<nat>, id: nat)
    requires Lists(ids, from, to, absent) && id + 1 == to && id in absent
    ensures forall x | x in ids :: x < id
  {
  }

  lemma ListsNone(from: nat, absent: set<nat>)
    requires from in absent
    ensures Lists([], from, from + 1, absent)
  {
  }

  lemma ListsUpToNext(ids: seq<nat>, from: nat, to: nat, absent: set<nat>)
    requires from <= to && Lists(ids, from, to, absent)
    ensures Lists(ids, from, to + 1, absent + {to})
  {
  }

  lemma {:induction false} SubstituteListing(o: Oracle, r: Rest, b: Builder, inside: bool, piped: bool, st: State)
    returns (ids: seq<nat>)
    requires r.Substitute? && RunRest(o, r, b, inside, piped, st).Some?
    ensures var res := RunRest(o, r, b, inside, piped, st).value;
            && res.state.order == st.order + ids
            && Lists(ids, |st.store|, |res.state.store|, Unlisted(res, inside)) && Ascending(ids)
    decreases r, 0
  {
    hide RunRest; hide RunPipeline; hide Fresh; hide NewPipe; hide Lists;
    RunSubstitute(o, r.body, r.rest, b, inside, piped, st);
    var parsed := RunPipeline(o, r.body, true, false, WithPipe(o, st)).value;
    var xs := PipelineListing(o, r.body, true, false, WithPipe(o, st));
    var c := First(parsed);
    ListsSnoc(xs, |st.store|, c + 1, {c}, c);
    assert {c} - {c} == {};
    var pipe, index := NewPipe(o, st.table), |st.pipes|;
    var ys := RestListing(o, r.rest, AfterBody(b, pipe, index), inside, piped, WithBody(parsed, pipe, index));
    var res := RunRest(o, r, b, inside, piped, st).value;
    ListsConcat(xs + [c], ys, |st.store|, c + 1, |res.state.store|, Unlisted(res, inside));
    ListsBelow(xs, |st.store|, c + 1, {c}, c);
    AscendingConcat(xs, [c]);
    ListsApart(xs + [c], ys, |st.store|, c + 1, |res.state.store|, Unlisted(res, inside));
    AscendingConcat(xs + [c], ys);
    ids := xs + [c] + ys;
  }

  lemma ListsApart(xs: seq<nat>, ys: seq<nat>, from: nat, mid: nat, to: nat, absent: set<nat>)
    requires Lists(xs, from, mid, {}) && Lists(ys, mid, to, absent)
    ensures forall x, y | x in xs && y in ys :: x < y
  {
  }

  /** The finished command lists every call of the line exactly once, the last stage in slot 0 and the
      others behind it in the order in which they were built. */
  lemma {:induction false} FinalOrderIsComplete(o: Oracle, p: Pipeline, st: State)
    requires st.store == [] && st.order == []
    requires RunPipeline(o, p, false, false, st).Some?
    ensures var r := RunPipeline(o, p, false, false, st).value;
            && NoRepeats(FinalOrder(r)) && FinalOrder(r)[0] == r.last
            && (forall id: nat :: id in FinalOrder(r) <==> id < |r.state.store|)
            && Ascending(FinalOrder(r)[1..])
  {
    hide RunPipeline; hide Ascending; hide NoRepeats; hide Lists; hide FinalOrder;
    var ids := PipelineListing(o, p, false, false, st);
    assert [] + ids == ids;
    OrderOfListed(RunPipeline(o, p, false, false, st).value, ids);
  }

  lemma OrderOfListed(r: Parsed, ids: seq<nat>)
    requires r.last < |r.state.store| && r.state.order == ids
    requires Lists(ids, 0, |r.state.store|, Unlisted(r, false)) && Ascending(ids)
    ensures NoRepeats(FinalOrder(r)) && FinalOrder(r)[0] == r.last
    ensures forall id: nat :: id in FinalOrder(r) <==> id < |r.state.store|
    ensures Ascending(FinalOrder(r)[1..])
  {
    hide Ascending; hide NoRepeats; hide Lists;
    EndsAround(ids, |r.state.store|, r.last, First(r));
    assert FinalOrder(r)[1..] == ids + if First(r) != r.last then [First(r)] else [];
  }

  lemma EndsAround(ids: seq<nat>, to: nat, last: nat, first: nat)
    requires Lists(ids, 0, to, {first, last}) && Ascending(ids) && last <= first && first + 1 == to
    ensures var all := [last] + ids + if first != last then [first] else [];
            && NoRepeats(all) && (forall id: nat :: id in all <==> id < to)
            && Ascending(ids + if first != last then [first] else [])
  {
    ListsBelow(ids, 0, to, {first, last}, first);
    AscendingConcat(ids, [first]);
    assert NoRepeats([last]) by { assert [last][..0] == []; }
    NoRepeatsConcat([last], ids);
    if first != last {
      assert ([last] + ids + [first])[..|ids| + 1] == [last] + ids;
    } else {
      assert ids + [] == ids && [last] + ids + [] == [last] + ids;
    }
  }

  lemma {:induction false} NoRepeatsIsInjective(ids: seq<nat>, i: nat, j: nat)
    requires NoRepeats(ids) && i < |ids| && j < |ids| && ids[i] == ids[j]
    ensures i == j
  {
    var n := |ids| - 1;
    if i < n && j < n {
      NoRepeatsIsInjective(ids[..n], i, j);
    }
  }

  function Members(ids: seq<nat>): set<nat> {
    set id | id in ids
  }

  lemma {:induction false} NoRepeatsLength(ids: seq<nat>)
    requires NoRepeats(ids)
    ensures |Members(ids)| == |ids|
  {
    if ids != [] {
      var n := |ids| - 1;
      NoRepeatsLength(ids[..n]);
      assert Members(ids) == Members(ids[..n]) + {ids[n]};
    }
  }

  lemma {:induction false} BelowLength(s: set<nat>, n: nat)
    requires forall id: nat :: id in s <==> id < n
    ensures |s| == n
  {
    if n == 0 {
      assert s == {};
    } else {
      BelowLength(s - {n - 1}, n - 1);
      assert s == (s - {n - 1}) + {n - 1};
    }
  }

  /** A list without repeats of the numbers below `n` has `n` entries. */
  lemma PermutationLength(ids: seq<nat>, n: nat)
    requires NoRepeats(ids) && forall id: nat :: id in ids <==> id < n
    ensures |ids| == n
  {
    NoRepeatsLength(ids);
    BelowLength(Members(ids), n);
  }

  lemma SomeMember(ids: seq<nat>)
    ensures ids == [] || exists id: nat :: id in ids
  {
    assert ids == [] || ids[0] in ids;
  }

  /** An ascending list of all numbers below `n` but one. */
  lemma {:induction false} AscendingIsDetermined(ids: seq<nat>, n: nat, absent: nat)
    requires Ascending(ids) && absent < n && forall id: nat :: id in ids <==> id < n && id != absent
    ensures |ids| == n - 1
    ensures forall i | 0 <= i < |ids| :: ids[i] == if i < absent then i else i + 1
    decreases n
  {
    if n > 1 {
      var top := if absent == n - 1 then n - 2 else n - 1;
      assert top in ids;
      LastIsGreatest(ids);
      var last := ids[|ids| - 1];
      assert last in ids && last == top;
      var less, gone := ids[..|ids| - 1], if absent == n - 1 then n - 2 else absent;
      forall id: nat
        ensures id in less <==> id < n - 1 && id != gone
      {
        assert id in less <==> id in ids && id != last;
        assert id in ids <==> id < n && id != absent;
      }
      AscendingIsDetermined(less, n - 1, gone);
    } else {
      SomeMember(ids);
    }
  }

  lemma BehindFirst(ids: seq<nat>)
    requires NoRepeats(ids) && ids != []
    ensures forall id: nat :: id in ids[1..] <==> id in ids && id != ids[0]
  {
    assert ids == [ids[0]] + ids[1..];
    forall i | 1 <= i < |ids|
      ensures ids[i] != ids[0]
    {
      if ids[i] == ids[0] {
        NoRepeatsIsInjective(ids, 0, i);
      }
    }
  }

  /** So each slot is determined: slot 0 has the last stage, and the others have the remaining calls
      in the order in which they were built. */
  lemma SlotsInOrder(o: Oracle, p: Pipeline, st: State, c: nat)
    requires st.store == [] && st.order == []
    requires RunPipeline(o, p, false, false, st).Some?
    ensures var r := RunPipeline(o, p, false, false, st).value;
            && |FinalOrder(r)| == |r.state.store|
            && (c < |r.state.store| ==>
                  FinalOrder(r)[c] == if c == 0 then r.last else if c <= r.last then c - 1 else c)
  {
    hide RunPipeline; hide Ascending; hide FinalOrder;
    var r := RunPipeline(o, p, false, false, st).value;
    FinalOrderIsComplete(o, p, st);
    var order := FinalOrder(r);
    PermutationLength(order, |r.state.store|);
    BehindFirst(order);
    AscendingIsDetermined(order[1..], |r.state.store|, r.last);
  }
}
