/** What a failed parse leaves behind.  Every descriptor that was opened on the way is an end of a
    pipe of the command, a stream of a listed call, or a stream of the one call that only the
    global last_parsed_command_call still names; so cleaning up the command restores the table. */
module Salvage {
  import opened Descriptors
  import opened Syntax
  import opened Commands
  import opened Ledger
  import opened Listing

  /** The redirected streams of the calls named by `ids`. */
  function FdsOf(store: seq<Call>, ids: seq<nat>): set<int> {
    if ids == [] then {}
    else
      var n := |ids| - 1;
      FdsOf(store, ids[..n]) + if ids[n] < |store| then CallFds(store[ids[n]]) else {}
  }

  function ExtraFds(store: seq<Call>, extra: int): set<int> {
    if 0 <= extra < |store| then CallFds(store[extra]) else {}
  }

  lemma {:induction false} FdsOfMember(store: seq<Call>, ids: seq<nat>, fd: int)
    ensures fd in FdsOf(store, ids) <==> exists id :: id in ids && id < |store| && fd in CallFds(store[id])
  {
    if ids != [] {
      var n := |ids| - 1;
      FdsOfMember(store, ids[..n], fd);
      assert ids == ids[..n] + [ids[n]];
    }
  }

  lemma {:induction false} FdsOfConcat(store: seq<Call>, xs: seq<nat>, ys: seq<nat>)
    ensures FdsOf(store, xs + ys) == FdsOf(store, xs) + FdsOf(store, ys)
  {
    if ys == [] {
      assert xs + ys == xs;
    } else {
      var n := |ys| - 1;
      FdsOfConcat(store, xs, ys[..n]);
      assert (xs + ys)[..|xs| + n] == xs + ys[..n];
      assert (xs + ys)[|xs| + n] == ys[n];
    }
  }

  lemma {:induction false} FdsOfLater(store: seq<Call>, later: seq<Call>, ids: seq<nat>)
    requires store <= later && forall id | id in ids :: id < |store|
    ensures FdsOf(store, ids) == FdsOf(later, ids)
  {
    if ids != [] {
      var n := |ids| - 1;
      assert ids[n] in ids;
      assert forall id | id in ids[..n] :: id in ids;
      FdsOfLater(store, later, ids[..n]);
    }
  }

  /** Listed completely, the calls hold what the ledger says. */
  lemma ListedFds(store: seq<Call>, from: nat, ids: seq<nat>, absent: nat)
    requires from <= |store| && Lists(ids, from, |store|, {absent})
    ensures FdsOf(store, ids) + ExtraFds(store, absent) >= CallsFds(store[from..])
    ensures FdsOf(store, ids) <= CallsFds(store[from..])
  {
    forall fd | fd in CallsFds(store[from..])
      ensures fd in FdsOf(store, ids) + ExtraFds(store, absent)
    {
      var k := CallsFdsFind(store[from..], fd);
      FdsOfMember(store, ids, fd);
      assert store[from..][k] == store[from + k];
    }
    forall fd | fd in FdsOf(store, ids)
      ensures fd in CallsFds(store[from..])
    {
      FdsOfMember(store, ids, fd);
      var id :| id in ids && id < |store| && fd in CallFds(store[id]);
      CallsFdsMember(store[from..], id - from);
    }
  }

  lemma {:induction false} CallsFdsFind(cs: seq<Call>, fd: int) returns (k: nat)
    requires fd in CallsFds(cs)
    ensures k < |cs| && fd in CallFds(cs[k])
  {
    var n := |cs| - 1;
    if fd in CallFds(cs[n]) {
      k := n;
    } else {
      k := CallsFdsFind(cs[..n], fd);
    }
  }

  /** The descriptors that cleaning up the command closes. */
  function Litter(ps: seq<Pipe>, store: seq<Call>, ids: seq<nat>, extra: int): set<int> {
    Ends(ps) + FdsOf(store, ids) + ExtraFds(store, extra)
  }

  /** `now` adds pipes `ps` and listed calls `ids`; whatever else is open is theirs, or that of
      the call `extra`, and nothing of theirs was open before. */
  predicate Leaves(st: State, now: State, ps: seq<Pipe>, ids: seq<nat>, extra: int) {
    && st.store <= now.store && now.pipes == st.pipes + ps && now.order == st.order + ids
    && (forall id | id in ids :: |st.store| <= id < |now.store|)
    && (extra == -1 || |st.store| <= extra < |now.store|)
    && st.table.open <= now.table.open <= st.table.open + Litter(ps, now.store, ids, extra)
    && st.table.open !! Litter(ps, now.store, ids, extra)
  }

  ghost predicate Salvageable(st: State, now: State, extra: int) {
    exists ps, ids :: Leaves(st, now, ps, ids, extra)
  }

  lemma SalvageNothing(st: State)
    ensures Salvageable(st, st, -1)
  {
    assert Leaves(st, st, [], [], -1) by {
      assert st.pipes + [] == st.pipes && st.order + [] == st.order;
    }
  }

  lemma SalvageRefused(st: State, opening: Opening)
    ensures Salvageable(st, st.(table := Refused(st.table, opening)), -1)
  {
    assert Leaves(st, st.(table := Refused(st.table, opening)), [], [], -1) by {
      assert st.pipes + [] == st.pipes && st.order + [] == st.order;
    }
  }

  lemma SalvageAfterPipe(o: Oracle, st: State, now: State, extra: int)
    requires Salvageable(WithPipe(o, st), now, extra)
    ensures Salvageable(st, now, extra)
  {
    hide Ends; hide FdsOf; hide ExtraFds; hide NewPipe;
    var ps, ids :| Leaves(WithPipe(o, st), now, ps, ids, extra);
    var pipe := NewPipe(o, st.table);
    var open := st.table.open;
    assert Piped(o, st.table).open == open + PipeEnds(pipe) && open !! PipeEnds(pipe);
    EndsOfConcat([pipe], ps);
    EndsOfOne(pipe);
    assert st.pipes + [pipe] + ps == st.pipes + ([pipe] + ps);
    assert Leaves(st, now, [pipe] + ps, ids, extra);
  }

  /** The stage begun at `st` has come to `now` with builder `b`: everything added is accounted
      for and listed, the builder's own streams apart. */
  predicate InProgress(st: State, b: Builder, now: State, ps: seq<Pipe>, cs: seq<Call>, ids: seq<nat>) {
    && BuilderOk(b, now.table.open)
    && Adds(st.table.open, st, ps, cs, now, Settled(b, now.table.open))
    && now.order == st.order + ids
  }

  ghost predicate Progress(st: State, b: Builder, now: State) {
    exists ps, cs, ids :: InProgress(st, b, now, ps, cs, ids) && Lists(ids, |st.store|, |now.store|, {})
  }

  lemma ProgressStart(st: State, name: string)
    ensures Progress(st, NewBuilder(name), st)
  {
    var b := NewBuilder(name);
    assert Settled(b, st.table.open) == st.table.open;
    assert st.pipes + [] == st.pipes && st.store + [] == st.store && st.order + [] == st.order;
    assert InProgress(st, b, st, [], [], []) && Lists([], |st.store|, |st.store|, {});
  }

  lemma ProgressSameFds(st: State, b: Builder, c: Builder, now: State)
    requires Progress(st, b, now)
    requires b.stdin == c.stdin && b.stdout == c.stdout && b.stderr == c.stderr
    ensures Progress(st, c, now)
  {
    hide Lists; hide BuilderOk; hide Settled; hide Books;
    var ps, cs, ids :| InProgress(st, b, now, ps, cs, ids) && Lists(ids, |st.store|, |now.store|, {});
    SameFds(b, c, now.table.open);
    assert InProgress(st, c, now, ps, cs, ids);
  }

  lemma ProgressRedirect(o: Oracle, st: State, b: Builder, now: State, op: string, file: string)
    requires Progress(st, b, now) && IsRedirection(op)
    ensures Progress(st, WithFd(b, StreamOf(op), Fresh(o, now.table)),
                     now.(table := Reopened(o, now.table, b, op, file)))
  {
    hide Lists; hide BuilderOk; hide Settled; hide Books; hide Fresh; hide CloseIfOpened; hide WithFd; hide FdOf;
    var ps, cs, ids :| InProgress(st, b, now, ps, cs, ids) && Lists(ids, |st.store|, |now.store|, {});
    RedirectSettles(o, b, op, file, now.table);
    assert InProgress(st, WithFd(b, StreamOf(op), Fresh(o, now.table)),
                      now.(table := Reopened(o, now.table, b, op, file)), ps, cs, ids);
  }

  lemma ProgressBody(o: Oracle, st: State, b: Builder, now: State, body: Pipeline)
    requires Progress(st, b, now)
    requires var r := RunPipeline(o, body, true, false, WithPipe(o, now));
             r.Some? && r.value.state.store[r.value.last].stdout == 1
    ensures var parsed := RunPipeline(o, body, true, false, WithPipe(o, now)).value;
            var pipe := NewPipe(o, now.table);
            Progress(st, AfterBody(b, pipe, |now.pipes|), WithBody(parsed, pipe, |now.pipes|))
  {
    hide RunPipeline; hide Lists; hide BuilderOk; hide Settled; hide Books; hide NewPipe;
    var ps, cs, ids :| InProgress(st, b, now, ps, cs, ids) && Lists(ids, |st.store|, |now.store|, {});
    var before := WithPipe(o, now);
    var parsed := RunPipeline(o, body, true, false, before).value;
    var pipe := NewPipe(o, now.table);
    var mid := WithBody(parsed, pipe, |now.pipes|);
    var ps0, cs0 := PipelineLedger(o, body, true, false, before);
    var ps1, cs1 := BodyLedger(o, b, now, parsed, ps0, cs0);
    AddsCompose(st.table.open, st, ps, cs, now, Settled(b, now.table.open), ps1, cs1, mid, Settled(b, mid.table.open));
    SameFds(b, AfterBody(b, pipe, |now.pipes|), mid.table.open);
    var xs := PipelineListing(o, body, true, false, before);
    var c := First(parsed);
    ListsSnoc(xs, |now.store|, c + 1, {c}, c);
    assert {c} - {c} == {};
    ListsConcat(ids, xs + [c], |st.store|, |now.store|, c + 1, {});
    assert st.order + ids + xs + [c] == st.order + (ids + (xs + [c]));
    assert InProgress(st, AfterBody(b, pipe, |now.pipes|), mid, ps + ps1, cs + cs1, ids + (xs + [c]));
  }

  /** The stage is given up: its own descriptors are closed, after whatever a nested call left. */
  function WithoutFds(b: Builder, now: State): State {
    now.(table := now.table.(open := now.table.open - BuilderFds(b)))
  }

  lemma ListedFdsExactly(store: seq<Call>, cs: seq<Call>, ids: seq<nat>)
    requires Lists(ids, |store|, |store + cs|, {})
    ensures FdsOf(store + cs, ids) == CallsFds(cs)
  {
    var all := store + cs;
    assert all[|store|..] == cs;
    assert Lists(ids, |store|, |all|, {|all|});
    ListedFds(all, |store|, ids, |all|);
  }

  lemma AbandonStage(st: State, b: Builder, mid: State, now: State, extra: int)
    requires Progress(st, b, mid) && Salvageable(mid, now, extra)
    ensures Salvageable(st, WithoutFds(b, now), extra)
  {
    hide Lists; hide BuilderOk; hide FdsOf; hide ExtraFds; hide Ends; hide CallsFds; hide SeparateCalls;
    hide SeparatePipes; hide BuilderFds;
    var ps, cs, ids :| InProgress(st, b, mid, ps, cs, ids) && Lists(ids, |st.store|, |mid.store|, {});
    var qs, ids' :| Leaves(mid, now, qs, ids', extra);
    ListedFdsExactly(st.store, cs, ids);
    ListsBounds(ids, |st.store|, |mid.store|, {});
    FdsOfLater(mid.store, now.store, ids);
    FdsOfConcat(now.store, ids, ids');
    EndsOfConcat(ps, qs);
    assert st.pipes + ps + qs == st.pipes + (ps + qs);
    assert st.order + ids + ids' == st.order + (ids + ids');
    BuilderOnTop(b, mid.table.open);
    assert Leaves(st, WithoutFds(b, now), ps + qs, ids + ids', extra);
  }

  lemma ListsBounds(ids: seq<nat>, from: nat, to: nat, absent: set<nat>)
    requires Lists(ids, from, to, absent)
    ensures forall id | id in ids :: from <= id < to && id !in absent
  {
  }

  lemma BuilderOnTop(b: Builder, open: set<int>)
    requires BuilderOk(b, open)
    ensures BuilderFds(b) <= open && open == Settled(b, open) + BuilderFds(b)
    ensures Settled(b, open) !! BuilderFds(b)
  {
    assert BuilderFds(b) <= open;
  }

  /** A substitution whose last stage redirects its output is given up after its first stage,
      which is not listed yet, has been closed. */
  lemma AbandonBody(o: Oracle, st: State, body: Pipeline)
    requires RunPipeline(o, body, true, false, st).Some?
    ensures var parsed := RunPipeline(o, body, true, false, st).value;
            var now := parsed.state;
            Salvageable(st, now.(table := now.table.(open := now.table.open - CallFds(now.store[First(parsed)]))), -1)
  {
    hide RunPipeline; hide Lists; hide CallsFds; hide SeparateCalls; hide SeparatePipes; hide Ends; hide FdsOf;
    hide CallFds;
    var parsed := RunPipeline(o, body, true, false, st).value;
    var now := parsed.state;
    var c := First(parsed);
    var ps, cs := PipelineLedger(o, body, true, false, st);
    var ids := PipelineListing(o, body, true, false, st);
    ListsBounds(ids, |st.store|, |now.store|, {c});
    assert now.store[|st.store|..] == cs;
    ListedFds(now.store, |st.store|, ids, c);
    CallsFdsMember(cs, c - |st.store|);
    var left := now.(table := now.table.(open := now.table.open - CallFds(now.store[c])));
    assert Leaves(st, left, ps, ids, -1);
  }

  /** A stage is given up after it has been linked to the stages on its right. */
  lemma AbandonLinked(o: Oracle, st: State, b: Builder, mid: State, next: Pipeline, inside: bool)
    requires Progress(st, b, mid) && b.stdout == UNINITIALIZED_FD
    requires RunPipeline(o, next, inside, true, mid).Some?
    ensures var parsed := RunPipeline(o, next, inside, true, mid).value;
            var c := AfterNext(b, NewPipe(o, parsed.state.table), |parsed.state.pipes|);
            Salvageable(st, WithoutFds(c, WithNext(o, parsed, inside)), if inside then -1 else parsed.last)
  {
    hide RunPipeline; hide Progress; hide Salvageable; hide NewPipe; hide Fresh; hide Finish;
    var parsed := RunPipeline(o, next, inside, true, mid).value;
    var pipe := NewPipe(o, parsed.state.table);
    var now := WithNext(o, parsed, inside);
    var c := AfterNext(b, pipe, |parsed.state.pipes|);
    LinkedLeaves(o, mid, next, inside);
    var extra := if inside then -1 else parsed.last;
    AbandonStage(st, b, mid, now.(table := Closed(now.table, pipe.writeEnd)), extra);
    assert BuilderFds(c) == BuilderFds(b) + {pipe.writeEnd};
    assert now.table.open - BuilderFds(c) == now.table.open - {pipe.writeEnd} - BuilderFds(b);
    assert WithoutFds(c, now) == WithoutFds(b, now.(table := Closed(now.table, pipe.writeEnd)));
  }

  lemma LinkedListing(o: Oracle, mid: State, next: Pipeline, inside: bool) returns (ids: seq<nat>)
    requires RunPipeline(o, next, inside, true, mid).Some?
    ensures var parsed := RunPipeline(o, next, inside, true, mid).value;
            && WithNext(o, parsed, inside).order == mid.order + ids
            && |mid.store| <= |parsed.state.store|
            && Lists(ids, |mid.store|, |parsed.state.store|, {if inside then |parsed.state.store| else parsed.last})
  {
    hide RunPipeline; hide Lists; hide NewPipe; hide Fresh;
    var parsed := RunPipeline(o, next, inside, true, mid).value;
    var n := |parsed.state.store|;
    ids := PipelineListing(o, next, inside, true, mid);
    var c := First(parsed);
    var absent := Unlisted(parsed, inside);
    if inside || c != parsed.last {
      ListsSnoc(ids, |mid.store|, n, absent, c);
      ids, absent := ids + [c], absent - {c};
    }
    assert if inside then absent == {} else absent == {parsed.last};
    if inside {
      ListsIgnore(ids, |mid.store|, n, absent, n);
      assert absent + {n} == {n};
    }
  }

  lemma ListsIgnore(ids: seq<nat>, from: nat, to: nat, absent: set<nat>, beyond: nat)
    requires Lists(ids, from, to, absent) && to <= beyond
    ensures Lists(ids, from, to, absent + {beyond})
  {
  }

  lemma LinkedLeaves(o: Oracle, mid: State, next: Pipeline, inside: bool)
    requires RunPipeline(o, next, inside, true, mid).Some?
    ensures var parsed := RunPipeline(o, next, inside, true, mid).value;
            var now := WithNext(o, parsed, inside);
            Salvageable(mid, now.(table := Closed(now.table, NewPipe(o, parsed.state.table).writeEnd)),
                        if inside then -1 else parsed.last)
  {
    hide RunPipeline; hide Lists; hide CallsFds; hide SeparateCalls; hide SeparatePipes; hide Ends; hide FdsOf;
    hide Fresh; hide NewPipe; hide ExtraFds;
    var parsed := RunPipeline(o, next, inside, true, mid).value;
    var now, pipe := WithNext(o, parsed, inside), NewPipe(o, parsed.state.table);
    var absent := if inside then |parsed.state.store| else parsed.last;
    var ps, cs := PipelineLedger(o, next, inside, true, mid);
    var k := |cs| - 1;
    var linked := Linked(cs[k], pipe.readEnd, |parsed.state.pipes|);
    var ds := cs[k := linked];
    assert CallFds(linked) == CallFds(cs[k]) + {pipe.readEnd};
    CallsFdsUpdate(cs, k, linked, pipe.readEnd);
    EndsSnoc(ps, pipe);
    var ids := LinkedListing(o, mid, next, inside);
    ListsBounds(ids, |mid.store|, |now.store|, {absent});
    assert now.store == mid.store + ds;
    assert now.store[|mid.store|..] == ds;
    ListedFds(now.store, |mid.store|, ids, absent);
    ExtraIsCall(now.store, mid.store, ds, absent);
    assert mid.pipes + ps + [pipe] == mid.pipes + (ps + [pipe]);
    assert now.table.open == parsed.state.table.open + PipeEnds(pipe);
    var extra := if inside then -1 else parsed.last;
    assert ExtraFds(now.store, extra) == ExtraFds(now.store, absent) by { NoExtra(now.store, |now.store|); }
    assert Leaves(mid, now.(table := Closed(now.table, pipe.writeEnd)), ps + [pipe], ids, extra);
  }

  lemma NoExtra(store: seq<Call>, k: nat)
    requires k >= |store|
    ensures ExtraFds(store, k) == {} && ExtraFds(store, -1) == {}
  {
  }

  lemma ExtraIsCall(store: seq<Call>, before: seq<Call>, cs: seq<Call>, k: nat)
    requires store == before + cs && |before| <= k
    ensures ExtraFds(store, k) <= CallsFds(cs)
  {
    if k < |store| {
      CallsFdsMember(cs, k - |before|);
    }
  }

  /** Cleaning up: the streams of the listed calls that are not ends of pipes, then the pipes. */
  function CleanedUp(now: State): set<int> {
    now.table.open - (FdsOf(now.store, now.order) - Ends(now.pipes)) - Ends(now.pipes)
  }

  /** After the one unlisted call has been listed too, cleaning up restores the table. */
  lemma CleaningRestores(st: State, now: State, extra: int)
    requires st.store == [] && st.order == [] && st.pipes == []
    requires Salvageable(st, now, extra)
    ensures extra != -1 ==> 0 <= extra < |now.store|
    ensures var listed := if extra == -1 then now else now.(order := now.order + [extra]);
            && (forall id | id in listed.order :: id < |listed.store|)
            && CleanedUp(listed) == st.table.open
  {
    hide Ends; hide CallFds; hide FdsOf; hide ExtraFds;
    var ps, ids :| Leaves(st, now, ps, ids, extra);
    assert [] + ps == ps && [] + ids == ids;
    var listed := if extra == -1 then now else now.(order := now.order + [extra]);
    ListedWithExtra(now.store, ids, extra);
    CleanedSet(now.table.open, FdsOf(now.store, listed.order), Ends(ps));
  }

  lemma ListedWithExtra(store: seq<Call>, ids: seq<nat>, extra: int)
    requires extra == -1 || 0 <= extra < |store|
    ensures FdsOf(store, if extra == -1 then ids else ids + [extra]) == FdsOf(store, ids) + ExtraFds(store, extra)
  {
    hide CallFds;
    if extra != -1 {
      FdsOfConcat(store, ids, [extra]);
      assert [extra][..0] == [];
    }
  }

  lemma CleanedSet(open: set<int>, fds: set<int>, ends: set<int>)
    ensures open - (fds - ends) - ends == open - (ends + fds)
  {
  }
}
