/** Lines of several commands: all are parsed before the first is executed, so the pipes of the later
    ones are open while the earlier ones are launched. */
module Lines {
  import opened Options
  import opened Splitting
  import opened Descriptors
  import opened Syntax
  import opened Commands
  import opened Verdict
  import opened Residue
  import opened Ledger
  import opened Listing
  import opened Salvage
  import opened Closing
  import opened CommandTree
  import opened Conservation
  import opened Kernels
  import opened Waiting
  import opened JobTables
  import opened Sessions
  import opened Launches
  import opened Soundness
  import opened LaunchSoundness
  import opened Runs
  import opened EndOfFile

  const BACKGROUND := "&"

  /** The table, and the global that a failed substitution leaves set, after some commands. */
  function TableAfter(t: Table, ds: seq<Decision>): Table {
    if ds == [] then t else ds[|ds| - 1].parsed.state.table
  }

  function StaleAfter(stale: bool, ds: seq<Decision>): bool {
    if ds == [] then stale else ds[|ds| - 1].stale
  }

  function DecideSegment(o: Oracle, segment: string, t: Table, stale: bool): Option<Decision> {
    Decide(o, Words(segment, SPACE), false, false, State(t, [], [], []), stale)
  }

  /** The commands of a line's segments, up to the first segment that is refused. */
  function Accepted(o: Oracle, t: Table, stale: bool, segments: seq<string>): (ds: seq<Decision>)
    ensures |ds| <= |segments|
  {
    if segments == [] then []
    else
      var n := |segments| - 1;
      var ds := Accepted(o, t, stale, segments[..n]);
      if |ds| < n then ds
      else
        match DecideSegment(o, segments[n], TableAfter(t, ds), StaleAfter(stale, ds))
        case None => ds
        case Some(d) => ds + [d]
  }

  lemma AcceptedStep(o: Oracle, t: Table, stale: bool, segments: seq<string>, i: nat)
    requires i < |segments| && |Accepted(o, t, stale, segments[..i])| == i
    ensures var ds := Accepted(o, t, stale, segments[..i]);
            Accepted(o, t, stale, segments[..i + 1]) ==
            match DecideSegment(o, segments[i], TableAfter(t, ds), StaleAfter(stale, ds))
            case None => ds
            case Some(d) => ds + [d]
  {
    assert segments[..i + 1][..i] == segments[..i];
  }

  /** Behind a refused segment nothing is parsed. */
  lemma {:induction false} AcceptedStops(o: Oracle, t: Table, stale: bool, segments: seq<string>, i: nat)
    requires i <= |segments| && |Accepted(o, t, stale, segments[..i])| < i
    ensures Accepted(o, t, stale, segments) == Accepted(o, t, stale, segments[..i])
    decreases |segments| - i
  {
    if i == |segments| {
      assert segments[..i] == segments;
    } else {
      assert segments[..i + 1][..i] == segments[..i];
      AcceptedStops(o, t, stale, segments, i + 1);
    }
  }

  /** The global after a line: set, if the segment that was refused has left it set. */
  ghost predicate StaleThen(o: Oracle, line: string, t: Table, stale: bool) {
    if BACKGROUND <= line then stale
    else StaleBehind(o, Words(line, BACKGROUND), t, stale, Accepted(o, t, stale, Words(line, BACKGROUND)))
  }

  /** The same, when the segments that were accepted are those of `ds`. */
  ghost predicate StaleBehind(o: Oracle, segments: seq<string>, t: Table, stale: bool, ds: seq<Decision>) {
    if |ds| < |segments|
    then LeftSet(o, Words(segments[|ds|], SPACE), false, false, TableAfter(t, ds).opens, StaleAfter(stale, ds))
    else StaleAfter(stale, ds)
  }

  /** A line is refused when it begins with `&`, or when a segment is refused that is not the last
      of several. */
  predicate IsRefused(line: string, segments: seq<string>, ds: seq<Decision>) {
    BACKGROUND <= line || ds == [] || |ds| + 1 < |segments|
  }

  /* Descriptors of a whole line. */

  /** The descriptors that parsing a command has added. */
  function Own(d: Decision): set<int> {
    Held(d.parsed.state)
  }

  /** Parsing the command has added its own descriptors to `base`, and they are those of its pipes
      and of its listed calls. */
  ghost predicate AddsOwn(base: set<int>, d: Decision) {
    && HasCalls(d)
    && base !! Own(d) && d.parsed.state.table.open == base + Own(d)
    && FdsOf(d.parsed.state.store, FinalOrder(d.parsed)) == CallsFds(d.parsed.state.store)
  }

  ghost predicate Chained(t: Table, ds: seq<Decision>) {
    forall i | 0 <= i < |ds| :: AddsOwn(TableAfter(t, ds[..i]).open, ds[i])
  }

  lemma DecidedIsAccountedFor(o: Oracle, segment: string, t: Table, stale: bool)
    requires DecideSegment(o, segment, t, stale).Some?
    ensures AccountedFor(t.open, DecideSegment(o, segment, t, stale).value.parsed)
  {
    hide RunPipeline; hide Parse; hide Unspoiled; hide AccountedFor; hide Words;
    ParsingIsBalanced(o, Parse(Words(segment, SPACE)).value, t);
  }

  lemma AccountedForAddsOwn(base: set<int>, d: Decision)
    requires AccountedFor(base, d.parsed)
    ensures AddsOwn(base, d)
  {
    hide SeparateCalls; hide SeparatePipes; hide Descriptors.Ends; hide CallsFds; hide FdsOf; hide FinalOrder;
    hide NoRepeats;
  }

  lemma {:induction false} AcceptedIsChained(o: Oracle, t: Table, stale: bool, segments: seq<string>)
    ensures Chained(t, Accepted(o, t, stale, segments))
  {
    hide AccountedFor; hide AddsOwn; hide DecideSegment;
    if segments != [] {
      var n := |segments| - 1;
      AcceptedIsChained(o, t, stale, segments[..n]);
      var ds := Accepted(o, t, stale, segments[..n]);
      var r := DecideSegment(o, segments[n], TableAfter(t, ds), StaleAfter(stale, ds));
      if |ds| == n && r.Some? {
        DecidedIsAccountedFor(o, segments[n], TableAfter(t, ds), StaleAfter(stale, ds));
        AccountedForAddsOwn(TableAfter(t, ds).open, r.value);
        var all := ds + [r.value];
        forall i | 0 <= i < |all|
          ensures AddsOwn(TableAfter(t, all[..i]).open, all[i])
        {
          assert all[..i] == ds[..i];
          assert i == n ==> ds[..i] == ds;
        }
      }
    }
  }

  lemma ChainStep(t: Table, ds: seq<Decision>, i: nat)
    requires Chained(t, ds) && i < |ds|
    ensures TableAfter(t, ds[..i + 1]).open == TableAfter(t, ds[..i]).open + Own(ds[i])
    ensures TableAfter(t, ds[..i]).open !! Own(ds[i])
  {
    hide Own; hide HasCalls; hide FdsOf; hide CallsFds; hide FinalOrder;
    assert AddsOwn(TableAfter(t, ds[..i]).open, ds[i]);
    assert ds[..i + 1][|ds[..i + 1]| - 1] == ds[i];
  }

  lemma {:induction false} ChainGrows(t: Table, ds: seq<Decision>, i: nat, j: nat)
    requires Chained(t, ds) && i <= j <= |ds|
    ensures TableAfter(t, ds[..i]).open <= TableAfter(t, ds[..j]).open
    decreases j - i
  {
    hide Chained; hide Own; hide TableAfter;
    if i < j {
      ChainStep(t, ds, j - 1);
      ChainGrows(t, ds, i, j - 1);
    }
  }

  /** What the accepted commands of a line have opened is open. */
  lemma {:induction false} OpenUnlessOwn(t: Table, ds: seq<Decision>)
    requires Chained(t, ds)
    ensures TableAfter(t, ds).open == t.open <==> forall i | 0 <= i < |ds| :: Own(ds[i]) == {}
  {
    hide Own; hide TableAfter; hide Chained;
    if ds == [] {
      NothingAfter(t);
    } else {
      var n := |ds| - 1;
      assert Chained(t, ds[..n]) by { ChainedPrefix(t, ds, n); }
      OpenUnlessOwn(t, ds[..n]);
      assert ds[..n + 1] == ds;
      ChainStep(t, ds, n);
      ChainGrows(t, ds, 0, n);
      NothingAfter(t);
      assert ds[..0] == [];
      assert forall i | 0 <= i < n :: ds[..n][i] == ds[i];
      assert forall fd | fd in Own(ds[n]) :: fd in TableAfter(t, ds).open && fd !in t.open;
    }
  }

  /** Each accepted command is what its segment is decided to be, where it stands. */
  lemma {:induction false} AcceptedAt(o: Oracle, t: Table, stale: bool, segments: seq<string>, i: nat)
    requires i < |Accepted(o, t, stale, segments)|
    ensures var ds := Accepted(o, t, stale, segments);
            DecideSegment(o, segments[i], TableAfter(t, ds[..i]), StaleAfter(stale, ds[..i])) == Some(ds[i])
  {
    hide DecideSegment;
    var n := |segments| - 1;
    var ds := Accepted(o, t, stale, segments[..n]);
    var all := Accepted(o, t, stale, segments);
    if i < |ds| {
      AcceptedAt(o, t, stale, segments[..n], i);
      assert all[..i] == ds[..i];
    } else {
      assert all[..i] == ds;
    }
  }

  /** An accepted command holds no descriptor exactly if its segment has no symbol. */
  lemma OwnsNothingExactly(o: Oracle, segment: string, t: Table, stale: bool)
    requires DecideSegment(o, segment, t, stale).Some?
    ensures Own(DecideSegment(o, segment, t, stale).value) == {} <==> IsBare(Words(segment, SPACE))
  {
    hide RunPipeline; hide Parse; hide Unspoiled; hide Words; hide Print; hide WellFormed; hide Descriptors.Ends;
    hide CallsFds; hide IsBare;
    var tokens := Words(segment, SPACE);
    ParseIsExact(tokens, Parse(tokens).value);
    HoldsNothingExactly(o, Parse(tokens).value, State(t, [], [], []));
    NothingHeld(DecideSegment(o, segment, t, stale).value.parsed.state);
  }

  /** A line that is refused keeps open whatever its accepted commands opened: their commands are
      freed, but their descriptors are not closed.  So it leaves the table as it was exactly if no
      accepted segment has a pipe, a substitution or a redirection. */
  lemma RefusedLineLeaks(o: Oracle, t: Table, stale: bool, segments: seq<string>)
    ensures var ds := Accepted(o, t, stale, segments);
            TableAfter(t, ds).open == t.open <==> forall i | 0 <= i < |ds| :: IsBare(Words(segments[i], SPACE))
  {
    hide Own; hide TableAfter; hide Chained; hide Accepted; hide DecideSegment; hide IsBare; hide Words;
    hide StaleAfter;
    var ds := Accepted(o, t, stale, segments);
    AcceptedIsChained(o, t, stale, segments);
    OpenUnlessOwn(t, ds);
    forall i: nat | i < |ds|
      ensures Own(ds[i]) == {} <==> IsBare(Words(segments[i], SPACE))
    {
      AcceptedAt(o, t, stale, segments, i);
      OwnsNothingExactly(o, segments[i], TableAfter(t, ds[..i]), StaleAfter(stale, ds[..i]));
    }
  }

  lemma NothingAfter(t: Table)
    ensures TableAfter(t, []) == t
  {
  }

  lemma ChainedPrefix(t: Table, ds: seq<Decision>, n: nat)
    requires Chained(t, ds) && n <= |ds|
    ensures Chained(t, ds[..n])
  {
    assert forall i | 0 <= i < n :: ds[..n][i] == ds[i] && ds[..n][..i] == ds[..i];
  }

  /* Executing a line. */

  predicate HasCalls(d: Decision) {
    && d.parsed.last < |d.parsed.state.store|
    && forall id | id in FinalOrder(d.parsed) :: id < |d.parsed.state.store|
  }

  /** One command of a line, with the closing of its redirected streams. */
  ghost function ExecuteOne(w: World, con: Console, o: Oracle, d: Decision, background: bool, s: Session, t: Table)
    : (Session, Table)
    requires HasCalls(d)
  {
    var st := d.parsed.state;
    var x := Execute(w, con, o, st.pipes, Assembled(d.parsed), background, s, t, EndsInOrder(st.pipes));
    (x.session, x.table.(open := x.table.open - (FdsOf(st.store, FinalOrder(d.parsed)) - Descriptors.Ends(st.pipes))))
  }

  /** The first commands of a line, one after the other; those with a number below `followed` in
      the background. */
  ghost function ExecuteLine(w: World, con: Console, o: Oracle, ds: seq<Decision>, followed: int, s: Session, t: Table)
    : (Session, Table)
    requires forall i | 0 <= i < |ds| :: HasCalls(ds[i])
  {
    if ds == [] then (s, t)
    else
      var n := |ds| - 1;
      var r := ExecuteLine(w, con, o, ds[..n], followed, s, t);
      ExecuteOne(w, con, o, ds[n], n < followed, r.0, r.1)
  }

  lemma ExecuteStep(w: World, con: Console, o: Oracle, ds: seq<Decision>, followed: int, s: Session, t: Table, i: nat)
    requires i < |ds| && forall k | 0 <= k < |ds| :: HasCalls(ds[k])
    ensures var r := ExecuteLine(w, con, o, ds[..i], followed, s, t);
            ExecuteLine(w, con, o, ds[..i + 1], followed, s, t) == ExecuteOne(w, con, o, ds[i], i < followed, r.0, r.1)
  {
    assert ds[..i + 1][..i] == ds[..i];
  }

  /** How many processes the first `n` commands of a line start. */
  function LineExternals(ds: seq<Decision>, n: nat): nat
    requires n <= |ds| && forall i | 0 <= i < |ds| :: HasCalls(ds[i])
  {
    if n == 0 then 0
    else
      assert HasCalls(ds[n - 1]);
      LineExternals(ds, n - 1) + Externals(Assembled(ds[n - 1].parsed))
  }

  /** All processes of the first `n` commands live to answer the shell. */
  ghost predicate LineSurvives(w: World, ds: seq<Decision>, s: Session, n: nat)
    requires n <= |ds| && forall i | 0 <= i < |ds| :: HasCalls(ds[i])
  {
    NextSurvive(w, s.kernel, LineExternals(ds, n))
  }

  /** Executing a command closes what parsing it has opened.  If and only if a process of it dies before
      it has answered, one descriptor more is left open and children are lost. */
  lemma ExecuteOneConserves(w: World, con: Console, o: Oracle, base: set<int>, d: Decision, background: bool,
                            s: Session, t: Table)
    returns (leak: set<int>)
    requires Sound(s, []) && AddsOwn(base, d) && Own(d) <= t.open
    requires |Assembled(d.parsed)| == |d.parsed.state.pipes| + 1
    ensures var r := ExecuteOne(w, con, o, d, background, s, t);
            var count := Externals(Assembled(d.parsed));
            && Sound(r.0, []) && r.1.open == t.open - Own(d) + leak && leak !! t.open
            && (leak == {} <==> NextSurvive(w, s.kernel, count))
            && Lost(s, []) <= Lost(r.0, []) && (leak == {} <==> Lost(r.0, []) == Lost(s, []))
            && (leak == {} ==> r.0.kernel.started == s.kernel.started + count)
  {
    hide LaunchAll; hide Sound; hide Builtin; hide Descriptors.Ends; hide EndsInOrder; hide FinalOrder; hide Wait;
    hide InTable; hide CallsFds; hide FdsOf; hide Assembled; hide IsInternal; hide NoRepeats; hide Underway;
    hide NextSurvive; hide TableShrinks; hide LeavesJob; hide Occupied; hide Conclude; hide Externals; hide Lost;
    var st := d.parsed.state;
    var calls := Assembled(d.parsed);
    leak := {};
    EveryCommandKeeps(w, con, o, st.pipes, calls, background, s, t, EndsInOrder(st.pipes));
    CommandStartsExactly(w, con, o, st.pipes, calls, s, t);
    if |calls| == 1 && IsInternal(calls[0]) {
      assert Descriptors.Ends(st.pipes) == {} by { NoPipesNoEnds(st.pipes); }
    } else {
      EveryLaunchEnds(w, con, o, st.pipes, calls, s, t);
      var p := LaunchAll(w, con, o, st.pipes, calls, s, t);
      ConcludeKeepsTable(w, background, p.session, LaunchedJob(p), p.chief);
      if p.ok {
        UnderwayIsSound(t.open, st.pipes, calls, p);
      } else {
        var fd :| fd !in t.open && p.table.open == t.open + {fd};
        leak := {fd};
      }
    }
  }

  lemma NoPipesNoEnds(ps: seq<Pipe>)
    ensures ps == [] ==> Descriptors.Ends(ps) == {}
  {
  }

  /** What is open after the first `j` commands of the line have been executed. */
  function OpenThen(t: Table, ds: seq<Decision>, j: nat): set<int>
    requires j <= |ds|
  {
    TableAfter(t, ds).open - (TableAfter(t, ds[..j]).open - t.open)
  }

  ghost predicate IsLine(ds: seq<Decision>) {
    forall i | 0 <= i < |ds| :: HasCalls(ds[i]) && |Assembled(ds[i].parsed)| == |ds[i].parsed.state.pipes| + 1
  }

  /** Executing a line keeps the session right, also when launches fail. */
  lemma {:induction false} LineKeepsSound(w: World, con: Console, o: Oracle, ds: seq<Decision>, followed: int,
                                          s: Session, t: Table)
    requires Sound(s, []) && forall i | 0 <= i < |ds| :: HasCalls(ds[i])
    ensures Sound(ExecuteLine(w, con, o, ds, followed, s, t).0, [])
  {
    hide Sound; hide Execute; hide Assembled; hide FinalOrder;
    if ds != [] {
      var n := |ds| - 1;
      LineKeepsSound(w, con, o, ds[..n], followed, s, t);
      var r := ExecuteLine(w, con, o, ds[..n], followed, s, t);
      var st := ds[n].parsed.state;
      assert HasCalls(ds[n]);
      EveryCommandKeeps(w, con, o, st.pipes, Assembled(ds[n].parsed), n < followed, r.0, r.1, EndsInOrder(st.pipes));
    }
  }

  /** Every accepted command is a tree of pipes. */
  lemma DecidedIsTree(o: Oracle, segment: string, t: Table, stale: bool) returns (ks: seq<nat>)
    requires DecideSegment(o, segment, t, stale).Some?
    ensures var d := DecideSegment(o, segment, t, stale).value;
            HasCalls(d) && IsPipeTree(Assembled(d.parsed), d.parsed.state.pipes, ks)
  {
    hide RunPipeline; hide Parse; hide Unspoiled; hide IsPipeTree; hide Words; hide FinalOrder;
    ks := CommandIsPipeTree(o, Parse(Words(segment, SPACE)).value, t);
  }

  lemma {:induction false} AcceptedIsLine(o: Oracle, t: Table, stale: bool, segments: seq<string>)
    ensures IsLine(Accepted(o, t, stale, segments))
  {
    hide HasCalls; hide DecideSegment; hide Assembled;
    if segments != [] {
      var n := |segments| - 1;
      AcceptedIsLine(o, t, stale, segments[..n]);
      var ds := Accepted(o, t, stale, segments[..n]);
      var r := DecideSegment(o, segments[n], TableAfter(t, ds), StaleAfter(stale, ds));
      if |ds| == n && r.Some? {
        var ks := DecidedIsTree(o, segments[n], TableAfter(t, ds), StaleAfter(stale, ds));
        TreeHasOneCallMore(r.value, ks);
      }
    }
  }

  lemma TreeHasOneCallMore(d: Decision, ks: seq<nat>)
    requires HasCalls(d) && IsPipeTree(Assembled(d.parsed), d.parsed.state.pipes, ks)
    ensures |Assembled(d.parsed)| == |d.parsed.state.pipes| + 1
  {
  }

  lemma SurviveInTurn(w: World, k: Kernel, l: Kernel, m: nat, n: nat)
    requires l.started == k.started + m
    ensures NextSurvive(w, k, m + n) <==> NextSurvive(w, k, m) && NextSurvive(w, l, n)
  {
    if NextSurvive(w, k, m) && NextSurvive(w, l, n) {
      forall i | k.started <= i < k.started + m + n
        ensures w.survives(i)
      {
        assert i >= l.started || i < k.started + m;
      }
    }
  }

  /** Executing a line closes what parsing it has opened, command by command.  Besides what is still
      to be closed then, descriptors of failed launches are open, and children are lost, if and only
      if some process of the commands so far has died before it has answered.  `start` is the table the
      first command finds. */
  lemma {:induction false} LineConserves(w: World, con: Console, o: Oracle, t: Table, start: Table, ds: seq<Decision>,
                                         followed: int, s: Session, j: nat)
    returns (leaks: set<int>)
    requires Sound(s, []) && Chained(t, ds) && IsLine(ds) && j <= |ds|
    requires start.open == TableAfter(t, ds).open
    ensures var r := ExecuteLine(w, con, o, ds[..j], followed, s, start);
            && Sound(r.0, []) && r.1.open == OpenThen(t, ds, j) + leaks && leaks !! OpenThen(t, ds, j)
            && (leaks == {} <==> LineSurvives(w, ds, s, j))
            && Lost(s, []) <= Lost(r.0, []) && (leaks == {} <==> Lost(r.0, []) == Lost(s, []))
            && (leaks == {} ==> r.0.kernel.started == s.kernel.started + LineExternals(ds, j))
    ensures OpenThen(t, ds, |ds|) == t.open
  {
    hide Sound; hide ExecuteOne; hide Own; hide TableAfter; hide Assembled; hide AddsOwn; hide FinalOrder;
    hide Externals; hide NextSurvive; hide Descriptors.Ends; hide Chained;
    NothingAfter(t);
    assert ds[..0] == [] && ds[..|ds|] == ds;
    ChainGrows(t, ds, 0, |ds|);
    leaks := {};
    if j == 0 {
      NoneNeedSurvive(w, s.kernel);
    } else {
      var n := j - 1;
      leaks := LineConserves(w, con, o, t, start, ds, followed, s, n);
      var r := ExecuteLine(w, con, o, ds[..n], followed, s, start);
      ExecuteStep(w, con, o, ds, followed, s, start, n);
      AddedInChain(t, ds, n);
      ChainStep(t, ds, n);
      ChainGrows(t, ds, 0, n);
      ChainGrows(t, ds, j, |ds|);
      OpenStep(t, ds, n);
      assert HasCalls(ds[n]);
      var leak := ExecuteOneConserves(w, con, o, TableAfter(t, ds[..n]).open, ds[n], n < followed, r.0, r.1);
      var count := Externals(Assembled(ds[n].parsed));
      if leaks == {} {
        SurviveInTurn(w, s.kernel, r.0.kernel, LineExternals(ds, n), count);
      }
      FewerSurvive(w, s.kernel, LineExternals(ds, n), LineExternals(ds, j));
      leaks := leaks + leak;
    }
  }

  lemma NoneNeedSurvive(w: World, k: Kernel)
    ensures NextSurvive(w, k, 0)
  {
  }

  lemma FewerSurvive(w: World, k: Kernel, m: nat, n: nat)
    requires m <= n
    ensures NextSurvive(w, k, n) ==> NextSurvive(w, k, m)
  {
  }

  lemma AddedInChain(t: Table, ds: seq<Decision>, n: nat)
    requires Chained(t, ds) && n < |ds|
    ensures AddsOwn(TableAfter(t, ds[..n]).open, ds[n])
  {
    hide AddsOwn;
  }

  lemma OpenStep(t: Table, ds: seq<Decision>, n: nat)
    requires Chained(t, ds) && n < |ds|
    ensures Own(ds[n]) <= OpenThen(t, ds, n) && OpenThen(t, ds, n + 1) == OpenThen(t, ds, n) - Own(ds[n])
  {
    hide Own; hide TableAfter; hide Chained;
    NothingAfter(t);
    assert ds[..0] == [] && ds[..|ds|] == ds;
    ChainStep(t, ds, n);
    ChainGrows(t, ds, 0, n);
    ChainGrows(t, ds, n + 1, |ds|);
  }

  /** The launch of command `j` of a line, when those before it have been executed. */
  ghost function LaunchIn(w: World, con: Console, o: Oracle, ds: seq<Decision>, followed: int, s: Session, start: Table,
                          j: nat)
    : Progress
    requires j < |ds| && forall i | 0 <= i < |ds| :: HasCalls(ds[i])
  {
    var r := ExecuteLine(w, con, o, ds[..j], followed, s, start);
    assert HasCalls(ds[j]);
    LaunchAll(w, con, o, ds[j].parsed.state.pipes, Assembled(ds[j].parsed), r.0, r.1)
  }

  /** A line that is executed, up to a command whose processes have all been started. */
  lemma LaunchedInLine(w: World, con: Console, o: Oracle, t: Table, start: Table, ds: seq<Decision>, followed: int,
                       s: Session, j: nat, c: nat)
    requires Sound(s, []) && Chained(t, ds) && IsLine(ds) && j < |ds|
    requires start.open == TableAfter(t, ds).open
    requires LineSurvives(w, ds, s, j + 1)
    requires c < |Assembled(ds[j].parsed)|
    ensures var p := LaunchIn(w, con, o, ds, followed, s, start, j);
            var calls, pipes := Assembled(ds[j].parsed), ds[j].parsed.state.pipes;
            && |p.subs| == |calls|
            && IsLaunched(p.session.kernel, p.subs[c], calls[c], p.pgid, OpenThen(t, ds, j) - Foreign(pipes, calls[c]))
  {
    hide Chained; hide Sound; hide TableAfter; hide Builtin; hide Assembled; hide Foreign; hide IsInternal;
    hide Underway; hide LaunchAll; hide FinalOrder; hide ExecuteLine; hide OpenThen; hide NextSurvive; hide Externals;
    hide TableShrinks;
    assert HasCalls(ds[j]);
    FewerSurvive(w, s.kernel, LineExternals(ds, j), LineExternals(ds, j + 1));
    var leaks := LineConserves(w, con, o, t, start, ds, followed, s, j);
    var r := ExecuteLine(w, con, o, ds[..j], followed, s, start);
    var calls, pipes := Assembled(ds[j].parsed), ds[j].parsed.state.pipes;
    SurviveInTurn(w, s.kernel, r.0.kernel, LineExternals(ds, j), Externals(calls));
    LaunchStartsExactly(w, con, o, pipes, calls, r.0, r.1);
    EveryLaunchEnds(w, con, o, pipes, calls, r.0, r.1);
    CallIsLaunched(r.1.open, pipes, calls, LaunchAll(w, con, o, pipes, calls, r.0, r.1), c);
  }

  /** Who holds the pipes of another command of the same line: every process of an earlier command
      holds both ends of all of them, a process of a later command none. */
  lemma LaterPipesAreInherited(w: World, con: Console, o: Oracle, t: Table, start: Table, ds: seq<Decision>,
                               followed: int, s: Session, j: nat, k: nat, c: nat, fd: int)
    requires Sound(s, []) && Chained(t, ds) && IsLine(ds) && j < |ds| && k < |ds| && j != k
    requires start.open == TableAfter(t, ds).open
    requires LineSurvives(w, ds, s, j + 1)
    requires c < |Assembled(ds[j].parsed)| && fd in Descriptors.Ends(ds[k].parsed.state.pipes)
    ensures Holds(LaunchIn(w, con, o, ds, followed, s, start, j), c, fd)
            <==> j < k && !IsInternal(Assembled(ds[j].parsed)[c])
  {
    hide IsLaunched; hide Foreign; hide TableAfter; hide Descriptors.Ends; hide IsInternal; hide CallsFds; hide Chained;
    hide Holds; hide LaunchIn; hide Sound; hide Assembled; hide FinalOrder; hide LineSurvives;
    assert HasCalls(ds[j]);
    ChainStep(t, ds, j);
    ChainStep(t, ds, k);
    NothingAfter(t);
    assert ds[..0] == [] && ds[..|ds|] == ds;
    ChainGrows(t, ds, k + 1, |ds|);
    ChainGrows(t, ds, 0, k);
    if j < k {
      ChainGrows(t, ds, j + 1, k);
    } else {
      ChainGrows(t, ds, k + 1, j);
    }
    LaunchedInLine(w, con, o, t, start, ds, followed, s, j, c);
    InheritsTheRest(OpenThen(t, ds, j), ds[j].parsed.state.pipes, Assembled(ds[j].parsed)[c],
                    LaunchIn(w, con, o, ds, followed, s, start, j), c, fd);
  }

  /** The whole way: a segment that was accepted is launched, and each of its pipes is then held, of
      all the command's processes, by its one writer's and its one reader's alone, which is one pipe
      nearer to the last stage; the shell itself holds neither end any more. */
  lemma AcceptedPipesEnd(w: World, con: Console, o: Oracle, segment: string, t: Table, stale: bool, background: bool,
                         s: Session, start: Table, i: nat)
    returns (ks: seq<nat>, reader: nat, writer: nat)
    requires Sound(s, []) && DecideSegment(o, segment, t, stale).Some?
    requires var d := DecideSegment(o, segment, t, stale).value;
             && i < |d.parsed.state.pipes| && d.parsed.state.table.open - t.open <= start.open && HasCalls(d)
             && LaunchAll(w, con, o, d.parsed.state.pipes, Assembled(d.parsed), s, start).ok
    ensures var d := DecideSegment(o, segment, t, stale).value;
            var pipes, calls := d.parsed.state.pipes, Assembled(d.parsed);
            var p := LaunchAll(w, con, o, pipes, calls, s, start);
            && reader < |calls| && writer < |calls| && |ks| == |calls| && ks[writer] == ks[reader] + 1
            && (forall c: nat | c < |calls| ::
                  Holds(p, c, pipes[i].writeEnd) <==> c == writer && !IsInternal(calls[writer]))
            && (forall c: nat | c < |calls| ::
                  Holds(p, c, pipes[i].readEnd) <==> c == reader && !IsInternal(calls[reader]))
            && var left := ExecuteOne(w, con, o, d, background, s, start).1;
               pipes[i].readEnd !in left.open && pipes[i].writeEnd !in left.open
  {
    hide DecideSegment; hide LaunchAll; hide Sound; hide Assembled; hide Descriptors.Ends; hide Holds; hide IsInternal;
    hide SeparateCalls; hide CallsFds; hide FdsOf; hide FinalOrder; hide NoRepeats; hide SeparatePipes; hide IsPipeTree;
    hide Underway; hide IsOnlyReader; hide IsOnlyWriter;
    var d := DecideSegment(o, segment, t, stale).value;
    var pipes, calls := d.parsed.state.pipes, Assembled(d.parsed);
    ks := DecidedIsTree(o, segment, t, stale);
    DecidedIsAccountedFor(o, segment, t, stale);
    EveryLaunchEnds(w, con, o, pipes, calls, s, start);
    var p := LaunchAll(w, con, o, pipes, calls, s, start);
    UnderwayIsSound(start.open, pipes, calls, p);
    TreeHasRanks(calls, pipes, ks);
    reader, writer := OnlyItsWriterHolds(start.open, pipes, calls, ks, p, i);
    OnlyReaderIsCall(calls, i, reader, writer);
    EndsMember(pipes, i);
    TreeHasOneCallMore(d, ks);
    ConcludeKeepsTable(w, background, p.session, LaunchedJob(p), p.chief);
  }

  /** Whatever becomes of the job, the descriptor table stays as it is and nothing more is closed. */
  lemma ConcludeKeepsTable(w: World, background: bool, s: Session, j: JobValue, chief: int)
    ensures forall x :: Conclude(w, background, s, j, chief, x).table == x.table
                        && Conclude(w, background, s, j, chief, x).closes == x.closes
  {
    hide Wait; hide InTable; hide Grown; hide LeastFree;
  }

  lemma OnlyReaderIsCall(calls: seq<Call>, i: nat, r: nat, w: nat)
    requires IsOnlyReader(calls, i, r) && IsOnlyWriter(calls, i, w)
    ensures r < |calls| && w < |calls|
  {
  }
}
