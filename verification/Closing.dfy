/** Closing the redirected streams of a command's calls (src/internals.c), the ends of its pipes
    apart. */
module Closing {
  import opened Descriptors
  import opened Commands
  import opened Ledger
  import opened Utils
  import opened Files
  import opened Salvage
  import opened CommandObjects

  method Contains2(pipes: seq<Pipe>, value: int) returns (found: bool)
    ensures found <==> value in Ends(pipes)
  {
    var i: nat := 0;
    while i < |pipes|
      invariant i <= |pipes| && value !in Ends(pipes[..i])
    {
      if pipes[i].readEnd == value || pipes[i].writeEnd == value {
        EndsMember(pipes, i);
        return true;
      }
      assert pipes[..i + 1] == pipes[..i] + [pipes[i]];
      EndsSnoc(pipes[..i], pipes[i]);
      i := i + 1;
    }
    assert pipes[..i] == pipes;
    found := false;
  }

  /** The descriptors that closing one call closes, in order. */
  function ClosedForCall(c: Call, spared: set<int>): seq<int> {
    Kept(Distinct3(c.stdin, c.stdout, c.stderr), spared)
  }

  method CloseUnusedFileDescriptorsHelper(files: FileTable, pipes: seq<Pipe>, c: Call)
    modifies files
    ensures files.table == old(files.table).(open := old(files.table).open - (CallFds(c) - Ends(pipes)))
    ensures files.closed == old(files.closed) + ClosedForCall(c, Ends(pipes))
  {
    hide Kept; hide Added; hide Listed; hide Above; hide Ends;
    KeptNone(Ends(pipes));
    var fds := new int[3](_ => -1);
    assert fds[..] == [-1, -1, -1];
    var status := AddSet(fds, c.stdin);
    status := AddSet(fds, c.stdout);
    status := AddSet(fds, c.stderr);
    ghost var all := fds[..];
    assert all == Distinct3(c.stdin, c.stdout, c.stderr);
    var i: nat := 0;
    assert all[..i] == [];
    while i < 3
      invariant i <= 3 && fds[..] == all
      invariant files.table == old(files.table).(open := old(files.table).open - Listed(Kept(all[..i], Ends(pipes))))
      invariant files.closed == old(files.closed) + Kept(all[..i], Ends(pipes))
    {
      KeptSnoc(all, i, Ends(pipes));
      if fds[i] > 2 {
        var isPipe := Contains2(pipes, fds[i]);
        if !isPipe {
          files.Close(fds[i]);
        }
      }
      i := i + 1;
    }
    assert all[..i] == all;
    KeptOfThree(c.stdin, c.stdout, c.stderr, Ends(pipes));
  }

  function ClosedForCalls(store: seq<Call>, ids: seq<nat>, spared: set<int>): seq<int> {
    if ids == [] then []
    else
      var n := |ids| - 1;
      ClosedForCalls(store, ids[..n], spared) + if ids[n] < |store| then ClosedForCall(store[ids[n]], spared) else []
  }

  lemma ClosedForCallsSnoc(store: seq<Call>, ids: seq<nat>, i: nat, spared: set<int>)
    requires i < |ids| && ids[i] < |store|
    ensures ClosedForCalls(store, ids[..i + 1], spared)
         == ClosedForCalls(store, ids[..i], spared) + ClosedForCall(store[ids[i]], spared)
    ensures FdsOf(store, ids[..i + 1]) == FdsOf(store, ids[..i]) + CallFds(store[ids[i]])
  {
    assert ids[..i + 1][..i] == ids[..i];
  }

  lemma NothingForNone(store: seq<Call>, spared: set<int>)
    ensures ClosedForCalls(store, [], spared) == [] && FdsOf(store, []) == {}
  {
  }

  method CloseUnusedFileDescriptors(files: FileTable, cmd: Command)
    requires forall id | id in cmd.calls :: id < |cmd.store|
    modifies files
    ensures var held := FdsOf(cmd.store, cmd.calls) - Ends(cmd.pipes);
            files.table == old(files.table).(open := old(files.table).open - held)
    ensures files.closed == old(files.closed) + ClosedForCalls(cmd.store, cmd.calls, Ends(cmd.pipes))
  {
    hide Ends; hide ClosedForCall; hide ClosedForCalls; hide FdsOf; hide CallFds;
    NothingForNone(cmd.store, Ends(cmd.pipes));
    var i: nat := 0;
    assert cmd.calls[..i] == [];
    while i < |cmd.calls|
      invariant i <= |cmd.calls|
      invariant var held := FdsOf(cmd.store, cmd.calls[..i]) - Ends(cmd.pipes);
                files.table == old(files.table).(open := old(files.table).open - held)
      invariant files.closed == old(files.closed) + ClosedForCalls(cmd.store, cmd.calls[..i], Ends(cmd.pipes))
    {
      assert cmd.calls[i] in cmd.calls;
      ClosedForCallsSnoc(cmd.store, cmd.calls, i, Ends(cmd.pipes));
      CloseUnusedFileDescriptorsHelper(files, cmd.pipes, cmd.store[cmd.calls[i]]);
      i := i + 1;
    }
    assert cmd.calls[..i] == cmd.calls;
  }

  /** The ends of the pipes, in the order in which they are closed. */
  function EndsInOrder(pipes: seq<Pipe>): seq<int> {
    if pipes == [] then []
    else EndsInOrder(pipes[..|pipes| - 1]) + [pipes[|pipes| - 1].readEnd, pipes[|pipes| - 1].writeEnd]
  }

  /** The loop at the end of a failed parse and of a launch. */
  method ClosePipes(files: FileTable, cmd: Command)
    modifies files
    ensures files.table == old(files.table).(open := old(files.table).open - Ends(cmd.pipes))
    ensures files.closed == old(files.closed) + EndsInOrder(cmd.pipes)
  {
    var i: nat := 0;
    while i < |cmd.pipes|
      invariant i <= |cmd.pipes|
      invariant files.table == old(files.table).(open := old(files.table).open - Ends(cmd.pipes[..i]))
      invariant files.closed == old(files.closed) + EndsInOrder(cmd.pipes[..i])
    {
      assert cmd.pipes[..i + 1][..i] == cmd.pipes[..i];
      files.Close(cmd.pipes[i].readEnd);
      files.Close(cmd.pipes[i].writeEnd);
      i := i + 1;
    }
    assert cmd.pipes[..i] == cmd.pipes;
  }
}
