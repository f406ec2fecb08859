/** The descriptor table as an object, with the system calls that change it and a record of every
    close. */
module Files {
  import opened Descriptors
  import opened Utils

  class FileTable {
    const oracle: Oracle
    var table: Table
    ghost var closed: seq<int>

    constructor (oracle: Oracle, table: Table)
      ensures this.oracle == oracle && this.table == table && closed == []
    {
      this.oracle := oracle;
      this.table := table;
      this.closed := [];
    }

    method Open(file: string, mode: Mode) returns (fd: int)
      modifies this
      ensures if oracle.grants(old(table).opens)
              then fd == Fresh(oracle, old(table)) && table == Opened(oracle, old(table), Opening(file, mode))
              else fd == -1 && table == Refused(old(table), Opening(file, mode))
      ensures closed == old(closed)
    {
      if oracle.grants(table.opens) {
        fd := Fresh(oracle, table);
        table := Opened(oracle, table, Opening(file, mode));
      } else {
        fd := -1;
        table := Refused(table, Opening(file, mode));
      }
    }

    method Close(fd: int)
      modifies this
      ensures table == Closed(old(table), fd) && closed == old(closed) + [fd]
    {
      table := Closed(table, fd);
      closed := closed + [fd];
    }

    method MakePipe() returns (p: Pipe)
      modifies this
      ensures p == NewPipe(oracle, old(table)) && table == Piped(oracle, old(table))
      ensures closed == old(closed)
    {
      p := NewPipe(oracle, table);
      table := Piped(oracle, table);
    }

    /** Two pipes, one after the other. */
    method MakeTwoPipes() returns (p: Pipe, q: Pipe)
      modifies this
      ensures p == NewPipe(oracle, old(table)) && q == NewPipe(oracle, Piped(oracle, old(table)))
      ensures table == Piped(oracle, Piped(oracle, old(table))) && closed == old(closed)
    {
      p := MakePipe();
      q := MakePipe();
    }

    /** Closes each descriptor of an array once, the standard ones and unused entries apart. */
    method CloseUnusedFromArray(fds: array<int>)
      modifies this
      ensures table == old(table).(open := old(table).open - Above(Listed(fds[..])))
      ensures closed == old(closed) + Kept(Distinct(fds[..], fds.Length), {})
    {
      hide Kept; hide Added; hide Listed; hide Above; hide Distinct;
      KeptNone({});
      ghost var values := fds[..];
      var distinct := new int[fds.Length](_ => -1);
      NothingDistinct(fds.Length);
      assert values[..0] == [] && distinct[..] == seq(fds.Length, _ => -1);
      var i: nat := 0;
      while i < fds.Length
        invariant i <= fds.Length == distinct.Length && fds[..] == values && fresh(distinct)
        invariant distinct[..] == Distinct(values[..i], fds.Length)
        invariant table == old(table) && closed == old(closed)
      {
        DistinctSnoc(values, i, fds.Length);
        var status := AddSet(distinct, fds[i]);
        i := i + 1;
      }
      assert values[..i] == values;
      ghost var all := distinct[..];
      i := 0;
      assert all[..i] == [];
      while i < fds.Length
        invariant i <= fds.Length == distinct.Length && distinct[..] == all
        invariant table == old(table).(open := old(table).open - Listed(Kept(all[..i], {})))
        invariant closed == old(closed) + Kept(all[..i], {})
      {
        KeptSnoc(all, i, {});
        if distinct[i] > 2 {
          Close(distinct[i]);
        }
        i := i + 1;
      }
      assert all[..i] == all;
      KeptOfDistinct(values, {});
    }
  }

  lemma NothingDistinct(size: nat)
    ensures Distinct([], size) == seq(size, _ => -1)
  {
  }

  lemma DistinctSnoc(values: seq<int>, i: nat, size: nat)
    requires i < |values|
    ensures Distinct(values[..i + 1], size) == Added(Distinct(values[..i], size), values[i])
  {
    assert values[..i + 1][..i] == values[..i];
  }

  /** What is closed of an array: each of its values that is above 2 and not spared. */
  lemma KeptOfDistinct(values: seq<int>, spared: set<int>)
    ensures Listed(Kept(Distinct(values, |values|), spared)) == Above(Listed(values)) - spared
  {
    hide Kept; hide Distinct;
    DistinctMembers(values);
    forall v
      ensures v in Listed(Kept(Distinct(values, |values|), spared)) <==> v in Above(Listed(values)) - spared
    {
      KeptMember(Distinct(values, |values|), spared, v);
    }
  }

  function Listed(s: seq<int>): set<int> {
    set v | v in s
  }

  /** The members of `s` above 2 and not to be spared, in order. */
  function Kept(s: seq<int>, spared: set<int>): seq<int> {
    if s == [] then []
    else
      var n := |s| - 1;
      Kept(s[..n], spared) + if s[n] > 2 && s[n] !in spared then [s[n]] else []
  }

  lemma KeptNone(spared: set<int>)
    ensures Kept([], spared) == [] && Listed(Kept([], spared)) == {}
  {
  }

  lemma KeptSnoc(s: seq<int>, i: nat, spared: set<int>)
    requires i < |s|
    ensures Kept(s[..i + 1], spared) == Kept(s[..i], spared) + if s[i] > 2 && s[i] !in spared then [s[i]] else []
    ensures Listed(Kept(s[..i + 1], spared))
         == Listed(Kept(s[..i], spared)) + if s[i] > 2 && s[i] !in spared then {s[i]} else {}
  {
    assert s[..i + 1][..i] == s[..i];
  }

  lemma {:induction false} KeptMember(s: seq<int>, spared: set<int>, v: int)
    ensures v in Kept(s, spared) <==> v in s && v > 2 && v !in spared
  {
    if s != [] {
      KeptMember(s[..|s| - 1], spared, v);
    }
  }

  /** What is closed of three descriptors: each of them that is above 2 and not spared. */
  lemma KeptOfThree(x: int, y: int, z: int, spared: set<int>)
    ensures Listed(Kept(Distinct3(x, y, z), spared)) == Above({x, y, z}) - spared
  {
    hide Kept; hide Distinct3;
    Distinct3Members(x, y, z);
    forall v
      ensures v in Listed(Kept(Distinct3(x, y, z), spared)) <==> v in Above({x, y, z}) - spared
    {
      KeptMember(Distinct3(x, y, z), spared, v);
    }
  }
}
