/** The shell's descriptor table.  Which opens succeed and which free number the kernel hands
    out are decided by an oracle; a number handed out is never one that is already open, and
    0, 1 and 2 are taken to be open always. */
module Descriptors {

  /** `grants(n)` decides the n-th call of open; `hint(n)` proposes the n-th number handed out. */
  datatype Oracle = Oracle(grants: nat -> bool, hint: nat -> int)

  /** How a file is opened: for reading, or for writing if there is no such file yet, with what it had
      cut off, or behind what it has. */
  datatype Mode = Read | Create | Truncate | Append

  datatype Opening = Opening(file: string, mode: Mode)

  /** `asked` records every call of open, and `files` what each granted one has returned. */
  datatype Table = Table(open: set<int>, opens: nat, handed: nat, asked: seq<Opening>, files: seq<int>)

  datatype Pipe = Pipe(readEnd: int, writeEnd: int)

  function LowestFree(from: int, open: set<int>): (fd: int)
    ensures fd >= from && fd !in open
    decreases |open|
  {
    if from in open then LowestFree(from + 1, open - {from}) else from
  }

  function Fresh(o: Oracle, t: Table): (fd: int)
    ensures fd > 2 && fd !in t.open
  {
    var fd := o.hint(t.handed);
    if fd > 2 && fd !in t.open then fd else LowestFree(3, t.open)
  }

  function Handed(o: Oracle, t: Table): Table {
    t.(open := t.open + {Fresh(o, t)}, handed := t.handed + 1)
  }

  function NewPipe(o: Oracle, t: Table): (p: Pipe)
    ensures p.readEnd > 2 && p.writeEnd > 2 && p.readEnd != p.writeEnd
    ensures p.readEnd !in t.open && p.writeEnd !in t.open
  {
    Pipe(Fresh(o, t), Fresh(o, Handed(o, t)))
  }

  function Piped(o: Oracle, t: Table): (u: Table)
    ensures u.open == t.open + {NewPipe(o, t).readEnd, NewPipe(o, t).writeEnd}
    ensures u.opens == t.opens && u.files == t.files && u.asked == t.asked
  {
    Handed(o, Handed(o, t))
  }

  /** A granted open. */
  function Opened(o: Oracle, t: Table, opening: Opening): Table {
    Handed(o, t).(opens := t.opens + 1, asked := t.asked + [opening], files := t.files + [Fresh(o, t)])
  }

  /** An open that was refused. */
  function Refused(t: Table, opening: Opening): Table {
    t.(opens := t.opens + 1, asked := t.asked + [opening])
  }

  function Closed(t: Table, fd: int): Table {
    t.(open := t.open - {fd})
  }

  /** The descriptors of a set that are not standard streams. */
  function Above(fds: set<int>): set<int> {
    set fd | fd in fds && fd > 2
  }

  function PipeEnds(p: Pipe): set<int> {
    {p.readEnd, p.writeEnd}
  }

  /** Both ends of every pipe of a list. */
  function Ends(ps: seq<Pipe>): set<int> {
    if ps == [] then {} else Ends(ps[..|ps| - 1]) + PipeEnds(ps[|ps| - 1])
  }

  lemma EndsOfOne(p: Pipe)
    ensures Ends([p]) == PipeEnds(p)
  {
    assert [p][..0] == [];
  }

  lemma EndsSnoc(ps: seq<Pipe>, p: Pipe)
    ensures Ends(ps + [p]) == Ends(ps) + PipeEnds(p)
  {
    assert (ps + [p])[..|ps|] == ps;
  }

  lemma {:induction false} EndsOfConcat(ps: seq<Pipe>, qs: seq<Pipe>)
    ensures Ends(ps + qs) == Ends(ps) + Ends(qs)
  {
    if qs == [] {
      assert ps + qs == ps;
    } else {
      var n := |qs| - 1;
      EndsOfConcat(ps, qs[..n]);
      EndsSnoc(ps + qs[..n], qs[n]);
      assert ps + qs[..n] + [qs[n]] == ps + qs;
    }
  }

  lemma {:induction false} EndsMember(ps: seq<Pipe>, i: nat)
    requires i < |ps|
    ensures PipeEnds(ps[i]) <= Ends(ps)
  {
    if i < |ps| - 1 {
      EndsMember(ps[..|ps| - 1], i);
    }
  }
}
