/** The kernel's side of process control: the shell's unreaped children, their groups and what each
    has open.  A world decides what the kernel would answer; `clock` counts the answers given. */
module Kernels {
  import opened Options
  import opened Descriptors
  import opened Commands
  import opened Statuses

  /** What a waitpid that may not return at once can report without WCONTINUED. */
  type Awaited = c: Change | !c.Continue? witness Exit(0)

  /** `polled` and `awaited` answer a waitpid with and without WNOHANG, `lingers` tells whether
      descendants keep a group of reaped children alive, `pid` proposes the next pid, and
      `survives` tells whether a child lives to answer its parent. */
  datatype World = World(pid: nat -> int, polled: nat -> Option<Change>, awaited: nat -> Awaited,
                         lingers: nat -> bool, survives: nat -> bool)

  /** What a process executes: the arguments of its program, and which descriptors of the shell its
      standard streams are copies of. */
  datatype Program = Program(argv: seq<Word>, streams: seq<int>)

  /** What a process has open, the copies for its standard streams apart, and its program, if it has come
      to executing one. */
  datatype Image = Image(open: set<int>, program: Option<Program>)

  datatype Process = Process(serial: nat, group: int, image: Image)

  /** `started` counts the children ever started, `reaped` lists those waited for to the end, and
      `refused` counts the calls of waitpid on something that is not an unreaped child. */
  datatype Kernel = Kernel(children: map<int, Process>, clock: nat, started: nat, reaped: seq<nat>, refused: nat)

  predicate IsGroup(k: Kernel, group: int) {
    exists pid | pid in k.children :: k.children[pid].group == group
  }

  function Taken(k: Kernel): set<int> {
    k.children.Keys + set pid | pid in k.children :: k.children[pid].group
  }

  function NewPid(w: World, k: Kernel): (pid: int)
    ensures pid > 0 && pid !in k.children && !IsGroup(k, pid)
  {
    var hint := w.pid(k.started);
    if hint > 0 && hint !in Taken(k) then hint else LowestFree(1, Taken(k))
  }

  function Forked(w: World, k: Kernel, group: int, image: Image): Kernel {
    k.(children := k.children[NewPid(w, k) := Process(k.started, group, image)], started := k.started + 1)
  }

  function Ticked(k: Kernel): Kernel {
    k.(clock := k.clock + 1)
  }

  datatype Answer = Answer(kernel: Kernel, pid: int, word: nat)

  predicate IsFatal(c: Change) {
    c.Exit? || c.Kill?
  }

  function Reported(k: Kernel, pid: int, c: Change): Answer
    requires pid in k.children
  {
    var now := Ticked(k);
    Answer(if !IsFatal(c) then now
           else now.(children := k.children - {pid}, reaped := k.reaped + [k.children[pid].serial]),
           pid, StatusWord(c))
  }

  /** waitpid(pid, &word, ...) with or without WNOHANG. */
  function WaitPid(w: World, k: Kernel, pid: int, noHang: bool): Answer {
    if pid !in k.children then Answer(k.(refused := k.refused + 1), -1, 0)
    else if !noHang then Reported(k, pid, w.awaited(k.clock))
    else match w.polled(k.clock)
         case None => Answer(Ticked(k), 0, 0)
         case Some(c) => Reported(k, pid, c)
  }

  /** kill(-group, 0) == 0: with group 0 this asks about the shell's own group. */
  function GroupExists(w: World, k: Kernel, group: int): bool {
    group == 0 || IsGroup(k, group) || w.lingers(k.clock)
  }

  const SHELL_GROUP := 0

  class System {
    const world: World
    var kernel: Kernel

    constructor (world: World)
      ensures this.world == world && kernel == Kernel(map[], 0, 0, [], 0)
    {
      this.world, kernel := world, Kernel(map[], 0, 0, [], 0);
    }

    method Wait(pid: int, noHang: bool) returns (answer: int, word: nat)
      modifies this
      ensures var r := WaitPid(world, old(kernel), pid, noHang); kernel == r.kernel && answer == r.pid && word == r.word
    {
      var r := WaitPid(world, kernel, pid, noHang);
      kernel := r.kernel;
      answer, word := r.pid, r.word;
    }

    method Ping(group: int) returns (exists_: bool)
      modifies this
      ensures exists_ == GroupExists(world, old(kernel), group) && kernel == Ticked(old(kernel))
    {
      exists_ := GroupExists(world, kernel, group);
      kernel := Ticked(kernel);
    }

    method Tick()
      modifies this
      ensures kernel == Ticked(old(kernel))
    {
      kernel := Ticked(kernel);
    }

    /** A new child, a copy of the shell until it has joined a group and closed its descriptors. */
    method Fork(open: set<int>) returns (pid: int, serial: nat)
      modifies this
      ensures pid == NewPid(world, old(kernel)) && serial == old(kernel).started
      ensures kernel == Forked(world, old(kernel), SHELL_GROUP, Image(open, None))
    {
      pid, serial := NewPid(world, kernel), kernel.started;
      kernel := Forked(world, kernel, SHELL_GROUP, Image(open, None));
    }

    /** What the child has become by the time it executes its program, or dies. */
    method Become(pid: int, group: int, image: Image)
      requires pid in kernel.children
      modifies this
      ensures var process := Process(old(kernel).children[pid].serial, group, image);
              kernel == old(kernel).(children := old(kernel).children[pid := process])
    {
      kernel := kernel.(children := kernel.children[pid := kernel.children[pid].(group := group, image := image)]);
    }
  }
}
