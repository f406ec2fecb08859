/** What the shell remembers between commands, and what its internal commands do to it
    (src/exit.c, src/fg.c, src/bg.c, src/jobs.c, src/internals.c). */
module Sessions {
  import opened Options
  import opened Commands
  import opened Statuses
  import opened Kernels
  import opened Waiting
  import opened JobTables

  /** `code` is last_exit_code and `exiting` is should_exit. */
  datatype Session = Session(kernel: Kernel, slots: Slots, code: int, exiting: bool)

  /** How words read as numbers, and what the internal commands that are not modelled return. */
  datatype Console = Console(number: string -> Option<int>, succeeds: nat -> bool)

  const INTERNAL_COMMANDS := ["cd", "exit", "pwd", "?", "jobs", "fg", "bg", "kill"]

  predicate IsInternal(c: Call) {
    c.argv != [] && c.argv[0].Text? && c.argv[0].text in INTERNAL_COMMANDS
  }

  function NumberOf(con: Console, w: Word): Option<int> {
    if w.Text? then con.number(w.text) else None
  }

  /** The jobs as they are known after a look at all of them. */
  ghost function Refreshed(w: World, s: Session): Session {
    var r := Sweep(w, s.kernel, s.slots);
    s.(kernel := r.0, slots := r.1)
  }

  ghost predicate SomeJobAlive(slots: Slots) {
    exists i :: 0 <= i < |slots| && slots[i].Some? && Alive(slots[i].value.subs)
  }

  ghost function ExitCommand(w: World, con: Console, s: Session, argv: seq<Word>): (Session, int) {
    if |argv| > 2 then (s, 1)
    else
      var t := Refreshed(w, s);
      if SomeJobAlive(t.slots) then (t, 1)
      else if |argv| != 2 then (t.(exiting := true), t.code)
      else
        match NumberOf(con, argv[1])
        case None => (t, 1)
        case Some(v) => if v < 0 || v > 255 then (t, 1) else (t.(exiting := true, code := v), v)
  }

  /** The slot of the job that a word such as %3 names. */
  function NamedSlot(con: Console, slots: Slots, w: Word): (i: Option<nat>)
    ensures i.Some? ==> i.value < |slots| && slots[i.value].Some?
  {
    if !(w.Text? && "%" <= w.text) then None
    else
      match con.number(w.text[1..])
      case None => None
      case Some(id) => if 1 <= id <= |slots| && slots[id - 1].Some? then Some(id - 1) else None
  }

  /** Continues the job of one slot and waits for it to stop or to finish. */
  ghost function Foreground(w: World, s: Session, i: nat): (Session, bool)
    requires i < |s.slots| && s.slots[i].Some?
  {
    var r := Foregrounded(w, s.kernel, s.slots, i);
    (s.(kernel := r.0, slots := r.1), r.2)
  }

  function ExitStatus(success: bool): int {
    if success then 0 else 1
  }

  ghost function FgCommand(w: World, con: Console, s: Session, argv: seq<Word>): (Session, int) {
    if |argv| != 2 || NamedSlot(con, s.slots, argv[1]).None? then (s, 1)
    else
      var r := Foreground(w, s, NamedSlot(con, s.slots, argv[1]).value);
      (r.0, ExitStatus(r.1))
  }

  function BgCommand(w: World, con: Console, s: Session, argv: seq<Word>): (Session, int) {
    if |argv| != 2 || NamedSlot(con, s.slots, argv[1]).None? then (s, 1)
    else
      var j := s.slots[NamedSlot(con, s.slots, argv[1]).value].value;
      (s.(kernel := Ticked(s.kernel)), ExitStatus(GroupExists(w, s.kernel, j.pgid)))
  }

  /** jobs refuses too many arguments, and a word with a percent sign that names no job; an option `-t` may
      stand in front of that word. */
  function JobsCode(con: Console, slots: Slots, argv: seq<Word>): int {
    var at := if |argv| > 1 && argv[1] == Text("-t") then 2 else 1;
    if |argv| > 3 then 1
    else if |argv| > at && argv[at].Text? && "%" <= argv[at].text && NamedSlot(con, slots, argv[at]).None? then 1
    else 0
  }

  /** An internal command: the session after it and its own exit code. */
  ghost function Builtin(w: World, con: Console, s: Session, c: Call): (Session, int)
    requires IsInternal(c)
  {
    var name := c.argv[0].text;
    if name == "exit" then ExitCommand(w, con, s, c.argv)
    else if name == "fg" then FgCommand(w, con, s, c.argv)
    else if name == "bg" then BgCommand(w, con, s, c.argv)
    else if name == "jobs" then
      var t := Refreshed(w, s);
      (t, JobsCode(con, t.slots, c.argv))
    else if name == "?" then (s, ExitStatus(|c.argv| == 1))
    else (s.(kernel := Ticked(s.kernel)), ExitStatus(con.succeeds(s.kernel.clock)))
  }

  /** The internal commands that look at the jobs, and so may take some out of the table. */
  predicate Looks(c: Call) {
    IsInternal(c) && c.argv[0].text in ["exit", "jobs", "fg"]
  }

  /** The others leave the table alone, and none takes back the decision to leave. */
  lemma BuiltinStays(w: World, con: Console, s: Session, c: Call)
    requires IsInternal(c)
    ensures !Looks(c) ==> Builtin(w, con, s, c).0.slots == s.slots
    ensures s.exiting ==> Builtin(w, con, s, c).0.exiting
  {
    hide Sweep; hide Foregrounded; hide SomeJobAlive; hide NamedSlot;
  }
}
