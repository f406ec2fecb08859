/** What fg, bg and jobs do to the jobs, and what they answer (src/fg.c, src/bg.c, src/jobs.c). */
module Continuing {
  import opened Options
  import opened Commands
  import opened Statuses
  import opened Kernels
  import opened Waiting
  import opened JobTables
  import opened Tracking
  import opened Sessions
  import opened Soundness
  import opened Runs

  /** fg can continue a job if and only if it has a group and some process is left in that group;
      otherwise every job stays where it is, and so does every child. */
  lemma FgSucceedsExactly(w: World, s: Session, i: nat)
    requires Sound(s, []) && i < |s.slots| && s.slots[i].Some?
    ensures var r := Foregrounded(w, s.kernel, s.slots, i);
            var pgid := s.slots[i].value.pgid;
            && (r.2 <==> pgid != 0 && GroupExists(w, s.kernel, pgid))
            && (!r.2 ==> r.1 == s.slots && r.0.children == s.kernel.children)
  {
    hide Wait; hide Sound; hide Lost; hide Occupied; hide GroupExists;
    TickKeepsSession(s, []);
    WaitingFor(w, s.(kernel := Ticked(s.kernel)), i, []);
  }

  /** The word names the job in slot `i`. */
  predicate Names(con: Console, slots: Slots, word: Word, i: nat) {
    && word.Text? && |word.text| > 0 && word.text[0] == '%'
    && con.number(word.text[1..]) == Some(i + 1)
    && i < |slots| && slots[i].Some?
  }

  /** It names a job in whose group some process is left. */
  predicate NamesGroup(w: World, con: Console, s: Session, word: Word, i: nat) {
    Names(con, s.slots, word, i) && GroupExists(w, s.kernel, s.slots[i].value.pgid)
  }

  lemma NamesIsNamedSlot(con: Console, slots: Slots, word: Word, i: nat)
    ensures NamedSlot(con, slots, word) == Some(i) <==> Names(con, slots, word, i)
    ensures NamedSlot(con, slots, word).Some? <==> exists k: nat :: Names(con, slots, word, k)
  {
    if NamedSlot(con, slots, word).Some? {
      assert Names(con, slots, word, NamedSlot(con, slots, word).value);
    }
  }

  /** fg returns 0 if and only if its one argument names a job that has a group with some process in
      it; the job has then finished and is out of the table, or is stopped and where it was.
      Otherwise fg returns 1 and changes neither the table nor the children. */
  lemma FgAnswers(w: World, con: Console, s: Session, c: Call)
    requires Sound(s, []) && c.argv != [] && c.argv[0] == Text("fg")
    ensures IsInternal(c)
    ensures var r := Builtin(w, con, s, c);
            && (r.1 == 0 <==>
                  |c.argv| == 2
                  && exists i: nat :: NamesGroup(w, con, s, c.argv[1], i) && s.slots[i].value.pgid != 0)
            && (r.1 != 0 ==> r.1 == 1 && r.0.slots == s.slots && r.0.kernel.children == s.kernel.children)
            && (forall i: nat | r.1 == 0 && Names(con, s.slots, c.argv[1], i) ::
                  var job := Wait(w, Ticked(s.kernel), s.slots[i].value, false).job;
                  r.0.slots == s.slots[i := if AllFinished(job.subs) then None else Some(job)])
  {
    hide Wait; hide Sound; hide Foregrounded; hide NamedSlot; hide Names; hide GroupExists; hide AllFinished;
    if |c.argv| == 2 {
      var slot := NamedSlot(con, s.slots, c.argv[1]);
      forall i: nat
        ensures slot == Some(i) <==> Names(con, s.slots, c.argv[1], i)
        ensures slot.Some? <==> exists k: nat :: Names(con, s.slots, c.argv[1], k)
      {
        NamesIsNamedSlot(con, s.slots, c.argv[1], i);
      }
      if slot.Some? {
        FgSucceedsExactly(w, s, slot.value);
        if Foregrounded(w, s.kernel, s.slots, slot.value).2 {
          FgEnds(w, s, slot.value);
        }
      }
    }
  }

  /** bg returns 0 if and only if its one argument names a job in whose group some process is left,
      and 1 otherwise; it waits for nobody. */
  lemma BgAnswers(w: World, con: Console, s: Session, c: Call)
    requires c.argv != [] && c.argv[0] == Text("bg")
    ensures IsInternal(c)
    ensures var r := Builtin(w, con, s, c);
            && (r.1 == 0 <==> |c.argv| == 2 && exists i: nat :: NamesGroup(w, con, s, c.argv[1], i))
            && 0 <= r.1 <= 1 && r.0.slots == s.slots && r.0.kernel.children == s.kernel.children
  {
    hide NamedSlot; hide Names; hide GroupExists;
    if |c.argv| == 2 {
      var slot := NamedSlot(con, s.slots, c.argv[1]);
      forall i: nat
        ensures slot == Some(i) <==> Names(con, s.slots, c.argv[1], i)
        ensures slot.Some? <==> exists k: nat :: Names(con, s.slots, c.argv[1], k)
      {
        NamesIsNamedSlot(con, s.slots, c.argv[1], i);
      }
      if slot.Some? {
        assert NamesGroup(w, con, s, c.argv[1], slot.value)
          <==> GroupExists(w, s.kernel, s.slots[slot.value].value.pgid);
      }
    }
  }

  /** jobs looks at all jobs first: what it leaves is what a refresh leaves, without jobs that have ended.
      It returns 1 exactly if it has more than two arguments, or the first, or the one behind `-t`, begins
      with a percent sign and names no job. */
  lemma JobsAnswers(w: World, con: Console, s: Session, c: Call)
    requires c.argv != [] && c.argv[0] == Text("jobs")
    ensures IsInternal(c)
    ensures var r := Builtin(w, con, s, c);
            var at := if |c.argv| > 1 && c.argv[1] == Text("-t") then 2 else 1;
            && r.0 == Refreshed(w, s)
            && (forall i | 0 <= i < |r.0.slots| && r.0.slots[i].Some? :: Alive(r.0.slots[i].value.subs))
            && 0 <= r.1 <= 1
            && (r.1 == 1 <==>
                  || |c.argv| > 3
                  || (at < |c.argv| && c.argv[at].Text? && |c.argv[at].text| > 0 && c.argv[at].text[0] == '%'
                      && forall i: nat :: !Names(con, r.0.slots, c.argv[at], i)))
  {
    hide Sweep; hide NamedSlot; hide Names;
    forall i: nat | i < |Refreshed(w, s).slots|
      ensures Refreshed(w, s).slots[i].Some? ==> Alive(Refreshed(w, s).slots[i].value.subs)
    {
      SweepLeavesTheLiving(w, s.kernel, s.slots, i);
    }
    var at := if |c.argv| > 1 && c.argv[1] == Text("-t") then 2 else 1;
    if at < |c.argv| {
      NamesIsNamedSlot(con, Refreshed(w, s).slots, c.argv[at], 0);
    }
  }

  /** The others are run in the shell too, and change nothing that the shell knows; of their codes only
      that of ? is modelled, 0 exactly without arguments. */
  lemma OthersChangeNothing(w: World, con: Console, s: Session, c: Call)
    requires c.argv != [] && c.argv[0].Text? && c.argv[0].text in ["cd", "pwd", "?", "kill"]
    ensures IsInternal(c)
    ensures var r := Builtin(w, con, s, c);
            && r.0 == s.(kernel := r.0.kernel) && r.0.kernel.children == s.kernel.children
            && 0 <= r.1 <= 1 && (c.argv[0].text == "?" ==> (r.1 == 0 <==> |c.argv| == 1))
  {
  }
}
