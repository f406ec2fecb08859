/** Statuses of processes and jobs (src/jobs.c), and the status words in which waitpid reports. */
module Statuses {
  import opened Options

  datatype Status = Running | Stopped | Detached | Killed | Done

  type Byte = x: int | 0 <= x < 256
  type Signal = x: int | 1 <= x <= 64 witness 1

  /** What can have happened to a child. */
  datatype Change = Exit(code: Byte) | Kill(signal: Signal, core: bool) | Stop(signal: Signal) | Continue

  /** How the kernel packs a change into a status word. */
  function StatusWord(c: Change): nat {
    match c
    case Exit(code) => code * 256
    case Kill(signal, core) => signal + if core then 128 else 0
    case Stop(signal) => 127 + signal * 256
    case Continue => 0xffff
  }

  predicate WIfExited(w: nat) { w % 128 == 0 }

  predicate WIfStopped(w: nat) { w % 256 == 127 }

  predicate WIfContinued(w: nat) { w == 0xffff }

  predicate WIfSignaled(w: nat) { 1 <= w % 128 <= 126 }

  function WExitStatus(w: nat): Byte { w / 256 % 256 }

  function StatusFromWord(w: nat): Status {
    if WIfExited(w) then Done
    else if WIfStopped(w) then Stopped
    else if WIfContinued(w) then Running
    else if WIfSignaled(w) then Killed
    else Running
  }

  lemma TwoBytes(high: Byte, low: Byte)
    ensures (high * 256 + low) % 256 == low && (high * 256 + low) % 128 == low % 128
    ensures (high * 256 + low) / 256 == high
  {
    assert high * 256 + low == 128 * (2 * high) + low;
  }

  /** The two bytes of a status word. */
  lemma WordBytes(c: Change) returns (high: Byte, low: Byte)
    ensures StatusWord(c) == high * 256 + low && StatusWord(c) % 256 == low && StatusWord(c) % 128 == low % 128
    ensures WExitStatus(StatusWord(c)) == high
    ensures match c
            case Exit(code) => high == code && low == 0
            case Kill(_, _) => high == 0 && 1 <= low % 128 <= 64
            case Stop(signal) => high == signal && low == 127
            case Continue => high == 255 && low == 255
  {
    match c
    case Exit(code) => high, low := code, 0;
    case Kill(signal, core) => high, low := 0, signal + if core then 128 else 0;
    case Stop(signal) => high, low := signal, 127;
    case Continue => high, low := 255, 255;
    TwoBytes(high, low);
  }

  /** Decoding recovers what happened; the exit status of a killed process reads as 0. */
  lemma DecodingRecovers(c: Change)
    ensures StatusFromWord(StatusWord(c)) ==
            match c case Exit(_) => Done case Kill(_, _) => Killed case Stop(_) => Stopped case Continue => Running
    ensures WExitStatus(StatusWord(c)) ==
            match c case Exit(code) => code case Kill(_, _) => 0 case Stop(signal) => signal case Continue => 255
  {
    hide StatusWord; hide WExitStatus;
    var high, low := WordBytes(c);
  }

  lemma SevenBits(q: nat, r: nat)
    requires r < 128
    ensures (128 * q + r) % 128 == r
  {
  }

  /** The low seven bits are those of the low byte. */
  lemma LowBits(w: nat)
    ensures w % 256 == w % 128 || w % 256 == w % 128 + 128
  {
    var high, low := w / 256, w % 256;
    if low < 128 {
      SevenBits(2 * high, low);
      assert w == 128 * (2 * high) + low;
    } else {
      SevenBits(2 * high + 1, low - 128);
      assert w == 128 * (2 * high + 1) + (low - 128);
    }
  }

  /** The last answer is only for words that no kernel reports. */
  lemma FallbackIsForOtherWords(w: nat)
    ensures !WIfExited(w) && !WIfStopped(w) && !WIfContinued(w) && !WIfSignaled(w) <==> w % 256 == 255 && w != 0xffff
    ensures forall c :: StatusWord(c) == w ==> WIfExited(w) || WIfStopped(w) || WIfContinued(w) || WIfSignaled(w)
  {
    hide StatusWord; hide WExitStatus;
    LowBits(w);
    forall c | StatusWord(c) == w
      ensures WIfExited(w) || WIfStopped(w) || WIfContinued(w) || WIfSignaled(w)
    {
      KernelWordIsKnown(c);
    }
  }

  lemma KernelWordIsKnown(c: Change)
    ensures var w := StatusWord(c); WIfExited(w) || WIfStopped(w) || WIfContinued(w) || WIfSignaled(w)
  {
    hide StatusWord; hide WExitStatus;
    var high, low := WordBytes(c);
  }

  /** A process that the shell started: its pid, the order in which it was started, and the
      status last seen.  The order identifies the process: pids are used again. */
  datatype Subjob = Subjob(pid: int, serial: nat, lastStatus: Status)

  predicate IsFinishedStatus(s: Status) {
    s == Done || s == Killed || s == Detached
  }

  /** The place in slot i has status `s`. */
  predicate Has(subs: seq<Option<Subjob>>, i: nat, s: Status) {
    i < |subs| && subs[i].Some? && subs[i].value.lastStatus == s
  }

  ghost predicate SomeHave(subs: seq<Option<Subjob>>, s: Status) {
    exists i: nat :: Has(subs, i, s)
  }

  ghost predicate Alive(subs: seq<Option<Subjob>>) {
    SomeHave(subs, Running) || SomeHave(subs, Stopped)
  }

  /** The status of a job by the design's definitions: `groupExists` tells whether some process of
      its group has not ended. */
  ghost function JobStatus(subs: seq<Option<Subjob>>, groupExists: bool): Status {
    if SomeHave(subs, Running) then Running
    else if SomeHave(subs, Stopped) then Stopped
    else if groupExists then Detached
    else if SomeHave(subs, Killed) then Killed
    else Done
  }

  lemma AliveStep(subs: seq<Option<Subjob>>, i: nat)
    requires i < |subs|
    ensures forall s :: SomeHave(subs[..i + 1], s) <==> SomeHave(subs[..i], s) || Has(subs, i, s)
  {
    forall s
      ensures SomeHave(subs[..i + 1], s) <==> SomeHave(subs[..i], s) || Has(subs, i, s)
    {
      if SomeHave(subs[..i], s) {
        var k: nat :| Has(subs[..i], k, s);
        assert Has(subs[..i + 1], k, s);
      }
      if Has(subs, i, s) {
        assert Has(subs[..i + 1], i, s);
      }
      if SomeHave(subs[..i + 1], s) {
        var k: nat :| Has(subs[..i + 1], k, s);
        assert k < i ==> Has(subs[..i], k, s);
      }
    }
  }
}
