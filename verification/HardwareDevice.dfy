/** The device simulator (Labs/Lab 4/hardwareDevice.c:77-140, 168-185): a kernel thread sweeps a shared
    buffer in place while ioctl calls halt and resume it, and unloading takes its flag away, at any point. */
module HardwareDevice {
  const BUF_LEN: nat := 16
  const CELLS: nat := 15
  /** Character codes. No cell ever exceeds 'z' + 1, so the 8-bit char of the source does not wrap. */
  const A: int := 97
  const Z: int := 122
  const NUL: int := 0

  datatype Command = Halt | Resume | Unknown

  datatype SimPc =
    | Fill(i: nat)   // 85-88
    | RunTest        // 89
    | HaltTest       // 90
    | Sweep(i: nat)  // 91-92
    | Wrap(i: nat)   // 93
    | Terminate      // 95
    | Nap            // 96
    | Pause          // 98
    | Stopped        // 100

  /** sweeps counts the sweeps completed so far; no step reads it. */
  datatype State = State(buffer: seq<int>, isRunning: bool, isHalt: bool, pc: SimPc, sweeps: nat)

  datatype Action = Sim | Ioctl(cmd: Command) | Unregister

  function SimStep(s: State): State
    requires |s.buffer| == BUF_LEN
  {
    match s.pc
    case Fill(i) =>
      if i < CELLS then s.(buffer := s.buffer[i := A], pc := Fill(i + 1))
      else s.(buffer := s.buffer[CELLS := NUL], pc := RunTest)
    case RunTest => s.(pc := if s.isRunning then HaltTest else Stopped)
    case HaltTest => s.(pc := if s.isHalt then Pause else Sweep(0))
    case Sweep(i) =>
      if i < CELLS then s.(buffer := s.buffer[i := s.buffer[i] + 1], pc := Wrap(i))
      else s.(pc := Terminate)
    case Wrap(i) =>
      if i < CELLS && s.buffer[i] > Z then s.(buffer := s.buffer[i := A], pc := Sweep(i + 1))
      else s.(pc := Sweep(i + 1))
    case Terminate => s.(buffer := s.buffer[CELLS := NUL], pc := Nap, sweeps := s.sweeps + 1)
    case Nap => s.(pc := HaltTest)
    case Pause => s.(pc := RunTest)
    case Stopped => s
  }

  function IoctlStep(s: State, cmd: Command): State {
    match cmd
    case Halt => s.(isHalt := true)
    case Resume => s.(isHalt := false)
    case Unknown => s
  }

  /** Lines 134-135. */
  function UnregisterStep(s: State): State {
    s.(isRunning := false, isHalt := false)
  }

  function Step(s: State, act: Action): (s': State)
    requires |s.buffer| == BUF_LEN
    ensures |s'.buffer| == BUF_LEN
  {
    match act
    case Sim => SimStep(s)
    case Ioctl(cmd) => IoctlStep(s, cmd)
    case Unregister => UnregisterStep(s)
  }

  function After(s: State, schedule: seq<Action>): (s': State)
    requires |s.buffer| == BUF_LEN
    ensures |s'.buffer| == BUF_LEN
  {
    if schedule == [] then s
    else Step(After(s, schedule[..|schedule| - 1]), schedule[|schedule| - 1])
  }

  ghost predicate Initial(s: State) {
    |s.buffer| == BUF_LEN && s.isRunning && !s.isHalt && s.pc == Fill(0) && s.sweeps == 0
  }

  // ---------- The torn-sweep invariant ----------

  /** The letter every cell shows after n sweeps. */
  function Letter(n: nat): int {
    A + n % 26
  }

  ghost predicate AllFrom(b: seq<int>, i: nat, j: nat, c: int)
    requires j <= |b|
  {
    forall k :: i <= k < j ==> b[k] == c
  }

  /** Seen by a reader in the middle of a sweep: cells up to i already show the next letter, the others
      still the old one, except that cell i may be one past 'z' on its way, and the text is terminated. */
  ghost predicate Torn(s: State) {
    && |s.buffer| == BUF_LEN
    && match s.pc
       case Fill(i) => i <= CELLS && s.sweeps == 0 && AllFrom(s.buffer, 0, i, A)
       case Sweep(i) =>
         i <= CELLS && AllFrom(s.buffer, 0, i, Letter(s.sweeps + 1))
         && AllFrom(s.buffer, i, CELLS, Letter(s.sweeps)) && s.buffer[CELLS] == NUL
       case Wrap(i) =>
         i < CELLS && AllFrom(s.buffer, 0, i, Letter(s.sweeps + 1)) && s.buffer[i] == Letter(s.sweeps) + 1
         && AllFrom(s.buffer, i + 1, CELLS, Letter(s.sweeps)) && s.buffer[CELLS] == NUL
       case Terminate => AllFrom(s.buffer, 0, CELLS, Letter(s.sweeps + 1)) && s.buffer[CELLS] == NUL
       case _ => AllFrom(s.buffer, 0, CELLS, Letter(s.sweeps)) && s.buffer[CELLS] == NUL
  }

  lemma {:induction false} NextLetter(n: nat)
    ensures Letter(n + 1) == if Letter(n) == Z then A else Letter(n) + 1
  {
  }

  lemma {:induction false} TornStep(s: State, act: Action)
    requires Torn(s)
    ensures Torn(Step(s, act))
  {
    if act == Sim && Sweeping(s.pc) {
      TornSweep(s);
    }
  }

  /** Each turn of a sweep moves the tear by half a cell. */
  lemma {:induction false} TornSweep(s: State)
    requires Torn(s) && Sweeping(s.pc)
    ensures Torn(SimStep(s))
  {
    NextLetter(s.sweeps);
  }

  /** At every step of every interleaving with halts, resumes and unloading the buffer is whole or torn in one place. */
  lemma {:induction false} AlwaysTorn(s0: State, schedule: seq<Action>)
    requires Initial(s0)
    ensures Torn(After(s0, schedule))
  {
    if schedule != [] {
      var front := schedule[..|schedule| - 1];
      AlwaysTorn(s0, front);
      TornStep(After(s0, front), schedule[|schedule| - 1]);
    }
  }

  predicate Sweeping(pc: SimPc) {
    pc.Sweep? || pc.Wrap? || pc.Terminate?
  }

  /** Outside a sweep, after n complete sweeps, all 15 cells are 'a' + (n mod 26) and the text ends there. */
  lemma {:induction false} AfterSweeps(s0: State, schedule: seq<Action>, k: nat)
    requires Initial(s0) && k < CELLS
    ensures var s := After(s0, schedule);
            !Sweeping(s.pc) && !s.pc.Fill? ==> s.buffer[k] == A + s.sweeps % 26 && s.buffer[CELLS] == NUL
  {
    AlwaysTorn(s0, schedule);
  }

  /** Even in the middle of a sweep a reader sees at most two letters, next to each other in the alphabet's
      cycle, and at most one cell in between. */
  lemma {:induction false} ReaderSees(s0: State, schedule: seq<Action>, k: nat)
    requires Initial(s0) && k < CELLS && !After(s0, schedule).pc.Fill?
    ensures var s := After(s0, schedule);
            || s.buffer[k] == Letter(s.sweeps)
            || s.buffer[k] == Letter(s.sweeps + 1)
            || (s.pc == Wrap(k) && s.buffer[k] == Letter(s.sweeps) + 1)
  {
    AlwaysTorn(s0, schedule);
  }

  // ---------- Halting ----------

  /** The commands that clear the halt flag. */
  predicate Clears(act: Action) {
    act == Ioctl(Resume) || act == Unregister
  }

  ghost predicate HaltedLast(schedule: seq<Action>) {
    exists k :: 0 <= k < |schedule| && schedule[k] == Ioctl(Halt)
                && forall j :: k < j < |schedule| ==> !Clears(schedule[j])
  }

  lemma {:induction false} HaltedLastAfter(schedule: seq<Action>, act: Action)
    ensures HaltedLast(schedule + [act]) <==> act == Ioctl(Halt) || (HaltedLast(schedule) && !Clears(act))
  {
    var all, n := schedule + [act], |schedule|;
    assert all[n] == act && forall k :: 0 <= k < n ==> all[k] == schedule[k];
    if act == Ioctl(Halt) {
      assert HaltedLast(all);
    } else if HaltedLast(schedule) && !Clears(act) {
      var k :| 0 <= k < n && schedule[k] == Ioctl(Halt) && forall j :: k < j < n ==> !Clears(schedule[j]);
      assert all[k] == Ioctl(Halt);
    }
  }

  /** In every interleaving the halt flag is set exactly if halt was the last command that speaks about it, and
      the running flag exactly until the device is unregistered. */
  lemma {:induction false} FlagsExactly(s0: State, schedule: seq<Action>)
    requires Initial(s0)
    ensures After(s0, schedule).isHalt <==> HaltedLast(schedule)
    ensures After(s0, schedule).isRunning <==> Unregister !in schedule
  {
    if schedule != [] {
      var front, act := schedule[..|schedule| - 1], schedule[|schedule| - 1];
      assert schedule == front + [act];
      FlagsExactly(s0, front);
      HaltedLastAfter(front, act);
    }
  }

  /** Wherever the thread was when halt was called, and until the flag is cleared: the sweep that was under way,
      if there was one, is completed with exactly the TurnsLeft-th turn, and there is no other. */
  lemma {:induction false} HaltStops(s: State, schedule: seq<Action>)
    requires Torn(s) && forall act :: act in schedule ==> !Clears(act)
    ensures var t := After(Step(s, Ioctl(Halt)), schedule);
            && Torn(t) && t.isHalt
            && t.sweeps == s.sweeps + (if Sweeping(s.pc) && Turns(schedule) >= TurnsLeft(s.pc) then 1 else 0)
            && (Sweeping(t.pc) <==> Sweeping(s.pc) && Turns(schedule) < TurnsLeft(s.pc))
            && (Sweeping(t.pc) ==> TurnsLeft(t.pc) == TurnsLeft(s.pc) - Turns(schedule) >= 1)
  {
    hide Torn, Step, Sweeping, TurnsLeft, Clears;
    HaltCalled(s);
    if schedule != [] {
      var front, act := schedule[..|schedule| - 1], schedule[|schedule| - 1];
      assert act in schedule && forall a :: a in front ==> a in schedule;
      HaltStops(s, front);
      HaltedStep(After(Step(s, Ioctl(Halt)), front), act);
    }
  }

  lemma {:induction false} HaltCalled(s: State)
    requires Torn(s)
    ensures |s.buffer| == BUF_LEN
    ensures var s' := Step(s, Ioctl(Halt));
            Torn(s') && s'.isHalt && s'.pc == s.pc && s'.sweeps == s.sweeps && (Sweeping(s.pc) ==> TurnsLeft(s.pc) >= 1)
  {
    TornStep(s, Ioctl(Halt));
  }

  /** One step of a halted device. */
  lemma {:induction false} HaltedStep(s: State, act: Action)
    requires Torn(s) && s.isHalt && !Clears(act)
    ensures var s' := Step(s, act);
            && Torn(s') && s'.isHalt
            && (Sweeping(s'.pc) <==> Sweeping(s.pc) && !(act == Sim && TurnsLeft(s.pc) == 1))
            && s'.sweeps == s.sweeps + (if act == Sim && Sweeping(s.pc) && TurnsLeft(s.pc) == 1 then 1 else 0)
            && (Sweeping(s'.pc) ==> TurnsLeft(s'.pc) == TurnsLeft(s.pc) - (if act == Sim then 1 else 0) >= 1)
  {
    TornStep(s, act);
  }

  /** A halted thread that is out of its sweep goes round its outer loop, one test of the running flag in three
      turns. */
  lemma {:induction false} HaltedRounds(s: State, schedule: seq<Action>)
    requires |s.buffer| == BUF_LEN && s.pc == HaltTest && s.isHalt && s.isRunning
    requires forall act :: act in schedule ==> !Clears(act)
    ensures var t := After(s, schedule);
            && t.buffer == s.buffer && t.isHalt && t.isRunning
            && t.pc == match Turns(schedule) % 3 case 0 => HaltTest case 1 => Pause case _ => RunTest
  {
    if schedule != [] {
      var front, act := schedule[..|schedule| - 1], schedule[|schedule| - 1];
      assert forall a :: a in front ==> a in schedule;
      assert act in schedule;
      HaltedRounds(s, front);
    }
  }

  /** Turns of the thread until it completes its next sweep, if it is not halted. */
  function TurnsLeft(pc: SimPc): int {
    match pc
    case Fill(i) => 50 - i
    case RunTest => 34
    case HaltTest => 33
    case Sweep(i) => 32 - 2 * i
    case Wrap(i) => 31 - 2 * i
    case Terminate => 1
    case Nap => 34
    case Pause => 35
    case Stopped => 0
  }

  lemma {:induction false} TurnsLeftStep(s: State, act: Action)
    requires Torn(s) && s.isRunning && !s.isHalt && s.pc != Stopped && act != Ioctl(Halt) && act != Unregister
    ensures var s' := Step(s, act);
            && s'.isRunning && !s'.isHalt && s'.pc != Stopped
            && (act != Sim ==> s'.pc == s.pc && s'.sweeps == s.sweeps)
            && (act == Sim && s.pc == Terminate ==> s'.sweeps == s.sweeps + 1)
            && (act == Sim && s.pc != Terminate ==> s'.sweeps == s.sweeps && TurnsLeft(s'.pc) == TurnsLeft(s.pc) - 1)
            && (TurnsLeft(s.pc) >= 1 && (TurnsLeft(s.pc) == 1 <==> s.pc == Terminate))
  {
  }

  /** A resumed device sweeps again: wherever the thread was when resume was called, it completes its next
      sweep with exactly its TurnsLeft-th turn, and no sooner, as long as it is not halted again. */
  lemma {:induction false} ResumeSweeps(s: State, schedule: seq<Action>)
    requires Torn(s) && s.isRunning && s.pc != Stopped && Ioctl(Halt) !in schedule && Unregister !in schedule
    requires Turns(schedule) <= TurnsLeft(s.pc)
    ensures var s' := After(Step(s, Ioctl(Resume)), schedule);
            && Torn(s') && s'.isRunning && !s'.isHalt && s'.pc != Stopped
            && s'.sweeps == s.sweeps + (if Turns(schedule) == TurnsLeft(s.pc) then 1 else 0)
            && (Turns(schedule) < TurnsLeft(s.pc) ==> TurnsLeft(s'.pc) == TurnsLeft(s.pc) - Turns(schedule))
  {
    if schedule == [] {
      TornStep(s, Ioctl(Resume));
      TurnsLeftStep(s.(isHalt := false), Ioctl(Resume));
    } else {
      var front, act := schedule[..|schedule| - 1], schedule[|schedule| - 1];
      assert schedule == front + [act];
      ResumeSweeps(s, front);
      var t := After(Step(s, Ioctl(Resume)), front);
      TornStep(t, act);
      TurnsLeftStep(t, act);
    }
  }

  // ---------- Unloading ----------

  /** The thread is in its inner loop, which does not read the running flag. */
  predicate Inside(pc: SimPc) {
    Sweeping(pc) || pc == HaltTest || pc == Nap
  }

  /** Turns of the thread until it ends, if it is not inside when the device is unregistered. */
  function TurnsToEnd(pc: SimPc): int {
    match pc
    case Fill(i) => 17 - i
    case RunTest => 1
    case Pause => 2
    case _ => 0
  }

  /** Once the device is unregistered, and if nobody halts it again, the thread ends if and only if it was
      outside its inner loop at that moment, and then with exactly the TurnsToEnd-th turn. */
  lemma {:induction false} EndsExactly(s: State, schedule: seq<Action>)
    requires Torn(s) && Ioctl(Halt) !in schedule
    ensures var t := After(Step(s, Unregister), schedule);
            && Torn(t) && !t.isRunning && !t.isHalt
            && (t.pc == Stopped <==> !Inside(s.pc) && Turns(schedule) >= TurnsToEnd(s.pc))
            && (Inside(t.pc) <==> Inside(s.pc))
            && (!Inside(s.pc) && t.pc != Stopped ==> TurnsToEnd(t.pc) == TurnsToEnd(s.pc) - Turns(schedule) >= 0)
            && (!Inside(s.pc) ==> (t.pc == Stopped <==> TurnsToEnd(t.pc) == 0))
  {
    hide Torn, Step, Inside, TurnsToEnd;
    UnregisterCalled(s);
    if schedule != [] {
      var front, act := schedule[..|schedule| - 1], schedule[|schedule| - 1];
      assert act in schedule && forall a :: a in front ==> a in schedule;
      EndsExactly(s, front);
      EndingStep(After(Step(s, Unregister), front), act);
    }
  }

  lemma {:induction false} UnregisterCalled(s: State)
    requires Torn(s)
    ensures |s.buffer| == BUF_LEN
    ensures var s' := Step(s, Unregister);
            && Torn(s') && !s'.isRunning && !s'.isHalt && s'.pc == s.pc && s'.sweeps == s.sweeps
            && (!Inside(s.pc) ==> TurnsToEnd(s.pc) >= 0 && (TurnsToEnd(s.pc) == 0 <==> s.pc == Stopped))
            && (Inside(s.pc) ==> s.pc != Stopped && 1 <= TurnsLeft(s.pc) <= 34)
  {
    TornStep(s, Unregister);
  }

  /** One step of a device that is not running and not halted. */
  lemma {:induction false} EndingStep(s: State, act: Action)
    requires Torn(s) && !s.isRunning && !s.isHalt && act != Ioctl(Halt)
    ensures var s' := Step(s, act);
            && Torn(s') && !s'.isRunning && !s'.isHalt && (Inside(s'.pc) <==> Inside(s.pc))
            && (!Inside(s.pc) ==>
                  && TurnsToEnd(s'.pc) == TurnsToEnd(s.pc) - (if act == Sim && s.pc != Stopped then 1 else 0) >= 0
                  && (s'.pc == Stopped <==> TurnsToEnd(s'.pc) == 0))
            && (Inside(s.pc) ==>
                  && s'.pc != Stopped && 1 <= TurnsLeft(s'.pc) <= 34
                  && 34 * s'.sweeps - TurnsLeft(s'.pc) == 34 * s.sweeps - TurnsLeft(s.pc) + if act == Sim then 1 else 0)
  {
    TornStep(s, act);
  }

  /** A thread that was inside goes on sweeping for ever, a sweep in 34 turns. */
  lemma {:induction false} SweepsOn(s: State, schedule: seq<Action>)
    requires Torn(s) && Inside(s.pc) && Ioctl(Halt) !in schedule
    ensures var t := After(Step(s, Unregister), schedule);
            && Inside(t.pc)
            && 34 * t.sweeps - TurnsLeft(t.pc) == 34 * s.sweeps - TurnsLeft(s.pc) + Turns(schedule)
            && t.sweeps - s.sweeps == (34 - TurnsLeft(s.pc) + Turns(schedule)) / 34
  {
    hide Torn, Step, Inside, TurnsLeft;
    UnregisterCalled(s);
    EndsExactly(s, schedule);
    if schedule != [] {
      var front, act := schedule[..|schedule| - 1], schedule[|schedule| - 1];
      assert act in schedule && forall a :: a in front ==> a in schedule;
      SweepsOn(s, front);
      EndsExactly(s, front);
      EndingStep(After(Step(s, Unregister), front), act);
    }
    UnregisterCalled(After(Step(s, Unregister), schedule));
  }

  // ---------- A whole sweep ----------

  function NextCode(c: int): int {
    if c + 1 > Z then A else c + 1
  }

  /** The buffer one sweep makes of b. */
  function Swept(b: seq<int>): (r: seq<int>)
    requires |b| == BUF_LEN
    ensures |r| == BUF_LEN
  {
    seq(BUF_LEN, k requires 0 <= k < BUF_LEN => if k < CELLS then NextCode(b[k]) else NUL)
  }

  function Turns(schedule: seq<Action>): nat {
    if schedule == [] then 0
    else Turns(schedule[..|schedule| - 1]) + if schedule[|schedule| - 1] == Sim then 1 else 0
  }

  function MidwayPc(k: nat): SimPc {
    if k < 31 then (if k % 2 == 0 then Sweep(k / 2) else Wrap(k / 2)) else if k == 31 then Terminate else Nap
  }

  /** Where a sweep of b is after k turns of the thread. */
  ghost predicate Midway(s: State, b: seq<int>, k: nat)
    requires |b| == BUF_LEN
  {
    && |s.buffer| == BUF_LEN
    && (forall j :: 0 <= j < k / 2 && j < CELLS ==> s.buffer[j] == NextCode(b[j]))
    && (forall j :: k / 2 < j < CELLS ==> s.buffer[j] == b[j])
    && (k < 30 ==> s.buffer[k / 2] == if k % 2 == 0 then b[k / 2] else b[k / 2] + 1)
    && s.pc == MidwayPc(k)
    && (k == 32 ==> s.buffer[CELLS] == NUL)
  }

  lemma {:induction false} SweepTurns(s: State, schedule: seq<Action>)
    requires |s.buffer| == BUF_LEN && s.pc == Sweep(0) && Turns(schedule) <= 32
    ensures Midway(After(s, schedule), s.buffer, Turns(schedule))
  {
    if schedule != [] {
      var front := schedule[..|schedule| - 1];
      SweepTurns(s, front);
    }
  }

  /** A sweep takes 32 turns of the thread whatever halts and resumes come in between, and what it makes
      of the buffer does not depend on them. */
  lemma {:induction false} SweepCompletes(s: State, schedule: seq<Action>)
    requires |s.buffer| == BUF_LEN && s.pc == Sweep(0) && Turns(schedule) == 32
    ensures After(s, schedule).pc == Nap && After(s, schedule).buffer == Swept(s.buffer)
  {
    SweepTurns(s, schedule);
    var b := After(s, schedule).buffer;
    assert forall k :: 0 <= k < BUF_LEN ==> b[k] == Swept(s.buffer)[k];
  }

  // ---------- The driver's variables, updated in place ----------

  class Device {
    const buffer: array<int>
    var isRunning: bool
    var isHalt: bool
    var pc: SimPc
    ghost var sweeps: nat

    ghost function View(): State
      reads this, buffer
    {
      State(buffer[..], isRunning, isHalt, pc, sweeps)
    }

    constructor ()
      ensures fresh(buffer) && Initial(View())
    {
      buffer := new int[BUF_LEN](_ => 0);
      isRunning, isHalt, pc, sweeps := true, false, Fill(0), 0;
    }

    method Set(i: nat, c: int)
      requires i < buffer.Length
      modifies buffer
      ensures buffer[..] == old(buffer[..])[i := c]
    {
      buffer[i] := c;
      assert buffer[..] == old(buffer[..])[i := c];
    }

    method SimTurn()
      requires buffer.Length == BUF_LEN
      modifies this, buffer
      ensures View() == SimStep(old(View()))
    {
      match pc
      case Fill(i) =>
        if i < CELLS {
          Set(i, A);
          pc := Fill(i + 1);
        } else {
          Set(CELLS, NUL);
          pc := RunTest;
        }
      case RunTest => pc := if isRunning then HaltTest else Stopped;
      case HaltTest => pc := if !isHalt then Sweep(0) else Pause;
      case Sweep(i) =>
        if i < CELLS {
          Set(i, buffer[i] + 1);
          pc := Wrap(i);
        } else {
          pc := Terminate;
        }
      case Wrap(i) =>
        if i < CELLS && buffer[i] > Z {
          Set(i, A);
        }
        pc := Sweep(i + 1);
      case Terminate =>
        Set(CELLS, NUL);
        pc, sweeps := Nap, sweeps + 1;
      case Nap => pc := HaltTest;
      case Pause => pc := RunTest;
      case Stopped =>
    }

    method DeviceIoctl(cmd: Command)
      modifies this`isHalt
      ensures View() == IoctlStep(old(View()), cmd)
    {
      match cmd
      case Halt => isHalt := true;
      case Resume => isHalt := false;
      case Unknown =>
    }

    method UnregisterDevice()
      modifies this`isRunning, this`isHalt
      ensures View() == UnregisterStep(old(View()))
    {
      isRunning := false;
      isHalt := false;
    }

    /** Any interleaving of the thread with ioctl calls and unloading. */
    method Run(schedule: seq<Action>)
      requires buffer.Length == BUF_LEN
      modifies this, buffer
      ensures View() == After(old(View()), schedule)
      ensures Initial(old(View())) ==> Torn(View())
    {
      ghost var before := View();
      var n := 0;
      while n < |schedule|
        invariant n <= |schedule|
        invariant View() == After(before, schedule[..n])
      {
        assert schedule[..n + 1][..n] == schedule[..n];
        match schedule[n] {
          case Sim => SimTurn();
          case Ioctl(cmd) => DeviceIoctl(cmd);
          case Unregister => UnregisterDevice();
        }
        n := n + 1;
      }
      assert schedule[..n] == schedule;
      if Initial(before) {
        AlwaysTorn(before, schedule);
      }
    }
  }

  /** Lines 91-95 run without interruption: the loop in place does what 32 turns of the thread do. */
  method SweepBuffer(buffer: array<int>)
    requires buffer.Length == BUF_LEN
    modifies buffer
    ensures buffer[..] == Swept(old(buffer[..]))
  {
    for i := 0 to CELLS
      invariant forall k :: 0 <= k < i ==> buffer[k] == NextCode(old(buffer[k]))
      invariant forall k :: i <= k < BUF_LEN ==> buffer[k] == old(buffer[k])
    {
      buffer[i] := buffer[i] + 1;
      if buffer[i] > Z {
        buffer[i] := A;
      }
    }
    buffer[BUF_LEN - 1] := NUL;
  }
}
