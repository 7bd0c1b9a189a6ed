/** While its flag is set the select server prints everything it has queued, whatever clients send, as long as
    the main thread now and then has a turn at which the mutex is not taken. */
module SelectLiveness {
  import opened SelectServer
  import opened SelectSafety
  import opened SelectShutdown

  ghost predicate Good(s: State) {
    SelectSet(s) && LockInv(s) && Conserved(s) && QuitInv(s)
  }

  lemma {:induction false} GoodStep(s: State, act: Action)
    requires Good(s)
    ensures Good(Step(s, act))
  {
    SelectSetStep(s, act);
    LockStep(s, act);
    match act
    case Main =>
      ConservedMain(s);
      QuitMain(s);
    case Receiver(input) =>
      ConservedReceiver(s, input);
      QuitReceiver(s, input);
  }

  predicate MainBlocked(s: State) {
    s.mainPc == LockPop && s.mutex != Free
  }

  /** Turns of the main thread that were not wasted on a mutex that is taken. */
  function UnblockedTurns(s: State, schedule: seq<Action>): nat {
    if schedule == [] then 0
    else
      var front := schedule[..|schedule| - 1];
      UnblockedTurns(s, front) +
      if schedule[|schedule| - 1] == Main && !MainBlocked(After(s, front)) then 1 else 0
  }

  function ToPrint(pc: MainPc): nat {
    match pc
    case OuterTest => 7
    case SizeTest => 6
    case InnerTest => 5
    case LockPop => 4
    case Pop => 3
    case UnlockPop => 2
    case Print => 1
    case _ => 0
  }

  /** Unblocked turns until n messages have been printed. */
  function Need(s: State, n: nat): int {
    7 * (n - |s.h.printed|) + ToPrint(s.mainPc)
  }

  lemma {:induction false} MainNeeds(s: State, n: nat)
    requires Good(s) && s.isWorking && |s.h.printed| < n <= |s.h.pushed|
    ensures var s' := MainStep(s);
            |s'.h.printed| >= |s.h.printed| && if MainBlocked(s) then s' == s else Need(s', n) < Need(s, n)
  {
    assert |s.h.pushed| == |s.h.printed| + |MainHand(s)| + |s.mesQ|;
  }

  lemma {:induction false} StepNeeds(s: State, act: Action, n: nat)
    requires Good(s) && s.isWorking && |s.h.printed| < n <= |s.h.pushed|
    ensures Need(Step(s, act), n) + (if act == Main && !MainBlocked(s) then 1 else 0) <= Need(s, n)
  {
    match act
    case Main => MainNeeds(s, n);
    case Receiver(input) => ReceiverPrints(s, input);
  }

  lemma {:induction false} ReceiverPrints(s: State, input: Input)
    ensures var s' := ReceiverStep(s, input);
            s'.h.printed == s.h.printed && s'.mainPc == s.mainPc && s.h.pushed <= s'.h.pushed
            && (s'.isWorking ==> s.isWorking)
  {
  }

  lemma {:induction false} Grows(s: State, act: Action)
    ensures var s' := Step(s, act);
            s.h.pushed <= s'.h.pushed && |s.h.printed| <= |s'.h.printed| && (s'.isWorking ==> s.isWorking)
  {
    match act
    case Main =>
    case Receiver(input) => ReceiverPrints(s, input);
  }

  lemma {:induction false} AfterNeeds(s: State, schedule: seq<Action>, n: nat)
    requires Good(s) && n <= |s.h.pushed| && After(s, schedule).isWorking
    ensures var t := After(s, schedule);
            && Good(t) && s.h.pushed <= t.h.pushed
            && (|t.h.printed| >= n || Need(t, n) + UnblockedTurns(s, schedule) <= Need(s, n))
  {
    if schedule != [] {
      var front, act := schedule[..|schedule| - 1], schedule[|schedule| - 1];
      var t := After(s, front);
      Grows(t, act);
      AfterNeeds(s, front, n);
      GoodStep(t, act);
      if |t.h.printed| < n {
        StepNeeds(t, act, n);
      }
    }
  }

  lemma {:induction false} AlwaysGood(s0: State, schedule: seq<Action>)
    requires Initial(s0)
    ensures Good(After(s0, schedule))
  {
    AlwaysSelectSet(s0, schedule);
    AlwaysLock(s0, schedule);
    AlwaysConserved(s0, schedule);
    AlwaysQuit(s0, schedule);
  }

  /** Every message is printed: the first n messages pushed by some moment of a run have been printed, in order,
      after more unblocked turns of the main thread than that moment needs, if the flag is still set then, however
      many messages clients send meanwhile. */
  lemma {:induction false} PushedIsPrinted(s0: State, schedule: seq<Action>, rest: seq<Action>, n: nat)
    requires Initial(s0) && n <= |After(s0, schedule).h.pushed|
    requires After(After(s0, schedule), rest).isWorking
    requires UnblockedTurns(After(s0, schedule), rest) > Need(After(s0, schedule), n)
    ensures var s := After(s0, schedule);
            s.h.pushed[..n] <= After(s, rest).h.printed
  {
    AlwaysGood(s0, schedule);
    AfterNeeds(After(s0, schedule), rest, n);
    PrintedFrom(After(After(s0, schedule), rest));
  }

  lemma {:induction false} PrintedFrom(s: State)
    requires Good(s)
    ensures s.h.printed <= s.h.pushed
  {
  }
}
