/** From the kernel to the console: what is printed is what clients have sent, and what becomes of the queue when
    the flag is cleared. */
module SelectDrain {
  import opened Sequences
  import opened SelectServer
  import opened SelectSafety
  import opened SelectShutdown
  import opened SelectLiveness

  /** What the kernel hands over with one action: the text of the client that is received from, or nothing of it
      if recv fails. */
  function Delivering(s: State, act: Action): seq<Entry> {
    if act.Receiver? && s.receiverPc.Recv? then
      if act.input.fails then [Entry(s.receiverPc.i, "")] else [Entry(s.receiverPc.i, act.input.text)]
    else []
  }

  function Delivered(s0: State, schedule: seq<Action>): seq<Entry> {
    if schedule == [] then []
    else
      var front := schedule[..|schedule| - 1];
      Delivered(s0, front) + Delivering(After(s0, front), schedule[|schedule| - 1])
  }

  lemma {:induction false} DeliveringStep(s: State, act: Action)
    ensures Step(s, act).h.chunks == s.h.chunks + Delivering(s, act)
  {
    if act.Receiver? && !s.receiverPc.Recv? && !s.receiverPc.Push? {
      ReceiverQuiet(s, act.input);
    }
  }

  /** In every run what the server has read is what the kernel has delivered, text by text; and what it has printed
      of a client is a prefix of what was delivered of it. */
  lemma {:induction false} PrintedIsDelivered(s0: State, schedule: seq<Action>, c: nat)
    requires Initial(s0)
    ensures var s := After(s0, schedule);
            && s.h.chunks == Delivered(s0, schedule)
            && s.h.printed <= Delivered(s0, schedule)
            && Filter(s.h.printed, FromClient(c)) <= Filter(Delivered(s0, schedule), FromClient(c))
  {
    ReadIsDelivered(s0, schedule);
    AlwaysConserved(s0, schedule);
    PrintedInOrder(s0, schedule, c);
  }

  lemma {:induction false} ReadIsDelivered(s0: State, schedule: seq<Action>)
    requires Initial(s0)
    ensures After(s0, schedule).h.chunks == Delivered(s0, schedule)
  {
    if schedule != [] {
      var front := schedule[..|schedule| - 1];
      ReadIsDelivered(s0, front);
      DeliveringStep(After(s0, front), schedule[|schedule| - 1]);
    }
  }

  // ---------- The queue when the flag is cleared ----------

  /** The main thread is past its outer test: it goes through its inner loop before it tests the flag again. */
  predicate Inside(pc: MainPc) {
    pc == SizeTest || pc == InnerTest || pc == LockPop || pc == Pop || pc == UnlockPop || pc == Print
  }

  ghost predicate Drained(s: State) {
    Good(s) && !s.isWorking && (Inside(s.mainPc) || s.h.printed == s.h.pushed)
  }

  lemma {:induction false} DrainedStep(s: State, act: Action)
    requires Drained(s)
    ensures Drained(Step(s, act)) && Step(s, act).h.pushed == s.h.pushed
  {
    GoodStep(s, act);
    FrozenStep(s, act);
    match act
    case Main =>
      MainLeaves(s);
      DrainedMain(s);
    case Receiver(input) => ReceiverPrints(s, input);
  }

  lemma {:induction false} DrainedMain(s: State)
    requires Drained(s) && Good(MainStep(s)) && MainStep(s).h.pushed == s.h.pushed
    ensures var s' := MainStep(s);
            Inside(s'.mainPc) || s'.h.printed == s'.h.pushed
  {
    var s' := MainStep(s);
    if !Inside(s'.mainPc) && Inside(s.mainPc) {
      assert s'.h.pushed == s'.h.printed + ([] + []);
    } else if !Inside(s.mainPc) {
      assert s'.h.printed == s.h.printed;
    }
  }

  lemma {:induction false} DrainedAfter(s: State, schedule: seq<Action>)
    requires Drained(s)
    ensures Drained(After(s, schedule)) && After(s, schedule).h.pushed == s.h.pushed
  {
    if schedule != [] {
      var front := schedule[..|schedule| - 1];
      DrainedAfter(s, front);
      DrainedStep(After(s, front), schedule[|schedule| - 1]);
    }
  }

  /** Outside its inner loop, with the flag cleared, the main thread prints nothing more. */
  lemma {:induction false} NoMore(s: State, schedule: seq<Action>)
    requires Good(s) && !s.isWorking && !Inside(s.mainPc)
    ensures var t := After(s, schedule);
            && Good(t) && !t.isWorking && !Inside(t.mainPc)
            && t.h.printed == s.h.printed && t.h.pushed == s.h.pushed
  {
    if schedule != [] {
      var front, act := schedule[..|schedule| - 1], schedule[|schedule| - 1];
      NoMore(s, front);
      var t := After(s, front);
      GoodStep(t, act);
      FrozenStep(t, act);
      match act
      case Main => MainLeaves(t);
      case Receiver(input) => ReceiverPrints(t, input);
    }
  }

  /** Everything the server has queued is printed before it sends its Quits and ends, exactly if the receiver clears
      the flag while the main thread is past its outer test, or while nothing is queued; otherwise nothing more
      is printed. */
  lemma {:induction false} DrainedExactly(s0: State, before: seq<Action>, answer: Input, later: seq<Action>)
    requires Initial(s0)
    requires After(s0, before).receiverPc == Clear && After(s0, before).isWorking
    requires var pc := After(Step(After(s0, before), Receiver(answer)), later).mainPc; pc == Join || pc == Closed
    ensures var s := After(s0, before);
            var t := After(Step(s, Receiver(answer)), later);
            && t.h.pushed == s.h.pushed
            && (t.h.printed == t.h.pushed <==> Inside(s.mainPc) || s.mesQ == [])
            && (!Inside(s.mainPc) ==> t.h.printed == s.h.printed)
  {
    var s := After(s0, before);
    AlwaysGood(s0, before);
    var act := Receiver(answer);
    GoodStep(s, act);
    var s1 := Step(s, act);
    if Inside(s.mainPc) {
      DrainedAfter(s1, later);
    } else {
      NoMore(s1, later);
      assert s.h.pushed == s.h.printed + ([] + s.mesQ);
    }
  }

  // ---------- With nothing to print ----------

  function MainTurns(schedule: seq<Action>): nat {
    if schedule == [] then 0
    else MainTurns(schedule[..|schedule| - 1]) + if schedule[|schedule| - 1] == Main then 1 else 0
  }

  /** Where an idle main thread is after n turns. */
  function IdlePc(n: nat): MainPc {
    match n % 3
    case 0 => OuterTest
    case 1 => SizeTest
    case _ => InnerTest
  }

  ghost predicate Idle(s: State, n: nat) {
    s.mesQ == [] && s.mainPc == IdlePc(n)
  }

  lemma {:induction false} IdleStep(s: State, act: Action, n: nat)
    requires Idle(s, n) && s.isWorking && Step(s, act).h.pushed == s.h.pushed
    ensures Idle(Step(s, act), n + if act == Main then 1 else 0)
  {
    if act.Receiver? && !s.receiverPc.Push? && !s.receiverPc.Recv? {
      ReceiverQuiet(s, act.input);
    }
  }

  /** As long as nothing is pushed and the flag is set, a main thread with an empty queue goes round its outer loop: it
      tests the flag, the size (with its sleep) and the inner loop's guard, one in three turns each. */
  lemma {:induction false} IdleRounds(s: State, schedule: seq<Action>)
    requires s.mainPc == OuterTest && s.mesQ == []
    requires After(s, schedule).isWorking && After(s, schedule).h.pushed == s.h.pushed
    ensures Idle(After(s, schedule), MainTurns(schedule))
  {
    if schedule != [] {
      hide Step, Idle;
      var front, act := schedule[..|schedule| - 1], schedule[|schedule| - 1];
      GrowsAfter(s, front);
      Grows(After(s, front), act);
      IdleRounds(s, front);
      IdleStep(After(s, front), act, MainTurns(front));
    }
  }

  lemma {:induction false} GrowsAfter(s: State, schedule: seq<Action>)
    ensures s.h.pushed <= After(s, schedule).h.pushed
  {
    if schedule != [] {
      var front := schedule[..|schedule| - 1];
      GrowsAfter(s, front);
      Grows(After(s, front), schedule[|schedule| - 1]);
    }
  }
}
