/** What becomes of the messages that are queued when SIGINT arrives; and what has entered the router at all. */
module RouterDrain {
  import opened Sequences
  import opened Router
  import opened RouterSafety
  import opened RouterShutdown
  import opened RouterLiveness

  /** The main thread is in its inner loop, which does not read the flag. */
  predicate Inside(pc: MainPc) {
    pc != OuterTest && !pc.QuitLoop? && pc != Join && pc != Fault
  }

  /** Everything pushed so far: forwarded, in the main thread's hand, queued. */
  function Popping(s: State): seq<Message> {
    s.h.forwarded + MainHand(s) + s.messageQ
  }

  /** The messages due are queued while the main thread is in its inner loop, and forwarded when it leaves it. */
  ghost predicate Draining(s: State, due: seq<Message>) {
    && !s.isWorking && LockInv(s)
    && if Inside(s.mainPc) then due <= Popping(s) else due <= s.h.forwarded
  }

  lemma {:induction false} PoppingMain(render: Rendering, s: State)
    requires LockInv(s)
    ensures Popping(MainStep(render, s)) == Popping(s)
  {
    var s' := MainStep(render, s);
    if s.mainPc == Send {
      assert s'.h.forwarded + [] == s.h.forwarded + MainHand(s);
    } else {
      HandKeeps(render, s);
      assert s'.h.forwarded == s.h.forwarded;
      Regroup(s.h.forwarded, MainHand(s), s.messageQ, MainHand(s'), s'.messageQ);
    }
  }

  lemma {:induction false} DrainingMain(render: Rendering, s: State, due: seq<Message>)
    requires Draining(s, due)
    ensures Draining(MainStep(render, s), due)
  {
    var s' := MainStep(render, s);
    LockStep(render, s, Main);
    PoppingMain(render, s);
    if Inside(s.mainPc) && !Inside(s'.mainPc) {
      assert Popping(s) == s.h.forwarded;
    }
  }

  /** Every other step leaves the main thread where it is, and at most appends to its queue. */
  lemma {:induction false} OthersAppend(render: Rendering, s: State, act: Action)
    requires act != Main
    ensures var s' := Step(render, s, act);
            && s'.mainPc == s.mainPc && s'.h.forwarded == s.h.forwarded && s.messageQ <= s'.messageQ
            && (!s.isWorking ==> !s'.isWorking)
            && Popping(s) <= Popping(s')
  {
    var s' := Step(render, s, act);
    assert MainHand(s') == MainHand(s) && s.messageQ <= s'.messageQ;
  }

  lemma {:induction false} DrainingAfter(render: Rendering, s: State, schedule: seq<Action>, due: seq<Message>)
    requires Draining(s, due)
    ensures Draining(After(render, s, schedule), due)
  {
    if schedule != [] {
      hide Step;
      var front, act := schedule[..|schedule| - 1], schedule[|schedule| - 1];
      var t := After(render, s, front);
      DrainingAfter(render, s, front, due);
      LockStep(render, t, act);
      if act == Main {
        DrainingMain(render, t, due);
      } else {
        OthersAppend(render, t, act);
      }
      StepMain(render, t);
    }
  }

  lemma {:induction false} StepMain(render: Rendering, s: State)
    ensures Step(render, s, Main) == MainStep(render, s)
  {
  }

  /** A main thread that finds the flag cleared at its outer test forwards nothing more. */
  lemma {:induction false} NoMore(render: Rendering, s: State, schedule: seq<Action>)
    requires !s.isWorking && !Inside(s.mainPc)
    ensures var t := After(render, s, schedule);
            !t.isWorking && !Inside(t.mainPc) && t.h.forwarded == s.h.forwarded
  {
    if schedule != [] {
      NoMore(render, s, schedule[..|schedule| - 1]);
    }
  }

  /** SIGINT does not lose what is queued, exactly if it finds the main thread in its inner loop or the queue
      empty: then everything pushed before SIGINT has been forwarded, in order, when the main thread is at its
      join, and at most one message is left; otherwise nothing is forwarded after SIGINT. */
  lemma {:induction false} DrainedExactly(render: Rendering, s0: State, before: seq<Action>, later: seq<Action>)
    requires Initial(s0) && Interrupt !in before
    requires After(render, Step(render, After(render, s0, before), Interrupt), later).mainPc == Join
    ensures var s := After(render, s0, before);
            var t := After(render, Step(render, s, Interrupt), later);
            && (Popping(s) <= t.h.forwarded <==> Inside(s.mainPc) || s.messageQ == [])
            && (Inside(s.mainPc) ==> |t.messageQ| <= 1)
            && (!Inside(s.mainPc) ==> t.h.forwarded == s.h.forwarded)
  {
    var s := After(render, s0, before);
    AlwaysUp(render, s0, before);
    var s1 := Step(render, s, Interrupt);
    var t := After(render, s1, later);
    if Inside(s.mainPc) {
      assert Draining(s1, Popping(s));
      DrainingAfter(render, s1, later, Popping(s));
      AtMostOnePush(render, s1, later);
      assert Pushed(s1) == |Popping(s)|;
    } else {
      NoMore(render, s1, later);
    }
  }

  /** With enough fair rounds after SIGINT it does come to its join, so what was queued is forwarded. */
  lemma {:induction false} QueueIsForwarded(render: Rendering, s0: State, before: seq<Action>, rounds: seq<seq<Action>>)
    requires Initial(s0) && Interrupt !in before && Inside(After(render, s0, before).mainPc)
    requires forall r :: r in rounds ==> FairRound(r)
    requires |rounds| > Remaining(Step(render, After(render, s0, before), Interrupt))
    ensures var s := After(render, s0, before);
            var t := AfterRounds(render, Step(render, s, Interrupt), rounds);
            t.mainPc == Join && Popping(s) <= t.h.forwarded && |t.messageQ| <= 1
  {
    var s := After(render, s0, before);
    AlwaysUp(render, s0, before);
    var s1 := Step(render, s, Interrupt);
    RoundsProgress(render, s1, rounds);
    var later := Flat(rounds);
    RoundsFlat(render, s1, rounds);
    DrainedExactly(render, s0, before, later);
  }

  function Flat(rounds: seq<seq<Action>>): seq<Action> {
    if rounds == [] then [] else Flat(rounds[..|rounds| - 1]) + rounds[|rounds| - 1]
  }

  lemma {:induction false} RoundsFlat(render: Rendering, s: State, rounds: seq<seq<Action>>)
    ensures AfterRounds(render, s, rounds) == After(render, s, Flat(rounds))
  {
    if rounds != [] {
      var front := rounds[..|rounds| - 1];
      RoundsFlat(render, s, front);
      AfterConcat(render, s, Flat(front), rounds[|rounds| - 1]);
    }
  }

  // ---------- The pace ----------

  /** Turns the main thread has spent since it last began to look for a message; its sleep comes before that. */
  function Phase(pc: MainPc): int {
    match pc
    case LockQueue => 1
    case PopFront => 2
    case UnlockQueue => 3
    case Compose => 4
    case Send => 5
    case Sleep => -1
    case _ => 0
  }

  function MainTurns(schedule: seq<Action>): nat {
    if schedule == [] then 0
    else MainTurns(schedule[..|schedule| - 1]) + if schedule[|schedule| - 1] == Main then 1 else 0
  }

  lemma {:induction false} PaceMain(render: Rendering, s: State)
    ensures var s' := MainStep(render, s);
            7 * |s'.h.forwarded| + Phase(s'.mainPc) <= 7 * |s.h.forwarded| + Phase(s.mainPc) + 1
  {
  }

  lemma {:induction false} PaceStep(render: Rendering, s: State, act: Action)
    ensures var s' := Step(render, s, act);
            7 * |s'.h.forwarded| + Phase(s'.mainPc) <=
            7 * |s.h.forwarded| + Phase(s.mainPc) + if act == Main then 1 else 0
  {
    if act == Main {
      PaceMain(render, s);
    } else {
      OthersAppend(render, s, act);
    }
  }

  /** Every forwarding takes seven turns of the main thread, its sleep among them: in no run, from any state, does it
      forward more than one message in seven turns. */
  lemma {:induction false} OneInSeven(render: Rendering, s: State, schedule: seq<Action>)
    ensures var t := After(render, s, schedule);
            7 * |t.h.forwarded| + Phase(t.mainPc) <= 7 * |s.h.forwarded| + Phase(s.mainPc) + MainTurns(schedule)
  {
    if schedule != [] {
      var front := schedule[..|schedule| - 1];
      OneInSeven(render, s, front);
      PaceStep(render, After(render, s, front), schedule[|schedule| - 1]);
    }
  }

  // ---------- What the Quits carry ----------

  /** message_send is reused: it keeps the dest of the message sent last, and is the last Quit once one is sent. */
  ghost predicate Reused(render: Rendering, s: State) {
    && QuitsSent(s) <= 3 && QuitsSent(s) <= |s.h.sent|
    && (s.mainPc == Send ==> s.outgoing == Forwarded(render, s.received))
    && (s.h.forwarded != [] && s.mainPc != Send ==> s.outgoing.dest == s.h.forwarded[|s.h.forwarded| - 1].dest)
    && (QuitsSent(s) > 0 ==> s.outgoing == s.h.sent[|s.h.sent| - 1])
    && forall j :: |s.h.sent| - QuitsSent(s) <= j < |s.h.sent| ==> s.h.sent[j].dest == s.outgoing.dest
  }

  lemma {:induction false} ReusedMain(render: Rendering, s: State)
    requires Reused(render, s)
    ensures Reused(render, MainStep(render, s))
  {
  }

  lemma {:induction false} OthersReuse(render: Rendering, s: State, act: Action)
    requires act != Main
    ensures var s' := Step(render, s, act);
            && s'.mainPc == s.mainPc && s'.outgoing == s.outgoing && s'.received == s.received
            && s'.h.sent == s.h.sent && s'.h.forwarded == s.h.forwarded
  {
  }

  lemma {:induction false} ReusedStep(render: Rendering, s: State, act: Action)
    requires Reused(render, s)
    ensures Reused(render, Step(render, s, act))
  {
    if act == Main {
      ReusedMain(render, s);
    } else {
      OthersReuse(render, s, act);
    }
  }

  lemma {:induction false} AlwaysReused(render: Rendering, s0: State, schedule: seq<Action>)
    requires Initial(s0)
    ensures Reused(render, After(render, s0, schedule))
  {
    if schedule != [] {
      hide Step, Reused;
      var front, act := schedule[..|schedule| - 1], schedule[|schedule| - 1];
      AlwaysReused(render, s0, front);
      ReusedStep(render, After(render, s0, front), act);
    }
  }

  /** Every Quit carries the dest of the message forwarded last, whatever client it goes to. */
  lemma {:induction false} QuitsKeepDest(render: Rendering, s0: State, schedule: seq<Action>)
    requires Initial(s0)
    ensures var s := After(render, s0, schedule);
            s.mainPc == Join && s.h.forwarded != [] ==>
              && |s.h.sent| >= 3 && s.outgoing == s.h.sent[|s.h.sent| - 1]
              && forall j :: |s.h.sent| - 3 <= j < |s.h.sent| ==>
                   s.h.sent[j].dest == s.h.forwarded[|s.h.forwarded| - 1].dest
  {
    AlwaysReused(render, s0, schedule);
  }

  // ---------- What enters ----------

  /** What one action brings in as type 4: a client's message, or one that the main thread sends on although its
      dest is the server's own type. */
  function Entering(render: Rendering, s: State, act: Action): seq<Message> {
    match act
    case ClientSend(m) => [Message(4, m.source, m.dest, m.buf, false)]
    case Main =>
      if s.mainPc == Send && s.received.dest == 4
      then [Message(4, s.received.source, 4, render(s.received.buf), false)] else []
    case _ => []
  }

  function AllEntering(render: Rendering, s0: State, schedule: seq<Action>): seq<Message> {
    if schedule == [] then []
    else
      var front := schedule[..|schedule| - 1];
      AllEntering(render, s0, front) + Entering(render, After(render, s0, front), schedule[|schedule| - 1])
  }

  lemma {:induction false} EnteringStep(render: Rendering, s: State, act: Action)
    requires OutputInv(render, s)
    ensures Step(render, s, act).h.entered == s.h.entered + Entering(render, s, act)
  {
    if act == Main {
      MainFrame(render, s);
    }
  }

  /** What has entered is what was queued at the start, every message a client has sent, as it sent it, and what
      the server has sent to itself, in order. */
  lemma {:induction false} EnteredExactly(render: Rendering, s0: State, schedule: seq<Action>)
    requires Initial(s0)
    ensures After(render, s0, schedule).h.entered == s0.kernelQ + AllEntering(render, s0, schedule)
  {
    if schedule != [] {
      var front, act := schedule[..|schedule| - 1], schedule[|schedule| - 1];
      EnteredExactly(render, s0, front);
      AlwaysOutput(render, s0, front);
      EnteringStep(render, After(render, s0, front), act);
      Associative(s0.kernelQ, AllEntering(render, s0, front), Entering(render, After(render, s0, front), act));
    }
  }
}
