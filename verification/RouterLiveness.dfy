/** Before SIGINT the router forwards everything, whatever clients send, as long as the main thread now and
    then has a turn at which the mutex is not taken. */
module RouterLiveness {
  import opened Sequences
  import opened Router
  import opened RouterSafety
  import opened RouterShutdown

  ghost predicate Up(s: State) {
    && s.isWorking && !s.mainPc.QuitLoop? && s.mainPc != Join && s.recvPc != Exited
    && LockInv(s) && Conserved(s) && Entered(s)
  }

  lemma {:induction false} UpStep(render: Rendering, s: State, act: Action)
    requires Up(s) && act != Interrupt
    ensures Up(Step(render, s, act))
  {
    LockStep(render, s, act);
    ConservedStep(render, s, act);
    EnteredStep(render, s, act);
  }

  lemma {:induction false} UpAfter(render: Rendering, s: State, schedule: seq<Action>)
    requires Up(s) && Interrupt !in schedule
    ensures Up(After(render, s, schedule))
  {
    if schedule != [] {
      var front, act := schedule[..|schedule| - 1], schedule[|schedule| - 1];
      assert schedule == front + [act];
      UpAfter(render, s, front);
      UpStep(render, After(render, s, front), act);
    }
  }

  lemma {:induction false} AlwaysUp(render: Rendering, s0: State, schedule: seq<Action>)
    requires Initial(s0) && Interrupt !in schedule
    ensures Up(After(render, s0, schedule))
  {
    FilterAll(s0.kernelQ, HasType(4));
    UpAfter(render, s0, schedule);
  }

  // ---------- How far the n-th forwarding is ----------

  /** Messages that wait in the kernel queue for the recv thread. */
  function Waiting(s: State): nat {
    |Filter(s.kernelQ, HasType(4))|
  }

  lemma {:induction false} SomeWaiting(s: State)
    ensures Waiting(s) > 0 <==> FirstOfType(s.kernelQ, 4) < |s.kernelQ|
  {
    if FirstOfType(s.kernelQ, 4) < |s.kernelQ| {
      TakeFirst(s.kernelQ, 4, 4);
    } else {
      FilterNone(s.kernelQ, HasType(4));
    }
  }

  function ToPush(pc: RecvPc): nat {
    match pc
    case UnlockPush => 5
    case LoopTest => 4
    case Receive => 3
    case LockPush => 2
    case Push => 1
    case Exited => 0
  }

  function ToSend(pc: MainPc, idle: bool): nat {
    match pc
    case Sleep => 9
    case OuterTest => 8
    case InnerTest => if idle then 8 else 7
    case LockQueue => 6
    case PopFront => 5
    case UnlockQueue => 4
    case Compose => 3
    case Send => 2
    case _ => 0
  }

  function NeedOf(n: nat, forwarded: nat, pushed: nat, mainPc: MainPc, idle: bool, recvPc: RecvPc): int {
    8 * (n - forwarded) + ToSend(mainPc, idle) + if pushed >= n then 0 else 5 * (n - pushed - 1) + ToPush(recvPc)
  }

  /** Turns the two threads need until n messages have been forwarded. Nothing a client does is in it. */
  function Need(s: State, n: nat): int {
    NeedOf(n, |s.h.forwarded|, Pushed(s), s.mainPc, s.messageQ == [], s.recvPc)
  }

  /** The main thread only goes round its two loops. */
  predicate Spins(s: State) {
    (s.mainPc == OuterTest || s.mainPc == InnerTest) && s.messageQ == []
  }

  /** From s to t the main thread has at most gone round its loops, and the recv thread has not moved unless it
      has pushed n messages already. */
  predicate Idle(s: State, t: State, n: nat) {
    && |t.h.forwarded| == |s.h.forwarded|
    && (t.mainPc == s.mainPc || (Spins(s) && Spins(t)))
    && (s.messageQ != [] ==> t.messageQ != [])
    && (Pushed(s) < n ==> Pushed(t) == Pushed(s) && t.recvPc == s.recvPc && t.messageQ == s.messageQ)
  }

  lemma {:induction false} MainNeeds(render: Rendering, s: State, n: nat)
    requires Up(s)
    ensures var s' := MainStep(render, s);
            && |s'.h.forwarded| >= |s.h.forwarded| && Need(s', n) <= Need(s, n)
            && (if Spins(s) then s' == s.(mainPc := s'.mainPc) && Spins(s')
                else if MainBlocked(s) then s' == s
                else Need(s', n) < Need(s, n))
  {
  }

  /** The recv thread comes round from one push to the next, and leaves all else alone. */
  lemma {:induction false} RecvMovesOn(s: State)
    requires Up(s)
    ensures var s' := RecvStep(s);
            && s'.h.forwarded == s.h.forwarded && s'.mainPc == s.mainPc && MainHand(s') == MainHand(s)
            && (s' == s || (s.recvPc == Push && s'.recvPc == UnlockPush) || ToPush(s'.recvPc) == ToPush(s.recvPc) - 1)
            && s'.messageQ == (if s.recvPc == Push then s.messageQ + [s.mess] else s.messageQ)
            && s'.recvPc != Exited
  {
  }

  lemma {:induction false} PushNeeds(n: nat, forwarded: nat, pushed: nat, mainPc: MainPc, idle: bool)
    ensures var before := NeedOf(n, forwarded, pushed, mainPc, idle, Push);
            var after := NeedOf(n, forwarded, pushed + 1, mainPc, false, UnlockPush);
            after <= before && (pushed < n ==> after < before)
  {
  }

  lemma {:induction false} RecvNeeds(s: State, n: nat)
    requires Up(s)
    ensures var s' := RecvStep(s);
            && s'.h.forwarded == s.h.forwarded && s'.mainPc == s.mainPc && |s'.messageQ| >= |s.messageQ|
            && Need(s', n) <= Need(s, n)
            && (Pushed(s) < n ==> if s' == s then true else Need(s', n) < Need(s, n))
  {
    RecvMovesOn(s);
    if s.recvPc == Push {
      PushNeeds(n, |s.h.forwarded|, Pushed(s), s.mainPc, s.messageQ == []);
    }
  }

  lemma {:induction false} StepNeeds(render: Rendering, s: State, act: Action, n: nat)
    requires Up(s) && act != Interrupt
    ensures var s' := Step(render, s, act);
            && |s'.h.forwarded| >= |s.h.forwarded| && Need(s', n) <= Need(s, n)
            && (|s.h.forwarded| < n && Need(s', n) == Need(s, n) ==> Idle(s, s', n))
  {
    match act
    case Main => MainNeeds(render, s, n);
    case Recv => RecvNeeds(s, n);
    case _ =>
  }

  lemma {:induction false} IdleTwice(s: State, t: State, u: State, n: nat)
    requires Idle(s, t, n) && Idle(t, u, n) && |s.h.forwarded| < n
    ensures Idle(s, u, n)
  {
  }

  lemma {:induction false} AfterNeeds(render: Rendering, s: State, schedule: seq<Action>, n: nat)
    requires Up(s) && Interrupt !in schedule
    ensures var s' := After(render, s, schedule);
            && Up(s') && |s'.h.forwarded| >= |s.h.forwarded| && Need(s', n) <= Need(s, n)
            && (|s'.h.forwarded| < n && Need(s', n) == Need(s, n) ==> Idle(s, s', n))
  {
    if schedule != [] {
      var front, act := schedule[..|schedule| - 1], schedule[|schedule| - 1];
      assert schedule == front + [act];
      AfterNeeds(render, s, front, n);
      var t := After(render, s, front);
      UpStep(render, t, act);
      StepNeeds(render, t, act, n);
      var u := Step(render, t, act);
      if |u.h.forwarded| < n && Need(u, n) == Need(s, n) {
        IdleTwice(s, t, u, n);
      }
    }
  }

  // ---------- Lucky rounds ----------

  /** The main thread has a turn at which it is not blocked on the mutex. */
  ghost predicate Unblocked(render: Rendering, s: State, round: seq<Action>) {
    exists i :: 0 <= i < |round| && round[i] == Main && !MainBlocked(After(render, s, round[..i]))
  }

  /** Both threads have a turn, and the main thread one that is not wasted; clients may do anything. */
  ghost predicate Lucky(render: Rendering, s: State, round: seq<Action>) {
    Interrupt !in round && Recv in round && Unblocked(render, s, round)
  }

  ghost predicate LuckyRounds(render: Rendering, s: State, rounds: seq<seq<Action>>) {
    rounds == [] ||
    var front := rounds[..|rounds| - 1];
    LuckyRounds(render, s, front) && Lucky(render, AfterRounds(render, s, front), rounds[|rounds| - 1])
  }

  lemma {:induction false} EnteredGrows(render: Rendering, s: State, schedule: seq<Action>)
    ensures s.h.entered <= After(render, s, schedule).h.entered
  {
    if schedule != [] {
      EnteredGrows(render, s, schedule[..|schedule| - 1]);
    }
  }

  /** While the main thread spins and messages are outstanding, the recv thread can move. */
  lemma {:induction false} RecvMoves(s: State, n: nat)
    requires Up(s) && Spins(s) && |s.h.forwarded| < n <= |s.h.entered|
    ensures Need(RecvStep(s), n) < Need(s, n)
  {
    assert |s.h.entered| == |s.h.forwarded| + |MainHand(s)| + |s.messageQ| + |RecvHand(s)| + Waiting(s);
    SomeWaiting(s);
    RecvNeeds(s, n);
  }

  /** The turn act, taken in t, brings the n-th forwarding closer: it is a turn of the recv thread while the main
      thread only spins, and else an unblocked turn of the main thread. */
  lemma {:induction false} TurnNeeds(render: Rendering, s: State, t: State, act: Action, n: nat)
    requires Up(t) && n <= |t.h.entered| && |s.h.forwarded| < n
    requires Need(t, n) <= Need(s, n) && (|t.h.forwarded| < n && Need(t, n) == Need(s, n) ==> Idle(s, t, n))
    requires if Spins(s) then act == Recv else act == Main && !MainBlocked(t)
    ensures var t' := Step(render, t, act);
            Up(t') && |t'.h.forwarded| >= |t.h.forwarded| && (|t'.h.forwarded| >= n || Need(t', n) < Need(s, n))
  {
    UpStep(render, t, act);
    StepNeeds(render, t, act, n);
    if |t.h.forwarded| < n && Need(t, n) == Need(s, n) {
      if act == Recv {
        RecvMoves(t, n);
      } else {
        MainNeeds(render, t, n);
      }
    }
  }

  lemma {:induction false} PickTurn(render: Rendering, s: State, round: seq<Action>) returns (i: nat)
    requires Lucky(render, s, round)
    ensures i < |round|
    ensures if Spins(s) then round[i] == Recv else round[i] == Main && !MainBlocked(After(render, s, round[..i]))
  {
    if Spins(s) {
      i :| 0 <= i < |round| && round[i] == Recv;
    } else {
      i :| 0 <= i < |round| && round[i] == Main && !MainBlocked(After(render, s, round[..i]));
    }
  }

  lemma {:induction false} RoundNeeds(render: Rendering, s: State, round: seq<Action>, n: nat)
    requires Up(s) && Lucky(render, s, round) && n <= |s.h.entered|
    ensures var s' := After(render, s, round);
            |s'.h.forwarded| >= n || Need(s', n) < Need(s, n)
  {
    AfterNeeds(render, s, round, n);
    if |s.h.forwarded| < n {
      var i := PickTurn(render, s, round);
      var before, rest := round[..i], round[i + 1..];
      assert (forall a :: a in before ==> a in round) && forall a :: a in rest ==> a in round;
      AfterSplit(render, s, round, i);
      EnteredGrows(render, s, before);
      AfterNeeds(render, s, before, n);
      TurnNeeds(render, s, After(render, s, before), round[i], n);
      AfterNeeds(render, Step(render, After(render, s, before), round[i]), rest, n);
    }
  }

  lemma {:induction false} RoundsNeed(render: Rendering, s: State, rounds: seq<seq<Action>>, n: nat)
    requires Up(s) && n <= |s.h.entered| && LuckyRounds(render, s, rounds)
    ensures var s' := AfterRounds(render, s, rounds);
            && Up(s') && s.h.entered <= s'.h.entered && |s'.h.forwarded| >= |s.h.forwarded|
            && (|s'.h.forwarded| >= n || Need(s', n) + |rounds| <= Need(s, n))
  {
    if rounds != [] {
      var front, last := rounds[..|rounds| - 1], rounds[|rounds| - 1];
      RoundsNeed(render, s, front, n);
      var t := AfterRounds(render, s, front);
      RoundNeeds(render, t, last, n);
      EnteredGrows(render, t, last);
      AfterNeeds(render, t, last, n);
    }
  }

  /** Every message is forwarded: the first n messages that have entered by some moment of a run without SIGINT
      have been forwarded, in order, after more lucky rounds than that moment needs, however many messages
      clients send meanwhile. */
  lemma {:induction false} AllForwarded(render: Rendering, s0: State, schedule: seq<Action>,
                                        rounds: seq<seq<Action>>, n: nat)
    requires Initial(s0) && Interrupt !in schedule
    requires var s := After(render, s0, schedule);
             n <= |s.h.entered| && LuckyRounds(render, s, rounds) && |rounds| > Need(s, n)
    ensures var s := After(render, s0, schedule);
            s.h.entered[..n] <= AfterRounds(render, s, rounds).h.forwarded
  {
    AlwaysUp(render, s0, schedule);
    ForwardedFrom(render, After(render, s0, schedule), rounds, n);
  }

  lemma {:induction false} ForwardedFrom(render: Rendering, s: State, rounds: seq<seq<Action>>, n: nat)
    requires Up(s) && n <= |s.h.entered| && LuckyRounds(render, s, rounds) && |rounds| > Need(s, n)
    ensures s.h.entered[..n] <= AfterRounds(render, s, rounds).h.forwarded
  {
    RoundsNeed(render, s, rounds, n);
    var t := AfterRounds(render, s, rounds);
    assert t.h.forwarded <= t.h.entered;
  }

  /** At most thirteen turns for each message to be forwarded, and nine more. */
  lemma {:induction false} NeedIsSmall(s: State, n: nat)
    requires |s.h.forwarded| <= n && Pushed(s) >= |s.h.forwarded|
    ensures 0 <= Need(s, n) <= 13 * (n - |s.h.forwarded|) + 9
  {
  }

  // ---------- There are lucky rounds ----------

  /** Two turns of each thread: after two turns of its own the recv thread has let go of the mutex. */
  const Alternation: seq<Action> := [Main, Recv, Recv, Main]

  lemma {:induction false} AlternationIsLucky(render: Rendering, s: State)
    requires LockInv(s)
    ensures Lucky(render, s, Alternation)
  {
    var u := Alternation;
    if !MainBlocked(s) {
      assert u[0] == Main && After(render, s, u[..0]) == s;
    } else {
      NeverStuck(render, s);
      assert MainStep(render, s) == s;
      assert u[..3] == [Main] + [Recv] + [Recv];
      AfterConcat(render, s, [Main] + [Recv], [Recv]);
      AfterConcat(render, s, [Main], [Recv]);
      One(render, s, Main);
      One(render, s, Recv);
      One(render, RecvStep(s), Recv);
      assert u[3] == Main && After(render, s, u[..3]) == RecvStep(RecvStep(s));
    }
  }

  /** So these rounds are lucky one after the other, from every state without SIGINT. */
  lemma {:induction false} AlternatingIsLucky(render: Rendering, s: State, rounds: seq<seq<Action>>)
    requires Up(s) && forall r :: r in rounds ==> r == Alternation
    ensures LuckyRounds(render, s, rounds) && Up(AfterRounds(render, s, rounds))
  {
    if rounds != [] {
      var front, last := rounds[..|rounds| - 1], rounds[|rounds| - 1];
      assert last in rounds && forall r :: r in front ==> r in rounds;
      AlternatingIsLucky(render, s, front);
      AlternationIsLucky(render, AfterRounds(render, s, front));
      UpAfter(render, AfterRounds(render, s, front), last);
    }
  }
}
