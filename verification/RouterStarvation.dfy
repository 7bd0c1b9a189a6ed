/** What keeps the main thread of the router from forwarding: exactly that it has its turns only while the
    recv thread holds the mutex. */
module RouterStarvation {
  import opened Router
  import opened RouterSafety
  import opened RouterShutdown
  import opened RouterLiveness

  // ---------- Exactly when the main thread stays at the mutex ----------

  /** Every turn of the main thread finds the mutex taken. */
  ghost predicate AlwaysBlocked(render: Rendering, s: State, schedule: seq<Action>) {
    schedule == [] ||
    var front := schedule[..|schedule| - 1];
    && AlwaysBlocked(render, s, front)
    && (schedule[|schedule| - 1] == Main ==> MainBlocked(After(render, s, front)))
  }

  /** The main thread has left the mutex and not come back without forwarding. */
  predicate Left(s: State, forwarded: nat) {
    || |s.h.forwarded| > forwarded
    || (|s.h.forwarded| == forwarded && s.mainPc in {PopFront, UnlockQueue, Compose, Send})
  }

  lemma {:induction false} LeftStep(render: Rendering, s: State, act: Action, forwarded: nat)
    requires LockInv(s) && Left(s, forwarded)
    ensures Left(Step(render, s, act), forwarded)
  {
  }

  lemma {:induction false} AtLockStep(render: Rendering, s: State, act: Action)
    requires LockInv(s) && s.mainPc == LockQueue
    ensures var s' := Step(render, s, act);
            if act == Main && !MainBlocked(s) then Left(s', |s.h.forwarded|)
            else s'.mainPc == LockQueue && s'.h.forwarded == s.h.forwarded
  {
  }

  lemma {:induction false} BlockedOrLeft(render: Rendering, s: State, schedule: seq<Action>)
    requires Up(s) && s.mainPc == LockQueue && Interrupt !in schedule
    ensures var s' := After(render, s, schedule);
            if AlwaysBlocked(render, s, schedule) then s'.mainPc == LockQueue && s'.h.forwarded == s.h.forwarded
            else Left(s', |s.h.forwarded|)
  {
    if schedule != [] {
      var front, act := schedule[..|schedule| - 1], schedule[|schedule| - 1];
      assert schedule == front + [act];
      BlockedOrLeft(render, s, front);
      UpAfter(render, s, front);
      if AlwaysBlocked(render, s, front) {
        AtLockStep(render, After(render, s, front), act);
      } else {
        LeftStep(render, After(render, s, front), act, |s.h.forwarded|);
      }
    }
  }

  /** A main thread that waits for the mutex is still there, with nothing more forwarded, if and only if every turn
      it had found the mutex taken. */
  lemma {:induction false} StarvesExactly(render: Rendering, s: State, schedule: seq<Action>)
    requires Up(s) && s.mainPc == LockQueue && Interrupt !in schedule
    ensures var s' := After(render, s, schedule);
            s'.mainPc == LockQueue && s'.h.forwarded == s.h.forwarded <==> AlwaysBlocked(render, s, schedule)
  {
    BlockedOrLeft(render, s, schedule);
  }

  // ---------- Fair turns are not enough ----------

  /** Where the two threads are, who has the mutex, and what was forwarded. */
  predicate At(s: State, mainPc: MainPc, recvPc: RecvPc, mutex: Owner, forwarded: seq<Message>) {
    && s.isWorking && s.mainPc == mainPc && s.recvPc == recvPc && s.mutex == mutex && s.h.forwarded == forwarded
  }

  /** The main thread is about to take the mutex, and the recv thread comes round to its loop. */
  predicate AtLock(s: State, forwarded: seq<Message>) {
    At(s, LockQueue, LoopTest, Free, forwarded)
  }

  lemma {:induction false} Two(render: Rendering, s: State, a: Action, b: Action)
    ensures After(render, s, [a, b]) == Step(render, Step(render, s, a), b)
  {
    One(render, s, a);
    assert [a, b][..1] == [a];
  }

  /** A client sends while the recv thread comes round to msgrcv. */
  lemma {:induction false} Asks(render: Rendering, s: State, mainPc: MainPc, forwarded: seq<Message>, m: Message)
    requires At(s, mainPc, LoopTest, Free, forwarded)
    ensures var s' := After(render, s, [Recv, ClientSend(m)]);
            At(s', mainPc, Receive, Free, forwarded) && Waiting(s') > 0
  {
    Two(render, s, Recv, ClientSend(m));
    FilterAppend(s.kernelQ, m.(mtype := 4, shutdown := false), HasType(4));
  }

  /** The recv thread takes a message and the mutex. */
  lemma {:induction false} Takes(render: Rendering, s: State, mainPc: MainPc, forwarded: seq<Message>)
    requires At(s, mainPc, Receive, Free, forwarded) && Waiting(s) > 0
    ensures At(After(render, s, [Recv, Recv]), mainPc, Push, HeldByRecv, forwarded)
  {
    Two(render, s, Recv, Recv);
    SomeWaiting(s);
  }

  /** It pushes, and gives the mutex back. */
  lemma {:induction false} Pushes(render: Rendering, s: State, mainPc: MainPc, forwarded: seq<Message>)
    requires At(s, mainPc, Push, HeldByRecv, forwarded)
    ensures var s' := After(render, s, [Recv, Recv]);
            At(s', mainPc, LoopTest, Free, forwarded) && s'.messageQ != []
  {
    Two(render, s, Recv, Recv);
  }

  /** A fair round in which a client sends and the main thread has its turn while the recv thread pushes. */
  function Unlucky(m: Message): seq<Action> {
    [Recv, ClientSend(m)] + [Recv, Recv] + [Main] + [Recv, Recv]
  }

  lemma {:induction false} Blocked(render: Rendering, s: State, forwarded: seq<Message>)
    requires At(s, LockQueue, Push, HeldByRecv, forwarded)
    ensures After(render, s, [Main]) == s
  {
    One(render, s, Main);
  }

  lemma {:induction false} UnluckyRound(render: Rendering, s: State, m: Message, forwarded: seq<Message>)
    requires AtLock(s, forwarded)
    ensures AtLock(After(render, s, Unlucky(m)), forwarded)
  {
    var asks, recvs := [Recv, ClientSend(m)], [Recv, Recv];
    AfterConcat(render, s, asks + recvs + [Main], recvs);
    AfterConcat(render, s, asks + recvs, [Main]);
    AfterConcat(render, s, asks, recvs);
    Asks(render, s, LockQueue, forwarded, m);
    Takes(render, After(render, s, asks), LockQueue, forwarded);
    var t := After(render, After(render, s, asks), recvs);
    Blocked(render, t, forwarded);
    Pushes(render, t, LockQueue, forwarded);
  }

  /** It does happen: fair rounds, each with a client's message, keep the main thread from the mutex for any
      length of time. */
  lemma {:induction false} MainCanStarve(render: Rendering, s: State, rounds: seq<seq<Action>>, m: Message)
    requires AtLock(s, s.h.forwarded) && forall r :: r in rounds ==> r == Unlucky(m)
    ensures forall r :: r in rounds ==> FairRound(r)
    ensures AtLock(AfterRounds(render, s, rounds), s.h.forwarded)
  {
    if rounds != [] {
      var front, last := rounds[..|rounds| - 1], rounds[|rounds| - 1];
      assert last in rounds && forall r :: r in front ==> r in rounds;
      MainCanStarve(render, s, front, m);
      UnluckyRound(render, AfterRounds(render, s, front), m, s.h.forwarded);
    }
    assert Unlucky(m)[0] == Recv && Unlucky(m)[4] == Main;
  }

  /** How a run gets there: a client sends, the recv thread pushes, and the main thread sees the message. */
  function Arrival(m: Message): seq<Action> {
    [Recv, ClientSend(m)] + [Recv, Recv] + [Recv, Recv] + [Main, Main]
  }

  lemma {:induction false} Sees(render: Rendering, s: State, forwarded: seq<Message>)
    requires At(s, OuterTest, LoopTest, Free, forwarded) && s.messageQ != []
    ensures AtLock(After(render, s, [Main, Main]), forwarded)
  {
    Two(render, s, Main, Main);
  }

  lemma {:induction false} AtLockIsReached(render: Rendering, s0: State, m: Message)
    requires Initial(s0)
    ensures AtLock(After(render, s0, Arrival(m)), [])
  {
    var asks, recvs := [Recv, ClientSend(m)], [Recv, Recv];
    AfterConcat(render, s0, asks + recvs + recvs, [Main, Main]);
    AfterConcat(render, s0, asks + recvs, recvs);
    AfterConcat(render, s0, asks, recvs);
    Asks(render, s0, OuterTest, [], m);
    Takes(render, After(render, s0, asks), OuterTest, []);
    var t := After(render, After(render, s0, asks), recvs);
    Pushes(render, t, OuterTest, []);
    Sees(render, After(render, t, recvs), []);
  }
}
