/** The router refines an atomic FIFO router that accepts, routes and broadcasts in single steps. */
module RouterRefinement {
  import opened Sequences
  import opened Router
  import opened RouterSafety

  /** pending: accepted and not yet routed; delivered: everything put out, in order;
      quits: how many of the three shutdown messages are out. */
  datatype Atomic = Atomic(pending: seq<Message>, delivered: seq<Message>, quits: nat)

  datatype Op =
    | Accept(m: Message)
    | Route
    | Broadcast(m: Message)

  /** Routing stops with the first shutdown message, and shutdown messages go to 1, 2, 3 in order. */
  ghost predicate Legal(a: Atomic, op: Op) {
    match op
    case Accept(m) => m.mtype == 4 && !m.shutdown
    case Route => a.pending != [] && a.quits == 0
    case Broadcast(m) => a.quits < 3 && IsQuit(m, a.quits + 1)
  }

  function Apply(render: Rendering, a: Atomic, op: Op): Atomic
    requires Legal(a, op)
  {
    match op
    case Accept(m) => a.(pending := a.pending + [m])
    case Route =>
      var out := Forwarded(render, a.pending[0]);
      if out.mtype < 1 then a.(pending := a.pending[1..])
      else a.(pending := if out.mtype == 4 then a.pending[1..] + [out] else a.pending[1..],
              delivered := a.delivered + [out])
    case Broadcast(m) => a.(delivered := a.delivered + [m], quits := a.quits + 1)
  }

  /** Everything between a client's msgsnd and the server's msgsnd, in order. */
  function Pending(s: State): seq<Message> {
    (MainHand(s) + s.messageQ) + (RecvHand(s) + Filter(s.kernelQ, HasType(4)))
  }

  function Abs(s: State): Atomic {
    Atomic(Pending(s), s.h.sent, QuitsSent(s))
  }

  /** The atomic operation a concrete step performs, if any: a message is routed at line 91. */
  function OpOf(s: State, act: Action): seq<Op> {
    match act
    case Main =>
      if s.mainPc == Send then [Route]
      else if s.mainPc.QuitLoop? && s.mainPc.i < 3 then [Broadcast(QuitMessage(s.outgoing, s.mainPc.i))]
      else []
    case Recv => []
    case Interrupt => []
    case ClientSend(m) => [Accept(m.(mtype := 4, shutdown := false))]
    case ClientTake(_) => []
  }

  function Ops(render: Rendering, s: State, schedule: seq<Action>): seq<Op> {
    if schedule == [] then []
    else
      var front := schedule[..|schedule| - 1];
      Ops(render, s, front) + OpOf(After(render, s, front), schedule[|schedule| - 1])
  }

  datatype Outcome = Refused | Reached(state: Atomic)

  /** The atomic router performs ops one after the other, and stops at one that is not legal. */
  ghost function AtomicRun(render: Rendering, a: Atomic, ops: seq<Op>): Outcome {
    if ops == [] then Reached(a)
    else
      var before := AtomicRun(render, a, ops[..|ops| - 1]);
      if before.Reached? && Legal(before.state, ops[|ops| - 1])
      then Reached(Apply(render, before.state, ops[|ops| - 1]))
      else Refused
  }

  // ---------- One step ----------

  ghost predicate Simulates(render: Rendering, s: State, act: Action) {
    var s' := Step(render, s, act);
    var ops := OpOf(s, act);
    if ops == [] then Abs(s') == Abs(s)
    else Legal(Abs(s), ops[0]) && Abs(s') == Apply(render, Abs(s), ops[0])
  }

  /** Line 91 takes the head of what is pending; a message for type 4 goes round again. */
  lemma {:induction false} SendMoves(render: Rendering, s: State)
    requires s.mainPc == Send
    ensures Pending(s) != [] && Pending(s)[0] == s.received
    ensures Pending(MainStep(render, s)) ==
            Pending(s)[1..] + if s.outgoing.mtype == 4 then [s.outgoing] else []
  {
    var waiting := Filter(s.kernelQ, HasType(4));
    var out := if s.outgoing.mtype == 4 then [s.outgoing] else [];
    FilterAppend(s.kernelQ, s.outgoing, HasType(4));
    assert Filter(MainStep(render, s).kernelQ, HasType(4)) == waiting + out;
    SendPending(s.received, s.messageQ, RecvHand(s), waiting, out);
  }

  lemma {:induction false} SendSimulates(render: Rendering, s: State)
    requires OutputInv(render, s) && s.mainPc == Send
    ensures Simulates(render, s, Main)
  {
    SendMoves(render, s);
    assert OpOf(s, Main) == [Route];
    assert Pending(s)[1..] + [] == Pending(s)[1..];
  }

  lemma {:induction false} SendPending(m: Message, q: seq<Message>, hand: seq<Message>,
                                       waiting: seq<Message>, out: seq<Message>)
    ensures (([m] + q) + (hand + waiting))[0] == m
    ensures (([m] + q) + (hand + waiting))[1..] + out == ([] + q) + (hand + (waiting + out))
  {
  }

  lemma {:induction false} QuitSimulates(render: Rendering, s: State)
    requires OutputInv(render, s) && s.mainPc.QuitLoop? && s.mainPc.i < 3
    ensures Simulates(render, s, Main)
  {
    FilterAppend(s.kernelQ, QuitMessage(s.outgoing, s.mainPc.i), HasType(4));
  }

  lemma {:induction false} MainSimulates(render: Rendering, s: State)
    requires OutputInv(render, s)
    ensures Simulates(render, s, Main)
  {
    if s.mainPc == Send {
      SendSimulates(render, s);
    } else if s.mainPc.QuitLoop? && s.mainPc.i < 3 {
      QuitSimulates(render, s);
    } else {
      QuietSimulates(render, s);
    }
  }

  /** Taking the front of messageQ into the hand leaves what is pending as it is. */
  lemma {:induction false} QuietSimulates(render: Rendering, s: State)
    requires s.mainPc != Send && !(s.mainPc.QuitLoop? && s.mainPc.i < 3)
    requires s.mainPc.QuitLoop? ==> s.mainPc.i == 3
    ensures Simulates(render, s, Main)
  {
    var s' := MainStep(render, s);
    assert MainHand(s') + s'.messageQ == MainHand(s) + s.messageQ;
  }

  /** What is pending moves from the kernel queue to the recv thread and on to messageQ, in order. */
  lemma {:induction false} RecvPending(s: State)
    ensures Pending(RecvStep(s)) == Pending(s)
  {
    if s.recvPc == Receive {
      ReceivePending(s);
    } else if s.recvPc == Push {
      PushPending(MainHand(s), s.messageQ, s.mess, Filter(s.kernelQ, HasType(4)));
    }
  }

  lemma {:induction false} ReceivePending(s: State)
    requires s.recvPc == Receive
    ensures RecvHand(RecvStep(s)) + Filter(RecvStep(s).kernelQ, HasType(4)) ==
            RecvHand(s) + Filter(s.kernelQ, HasType(4))
  {
    if FirstOfType(s.kernelQ, 4) < |s.kernelQ| {
      TakeFirst(s.kernelQ, 4, 4);
    }
  }

  lemma {:induction false} RecvSimulates(render: Rendering, s: State)
    ensures Simulates(render, s, Recv)
  {
    RecvPending(s);
  }

  lemma {:induction false} PushPending(hand: seq<Message>, q: seq<Message>, m: Message, waiting: seq<Message>)
    ensures (hand + (q + [m])) + ([] + waiting) == (hand + q) + ([m] + waiting)
  {
  }

  lemma {:induction false} ClientSendSimulates(render: Rendering, s: State, m: Message)
    ensures Simulates(render, s, ClientSend(m))
  {
    var m' := m.(mtype := 4, shutdown := false);
    FilterAppend(s.kernelQ, m', HasType(4));
    AcceptPending(MainHand(s) + s.messageQ, RecvHand(s), Filter(s.kernelQ, HasType(4)), m');
    assert Pending(ClientSendStep(s, m)) == Pending(s) + [m'];
  }

  lemma {:induction false} AcceptPending(front: seq<Message>, hand: seq<Message>, waiting: seq<Message>, m: Message)
    ensures front + (hand + (waiting + [m])) == front + (hand + waiting) + [m]
  {
  }

  lemma {:induction false} ClientTakeSimulates(render: Rendering, s: State, k: int)
    ensures Simulates(render, s, ClientTake(k))
  {
    OthersWait(s, k);
  }

  lemma {:induction false} OthersWait(s: State, k: int)
    ensures Filter(ClientTakeStep(s, k).kernelQ, HasType(4)) == Filter(s.kernelQ, HasType(4))
  {
    if k != 4 && FirstOfType(s.kernelQ, k) < |s.kernelQ| {
      TakeFirst(s.kernelQ, k, 4);
    }
  }

  lemma {:induction false} StepSimulates(render: Rendering, s: State, act: Action)
    requires OutputInv(render, s)
    ensures Simulates(render, s, act)
  {
    match act
    case Main => MainSimulates(render, s);
    case Recv => RecvSimulates(render, s);
    case Interrupt =>
    case ClientSend(m) => ClientSendSimulates(render, s, m);
    case ClientTake(k) => ClientTakeSimulates(render, s, k);
  }

  // ---------- Whole runs ----------

  /** Every interleaving of the two threads and the clients is a run of the atomic FIFO router. */
  lemma {:induction false} Refines(render: Rendering, s0: State, schedule: seq<Action>)
    requires Initial(s0)
    ensures AtomicRun(render, Abs(s0), Ops(render, s0, schedule)) == Reached(Abs(After(render, s0, schedule)))
  {
    if schedule != [] {
      var front, act := schedule[..|schedule| - 1], schedule[|schedule| - 1];
      Refines(render, s0, front);
      var s := After(render, s0, front);
      AlwaysOutput(render, s0, front);
      StepSimulates(render, s, act);
      OneMore(render, Abs(s0), Ops(render, s0, front), s, act);
    }
  }

  lemma {:induction false} OneMore(render: Rendering, a: Atomic, ops: seq<Op>, s: State, act: Action)
    requires AtomicRun(render, a, ops) == Reached(Abs(s)) && Simulates(render, s, act)
    ensures AtomicRun(render, a, ops + OpOf(s, act)) == Reached(Abs(Step(render, s, act)))
  {
    if OpOf(s, act) == [] {
      assert ops + [] == ops;
    } else {
      assert (ops + OpOf(s, act))[..|ops|] == ops;
    }
  }
}
