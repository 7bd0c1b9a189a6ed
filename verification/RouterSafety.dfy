/** What every interleaving of the router keeps: mutual exclusion, conservation, routing, shutdown last. */
module RouterSafety {
  import opened Sequences
  import opened Router

  // ---------- The invariants, each inductive on its own ----------

  /** The mutex is held exactly by the thread inside its critical section, and the size test of
      line 79 still holds when the main thread gets to the pop. */
  ghost predicate LockInv(s: State) {
    && (s.mutex == HeldByMain <==> s.mainPc in {PopFront, UnlockQueue})
    && (s.mutex == HeldByRecv <==> s.recvPc in {Push, UnlockPush})
    && (s.mainPc in {LockQueue, PopFront} ==> s.messageQ != [])
    && s.mainPc != Fault
  }

  /** Nothing is lost, duplicated or reordered between msgrcv and the forwarding msgsnd. */
  ghost predicate Conserved(s: State) {
    s.h.obtained == s.h.forwarded + MainHand(s) + s.messageQ + RecvHand(s)
  }

  /** What entered as type 4 is what the recv thread took, followed by what still waits for it. */
  ghost predicate Entered(s: State) {
    Arrived(s.h.entered, s.h.obtained, s.kernelQ)
  }

  ghost predicate Arrived(entered: seq<Message>, obtained: seq<Message>, waiting: seq<Message>) {
    entered == obtained + Filter(waiting, HasType(4))
  }

  /** What client k took, followed by what still waits for it, is what the server sent to it. */
  ghost predicate MailFor(s: State, k: int) {
    Mail(s.h.taken, s.kernelQ, s.h.sent, k)
  }

  ghost predicate Mail(taken: seq<Message>, waiting: seq<Message>, sent: seq<Message>, k: int) {
    Filter(taken, HasType(k)) + Filter(waiting, HasType(k)) == Filter(sent, HasType(k))
  }

  ghost predicate IsQuit(m: Message, k: int) {
    m.shutdown && m.mtype == k && m.buf == "Quit" && m.source == 4
  }

  /** Number of Quit messages already sent. */
  function QuitsSent(s: State): nat {
    if s.mainPc.QuitLoop? then s.mainPc.i else if s.mainPc == Join then 3 else 0
  }

  /** The server's output is the atomic router's output followed by the Quits for types 1, 2, ... */
  ghost predicate OutputInv(render: Rendering, s: State) {
    var plain := DeliverAll(render, s.h.forwarded);
    && QuitsSent(s) <= 3
    && (s.mainPc == Send ==> s.outgoing == Forwarded(render, s.received))
    && (s.mainPc.QuitLoop? ==> s.outgoing.source == 4)
    && plain <= s.h.sent
    && |s.h.sent| == |plain| + QuitsSent(s)
    && forall j :: |plain| <= j < |s.h.sent| ==> IsQuit(s.h.sent[j], j - |plain| + 1)
  }

  // ---------- Selective removal ----------

  /** Appending to a queue appends to the projections that accept the message only. */
  lemma {:induction false} FilterAppend(q: seq<Message>, m: Message, p: Message -> bool)
    ensures Filter(q + [m], p) == if p(m) then Filter(q, p) + [m] else Filter(q, p)
  {
    assert (q + [m])[..|q|] == q;
  }

  /** Removing position i changes only the projections that accept it. */
  lemma {:induction false} FilterRemove(q: seq<Message>, i: nat, p: Message -> bool)
    requires i < |q|
    requires p(q[i]) ==> forall j :: 0 <= j < i ==> !p(q[j])
    ensures Filter(q, p) == (if p(q[i]) then [q[i]] else []) + Filter(RemoveAt(q, i), p)
  {
    FilterSplit(q, i, p);
    FilterConcat(q[..i], q[i + 1..], p);
    if p(q[i]) {
      FilterNone(q[..i], p);
    }
  }

  /** msgrcv(k) takes the head of the type-k projection and leaves every other projection alone. */
  lemma {:induction false} TakeFirst(q: seq<Message>, k: int, j: int)
    requires FirstOfType(q, k) < |q|
    ensures var i := FirstOfType(q, k);
            Filter(q, HasType(j)) ==
            (if j == k then [q[i]] else []) + Filter(RemoveAt(q, i), HasType(j))
  {
    var i := FirstOfType(q, k);
    assert HasType(j)(q[i]) <==> j == k;
    FilterRemove(q, i, HasType(j));
  }

  // ---------- Preservation, one step at a time ----------

  lemma {:induction false} LockStep(render: Rendering, s: State, act: Action)
    requires LockInv(s)
    ensures LockInv(Step(render, s, act))
  {
  }

  lemma {:induction false} Regroup(front: seq<Message>, hand: seq<Message>, q: seq<Message>,
                                   hand': seq<Message>, q': seq<Message>)
    requires hand + q == hand' + q'
    ensures front + hand + q == front + hand' + q'
  {
    Associative(front, hand, q);
    Associative(front, hand', q');
  }

  lemma {:induction false} ConservedMain(render: Rendering, s: State)
    requires Conserved(s)
    ensures Conserved(MainStep(render, s))
  {
    var s' := MainStep(render, s);
    if s.mainPc == Send {
      assert s'.h.forwarded + [] == s.h.forwarded + MainHand(s);
    } else {
      assert s'.h.forwarded == s.h.forwarded && s'.h.obtained == s.h.obtained && RecvHand(s') == RecvHand(s);
      HandKeeps(render, s);
      Regroup(s.h.forwarded, MainHand(s), s.messageQ, MainHand(s'), s'.messageQ);
    }
  }

  lemma {:induction false} HandKeeps(render: Rendering, s: State)
    requires s.mainPc != Send
    ensures var s' := MainStep(render, s);
            MainHand(s') + s'.messageQ == MainHand(s) + s.messageQ
  {
  }

  lemma {:induction false} ConservedStep(render: Rendering, s: State, act: Action)
    requires Conserved(s)
    ensures Conserved(Step(render, s, act))
  {
    if act == Main {
      ConservedMain(render, s);
    } else {
      assert MainHand(Step(render, s, act)) == MainHand(s);
    }
  }

  /** What the next step of the main thread puts into the kernel queue. */
  function MainPuts(s: State): seq<Message> {
    if s.mainPc == Send && s.outgoing.mtype >= 1 then [s.outgoing]
    else if s.mainPc.QuitLoop? && s.mainPc.i < 3 then [QuitMessage(s.outgoing, s.mainPc.i)]
    else []
  }

  /** The main thread changes the kernel queue and its histories in no other way. */
  lemma {:induction false} MainFrame(render: Rendering, s: State)
    ensures var s', puts := MainStep(render, s), MainPuts(s);
            && s'.kernelQ == s.kernelQ + puts && s'.h.sent == s.h.sent + puts
            && s'.h.entered == s.h.entered + (if puts != [] && puts[0].mtype == 4 then puts else [])
            && s'.h.taken == s.h.taken && s'.h.obtained == s.h.obtained
  {
    var s' := MainStep(render, s);
    if MainPuts(s) == [] {
      assert s'.kernelQ == s.kernelQ && s'.h.sent == s.h.sent && s'.h.entered == s.h.entered;
    }
  }

  lemma {:induction false} ArrivedPut(entered: seq<Message>, obtained: seq<Message>, waiting: seq<Message>, m: Message)
    requires Arrived(entered, obtained, waiting)
    ensures Arrived(entered + (if m.mtype == 4 then [m] else []), obtained, waiting + [m])
  {
    FilterAppend(waiting, m, HasType(4));
    if m.mtype == 4 {
      Associative(obtained, Filter(waiting, HasType(4)), [m]);
    } else {
      assert entered + [] == entered;
    }
  }

  lemma {:induction false} EnteredMain(render: Rendering, s: State)
    requires Entered(s)
    ensures Entered(MainStep(render, s))
  {
    MainFrame(render, s);
    if MainPuts(s) != [] {
      ArrivedPut(s.h.entered, s.h.obtained, s.kernelQ, MainPuts(s)[0]);
    } else {
      assert s.kernelQ + [] == s.kernelQ && s.h.entered + [] == s.h.entered;
    }
  }

  lemma {:induction false} EnteredRecv(s: State)
    requires Entered(s)
    ensures Entered(RecvStep(s))
  {
    var i := FirstOfType(s.kernelQ, 4);
    if s.recvPc == Receive && i < |s.kernelQ| {
      TakeFirst(s.kernelQ, 4, 4);
      Associative(s.h.obtained, [s.kernelQ[i]], Filter(RemoveAt(s.kernelQ, i), HasType(4)));
    } else {
      assert RecvStep(s).kernelQ == s.kernelQ && RecvStep(s).h == s.h;
    }
  }

  lemma {:induction false} EnteredTake(s: State, k: int)
    requires Entered(s)
    ensures Entered(ClientTakeStep(s, k))
  {
    var i := FirstOfType(s.kernelQ, k);
    if k != 4 && i < |s.kernelQ| {
      TakeFirst(s.kernelQ, k, 4);
      assert [] + Filter(RemoveAt(s.kernelQ, i), HasType(4)) == Filter(RemoveAt(s.kernelQ, i), HasType(4));
    }
  }

  lemma {:induction false} EnteredStep(render: Rendering, s: State, act: Action)
    requires Entered(s)
    ensures Entered(Step(render, s, act))
  {
    match act
    case Main => EnteredMain(render, s);
    case Recv => EnteredRecv(s);
    case Interrupt =>
    case ClientSend(m) => FilterAppend(s.kernelQ, m.(mtype := 4, shutdown := false), HasType(4));
    case ClientTake(k) => EnteredTake(s, k);
  }

  lemma {:induction false} MailPut(taken: seq<Message>, waiting: seq<Message>, sent: seq<Message>, m: Message, k: int)
    requires Mail(taken, waiting, sent, k)
    ensures Mail(taken, waiting + [m], sent + [m], k)
  {
    FilterAppend(waiting, m, HasType(k));
    FilterAppend(sent, m, HasType(k));
  }

  lemma {:induction false} MailMain(render: Rendering, s: State, k: int)
    requires MailFor(s, k)
    ensures MailFor(MainStep(render, s), k)
  {
    MainFrame(render, s);
    if MainPuts(s) != [] {
      MailPut(s.h.taken, s.kernelQ, s.h.sent, MainPuts(s)[0], k);
    } else {
      assert s.kernelQ + [] == s.kernelQ && s.h.sent + [] == s.h.sent;
    }
  }

  /** msgrcv takes the head of its own projection of the queue. */
  lemma {:induction false} MailTaken(taken: seq<Message>, waiting: seq<Message>, sent: seq<Message>, c: int, k: int)
    requires Mail(taken, waiting, sent, k) && FirstOfType(waiting, c) < |waiting|
    ensures var i := FirstOfType(waiting, c);
            && Mail(taken + [waiting[i]], RemoveAt(waiting, i), sent, k)
            && (c != k ==> Mail(taken, RemoveAt(waiting, i), sent, k))
  {
    TakeFirst(waiting, c, k);
    FilterAppend(taken, waiting[FirstOfType(waiting, c)], HasType(k));
  }

  lemma {:induction false} MailRecv(s: State, k: int)
    requires MailFor(s, k) && k != 4
    ensures MailFor(RecvStep(s), k)
  {
    if s.recvPc == Receive && FirstOfType(s.kernelQ, 4) < |s.kernelQ| {
      MailTaken(s.h.taken, s.kernelQ, s.h.sent, 4, k);
    }
  }

  lemma {:induction false} MailTake(s: State, c: int, k: int)
    requires MailFor(s, k)
    ensures MailFor(ClientTakeStep(s, c), k)
  {
    if c != 4 && FirstOfType(s.kernelQ, c) < |s.kernelQ| {
      MailTaken(s.h.taken, s.kernelQ, s.h.sent, c, k);
    }
  }

  lemma {:induction false} MailStep(render: Rendering, s: State, act: Action, k: int)
    requires MailFor(s, k) && k != 4
    ensures MailFor(Step(render, s, act), k)
  {
    match act
    case Main => MailMain(render, s, k);
    case Recv => MailRecv(s, k);
    case Interrupt =>
    case ClientSend(m) => FilterAppend(s.kernelQ, m.(mtype := 4, shutdown := false), HasType(k));
    case ClientTake(c) => MailTake(s, c, k);
  }

  lemma {:induction false} DeliverAppend(render: Rendering, ms: seq<Message>, m: Message)
    ensures DeliverAll(render, ms + [m]) ==
            DeliverAll(render, ms) + if m.dest < 1 then [] else [Forwarded(render, m)]
  {
    assert (ms + [m])[..|ms|] == ms;
  }

  lemma {:induction false} OutputMain(render: Rendering, s: State)
    requires OutputInv(render, s)
    ensures OutputInv(render, MainStep(render, s))
  {
    if s.mainPc == Send {
      DeliverAppend(render, s.h.forwarded, s.received);
      assert QuitsSent(s) == 0 && s.h.sent == DeliverAll(render, s.h.forwarded);
    }
  }

  lemma {:induction false} OutputStep(render: Rendering, s: State, act: Action)
    requires OutputInv(render, s)
    ensures OutputInv(render, Step(render, s, act))
  {
    if act == Main {
      OutputMain(render, s);
    }
  }

  // ---------- Every schedule ----------

  lemma {:induction false} AlwaysLock(render: Rendering, s: State, schedule: seq<Action>)
    requires Initial(s)
    ensures LockInv(After(render, s, schedule))
  {
    if schedule != [] {
      var front := schedule[..|schedule| - 1];
      AlwaysLock(render, s, front);
      LockStep(render, After(render, s, front), schedule[|schedule| - 1]);
    }
  }

  lemma {:induction false} AlwaysConserved(render: Rendering, s: State, schedule: seq<Action>)
    requires Initial(s)
    ensures Conserved(After(render, s, schedule)) && Entered(After(render, s, schedule))
  {
    if schedule == [] {
      FilterAll(s.kernelQ, HasType(4));
    } else {
      var front := schedule[..|schedule| - 1];
      AlwaysConserved(render, s, front);
      ConservedStep(render, After(render, s, front), schedule[|schedule| - 1]);
      EnteredStep(render, After(render, s, front), schedule[|schedule| - 1]);
    }
  }

  lemma {:induction false} AlwaysMail(render: Rendering, s: State, schedule: seq<Action>, k: int)
    requires Initial(s) && k != 4
    ensures MailFor(After(render, s, schedule), k)
  {
    if schedule == [] {
      FilterNone(s.kernelQ, HasType(k));
    } else {
      var front := schedule[..|schedule| - 1];
      AlwaysMail(render, s, front, k);
      MailStep(render, After(render, s, front), schedule[|schedule| - 1], k);
    }
  }

  lemma {:induction false} AlwaysOutput(render: Rendering, s: State, schedule: seq<Action>)
    requires Initial(s)
    ensures OutputInv(render, After(render, s, schedule))
  {
    if schedule != [] {
      var front := schedule[..|schedule| - 1];
      AlwaysOutput(render, s, front);
      OutputStep(render, After(render, s, front), schedule[|schedule| - 1]);
    }
  }

  // ---------- What each client sees ----------

  /** Projecting the atomic router's output on a client renders the messages addressed to it. */
  lemma {:induction false} DeliverFor(render: Rendering, ms: seq<Message>, k: int)
    requires k >= 1
    ensures Filter(DeliverAll(render, ms), HasType(k)) == RenderAll(render, Filter(ms, HasDest(k)))
  {
    if ms != [] {
      var front, last := ms[..|ms| - 1], ms[|ms| - 1];
      DeliverFor(render, front, k);
      FilterAppend(DeliverAll(render, front), Forwarded(render, last), HasType(k));
    }
  }

  function Deliverable(): Message -> bool { (m: Message) => m.dest >= 1 }

  /** The atomic router drops the messages whose dest is below 1, and only these. */
  lemma {:induction false} DeliverDrops(render: Rendering, ms: seq<Message>)
    ensures DeliverAll(render, ms) == RenderAll(render, Filter(ms, Deliverable()))
    ensures |DeliverAll(render, ms)| <= |ms|
    ensures |DeliverAll(render, ms)| == |ms| <==> forall m :: m in ms ==> m.dest >= 1
  {
    if ms != [] {
      var front, last := ms[..|ms| - 1], ms[|ms| - 1];
      assert ms == front + [last];
      DeliverDrops(render, front);
    }
  }

  lemma {:induction false} DeliverPlain(render: Rendering, ms: seq<Message>)
    ensures forall m :: m in DeliverAll(render, ms) ==> !m.shutdown
  {
    if ms != [] {
      DeliverPlain(render, ms[..|ms| - 1]);
    }
  }

  /** The Quits q, sent for types 1, 2, ..., hold exactly one message of each type up to their number. */
  lemma {:induction false} QuitsFor(q: seq<Message>, k: int)
    requires forall j :: 0 <= j < |q| ==> IsQuit(q[j], j + 1)
    requires k >= 1
    ensures Filter(q, HasType(k)) == if k <= |q| then [q[k - 1]] else []
  {
    if q != [] {
      QuitsFor(q[..|q| - 1], k);
    }
  }

  /** At any moment of any interleaving the server has sent to client k the rendered messages for k
      among those it has popped, in order, and after them its Quit, once, if it got that far. */
  lemma {:induction false} SentTo(render: Rendering, s0: State, schedule: seq<Action>, k: int)
    requires Initial(s0) && 1 <= k <= 3
    ensures var s := After(render, s0, schedule);
            var plain := RenderAll(render, Filter(s.h.forwarded, HasDest(k)));
            var out := Filter(s.h.sent, HasType(k));
            && (QuitsSent(s) < k ==> out == plain)
            && (QuitsSent(s) >= k ==> |out| == |plain| + 1 && out[..|plain|] == plain && IsQuit(out[|plain|], k))
            && forall m :: m in plain ==> !m.shutdown
  {
    AlwaysOutput(render, s0, schedule);
    OutputFor(render, After(render, s0, schedule), k);
  }

  lemma {:induction false} OutputFor(render: Rendering, s: State, k: int)
    requires OutputInv(render, s) && 1 <= k <= 3
    ensures var plain := RenderAll(render, Filter(s.h.forwarded, HasDest(k)));
            var out := Filter(s.h.sent, HasType(k));
            && (QuitsSent(s) < k ==> out == plain)
            && (QuitsSent(s) >= k ==> |out| == |plain| + 1 && out[..|plain|] == plain && IsQuit(out[|plain|], k))
            && forall m :: m in plain ==> !m.shutdown
  {
    var plain := DeliverAll(render, s.h.forwarded);
    var quits := s.h.sent[|plain|..];
    assert s.h.sent == plain + quits;
    assert forall j :: 0 <= j < |quits| ==> quits[j] == s.h.sent[|plain| + j];
    FilterConcat(plain, quits, HasType(k));
    QuitsFor(quits, k);
    DeliverFor(render, s.h.forwarded, k);
  }

  /** Messages are lost on the way: at any moment of any run what the server has sent besides Quits is what it
      has popped, rendered, without the messages whose dest is below 1; so it has sent as many as it has
      popped if and only if there was no such message. */
  lemma {:induction false} UndeliverableLost(render: Rendering, s0: State, schedule: seq<Action>)
    requires Initial(s0)
    ensures var s := After(render, s0, schedule);
            var plain := Filter(s.h.sent, NotShutdown());
            && plain == RenderAll(render, Filter(s.h.forwarded, Deliverable()))
            && (|plain| == |s.h.forwarded| <==> forall m :: m in s.h.forwarded ==> m.dest >= 1)
  {
    AlwaysOutput(render, s0, schedule);
    var s := After(render, s0, schedule);
    PlainOutput(render, s);
    DeliverDrops(render, s.h.forwarded);
  }

  lemma {:induction false} PlainOutput(render: Rendering, s: State)
    requires OutputInv(render, s)
    ensures Filter(s.h.sent, NotShutdown()) == DeliverAll(render, s.h.forwarded)
  {
    var plain := DeliverAll(render, s.h.forwarded);
    var quits := s.h.sent[|plain|..];
    assert s.h.sent == plain + quits;
    FilterConcat(plain, quits, NotShutdown());
    DeliverPlain(render, s.h.forwarded);
    FilterAll(plain, NotShutdown());
    assert forall m :: m in quits ==> m.shutdown;
    FilterNone(quits, NotShutdown());
  }

  /** Quit is last: when the main thread reaches the join, whatever the moment of SIGINT, the
      output to each client 1..3 is plain messages followed by exactly one shutdown message. */
  lemma {:induction false} QuitIsLast(render: Rendering, s0: State, schedule: seq<Action>, k: int)
    requires Initial(s0) && 1 <= k <= 3
    requires After(render, s0, schedule).mainPc == Join
    ensures var out := Filter(After(render, s0, schedule).h.sent, HasType(k));
            && out != []
            && IsQuit(out[|out| - 1], k)
            && forall i :: 0 <= i < |out| - 1 ==> !out[i].shutdown
  {
    SentTo(render, s0, schedule, k);
    var s := After(render, s0, schedule);
    var plain := RenderAll(render, Filter(s.h.forwarded, HasDest(k)));
    var out := Filter(s.h.sent, HasType(k));
    forall i | 0 <= i < |out| - 1 ensures !out[i].shutdown {
      assert out[i] == out[..|plain|][i] && plain[i] in plain;
    }
  }

  /** End to end: what client k has taken, followed by what still waits for it, is what the server
      sent to it; and the i-th message of it that is not a shutdown is the i-th message for k that entered
      the kernel queue as type 4, with its source kept and its text rendered. */
  lemma {:induction false} RoutingRefinement(render: Rendering, s0: State, schedule: seq<Action>, k: int)
    requires Initial(s0) && 1 <= k <= 3
    ensures var s := After(render, s0, schedule);
            var accepted := Filter(s.h.entered, HasDest(k));
            var plain := Filter(Filter(s.h.sent, HasType(k)), NotShutdown());
            && Filter(s.h.taken, HasType(k)) + Filter(s.kernelQ, HasType(k)) == Filter(s.h.sent, HasType(k))
            && |plain| <= |accepted|
            && forall i :: 0 <= i < |plain| ==>
                 plain[i] == Message(k, accepted[i].source, k, render(accepted[i].buf), false)
  {
    var s := After(render, s0, schedule);
    AlwaysMail(render, s0, schedule, k);
    AlwaysConserved(render, s0, schedule);
    SentTo(render, s0, schedule, k);
    ShutdownsOff(RenderAll(render, Filter(s.h.forwarded, HasDest(k))), Filter(s.h.sent, HasType(k)));
    FilterPrefix(s.h.forwarded, s.h.entered, HasDest(k));
    Rendered(render, Filter(s.h.forwarded, HasDest(k)), k);
    FilterAllSatisfy(s.h.forwarded, k);
  }

  lemma {:induction false} ShutdownsOff(plain: seq<Message>, out: seq<Message>)
    requires forall m :: m in plain ==> !m.shutdown
    requires out == plain || (|out| == |plain| + 1 && out[..|plain|] == plain && out[|plain|].shutdown)
    ensures Filter(out, NotShutdown()) == plain
  {
    FilterAll(plain, NotShutdown());
    if out != plain {
      assert out == plain + [out[|plain|]];
      FilterAppend(plain, out[|plain|], NotShutdown());
    }
  }

  lemma {:induction false} Rendered(render: Rendering, ms: seq<Message>, k: int)
    ensures |RenderAll(render, ms)| == |ms|
    ensures forall i :: 0 <= i < |ms| && ms[i].dest == k ==>
              RenderAll(render, ms)[i] == Message(k, ms[i].source, k, render(ms[i].buf), false)
  {
  }

  lemma {:induction false} FilterAllSatisfy(ms: seq<Message>, k: int)
    ensures forall i :: 0 <= i < |Filter(ms, HasDest(k))| ==> Filter(ms, HasDest(k))[i].dest == k
  {
    forall i | 0 <= i < |Filter(ms, HasDest(k))| ensures Filter(ms, HasDest(k))[i].dest == k {
      FilterMember(ms, HasDest(k), Filter(ms, HasDest(k))[i]);
    }
  }
}
