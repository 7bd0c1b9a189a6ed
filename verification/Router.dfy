/** The two-thread message router (Labs/Lab 8/server.cpp) as a state machine over its atomic steps.

    The main thread forwards, the recv thread collects, and clients use the kernel message queue
    at any time. A step whose thread is blocked leaves the state unchanged, so every sequence
    of actions is a schedule and a theorem about every schedule is a theorem about every interleaving. */
module Router {
  /** A queued message. `shutdown` is not part of the source's record: it marks the messages that
      line 102 sent, because a client may send the same text. */
  datatype Message = Message(mtype: int, source: int, dest: int, buf: string, shutdown: bool)

  /** sprintf applied to a client text and the server's process number. */
  type Rendering = string -> string

  datatype Owner = Free | HeldByMain | HeldByRecv

  datatype MainPc =
    | OuterTest          // 77
    | InnerTest          // 79
    | LockQueue          // 81
    | PopFront           // 82-83
    | UnlockQueue        // 84
    | Compose            // 86-90
    | Send               // 91
    | Sleep              // 92
    | QuitLoop(i: nat)   // 98-103
    | Join               // 105
    | Fault              // front() or pop() on an empty queue: undefined behaviour

  datatype RecvPc =
    | LoopTest           // 128
    | Receive            // 131
    | LockPush           // 133
    | Push               // 134
    | UnlockPush         // 135
    | Exited             // 137

  datatype State = State(
    isWorking: bool,
    messageQ: seq<Message>,
    mutex: Owner,
    kernelQ: seq<Message>,
    mainPc: MainPc,
    received: Message,      // message_recieve
    outgoing: Message,      // message_send
    recvPc: RecvPc,
    mess: Message,
    h: History)

  /** What has happened so far; never read by a step, except to keep itself. */
  datatype History = History(
    entered: seq<Message>,    // every type-4 message, in the order it entered the kernel queue
    obtained: seq<Message>,   // every message msgrcv returned to the recv thread
    forwarded: seq<Message>,  // every popped message, in the order line 91 sent it on
    sent: seq<Message>,       // every message the server put into the kernel queue
    taken: seq<Message>)      // every message a client removed from the kernel queue

  datatype Action =
    | Main
    | Recv
    | Interrupt                    // SIGINT reaches sigHandler
    | ClientSend(m: Message)       // a client inserts m as a type-4 message
    | ClientTake(k: int)           // client k removes its first message

  function HasType(k: int): Message -> bool { (m: Message) => m.mtype == k }
  function HasDest(k: int): Message -> bool { (m: Message) => m.dest == k }
  function NotShutdown(): Message -> bool { (m: Message) => !m.shutdown }

  /** The position msgrcv takes from: the first message of type k, or the length when there is none. */
  function FirstOfType(q: seq<Message>, k: int): (i: nat)
    ensures i <= |q|
    ensures forall j :: 0 <= j < i ==> q[j].mtype != k
    ensures i < |q| ==> q[i].mtype == k
  {
    if q == [] || q[0].mtype == k then 0 else 1 + FirstOfType(q[1..], k)
  }

  function RemoveAt(q: seq<Message>, i: nat): seq<Message>
    requires i < |q|
  {
    q[..i] + q[i + 1..]
  }

  /** msgsnd: a type below 1 is refused (EINVAL) and the server ignores the refusal. */
  function MsgSnd(s: State, m: Message): State {
    if m.mtype < 1 then s
    else s.(kernelQ := s.kernelQ + [m],
            h := s.h.(sent := s.h.sent + [m],
                      entered := if m.mtype == 4 then s.h.entered + [m] else s.h.entered))
  }

  function Forwarded(render: Rendering, m: Message): Message {
    Message(m.dest, m.source, m.dest, render(m.buf), false)
  }

  function QuitMessage(outgoing: Message, i: nat): Message {
    outgoing.(mtype := i + 1, buf := "Quit", shutdown := true)
  }

  function MainStep(render: Rendering, s: State): State {
    match s.mainPc
    case OuterTest =>
      if s.isWorking then s.(mainPc := InnerTest)
      else s.(mainPc := QuitLoop(0), outgoing := s.outgoing.(source := 4))
    case InnerTest => s.(mainPc := if |s.messageQ| > 0 then LockQueue else OuterTest)
    case LockQueue => if s.mutex == Free then s.(mutex := HeldByMain, mainPc := PopFront) else s
    case PopFront =>
      if s.messageQ == [] then s.(mainPc := Fault)
      else s.(received := s.messageQ[0], messageQ := s.messageQ[1..], mainPc := UnlockQueue)
    case UnlockQueue => s.(mutex := Free, mainPc := Compose)
    case Compose => s.(outgoing := Forwarded(render, s.received), mainPc := Send)
    case Send => MsgSnd(s.(h := s.h.(forwarded := s.h.forwarded + [s.received]), mainPc := Sleep), s.outgoing)
    case Sleep => s.(mainPc := InnerTest)
    case QuitLoop(i) =>
      if i < 3 then
        var quit := QuitMessage(s.outgoing, i);
        MsgSnd(s.(outgoing := quit, mainPc := QuitLoop(i + 1)), quit)
      else s.(mainPc := Join)
    case Join => s
    case Fault => s
  }

  function RecvStep(s: State): State {
    match s.recvPc
    case LoopTest => s.(recvPc := if s.isWorking then Receive else Exited)
    case Receive =>
      var i := FirstOfType(s.kernelQ, 4);
      if i == |s.kernelQ| then s
      else s.(mess := s.kernelQ[i], kernelQ := RemoveAt(s.kernelQ, i),
              h := s.h.(obtained := s.h.obtained + [s.kernelQ[i]]), recvPc := LockPush)
    case LockPush => if s.mutex == Free then s.(mutex := HeldByRecv, recvPc := Push) else s
    case Push => s.(messageQ := s.messageQ + [s.mess], recvPc := UnlockPush)
    case UnlockPush => s.(mutex := Free, recvPc := LoopTest)
    case Exited => s
  }

  function ClientSendStep(s: State, m: Message): State {
    var m' := m.(mtype := 4, shutdown := false);
    s.(kernelQ := s.kernelQ + [m'], h := s.h.(entered := s.h.entered + [m']))
  }

  /** A client only removes messages of its own type. */
  function ClientTakeStep(s: State, k: int): State {
    var i := FirstOfType(s.kernelQ, k);
    if k == 4 || i == |s.kernelQ| then s
    else s.(kernelQ := RemoveAt(s.kernelQ, i), h := s.h.(taken := s.h.taken + [s.kernelQ[i]]))
  }

  function Step(render: Rendering, s: State, act: Action): State {
    match act
    case Main => MainStep(render, s)
    case Recv => RecvStep(s)
    case Interrupt => s.(isWorking := false)
    case ClientSend(m) => ClientSendStep(s, m)
    case ClientTake(k) => ClientTakeStep(s, k)
  }

  /** The state after a whole schedule. */
  function After(render: Rendering, s: State, schedule: seq<Action>): State {
    if schedule == [] then s
    else Step(render, After(render, s, schedule[..|schedule| - 1]), schedule[|schedule| - 1])
  }

  /** Both threads are about to run their first loop test; clients may already have queued messages. */
  ghost predicate Initial(s: State) {
    && s.isWorking && s.messageQ == [] && s.mutex == Free
    && s.mainPc == OuterTest && s.recvPc == LoopTest
    && (forall m :: m in s.kernelQ ==> m.mtype == 4 && !m.shutdown)
    && s.h == History(s.kernelQ, [], [], [], [])
  }

  /** The message between the pop and the send of the main thread. */
  function MainHand(s: State): seq<Message> {
    if s.mainPc in {UnlockQueue, Compose, Send} then [s.received] else []
  }

  /** The message between the receive and the push of the recv thread. */
  function RecvHand(s: State): seq<Message> {
    if s.recvPc in {LockPush, Push} then [s.mess] else []
  }

  /** What an atomic router sends for the messages ms, in order. */
  function DeliverAll(render: Rendering, ms: seq<Message>): seq<Message> {
    if ms == [] then []
    else
      var front := DeliverAll(render, ms[..|ms| - 1]);
      var m := Forwarded(render, ms[|ms| - 1]);
      if m.mtype < 1 then front else front + [m]
  }

  /** ms with every text rendered. */
  function RenderAll(render: Rendering, ms: seq<Message>): seq<Message> {
    seq(|ms|, i requires 0 <= i < |ms| => Forwarded(render, ms[i]))
  }
}
