/** The select server (Labs/Lab 9/server.cpp) as a state machine: the receiver thread accepts clients and
    queues what they send, the main thread prints and, at the end, broadcasts Quit.

    What the kernel decides comes with each turn of the receiver. A blocked thread, or an answer the
    kernel cannot give, leaves the state unchanged, so every sequence of actions is a schedule. */
module SelectServer {
  const C_MAX: nat := 3

  datatype Entry = Entry(client: nat, text: string)

  datatype Owner = Free | HeldByReceiver | HeldByMain

  datatype ReceiverPc =
    | LoopTest          // 55
    | Select            // 57-60
    | Test              // 62-68
    | Accept            // 70-87
    | Scan(i: nat)      // 92-94
    | Recv(i: nat)      // 96-104
    | LockPush(i: nat)  // 106
    | Push(i: nat)      // 107
    | UnlockPush(i: nat)  // 108
    | Clear             // 115
    | Exited            // 119
    | Overrun           // fd_client written past its end: undefined behaviour

  datatype MainPc =
    | OuterTest         // 166
    | SizeTest          // 168-171
    | InnerTest         // 173
    | LockPop           // 175
    | Pop               // 176-177
    | UnlockPop         // 178
    | Print             // 180
    | QuitLoop(i: nat)  // 186-189
    | Join              // 191
    | Closed            // 193-194
    | Fault             // front() or pop() on an empty queue: undefined behaviour

  datatype State = State(
    fdMaster: int,
    activeFDs: set<int>,
    readFDs: set<int>,
    fdClient: seq<int>,
    cnt: nat,             // C_CNT
    fdMax: int,
    s: int,               // select's result
    isWorking: bool,
    mesQ: seq<Entry>,
    mutex: Owner,
    receiverPc: ReceiverPc,
    message: Entry,       // the receiver's message
    mainPc: MainPc,
    received: Entry,      // main's recieveMessage
    h: History)

  /** What has happened so far; never read by a step, except to keep itself. */
  datatype History = History(
    accepted: seq<int>,   // descriptors accept returned, in order
    knocks: nat,          // rounds in which the listening socket was ready
    late: nat,            // of these, the ones after C_MAX accepted clients
    chunks: seq<Entry>,   // texts read from clients, in order
    pushed: seq<Entry>,
    printed: seq<Entry>,
    roundPushes: nat,     // pushes in the current scan
    rounds: nat,          // completed scans
    quits: seq<int>)      // descriptors a Quit was sent on

  /** The kernel's answers: select's ready set, a failure, accept's descriptor, the text received. */
  datatype Input = Input(ready: set<int>, fails: bool, fd: int, text: string)

  datatype Action = Receiver(input: Input) | Main

  function SelectStep(s: State, input: Input): State {
    if input.fails then s.(readFDs := s.activeFDs, s := -1, receiverPc := Test)
    else if input.ready <= s.activeFDs then
      var knock := s.fdMaster in input.ready;
      s.(readFDs := input.ready, s := |input.ready|, receiverPc := Test,
         h := s.h.(knocks := if knock then s.h.knocks + 1 else s.h.knocks,
                   late := if knock && |s.h.accepted| == C_MAX then s.h.late + 1 else s.h.late))
    else s
  }

  function TestStep(s: State): State {
    if s.s < 0 then s.(receiverPc := LoopTest)
    else if s.fdMaster in s.readFDs then s.(receiverPc := Accept)
    else if s.s == 1 then s.(receiverPc := Scan(0), h := s.h.(roundPushes := 0))
    else s.(receiverPc := Clear)
  }

  /** accept gives a descriptor that is not open. A failed accept leaves -1 in the next free slot. */
  function AcceptStep(s: State, input: Input): State {
    if s.cnt >= |s.fdClient| then s.(receiverPc := Overrun)
    else if input.fails then s.(fdClient := s.fdClient[s.cnt := -1], receiverPc := LoopTest)
    else if input.fd < 0 || input.fd in s.activeFDs then s
    else s.(fdClient := s.fdClient[s.cnt := input.fd],
            activeFDs := s.activeFDs + {input.fd},
            fdMax := if s.fdMax < input.fd then input.fd else s.fdMax,
            cnt := s.cnt + 1,
            h := s.h.(accepted := s.h.accepted + [input.fd]),
            receiverPc := LoopTest)
  }

  function ScanStep(s: State, i: nat): State {
    if i >= s.cnt || i >= |s.fdClient| then s.(receiverPc := LoopTest, h := s.h.(rounds := s.h.rounds + 1))
    else if s.fdClient[i] in s.readFDs then s.(receiverPc := Recv(i))
    else s.(receiverPc := Scan(i + 1))
  }

  /** A failed recv leaves the cleared buffer: the empty text. */
  function RecvStep(s: State, i: nat, input: Input): State {
    var e := Entry(i, if input.fails then "" else input.text);
    s.(message := e, h := s.h.(chunks := s.h.chunks + [e]), receiverPc := LockPush(i))
  }

  function ReceiverStep(s: State, input: Input): State {
    match s.receiverPc
    case LoopTest => s.(receiverPc := if s.isWorking then Select else Exited)
    case Select => SelectStep(s, input)
    case Test => TestStep(s)
    case Accept => AcceptStep(s, input)
    case Scan(i) => ScanStep(s, i)
    case Recv(i) => RecvStep(s, i, input)
    case LockPush(i) => if s.mutex == Free then s.(mutex := HeldByReceiver, receiverPc := Push(i)) else s
    case Push(i) =>
      s.(mesQ := s.mesQ + [s.message], receiverPc := UnlockPush(i),
         h := s.h.(pushed := s.h.pushed + [s.message], roundPushes := s.h.roundPushes + 1))
    case UnlockPush(i) => s.(mutex := Free, receiverPc := Scan(i + 1))
    case Clear => s.(isWorking := false, receiverPc := LoopTest)
    case Exited => s
    case Overrun => s
  }

  function MainStep(s: State): State {
    match s.mainPc
    case OuterTest => s.(mainPc := if s.isWorking then SizeTest else QuitLoop(0))
    case SizeTest => s.(mainPc := InnerTest)
    case InnerTest => s.(mainPc := if |s.mesQ| > 0 then LockPop else OuterTest)
    case LockPop => if s.mutex == Free then s.(mutex := HeldByMain, mainPc := Pop) else s
    case Pop =>
      if s.mesQ == [] then s.(mainPc := Fault)
      else s.(received := s.mesQ[0], mesQ := s.mesQ[1..], mainPc := UnlockPop)
    case UnlockPop => s.(mutex := Free, mainPc := Print)
    case Print => s.(h := s.h.(printed := s.h.printed + [s.received]), mainPc := InnerTest)
    case QuitLoop(i) =>
      if i < s.cnt && i < |s.fdClient| then
        s.(h := s.h.(quits := s.h.quits + [s.fdClient[i]]), mainPc := QuitLoop(i + 1))
      else s.(mainPc := Join)
    case Join => s.(mainPc := if s.receiverPc == Exited then Closed else Join)
    case Closed => s
    case Fault => s
  }

  function Step(s: State, act: Action): State {
    match act
    case Receiver(input) => ReceiverStep(s, input)
    case Main => MainStep(s)
  }

  function After(s: State, schedule: seq<Action>): State {
    if schedule == [] then s
    else Step(After(s, schedule[..|schedule| - 1]), schedule[|schedule| - 1])
  }

  /** Listening, nobody connected, both threads before their first loop test. */
  ghost predicate Initial(s: State) {
    && s.fdMaster >= 0 && s.activeFDs == {s.fdMaster} && s.fdMax == s.fdMaster
    && |s.fdClient| == C_MAX && s.cnt == 0
    && s.isWorking && s.mesQ == [] && s.mutex == Free
    && s.receiverPc == LoopTest && s.mainPc == OuterTest
    && s.h == History([], 0, 0, [], [], [], 0, 0, [])
  }
}
