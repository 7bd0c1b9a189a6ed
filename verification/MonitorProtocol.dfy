/** netMonitor and its intfMonitor clients (Assignments/A1) at the level of whole messages.

    Connection i is the i-th one accepted. A read takes any number of whole queued messages and
    returns only the first, as reading a byte stream into a C string does. A step whose process is
    blocked leaves the state unchanged, so every sequence of actions is a schedule. */
module MonitorProtocol {
  datatype Message = Ready | Monitor | Monitoring | LinkDown | SetLinkUp | LinkUp | ShutDown | Done
                   | Nothing  // the empty text that a read at end of file or an interrupted read leaves

  function Text(m: Message): string {
    match m
    case Ready => "Ready"
    case Monitor => "Monitor"
    case Monitoring => "Monitoring"
    case LinkDown => "Link down"
    case SetLinkUp => "Set Link Up"
    case LinkUp => "Link Up"
    case ShutDown => "Shut Down"
    case Done => "Done"
    case Nothing => ""
  }

  /** Lines of intfMonitor.cpp. */
  datatype ClientPc =
    | Unconnected   // before 133
    | Checking      // 141-164: a bad directory ends the client
    | Announce      // 166
    | Head          // 171-233: the loop head takes a snapshot of the interface
    | Waiting       // 235
    | Confirm       // 239
    | Display       // 245-256: left only if the snapshot says down
    | ReportDown    // 260
    | RaiseLink     // 268: failure ends the client
    | ReportUp      // 272
    | Finish        // 281-283
    | Gone

  datatype Conn = Conn(
    pc: ClientPc,
    down: bool,               // the snapshot: operstate == "down"
    toClient: seq<Message>,   // sent by the server, not yet read
    toServer: seq<Message>,   // sent by the client, not yet read
    open: bool,               // the server has not closed its end
    log: seq<Message>,        // history: everything sent on the connection by either side, in order
    confused: bool)           // history: the client printed "Command not known"

  /** Lines of netMonitor.cpp. */
  datatype ServerPc =
    | Accept(i: nat)        // 156-162
    | HsReady(i: nat)       // 164
    | HsMonitor(i: nat)     // 170
    | HsConfirm(i: nat)     // 173
    | HsRefuse(i: nat)      // 176
    | Listen                // 182
    | Answer(m: Message)    // 185, 187
    | LoopTest              // 191
    | QuitSend(i: nat)      // 194-198
    | QuitWait(i: nat)      // 200-204
    | Exited                // 209
    | Killed                // SIGPIPE: a write to a connection whose client is gone

  datatype State = State(conns: seq<Conn>, pc: ServerPc, retRecv: int, isWorking: bool)

  datatype Action =
    | Server(extra: nat)    // a read takes up to extra messages after the first
    | Client(i: nat, extra: nat, ok: bool, down: bool)
    | Interrupt(inRead: bool)  // SIGINT, in a blocked read or not

  /** Control points and retRecv agree: in the handshake retRecv is the connection being set up, and
      from the service loop on it is the last one. */
  predicate WellFormed(s: State) {
    && |s.conns| > 0
    && match s.pc
       case Accept(i) => i <= |s.conns| && (i > 0 ==> s.retRecv == i - 1)
       case HsReady(i) => i < |s.conns| && s.retRecv == i
       case HsMonitor(i) => i < |s.conns| && s.retRecv == i
       case HsConfirm(i) => i < |s.conns| && s.retRecv == i
       case HsRefuse(i) => i < |s.conns| && s.retRecv == i
       case Listen => s.retRecv == |s.conns| - 1
       case Answer(_) => s.retRecv == |s.conns| - 1
       case LoopTest => s.retRecv == |s.conns| - 1
       case QuitSend(i) => i <= |s.conns|
       case QuitWait(i) => i < |s.conns|
       case Exited => true
       case Killed => true
  }

  datatype ReadResult = Blocked | Got(m: Message, rest: seq<Message>)

  function Read(queue: seq<Message>, peerClosed: bool, extra: nat): ReadResult {
    if queue != [] then Got(queue[0], if extra < |queue| then queue[extra + 1..] else [])
    else if peerClosed then Got(Nothing, [])
    else Blocked
  }

  // ---------- The server ----------

  function SendTo(s: State, i: nat, m: Message, next: ServerPc): State
    requires i < |s.conns|
  {
    var c := s.conns[i];
    if c.pc == Gone then s.(pc := Killed)
    else s.(conns := s.conns[i := c.(toClient := c.toClient + [m], log := c.log + [m])], pc := next)
  }

  function ReadFrom(s: State, i: nat, extra: nat): ReadResult
    requires i < |s.conns|
  {
    Read(s.conns[i].toServer, s.conns[i].pc == Gone, extra)
  }

  function Took(s: State, i: nat, rest: seq<Message>, next: ServerPc): State
    requires i < |s.conns|
  {
    s.(conns := s.conns[i := s.conns[i].(toServer := rest)], pc := next)
  }

  /** Lines 156-178: one step of the handshake. */
  function HandshakeMove(s: State, extra: nat): (s': State)
    requires WellFormed(s) && (s.pc.Accept? || s.pc.HsReady? || s.pc.HsMonitor? || s.pc.HsConfirm? || s.pc.HsRefuse?)
    ensures WellFormed(s') && |s'.conns| == |s.conns|
  {
    match s.pc
    case Accept(i) =>
      if i == |s.conns| then s.(pc := Listen)
      else if s.conns[i].pc == Unconnected then s
      else s.(retRecv := i, pc := HsReady(i))
    case HsReady(i) =>
      var r := ReadFrom(s, s.retRecv, extra);
      if r.Blocked? then s else Took(s, s.retRecv, r.rest, HsMonitor(i))
    case HsMonitor(i) => SendTo(s, s.retRecv, Monitor, HsConfirm(i))
    case HsConfirm(i) =>
      var r := ReadFrom(s, s.retRecv, extra);
      if r.Blocked? then s
      else Took(s, s.retRecv, r.rest, if r.m == Monitoring then Accept(i + 1) else HsRefuse(i))
    case HsRefuse(i) => SendTo(s, s.retRecv, ShutDown, Accept(i + 1))
  }

  /** Lines 181-191: one step of the service loop. */
  function ServiceMove(s: State, extra: nat): (s': State)
    requires WellFormed(s) && (s.pc.Listen? || s.pc.Answer? || s.pc.LoopTest?)
    ensures WellFormed(s') && |s'.conns| == |s.conns|
  {
    match s.pc
    case Listen =>
      var r := ReadFrom(s, s.retRecv, extra);
      if r.Blocked? then s
      else Took(s, s.retRecv, r.rest,
                if r.m == LinkDown then Answer(SetLinkUp)
                else if r.m == LinkUp then Answer(Monitor)
                else LoopTest)
    case Answer(m) => SendTo(s, s.retRecv, m, LoopTest)
    case LoopTest => s.(pc := if s.isWorking then Listen else QuitSend(0))
  }

  /** Lines 194-205: one step of the shutdown loop. */
  function QuitMove(s: State, extra: nat): (s': State)
    requires WellFormed(s) && (s.pc.QuitSend? || s.pc.QuitWait?)
    ensures WellFormed(s') && |s'.conns| == |s.conns|
  {
    match s.pc
    case QuitSend(i) =>
      if i == |s.conns| then s.(pc := Exited) else SendTo(s, i, ShutDown, QuitWait(i))
    case QuitWait(i) =>
      var r := ReadFrom(s, i, extra);
      if r.Blocked? then s
      else
        var s1 := Took(s, i, r.rest, QuitSend(i + 1));
        if r.m == Done then s1.(conns := s1.conns[i := s1.conns[i].(open := false)]) else s1
  }

  function ServerStep(s: State, extra: nat): (s': State)
    requires WellFormed(s)
    ensures WellFormed(s') && |s'.conns| == |s.conns|
  {
    match s.pc
    case Listen => ServiceMove(s, extra)
    case Answer(_) => ServiceMove(s, extra)
    case LoopTest => ServiceMove(s, extra)
    case QuitSend(_) => QuitMove(s, extra)
    case QuitWait(_) => QuitMove(s, extra)
    case Exited => s
    case Killed => s
    case _ => HandshakeMove(s, extra)
  }

  /** SIGINT is assumed to come after the service loop has been entered; in a blocked read it also
      ends that read with an empty message. */
  function InterruptStep(s: State, inRead: bool): (s': State)
    requires WellFormed(s)
    ensures WellFormed(s') && s'.conns == s.conns
  {
    if s.pc == Listen && inRead then s.(isWorking := false, pc := LoopTest)
    else if s.pc.QuitWait? && inRead then s.(isWorking := false, pc := QuitSend(s.pc.i + 1))
    else if s.pc.Listen? || s.pc.Answer? || s.pc.LoopTest? || s.pc.QuitSend? || s.pc.QuitWait?
    then s.(isWorking := false)
    else s
  }

  // ---------- A client ----------

  /** Whether the server's end of connection i is still there. */
  predicate Open(s: State, i: nat)
    requires i < |s.conns|
  {
    s.conns[i].open && s.pc != Exited && s.pc != Killed
  }

  /** A write to a connection whose server end is gone ends the client. */
  function Say(c: Conn, open: bool, m: Message, next: ClientPc): Conn {
    if !open then c.(pc := Gone)
    else c.(toServer := c.toServer + [m], log := c.log + [m], pc := next)
  }

  function Dispatch(c: Conn, m: Message): Conn {
    match m
    case Monitor => c.(pc := Confirm)
    case SetLinkUp => c.(pc := RaiseLink)
    case ShutDown => c.(pc := Finish)
    case _ => c.(pc := Head, confused := true)
  }

  /** The control points at which a client writes. */
  predicate Writes(pc: ClientPc) {
    pc == Announce || pc == Confirm || pc == ReportDown || pc == ReportUp || pc == Finish
  }

  /** What is written there, and where the client goes on. */
  function Written(pc: ClientPc): Message
    requires Writes(pc)
  {
    match pc
    case Announce => Ready
    case Confirm => Monitoring
    case ReportDown => LinkDown
    case ReportUp => LinkUp
    case Finish => Done
  }

  function AfterWrite(pc: ClientPc): ClientPc
    requires Writes(pc)
  {
    if pc == Confirm then Display else if pc == Finish then Gone else Head
  }

  /** The steps that touch neither queue. */
  function LocalStep(c: Conn, open: bool, ok: bool, down: bool): Conn {
    match c.pc
    case Unconnected => c.(pc := if open then Checking else Gone)
    case Checking => c.(pc := if ok then Announce else Gone)
    case Head => c.(down := down, pc := Waiting)
    case Display => c.(pc := if c.down then ReportDown else Display)
    case RaiseLink => c.(pc := if ok then ReportUp else Gone)
    case _ => c
  }

  function ClientStep(c: Conn, open: bool, extra: nat, ok: bool, down: bool): Conn {
    if Writes(c.pc) then Say(c, open, Written(c.pc), AfterWrite(c.pc))
    else if c.pc == Waiting then
      var r := Read(c.toClient, !open, extra);
      if r.Blocked? then c else Dispatch(c.(toClient := r.rest), r.m)
    else LocalStep(c, open, ok, down)
  }

  // ---------- Runs ----------

  function Step(s: State, act: Action): (s': State)
    requires WellFormed(s)
    ensures WellFormed(s') && |s'.conns| == |s.conns|
  {
    match act
    case Server(extra) => ServerStep(s, extra)
    case Client(i, extra, ok, down) =>
      if i >= |s.conns| then s
      else s.(conns := s.conns[i := ClientStep(s.conns[i], Open(s, i), extra, ok, down)])
    case Interrupt(inRead) => InterruptStep(s, inRead)
  }

  function After(s: State, schedule: seq<Action>): (s': State)
    requires WellFormed(s)
    ensures WellFormed(s') && |s'.conns| == |s.conns|
  {
    if schedule == [] then s
    else Step(After(s, schedule[..|schedule| - 1]), schedule[|schedule| - 1])
  }

  const Fresh: Conn := Conn(Unconnected, false, [], [], true, [], false)

  /** At least one interface, nobody connected, the server before its first accept. */
  ghost predicate Initial(s: State) {
    && |s.conns| > 0
    && (forall i :: 0 <= i < |s.conns| ==> s.conns[i] == Fresh)
    && s.pc == Accept(0) && s.isWorking
  }
}
