/** The language of the conversation on every connection, in every interleaving, with reads that may
    swallow messages; and the bounds on what is ever in flight. */
module MonitorConversation {
  import opened MonitorProtocol

  // ---------- The language ----------

  /** The k-th message of Ready Monitor Monitoring (LinkDown SetLinkUp LinkUp Monitor Monitoring)*. */
  function Letter(k: nat): Message {
    if k == 0 then Ready
    else match k % 5
      case 0 => LinkUp
      case 1 => Monitor
      case 2 => Monitoring
      case 3 => LinkDown
      case _ => SetLinkUp
  }

  ghost predicate InLanguage(w: seq<Message>) {
    forall k: nat :: k < |w| ==> w[k] == Letter(k)
  }

  /** What was sent before the first Shut Down. */
  function BeforeShut(log: seq<Message>): seq<Message> {
    if log == [] || log[0] == ShutDown then [] else [log[0]] + BeforeShut(log[1..])
  }

  predicate Shut(c: Conn) {
    ShutDown in c.log
  }

  lemma {:induction false} BeforeShutNone(log: seq<Message>)
    requires ShutDown !in log
    ensures BeforeShut(log) == log
    ensures BeforeShut(log + [ShutDown]) == log
  {
    if log != [] {
      BeforeShutNone(log[1..]);
      assert (log + [ShutDown])[1..] == log[1..] + [ShutDown];
    }
  }

  lemma {:induction false} BeforeShutSome(log: seq<Message>, m: Message)
    requires ShutDown in log
    ensures BeforeShut(log + [m]) == BeforeShut(log)
  {
    if log[0] != ShutDown {
      assert ShutDown in log[1..];
      BeforeShutSome(log[1..], m);
      assert (log + [m])[1..] == log[1..] + [m];
    }
  }

  lemma {:induction false} LanguageNotShut(log: seq<Message>)
    requires InLanguage(log)
    ensures ShutDown !in log && BeforeShut(log) == log
  {
    assert ShutDown !in log;
    BeforeShutNone(log);
  }

  // ---------- What is in flight ----------

  /** Four ways to weigh queued messages: bytes on the wire with the terminating NUL, bytes the client
      sends in answer, commands, replies. */
  datatype Scale = Wire | Answers | Orders | Replies

  function Weight(m: Message, scale: Scale): nat {
    match scale
    case Wire => |Text(m)| + 1
    case Answers => if m == Monitor then 21 else if m == SetLinkUp then 8 else if m == ShutDown then 5 else 0
    case Orders => if m == Monitor || m == SetLinkUp then 1 else 0
    case Replies => if m == LinkDown || m == LinkUp then 1 else 0
  }

  function Total(q: seq<Message>, scale: Scale): nat {
    if q == [] then 0 else Weight(q[0], scale) + Total(q[1..], scale)
  }

  /** Bytes a client at pc is about to send. */
  function Owed(pc: ClientPc): nat {
    match pc
    case Unconnected => 6
    case Checking => 6
    case Announce => 6
    case Confirm => 21
    case Display => 10
    case ReportDown => 10
    case RaiseLink => 8
    case ReportUp => 8
    case Finish => 5
    case _ => 0
  }

  /** Bytes on their way to the server, now or once the client has answered everything. */
  function Load(c: Conn): nat {
    Total(c.toServer, Wire) + Owed(c.pc) + Total(c.toClient, Answers)
  }

  function Holds(pc: ClientPc): nat {
    if pc in {Confirm, Display, ReportDown, RaiseLink, ReportUp} then 1 else 0
  }

  /** Pending commands, the client's obligation, pending replies. */
  function Tokens(c: Conn): nat {
    Total(c.toClient, Orders) + Holds(c.pc) + Total(c.toServer, Replies)
  }

  ghost predicate Commands(q: seq<Message>) {
    forall m :: m in q ==> m == Monitor || m == SetLinkUp || m == ShutDown
  }

  ghost predicate Light(c: Conn, limit: nat) {
    && Tokens(c) <= 1
    && Load(c) <= limit
    && Commands(c.toClient)
    && Total(c.toClient, Wire) <= 22
  }

  // ---------- Where the server is, seen from one connection ----------

  datatype Position = NotYet | MustMonitor | AwaitConfirm | Idle | Served | OwesUp | OwesMonitor
                    | Unexpected | Closing | Closed | Ended

  function PositionOf(pc: ServerPc, n: nat, i: nat): Position {
    match pc
    case Accept(j) => if i < j then Idle else NotYet
    case HsReady(j) => if i < j then Idle else NotYet
    case HsMonitor(j) => if i < j then Idle else if i == j then MustMonitor else NotYet
    case HsConfirm(j) => if i < j then Idle else if i == j then AwaitConfirm else NotYet
    case HsRefuse(j) => if i < j then Idle else if i == j then Unexpected else NotYet
    case Listen => if i == n - 1 then Served else Idle
    case LoopTest => if i == n - 1 then Served else Idle
    case Answer(m) =>
      if i != n - 1 then Idle
      else if m == SetLinkUp then OwesUp else if m == Monitor then OwesMonitor else Unexpected
    case QuitSend(j) => if i < j then Closed else Closing
    case QuitWait(j) => if i <= j then Closed else Closing
    case Exited => Ended
    case Killed => Ended
  }

  // ---------- The invariant of one connection ----------

  predicate Resting(c: Conn) {
    c.pc == Head || c.pc == Waiting
  }

  ghost predicate Early(c: Conn) {
    || (c.log == [] && c.toServer == [] && c.toClient == [] && c.pc in {Unconnected, Checking, Announce, Gone})
    || (c.log == [Ready] && c.toServer == [Ready] && c.toClient == [] && Resting(c))
  }

  ghost predicate Greeted(c: Conn) {
    && c.toServer == [] && c.toClient == []
    && ((c.log == [] && c.pc == Gone) || (c.log == [Ready] && Resting(c)))
  }

  /** The command m is waiting for the client, or the client is busy with it. */
  ghost predicate Commanded(c: Conn, m: Message) {
    && c.toServer == []
    && ((c.toClient == [m] && Resting(c)) || (c.toClient == [] && Busy(c.pc, m)))
  }

  /** Where the client is while it obeys m; it may have ended in raising the link. */
  predicate Busy(pc: ClientPc, m: Message) {
    if m == Monitor then pc == Confirm else pc == RaiseLink || pc == ReportUp || pc == Gone
  }

  predicate Showing(c: Conn) {
    c.pc == Display || c.pc == ReportDown
  }

  /** The same between the first Monitor and the read of its confirmation, for n messages sent. */
  ghost predicate InConfirm(c: Conn, n: int) {
    match n
    case 2 => Commanded(c, Monitor)
    case 3 => Showing(c) && c.toClient == [] && c.toServer == [Monitoring]
    case _ => Resting(c) && c.toClient == [] && c.toServer == [Monitoring, LinkDown]
  }

  ghost predicate Confirming(c: Conn) {
    InLanguage(c.log) && 2 <= |c.log| <= 4 && InConfirm(c, |c.log|)
  }

  /** Where everything is when the last message sent has index p modulo 5 in the cycle. */
  ghost predicate InPhase(c: Conn, p: int) {
    match p
    case 0 => Commanded(c, SetLinkUp)
    case 1 => Resting(c) && c.toClient == [] && (c.toServer == [] || c.toServer == [LinkUp])
    case 2 => Commanded(c, Monitor)
    case 3 => Showing(c) && c.toClient == [] && (c.toServer == [] || c.toServer == [Monitoring])
    case _ => Resting(c) && c.toClient == [] &&
              (c.toServer == [] || c.toServer == [LinkDown] || c.toServer == [Monitoring, LinkDown])
  }

  /** After the handshake the number of messages sent so far decides where everything is. */
  ghost predicate Cycling(c: Conn) {
    InLanguage(c.log) && |c.log| >= 3 && InPhase(c, |c.log| % 5)
  }

  ghost predicate AtPosition(c: Conn, pos: Position) {
    match pos
    case NotYet => Early(c)
    case MustMonitor => Greeted(c)
    case AwaitConfirm => Confirming(c)
    case Idle => Cycling(c)
    case Served => Cycling(c)
    case OwesUp => Cycling(c) && |c.log| % 5 == 4 && c.toServer == []
    case OwesMonitor => Cycling(c) && |c.log| % 5 == 1 && c.toServer == []
    case Unexpected => false
    case Closing => Cycling(c)
    case Closed => Shut(c) && Light(c, 26)
    case Ended => Light(c, 26)
  }

  ghost predicate ConnInv(c: Conn, pos: Position, last: bool) {
    && AtPosition(c, pos)
    && InLanguage(BeforeShut(c.log))
    && (pos == Closed || pos == Ended || c.open)
    && (last || |BeforeShut(c.log)| <= 4)
  }

  /** A client is never refused, and the service loop only ever answers with these two commands. */
  predicate Expected(pc: ServerPc) {
    !pc.HsRefuse? && (pc.Answer? ==> pc.m == SetLinkUp || pc.m == Monitor)
  }

  ghost predicate Inv(s: State) {
    && WellFormed(s)
    && Expected(s.pc)
    && forall i :: 0 <= i < |s.conns| ==> ConnInv(s.conns[i], PositionOf(s.pc, |s.conns|, i), i == |s.conns| - 1)
  }

  // ---------- What is in flight is little ----------

  lemma {:induction false} TotalConcat(a: seq<Message>, b: seq<Message>, scale: Scale)
    ensures Total(a + b, scale) == Total(a, scale) + Total(b, scale)
  {
    if a == [] {
      assert a + b == b;
    } else {
      assert (a + b)[1..] == a[1..] + b;
      TotalConcat(a[1..], b, scale);
    }
  }

  lemma {:induction false} TotalDrop(q: seq<Message>, n: nat, scale: Scale)
    requires n <= |q|
    ensures Total(q[n..], scale) <= Total(q, scale)
  {
    assert q == q[..n] + q[n..];
    TotalConcat(q[..n], q[n..], scale);
  }

  lemma {:induction false} TotalSmall(q: seq<Message>, scale: Scale)
    ensures q == [] ==> Total(q, scale) == 0
    ensures |q| == 1 ==> Total(q, scale) == Weight(q[0], scale)
    ensures |q| == 2 ==> Total(q, scale) == Weight(q[0], scale) + Weight(q[1], scale)
  {
    if |q| == 2 {
      assert Total(q[1..], scale) == Weight(q[1..][0], scale) + Total(q[1..][1..], scale);
    }
  }

  lemma {:induction false} SmallTotals(c: Conn)
    ensures c.toClient == [] ==> Total(c.toClient, Wire) == Total(c.toClient, Answers) == Total(c.toClient, Orders) == 0
    ensures |c.toClient| == 1 ==>
      && Total(c.toClient, Wire) == Weight(c.toClient[0], Wire)
      && Total(c.toClient, Answers) == Weight(c.toClient[0], Answers)
      && Total(c.toClient, Orders) == Weight(c.toClient[0], Orders)
    ensures c.toServer == [] ==> Total(c.toServer, Wire) == Total(c.toServer, Replies) == 0
    ensures |c.toServer| == 1 ==>
      && Total(c.toServer, Wire) == Weight(c.toServer[0], Wire)
      && Total(c.toServer, Replies) == Weight(c.toServer[0], Replies)
    ensures |c.toServer| == 2 ==>
      && Total(c.toServer, Wire) == Weight(c.toServer[0], Wire) + Weight(c.toServer[1], Wire)
      && Total(c.toServer, Replies) == Weight(c.toServer[0], Replies) + Weight(c.toServer[1], Replies)
  {
    TotalSmall(c.toClient, Wire);
    TotalSmall(c.toClient, Answers);
    TotalSmall(c.toClient, Orders);
    TotalSmall(c.toServer, Wire);
    TotalSmall(c.toServer, Replies);
  }

  lemma {:induction false} CommandedLight(c: Conn, m: Message)
    requires Commanded(c, m) && (m == Monitor || m == SetLinkUp)
    ensures Light(c, 21) && Total(c.toClient, Wire) <= 12
  {
    SmallTotals(c);
  }

  lemma {:induction false} RepliedLight(c: Conn, q: seq<Message>)
    requires c.toClient == [] && c.toServer == q
    requires if Showing(c) then q == [] || q == [Monitoring]
             else Resting(c) && (q == [] || q == [LinkDown] || q == [LinkUp] || q == [Monitoring, LinkDown])
    ensures Light(c, 21) && Total(c.toClient, Wire) <= 12
  {
    SmallTotals(c);
  }

  lemma {:induction false} PhaseLight(c: Conn, p: int)
    requires 0 <= p < 5 && InPhase(c, p)
    ensures Light(c, 21) && Total(c.toClient, Wire) <= 12
  {
    match p
    case 0 => CommandedLight(c, SetLinkUp);
    case 2 => CommandedLight(c, Monitor);
    case _ => RepliedLight(c, c.toServer);
  }

  lemma {:induction false} ConfirmingLight(c: Conn)
    requires Confirming(c)
    ensures Light(c, 21) && Total(c.toClient, Wire) <= 12
  {
    match |c.log|
    case 2 => CommandedLight(c, Monitor);
    case _ => RepliedLight(c, c.toServer);
  }

  lemma {:induction false} EarlyLight(c: Conn)
    requires Early(c) || Greeted(c)
    ensures Light(c, 21) && Total(c.toClient, Wire) <= 12
  {
    SmallTotals(c);
  }

  /** Nothing heavier than 26 bytes is ever on its way in one direction, and at most one turn is held. */
  lemma {:induction false} AlwaysLight(c: Conn, pos: Position)
    requires AtPosition(c, pos)
    ensures Light(c, 26) && (pos != Closed && pos != Ended ==> Light(c, 21) && Total(c.toClient, Wire) <= 12)
  {
    match pos
    case NotYet => EarlyLight(c);
    case MustMonitor => EarlyLight(c);
    case AwaitConfirm => ConfirmingLight(c);
    case Closed =>
    case Ended =>
    case Unexpected =>
    case _ => PhaseLight(c, |c.log| % 5);
  }

  /** Whatever the position, the server may disappear. */
  lemma {:induction false} MayEnd(c: Conn, pos: Position, last: bool)
    requires ConnInv(c, pos, last)
    ensures ConnInv(c, Ended, last)
  {
    AlwaysLight(c, pos);
  }

  // ---------- A client's step ----------

  lemma {:induction false} LanguageExtends(log: seq<Message>)
    requires InLanguage(log)
    ensures InLanguage(log + [Letter(|log|)])
  {
  }

  lemma {:induction false} ClientEarly(c: Conn, extra: nat, ok: bool, down: bool)
    requires Early(c)
    ensures Early(ClientStep(c, true, extra, ok, down))
  {
  }

  lemma {:induction false} ClientResting(c: Conn, extra: nat, ok: bool, down: bool)
    requires Resting(c) && c.toClient == []
    ensures var c' := ClientStep(c, true, extra, ok, down);
            Resting(c') && c' == c.(pc := c'.pc, down := c'.down)
  {
  }

  lemma {:induction false} ClientGreeted(c: Conn, extra: nat, ok: bool, down: bool)
    requires Greeted(c)
    ensures Greeted(ClientStep(c, true, extra, ok, down))
  {
  }

  /** A client that has a command, or is busy with it, keeps it until it sends the answer. */
  lemma {:induction false} ClientCommanded(c: Conn, m: Message, extra: nat, ok: bool, down: bool)
    requires m == Monitor || m == SetLinkUp
    requires Commanded(c, m)
    ensures var c' := ClientStep(c, true, extra, ok, down);
            if c.pc == Confirm then
              c' == c.(toServer := [Monitoring], log := c.log + [Monitoring], pc := Display)
            else if c.pc == ReportUp then
              c' == c.(toServer := [LinkUp], log := c.log + [LinkUp], pc := Head)
            else
              c'.log == c.log && c'.open == c.open && Commanded(c', m)
  {
    if c.pc == Waiting {
      assert Read([m], false, extra) == Got(m, []);
    }
  }

  lemma {:induction false} ClientShowing(c: Conn, extra: nat, ok: bool, down: bool)
    requires Showing(c)
    ensures var c' := ClientStep(c, true, extra, ok, down);
            || (Showing(c') && c' == c.(pc := c'.pc))
            || c' == c.(toServer := c.toServer + [LinkDown], log := c.log + [LinkDown], pc := Head)
  {
  }

  /** What one step of a client can do to its connection in phase p. */
  ghost predicate Turned(c: Conn, c': Conn, p: int) {
    && c'.open == c.open
    && if c'.log == c.log then InPhase(c', p) && (p == 1 || p == 4 ==> c'.toServer == c.toServer)
       else if p == 0 then c'.log == c.log + [LinkUp] && InPhase(c', 1)
       else if p == 2 then c'.log == c.log + [Monitoring] && InPhase(c', 3)
       else p == 3 && c'.log == c.log + [LinkDown] && InPhase(c', 4)
  }

  lemma {:induction false} ClientPhase(c: Conn, p: int, extra: nat, ok: bool, down: bool)
    requires 0 <= p < 5 && InPhase(c, p)
    ensures Turned(c, ClientStep(c, true, extra, ok, down), p)
  {
    if p == 0 {
      ClientCommanded(c, SetLinkUp, extra, ok, down);
    } else if p == 2 {
      ClientCommanded(c, Monitor, extra, ok, down);
    } else if p == 3 {
      ClientShowing(c, extra, ok, down);
      assert [Monitoring] + [LinkDown] == [Monitoring, LinkDown] && [] + [LinkDown] == [LinkDown];
    } else {
      ClientResting(c, extra, ok, down);
    }
  }

  lemma {:induction false} ClientInConfirm(c: Conn, n: int, extra: nat, ok: bool, down: bool)
    requires 2 <= n <= 4 && InConfirm(c, n)
    ensures var c' := ClientStep(c, true, extra, ok, down);
            && c'.open == c.open
            && if c'.log == c.log then InConfirm(c', n)
               else if n == 2 then c'.log == c.log + [Monitoring] && InConfirm(c', 3)
               else n == 3 && c'.log == c.log + [LinkDown] && InConfirm(c', 4)
  {
    if n == 2 {
      ClientCommanded(c, Monitor, extra, ok, down);
    } else if n == 3 {
      ClientShowing(c, extra, ok, down);
      assert [Monitoring] + [LinkDown] == [Monitoring, LinkDown];
    } else {
      ClientResting(c, extra, ok, down);
    }
  }

  lemma {:induction false} ClientConfirming(c: Conn, extra: nat, ok: bool, down: bool)
    requires Confirming(c)
    ensures var c' := ClientStep(c, true, extra, ok, down);
            Confirming(c') && c'.open == c.open
  {
    LanguageExtends(c.log);
    assert Letter(2) == Monitoring && Letter(3) == LinkDown;
    ClientInConfirm(c, |c.log|, extra, ok, down);
  }

  lemma {:induction false} ClientCycling(c: Conn, extra: nat, ok: bool, down: bool)
    requires Cycling(c)
    ensures var c' := ClientStep(c, true, extra, ok, down);
            && Cycling(c') && c'.open == c.open
            && (|c.log| % 5 == 4 || |c.log| % 5 == 1 ==> c'.log == c.log && c'.toServer == c.toServer)
            && (c'.log == c.log || |c'.log| == 4 || |c.log| >= 5)
  {
    LanguageExtends(c.log);
    ClientPhase(c, |c.log| % 5, extra, ok, down);
  }

  /** A read trades the first command for the obligation it brings; what it swallows only lightens. */
  lemma {:induction false} TotalRead(q: seq<Message>, extra: nat, scale: Scale)
    requires q != []
    ensures var rest := if extra < |q| then q[extra + 1..] else [];
            Weight(q[0], scale) + Total(rest, scale) <= Total(q, scale)
  {
    if extra < |q| {
      assert q[extra + 1..] == q[1..][extra..];
      TotalDrop(q[1..], extra, scale);
    }
  }

  lemma {:induction false} DispatchOwes(c: Conn, m: Message)
    requires m == Monitor || m == SetLinkUp || m == ShutDown
    ensures var c' := Dispatch(c, m);
            && Owed(c'.pc) <= Weight(m, Answers) && Holds(c'.pc) <= Weight(m, Orders)
            && c'.toClient == c.toClient && c'.toServer == c.toServer
  {
  }

  lemma {:induction false} DispatchLight(c: Conn, rest: seq<Message>, m: Message, limit: nat)
    requires Light(c, limit) && c.pc == Waiting
    requires m == Monitor || m == SetLinkUp || m == ShutDown
    requires Commands(rest)
    requires Weight(m, Wire) + Total(rest, Wire) <= Total(c.toClient, Wire)
    requires Weight(m, Answers) + Total(rest, Answers) <= Total(c.toClient, Answers)
    requires Weight(m, Orders) + Total(rest, Orders) <= Total(c.toClient, Orders)
    ensures Light(Dispatch(c.(toClient := rest), m), limit)
  {
    DispatchOwes(c.(toClient := rest), m);
  }

  lemma {:induction false} SayLight(c: Conn, m: Message, next: ClientPc, limit: nat)
    requires Light(c, limit)
    requires Weight(m, Wire) + Owed(next) <= Owed(c.pc) && Weight(m, Replies) + Holds(next) <= Holds(c.pc)
    ensures Light(Say(c, true, m, next), limit)
  {
    TotalConcat(c.toServer, [m], Wire);
    TotalConcat(c.toServer, [m], Replies);
    TotalSmall([m], Wire);
    TotalSmall([m], Replies);
  }

  lemma {:induction false} ReadLight(c: Conn, open: bool, extra: nat, limit: nat)
    requires Light(c, limit) && c.pc == Waiting && c.toClient != []
    ensures Light(ClientStep(c, open, extra, true, true), limit)
  {
    var q := c.toClient;
    var rest := if extra < |q| then q[extra + 1..] else [];
    assert q[0] in q && forall m :: m in rest ==> m in q;
    TotalRead(q, extra, Wire);
    TotalRead(q, extra, Answers);
    TotalRead(q, extra, Orders);
    DispatchLight(c, rest, q[0], limit);
  }

  lemma {:induction false} LocalOwed(c: Conn, open: bool, ok: bool, down: bool)
    ensures var c' := LocalStep(c, open, ok, down);
            && c'.toClient == c.toClient && c'.toServer == c.toServer
            && Owed(c'.pc) <= Owed(c.pc) && Holds(c'.pc) <= Holds(c.pc)
  {
  }

  lemma {:induction false} LocalLight(c: Conn, open: bool, ok: bool, down: bool, limit: nat)
    requires Light(c, limit)
    ensures Light(LocalStep(c, open, ok, down), limit)
  {
    LocalOwed(c, open, ok, down);
  }

  /** What a client writes it owed. */
  lemma {:induction false} WritesOwed(pc: ClientPc)
    requires Writes(pc)
    ensures Weight(Written(pc), Wire) + Owed(AfterWrite(pc)) <= Owed(pc)
    ensures Weight(Written(pc), Replies) + Holds(AfterWrite(pc)) <= Holds(pc)
  {
  }

  /** A client's step does not add to the load. */
  lemma {:induction false} ClientLight(c: Conn, open: bool, extra: nat, ok: bool, down: bool, limit: nat)
    requires Light(c, limit)
    ensures Light(ClientStep(c, open, extra, ok, down), limit)
  {
    if Writes(c.pc) {
      WritesOwed(c.pc);
      if open {
        SayLight(c, Written(c.pc), AfterWrite(c.pc), limit);
      }
    } else if c.pc == Waiting {
      if c.toClient != [] {
        ReadLight(c, open, extra, limit);
      }
    } else {
      LocalLight(c, open, ok, down, limit);
    }
  }

  lemma {:induction false} LocalLog(c: Conn, open: bool, ok: bool, down: bool)
    ensures var c' := LocalStep(c, open, ok, down);
            c'.open == c.open && c'.log == c.log
  {
  }

  lemma {:induction false} ClientLog(c: Conn, open: bool, extra: nat, ok: bool, down: bool)
    ensures var c' := ClientStep(c, open, extra, ok, down);
            && c'.open == c.open
            && (c'.log == c.log || (open && |c'.log| == |c.log| + 1 && c'.log[..|c.log|] == c.log))
  {
    if !Writes(c.pc) && c.pc != Waiting {
      LocalLog(c, open, ok, down);
    }
  }

  lemma {:induction false} BeforeService(c: Conn, pos: Position)
    requires AtPosition(c, pos) && (pos == NotYet || pos == MustMonitor || pos == AwaitConfirm)
    ensures InLanguage(c.log) && |c.log| <= 4 && BeforeShut(c.log) == c.log
  {
    LanguageNotShut(c.log);
  }

  lemma {:induction false} BeforeKeeps(c: Conn, pos: Position, extra: nat, ok: bool, down: bool)
    requires AtPosition(c, pos) && (pos == NotYet || pos == MustMonitor || pos == AwaitConfirm)
    ensures AtPosition(ClientStep(c, true, extra, ok, down), pos)
  {
    match pos
    case NotYet => ClientEarly(c, extra, ok, down);
    case MustMonitor => ClientGreeted(c, extra, ok, down);
    case _ => ClientConfirming(c, extra, ok, down);
  }

  lemma {:induction false} ClientKeepsBefore(c: Conn, pos: Position, last: bool, extra: nat, ok: bool, down: bool)
    requires ConnInv(c, pos, last) && (pos == NotYet || pos == MustMonitor || pos == AwaitConfirm)
    ensures ConnInv(ClientStep(c, true, extra, ok, down), pos, last)
  {
    BeforeKeeps(c, pos, extra, ok, down);
    var c' := ClientStep(c, true, extra, ok, down);
    assert c'.open by {
      ClientLog(c, true, extra, ok, down);
    }
    BeforeService(c', pos);
  }

  lemma {:induction false} ClientKeepsAfter(c: Conn, pos: Position, last: bool, extra: nat, ok: bool, down: bool)
    requires ConnInv(c, pos, last)
    requires pos == Idle || pos == Served || pos == OwesUp || pos == OwesMonitor || pos == Closing
    ensures ConnInv(ClientStep(c, true, extra, ok, down), pos, last)
  {
    LanguageNotShut(c.log);
    ClientCycling(c, extra, ok, down);
    LanguageNotShut(ClientStep(c, true, extra, ok, down).log);
  }

  lemma {:induction false} ShutStays(log: seq<Message>, log': seq<Message>)
    requires ShutDown in log && (log' == log || (|log'| == |log| + 1 && log'[..|log|] == log))
    ensures ShutDown in log' && BeforeShut(log') == BeforeShut(log)
  {
    if log' != log {
      assert log' == log + [log'[|log|]];
      BeforeShutSome(log, log'[|log|]);
    }
  }

  lemma {:induction false} ClientKeepsClosed(c: Conn, last: bool, extra: nat, ok: bool, down: bool)
    requires ConnInv(c, Closed, last)
    ensures ConnInv(ClientStep(c, c.open, extra, ok, down), Closed, last)
  {
    var c' := ClientStep(c, c.open, extra, ok, down);
    ClientLight(c, c.open, extra, ok, down, 26);
    ClientLog(c, c.open, extra, ok, down);
    ShutStays(c.log, c'.log);
  }

  /** A step of a client keeps the invariant of its connection, wherever the server is. */
  lemma {:induction false} ClientKeeps(c: Conn, pos: Position, last: bool, extra: nat, ok: bool, down: bool)
    requires ConnInv(c, pos, last)
    ensures ConnInv(ClientStep(c, c.open && pos != Ended, extra, ok, down), pos, last)
  {
    if pos == Closed {
      ClientKeepsClosed(c, last, extra, ok, down);
    } else if pos == Ended {
      ClientLight(c, false, extra, ok, down, 26);
      ClientLog(c, false, extra, ok, down);
    } else if pos == NotYet || pos == MustMonitor || pos == AwaitConfirm {
      ClientKeepsBefore(c, pos, last, extra, ok, down);
    } else {
      ClientKeepsAfter(c, pos, last, extra, ok, down);
    }
  }

  // ---------- The server's step ----------

  /** The server's position may change under a connection it does not touch. */
  lemma {:induction false} Moved(s: State, s': State, i: nat)
    requires Inv(s) && i < |s.conns| == |s'.conns| && s'.conns[i] == s.conns[i]
    requires var p, p' := PositionOf(s.pc, |s.conns|, i), PositionOf(s'.pc, |s'.conns|, i);
             || p' == p || p' == Ended
             || (p == Idle && p' == Served) || ((p == Idle || p == Served) && p' == Closing)
    ensures ConnInv(s'.conns[i], PositionOf(s'.pc, |s'.conns|, i), i == |s'.conns| - 1)
  {
    if PositionOf(s'.pc, |s'.conns|, i) == Ended {
      MayEnd(s.conns[i], PositionOf(s.pc, |s.conns|, i), i == |s.conns| - 1);
    }
  }

  lemma {:induction false} AllMoved(s: State, s': State)
    requires Inv(s) && WellFormed(s') && s'.conns == s.conns && Expected(s'.pc)
    requires forall i :: 0 <= i < |s.conns| ==>
               var p, p' := PositionOf(s.pc, |s.conns|, i), PositionOf(s'.pc, |s'.conns|, i);
               || p' == p || p' == Ended
               || (p == Idle && p' == Served) || ((p == Idle || p == Served) && p' == Closing)
    ensures Inv(s')
  {
    forall i | 0 <= i < |s'.conns| ensures ConnInv(s'.conns[i], PositionOf(s'.pc, |s'.conns|, i), i == |s'.conns| - 1) {
      Moved(s, s', i);
    }
  }

  /** Only connection j changes, and no other connection sees the server at another position. */
  lemma {:induction false} OneMoved(s: State, s': State, j: nat)
    requires Inv(s) && WellFormed(s') && j < |s.conns| == |s'.conns| && Expected(s'.pc)
    requires forall i :: 0 <= i < |s.conns| && i != j ==>
               s'.conns[i] == s.conns[i] && PositionOf(s'.pc, |s'.conns|, i) == PositionOf(s.pc, |s.conns|, i)
    requires ConnInv(s'.conns[j], PositionOf(s'.pc, |s'.conns|, j), j == |s.conns| - 1)
    ensures Inv(s')
  {
    forall i | 0 <= i < |s'.conns| ensures ConnInv(s'.conns[i], PositionOf(s'.pc, |s'.conns|, i), i == |s'.conns| - 1) {
      if i != j {
        Moved(s, s', i);
      }
    }
  }

  /** The same for a connection that is replaced as a whole. */
  lemma {:induction false} Replaced(s: State, s': State, j: nat, c: Conn)
    requires Inv(s) && WellFormed(s') && Expected(s'.pc) && j < |s.conns| && s'.conns == s.conns[j := c]
    requires forall i: nat :: i < |s.conns| && i != j ==>
               PositionOf(s'.pc, |s.conns|, i) == PositionOf(s.pc, |s.conns|, i)
    requires ConnInv(c, PositionOf(s'.pc, |s.conns|, j), j == |s.conns| - 1)
    ensures Inv(s')
  {
    OneMoved(s, s', j);
  }

  lemma {:induction false} ReadyKeeps(s: State, extra: nat)
    requires Inv(s) && s.pc.HsReady?
    ensures Inv(ServerStep(s, extra))
  {
    var j := s.pc.i;
    var s' := ServerStep(s, extra);
    assert ConnInv(s.conns[j], NotYet, j == |s.conns| - 1);
    if s' != s {
      OneMoved(s, s', j);
    }
  }

  lemma {:induction false} GreetConn(c: Conn, last: bool)
    requires ConnInv(c, MustMonitor, last) && c.pc != Gone
    ensures ConnInv(c.(toClient := c.toClient + [Monitor], log := c.log + [Monitor]), AwaitConfirm, last)
  {
    assert c.log == [Ready] && c.toClient + [Monitor] == [Monitor] && c.log + [Monitor] == [Ready, Monitor];
    var log := [Ready, Monitor];
    assert log[0] == Letter(0) && log[1] == Letter(1);
    LanguageNotShut(log);
  }

  lemma {:induction false} GreetKeeps(s: State, extra: nat)
    requires Inv(s) && s.pc.HsMonitor?
    ensures Inv(ServerStep(s, extra))
  {
    var j, s' := s.pc.i, ServerStep(s, extra);
    var c := s.conns[j];
    assert ConnInv(c, MustMonitor, j == |s.conns| - 1);
    if c.pc == Gone {
      AllMoved(s, s');
    } else {
      GreetConn(c, j == |s.conns| - 1);
      Replaced(s, s', j, c.(toClient := c.toClient + [Monitor], log := c.log + [Monitor]));
    }
  }

  lemma {:induction false} ConfirmRead(c: Conn, extra: nat)
    requires Confirming(c) && c.toServer != []
    ensures var r := Read(c.toServer, c.pc == Gone, extra);
            r.Got? && r.m == Monitoring && Cycling(c.(toServer := r.rest))
  {
  }

  lemma {:induction false} ConfirmKeeps(s: State, extra: nat)
    requires Inv(s) && s.pc.HsConfirm?
    ensures Inv(ServerStep(s, extra)) && !ServerStep(s, extra).pc.HsRefuse?
  {
    var j := s.pc.i;
    var s' := ServerStep(s, extra);
    assert ConnInv(s.conns[j], AwaitConfirm, j == |s.conns| - 1);
    if s.conns[j].toServer != [] {
      ConfirmRead(s.conns[j], extra);
      OneMoved(s, s', j);
    }
  }

  /** What the service loop can read, and what it leaves. */
  lemma {:induction false} ServiceRead(c: Conn, extra: nat)
    requires Cycling(c)
    ensures var r := Read(c.toServer, c.pc == Gone, extra);
            r.Got? ==>
              var c' := c.(toServer := r.rest);
              && Cycling(c')
              && (r.m == LinkDown ==> |c.log| % 5 == 4 && c'.toServer == [])
              && (r.m == LinkUp ==> |c.log| % 5 == 1 && c'.toServer == [])
  {
    PhaseRead(c, |c.log| % 5, extra);
  }

  lemma {:induction false} PhaseRead(c: Conn, p: int, extra: nat)
    requires 0 <= p < 5 && InPhase(c, p)
    ensures var r := Read(c.toServer, c.pc == Gone, extra);
            r.Got? ==>
              var c' := c.(toServer := r.rest);
              && InPhase(c', p)
              && (r.m == LinkDown ==> p == 4 && c'.toServer == [])
              && (r.m == LinkUp ==> p == 1 && c'.toServer == [])
  {
  }

  lemma {:induction false} ListenKeeps(s: State, extra: nat)
    requires Inv(s) && s.pc == Listen
    ensures Inv(ServerStep(s, extra))
  {
    var j := |s.conns| - 1;
    var s' := ServerStep(s, extra);
    assert ConnInv(s.conns[j], Served, true);
    ServiceRead(s.conns[j], extra);
    if s' != s {
      OneMoved(s, s', j);
    }
  }

  lemma {:induction false} AnswerConn(c: Conn, m: Message)
    requires Cycling(c) && c.toServer == []
    requires (m == SetLinkUp && |c.log| % 5 == 4) || (m == Monitor && |c.log| % 5 == 1)
    ensures c.pc != Gone
    ensures var c' := c.(toClient := c.toClient + [m], log := c.log + [m]);
            Cycling(c') && BeforeShut(c'.log) == c'.log
  {
    NextPhase(|c.log|);
    AnswerWord(c.log, m);
    if m == SetLinkUp {
      AnswerCycling(c, 4, m);
    } else {
      AnswerCycling(c, 1, m);
    }
  }

  lemma {:induction false} AnswerCycling(c: Conn, p: int, m: Message)
    requires |c.log| >= 3 && InPhase(c, p) && |c.log| % 5 == p && c.toServer == []
    requires (m == SetLinkUp && p == 4) || (m == Monitor && p == 1)
    requires InLanguage(c.log + [m])
    ensures c.pc != Gone && Cycling(c.(toClient := c.toClient + [m], log := c.log + [m]))
  {
    AnswerPhase(c, p, m);
    IsCycling(c.(toClient := c.toClient + [m], log := c.log + [m]), if p == 4 then 0 else 2);
  }

  lemma {:induction false} IsCycling(c: Conn, p: int)
    requires InLanguage(c.log) && |c.log| >= 3 && |c.log| % 5 == p && InPhase(c, p)
    ensures Cycling(c)
  {
  }

  lemma {:induction false} AnswerWord(log: seq<Message>, m: Message)
    requires InLanguage(log) && m == Letter(|log|)
    ensures InLanguage(log + [m]) && BeforeShut(log + [m]) == log + [m]
  {
    LanguageExtends(log);
    LanguageNotShut(log + [m]);
  }

  lemma {:induction false} NextPhase(n: nat)
    requires n > 0
    ensures (n + 1) % 5 == if n % 5 == 4 then 0 else n % 5 + 1
    ensures n % 5 == 4 ==> Letter(n) == SetLinkUp
    ensures n % 5 == 1 ==> Letter(n) == Monitor
  {
  }

  lemma {:induction false} AnswerPhase(c: Conn, p: int, m: Message)
    requires InPhase(c, p) && c.toServer == []
    requires (m == SetLinkUp && p == 4) || (m == Monitor && p == 1)
    ensures c.pc != Gone
    ensures InPhase(c.(toClient := c.toClient + [m], log := c.log + [m]), if p == 4 then 0 else 2)
  {
  }

  lemma {:induction false} AnswerKeeps(s: State, extra: nat)
    requires Inv(s) && s.pc.Answer?
    ensures Inv(ServerStep(s, extra))
  {
    var j := |s.conns| - 1;
    assert ConnInv(s.conns[j], PositionOf(s.pc, |s.conns|, j), true);
    AnswerConn(s.conns[j], s.pc.m);
    OneMoved(s, ServerStep(s, extra), j);
  }

  lemma {:induction false} ShutLight(c: Conn)
    requires Light(c, 21) && Total(c.toClient, Wire) <= 12
    ensures Light(c.(toClient := c.toClient + [ShutDown], log := c.log + [ShutDown]), 26)
  {
    forall scale ensures Total(c.toClient + [ShutDown], scale) == Total(c.toClient, scale) + Weight(ShutDown, scale) {
      TotalConcat(c.toClient, [ShutDown], scale);
      TotalSmall([ShutDown], scale);
    }
    assert Total(c.toClient + [ShutDown], Wire) == Total(c.toClient, Wire) + 10;
    assert Total(c.toClient + [ShutDown], Answers) == Total(c.toClient, Answers) + 5;
    assert Total(c.toClient + [ShutDown], Orders) == Total(c.toClient, Orders);
  }

  lemma {:induction false} ShutConn(c: Conn, last: bool)
    requires ConnInv(c, Closing, last)
    ensures ConnInv(c.(toClient := c.toClient + [ShutDown], log := c.log + [ShutDown]), Closed, last)
  {
    PhaseLight(c, |c.log| % 5);
    ShutLight(c);
    LanguageNotShut(c.log);
    BeforeShutNone(c.log);
  }

  lemma {:induction false} ShutKeeps(s: State, extra: nat)
    requires Inv(s) && s.pc.QuitSend?
    ensures Inv(ServerStep(s, extra))
  {
    var j := s.pc.i;
    var s' := ServerStep(s, extra);
    if s'.pc == Exited || s'.pc == Killed {
      AllMoved(s, s');
    } else {
      var c := s.conns[j];
      assert ConnInv(c, Closing, j == |s.conns| - 1);
      ShutConn(c, j == |s.conns| - 1);
      OneMoved(s, s', j);
    }
  }

  lemma {:induction false} DrainLight(c: Conn, extra: nat, open: bool)
    requires Light(c, 26)
    ensures var r := Read(c.toServer, c.pc == Gone, extra);
            r.Got? ==> Light(c.(toServer := r.rest, open := open), 26)
  {
    if c.toServer != [] {
      TotalRead(c.toServer, extra, Wire);
      TotalRead(c.toServer, extra, Replies);
    }
  }

  lemma {:induction false} DrainConn(c: Conn, last: bool, extra: nat, open: bool)
    requires ConnInv(c, Closed, last)
    ensures var r := Read(c.toServer, c.pc == Gone, extra);
            r.Got? ==> ConnInv(c.(toServer := r.rest, open := open), Closed, last)
  {
    DrainLight(c, extra, open);
  }

  lemma {:induction false} DrainShape(s: State, extra: nat)
    requires WellFormed(s) && s.pc.QuitWait?
    ensures var j, s' := s.pc.i, ServerStep(s, extra);
            var c := s.conns[j];
            var r := Read(c.toServer, c.pc == Gone, extra);
            && (r.Blocked? ==> s' == s)
            && (r.Got? ==> s'.pc == QuitSend(j + 1))
            && (r.Got? ==> s'.conns == s.conns[j := c.(toServer := r.rest, open := c.open && r.m != Done)])
  {
  }

  lemma {:induction false} DrainKeeps(s: State, extra: nat)
    requires Inv(s) && s.pc.QuitWait?
    ensures Inv(ServerStep(s, extra))
  {
    var j, s' := s.pc.i, ServerStep(s, extra);
    var c := s.conns[j];
    assert ConnInv(c, Closed, j == |s.conns| - 1);
    var r := Read(c.toServer, c.pc == Gone, extra);
    if r.Got? {
      var open := c.open && r.m != Done;
      DrainConn(c, j == |s.conns| - 1, extra, open);
      DrainShape(s, extra);
      Replaced(s, s', j, c.(toServer := r.rest, open := open));
    }
  }

  lemma {:induction false} ServerKeeps(s: State, extra: nat)
    requires Inv(s)
    ensures Inv(ServerStep(s, extra))
  {
    match s.pc
    case HsReady(_) => ReadyKeeps(s, extra);
    case HsMonitor(_) => GreetKeeps(s, extra);
    case HsConfirm(_) => ConfirmKeeps(s, extra);
    case HsRefuse(_) =>
    case Listen => ListenKeeps(s, extra);
    case Answer(_) => AnswerKeeps(s, extra);
    case QuitSend(_) => ShutKeeps(s, extra);
    case QuitWait(_) => DrainKeeps(s, extra);
    case _ => AllMoved(s, ServerStep(s, extra));
  }

  // ---------- Every schedule ----------

  lemma {:induction false} InterruptKeeps(s: State, inRead: bool)
    requires Inv(s)
    ensures Inv(InterruptStep(s, inRead))
  {
    AllMoved(s, InterruptStep(s, inRead));
  }

  lemma {:induction false} OpenIs(s: State, j: nat)
    requires WellFormed(s) && j < |s.conns|
    ensures Open(s, j) <==> s.conns[j].open && PositionOf(s.pc, |s.conns|, j) != Ended
  {
  }

  lemma {:induction false} ClientTurnKeeps(s: State, act: Action)
    requires Inv(s) && act.Client?
    ensures Inv(Step(s, act))
  {
    var j := act.i;
    if j < |s.conns| {
      var c, pos := s.conns[j], PositionOf(s.pc, |s.conns|, j);
      assert ConnInv(c, pos, j == |s.conns| - 1);
      OpenIs(s, j);
      ClientKeeps(c, pos, j == |s.conns| - 1, act.extra, act.ok, act.down);
      Replaced(s, Step(s, act), j, ClientStep(c, Open(s, j), act.extra, act.ok, act.down));
    }
  }

  lemma {:induction false} AlwaysInv(s0: State, schedule: seq<Action>)
    requires Initial(s0)
    ensures Inv(After(s0, schedule))
  {
    if schedule == [] {
      TotalSmall([], Wire);
    } else {
      var front, act := schedule[..|schedule| - 1], schedule[|schedule| - 1];
      AlwaysInv(s0, front);
      var s := After(s0, front);
      match act
      case Server(extra) => ServerKeeps(s, extra);
      case Client(_, _, _, _) => ClientTurnKeeps(s, act);
      case Interrupt(inRead) => InterruptKeeps(s, inRead);
    }
  }
}
