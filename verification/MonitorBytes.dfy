/** The two programs of Assignments/A1 as they see each other: texts on a byte stream, compared with strcmp. What
    each does with the bytes it has read is what the machine does with the message. */
module MonitorBytes {
  import opened MonitorProtocol
  import opened MonitorConversation
  import opened MonitorGuarantees
  import Framing = MonitorFraming
  import Completion = MonitorCompletion

  /** The client's comparisons (Assignments/A1/intfMonitor.cpp:237, 266, 278). */
  function Obeyed(c: Conn, text: string): Conn {
    if text == "Monitor" then c.(pc := Confirm)
    else if text == "Set Link Up" then c.(pc := RaiseLink)
    else if text == "Shut Down" then c.(pc := Finish)
    else c.(pc := Head, confused := true)
  }

  /** What the service loop sends back (Assignments/A1/netMonitor.cpp:184-187). */
  function Replied(text: string): seq<string> {
    if text == "Link down" then ["Set Link Up"] else if text == "Link Up" then ["Monitor"] else []
  }

  /** What a client sends at its five sends. */
  function Uttered(pc: ClientPc): string
    requires Writes(pc)
  {
    match pc
    case Announce => "Ready"
    case Confirm => "Monitoring"
    case ReportDown => "Link down"
    case ReportUp => "Link Up"
    case Finish => "Done"
  }

  /** No two messages have the same text, and only Nothing has none. */
  lemma {:induction false} TextsDiffer(m: Message, n: Message)
    ensures Text(m) == Text(n) <==> m == n
    ensures Text(m) == "" <==> m == Nothing
  {
    match m
    case Ready =>
    case Monitor => assert Text(m)[..6] == "Monito";
    case Monitoring =>
    case LinkDown =>
    case SetLinkUp =>
    case LinkUp =>
    case ShutDown =>
    case Done =>
    case Nothing =>
  }

  lemma {:induction false} TextObeyed(c: Conn, m: Message)
    ensures Dispatch(c, m) == Obeyed(c, Text(m))
  {
    TextsDiffer(m, Monitor);
    TextsDiffer(m, SetLinkUp);
    TextsDiffer(m, ShutDown);
  }

  /** What receiveMessage makes of the queue q as it lies on the stream. */
  function Received(q: seq<Message>, stale: char): Framing.Received {
    Framing.Value(Framing.Filled(Framing.Encode(Texts(q)), stale))
  }

  /** A read at the end of the stream leaves the cleared buffer, which holds the text of the message the machine reads
      there; so it is no command, no report and no answer. */
  lemma {:induction false} EofReadsBytes(extra: nat, stale: char)
    ensures var r := Read([], true, extra);
            && r.Got? && r.rest == []
            && Received([], stale) == Framing.Text(Text(r.m)) && Text(r.m) == ""
  {
    Framing.OverrunExactly([], stale);
    assert Framing.Encode(Texts([])) == [];
  }

  /** In every run, when a client that waits for a command reads what is there, it does what its comparisons say of
      the text in its buffer, whatever the buffer held before. */
  lemma {:induction false} ClientReadsBytes(s0: State, schedule: seq<Action>, i: nat, ok: bool, down: bool, stale: char)
    requires Initial(s0) && i < |s0.conns|
    requires After(s0, schedule).conns[i].pc == Waiting && After(s0, schedule).conns[i].toClient != []
    ensures var s := After(s0, schedule);
            var c := s.conns[i];
            var got := Received(c.toClient, stale);
            && got.Text?
            && ClientStep(c, Open(s, i), |c.toClient| - 1, ok, down) == Obeyed(c.(toClient := []), got.value)
  {
    hide After, Received, Dispatch, Obeyed, Text;
    ReceivedIsWhole(s0, schedule, i, stale);
    var s := After(s0, schedule);
    var c := s.conns[i];
    TextObeyed(c.(toClient := []), c.toClient[0]);
    ReadsAll(c, Open(s, i), ok, down);
  }

  lemma {:induction false} ReadsAll(c: Conn, open: bool, ok: bool, down: bool)
    requires c.pc == Waiting && c.toClient != []
    ensures ClientStep(c, open, |c.toClient| - 1, ok, down) == Dispatch(c.(toClient := []), c.toClient[0])
  {
  }

  lemma {:induction false} ReceivedIsWhole(s0: State, schedule: seq<Action>, i: nat, stale: char)
    requires Initial(s0) && i < |s0.conns|
    ensures var c := After(s0, schedule).conns[i];
            && (c.toClient != [] ==> Received(c.toClient, stale) == Framing.Text(Text(c.toClient[0])))
            && (c.toServer != [] ==> Received(c.toServer, stale) == Framing.Text(Text(c.toServer[0])))
  {
    ReadsAreWhole(s0, schedule, i, stale);
  }

  /** Where the server goes on once it has received a text, at each of its receives (Assignments/A1/netMonitor.cpp:
      164, 174, 182-190, 202); for Done it also closes its end. */
  ghost predicate Heard(pc: ServerPc, text: string, pc': ServerPc, closes: bool) {
    && (closes <==> pc.QuitWait? && text == "Done")
    && match pc
       case HsReady(i) => pc' == HsMonitor(i)
       case HsConfirm(i) => pc' == if text == "Monitoring" then Accept(i + 1) else HsRefuse(i)
       case Listen =>
         if Replied(text) == [] then pc' == LoopTest
         else pc'.Answer? && [Text(pc'.m)] == Replied(text)
       case QuitWait(i) => pc' == QuitSend(i + 1)
       case _ => false
  }

  /** The connection the server reads from. */
  predicate ReadsFrom(s: State, i: nat) {
    && i < |s.conns|
    && match s.pc
       case HsReady(j) => i == j
       case HsConfirm(j) => i == j
       case Listen => i == |s.conns| - 1
       case QuitWait(j) => i == j
       case _ => false
  }

  lemma {:induction false} TextHeard(s: State, i: nat)
    requires WellFormed(s) && ReadsFrom(s, i) && s.conns[i].toServer != [] && s.conns[i].open
    ensures var c, s' := s.conns[i], ServerStep(s, |s.conns[i].toServer| - 1);
            && s'.conns[i].toServer == []
            && Heard(s.pc, Text(c.toServer[0]), s'.pc, !s'.conns[i].open)
  {
    var m := s.conns[i].toServer[0];
    TextsDiffer(m, Monitoring);
    TextsDiffer(m, LinkDown);
    TextsDiffer(m, LinkUp);
    TextsDiffer(m, Done);
  }

  /** The same for the server, at every receive of every run. */
  lemma {:induction false} ServerReadsBytes(s0: State, schedule: seq<Action>, i: nat, stale: char)
    requires Initial(s0) && ReadsFrom(After(s0, schedule), i)
    requires After(s0, schedule).conns[i].toServer != []
    ensures var s := After(s0, schedule);
            var c := s.conns[i];
            var s', got := ServerStep(s, |c.toServer| - 1), Received(c.toServer, stale);
            && got.Text? && c.open && s'.conns[i].toServer == []
            && Heard(s.pc, got.value, s'.pc, !s'.conns[i].open)
  {
    var s := After(s0, schedule);
    ReceivedIsWhole(s0, schedule, i, stale);
    Completion.AlwaysComing(s0, schedule);
    Reached(s0, schedule, i);
    TextHeard(s, i);
  }

  lemma {:induction false} TextsAppend(q: seq<Message>, m: Message)
    ensures Framing.Encode(Texts(q + [m])) == Framing.Encode(Texts(q)) + Framing.Frame(Text(m))
  {
    if q == [] {
      assert Texts([m]) == [Text(m)];
      assert Framing.Encode([Text(m)]) == Framing.Frame(Text(m)) + Framing.Encode([]);
    } else {
      assert (q + [m])[1..] == q[1..] + [m];
      TextsAppend(q[1..], m);
    }
  }

  /** A client's send puts its text and a NUL on the stream, and nothing else does. */
  lemma {:induction false} ClientWritesBytes(c: Conn, extra: nat, ok: bool, down: bool)
    ensures var c' := ClientStep(c, true, extra, ok, down);
            Framing.Encode(Texts(c'.toServer)) ==
            Framing.Encode(Texts(c.toServer)) + if Writes(c.pc) then Framing.Frame(Uttered(c.pc)) else []
  {
    hide Text;
    if Writes(c.pc) {
      TextsAppend(c.toServer, Written(c.pc));
      WrittenText(c.pc);
    } else {
      hide Texts, Framing.Encode;
      SendsNothing(c, extra, ok, down);
      assert forall b: string :: b + [] == b;
    }
  }

  lemma {:induction false} WrittenText(pc: ClientPc)
    requires Writes(pc)
    ensures Text(Written(pc)) == Uttered(pc)
  {
  }

  lemma {:induction false} SendsNothing(c: Conn, extra: nat, ok: bool, down: bool)
    requires !Writes(c.pc)
    ensures ClientStep(c, true, extra, ok, down).toServer == c.toServer
  {
  }
}
