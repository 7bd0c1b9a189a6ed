/** intfMonitor's main as an object updated in place: its control point, its snapshot and its end of the
    connection. Each method is proved against the step of the protocol it performs. */
module MonitorClient {
  import opened MonitorProtocol
  import opened MonitorConversation

  /** What the world decides at a turn: how many messages a read takes besides the first, whether the local
      call succeeds, and what operstate says. */
  datatype Turn = Turn(extra: nat, ok: bool, down: bool)

  function AfterTurns(c: Conn, open: bool, turns: seq<Turn>): Conn {
    if turns == [] then c
    else
      var t := turns[|turns| - 1];
      ClientStep(AfterTurns(c, open, turns[..|turns| - 1]), open, t.extra, t.ok, t.down)
  }

  lemma {:induction false} OneMoreTurn(c: Conn, open: bool, turns: seq<Turn>, n: nat)
    requires n < |turns|
    ensures AfterTurns(c, open, turns[..n + 1]) ==
            ClientStep(AfterTurns(c, open, turns[..n]), open, turns[n].extra, turns[n].ok, turns[n].down)
  {
    assert turns[..n + 1][..n] == turns[..n];
  }

  /** While the server stays where it is, a client keeps the invariant for any number of turns. */
  lemma {:induction false} TurnsKeep(c: Conn, pos: Position, last: bool, turns: seq<Turn>)
    requires ConnInv(c, pos, last)
    ensures var c' := AfterTurns(c, c.open && pos != Ended, turns);
            ConnInv(c', pos, last) && c'.open == c.open
  {
    if turns != [] {
      var front, t := turns[..|turns| - 1], turns[|turns| - 1];
      TurnsKeep(c, pos, last, front);
      var open := c.open && pos != Ended;
      ClientKeeps(AfterTurns(c, open, front), pos, last, t.extra, t.ok, t.down);
      ClientLog(AfterTurns(c, open, front), open, t.extra, t.ok, t.down);
    }
  }

  class InterfaceMonitor {
    var pc: ClientPc
    var isDown: bool
    var log: seq<Message>
    var confused: bool
    // The connection.
    var toClient: seq<Message>
    var toServer: seq<Message>
    var open: bool

    ghost function View(): Conn
      reads this
    {
      Conn(pc, isDown, toClient, toServer, open, log, confused)
    }

    constructor ()
      ensures View() == Fresh
    {
      pc, isDown, log, confused := Unconnected, false, [], false;
      toClient, toServer, open := [], [], true;
    }

    // ---------- The server's side of the connection ----------

    method Deliver(m: Message)
      modifies this`toClient, this`log
      ensures View() == old(View()).(toClient := old(toClient) + [m], log := old(log) + [m])
    {
      toClient := toClient + [m];
      log := log + [m];
    }

    method Collect(extra: nat) returns (r: ReadResult)
      modifies this`toServer
      ensures r == Read(old(toServer), pc == Gone, extra)
      ensures View() == if r.Got? then old(View()).(toServer := r.rest) else old(View())
    {
      if toServer != [] {
        var taken := if extra < |toServer| then extra + 1 else |toServer|;
        r := Got(toServer[0], toServer[taken..]);
        toServer := r.rest;
      } else {
        r := if pc == Gone then Got(Nothing, []) else Blocked;
      }
    }

    method Close()
      modifies this`open
      ensures View() == old(View()).(open := false)
    {
      open := false;
    }

    // ---------- The client ----------

    /** Lines 74-76. A write to a connection the server has left ends the process. */
    method SendMessage(serverThere: bool, m: Message, next: ClientPc)
      modifies this`pc, this`toServer, this`log
      ensures View() == Say(old(View()), serverThere, m, next)
    {
      if serverThere {
        toServer := toServer + [m];
        log := log + [m];
        pc := next;
      } else {
        pc := Gone;
      }
    }

    /** Lines 67-72. */
    method ReceiveMessage(serverThere: bool, extra: nat) returns (r: ReadResult)
      modifies this`toClient
      ensures r == Read(old(toClient), !serverThere, extra)
      ensures toClient == if r.Got? then r.rest else old(toClient)
    {
      if toClient == [] {
        r := if serverThere then Blocked else Got(Nothing, []);
      } else {
        var taken := if extra < |toClient| then extra + 1 else |toClient|;
        r := Got(toClient[0], toClient[taken..]);
        toClient := toClient[taken..];
      }
    }

    /** Lines 237-287: where the command leads. */
    method Obey(m: Message)
      modifies this`pc, this`confused
      ensures View() == Dispatch(old(View()), m)
    {
      if m == Monitor {
        pc := Confirm;
      } else if m == SetLinkUp {
        pc := RaiseLink;
      } else if m == ShutDown {
        pc := Finish;
      } else {
        confused := true;
        pc := Head;
      }
    }

    /** Lines 235-287: the blocking receive and what follows from it. */
    method Listen(serverThere: bool, extra: nat)
      requires pc == Waiting
      modifies this
      ensures View() == ClientStep(old(View()), serverThere, extra, true, true)
    {
      var r := ReceiveMessage(serverThere, extra);
      if r.Got? {
        Obey(r.m);
      }
    }

    /** The steps that leave the connection alone. */
    method Work(serverThere: bool, turn: Turn)
      requires !Writes(pc) && pc != Waiting
      modifies this`pc, this`isDown
      ensures View() == LocalStep(old(View()), serverThere, turn.ok, turn.down)
    {
      match pc
      case Unconnected => pc := if serverThere then Checking else Gone;
      case Checking => pc := if turn.ok then Announce else Gone;
      case Head =>
        isDown := turn.down;
        pc := Waiting;
      case Display =>
        if isDown {
          pc := ReportDown;
        }
      case RaiseLink => pc := if turn.ok then ReportUp else Gone;
      case Gone =>
    }

    /** One step of the command loop. */
    method Step(serverThere: bool, turn: Turn)
      modifies this
      ensures View() == ClientStep(old(View()), serverThere, turn.extra, turn.ok, turn.down)
    {
      match pc
      case Announce => SendMessage(serverThere, Ready, Head);
      case Waiting => Listen(serverThere, turn.extra);
      case Confirm => SendMessage(serverThere, Monitoring, Display);
      case ReportDown => SendMessage(serverThere, LinkDown, Head);
      case ReportUp => SendMessage(serverThere, LinkUp, Head);
      case Finish => SendMessage(serverThere, Done, Gone);
      case _ => Work(serverThere, turn);
    }

    /** The command loop for any number of turns while the server stays where it is: it never leaves the
        language of the conversation, and never has more on its way than the invariant allows. */
    method Run(serverThere: bool, turns: seq<Turn>, ghost pos: Position, ghost last: bool)
      requires ConnInv(View(), pos, last) && serverThere == (open && pos != Ended)
      modifies this
      ensures View() == AfterTurns(old(View()), serverThere, turns)
      ensures ConnInv(View(), pos, last)
    {
      ghost var before := View();
      var n := 0;
      while n < |turns|
        invariant n <= |turns|
        invariant View() == AfterTurns(before, serverThere, turns[..n])
      {
        OneMoreTurn(before, serverThere, turns, n);
        Step(serverThere, turns[n]);
        n := n + 1;
      }
      assert turns[..n] == turns;
      TurnsKeep(before, pos, last, turns);
    }
  }
}
