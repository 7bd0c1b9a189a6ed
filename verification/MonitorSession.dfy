/** netMonitor's main as an object updated in place: the connections with the clients behind them, retRecv,
    the control point and isWorking. Each method is proved against the step of the protocol it performs. */
module MonitorSession {
  import opened MonitorProtocol
  import opened MonitorConversation
  import opened MonitorClient

  /** Nobody is refused, and every conversation is in the language. */
  ghost predicate InOrder(s: State) {
    !s.pc.HsRefuse? && forall c :: c in s.conns ==> InLanguage(BeforeShut(c.log))
  }

  lemma {:induction false} AlwaysInOrder(s0: State, schedule: seq<Action>)
    requires Initial(s0)
    ensures InOrder(After(s0, schedule))
  {
    AlwaysInv(s0, schedule);
  }

  class Session {
    const clients: seq<InterfaceMonitor>   // what is behind connectedFDs
    var pc: ServerPc
    var retRecv: int
    var isWorking: bool

    ghost function Conns(): seq<Conn>
      reads clients
    {
      seq(|clients|, i requires 0 <= i < |clients| reads clients => clients[i].View())
    }

    ghost function View(): State
      reads this, clients
    {
      State(Conns(), pc, retRecv, isWorking)
    }

    /** The clients are different processes. */
    ghost predicate Separate() {
      forall i, j :: 0 <= i < j < |clients| ==> clients[i] != clients[j]
    }

    ghost predicate Valid()
      reads this, clients
    {
      Separate() && WellFormed(View())
    }

    /** The clients have been forked, and none has connected. */
    constructor (clients: seq<InterfaceMonitor>)
      requires |clients| > 0
      requires forall i, j :: 0 <= i < j < |clients| ==> clients[i] != clients[j]
      requires forall i :: 0 <= i < |clients| ==> clients[i].View() == Fresh
      ensures this.clients == clients
      ensures Valid() && Initial(View())
    {
      this.clients := clients;
      pc, retRecv, isWorking := Accept(0), -1, true;
    }

    method SendMessage(i: nat, m: Message, next: ServerPc)
      requires Separate() && i < |clients|
      modifies this`pc, clients[i]
      ensures View() == SendTo(old(View()), i, m, next)
    {
      if clients[i].pc == Gone {
        pc := Killed;
        assert Conns() == old(Conns());
      } else {
        clients[i].Deliver(m);
        pc := next;
        assert Conns() == old(Conns())[i := clients[i].View()];
      }
    }

    /** receiveMessage; the result is Blocked, and nothing changes, when there is nothing to read yet. */
    method ReceiveMessage(i: nat, extra: nat) returns (r: ReadResult)
      requires Separate() && i < |clients|
      modifies clients[i]
      ensures r == ReadFrom(old(View()), i, extra)
      ensures View() == if r.Blocked? then old(View()) else Took(old(View()), i, r.rest, pc)
    {
      r := clients[i].Collect(extra);
      assert Conns() == old(Conns())[i := clients[i].View()];
      if r.Blocked? {
        assert old(Conns())[i := clients[i].View()] == old(Conns());
      }
    }

    method ServerTurn(extra: nat)
      requires Valid()
      modifies this, clients
      ensures Valid() && View() == ServerStep(old(View()), extra)
    {
      match pc
      case Listen => ServiceTurn(extra);
      case Answer(m) => SendMessage(retRecv, m, LoopTest);
      case LoopTest => pc := if isWorking then Listen else QuitSend(0);
      case QuitSend(i) => AskTurn(i, extra);
      case QuitWait(i) => QuitTurn(i, extra);
      case Exited =>
      case Killed =>
      case _ => HandshakeTurn(extra);
    }

    /** Lines 156-178: accept, Ready, Monitor, Monitoring, for one connection after the other. */
    method HandshakeTurn(extra: nat)
      requires Valid() && (pc.Accept? || pc.HsReady? || pc.HsMonitor? || pc.HsConfirm? || pc.HsRefuse?)
      modifies this, clients
      ensures Valid() && View() == ServerStep(old(View()), extra)
    {
      var i := pc.i;
      if pc.Accept? {
        if i == |clients| {
          pc := Listen;
        } else if clients[i].pc != Unconnected {
          retRecv, pc := i, HsReady(i);
        }
      } else if pc.HsMonitor? {
        SendMessage(retRecv, Monitor, HsConfirm(i));
      } else if pc.HsRefuse? {
        SendMessage(retRecv, ShutDown, Accept(i + 1));
      } else {
        HandshakeRead(extra);
      }
    }

    /** Lines 164 and 173. */
    method HandshakeRead(extra: nat)
      requires Valid() && (pc.HsReady? || pc.HsConfirm?)
      modifies this`pc, clients
      ensures Valid() && View() == HandshakeMove(old(View()), extra)
    {
      var i := pc.i;
      var r := ReceiveMessage(retRecv, extra);
      if r.Got? {
        pc := if pc.HsReady? then HsMonitor(i) else if r.m != Monitoring then HsRefuse(i) else Accept(i + 1);
      }
    }

    /** Lines 182-190: one message of the service loop. */
    method ServiceTurn(extra: nat)
      requires Valid() && pc == Listen
      modifies this, clients
      ensures Valid() && View() == ServerStep(old(View()), extra)
    {
      var r := ReceiveMessage(retRecv, extra);
      if r.Got? {
        if r.m == LinkDown {
          pc := Answer(SetLinkUp);
        } else if r.m == LinkUp {
          pc := Answer(Monitor);
        } else {
          pc := LoopTest;
        }
      }
    }

    /** Lines 194-198: ask the next client to quit, or be done. */
    method AskTurn(i: nat, extra: nat)
      requires Valid() && pc == QuitSend(i)
      modifies this`pc, clients
      ensures Valid() && View() == ServerStep(old(View()), extra)
    {
      if i == |clients| {
        pc := Exited;
      } else {
        SendMessage(i, ShutDown, QuitWait(i));
      }
    }

    /** Lines 200-204: one connection of the shutdown loop. */
    method QuitTurn(i: nat, extra: nat)
      requires Valid() && pc == QuitWait(i)
      modifies this`pc, clients[i]
      ensures Valid() && View() == ServerStep(old(View()), extra)
    {
      var r := ReceiveMessage(i, extra);
      if r.Got? {
        ghost var taken := Conns();
        if r.m == Done {
          clients[i].Close();
          assert Conns() == taken[i := clients[i].View()];
        }
        pc := QuitSend(i + 1);
      }
    }

    method SignalHandler(inRead: bool)
      requires Valid()
      modifies this
      ensures Valid() && View() == InterruptStep(old(View()), inRead)
    {
      if pc.Listen? || pc.Answer? || pc.LoopTest? || pc.QuitSend? || pc.QuitWait? {
        isWorking := false;
        if inRead {
          if pc == Listen {
            pc := LoopTest;
          } else if pc.QuitWait? {
            pc := QuitSend(pc.i + 1);
          }
        }
      }
    }

    /** Client i takes a step of its own, as MonitorClient has it. */
    method ClientTurn(i: nat, extra: nat, ok: bool, down: bool)
      requires Valid()
      modifies clients
      ensures Valid() && View() == Step(old(View()), Client(i, extra, ok, down))
    {
      if i < |clients| {
        var serverThere := clients[i].open && pc != Exited && pc != Killed;
        clients[i].Step(serverThere, MonitorClient.Turn(extra, ok, down));
        assert Conns() == old(Conns())[i := clients[i].View()];
      }
    }

    method Turn(act: Action)
      requires Valid()
      modifies this, clients
      ensures Valid() && View() == Step(old(View()), act)
    {
      match act
      case Server(extra) => ServerTurn(extra);
      case Client(i, extra, ok, down) => ClientTurn(i, extra, ok, down);
      case Interrupt(inRead) => SignalHandler(inRead);
    }

    /** Any interleaving of the server, the clients and SIGINT. */
    method Run(schedule: seq<Action>)
      requires Valid()
      modifies this, clients
      ensures Valid() && View() == After(old(View()), schedule)
      ensures Initial(old(View())) ==> InOrder(View())
    {
      ghost var before := View();
      var n := 0;
      while n < |schedule|
        invariant n <= |schedule|
        invariant Valid() && View() == After(before, schedule[..n])
      {
        assert schedule[..n + 1][..n] == schedule[..n];
        Turn(schedule[n]);
        n := n + 1;
      }
      assert schedule[..n] == schedule;
      if Initial(before) {
        AlwaysInOrder(before, schedule);
      }
    }
  }
}
