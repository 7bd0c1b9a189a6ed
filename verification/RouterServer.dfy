/** The router's shared variables and threads as an object updated in place, one source line
    (or block of thread-local lines) per call. Each method is proved against the step it performs. */
module RouterServer {
  import opened Router
  import opened RouterSafety

  const SIGINT: int := 2

  /** Mutual exclusion and no pop on an empty queue; nothing lost; to each client what was sent to it. */
  ghost predicate Sound(s: State) {
    LockInv(s) && Conserved(s) && forall k :: 1 <= k <= 3 ==> MailFor(s, k)
  }

  lemma {:induction false} AlwaysSound(render: Rendering, s0: State, schedule: seq<Action>)
    requires Initial(s0)
    ensures Sound(After(render, s0, schedule))
  {
    AlwaysLock(render, s0, schedule);
    AlwaysConserved(render, s0, schedule);
    forall k | 1 <= k <= 3 ensures MailFor(After(render, s0, schedule), k) {
      AlwaysMail(render, s0, schedule, k);
    }
  }

  class Server {
    const render: Rendering
    // The globals of the source.
    var isWorking: bool
    var messageQ: seq<Message>
    var mServer: Owner
    // The kernel's message queue.
    var kernelQ: seq<Message>
    // The threads' program counters and local variables.
    var mainPc: MainPc
    var messageReceive: Message
    var messageSend: Message
    var recvPc: RecvPc
    var mess: Message
    ghost var history: History

    ghost function View(): State
      reads this
    {
      State(isWorking, messageQ, mServer, kernelQ, mainPc, messageReceive, messageSend, recvPc, mess, history)
    }

    constructor (render: Rendering, queued: seq<Message>, garbage: Message)
      requires forall m :: m in queued ==> m.mtype == 4 && !m.shutdown
      ensures this.render == render
      ensures Initial(View()) && kernelQ == queued
    {
      this.render := render;
      isWorking, messageQ, mServer, kernelQ := true, [], Free, queued;
      mainPc, messageReceive, messageSend := OuterTest, garbage, garbage;
      recvPc, mess := LoopTest, garbage;
      history := History(queued, [], [], [], []);
    }

    method SigHandler(signal: int)
      modifies this`isWorking
      ensures View() == if signal == SIGINT then Step(render, old(View()), Interrupt) else old(View())
    {
      if signal == SIGINT {
        isWorking := false;
      }
    }

    method MsgSend(m: Message)
      modifies this`kernelQ, this`history
      ensures View() == MsgSnd(old(View()), m)
    {
      if m.mtype >= 1 {
        kernelQ := kernelQ + [m];
        history := history.(sent := history.sent + [m],
                            entered := if m.mtype == 4 then history.entered + [m] else history.entered);
      }
    }

    method MainTurn()
      modifies this
      ensures View() == MainStep(render, old(View()))
    {
      match mainPc
      case OuterTest =>
        if isWorking {
          mainPc := InnerTest;
        } else {
          messageSend := messageSend.(source := 4);
          mainPc := QuitLoop(0);
        }
      case InnerTest =>
        mainPc := if |messageQ| > 0 then LockQueue else OuterTest;
      case LockQueue =>
        if mServer == Free {
          mServer, mainPc := HeldByMain, PopFront;
        }
      case PopFront =>
        if messageQ == [] {
          mainPc := Fault;
        } else {
          messageReceive := messageQ[0];
          messageQ := messageQ[1..];
          mainPc := UnlockQueue;
        }
      case UnlockQueue =>
        mServer, mainPc := Free, Compose;
      case Compose =>
        messageSend := messageSend.(mtype := messageReceive.dest, shutdown := false);
        messageSend := messageSend.(source := messageReceive.source);
        messageSend := messageSend.(dest := messageReceive.dest);
        messageSend := messageSend.(buf := render(messageReceive.buf));
        mainPc := Send;
      case Send =>
        history := history.(forwarded := history.forwarded + [messageReceive]);
        mainPc := Sleep;
        MsgSend(messageSend);
      case Sleep =>
        mainPc := InnerTest;
      case QuitLoop(i) =>
        if i < 3 {
          messageSend := messageSend.(mtype := i + 1, shutdown := true);
          messageSend := messageSend.(buf := "Quit");
          mainPc := QuitLoop(i + 1);
          MsgSend(messageSend);
        } else {
          mainPc := Join;
        }
      case Join =>
      case Fault =>
    }

    /** msgrcv(k): searches the queue from its head and takes the first message of type k. */
    method FindFirst(k: int) returns (i: nat)
      ensures i == FirstOfType(kernelQ, k)
    {
      i := 0;
      while i < |kernelQ| && kernelQ[i].mtype != k
        invariant i <= |kernelQ|
        invariant forall j :: 0 <= j < i ==> kernelQ[j].mtype != k
      {
        i := i + 1;
      }
      FirstIsUnique(kernelQ, k, i);
    }

    method RecvTurn()
      modifies this
      ensures View() == RecvStep(old(View()))
    {
      match recvPc
      case LoopTest =>
        recvPc := if isWorking then Receive else Exited;
      case Receive =>
        var i := FindFirst(4);
        if i < |kernelQ| {
          mess := kernelQ[i];
          kernelQ := kernelQ[..i] + kernelQ[i + 1..];
          history := history.(obtained := history.obtained + [mess]);
          recvPc := LockPush;
        }
      case LockPush =>
        if mServer == Free {
          mServer, recvPc := HeldByRecv, Push;
        }
      case Push =>
        messageQ := messageQ + [mess];
        recvPc := UnlockPush;
      case UnlockPush =>
        mServer, recvPc := Free, LoopTest;
      case Exited =>
    }

    method ClientTurn(act: Action)
      requires act.ClientSend? || act.ClientTake?
      modifies this`kernelQ, this`history
      ensures View() == Step(render, old(View()), act)
    {
      if act.ClientSend? {
        var m := act.m.(mtype := 4, shutdown := false);
        kernelQ := kernelQ + [m];
        history := history.(entered := history.entered + [m]);
      } else {
        var i := FindFirst(act.k);
        if act.k != 4 && i < |kernelQ| {
          history := history.(taken := history.taken + [kernelQ[i]]);
          kernelQ := kernelQ[..i] + kernelQ[i + 1..];
        }
      }
    }

    /** Any interleaving, one action after the other: from a fresh server the mutex excludes, the pop never
        finds an empty queue, nothing is lost on the way, and each client gets exactly what was sent to it. */
    method Run(schedule: seq<Action>)
      modifies this
      ensures View() == After(render, old(View()), schedule)
      ensures Initial(old(View())) ==> Sound(View())
    {
      ghost var before := View();
      var n := 0;
      while n < |schedule|
        invariant n <= |schedule|
        invariant View() == After(render, before, schedule[..n])
      {
        assert schedule[..n + 1][..n] == schedule[..n];
        match schedule[n] {
          case Main => MainTurn();
          case Recv => RecvTurn();
          case Interrupt => SigHandler(SIGINT);
          case ClientSend(_) => ClientTurn(schedule[n]);
          case ClientTake(_) => ClientTurn(schedule[n]);
        }
        n := n + 1;
      }
      assert schedule[..n] == schedule;
      if Initial(before) {
        AlwaysSound(render, before, schedule);
      }
    }
  }

  lemma {:induction false} FirstIsUnique(q: seq<Message>, k: int, i: nat)
    requires i <= |q|
    requires forall j :: 0 <= j < i ==> q[j].mtype != k
    requires i < |q| ==> q[i].mtype == k
    ensures FirstOfType(q, k) == i
  {
  }
}
