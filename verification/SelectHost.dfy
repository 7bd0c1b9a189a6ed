/** The select server's globals and threads as an object updated in place. Each method is proved against
    the step it performs. */
module SelectHost {
  import opened SelectServer
  import opened SelectSafety
  import opened SelectShutdown

  class Host {
    const fdMaster: int
    const fdClient: array<int>
    var activeFDs: set<int>
    var readFDs: set<int>
    var cnt: nat
    var fdMax: int
    var s: int
    var isWorking: bool
    var mesQ: seq<Entry>
    var serverMutex: Owner
    var receiverPc: ReceiverPc
    var message: Entry
    var mainPc: MainPc
    var received: Entry
    ghost var history: History

    ghost function View(): State
      reads this, fdClient
    {
      State(fdMaster, activeFDs, readFDs, fdClient[..], cnt, fdMax, s, isWorking, mesQ, serverMutex,
            receiverPc, message, mainPc, received, history)
    }

    constructor (fdMaster: int)
      requires fdMaster >= 0
      ensures fresh(fdClient) && Initial(View())
    {
      this.fdMaster := fdMaster;
      fdClient := new int[C_MAX](_ => 0);
      activeFDs, readFDs, cnt, fdMax, s := {fdMaster}, {}, 0, fdMaster, 0;
      isWorking, mesQ, serverMutex := true, [], Free;
      receiverPc, message := ReceiverPc.LoopTest, Entry(0, "");
      mainPc, received := OuterTest, Entry(0, "");
      history := History([], 0, 0, [], [], [], 0, 0, []);
    }

    /** Lines 57-60. */
    method SelectCall(input: Input)
      requires receiverPc == Select
      modifies this
      ensures View() == SelectStep(old(View()), input)
    {
      if input.fails {
        readFDs, s, receiverPc := activeFDs, -1, Test;
      } else if input.ready <= activeFDs {
        readFDs, s, receiverPc := input.ready, |input.ready|, Test;
        if fdMaster in readFDs {
          history := history.(knocks := history.knocks + 1,
                              late := if |history.accepted| == C_MAX then history.late + 1 else history.late);
        }
      }
    }

    /** Lines 70-87. */
    method AcceptCall(input: Input)
      requires receiverPc == Accept
      modifies this, fdClient
      ensures View() == AcceptStep(old(View()), input)
    {
      if cnt >= fdClient.Length {
        receiverPc := Overrun;
      } else if input.fails {
        fdClient[cnt] := -1;
        receiverPc := ReceiverPc.LoopTest;
        assert fdClient[..] == old(fdClient[..])[cnt := -1];
      } else if input.fd >= 0 && input.fd !in activeFDs {
        fdClient[cnt] := input.fd;
        assert fdClient[..] == old(fdClient[..])[cnt := input.fd];
        activeFDs := activeFDs + {fdClient[cnt]};
        if fdMax < fdClient[cnt] {
          fdMax := fdClient[cnt];
        }
        cnt := cnt + 1;
        history := history.(accepted := history.accepted + [input.fd]);
        receiverPc := ReceiverPc.LoopTest;
      }
    }

    /** Lines 92-110: one control point of the scan. */
    method ScanTurn(input: Input)
      requires Scanning(receiverPc)
      modifies this
      ensures View() == ReceiverStep(old(View()), input)
    {
      match receiverPc
      case Scan(i) =>
        if i >= cnt || i >= fdClient.Length {
          history, receiverPc := history.(rounds := history.rounds + 1), ReceiverPc.LoopTest;
        } else if fdClient[i] in readFDs {
          receiverPc := Recv(i);
        } else {
          receiverPc := Scan(i + 1);
        }
      case Recv(i) =>
        message := Entry(i, if input.fails then "" else input.text);
        history := history.(chunks := history.chunks + [message]);
        receiverPc := LockPush(i);
      case LockPush(i) =>
        if serverMutex == Free {
          serverMutex, receiverPc := HeldByReceiver, Push(i);
        }
      case Push(i) =>
        mesQ := mesQ + [message];
        history := history.(pushed := history.pushed + [message], roundPushes := history.roundPushes + 1);
        receiverPc := UnlockPush(i);
      case UnlockPush(i) =>
        serverMutex, receiverPc := Free, Scan(i + 1);
    }

    method ReceiverTurn(input: Input)
      modifies this, fdClient
      ensures View() == ReceiverStep(old(View()), input)
    {
      if receiverPc == ReceiverPc.LoopTest {
        receiverPc := if isWorking then Select else Exited;
      } else if receiverPc == Select {
        SelectCall(input);
      } else if receiverPc == Test {
        if s < 0 {
          receiverPc := ReceiverPc.LoopTest;
        } else if fdMaster in readFDs {
          receiverPc := Accept;
        } else if s == 1 {
          history, receiverPc := history.(roundPushes := 0), Scan(0);
        } else {
          receiverPc := Clear;
        }
      } else if receiverPc == Accept {
        AcceptCall(input);
      } else if Scanning(receiverPc) {
        ScanTurn(input);
      } else if receiverPc == Clear {
        isWorking, receiverPc := false, ReceiverPc.LoopTest;
      }
    }

    method MainTurn()
      modifies this
      ensures View() == MainStep(old(View()))
    {
      match mainPc
      case OuterTest => mainPc := if isWorking then SizeTest else QuitLoop(0);
      case SizeTest => mainPc := InnerTest;
      case InnerTest => mainPc := if |mesQ| > 0 then LockPop else OuterTest;
      case LockPop =>
        if serverMutex == Free {
          serverMutex, mainPc := HeldByMain, Pop;
        }
      case Pop =>
        if mesQ == [] {
          mainPc := Fault;
        } else {
          received := mesQ[0];
          mesQ := mesQ[1..];
          mainPc := UnlockPop;
        }
      case UnlockPop => serverMutex, mainPc := Free, Print;
      case Print => history, mainPc := history.(printed := history.printed + [received]), InnerTest;
      case QuitLoop(i) =>
        if i < cnt && i < fdClient.Length {
          history := history.(quits := history.quits + [fdClient[i]]);
          mainPc := QuitLoop(i + 1);
        } else {
          mainPc := Join;
        }
      case Join => mainPc := if receiverPc == Exited then Closed else Join;
      case Closed =>
      case Fault =>
    }

    /** Any interleaving of the two threads. From the initial state the client table never overflows as long
        as the listening socket is ready at most C_MAX times, and the select set is as the source intends. */
    method Run(schedule: seq<Action>)
      modifies this, fdClient
      ensures View() == After(old(View()), schedule)
      ensures Initial(old(View())) ==> SelectSet(View()) && (history.knocks <= C_MAX ==> receiverPc != Overrun)
    {
      ghost var before := View();
      var n := 0;
      while n < |schedule|
        invariant n <= |schedule|
        invariant View() == After(before, schedule[..n])
      {
        assert schedule[..n + 1][..n] == schedule[..n];
        match schedule[n] {
          case Receiver(input) => ReceiverTurn(input);
          case Main => MainTurn();
        }
        n := n + 1;
      }
      assert schedule[..n] == schedule;
      if Initial(before) {
        AlwaysSelectSet(before, schedule);
        AlwaysKnock(before, schedule);
      }
    }
  }
}
