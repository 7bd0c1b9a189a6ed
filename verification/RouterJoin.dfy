/** What each thread waits for, whether the join returns, and that what is sent can be taken. */
module RouterJoin {
  import opened Sequences
  import opened Router
  import opened RouterSafety
  import opened RouterShutdown
  import opened RouterLiveness

  // ---------- What blocks a step ----------

  /** recv waits in msgrcv: there is no message of type 4. */
  predicate Idle(s: State) {
    s.recvPc == Receive && forall m :: m in s.kernelQ ==> m.mtype != 4
  }

  predicate RecvBlocked(s: State) {
    s.recvPc == LockPush && s.mutex != Free
  }

  lemma {:induction false} NoneOfType(q: seq<Message>, k: int)
    ensures FirstOfType(q, k) == |q| <==> forall m :: m in q ==> m.mtype != k
  {
    if FirstOfType(q, k) == |q| {
      assert forall j :: 0 <= j < |q| ==> q[j].mtype != k;
    } else {
      assert q[FirstOfType(q, k)] in q;
    }
  }

  /** A turn of a thread changes nothing exactly if the thread is over, waits for the mutex while it is taken, or, for
      recv, waits for a message; a client's receive changes nothing exactly if there is no message for it. */
  lemma {:induction false} BlockedExactly(render: Rendering, s: State, k: int)
    requires LockInv(s) && k != 4
    ensures Step(render, s, Main) == s <==> MainBlocked(s) || s.mainPc == Join
    ensures Step(render, s, Recv) == s <==> RecvBlocked(s) || Idle(s) || s.recvPc == Exited
    ensures Step(render, s, ClientTake(k)) == s <==> forall m :: m in s.kernelQ ==> m.mtype != k
  {
    MainChanges(render, s);
    RecvChanges(s);
    NoneOfType(s.kernelQ, k);
    TakeChanges(s, k);
  }

  lemma {:induction false} MainChanges(render: Rendering, s: State)
    requires LockInv(s)
    ensures MainStep(render, s) == s <==> MainBlocked(s) || s.mainPc == Join
  {
  }

  lemma {:induction false} RecvChanges(s: State)
    ensures RecvStep(s) == s <==> RecvBlocked(s) || Idle(s) || s.recvPc == Exited
  {
    NoneOfType(s.kernelQ, 4);
  }

  lemma {:induction false} TakeChanges(s: State, k: int)
    requires k != 4
    ensures ClientTakeStep(s, k) == s <==> FirstOfType(s.kernelQ, k) == |s.kernelQ|
  {
    if FirstOfType(s.kernelQ, k) < |s.kernelQ| {
      assert |ClientTakeStep(s, k).kernelQ| == |s.kernelQ| - 1;
    }
  }

  // ---------- The join ----------

  ghost predicate Down(s: State) {
    !s.isWorking && LockInv(s) && Entered(s)
  }

  lemma {:induction false} DownStep(render: Rendering, s: State, act: Action)
    requires Down(s)
    ensures Down(Step(render, s, act))
  {
    LockStep(render, s, act);
    EnteredStep(render, s, act);
  }

  /** Between s and t the flag was down: recv is at its msgrcv only if it never left it, and took nothing. */
  ghost predicate Since(s: State, t: State) {
    && Down(t)
    && s.h.entered <= t.h.entered
    && (t.recvPc == Receive ==> s.recvPc == Receive && t.h.obtained == s.h.obtained)
    && (s.recvPc == Receive && s.h.obtained == s.h.entered == t.h.entered ==> t.recvPc == Receive)
  }

  lemma {:induction false} SinceStep(render: Rendering, s: State, t: State, act: Action)
    requires Since(s, t)
    ensures Since(s, Step(render, t, act))
  {
    hide Entered, LockInv;
    var t' := Step(render, t, act);
    DownStep(render, t, act);
    if act == Recv {
      SinceRecv(s, t);
    } else {
      OthersEnter(render, t, act);
    }
  }

  lemma {:induction false} OthersEnter(render: Rendering, t: State, act: Action)
    requires act != Recv
    ensures var t' := Step(render, t, act);
            t'.recvPc == t.recvPc && t'.h.obtained == t.h.obtained && t.h.entered <= t'.h.entered
  {
    if act == Main {
      MainFrame(render, t);
    }
  }

  lemma {:induction false} SinceRecv(s: State, t: State)
    requires Since(s, t)
    ensures var t' := RecvStep(t);
            && t'.h.entered == t.h.entered
            && (t'.recvPc == Receive ==> t.recvPc == Receive && t'.h.obtained == t.h.obtained)
            && (t.recvPc == Receive && t.h.obtained == t.h.entered ==> t'.recvPc == Receive)
  {
    if t.recvPc == Receive && t.h.obtained == t.h.entered {
      assert |Filter(t.kernelQ, HasType(4))| == 0;
      SomeWaiting(t);
    }
  }

  lemma {:induction false} SinceAfter(render: Rendering, s: State, t: State, schedule: seq<Action>)
    requires Since(s, t)
    ensures Since(s, After(render, t, schedule))
  {
    if schedule != [] {
      var front := schedule[..|schedule| - 1];
      SinceAfter(render, s, t, front);
      SinceStep(render, s, After(render, t, front), schedule[|schedule| - 1]);
    }
  }

  lemma {:induction false} RecvMoves(s: State)
    requires Down(s) && s.mainPc == Join && s.recvPc != Exited
    requires s.recvPc == Receive ==> |s.h.obtained| < |s.h.entered|
    ensures Remaining(RecvStep(s)) < Remaining(s)
  {
    if s.recvPc == Receive {
      SomeWaiting(s);
    }
  }

  /** With main at its join, a round in which recv has a turn lets it move unless it waits for a message. */
  lemma {:induction false} JoinRound(render: Rendering, s: State, round: seq<Action>)
    requires Down(s) && FairRound(round) && s.mainPc == Join && s.recvPc != Exited
    requires s.recvPc == Receive ==> |s.h.obtained| < |s.h.entered|
    ensures Remaining(After(render, s, round)) < Remaining(s)
  {
    var i :| 0 <= i < |round| && round[i] == Recv;
    AfterSplit(render, s, round, i);
    assert Since(s, s);
    var t := After(render, s, round[..i]);
    SinceAfter(render, s, s, round[..i]);
    RemainingAfter(render, s, round[..i]);
    JoinStays(render, s, round[..i]);
    DownStep(render, t, Recv);
    RemainingRecv(t);
    if Remaining(t) == Remaining(s) {
      RecvMoves(t);
    }
    RemainingAfter(render, RecvStep(t), round[i + 1..]);
  }

  /** A round moves something on until main is at its join and recv is over or has taken everything there is. */
  lemma {:induction false} AnyRound(render: Rendering, s: State, round: seq<Action>)
    requires Down(s) && FairRound(round) && !(s.mainPc == Join && s.recvPc == Exited)
    requires s.mainPc == Join && s.recvPc == Receive ==> |s.h.obtained| < |s.h.entered|
    ensures Remaining(After(render, s, round)) < Remaining(s)
  {
    if s.mainPc == Join {
      JoinRound(render, s, round);
    } else {
      RoundProgress(render, s, round);
    }
  }

  lemma {:induction false} JoinRounds(render: Rendering, s: State, rounds: seq<seq<Action>>)
    requires Down(s) && forall r :: r in rounds ==> FairRound(r)
    ensures var t := AfterRounds(render, s, rounds);
            && Since(s, t)
            && (Remaining(t) + |rounds| <= Remaining(s)
                || (t.mainPc == Join && (t.recvPc == Exited || (s.recvPc == Receive && s.h.obtained == s.h.entered))))
  {
    if rounds != [] {
      hide LockInv, Entered, Remaining;
      var front, last := rounds[..|rounds| - 1], rounds[|rounds| - 1];
      assert last in rounds;
      JoinRounds(render, s, front);
      var t := AfterRounds(render, s, front);
      SinceAfter(render, s, t, last);
      if t.mainPc == Join {
        JoinStays(render, t, last);
      }
      LastRound(render, s, t, last);
    }
  }

  lemma {:induction false} ExitedStays(render: Rendering, s: State, schedule: seq<Action>)
    requires s.recvPc == Exited
    ensures After(render, s, schedule).recvPc == Exited
  {
    if schedule != [] {
      ExitedStays(render, s, schedule[..|schedule| - 1]);
    }
  }

  lemma {:induction false} LastRound(render: Rendering, s: State, t: State, round: seq<Action>)
    requires Down(s) && Since(s, t) && FairRound(round)
    ensures t.recvPc == Exited ==> After(render, t, round).recvPc == Exited
    ensures || Remaining(After(render, t, round)) < Remaining(t)
            || (t.mainPc == Join && t.recvPc == Exited)
            || (t.mainPc == Join && s.recvPc == Receive && s.h.obtained == s.h.entered)
  {
    if t.recvPc == Exited {
      ExitedStays(render, t, round);
    }
    if !(t.mainPc == Join && t.recvPc == Exited) {
      if t.mainPc == Join && t.recvPc == Receive && |t.h.obtained| >= |t.h.entered| {
        assert t.h.obtained <= t.h.entered;
        assert s.h.obtained <= s.h.entered <= t.h.entered;
      } else {
        AnyRound(render, t, round);
      }
    }
  }

  /** Whether the join returns: after any run with a SIGINT, and enough fair rounds in which no message enters, the
      recv thread has ended if and only if it was not waiting in its msgrcv for a message that is not there. */
  lemma {:induction false} JoinReturns(render: Rendering, s0: State, schedule: seq<Action>, rounds: seq<seq<Action>>)
    requires Initial(s0) && Interrupt in schedule
    requires forall r :: r in rounds ==> FairRound(r)
    requires |rounds| > Remaining(After(render, s0, schedule))
    requires AfterRounds(render, After(render, s0, schedule), rounds).h.entered == After(render, s0, schedule).h.entered
    ensures var s := After(render, s0, schedule);
            var t := AfterRounds(render, s, rounds);
            && t.mainPc == Join
            && (t.recvPc == Exited <==> !Idle(s))
            && (t.recvPc != Exited ==> Idle(t))
  {
    var s := After(render, s0, schedule);
    AlwaysLock(render, s0, schedule);
    AlwaysConserved(render, s0, schedule);
    OnlySigint(render, s0, schedule);
    MainReachesJoin(render, s0, schedule, rounds);
    JoinRounds(render, s, rounds);
    IdleIs(s);
    IdleIs(AfterRounds(render, s, rounds));
  }

  lemma {:induction false} IdleIs(s: State)
    requires Entered(s)
    ensures Idle(s) <==> s.recvPc == Receive && s.h.obtained == s.h.entered
  {
    SomeWaiting(s);
    NoneOfType(s.kernelQ, 4);
    if Waiting(s) == 0 {
      assert Filter(s.kernelQ, HasType(4)) == [];
    }
  }

  // ---------- Taking what was sent ----------

  function Takes(schedule: seq<Action>, k: int): nat {
    if schedule == [] then 0
    else Takes(schedule[..|schedule| - 1], k) + if schedule[|schedule| - 1] == ClientTake(k) then 1 else 0
  }

  /** Messages sent to client k, and messages it has taken. */
  function Out(s: State, k: int): seq<Message> {
    Filter(s.h.sent, HasType(k))
  }

  function In(s: State, k: int): seq<Message> {
    Filter(s.h.taken, HasType(k))
  }

  lemma {:induction false} SentGrows(render: Rendering, s: State, act: Action)
    ensures s.h.sent <= Step(render, s, act).h.sent
  {
    if act == Main {
      MainFrame(render, s);
    }
  }

  lemma {:induction false} TakeOne(render: Rendering, s: State, k: int)
    requires k != 4 && MailFor(s, k)
    ensures |In(Step(render, s, ClientTake(k)), k)| == if |In(s, k)| < |Out(s, k)| then |In(s, k)| + 1 else |In(s, k)|
  {
    if FirstOfType(s.kernelQ, k) < |s.kernelQ| {
      TakeFirst(s.kernelQ, k, k);
      FilterAppend(s.h.taken, s.kernelQ[FirstOfType(s.kernelQ, k)], HasType(k));
    } else {
      FilterNone(s.kernelQ, HasType(k));
    }
  }

  lemma {:induction false} TakenGrows(render: Rendering, s: State, act: Action)
    ensures s.h.taken <= Step(render, s, act).h.taken
  {
    if act == Main {
      MainFrame(render, s);
    }
  }

  lemma {:induction false} TakesAfter(render: Rendering, s: State, schedule: seq<Action>, k: int, n: nat)
    requires k != 4 && MailFor(s, k) && n <= |Out(s, k)|
    ensures var t := After(render, s, schedule);
            && MailFor(t, k) && Out(s, k) <= Out(t, k)
            && (|In(t, k)| >= n || |In(t, k)| >= |In(s, k)| + Takes(schedule, k))
  {
    if schedule != [] {
      hide Step;
      var front, act := schedule[..|schedule| - 1], schedule[|schedule| - 1];
      TakesAfter(render, s, front, k, n);
      var t := After(render, s, front);
      MailStep(render, t, act, k);
      SentGrows(render, t, act);
      FilterPrefix(t.h.sent, Step(render, t, act).h.sent, HasType(k));
      TakenGrows(render, t, act);
      FilterPrefix(t.h.taken, Step(render, t, act).h.taken, HasType(k));
      if act == ClientTake(k) {
        TakeOne(render, t, k);
      }
    }
  }

  /** What was sent to a client is taken by it, all of it and in order, once it has called msgrcv as often as messages
      were left for it, whatever the others do meanwhile. */
  lemma {:induction false} AllTaken(render: Rendering, s0: State, schedule: seq<Action>, rest: seq<Action>, k: int)
    requires Initial(s0) && k != 4
    requires var s := After(render, s0, schedule); Takes(rest, k) >= |Out(s, k)| - |In(s, k)|
    ensures var s := After(render, s0, schedule);
            Out(s, k) <= In(After(render, s, rest), k)
  {
    var s := After(render, s0, schedule);
    AlwaysMail(render, s0, schedule, k);
    TakesAfter(render, s, rest, k, |Out(s, k)|);
    var t := After(render, s, rest);
    assert In(t, k) <= Out(t, k);
  }
}
