/** What happens once SIGINT has cleared isWorking: the router stops, under every fair schedule. */
module RouterShutdown {
  import opened Router
  import opened RouterSafety

  /** Messages the recv thread can still push after the flag is cleared. */
  function Residual(s: State): nat {
    if s.recvPc in {Receive, LockPush, Push} then 1 else 0
  }

  /** Messages pushed on messageQ so far, wherever they are now. */
  function Pushed(s: State): nat {
    |s.h.forwarded| + |MainHand(s)| + |s.messageQ|
  }

  function MainRank(pc: MainPc): nat {
    match pc
    case Join => 0
    case QuitLoop(i) => if i <= 3 then 4 - i else 1
    case OuterTest => 5
    case PopFront => 6
    case LockQueue => 7
    case InnerTest => 8
    case Sleep => 9
    case Send => 10
    case Compose => 11
    case UnlockQueue => 12
    case Fault => 0
  }

  /** What is left for the main thread to do. */
  function MainMeasure(s: State): nat {
    7 * (|s.messageQ| + Residual(s)) + MainRank(s.mainPc)
  }

  function RecvRank(pc: RecvPc): nat {
    match pc
    case Exited => 0
    case LoopTest => 1
    case UnlockPush => 2
    case Push => 3
    case LockPush => 4
    case Receive => 5
  }

  /** What is left for the two threads together. */
  function Remaining(s: State): nat {
    MainMeasure(s) + RecvRank(s.recvPc)
  }

  predicate MainBlocked(s: State) {
    s.mainPc == LockQueue && s.mutex != Free
  }

  /** After the flag is cleared, each step of the main thread makes progress unless the recv thread
      holds the mutex, and no other step undoes it. */
  lemma {:induction false} MeasureStep(render: Rendering, s: State, act: Action)
    requires LockInv(s) && !s.isWorking
    ensures var s' := Step(render, s, act);
            && !s'.isWorking
            && (if act == Main && s.mainPc != Join && !MainBlocked(s) then MainMeasure(s') < MainMeasure(s)
                else MainMeasure(s') <= MainMeasure(s))
  {
  }

  /** The main thread waits for the mutex only while the recv thread is about to release it. */
  lemma {:induction false} NeverStuck(render: Rendering, s: State)
    requires LockInv(s) && MainBlocked(s)
    ensures s.mutex == HeldByRecv && s.recvPc in {Push, UnlockPush}
    ensures !MainBlocked(RecvStep(RecvStep(s)))
  {
  }

  lemma {:induction false} PushedStep(render: Rendering, s: State, act: Action)
    requires LockInv(s) && !s.isWorking
    ensures var s' := Step(render, s, act);
            Pushed(s') + Residual(s') == Pushed(s) + Residual(s)
  {
  }

  lemma {:induction false} LockFrom(render: Rendering, s: State, schedule: seq<Action>)
    requires LockInv(s) && !s.isWorking
    ensures LockInv(After(render, s, schedule)) && !After(render, s, schedule).isWorking
  {
    if schedule != [] {
      var front := schedule[..|schedule| - 1];
      LockFrom(render, s, front);
      LockStep(render, After(render, s, front), schedule[|schedule| - 1]);
    }
  }

  /** After the flag is cleared the recv thread pushes at most one more message, and it pushes that
      one exactly when it gives up the residual it had when the flag was cleared. */
  lemma {:induction false} AtMostOnePush(render: Rendering, s: State, schedule: seq<Action>)
    requires LockInv(s) && !s.isWorking
    ensures var s' := After(render, s, schedule);
            && Pushed(s') + Residual(s') == Pushed(s) + Residual(s)
            && Pushed(s') <= Pushed(s) + 1
  {
    if schedule != [] {
      var front := schedule[..|schedule| - 1];
      AtMostOnePush(render, s, front);
      LockFrom(render, s, front);
      PushedStep(render, After(render, s, front), schedule[|schedule| - 1]);
    }
  }

  // ---------- Fair schedules ----------

  /** A round gives each of the two threads at least one turn; anything else may happen in between. */
  predicate FairRound(round: seq<Action>) {
    Main in round && Recv in round
  }

  /** The part of the state that decides which thread can move. */
  ghost predicate SameThreads(s: State, t: State) {
    s.mainPc == t.mainPc && s.recvPc == t.recvPc && s.mutex == t.mutex
  }

  lemma {:induction false} RemainingMain(render: Rendering, s: State)
    requires LockInv(s) && !s.isWorking
    ensures var s' := MainStep(render, s);
            && Remaining(s') <= Remaining(s)
            && (Remaining(s') == Remaining(s) ==> SameThreads(s, s'))
  {
  }

  lemma {:induction false} RemainingRecv(s: State)
    requires LockInv(s) && !s.isWorking
    ensures var s' := RecvStep(s);
            && Remaining(s') <= Remaining(s)
            && (Remaining(s') == Remaining(s) ==> SameThreads(s, s'))
  {
  }

  /** Nothing raises what remains, and a step that does not lower it leaves both threads where they were. */
  lemma {:induction false} RemainingStep(render: Rendering, s: State, act: Action)
    requires LockInv(s) && !s.isWorking
    ensures var s' := Step(render, s, act);
            && Remaining(s') <= Remaining(s)
            && (Remaining(s') == Remaining(s) ==> SameThreads(s, s'))
  {
    match act
    case Main => RemainingMain(render, s);
    case Recv => RemainingRecv(s);
    case _ =>
  }

  lemma {:induction false} RemainingAfter(render: Rendering, s: State, schedule: seq<Action>)
    requires LockInv(s) && !s.isWorking
    ensures var s' := After(render, s, schedule);
            && Remaining(s') <= Remaining(s)
            && (Remaining(s') == Remaining(s) ==> SameThreads(s, s'))
  {
    if schedule != [] {
      var front := schedule[..|schedule| - 1];
      RemainingAfter(render, s, front);
      LockFrom(render, s, front);
      RemainingStep(render, After(render, s, front), schedule[|schedule| - 1]);
    }
  }

  lemma {:induction false} AfterConcat(render: Rendering, s: State, a: seq<Action>, b: seq<Action>)
    ensures After(render, s, a + b) == After(render, After(render, s, a), b)
  {
    if b == [] {
      assert a + b == a;
    } else {
      var front := b[..|b| - 1];
      assert (a + b)[..|a + b| - 1] == a + front;
      AfterConcat(render, s, a, front);
    }
  }

  lemma {:induction false} One(render: Rendering, s: State, act: Action)
    ensures After(render, s, [act]) == Step(render, s, act)
  {
    assert [act][..0] == [];
    assert After(render, s, []) == s;
  }

  lemma {:induction false} AfterSplit(render: Rendering, s: State, round: seq<Action>, i: nat)
    requires i < |round|
    ensures After(render, s, round) ==
            After(render, Step(render, After(render, s, round[..i]), round[i]), round[i + 1..])
  {
    assert round == round[..i] + [round[i]] + round[i + 1..];
    AfterConcat(render, s, round[..i] + [round[i]], round[i + 1..]);
    AfterConcat(render, s, round[..i], [round[i]]);
    One(render, After(render, s, round[..i]), round[i]);
  }

  /** A fair round makes progress until the main thread is at the join. */
  lemma {:induction false} RoundProgress(render: Rendering, s: State, round: seq<Action>)
    requires LockInv(s) && !s.isWorking && FairRound(round) && s.mainPc != Join
    ensures Remaining(After(render, s, round)) < Remaining(s)
  {
    var act := if MainBlocked(s) then Recv else Main;
    var i :| 0 <= i < |round| && round[i] == act;
    AfterSplit(render, s, round, i);
    RemainingAfter(render, s, round[..i]);
    LockFrom(render, s, round[..i]);
    var t := After(render, s, round[..i]);
    MoverTurn(render, s, t, act);
    RemainingAfter(render, Step(render, t, act), round[i + 1..]);
  }

  lemma {:induction false} MoverTurn(render: Rendering, s: State, t: State, act: Action)
    requires LockInv(s) && LockInv(t) && !t.isWorking && s.mainPc != Join
    requires Remaining(t) <= Remaining(s) && (Remaining(t) == Remaining(s) ==> SameThreads(s, t))
    requires act == if MainBlocked(s) then Recv else Main
    ensures var t' := Step(render, t, act);
            LockInv(t') && !t'.isWorking && Remaining(t') < Remaining(s)
  {
    LockStep(render, t, act);
    RemainingStep(render, t, act);
    if Remaining(t) == Remaining(s) {
      MovesIfSame(render, s, t, act);
    }
  }

  /** The thread that can move in s can still move in t if no thread has moved in between. */
  lemma {:induction false} MovesIfSame(render: Rendering, s: State, t: State, act: Action)
    requires LockInv(s) && LockInv(t) && !t.isWorking && SameThreads(s, t) && s.mainPc != Join
    requires act == if MainBlocked(s) then Recv else Main
    ensures Remaining(Step(render, t, act)) < Remaining(t)
  {
  }

  function AfterRounds(render: Rendering, s: State, rounds: seq<seq<Action>>): State {
    if rounds == [] then s
    else After(render, AfterRounds(render, s, rounds[..|rounds| - 1]), rounds[|rounds| - 1])
  }

  lemma {:induction false} JoinStays(render: Rendering, s: State, schedule: seq<Action>)
    requires s.mainPc == Join
    ensures After(render, s, schedule).mainPc == Join
  {
    if schedule != [] {
      JoinStays(render, s, schedule[..|schedule| - 1]);
    }
  }

  lemma {:induction false} RoundsProgress(render: Rendering, s: State, rounds: seq<seq<Action>>)
    requires LockInv(s) && !s.isWorking
    requires forall r :: r in rounds ==> FairRound(r)
    ensures var t := AfterRounds(render, s, rounds);
            && LockInv(t) && !t.isWorking
            && (t.mainPc == Join || Remaining(t) + |rounds| <= Remaining(s))
  {
    if rounds != [] {
      var front := rounds[..|rounds| - 1];
      RoundsProgress(render, s, front);
      var t, last := AfterRounds(render, s, front), rounds[|rounds| - 1];
      assert last in rounds;
      LockFrom(render, t, last);
      if t.mainPc == Join {
        JoinStays(render, t, last);
      } else {
        RoundProgress(render, t, last);
      }
    }
  }

  /** SIGINT and nothing else clears the flag, and it stays cleared. */
  lemma {:induction false} OnlySigint(render: Rendering, s0: State, schedule: seq<Action>)
    requires Initial(s0)
    ensures After(render, s0, schedule).isWorking <==> Interrupt !in schedule
  {
    if schedule != [] {
      var front, act := schedule[..|schedule| - 1], schedule[|schedule| - 1];
      OnlySigint(render, s0, front);
      assert schedule == front + [act];
    }
  }

  /** Shutdown terminates: after any run in which SIGINT arrived, at whatever moment, every schedule of
      enough fair rounds brings the main thread to the join, past all three Quits. */
  lemma {:induction false} MainReachesJoin(render: Rendering, s0: State, schedule: seq<Action>,
                                           rounds: seq<seq<Action>>)
    requires Initial(s0)
    requires Interrupt in schedule
    requires forall r :: r in rounds ==> FairRound(r)
    requires |rounds| > Remaining(After(render, s0, schedule))
    ensures AfterRounds(render, After(render, s0, schedule), rounds).mainPc == Join
  {
    AlwaysLock(render, s0, schedule);
    OnlySigint(render, s0, schedule);
    RoundsProgress(render, After(render, s0, schedule), rounds);
  }
}
