/** The end of the select server: the Quit broadcast, termination, and the one way to overrun fd_client. */
module SelectShutdown {
  import opened SelectServer
  import opened SelectSafety

  // ---------- The flag is cleared by the receiver, as its last act ----------

  /** What three turns of the receiver make of an answer of select: the server is shut down exactly if the
      listener is not ready and the number of ready clients is not one, that is on a timeout or when two or
      more clients are ready at once. */
  lemma {:induction false} ClearsExactly(s: State, answer: Input, a: Input, b: Input)
    requires s.isWorking && s.receiverPc == Select && (answer.fails || answer.ready <= s.activeFDs)
    ensures var s' := ReceiverStep(ReceiverStep(ReceiverStep(s, answer), a), b);
            !s'.isWorking <==> !answer.fails && s.fdMaster !in answer.ready && |answer.ready| != 1
  {
  }

  /** Once the flag is cleared the receiver has only its loop test left; the main thread has sent Quit
      to a prefix of the accepted clients, and to all of them when it is past its loop. */
  ghost predicate QuitInv(s: State) {
    && (!s.isWorking ==> s.receiverPc == LoopTest || s.receiverPc == Exited)
    && (s.receiverPc == Exited ==> !s.isWorking)
    && (s.mainPc == Closed ==> s.receiverPc == Exited)
    && (s.mainPc.QuitLoop? || s.mainPc == Join || s.mainPc == Closed ==> !s.isWorking)
    && s.h.quits == s.h.accepted[..if s.mainPc.QuitLoop? && s.mainPc.i <= |s.h.accepted| then s.mainPc.i
                               else if s.mainPc == Join || s.mainPc == Closed then |s.h.accepted| else 0]
    && (s.mainPc.QuitLoop? ==> s.mainPc.i <= |s.h.accepted|)
  }

  lemma {:induction false} QuitMain(s: State)
    requires SelectSet(s) && QuitInv(s)
    ensures QuitInv(MainStep(s))
  {
    if s.mainPc.QuitLoop? && s.mainPc.i < s.cnt {
      var i := s.mainPc.i;
      assert s.fdClient[i] == s.fdClient[..s.cnt][i];
      assert s.h.accepted[..i + 1] == s.h.accepted[..i] + [s.h.accepted[i]];
    }
  }

  lemma {:induction false} QuitReceiver(s: State, input: Input)
    requires QuitInv(s)
    ensures QuitInv(ReceiverStep(s, input))
  {
    if s.receiverPc == Accept {
      assert s.h.accepted[..0] == AcceptStep(s, input).h.accepted[..0];
    }
  }

  lemma {:induction false} AlwaysQuit(s0: State, schedule: seq<Action>)
    requires Initial(s0)
    ensures QuitInv(After(s0, schedule))
  {
    if schedule != [] {
      var front, act := schedule[..|schedule| - 1], schedule[|schedule| - 1];
      AlwaysQuit(s0, front);
      AlwaysSelectSet(s0, front);
      if act.Main? {
        QuitMain(After(s0, front));
      } else {
        QuitReceiver(After(s0, front), act.input);
      }
    }
  }

  /** From the moment the flag is cleared the client table, the select set and the queue's input are frozen. */
  lemma {:induction false} Frozen(s: State, schedule: seq<Action>)
    requires QuitInv(s) && SelectSet(s) && !s.isWorking
    ensures var s' := After(s, schedule);
            && QuitInv(s') && !s'.isWorking && SelectSet(s') && SameSockets(s, s') && s'.h.pushed == s.h.pushed
  {
    if schedule != [] {
      var front, act := schedule[..|schedule| - 1], schedule[|schedule| - 1];
      Frozen(s, front);
      FrozenStep(After(s, front), act);
    }
  }

  lemma {:induction false} FrozenStep(s: State, act: Action)
    requires QuitInv(s) && SelectSet(s) && !s.isWorking
    ensures var s' := Step(s, act);
            && QuitInv(s') && !s'.isWorking && SelectSet(s') && SameSockets(s, s') && s'.h.pushed == s.h.pushed
  {
    OnlyAccept(s, act);
    SelectSetStep(s, act);
    if act.Main? {
      QuitMain(s);
      MainLeaves(s);
    } else {
      QuitReceiver(s, act.input);
    }
  }

  /** When the main thread is past its loop every accepted client has been sent exactly one Quit, on its
      own descriptor and in the order of acceptance. */
  lemma {:induction false} QuitExactlyOnce(s0: State, schedule: seq<Action>)
    requires Initial(s0)
    requires var pc := After(s0, schedule).mainPc; pc == Join || pc == Closed
    ensures var s := After(s0, schedule);
            && s.cnt <= |s.fdClient| && s.h.quits == s.h.accepted == s.fdClient[..s.cnt]
            && Distinct(s.h.quits)
  {
    AlwaysQuit(s0, schedule);
    AlwaysSelectSet(s0, schedule);
    var s := After(s0, schedule);
    assert s.h.accepted[..|s.h.accepted|] == s.h.accepted;
  }

  /** The last answer of select was a timeout or more than one ready client. */
  ghost predicate ShutRound(s: State) {
    s.s == |s.readFDs| != 1 && s.fdMaster !in s.readFDs
  }

  ghost predicate CauseInv(s: State) {
    !s.isWorking || s.receiverPc == Clear ==> ShutRound(s)
  }

  lemma {:induction false} CauseReceiver(s: State, input: Input)
    requires RoundInv(s) && QuitInv(s) && CauseInv(s)
    ensures CauseInv(ReceiverStep(s, input))
  {
    if s.isWorking {
      assert s.receiverPc == Test && TestStep(s).receiverPc == Clear ==> ShutRound(s);
    }
  }

  /** In every run, once the flag is cleared the receiver's last select had found no ready descriptor or at
      least two clients, and not the listener: nothing else ends the server. */
  lemma {:induction false} ShutdownCause(s0: State, schedule: seq<Action>)
    requires Initial(s0)
    ensures CauseInv(After(s0, schedule))
  {
    if schedule != [] {
      var front, act := schedule[..|schedule| - 1], schedule[|schedule| - 1];
      ShutdownCause(s0, front);
      if act.Main? {
        MainLeaves(After(s0, front));
      } else {
        AlwaysQuit(s0, front);
        AlwaysRound(s0, front);
        CauseReceiver(After(s0, front), act.input);
      }
    }
  }

  // ---------- Termination ----------

  function MainRank(s: State): nat {
    match s.mainPc
    case Closed => 0
    case Join => 1
    case QuitLoop(i) => if i <= |s.h.accepted| then 2 + |s.h.accepted| - i else 2
    case OuterTest => 3 + |s.h.accepted|
    case LockPop => 5 + |s.h.accepted|
    case Pop => 4 + |s.h.accepted|
    case InnerTest => 6 + |s.h.accepted|
    case SizeTest => 7 + |s.h.accepted|
    case Print => 7 + |s.h.accepted|
    case UnlockPop => 8 + |s.h.accepted|
    case Fault => 0
  }

  /** What is left for both threads once the flag is cleared. */
  function Remaining(s: State): nat {
    5 * |s.mesQ| + MainRank(s) + if s.receiverPc == Exited then 0 else 1
  }

  ghost predicate Ending(s: State) {
    QuitInv(s) && SelectSet(s) && LockInv(s) && !s.isWorking
  }

  lemma {:induction false} RemainingMain(s: State)
    requires Ending(s)
    ensures var s' := MainStep(s);
            if s.mainPc == Closed || (s.mainPc == Join && s.receiverPc != Exited) then s' == s
            else Remaining(s') < Remaining(s)
  {
  }

  lemma {:induction false} RemainingReceiver(s: State, input: Input)
    requires Ending(s)
    ensures var s' := ReceiverStep(s, input);
            if s.receiverPc == Exited then s' == s
            else s' == s.(receiverPc := Exited) && Remaining(s') < Remaining(s)
  {
  }

  lemma {:induction false} EndingStep(s: State, act: Action)
    requires Ending(s)
    ensures var s' := Step(s, act);
            Ending(s') && Remaining(s') <= Remaining(s) && (Remaining(s') == Remaining(s) ==> s' == s)
  {
    LockStep(s, act);
    SelectSetStep(s, act);
    if act.Main? {
      QuitMain(s);
      RemainingMain(s);
      MainLeaves(s);
    } else {
      QuitReceiver(s, act.input);
      RemainingReceiver(s, act.input);
    }
  }

  lemma {:induction false} EndingAfter(s: State, schedule: seq<Action>)
    requires Ending(s)
    ensures var s' := After(s, schedule);
            Ending(s') && Remaining(s') <= Remaining(s) && (Remaining(s') == Remaining(s) ==> s' == s)
  {
    if schedule != [] {
      var front := schedule[..|schedule| - 1];
      EndingAfter(s, front);
      EndingStep(After(s, front), schedule[|schedule| - 1]);
    }
  }

  /** A round gives each thread at least one turn. */
  ghost predicate FairRound(round: seq<Action>) {
    Main in round && exists i :: 0 <= i < |round| && round[i].Receiver?
  }

  lemma {:induction false} AfterConcat(s: State, a: seq<Action>, b: seq<Action>)
    ensures After(s, a + b) == After(After(s, a), b)
  {
    if b == [] {
      assert a + b == a;
    } else {
      var front := b[..|b| - 1];
      assert (a + b)[..|a + b| - 1] == a + front;
      AfterConcat(s, a, front);
    }
  }

  lemma {:induction false} One(s: State, act: Action)
    ensures After(s, [act]) == Step(s, act)
  {
    assert [act][..0] == [];
    assert After(s, []) == s;
  }

  lemma {:induction false} AfterSplit(s: State, round: seq<Action>, i: nat)
    requires i < |round|
    ensures After(s, round) == After(Step(After(s, round[..i]), round[i]), round[i + 1..])
  {
    assert round == round[..i] + [round[i]] + round[i + 1..];
    AfterConcat(s, round[..i] + [round[i]], round[i + 1..]);
    AfterConcat(s, round[..i], [round[i]]);
    One(After(s, round[..i]), round[i]);
  }

  lemma {:induction false} RoundProgress(s: State, round: seq<Action>)
    requires Ending(s) && FairRound(round) && s.mainPc != Closed
    ensures Remaining(After(s, round)) < Remaining(s)
  {
    var receiver := s.receiverPc != Exited;
    var i :| 0 <= i < |round| && if receiver then round[i].Receiver? else round[i] == Main;
    AfterSplit(s, round, i);
    EndingAfter(s, round[..i]);
    var t := After(s, round[..i]);
    EndingStep(t, round[i]);
    if t == s {
      if receiver {
        RemainingReceiver(s, round[i].input);
      } else {
        RemainingMain(s);
      }
    }
    EndingAfter(Step(t, round[i]), round[i + 1..]);
  }

  function AfterRounds(s: State, rounds: seq<seq<Action>>): State {
    if rounds == [] then s
    else After(AfterRounds(s, rounds[..|rounds| - 1]), rounds[|rounds| - 1])
  }

  lemma {:induction false} ClosedStays(s: State, schedule: seq<Action>)
    requires s.mainPc == Closed && s.receiverPc == Exited
    ensures After(s, schedule) == s
  {
    if schedule != [] {
      ClosedStays(s, schedule[..|schedule| - 1]);
    }
  }

  lemma {:induction false} RoundsProgress(s: State, rounds: seq<seq<Action>>)
    requires Ending(s) && forall r :: r in rounds ==> FairRound(r)
    ensures var t := AfterRounds(s, rounds);
            Ending(t) && (t.mainPc == Closed || Remaining(t) + |rounds| <= Remaining(s))
  {
    if rounds != [] {
      var front, last := rounds[..|rounds| - 1], rounds[|rounds| - 1];
      assert last in rounds && forall r :: r in front ==> r in rounds;
      RoundsProgress(s, front);
      var t := AfterRounds(s, front);
      EndingAfter(t, last);
      if t.mainPc == Closed {
        ClosedStays(t, last);
      } else {
        RoundProgress(t, last);
      }
    }
  }

  lemma {:induction false} EndingReached(s0: State, schedule: seq<Action>)
    requires Initial(s0) && !After(s0, schedule).isWorking
    ensures Ending(After(s0, schedule))
  {
    AlwaysQuit(s0, schedule);
    AlwaysSelectSet(s0, schedule);
    AlwaysLock(s0, schedule);
  }

  /** Both threads finish: from any reachable state in which the flag is cleared, enough fair rounds bring
      the receiver to its exit and the main thread past the join, with the Quits sent. */
  lemma {:induction false} BothThreadsFinish(s0: State, schedule: seq<Action>, rounds: seq<seq<Action>>)
    requires Initial(s0) && !After(s0, schedule).isWorking
    requires forall r :: r in rounds ==> FairRound(r)
    requires |rounds| > Remaining(After(s0, schedule))
    ensures var t := AfterRounds(After(s0, schedule), rounds);
            t.mainPc == Closed && t.receiverPc == Exited && t.h.quits == t.h.accepted
  {
    EndingReached(s0, schedule);
    RoundsProgress(After(s0, schedule), rounds);
    var t := AfterRounds(After(s0, schedule), rounds);
    assert t.h.accepted[..|t.h.accepted|] == t.h.accepted;
  }

  // ---------- fd_client can be overrun, and exactly when ----------

  predicate LateKnockPending(s: State) {
    && (s.receiverPc == Test || s.receiverPc == Accept) && s.s >= 0
    && s.fdMaster in s.readFDs && |s.h.accepted| == C_MAX
  }

  /** late counts the rounds in which the listening socket is ready although fd_client is full. */
  ghost predicate KnockInv(s: State) {
    && (s.h.late > 0 <==> s.receiverPc == Overrun || LateKnockPending(s))
    && (s.receiverPc == Accept ==> s.s >= 0 && s.fdMaster in s.readFDs)
    && (s.receiverPc == Overrun ==> |s.h.accepted| == C_MAX)
    && |s.h.accepted| + s.h.late + (if KnockPending(s) && s.h.late == 0 then 1 else 0) <= s.h.knocks
  }

  predicate KnockPending(s: State) {
    (s.receiverPc == Test || s.receiverPc == Accept) && s.s >= 0 && s.fdMaster in s.readFDs
  }

  lemma {:induction false} KnockQuiet(s: State, input: Input)
    requires KnockInv(s) && s.receiverPc != Select && s.receiverPc != Test && s.receiverPc != Accept
    ensures KnockInv(ReceiverStep(s, input))
  {
  }

  lemma {:induction false} KnockStep(s: State, input: Input)
    requires SelectSet(s) && KnockInv(s)
    ensures KnockInv(ReceiverStep(s, input))
  {
    if s.receiverPc != Select && s.receiverPc != Test && s.receiverPc != Accept {
      KnockQuiet(s, input);
    }
  }

  lemma {:induction false} KnockMain(s: State)
    requires KnockInv(s)
    ensures KnockInv(MainStep(s))
  {
  }

  lemma {:induction false} AlwaysKnock(s0: State, schedule: seq<Action>)
    requires Initial(s0)
    ensures KnockInv(After(s0, schedule))
  {
    if schedule != [] {
      var front, act := schedule[..|schedule| - 1], schedule[|schedule| - 1];
      AlwaysKnock(s0, front);
      AlwaysSelectSet(s0, front);
      if act.Main? {
        KnockMain(After(s0, front));
      } else {
        KnockStep(After(s0, front), act.input);
      }
    }
  }

  predicate AtFullAccept(s: State) {
    s.receiverPc == Accept && s.cnt >= |s.fdClient|
  }

  lemma {:induction false} OneTurn(s: State, b: Input)
    ensures ReceiverStep(s, b).receiverPc == Overrun <==> s.receiverPc == Overrun || AtFullAccept(s)
  {
  }

  /** A late knock is noticed by the very next turn. */
  lemma {:induction false} Approach(s: State, a: Input)
    requires SelectSet(s)
    requires s.receiverPc == Accept ==> s.s >= 0 && s.fdMaster in s.readFDs
    ensures var s1 := ReceiverStep(s, a);
            (s1.receiverPc == Overrun || AtFullAccept(s1)) <==> (s.receiverPc == Overrun || LateKnockPending(s))
  {
    assert s.cnt == |s.h.accepted|;
  }

  /** fd_client is written past its end exactly if the listening socket becomes ready again after C_MAX
      clients have been accepted: such a round leads there whatever the kernel answers, nothing else does,
      and no run in which the listening socket is ready at most C_MAX times does. */
  lemma {:induction false} OverrunExactly(s0: State, schedule: seq<Action>, a: Input, b: Input)
    requires Initial(s0)
    ensures var s := After(s0, schedule);
            && (s.h.late > 0 <==> ReceiverStep(ReceiverStep(s, a), b).receiverPc == Overrun)
            && (s.receiverPc == Overrun ==> s.h.late > 0)
            && (s.h.knocks <= C_MAX ==> s.h.late == 0)
  {
    AlwaysKnock(s0, schedule);
    AlwaysSelectSet(s0, schedule);
    var s := After(s0, schedule);
    Approach(s, a);
    OneTurn(ReceiverStep(s, a), b);
  }

  /** Four turns of the receiver on the same answers. */
  function FourTurns(s: State, input: Input): State {
    ReceiverStep(ReceiverStep(ReceiverStep(ReceiverStep(s, input), input), input), input)
  }

  /** A client connects while nobody else is ready. */
  function Connects(s: State, fd: int): State {
    FourTurns(s, Input({s.fdMaster}, false, fd, ""))
  }

  lemma {:induction false} OneConnects(s: State, fd: int)
    requires SelectSet(s) && s.receiverPc == ReceiverPc.LoopTest && s.isWorking && s.fdMax < fd
    ensures var s' := Connects(s, fd);
            if s.cnt == C_MAX then s'.receiverPc == Overrun
            else
              && SelectSet(s') && s'.receiverPc == ReceiverPc.LoopTest && s'.isWorking
              && s'.fdMaster == s.fdMaster && s'.activeFDs == s.activeFDs + {fd}
              && s'.fdMax == fd && s'.cnt == s.cnt + 1
  {
    var input := Input({s.fdMaster}, false, fd, "");
    var s1 := ReceiverStep(s, input);
    assert {s.fdMaster} <= s1.activeFDs;
    KnockIsHeard(s1, input);
    AcceptKeeps(ReceiverStep(ReceiverStep(s1, input), input), input);
  }

  lemma {:induction false} KnockIsHeard(s: State, input: Input)
    requires s.receiverPc == Select && !input.fails && input.ready == {s.fdMaster} <= s.activeFDs
    ensures var s' := ReceiverStep(ReceiverStep(s, input), input);
            s'.receiverPc == Accept && SameSockets(s, s') && s'.isWorking == s.isWorking
  {
  }

  /** It does happen: four clients connect one after the other and get ever higher descriptors. */
  lemma {:induction false} FourthClientOverruns(s0: State, a: int, b: int, c: int, d: int)
    requires Initial(s0) && s0.fdMaster < a < b < c < d
    ensures Connects(Connects(Connects(Connects(s0, a), b), c), d).receiverPc == Overrun
  {
    var s1 := Connects(s0, a);
    OneConnects(s0, a);
    var s2 := Connects(s1, b);
    OneConnects(s1, b);
    var s3 := Connects(s2, c);
    OneConnects(s2, c);
    OneConnects(s3, d);
  }

  /** And so does the other end: two clients that are ready at the same time shut the server down. */
  lemma {:induction false} TwoReadyStop(s0: State, a: int, b: int)
    requires Initial(s0) && s0.fdMaster < a < b
    ensures !FourTurns(Connects(Connects(s0, a), b), Input({a, b}, false, 0, "")).isWorking
  {
    var s1 := Connects(s0, a);
    OneConnects(s0, a);
    var s2 := Connects(s1, b);
    OneConnects(s1, b);
    BothReady(s2, a, b);
  }

  lemma {:induction false} BothReady(s: State, a: int, b: int)
    requires s.receiverPc == ReceiverPc.LoopTest && s.isWorking && s.fdMaster !in {a, b}
    requires a in s.activeFDs && b in s.activeFDs && a != b
    ensures !FourTurns(s, Input({a, b}, false, 0, "")).isWorking
  {
    var input := Input({a, b}, false, 0, "");
    ClearsExactly(ReceiverStep(s, input), input, input, input);
  }
}
