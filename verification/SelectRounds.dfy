/** One round of the receiver as a whole: what an iteration of its loop (Labs/Lab 9/server.cpp:55-118) makes of the
    kernel's answers, whatever the main thread does meanwhile. */
module SelectRounds {
  import opened SelectServer
  import opened SelectSafety

  // ---------- The receiver's side of the state ----------

  /** The state without what belongs to the main thread. */
  function Side(s: State): State {
    s.(mesQ := [], mutex := if s.mutex == HeldByReceiver then HeldByReceiver else Free,
       mainPc := OuterTest, received := Entry(0, ""), h := s.h.(printed := [], quits := []))
  }

  predicate ReceiverBlocked(s: State) {
    s.receiverPc.LockPush? && s.mutex != Free
  }

  /** The receiver by itself, with the answers it is given. */
  function Alone(s: State, inputs: seq<Input>): State {
    if inputs == [] then Side(s)
    else Side(ReceiverStep(Alone(s, inputs[..|inputs| - 1]), inputs[|inputs| - 1]))
  }

  /** The answers of the receiver's turns that were not wasted on a mutex that is taken. */
  function Inputs(s: State, schedule: seq<Action>): seq<Input> {
    if schedule == [] then []
    else
      var front, act := schedule[..|schedule| - 1], schedule[|schedule| - 1];
      Inputs(s, front) + if act.Receiver? && !ReceiverBlocked(After(s, front)) then [act.input] else []
  }

  lemma {:induction false} SideReceiver(s: State, input: Input)
    ensures Side(ReceiverStep(s, input)) == if ReceiverBlocked(s) then Side(s) else Side(ReceiverStep(Side(s), input))
  {
    match s.receiverPc
    case Select => SideSelect(s, input);
    case Accept => SideAccept(s, input);
    case Recv(i) => SideRecv(s, i, input);
    case Push(_) => SidePush(s, input);
    case Scan(i) => SideScan(s, i);
    case _ =>
  }

  lemma {:induction false} SideRecv(s: State, i: nat, input: Input)
    ensures Side(RecvStep(s, i, input)) == Side(RecvStep(Side(s), i, input))
  {
  }

  lemma {:induction false} SidePush(s: State, input: Input)
    requires s.receiverPc.Push?
    ensures Side(ReceiverStep(s, input)) == Side(ReceiverStep(Side(s), input))
  {
  }

  lemma {:induction false} SideScan(s: State, i: nat)
    ensures Side(ScanStep(s, i)) == Side(ScanStep(Side(s), i))
  {
  }

  lemma {:induction false} SideSelect(s: State, input: Input)
    ensures Side(SelectStep(s, input)) == Side(SelectStep(Side(s), input))
  {
  }

  lemma {:induction false} SideAccept(s: State, input: Input)
    ensures Side(AcceptStep(s, input)) == Side(AcceptStep(Side(s), input))
  {
  }

  lemma {:induction false} SideMain(s: State)
    requires LockInv(s)
    ensures Side(MainStep(s)) == Side(s)
  {
  }

  /** The main thread does not interfere: the receiver's side of the state, after any interleaving, is what the
      receiver makes by itself of the answers of its own unblocked turns. */
  lemma {:induction false} Independent(s: State, schedule: seq<Action>)
    requires LockInv(s)
    ensures LockInv(After(s, schedule)) && Side(After(s, schedule)) == Alone(s, Inputs(s, schedule))
  {
    if schedule != [] {
      hide LockInv, Side, Step, Alone;
      var front, act := schedule[..|schedule| - 1], schedule[|schedule| - 1];
      Independent(s, front);
      LockStep(After(s, front), act);
      OneTurn(s, Inputs(s, front), After(s, front), act);
    }
  }

  lemma {:induction false} OneTurn(s: State, inputs: seq<Input>, t: State, act: Action)
    requires LockInv(t) && Side(t) == Alone(s, inputs)
    ensures Side(Step(t, act)) ==
            Alone(s, inputs + if act.Receiver? && !ReceiverBlocked(t) then [act.input] else [])
  {
    hide LockInv, Side, Alone, ReceiverStep, MainStep;
    assert inputs + [] == inputs;
    match act
    case Main => SideMain(t);
    case Receiver(input) =>
      SideReceiver(t, input);
      AloneMore(s, inputs, input);
  }

  lemma {:induction false} AloneMore(s: State, inputs: seq<Input>, input: Input)
    ensures Alone(s, inputs + [input]) == Side(ReceiverStep(Alone(s, inputs), input))
  {
    assert (inputs + [input])[..|inputs|] == inputs;
  }

  lemma {:induction false} AloneSide(s: State, inputs: seq<Input>)
    ensures Side(Alone(s, inputs)) == Alone(s, inputs)
  {
  }

  lemma {:induction false} AloneConcat(s: State, a: seq<Input>, b: seq<Input>)
    ensures Alone(s, a + b) == Alone(Alone(s, a), b)
  {
    if b == [] {
      AloneSide(s, a);
      assert a + b == a;
    } else {
      var front := b[..|b| - 1];
      assert (a + b)[..|a + b| - 1] == a + front;
      AloneConcat(s, a, front);
    }
  }

  // ---------- One iteration of the loop ----------

  /** How many turns an iteration takes, by the answer of select. */
  function RoundTurns(s: State, answer: Input): nat {
    if answer.fails then 3
    else if s.fdMaster !in answer.ready && |answer.ready| == 1 then s.cnt + 8
    else 4
  }

  ghost predicate AtHead(s: State) {
    s.receiverPc == LoopTest && s.isWorking && SelectSet(s) && s.mutex != HeldByReceiver
  }

  /** The kernel's answers are possible ones: select's is a subset of what it was asked about, and accept's is a new
      descriptor. */
  ghost predicate Possible(s: State, inputs: seq<Input>) {
    && |inputs| >= 3 && |inputs| == RoundTurns(s, inputs[1])
    && (inputs[1].fails || inputs[1].ready <= s.activeFDs)
    && (!inputs[1].fails && s.fdMaster in inputs[1].ready ==>
          s.cnt < C_MAX && (inputs[3].fails || (inputs[3].fd >= 0 && inputs[3].fd !in s.activeFDs)))
  }

  /** After select, with the flag as it was. */
  function Selected(s: State, answer: Input): State {
    Side(s).(readFDs := answer.ready, s := |answer.ready|)
  }

  function Accepted(u: State, answer: Input): State
    requires u.cnt < |u.fdClient|
  {
    var v := u.(h := u.h.(knocks := u.h.knocks + 1));
    if answer.fails then v.(fdClient := v.fdClient[v.cnt := -1])
    else v.(fdClient := v.fdClient[v.cnt := answer.fd], activeFDs := v.activeFDs + {answer.fd},
            fdMax := if answer.fd > v.fdMax then answer.fd else v.fdMax, cnt := v.cnt + 1,
            h := v.h.(accepted := v.h.accepted + [answer.fd]))
  }

  function Pushed(u: State, e: Entry): State {
    u.(message := e, h := u.h.(chunks := u.h.chunks + [e], pushed := u.h.pushed + [e],
                               roundPushes := 1, rounds := u.h.rounds + 1))
  }

  function Heard(client: nat, answer: Input): Entry {
    Entry(client, if answer.fails then "" else answer.text)
  }

  /** s' is what one iteration makes of s: nothing on an error of select; one accept if the listener is ready; one
      text of the one ready client read and pushed; and otherwise the flag cleared. */
  ghost predicate Round(s: State, inputs: seq<Input>, s': State)
    requires Possible(s, inputs)
  {
    var answer := inputs[1];
    if answer.fails then s' == Side(s).(readFDs := s.activeFDs, s := -1)
    else if s.fdMaster in answer.ready then s.cnt < |s.fdClient| && s' == Accepted(Selected(s, answer), inputs[3])
    else if |answer.ready| == 1 then
      exists j: nat :: j < s.cnt <= |s.fdClient| && answer.ready == {s.fdClient[j]}
                       && s' == Pushed(Selected(s, answer), Heard(j, inputs[j + 4]))
    else s' == Selected(s, answer).(isWorking := false)
  }

  lemma {:induction false} FirstThree(s: State, inputs: seq<Input>)
    requires AtHead(s) && Possible(s, inputs)
    ensures var answer := inputs[1];
            var t := Alone(s, inputs[..3]);
            if answer.fails then t == Side(s).(readFDs := s.activeFDs, s := -1)
            else if s.fdMaster in answer.ready then
              t == Selected(s, answer).(receiverPc := Accept, h := Side(s).h.(knocks := s.h.knocks + 1))
            else if |answer.ready| == 1 then
              t == Selected(s, answer).(receiverPc := Scan(0), h := Side(s).h.(roundPushes := 0))
            else t == Selected(s, answer).(receiverPc := Clear)
  {
    var a, b, c := inputs[..1], inputs[..2], inputs[..3];
    assert c[..2] == b && b[..1] == a && a[..0] == [];
    assert Alone(s, []) == Side(s);
    assert Alone(s, a) == Side(s).(receiverPc := Select);
    assert |s.h.accepted| == s.cnt by {
      assert s.fdClient[..s.cnt] == s.h.accepted;
    }
    SelectTurn(Side(s).(receiverPc := Select), inputs[1]);
  }

  lemma {:induction false} SelectTurn(s: State, answer: Input)
    requires s == Side(s) && s.receiverPc == Select && (answer.fails || answer.ready <= s.activeFDs)
    requires !answer.fails && s.fdMaster in answer.ready ==> |s.h.accepted| < C_MAX
    ensures var t := Side(ReceiverStep(s, answer));
            && t.receiverPc == Test
            && (answer.fails ==> t == s.(readFDs := s.activeFDs, s := -1, receiverPc := Test))
            && (!answer.fails ==> t == s.(readFDs := answer.ready, s := |answer.ready|, receiverPc := Test, h := t.h))
            && (!answer.fails && s.fdMaster in answer.ready ==> t.h == s.h.(knocks := s.h.knocks + 1))
            && (!answer.fails && s.fdMaster !in answer.ready ==> t.h == s.h)
  {
  }

  lemma {:induction false} ScansOn(s: State, inputs: seq<Input>)
    requires s == Side(s) && s.receiverPc.Scan? && s.receiverPc.i + |inputs| <= s.cnt <= |s.fdClient|
    requires forall k :: s.receiverPc.i <= k < s.receiverPc.i + |inputs| ==> s.fdClient[k] !in s.readFDs
    ensures Alone(s, inputs) == s.(receiverPc := Scan(s.receiverPc.i + |inputs|))
  {
    hide ReceiverStep, Alone, Side;
    if inputs == [] {
      AloneNone(s);
    } else {
      var front, n := inputs[..|inputs| - 1], s.receiverPc.i + |inputs| - 1;
      assert inputs == front + [inputs[|inputs| - 1]];
      ScansOn(s, front);
      AloneMore(s, front, inputs[|inputs| - 1]);
      ScanMisses(s, n, inputs[|inputs| - 1]);
    }
  }

  lemma {:induction false} AloneNone(s: State)
    requires s == Side(s) && s.receiverPc.Scan?
    ensures Alone(s, []) == s.(receiverPc := Scan(s.receiverPc.i))
  {
  }

  lemma {:induction false} ScanMisses(s: State, n: nat, input: Input)
    requires s == Side(s) && n < s.cnt <= |s.fdClient| && s.fdClient[n] !in s.readFDs
    ensures Side(ReceiverStep(s.(receiverPc := Scan(n)), input)) == s.(receiverPc := Scan(n + 1))
  {
  }

  lemma {:induction false} TwoTurns(s: State, a: Input, b: Input)
    ensures Alone(s, [a, b]) == Side(ReceiverStep(Side(ReceiverStep(Side(s), a)), b))
  {
    assert [a, b] == [a] + [b] && [a] == [] + [a];
    AloneMore(s, [a], b);
    AloneMore(s, [], a);
  }

  lemma {:induction false} Receives(s: State, a: Input, b: Input)
    requires s == Side(s) && s.receiverPc.Scan? && s.receiverPc.i < s.cnt <= |s.fdClient|
    requires s.fdClient[s.receiverPc.i] in s.readFDs
    ensures var j, e := s.receiverPc.i, Heard(s.receiverPc.i, b);
            Alone(s, [a, b]) ==
            s.(message := e, h := s.h.(chunks := s.h.chunks + [e]), receiverPc := LockPush(j))
  {
    TwoTurns(s, a, b);
  }

  lemma {:induction false} Pushes(s: State, a: Input, b: Input)
    requires s == Side(s) && s.receiverPc.LockPush? && s.mutex == Free
    ensures Alone(s, [a, b]) ==
            s.(h := s.h.(pushed := s.h.pushed + [s.message], roundPushes := s.h.roundPushes + 1),
               mutex := HeldByReceiver, receiverPc := UnlockPush(s.receiverPc.i))
  {
    TwoTurns(s, a, b);
  }

  lemma {:induction false} Unlocks(s: State, a: Input)
    requires s == Side(s) && s.receiverPc.UnlockPush?
    ensures Alone(s, [a]) == s.(mutex := Free, receiverPc := Scan(s.receiverPc.i + 1))
  {
    assert [a][..0] == [];
  }

  /** From a match in the scan to the next place: receive, lock, push, unlock. */
  lemma {:induction false} ReadsOne(s: State, inputs: seq<Input>)
    requires s == Side(s) && s.receiverPc.Scan? && s.receiverPc.i < s.cnt <= |s.fdClient| && s.mutex == Free
    requires s.fdClient[s.receiverPc.i] in s.readFDs && |inputs| == 5
    ensures var j, e := s.receiverPc.i, Heard(s.receiverPc.i, inputs[1]);
            Alone(s, inputs) ==
            s.(receiverPc := Scan(j + 1), message := e,
               h := s.h.(chunks := s.h.chunks + [e], pushed := s.h.pushed + [e], roundPushes := s.h.roundPushes + 1))
  {
    hide ReceiverStep, Alone;
    var a, b, c := [inputs[0], inputs[1]], [inputs[2], inputs[3]], [inputs[4]];
    assert inputs == a + b + c;
    Receives(s, inputs[0], inputs[1]);
    AloneSide(s, a);
    Pushes(Alone(s, a), inputs[2], inputs[3]);
    AloneSide(Alone(s, a), b);
    Unlocks(Alone(Alone(s, a), b), inputs[4]);
    AloneConcat(s, a, b);
    AloneConcat(s, a + b, c);
  }

  lemma {:induction false} ReadRound(s: State, inputs: seq<Input>, j: nat)
    requires s == Side(s) && s.receiverPc == Scan(0) && SelectSet(s) && s.mutex == Free && s.h.roundPushes == 0
    requires j < s.cnt && s.readFDs == {s.fdClient[j]} && |inputs| == s.cnt + 5
    ensures Alone(s, inputs) == Pushed(s.(receiverPc := LoopTest), Heard(j, inputs[j + 1]))
  {
    var a, b := inputs[..j], inputs[j..];
    assert inputs == a + b;
    OnlyJ(s, j);
    hide ReceiverStep, Alone, SelectSet;
    ScansOn(s, a);
    ReadsFrom(s.(receiverPc := Scan(j)), b);
    AloneConcat(s, a, b);
  }

  /** From the match to the end of the iteration. */
  lemma {:induction false} ReadsFrom(s: State, inputs: seq<Input>)
    requires s == Side(s) && s.receiverPc.Scan? && s.receiverPc.i < s.cnt <= |s.fdClient| && s.mutex == Free
    requires s.fdClient[s.receiverPc.i] in s.readFDs && s.h.roundPushes == 0
    requires forall k :: s.receiverPc.i < k < s.cnt ==> s.fdClient[k] !in s.readFDs
    requires |inputs| == s.cnt - s.receiverPc.i + 5
    ensures Alone(s, inputs) == Pushed(s.(receiverPc := LoopTest), Heard(s.receiverPc.i, inputs[1]))
  {
    var a, b := inputs[..5], inputs[5..];
    assert inputs == a + b;
    hide ReceiverStep, Alone;
    ReadsOne(s, a);
    AloneSide(s, a);
    ScansOut(Alone(s, a), b);
    AloneConcat(s, a, b);
  }

  lemma {:induction false} ScansOut(s: State, inputs: seq<Input>)
    requires s == Side(s) && s.receiverPc.Scan? && s.receiverPc.i <= s.cnt <= |s.fdClient|
    requires forall k :: s.receiverPc.i <= k < s.cnt ==> s.fdClient[k] !in s.readFDs
    requires |inputs| == s.cnt - s.receiverPc.i + 1
    ensures Alone(s, inputs) == s.(receiverPc := LoopTest, h := s.h.(rounds := s.h.rounds + 1))
  {
    var a, b := inputs[..|inputs| - 1], inputs[|inputs| - 1..];
    assert inputs == a + b;
    hide ReceiverStep, Alone;
    ScansOn(s, a);
    LastScan(s.(receiverPc := Scan(s.cnt)), b);
    AloneConcat(s, a, b);
  }

  lemma {:induction false} OnlyJ(s: State, j: nat)
    requires SelectSet(s) && j < s.cnt && s.readFDs == {s.fdClient[j]}
    ensures forall k :: 0 <= k < s.cnt && k != j ==> s.fdClient[k] !in s.readFDs
  {
    forall k | 0 <= k < s.cnt && k != j ensures s.fdClient[k] !in s.readFDs {
      assert s.fdClient[k] == s.h.accepted[k] && s.fdClient[j] == s.h.accepted[j];
    }
  }

  lemma {:induction false} LastScan(s: State, inputs: seq<Input>)
    requires s == Side(s) && s.receiverPc == Scan(s.cnt) && |inputs| == 1
    ensures Alone(s, inputs) == s.(receiverPc := LoopTest, h := s.h.(rounds := s.h.rounds + 1))
  {
    assert inputs[..0] == [];
  }

  lemma {:induction false} RoundAlone(s: State, inputs: seq<Input>)
    requires AtHead(s) && Possible(s, inputs)
    ensures Round(s, inputs, Alone(s, inputs))
  {
    hide ReceiverStep, Alone, Side, SelectSet, AtHead;
    var answer := inputs[1];
    FirstThree(s, inputs);
    var t, rest := Alone(s, inputs[..3]), inputs[3..];
    assert inputs == inputs[..3] + rest;
    AloneConcat(s, inputs[..3], rest);
    AloneSide(s, inputs[..3]);
    if answer.fails {
      assert inputs[..3] == inputs;
    } else if s.fdMaster in answer.ready {
      LastAccepts(s, inputs, t);
    } else if |answer.ready| == 1 {
      LastReads(s, inputs, t);
    } else {
      LastClears(s, inputs, t);
    }
  }

  lemma {:induction false} LastAccepts(s: State, inputs: seq<Input>, t: State)
    requires AtHead(s) && Possible(s, inputs) && !inputs[1].fails && s.fdMaster in inputs[1].ready
    requires t == Side(t) == Selected(s, inputs[1]).(receiverPc := Accept, h := Side(s).h.(knocks := s.h.knocks + 1))
    ensures s.cnt < |s.fdClient| && Alone(t, inputs[3..]) == Accepted(Selected(s, inputs[1]), inputs[3])
  {
    assert inputs[3..] == [] + [inputs[3]];
    AloneMore(t, [], inputs[3]);
  }

  lemma {:induction false} LastClears(s: State, inputs: seq<Input>, t: State)
    requires AtHead(s) && Possible(s, inputs) && |inputs| == 4
    requires t == Side(t) == Selected(s, inputs[1]).(receiverPc := Clear)
    ensures Alone(t, inputs[3..]) == Selected(s, inputs[1]).(isWorking := false)
  {
    assert inputs[3..] == [] + [inputs[3]];
    AloneMore(t, [], inputs[3]);
  }

  lemma {:induction false} LastReads(s: State, inputs: seq<Input>, t: State)
    requires AtHead(s) && Possible(s, inputs) && !inputs[1].fails
    requires s.fdMaster !in inputs[1].ready && |inputs[1].ready| == 1
    requires t == Side(t) == Selected(s, inputs[1]).(receiverPc := Scan(0), h := Side(s).h.(roundPushes := 0))
    ensures Round(s, inputs, Alone(t, inputs[3..]))
  {
    hide ReceiverStep, Alone;
    var j := OneReady(t);
    ReadRound(t, inputs[3..], j);
    assert inputs[3..][j + 1] == inputs[j + 4];
  }

  /** In every run, from any moment at which the receiver is at the head of its loop: when it has had the turns of one
      iteration, not counting those lost on the mutex, its side of the state is exactly what one undivided round
      makes of the kernel's answers. */
  lemma {:induction false} RoundExactly(s0: State, schedule: seq<Action>, rest: seq<Action>)
    requires Initial(s0)
    requires var s := After(s0, schedule); s.receiverPc == LoopTest && s.isWorking && Possible(s, Inputs(s, rest))
    ensures var s := After(s0, schedule);
            Round(s, Inputs(s, rest), Side(After(s, rest)))
  {
    var s := After(s0, schedule);
    AlwaysLock(s0, schedule);
    AlwaysSelectSet(s0, schedule);
    Independent(s, rest);
    RoundAlone(s, Inputs(s, rest));
  }

  // ---------- What blocks a step ----------

  /** A turn changes nothing exactly if the thread is over, waits for the mutex while it is taken or, in the join, for
      the other thread; or if the kernel is given an answer it cannot give. */
  lemma {:induction false} BlockedExactly(s: State, input: Input)
    requires LockInv(s) && SelectSet(s)
    ensures MainStep(s) == s <==>
            || (s.mainPc == LockPop && s.mutex != Free) || (s.mainPc == Join && s.receiverPc != Exited)
            || s.mainPc == Closed
    ensures ReceiverStep(s, input) == s <==>
            || ReceiverBlocked(s) || s.receiverPc == Exited || s.receiverPc == Overrun
            || (s.receiverPc == Select && !input.fails && !(input.ready <= s.activeFDs))
            || (s.receiverPc == Accept && s.cnt < C_MAX && !input.fails && (input.fd < 0 || input.fd in s.activeFDs))
  {
  }

  // ---------- How often the listener is ready ----------

  /** The answers of select in which the listener is ready. */
  function Knocks(s0: State, schedule: seq<Action>): nat {
    if schedule == [] then 0
    else
      var front, act := schedule[..|schedule| - 1], schedule[|schedule| - 1];
      var s := After(s0, front);
      Knocks(s0, front) +
      if act.Receiver? && s.receiverPc == Select && !act.input.fails && act.input.ready <= s.activeFDs
         && s0.fdMaster in act.input.ready then 1 else 0
  }

  lemma {:induction false} KnocksExactly(s0: State, schedule: seq<Action>)
    requires Initial(s0)
    ensures var s := After(s0, schedule);
            s.fdMaster == s0.fdMaster && s.h.knocks == Knocks(s0, schedule)
  {
    if schedule != [] {
      var front, act := schedule[..|schedule| - 1], schedule[|schedule| - 1];
      KnocksExactly(s0, front);
      KnockStep(After(s0, front), act);
    }
  }

  lemma {:induction false} KnockStep(s: State, act: Action)
    ensures var s' := Step(s, act);
            && s'.fdMaster == s.fdMaster
            && s'.h.knocks == s.h.knocks +
               if act.Receiver? && s.receiverPc == Select && !act.input.fails && act.input.ready <= s.activeFDs
                  && s.fdMaster in act.input.ready then 1 else 0
  {
    match act
    case Main =>
    case Receiver(input) =>
      if s.receiverPc != Select {
        OtherKnocks(s, input);
      }
  }

  lemma {:induction false} OtherKnocks(s: State, input: Input)
    requires s.receiverPc != Select
    ensures ReceiverStep(s, input).h.knocks == s.h.knocks && ReceiverStep(s, input).fdMaster == s.fdMaster
  {
  }
}
