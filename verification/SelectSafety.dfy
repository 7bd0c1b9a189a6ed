/** What every interleaving of the select server keeps. */
module SelectSafety {
  import opened Sequences
  import opened SelectServer

  // ---------- The select set ----------

  ghost predicate Distinct(fds: seq<int>) {
    forall i, j :: 0 <= i < j < |fds| ==> fds[i] != fds[j]
  }

  /** activeFDs is the listening socket and the accepted clients, all different, and fdMax is its maximum. */
  ghost predicate SelectSet(s: State) {
    && |s.fdClient| == C_MAX && s.cnt <= C_MAX
    && s.fdClient[..s.cnt] == s.h.accepted
    && s.activeFDs == {s.fdMaster} + (set fd | fd in s.h.accepted)
    && s.fdMaster !in s.h.accepted
    && Distinct(s.h.accepted)
    && s.fdMax in s.activeFDs
    && forall fd :: fd in s.activeFDs ==> 0 <= fd <= s.fdMax
  }

  lemma {:induction false} AcceptKeeps(s: State, input: Input)
    requires SelectSet(s)
    ensures SelectSet(AcceptStep(s, input))
  {
    var s' := AcceptStep(s, input);
    if s'.h.accepted != s.h.accepted {
      assert s'.fdClient[..s'.cnt] == s.fdClient[..s.cnt] + [input.fd];
      assert (set fd | fd in s'.h.accepted) == (set fd | fd in s.h.accepted) + {input.fd};
    } else {
      assert s'.fdClient[..s'.cnt] == s.fdClient[..s.cnt];
    }
  }

  predicate SameSockets(s: State, t: State) {
    && t.fdMaster == s.fdMaster && t.activeFDs == s.activeFDs && t.fdClient == s.fdClient
    && t.cnt == s.cnt && t.fdMax == s.fdMax && t.h.accepted == s.h.accepted
  }

  /** Only an accept changes the sockets. */
  lemma {:induction false} OnlyAccept(s: State, act: Action)
    requires act.Receiver? ==> s.receiverPc != Accept
    ensures SameSockets(s, Step(s, act))
  {
  }

  lemma {:induction false} SelectSetStep(s: State, act: Action)
    requires SelectSet(s)
    ensures SelectSet(Step(s, act))
  {
    if act.Receiver? && s.receiverPc == Accept {
      AcceptKeeps(s, act.input);
    } else {
      OnlyAccept(s, act);
    }
  }

  /** In every reachable state the set passed to select is {fd_master} and the accepted clients, fd_client
      holds exactly these, without repetition, and select(fd_max + 1) watches all of them. */
  lemma {:induction false} AlwaysSelectSet(s0: State, schedule: seq<Action>)
    requires Initial(s0)
    ensures SelectSet(After(s0, schedule))
  {
    if schedule != [] {
      var front := schedule[..|schedule| - 1];
      AlwaysSelectSet(s0, front);
      SelectSetStep(After(s0, front), schedule[|schedule| - 1]);
    }
  }

  // ---------- The mutex and the queue ----------

  ghost predicate LockInv(s: State) {
    && (s.mutex == HeldByMain <==> s.mainPc == Pop || s.mainPc == UnlockPop)
    && (s.mutex == HeldByReceiver <==> s.receiverPc.Push? || s.receiverPc.UnlockPush?)
    && (s.mainPc == LockPop || s.mainPc == Pop ==> s.mesQ != [])
    && s.mainPc != Fault
  }

  lemma {:induction false} LockMain(s: State)
    requires LockInv(s)
    ensures LockInv(MainStep(s))
  {
  }

  lemma {:induction false} LockReceiver(s: State, input: Input)
    requires LockInv(s)
    ensures LockInv(ReceiverStep(s, input))
  {
    if !s.receiverPc.LockPush? && !s.receiverPc.Push? && !s.receiverPc.UnlockPush? {
      LocksNothing(s, input);
    }
  }

  lemma {:induction false} LocksNothing(s: State, input: Input)
    requires !s.receiverPc.LockPush? && !s.receiverPc.Push? && !s.receiverPc.UnlockPush?
    ensures var s' := ReceiverStep(s, input);
            && s'.mutex == s.mutex && s'.mesQ == s.mesQ && s'.mainPc == s.mainPc
            && !s'.receiverPc.Push? && !s'.receiverPc.UnlockPush?
  {
  }

  lemma {:induction false} LockStep(s: State, act: Action)
    requires LockInv(s)
    ensures LockInv(Step(s, act))
  {
    match act
    case Main => LockMain(s);
    case Receiver(input) => LockReceiver(s, input);
  }

  /** Mutual exclusion, and every front and pop finds a message. */
  lemma {:induction false} AlwaysLock(s0: State, schedule: seq<Action>)
    requires Initial(s0)
    ensures LockInv(After(s0, schedule))
  {
    if schedule != [] {
      var front := schedule[..|schedule| - 1];
      AlwaysLock(s0, front);
      LockStep(After(s0, front), schedule[|schedule| - 1]);
    }
  }

  function MainHand(s: State): seq<Entry> {
    if s.mainPc == UnlockPop || s.mainPc == Print then [s.received] else []
  }

  function ReceiverHand(s: State): seq<Entry> {
    if s.receiverPc.LockPush? || s.receiverPc.Push? then [s.message] else []
  }

  ghost predicate Conserved(s: State) {
    && s.h.pushed == s.h.printed + (MainHand(s) + s.mesQ)
    && s.h.chunks == s.h.pushed + ReceiverHand(s)
  }

  lemma {:induction false} ConservedMain(s: State)
    requires Conserved(s)
    ensures Conserved(MainStep(s))
  {
    if s.mainPc == Pop && s.mesQ != [] {
      assert s.mesQ == [s.mesQ[0]] + s.mesQ[1..];
    } else if s.mainPc == Print {
      assert s.h.printed + ([s.received] + s.mesQ) == (s.h.printed + [s.received]) + ([] + s.mesQ);
    } else {
      assert MainHand(MainStep(s)) == MainHand(s);
    }
  }

  lemma {:induction false} PushConserves(s: State, input: Input)
    requires Conserved(s) && s.receiverPc.Push?
    ensures Conserved(ReceiverStep(s, input))
  {
    assert s.h.printed + (MainHand(s) + s.mesQ) + [s.message] == s.h.printed + (MainHand(s) + (s.mesQ + [s.message]));
  }

  lemma {:induction false} ReceiverQuiet(s: State, input: Input)
    requires !s.receiverPc.Push? && !s.receiverPc.Recv?
    ensures var s' := ReceiverStep(s, input);
            && s'.h.pushed == s.h.pushed && s'.h.printed == s.h.printed && s'.h.chunks == s.h.chunks
            && s'.mesQ == s.mesQ && s'.mainPc == s.mainPc && s'.received == s.received
  {
  }

  lemma {:induction false} ReceiverHolds(s: State, input: Input)
    requires !s.receiverPc.Push? && !s.receiverPc.Recv?
    ensures ReceiverHand(ReceiverStep(s, input)) == ReceiverHand(s)
  {
  }

  lemma {:induction false} ConservedReceiver(s: State, input: Input)
    requires Conserved(s)
    ensures Conserved(ReceiverStep(s, input))
  {
    if s.receiverPc.Push? {
      PushConserves(s, input);
    } else if !s.receiverPc.Recv? {
      ReceiverQuiet(s, input);
      ReceiverHolds(s, input);
    }
  }

  lemma {:induction false} AlwaysConserved(s0: State, schedule: seq<Action>)
    requires Initial(s0)
    ensures Conserved(After(s0, schedule))
  {
    if schedule != [] {
      var front, act := schedule[..|schedule| - 1], schedule[|schedule| - 1];
      AlwaysConserved(s0, front);
      if act.Main? {
        ConservedMain(After(s0, front));
      } else {
        ConservedReceiver(After(s0, front), act.input);
      }
    }
  }

  function FromClient(c: nat): Entry -> bool { (e: Entry) => e.client == c }

  /** What is printed for a client is a prefix of what was read from it, in order. */
  lemma {:induction false} PrintedInOrder(s0: State, schedule: seq<Action>, c: nat)
    requires Initial(s0)
    ensures var s := After(s0, schedule);
            Filter(s.h.printed, FromClient(c)) <= Filter(s.h.chunks, FromClient(c))
  {
    AlwaysConserved(s0, schedule);
    var s := After(s0, schedule);
    assert s.h.printed <= s.h.chunks;
    FilterPrefix(s.h.printed, s.h.chunks, FromClient(c));
  }

  // ---------- One push per readable round ----------

  /** The one client the current round is about, once the listener is known not to be ready. */
  ghost predicate OnlyReady(s: State, j: nat) {
    j < s.cnt <= |s.fdClient| && s.readFDs == {s.fdClient[j]}
  }

  /** How far the scan of a readable round has come at pc, for the ready client j of cnt. */
  predicate ScanAt(pc: ReceiverPc, pushes: nat, cnt: nat, j: nat) {
    match pc
    case Scan(i) => i <= cnt && pushes == if i > j then 1 else 0
    case Recv(i) => i == j && pushes == 0
    case LockPush(i) => i == j && pushes == 0
    case Push(i) => i == j && pushes == 0
    case UnlockPush(i) => i == j && pushes == 1
    case _ => true
  }

  ghost predicate ScanInv(s: State, j: nat) {
    && OnlyReady(s, j) && ScanAt(s.receiverPc, s.h.roundPushes, s.cnt, j)
    && (s.receiverPc.LockPush? || s.receiverPc.Push? ==> s.message.client == j)
  }

  predicate Scanning(pc: ReceiverPc) {
    pc.Scan? || pc.Recv? || pc.LockPush? || pc.Push? || pc.UnlockPush?
  }

  ghost predicate RoundInv(s: State) {
    && (s.receiverPc == Test && s.s >= 0 ==> s.readFDs <= s.activeFDs && s.s == |s.readFDs|)
    && (Scanning(s.receiverPc) ==> exists j: nat :: ScanInv(s, j))
    && |s.h.pushed| == s.h.rounds + if Scanning(s.receiverPc) then s.h.roundPushes else 0
  }

  lemma {:induction false} OnlyElement<T>(elements: set<T>) returns (x: T)
    requires |elements| == 1
    ensures elements == {x}
  {
    x :| x in elements;
    assert |elements - {x}| == 0;
    assert elements == {x};
  }

  /** A ready set of one descriptor that is not the listener is exactly one accepted client. */
  lemma {:induction false} OneReady(s: State) returns (j: nat)
    requires SelectSet(s) && s.readFDs <= s.activeFDs && |s.readFDs| == 1 && s.fdMaster !in s.readFDs
    ensures OnlyReady(s, j)
  {
    var fd := OnlyElement(s.readFDs);
    assert fd in s.readFDs && fd in s.h.accepted;
    j :| 0 <= j < |s.h.accepted| && s.h.accepted[j] == fd;
    assert s.fdClient[j] == s.fdClient[..s.cnt][j];
  }

  lemma {:induction false} TestRound(s: State)
    requires SelectSet(s) && RoundInv(s) && s.receiverPc == Test
    ensures RoundInv(TestStep(s))
  {
    var s' := TestStep(s);
    if s'.receiverPc.Scan? {
      var j := OneReady(s);
      assert ScanInv(s', j);
    }
  }

  lemma {:induction false} ScanRound(s: State, input: Input, j: nat)
    requires SelectSet(s) && Scanning(s.receiverPc) && ScanInv(s, j)
    ensures var s' := ReceiverStep(s, input);
            if Scanning(s'.receiverPc) then ScanInv(s', j) else s.h.roundPushes == 1
  {
    if s.receiverPc.Scan? && s.receiverPc.i < s.cnt {
      var i := s.receiverPc.i;
      assert s.fdClient[i] == s.h.accepted[i] && s.fdClient[j] == s.h.accepted[j];
    }
  }

  lemma {:induction false} QuietRound(s: State, input: Input)
    requires RoundInv(s) && s.receiverPc != Test && !Scanning(s.receiverPc)
    ensures RoundInv(ReceiverStep(s, input))
  {
  }

  lemma {:induction false} BusyRound(s: State, input: Input)
    requires SelectSet(s) && RoundInv(s) && Scanning(s.receiverPc)
    ensures RoundInv(ReceiverStep(s, input))
  {
    var j: nat :| ScanInv(s, j);
    var s' := ReceiverStep(s, input);
    ScanRound(s, input, j);
    assert Scanning(s'.receiverPc) ==> ScanInv(s', j);
  }

  lemma {:induction false} MainLeaves(s: State)
    ensures var s' := MainStep(s);
            && s'.receiverPc == s.receiverPc && s'.readFDs == s.readFDs && s'.activeFDs == s.activeFDs
            && s'.s == s.s && s'.cnt == s.cnt && s'.fdClient == s.fdClient && s'.message == s.message
            && s'.h.roundPushes == s.h.roundPushes && s'.h.rounds == s.h.rounds && s'.h.pushed == s.h.pushed
  {
  }

  lemma {:induction false} SameRound(s: State, t: State)
    requires RoundInv(s)
    requires t.receiverPc == s.receiverPc && t.readFDs == s.readFDs && t.activeFDs == s.activeFDs
    requires t.s == s.s && t.cnt == s.cnt && t.fdClient == s.fdClient && t.message == s.message
    requires t.h.roundPushes == s.h.roundPushes && t.h.rounds == s.h.rounds && t.h.pushed == s.h.pushed
    ensures RoundInv(t)
  {
    if Scanning(s.receiverPc) {
      var j: nat :| ScanInv(s, j);
      assert ScanInv(t, j);
    }
  }

  lemma {:induction false} RoundStep(s: State, act: Action)
    requires SelectSet(s) && RoundInv(s)
    ensures RoundInv(Step(s, act))
  {
    if act.Main? {
      MainLeaves(s);
      SameRound(s, MainStep(s));
    } else if s.receiverPc == Test {
      TestRound(s);
    } else if Scanning(s.receiverPc) {
      BusyRound(s, act.input);
    } else {
      QuietRound(s, act.input);
    }
  }

  lemma {:induction false} AlwaysRound(s0: State, schedule: seq<Action>)
    requires Initial(s0)
    ensures RoundInv(After(s0, schedule))
  {
    if schedule != [] {
      var front := schedule[..|schedule| - 1];
      AlwaysRound(s0, front);
      AlwaysSelectSet(s0, front);
      RoundStep(After(s0, front), schedule[|schedule| - 1]);
    }
  }

  /** A readable round matches exactly one client and pushes exactly one message: at the end of its scan
      one was pushed, never more, and over the whole run there are as many pushes as rounds. */
  lemma {:induction false} OnePushPerRound(s0: State, schedule: seq<Action>)
    requires Initial(s0)
    ensures var s := After(s0, schedule);
            && (Scanning(s.receiverPc) ==> s.h.roundPushes <= 1)
            && (s.receiverPc == Scan(s.cnt) ==> s.h.roundPushes == 1)
            && (!Scanning(s.receiverPc) ==> |s.h.pushed| == s.h.rounds)
            && (s.receiverPc.Recv? ==> s.receiverPc.i < |s.h.accepted| && s.readFDs == {s.h.accepted[s.receiverPc.i]})
            && (s.receiverPc.Push? ==>
                  s.message.client < |s.h.accepted| && s.readFDs == {s.h.accepted[s.message.client]})
  {
    AlwaysRound(s0, schedule);
    AlwaysSelectSet(s0, schedule);
    var s := After(s0, schedule);
    if Scanning(s.receiverPc) {
      var j: nat :| ScanInv(s, j);
      assert s.fdClient[j] == s.h.accepted[j];
    }
  }
}
