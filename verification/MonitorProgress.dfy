/** Progress of the served connection of Assignments/A1, and exactly what can stop it. */
module MonitorProgress {
  import opened MonitorProtocol
  import opened MonitorConversation
  import opened MonitorCompletion
  import opened MonitorShutdown
  import opened MonitorRuns

  /** On the served connection the snapshots are down and raising the link succeeds. Reads may take any
      number of messages, other clients may do anything. No SIGINT yet. */
  predicate Orderly(act: Action, last: nat) {
    match act
    case Server(_) => true
    case Client(i, _, ok, down) => i == last ==> ok && down
    case Interrupt(_) => false
  }

  function Last(s: State): nat
    requires |s.conns| > 0
  {
    |s.conns| - 1
  }

  function Served(s: State): Conn
    requires |s.conns| > 0
  {
    s.conns[|s.conns| - 1]
  }

  /** The client is there, its snapshot is down, and the turn has not been swallowed. */
  predicate Live(c: Conn, pos: Position) {
    && c.pc != Gone
    && (c.pc !in {Unconnected, Checking, Announce, Head} ==> c.down)
    && ((pos == Idle || pos == Position.Served) && (|c.log| % 5 == 4 || |c.log| % 5 == 1) ==> c.toServer != [])
  }

  predicate BeforeShutdown(pc: ServerPc) {
    InService(pc) || pc.Accept? || pc.HsReady? || pc.HsMonitor? || pc.HsConfirm?
  }

  predicate LiveNow(s: State)
    requires |s.conns| > 0
  {
    && s.isWorking && BeforeShutdown(s.pc)
    && Live(Served(s), PositionOf(s.pc, |s.conns|, Last(s)))
  }

  ghost predicate LiveInv(s: State) {
    Inv(s) && LiveNow(s)
  }

  // ---------- Reads that swallow ----------

  /** The server reads on the served connection and takes a second message with the first. */
  predicate Swallows(s: State, act: Action)
    requires |s.conns| > 0
  {
    && act.Server? && act.extra >= 1 && |Served(s).toServer| > 1
    && (s.pc == Listen || (s.pc.HsConfirm? && s.pc.i == Last(s)))
  }

  predicate SwallowFree(s: State, schedule: seq<Action>)
    requires WellFormed(s)
  {
    schedule == [] ||
    var front := schedule[..|schedule| - 1];
    SwallowFree(s, front) && !Swallows(After(s, front), schedule[|schedule| - 1])
  }

  /** A read that does not swallow might as well take one message. */
  lemma {:induction false} TakesOne(s: State, extra: nat)
    requires WellFormed(s) && !Swallows(s, Server(extra))
    requires s.pc == Listen || (s.pc.HsConfirm? && s.pc.i == Last(s))
    ensures ServerStep(s, extra) == ServerStep(s, 0)
  {
    var q := Served(s).toServer;
    assert q != [] && extra == 0 ==> q[1..] == if |q| > 1 then q[1..] else [];
    assert Read(q, Served(s).pc == Gone, extra) == Read(q, Served(s).pc == Gone, 0);
  }

  // ---------- Orderly runs keep the turn ----------

  lemma {:induction false} ClientLive(c: Conn, pos: Position, last: bool, extra: nat)
    requires ConnInv(c, pos, last) && Live(c, pos)
    requires pos in {NotYet, MustMonitor, AwaitConfirm, Idle, Position.Served, OwesUp, OwesMonitor}
    ensures Live(ClientStep(c, true, extra, true, true), pos)
  {
    if pos in {Idle, Position.Served, OwesUp, OwesMonitor} {
      ClientPhase(c, |c.log| % 5, extra, true, true);
    }
  }

  lemma {:induction false} OrderlyRead(c: Conn)
    requires Cycling(c) && Live(c, Position.Served)
    ensures var r := Read(c.toServer, c.pc == Gone, 0);
            r.Got? && r.m != LinkDown && r.m != LinkUp ==> Live(c.(toServer := r.rest), Position.Served)
  {
  }

  lemma {:induction false} OrderlyConfirm(c: Conn)
    requires Confirming(c) && Live(c, AwaitConfirm)
    ensures var r := Read(c.toServer, c.pc == Gone, 0);
            r.Got? ==> Live(c.(toServer := r.rest), Idle)
  {
  }

  /** The handshake with another client does not concern the last connection. */
  lemma {:induction false} OtherHandshakeLive(s: State, extra: nat)
    requires LiveInv(s) && (s.pc.HsReady? || s.pc.HsMonitor? || s.pc.HsConfirm?) && s.pc.i < Last(s)
    requires !ServerStep(s, extra).pc.HsRefuse? && !Kills(s, Server(extra))
    ensures LiveNow(ServerStep(s, extra))
  {
    assert Served(ServerStep(s, extra)) == Served(s);
  }

  lemma {:induction false} GreetingLive(s: State, extra: nat)
    requires LiveInv(s) && (s.pc.HsReady? || s.pc.HsMonitor?) && s.pc.i == Last(s)
    ensures LiveNow(ServerStep(s, extra))
  {
  }

  lemma {:induction false} ConfirmationLive(s: State)
    requires LiveInv(s) && s.pc.HsConfirm? && s.pc.i == Last(s)
    requires !ServerStep(s, 0).pc.HsRefuse?
    ensures LiveNow(ServerStep(s, 0))
  {
    assert ConnInv(Served(s), PositionOf(s.pc, |s.conns|, Last(s)), true);
    OrderlyConfirm(Served(s));
  }

  /** What one read of the service loop does to the served connection. */
  lemma {:induction false} ListenShape(s: State)
    requires WellFormed(s) && s.pc == Listen
    ensures var c, s' := Served(s), ServerStep(s, 0);
            var r := Read(c.toServer, c.pc == Gone, 0);
            && (r.Blocked? ==> s' == s)
            && |s'.conns| == |s.conns| && s'.isWorking == s.isWorking
            && (r.Got? ==> Served(s') == c.(toServer := r.rest))
            && (r.Got? ==> s'.pc == if r.m == LinkDown then Answer(SetLinkUp)
                                    else if r.m == LinkUp then Answer(Monitor) else LoopTest)
  {
  }

  lemma {:induction false} ListenLive(s: State)
    requires LiveInv(s) && s.pc == Listen
    ensures LiveNow(ServerStep(s, 0))
  {
    assert ConnInv(Served(s), PositionOf(s.pc, |s.conns|, Last(s)), true);
    OrderlyRead(Served(s));
    ListenShape(s);
  }

  lemma {:induction false} AnswerLive(s: State, extra: nat)
    requires LiveInv(s) && s.pc.Answer?
    ensures LiveNow(ServerStep(s, extra))
  {
    assert ConnInv(Served(s), PositionOf(s.pc, |s.conns|, Last(s)), true);
  }

  lemma {:induction false} ServerLive(s: State, extra: nat)
    requires LiveInv(s) && !Swallows(s, Server(extra)) && !Kills(s, Server(extra))
    ensures LiveInv(ServerStep(s, extra))
  {
    ServerKeeps(s, extra);
    if s.pc == Listen {
      TakesOne(s, extra);
      ListenLive(s);
    } else if s.pc.Answer? {
      AnswerLive(s, extra);
    } else if s.pc.HsReady? || s.pc.HsMonitor? || s.pc.HsConfirm? {
      HandshakeLive(s, extra);
    }
  }

  lemma {:induction false} HandshakeLive(s: State, extra: nat)
    requires LiveInv(s) && !Swallows(s, Server(extra)) && (s.pc.HsReady? || s.pc.HsMonitor? || s.pc.HsConfirm?)
    requires !Kills(s, Server(extra)) && !ServerStep(s, extra).pc.HsRefuse?
    ensures LiveNow(ServerStep(s, extra))
  {
    if s.pc.i < Last(s) {
      OtherHandshakeLive(s, extra);
    } else if s.pc.HsConfirm? {
      TakesOne(s, extra);
      ConfirmationLive(s);
    } else {
      GreetingLive(s, extra);
    }
  }

  lemma {:induction false} ServedTurnLive(s: State, extra: nat)
    requires LiveInv(s)
    ensures LiveNow(Step(s, Client(Last(s), extra, true, true)))
  {
    var n := Last(s);
    var pos := PositionOf(s.pc, |s.conns|, n);
    assert ConnInv(s.conns[n], pos, true);
    ClientLive(s.conns[n], pos, true, extra);
    assert Open(s, n);
  }

  lemma {:induction false} OtherTurnLive(s: State, act: Action)
    requires WellFormed(s) && LiveNow(s) && act.Client? && act.i != Last(s)
    ensures LiveNow(Step(s, act))
  {
    OtherClientRank(s, act);
    assert Step(s, act).isWorking == s.isWorking && |Step(s, act).conns| == |s.conns|;
  }

  lemma {:induction false} ClientTurnLive(s: State, act: Action)
    requires LiveInv(s) && act.Client? && Orderly(act, Last(s))
    ensures LiveInv(Step(s, act))
  {
    ClientTurnKeeps(s, act);
    if act.i == Last(s) {
      ServedTurnLive(s, act.extra);
    } else {
      OtherTurnLive(s, act);
    }
  }

  lemma {:induction false} StepLive(s: State, act: Action)
    requires LiveInv(s) && Orderly(act, Last(s)) && !Swallows(s, act) && !Kills(s, act)
    ensures LiveInv(Step(s, act))
  {
    match act
    case Server(extra) => ServerLive(s, extra);
    case Client(_, _, _, _) => ClientTurnLive(s, act);
  }

  lemma {:induction false} AlwaysLive(s0: State, schedule: seq<Action>)
    requires Initial(s0) && (forall act :: act in schedule ==> Orderly(act, |s0.conns| - 1))
    requires SwallowFree(s0, schedule) && KillFree(s0, schedule)
    ensures LiveInv(After(s0, schedule))
  {
    if schedule == [] {
      AlwaysInv(s0, schedule);
    } else {
      var front, act := schedule[..|schedule| - 1], schedule[|schedule| - 1];
      assert forall a :: a in front ==> a in schedule;
      AlwaysLive(s0, front);
      assert act in schedule;
      StepLive(After(s0, front), act);
    }
  }

  /** A server that is in its service loop has not been killed. */
  lemma {:induction false} LiveInService(s0: State, schedule: seq<Action>)
    requires Initial(s0) && (forall act :: act in schedule ==> Orderly(act, |s0.conns| - 1))
    requires SwallowFree(s0, schedule) && InService(After(s0, schedule).pc)
    ensures LiveInv(After(s0, schedule))
  {
    KilledExactly(s0, schedule);
    AlwaysLive(s0, schedule);
  }

  // ---------- How far the next message is ----------

  /** Steps the client still takes before it writes, or until it waits with nothing to read. */
  function ClientWork(c: Conn): nat {
    match c.pc
    case Head => if c.toClient == [] then 1 else 4
    case Waiting => if c.toClient == [] then 0 else 3
    case RaiseLink => 2
    case Display => 2
    case _ => 1
  }

  function ConnWork(c: Conn): nat {
    ClientWork(c) + 2 * |c.toServer|
  }

  function ServerWork(pc: ServerPc): nat {
    if pc.LoopTest? || pc.Answer? then 1 else 0
  }

  /** At most this many steps of the two processes are left before the next message is sent. */
  function Distance(s: State): nat
    requires |s.conns| > 0
  {
    ConnWork(Served(s)) + ServerWork(s.pc)
  }

  /** Grows with every step that moves either process, by more when a message is sent. */
  function Rank(s: State): int
    requires |s.conns| > 0
  {
    7 * |Served(s).log| + 6 - Distance(s)
  }

  lemma {:induction false} DistanceBounds(s: State)
    requires LiveInv(s) && InService(s.pc)
    ensures 1 <= Distance(s) <= 6
  {
    var c := Served(s);
    assert ConnInv(c, PositionOf(s.pc, |s.conns|, Last(s)), true);
    assert Cycling(c);
  }

  lemma {:induction false} ClientRank(c: Conn, pos: Position, extra: nat)
    requires Cycling(c) && Live(c, pos)
    ensures var c' := ClientStep(c, true, extra, true, true);
            || |c'.log| == |c.log| + 1
            || (c'.log == c.log && ConnWork(c') < ConnWork(c))
            || c' == c
    ensures c.toServer == [] && (|c.log| % 5 == 0 || |c.log| % 5 == 2 || |c.log| % 5 == 3) ==>
              ClientStep(c, true, extra, true, true) != c
  {
    ClientPhase(c, |c.log| % 5, extra, true, true);
  }

  /** A message sent counts for more than all the steps up to the next one. */
  lemma {:induction false} LogGrows(s: State, s': State)
    requires LiveInv(s) && InService(s.pc) && LiveInv(s') && InService(s'.pc)
    requires |Served(s').log| == |Served(s).log| + 1
    ensures Rank(s') > Rank(s)
  {
    DistanceBounds(s);
    DistanceBounds(s');
  }

  lemma {:induction false} AnswerGrows(s: State, extra: nat)
    requires LiveInv(s) && s.pc.Answer?
    ensures var s' := ServerStep(s, extra);
            s'.pc == LoopTest && |Served(s').log| == |Served(s).log| + 1
  {
    assert ConnInv(Served(s), PositionOf(s.pc, |s.conns|, Last(s)), true);
    AnswerConn(Served(s), s.pc.m);
  }

  lemma {:induction false} AnswerRank(s: State, extra: nat)
    requires LiveInv(s) && s.pc.Answer?
    ensures var s' := ServerStep(s, extra);
            s'.pc == LoopTest && Rank(s') > Rank(s)
  {
    AnswerGrows(s, extra);
    ServerLive(s, extra);
    LogGrows(s, ServerStep(s, extra));
  }

  lemma {:induction false} ListenRank(s: State)
    requires LiveInv(s) && s.pc == Listen
    ensures var s' := ServerStep(s, 0);
            && InService(s'.pc)
            && (if Served(s).toServer != [] then Rank(s') > Rank(s) else s' == s)
  {
    assert ConnInv(Served(s), PositionOf(s.pc, |s.conns|, Last(s)), true);
    ListenShape(s);
  }

  lemma {:induction false} ServerRank(s: State, extra: nat)
    requires LiveInv(s) && InService(s.pc) && !Swallows(s, Server(extra))
    ensures var s' := ServerStep(s, extra);
            && InService(s'.pc)
            && Rank(s') >= Rank(s)
            && (Rank(s') == Rank(s) ==> s' == s)
            && (s.pc != Listen || Served(s).toServer != [] ==> Rank(s') > Rank(s))
  {
    if s.pc.Answer? {
      AnswerRank(s, extra);
    } else if s.pc == Listen {
      TakesOne(s, extra);
      ListenRank(s);
    }
  }

  lemma {:induction false} ServedClientMoves(s: State, extra: nat)
    requires LiveInv(s) && InService(s.pc)
    ensures var c, s' := Served(s), Step(s, Client(Last(s), extra, true, true));
            var c' := Served(s');
            && s'.pc == s.pc && |s'.conns| == |s.conns|
            && (|c'.log| == |c.log| + 1 || (c'.log == c.log && ConnWork(c') < ConnWork(c)) || c' == c)
            && (s.pc == Listen && c.toServer == [] ==> c' != c)
  {
    var n, c := Last(s), Served(s);
    assert ConnInv(c, PositionOf(s.pc, |s.conns|, n), true);
    assert Open(s, n);
    ClientRank(c, PositionOf(s.pc, |s.conns|, n), extra);
  }

  lemma {:induction false} ServedClientRank(s: State, extra: nat)
    requires LiveInv(s) && InService(s.pc)
    ensures var s' := Step(s, Client(Last(s), extra, true, true));
            && Rank(s') >= Rank(s)
            && (Rank(s') == Rank(s) ==> Served(s') == Served(s))
            && (s.pc == Listen && Served(s).toServer == [] ==> Rank(s') > Rank(s))
  {
    var act := Client(Last(s), extra, true, true);
    var s' := Step(s, act);
    ServedClientMoves(s, extra);
    if |Served(s').log| == |Served(s).log| + 1 {
      ClientTurnLive(s, act);
      LogGrows(s, s');
    }
  }

  /** No orderly step lowers the rank, and one that leaves it leaves the served connection and the server. */
  lemma {:induction false} StepRank(s: State, act: Action)
    requires LiveInv(s) && InService(s.pc) && Orderly(act, Last(s)) && !Swallows(s, act)
    ensures var s' := Step(s, act);
            && LiveInv(s') && InService(s'.pc)
            && Rank(s') >= Rank(s)
            && (Rank(s') == Rank(s) ==> Served(s') == Served(s) && s'.pc == s.pc)
  {
    StepLive(s, act);
    if act.Server? {
      ServerRank(s, act.extra);
    } else if act.i == Last(s) {
      ServedClientRank(s, act.extra);
    } else {
      OtherClientRank(s, act);
    }
  }

  lemma {:induction false} OtherClientRank(s: State, act: Action)
    requires WellFormed(s) && act.Client? && act.i != Last(s)
    ensures var s' := Step(s, act);
            Served(s') == Served(s) && s'.pc == s.pc && Rank(s') == Rank(s)
  {
  }

  lemma {:induction false} AfterRank(s: State, schedule: seq<Action>)
    requires LiveInv(s) && InService(s.pc) && (forall act :: act in schedule ==> Orderly(act, Last(s)))
    requires SwallowFree(s, schedule)
    ensures var s' := After(s, schedule);
            && LiveInv(s') && InService(s'.pc)
            && Rank(s') >= Rank(s)
            && (Rank(s') == Rank(s) ==> Served(s') == Served(s) && s'.pc == s.pc)
  {
    if schedule != [] {
      var front, act := schedule[..|schedule| - 1], schedule[|schedule| - 1];
      assert act in schedule && forall a :: a in front ==> a in schedule;
      AfterRank(s, front);
      StepRank(After(s, front), act);
    }
  }

  // ---------- Fair rounds ----------

  /** A round is orderly and gives the server and the last client at least one turn each. */
  ghost predicate FairRound(round: seq<Action>, last: nat) {
    && (forall act :: act in round ==> Orderly(act, last))
    && (exists i :: 0 <= i < |round| && round[i].Server?)
    && (exists i :: 0 <= i < |round| && round[i].Client? && round[i].i == last)
  }

  /** Which of the two processes can move depends on the served connection and the server alone. */
  lemma {:induction false} Mover(s: State, act: Action)
    requires LiveInv(s) && InService(s.pc) && Orderly(act, Last(s)) && !Swallows(s, act)
    requires TurnOfMover(s, act)
    ensures Rank(Step(s, act)) > Rank(s)
  {
    if act.Server? {
      ServerRank(s, act.extra);
    } else {
      ServedClientRank(s, act.extra);
    }
  }

  lemma {:induction false} SwallowFreeSplit(s: State, round: seq<Action>, i: nat)
    requires WellFormed(s) && i < |round| && SwallowFree(s, round)
    ensures var t := After(s, round[..i]);
            SwallowFree(s, round[..i]) && !Swallows(t, round[i]) && SwallowFree(Step(t, round[i]), round[i + 1..])
  {
    hide Step;
    if i < |round| - 1 {
      var front := round[..|round| - 1];
      SwallowFreeSplit(s, front, i);
      AfterSplit(s, front, i);
      assert front[..i] == round[..i];
      assert round[i + 1..][..|round| - i - 2] == front[i + 1..];
    }
  }

  /** Whether act is a turn of the process that can move in s. */
  predicate TurnOfMover(s: State, act: Action)
    requires |s.conns| > 0
  {
    if s.pc != Listen || Served(s).toServer != [] then act.Server? else act.Client? && act.i == Last(s)
  }

  lemma {:induction false} FairHasMover(s: State, round: seq<Action>) returns (i: nat)
    requires |s.conns| > 0 && FairRound(round, Last(s))
    ensures i < |round| && TurnOfMover(s, round[i])
  {
    if s.pc != Listen || Served(s).toServer != [] {
      i :| 0 <= i < |round| && round[i].Server?;
    } else {
      i :| 0 <= i < |round| && round[i].Client? && round[i].i == Last(s);
    }
  }

  lemma {:induction false} MoverMoves(s: State, t: State, act: Action)
    requires LiveInv(t) && InService(t.pc) && |s.conns| == |t.conns| && Orderly(act, Last(s)) && TurnOfMover(s, act)
    requires !Swallows(t, act)
    requires Rank(t) >= Rank(s) && (Rank(t) == Rank(s) ==> Served(t) == Served(s) && t.pc == s.pc)
    ensures LiveInv(Step(t, act)) && InService(Step(t, act).pc) && Rank(Step(t, act)) > Rank(s)
  {
    StepRank(t, act);
    if Rank(t) == Rank(s) {
      Mover(t, act);
    }
  }

  lemma {:induction false} MoverThenRest(s: State, t: State, act: Action, rest: seq<Action>)
    requires LiveInv(t) && InService(t.pc) && |s.conns| == |t.conns| && Orderly(act, Last(s)) && TurnOfMover(s, act)
    requires !Swallows(t, act) && SwallowFree(Step(t, act), rest) && forall a :: a in rest ==> Orderly(a, Last(s))
    requires Rank(t) >= Rank(s) && (Rank(t) == Rank(s) ==> Served(t) == Served(s) && t.pc == s.pc)
    ensures var s' := After(Step(t, act), rest);
            LiveInv(s') && InService(s'.pc) && Rank(s') > Rank(s)
  {
    MoverMoves(s, t, act);
    AfterRank(Step(t, act), rest);
  }

  lemma {:induction false} RoundRank(s: State, round: seq<Action>)
    requires LiveInv(s) && InService(s.pc) && FairRound(round, Last(s)) && SwallowFree(s, round)
    ensures var s' := After(s, round);
            LiveInv(s') && InService(s'.pc) && Rank(s') > Rank(s)
  {
    var i := FairHasMover(s, round);
    assert round[i] in round;
    assert (forall a :: a in round[..i] ==> a in round) && (forall a :: a in round[i + 1..] ==> a in round);
    AfterSplit(s, round, i);
    SwallowFreeSplit(s, round, i);
    AfterRank(s, round[..i]);
    MoverThenRest(s, After(s, round[..i]), round[i], round[i + 1..]);
  }

  /** Fair rounds one after the other, none of them with a read that swallows. */
  ghost predicate FairRounds(s: State, rounds: seq<seq<Action>>)
    requires WellFormed(s)
  {
    rounds == [] ||
    var front, last := rounds[..|rounds| - 1], rounds[|rounds| - 1];
    FairRounds(s, front) && FairRound(last, Last(s)) && SwallowFree(AfterRounds(s, front), last)
  }

  lemma {:induction false} RoundsRank(s: State, rounds: seq<seq<Action>>)
    requires LiveInv(s) && InService(s.pc) && FairRounds(s, rounds)
    ensures var s' := AfterRounds(s, rounds);
            LiveInv(s') && InService(s'.pc) && Rank(s') >= Rank(s) + |rounds|
  {
    hide Step;
    if rounds != [] {
      var front, last := rounds[..|rounds| - 1], rounds[|rounds| - 1];
      RoundsRank(s, front);
      RoundRank(AfterRounds(s, front), last);
    }
  }

  lemma {:induction false} ProgressFrom(s: State, rounds: seq<seq<Action>>, k: nat)
    requires LiveInv(s) && InService(s.pc)
    requires FairRounds(s, rounds) && |rounds| == 7 * k
    ensures |Served(AfterRounds(s, rounds)).log| >= |Served(s).log| + k
  {
    hide Step;
    RoundsRank(s, rounds);
    DistanceBounds(s);
    DistanceBounds(AfterRounds(s, rounds));
  }

  /** From any state an orderly run without swallowing reaches in the service loop, 7k fair rounds bring at
      least k more messages on the served connection: the exchange never deadlocks. */
  lemma {:induction false} Progress(s0: State, schedule: seq<Action>, rounds: seq<seq<Action>>, k: nat)
    requires Initial(s0) && (forall act :: act in schedule ==> Orderly(act, |s0.conns| - 1))
    requires SwallowFree(s0, schedule) && InService(After(s0, schedule).pc)
    requires FairRounds(After(s0, schedule), rounds) && |rounds| == 7 * k
    ensures var s := After(s0, schedule);
            |Served(AfterRounds(s, rounds)).log| >= |Served(s).log| + k
  {
    hide Step;
    LiveInService(s0, schedule);
    ProgressFrom(After(s0, schedule), rounds, k);
  }

  /** There are such rounds from every state: the server reads one message at a time, and the two take turns. */
  lemma {:induction false} TakingTurnsIsFair(s: State, rounds: seq<seq<Action>>)
    requires WellFormed(s)
    requires forall r :: r in rounds ==> r == [Server(0), Client(Last(s), 0, true, true)]
    ensures FairRounds(s, rounds)
  {
    hide Step;
    if rounds != [] {
      var front, last := rounds[..|rounds| - 1], rounds[|rounds| - 1];
      assert last in rounds && forall r :: r in front ==> r in rounds;
      TakingTurnsIsFair(s, front);
      OneTurnEach(AfterRounds(s, front), last);
    }
  }

  lemma {:induction false} OneTurnEach(s: State, round: seq<Action>)
    requires WellFormed(s) && round == [Server(0), Client(Last(s), 0, true, true)]
    ensures FairRound(round, Last(s)) && SwallowFree(s, round)
  {
    assert round[0].Server? && round[1].Client?;
    assert round[..1] == [Server(0)] && round[..1][..0] == [];
    assert SwallowFree(s, round[..1]);
  }

  lemma {:induction false} ServedLanguage(s: State)
    requires LiveInv(s) && InService(s.pc)
    ensures InLanguage(Served(s).log)
  {
    assert ConnInv(Served(s), PositionOf(s.pc, |s.conns|, Last(s)), true);
  }

  lemma {:induction false} LanguageAfter(s: State, rounds: seq<seq<Action>>)
    requires LiveInv(s) && InService(s.pc) && FairRounds(s, rounds)
    ensures InLanguage(Served(AfterRounds(s, rounds)).log)
  {
    hide Step;
    RoundsRank(s, rounds);
    ServedLanguage(AfterRounds(s, rounds));
  }

  lemma {:induction false} AfterLinkDown(w: seq<Message>, n: nat)
    requires InLanguage(w) && 0 < n && n + 3 <= |w| && w[n - 1] == LinkDown
    ensures w[n..n + 3] == [SetLinkUp, LinkUp, Monitor]
  {
    assert w[n - 1] == Letter(n - 1);
    ThreeMore(n - 1);
    assert w[n..n + 3] == [w[n], w[n + 1], w[n + 2]];
  }

  lemma {:induction false} ThreeMore(k: nat)
    requires Letter(k) == LinkDown
    ensures Letter(k + 1) == SetLinkUp && Letter(k + 2) == LinkUp && Letter(k + 3) == Monitor
  {
    assert k % 5 == 3;
    assert (k + 1) % 5 == 4 && (k + 2) % 5 == 0 && (k + 3) % 5 == 1;
  }

  /** Every Link down is answered: within 21 fair rounds Set Link Up, Link Up and Monitor follow it. */
  lemma {:induction false} LinkDownIsAnswered(s0: State, schedule: seq<Action>, rounds: seq<seq<Action>>)
    requires Initial(s0) && (forall act :: act in schedule ==> Orderly(act, |s0.conns| - 1))
    requires SwallowFree(s0, schedule) && InService(After(s0, schedule).pc)
    requires var log := Served(After(s0, schedule)).log; log != [] && log[|log| - 1] == LinkDown
    requires FairRounds(After(s0, schedule), rounds) && |rounds| == 21
    ensures var n := |Served(After(s0, schedule)).log|;
            var log := Served(AfterRounds(After(s0, schedule), rounds)).log;
            |log| >= n + 3 && log[n..n + 3] == [SetLinkUp, LinkUp, Monitor]
  {
    hide Step;
    LiveInService(s0, schedule);
    AnsweredFrom(After(s0, schedule), rounds);
  }

  lemma {:induction false} AnsweredFrom(s: State, rounds: seq<seq<Action>>)
    requires LiveInv(s) && InService(s.pc)
    requires var log := Served(s).log; log != [] && log[|log| - 1] == LinkDown
    requires FairRounds(s, rounds) && |rounds| == 21
    ensures var n := |Served(s).log|;
            var log := Served(AfterRounds(s, rounds)).log;
            |log| >= n + 3 && log[n..n + 3] == [SetLinkUp, LinkUp, Monitor]
  {
    hide Step;
    ProgressFrom(s, rounds, 3);
    ServedLanguage(s);
    LanguageAfter(s, rounds);
    SameLetters(Served(s).log, Served(AfterRounds(s, rounds)).log);
  }

  lemma {:induction false} SameLetters(w: seq<Message>, w': seq<Message>)
    requires InLanguage(w) && InLanguage(w') && w != [] && w[|w| - 1] == LinkDown && |w'| >= |w| + 3
    ensures w'[|w|..|w| + 3] == [SetLinkUp, LinkUp, Monitor]
  {
    assert w[|w| - 1] == Letter(|w| - 1) == w'[|w| - 1];
    AfterLinkDown(w', |w|);
  }

  // ---------- What a swallowed Link down does ----------

  /** Link down was the last message sent, the client waits for a command, the server waits for a report,
      and nothing is in between. */
  predicate Lost(s: State) {
    && WellFormed(s) && s.isWorking && (s.pc == Listen || s.pc == LoopTest || s.pc == Accept(|s.conns|))
    && |Served(s).log| % 5 == 4
    && Resting(Served(s)) && Served(s).open && Served(s).toClient == [] && Served(s).toServer == []
  }

  /** A read can only swallow a Link down behind a Monitoring, and then the turn is lost. */
  lemma {:induction false} SwallowLoses(s: State, act: Action)
    requires LiveInv(s) && Swallows(s, act)
    ensures Served(s).toServer == [Monitoring, LinkDown]
    ensures Lost(Step(s, act))
  {
    var c := Served(s);
    assert ConnInv(c, PositionOf(s.pc, |s.conns|, Last(s)), true);
    assert c.toServer == [Monitoring, LinkDown] && Resting(c) && c.toClient == [] && |c.log| % 5 == 4;
    assert Read(c.toServer, c.pc == Gone, act.extra) == Got(Monitoring, []);
  }

  lemma {:induction false} LostStep(s: State, act: Action)
    requires Lost(s) && !act.Interrupt?
    ensures Lost(Step(s, act)) && Served(Step(s, act)).log == Served(s).log
  {
    if act.Client? && act.i == |s.conns| - 1 {
      ClientResting(s.conns[act.i], act.extra, act.ok, act.down);
    }
  }

  /** Until SIGINT nothing is ever sent on the served connection again, whatever its client does. */
  lemma {:induction false} LostForever(s: State, schedule: seq<Action>)
    requires Lost(s) && forall act :: act in schedule ==> !act.Interrupt?
    ensures Lost(After(s, schedule)) && Served(After(s, schedule)).log == Served(s).log
  {
    if schedule != [] {
      var front, act := schedule[..|schedule| - 1], schedule[|schedule| - 1];
      assert act in schedule && forall a :: a in front ==> a in schedule;
      LostForever(s, front);
      LostStep(After(s, front), act);
    }
  }

  lemma {:induction false} NotBoth(s: State)
    requires Lost(s) && Inv(s)
    ensures !LiveNow(s)
  {
    assert ConnInv(Served(s), PositionOf(s.pc, |s.conns|, Last(s)), true);
  }

  /** Exactly when the exchange can go on. An orderly run ends live if none of its reads has swallowed and
      none of its writes has killed the server; it ends lost, for good, from the first read that swallows;
      it ends with the server dead from the first write to a client that is gone; and never in two of these. */
  lemma {:induction false} LiveExactly(s0: State, schedule: seq<Action>)
    requires Initial(s0) && forall act :: act in schedule ==> Orderly(act, |s0.conns| - 1)
    ensures LiveNow(After(s0, schedule)) <==> SwallowFree(s0, schedule) && KillFree(s0, schedule)
    ensures Lost(After(s0, schedule)) <==> !SwallowFree(s0, schedule)
    ensures After(s0, schedule).pc == Killed <==> !KillFree(s0, schedule)
  {
    AlwaysInv(s0, schedule);
    KilledExactly(s0, schedule);
    if !SwallowFree(s0, schedule) {
      LostAfter(s0, schedule);
    } else if KillFree(s0, schedule) {
      AlwaysLive(s0, schedule);
    }
    if Lost(After(s0, schedule)) {
      NotBoth(After(s0, schedule));
    }
  }

  /** A dead server reads nothing. */
  lemma {:induction false} NothingAfterDeath(s0: State, schedule: seq<Action>, act: Action)
    requires Initial(s0) && (forall a :: a in schedule ==> Orderly(a, |s0.conns| - 1))
    requires Swallows(After(s0, schedule), act)
    ensures KillFree(s0, schedule)
  {
    KilledExactly(s0, schedule);
  }

  lemma {:induction false} LostAfter(s0: State, schedule: seq<Action>)
    requires Initial(s0) && (forall act :: act in schedule ==> Orderly(act, |s0.conns| - 1))
    requires !SwallowFree(s0, schedule)
    ensures Lost(After(s0, schedule))
  {
    var front, act := schedule[..|schedule| - 1], schedule[|schedule| - 1];
    assert act in schedule && forall a :: a in front ==> a in schedule;
    if SwallowFree(s0, front) {
      NothingAfterDeath(s0, front, act);
      AlwaysLive(s0, front);
      SwallowLoses(After(s0, front), act);
    } else {
      LostAfter(s0, front);
      LostStep(After(s0, front), act);
    }
  }

  const Reported: Conn :=
    Conn(Head, true, [], [Monitoring, LinkDown], true, [Ready, Monitor, Monitoring, LinkDown], false)

  /** All clients but the last of n are set up; the last one confirms and reports before the server has read the
      confirmation, which then takes both. */
  function Losing(n: nat): seq<Action>
    requires n > 0
  {
    Handshakes(n - 1, true) + Opening(n - 1, true) + [Turn(n - 1, true), Turn(n - 1, true)] + [Server(1)]
  }

  lemma {:induction false} ReportsLink(c: Conn)
    requires c == Confirmed(true).(pc := ReportDown)
    ensures ClientStep(c, true, 0, true, true) == Reported
  {
    assert [Monitoring] + [LinkDown] == [Monitoring, LinkDown];
    assert [Ready, Monitor, Monitoring] + [LinkDown] == [Ready, Monitor, Monitoring, LinkDown];
  }

  lemma {:induction false} Reports(conns: seq<Conn>, i: nat)
    requires i < |conns|
    ensures After(At(conns, i, Confirmed(true), HsConfirm(i), i), [Turn(i, true), Turn(i, true)]) ==
            At(conns, i, Reported, HsConfirm(i), i)
  {
    Two(At(conns, i, Confirmed(true), HsConfirm(i), i), Turn(i, true), Turn(i, true));
    ClientMoves(conns, i, Confirmed(true), HsConfirm(i), i, true);
    ReportsLink(Confirmed(true).(pc := ReportDown));
    ClientMoves(conns, i, Confirmed(true).(pc := ReportDown), HsConfirm(i), i, true);
  }

  lemma {:induction false} ReportIsSwallowed(conns: seq<Conn>, i: nat)
    requires i < |conns|
    ensures After(At(conns, i, Reported, HsConfirm(i), i), [Server(1)]) ==
            At(conns, i, Reported.(toServer := []), Accept(i + 1), i)
  {
    One(At(conns, i, Reported, HsConfirm(i), i), Server(1));
    assert Read([Monitoring, LinkDown], false, 1) == Got(Monitoring, []);
    ServerReads(conns, i, Reported, HsConfirm(i), 1, Monitoring, []);
  }

  lemma {:induction false} LastConfirms(s0: State)
    requires Initial(s0)
    ensures var n := |s0.conns|;
            After(s0, Handshakes(n - 1, true) + Opening(n - 1, true)) ==
            At(Shown(n, n - 1, true), n - 1, Confirmed(true), HsConfirm(n - 1), n - 1)
  {
    hide Step;
    var n := |s0.conns|;
    var i, conns := n - 1, Shown(n, n - 1, true);
    AfterConcat(s0, Handshakes(i, true), Opening(i, true));
    HandshakesDone(s0, i, true);
    assert conns[i := Fresh] == conns;
    Opens(conns, i, if i == 0 then s0.retRecv else i - 1, true);
  }

  lemma {:induction false} LastReports(s0: State)
    requires Initial(s0)
    ensures var n := |s0.conns|;
            After(s0, Handshakes(n - 1, true) + Opening(n - 1, true) + [Turn(n - 1, true), Turn(n - 1, true)]) ==
            At(Shown(n, n - 1, true), n - 1, Reported, HsConfirm(n - 1), n - 1)
  {
    hide Step;
    var i := |s0.conns| - 1;
    AfterConcat(s0, Handshakes(i, true) + Opening(i, true), [Turn(i, true), Turn(i, true)]);
    LastConfirms(s0);
    Reports(Shown(i + 1, i, true), i);
  }

  lemma {:induction false} LosingEnds(s0: State)
    requires Initial(s0)
    ensures var n := |s0.conns|;
            After(s0, Losing(n)) == At(Shown(n, n - 1, true), n - 1, Reported.(toServer := []), Accept(n), n - 1)
  {
    hide Step;
    var i := |s0.conns| - 1;
    AfterConcat(s0, Handshakes(i, true) + Opening(i, true) + [Turn(i, true), Turn(i, true)], [Server(1)]);
    LastReports(s0);
    ReportIsSwallowed(Shown(i + 1, i, true), i);
  }

  lemma {:induction false} LosingIsOrderly(n: nat)
    requires n > 0
    ensures forall act :: act in Losing(n) ==> Orderly(act, n - 1)
  {
    HandshakesOrderly(n - 1, n - 1);
  }

  lemma {:induction false} HandshakesOrderly(k: nat, last: nat)
    ensures forall act :: act in Handshakes(k, true) ==> Orderly(act, last)
  {
    if k > 0 {
      HandshakesOrderly(k - 1, last);
    }
  }

  lemma {:induction false} IsLost(s: State, conns: seq<Conn>)
    requires conns != [] && s == At(conns, |conns| - 1, Reported.(toServer := []), Accept(|conns|), |conns| - 1)
    ensures Lost(s)
  {
  }

  /** It does happen: for any number of interfaces, this orderly run loses the turn. */
  lemma {:induction false} TurnCanBeLost(s0: State)
    requires Initial(s0)
    ensures forall act :: act in Losing(|s0.conns|) ==> Orderly(act, |s0.conns| - 1)
    ensures Lost(After(s0, Losing(|s0.conns|)))
  {
    hide Step;
    var n := |s0.conns|;
    LosingIsOrderly(n);
    LosingEnds(s0);
    IsLost(After(s0, Losing(n)), Shown(n, n - 1, true));
  }

  // ---------- One misnamed interface stops the server ----------

  /** Client 0 connects, finds no such directory and ends; the server accepts it, reads end of file and
      writes Monitor to it. */
  const DEADLY: seq<Action> :=
    [Client(0, 0, true, false), Client(0, 0, false, false)] + [Server(0), Server(0), Server(0)]

  lemma {:induction false} EndsAtOnce(s0: State)
    requires Initial(s0)
    ensures After(s0, [Client(0, 0, true, false), Client(0, 0, false, false)]) ==
            s0.(conns := s0.conns[0 := Fresh.(pc := Gone)])
  {
    Two(s0, Client(0, 0, true, false), Client(0, 0, false, false));
    assert Step(s0, Client(0, 0, true, false)) == s0.(conns := s0.conns[0 := Fresh.(pc := Checking)]);
    assert s0.conns[0 := Fresh.(pc := Checking)][0 := Fresh.(pc := Gone)] == s0.conns[0 := Fresh.(pc := Gone)];
  }

  lemma {:induction false} WritesToGone(s: State)
    requires |s.conns| > 0 && s.conns[0] == Fresh.(pc := Gone) && s.pc == Accept(0)
    ensures After(s, [Server(0), Server(0), Server(0)]) == s.(retRecv := 0, pc := Killed)
  {
    Three(s, Server(0), Server(0), Server(0));
    var s1 := s.(retRecv := 0, pc := HsReady(0));
    assert ServerStep(s, 0) == s1;
    assert s.conns[0 := s.conns[0]] == s.conns;
    assert ServerStep(s1, 0) == s1.(pc := HsMonitor(0));
  }

  /** With two or more interfaces this run is orderly and nothing is swallowed in it, and it leaves the server
      dead before the last client has been sent anything. */
  lemma {:induction false} ServerCanBeKilled(s0: State)
    requires Initial(s0) && |s0.conns| >= 2
    ensures (forall act :: act in DEADLY ==> Orderly(act, |s0.conns| - 1)) && SwallowFree(s0, DEADLY)
    ensures After(s0, DEADLY).pc == Killed && Served(After(s0, DEADLY)).log == []
  {
    var ends := [Client(0, 0, true, false), Client(0, 0, false, false)];
    AfterConcat(s0, ends, [Server(0), Server(0), Server(0)]);
    EndsAtOnce(s0);
    WritesToGone(After(s0, ends));
    LiveExactly(s0, DEADLY);
  }
}
