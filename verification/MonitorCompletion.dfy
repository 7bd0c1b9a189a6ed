/** The handshake and the shutdown loop of Assignments/A1 come to their end, and what can keep them from it. */
module MonitorCompletion {
  import opened MonitorProtocol
  import opened MonitorConversation
  import opened MonitorShutdown
  import opened MonitorRuns

  /** A round gives the server and each of the n clients at least one turn. */
  ghost predicate FullRound(round: seq<Action>, n: nat) {
    && (exists i :: 0 <= i < |round| && round[i].Server?)
    && (forall j: nat :: j < n ==> TakesPart(round, j))
  }

  ghost predicate TakesPart(round: seq<Action>, j: nat) {
    exists i :: 0 <= i < |round| && round[i].Client? && round[i].i == j
  }

  /** A turn of the process that is to move: the server, or client j. */
  predicate IsTurn(act: Action, server: bool, j: nat) {
    if server then act.Server? else act.Client? && act.i == j
  }

  lemma {:induction false} HasTurn(round: seq<Action>, n: nat, server: bool, j: nat) returns (i: nat)
    requires FullRound(round, n) && (server || j < n)
    ensures i < |round| && IsTurn(round[i], server, j)
  {
    if server {
      i :| 0 <= i < |round| && round[i].Server?;
    } else {
      assert TakesPart(round, j);
      i :| 0 <= i < |round| && round[i].Client? && round[i].i == j;
    }
  }

  // ---------- The handshake ----------

  predicate InHandshake(pc: ServerPc) {
    pc.Accept? || pc.HsReady? || pc.HsMonitor? || pc.HsConfirm?
  }

  predicate InService(pc: ServerPc) {
    pc.Listen? || pc.Answer? || pc.LoopTest?
  }

  /** No SIGINT, and no client ends. */
  predicate Willing(act: Action) {
    !act.Interrupt? && (act.Client? ==> act.ok)
  }

  ghost predicate There(s: State) {
    && Inv(s) && s.isWorking && (InHandshake(s.pc) || InService(s.pc))
    && forall i :: 0 <= i < |s.conns| ==> s.conns[i].pc != Gone
  }

  lemma {:induction false} ClientThere(c: Conn, pos: Position, last: bool, extra: nat, down: bool)
    requires ConnInv(c, pos, last) && pos != Closed && pos != Ended && c.pc != Gone
    ensures ClientStep(c, true, extra, true, down).pc != Gone
  {
    if Cycling(c) {
      ClientNotFinishing(c, |c.log| % 5);
    }
  }

  lemma {:induction false} ClientNotFinishing(c: Conn, p: int)
    requires 0 <= p < 5 && InPhase(c, p)
    ensures c.pc != Finish
  {
  }

  lemma {:induction false} ThereServer(s: State, extra: nat)
    requires There(s)
    ensures There(ServerStep(s, extra))
  {
    ServerKeeps(s, extra);
    OnlyThatKills(s, extra);
    ServerEndsNobody(s, extra);
  }

  lemma {:induction false} ServerEndsNobody(s: State, extra: nat)
    requires WellFormed(s)
    ensures var s' := ServerStep(s, extra);
            && (forall i :: 0 <= i < |s.conns| ==>
                  s'.conns[i].pc == s.conns[i].pc && s'.conns[i].down == s.conns[i].down)
            && s'.isWorking == s.isWorking
            && (s.isWorking && (InHandshake(s.pc) || InService(s.pc)) && s'.pc != Killed && !s'.pc.HsRefuse? ==>
                  InHandshake(s'.pc) || InService(s'.pc))
  {
  }

  lemma {:induction false} ThereClient(s: State, act: Action)
    requires There(s) && act.Client? && act.ok
    ensures There(Step(s, act))
  {
    ClientTurnKeeps(s, act);
    if act.i < |s.conns| {
      var pos := PositionOf(s.pc, |s.conns|, act.i);
      assert ConnInv(s.conns[act.i], pos, act.i == |s.conns| - 1);
      ClientThere(s.conns[act.i], pos, act.i == |s.conns| - 1, act.extra, act.down);
      assert Open(s, act.i);
    }
  }

  lemma {:induction false} ThereStep(s: State, act: Action)
    requires There(s) && Willing(act)
    ensures There(Step(s, act))
  {
    if act.Server? {
      ThereServer(s, act.extra);
    } else {
      ThereClient(s, act);
    }
  }

  /** Whose connection is being set up; n when all are. */
  function Current(pc: ServerPc, n: nat): nat {
    if InHandshake(pc) then pc.i else n
  }

  /** Steps of the server left in the handshake. */
  function ServerLeft(pc: ServerPc, n: nat): int {
    match pc
    case Accept(i) => 4 * (n - i) + 1
    case HsReady(i) => 4 * (n - i)
    case HsMonitor(i) => 4 * (n - i) - 1
    case HsConfirm(i) => 4 * (n - i) - 2
    case _ => 0
  }

  /** Steps the client is still away from what the server waits for. */
  function ClientLeft(pc: ServerPc, c: Conn): nat {
    match pc
    case Accept(_) => if c.pc == Unconnected then 1 else 0
    case HsReady(_) =>
      if c.toServer != [] then 0 else if c.pc == Unconnected then 3 else if c.pc == Checking then 2 else 1
    case HsConfirm(_) =>
      if c.toServer != [] then 0 else if c.pc == Head then 3 else if c.pc == Waiting then 2 else 1
    case _ => 0
  }

  function Lag(s: State): nat {
    var i := Current(s.pc, |s.conns|);
    if i < |s.conns| then ClientLeft(s.pc, s.conns[i]) else 0
  }

  function HandshakeLeft(s: State): int {
    10 * ServerLeft(s.pc, |s.conns|) + Lag(s)
  }

  lemma {:induction false} HandshakeServer(s: State, extra: nat)
    requires There(s) && InHandshake(s.pc)
    ensures var s' := ServerStep(s, extra);
            if Lag(s) == 0 then HandshakeLeft(s') < HandshakeLeft(s) && (InHandshake(s'.pc) || s'.pc == Listen)
            else s' == s
  {
    OnlyThatKills(s, extra);
    ServerKeeps(s, extra);
    if s.pc.i < |s.conns| {
      var c := s.conns[s.pc.i];
      assert ConnInv(c, PositionOf(s.pc, |s.conns|, s.pc.i), s.pc.i == |s.conns| - 1);
    }
  }

  lemma {:induction false} HandshakeClient(s: State, act: Action)
    requires There(s) && InHandshake(s.pc) && act.Client? && act.ok
    ensures var s' := Step(s, act);
            && s'.pc == s.pc && Lag(s') <= Lag(s)
            && (act.i == s.pc.i && Lag(s) > 0 ==> Lag(s') < Lag(s))
  {
    if act.i < |s.conns| && act.i == s.pc.i {
      var c := s.conns[act.i];
      assert ConnInv(c, PositionOf(s.pc, |s.conns|, act.i), act.i == |s.conns| - 1);
      assert Open(s, act.i);
      ClientCloser(c, s.pc, PositionOf(s.pc, |s.conns|, act.i), act.extra, act.down);
    }
  }

  lemma {:induction false} ClientCloser(c: Conn, pc: ServerPc, pos: Position, extra: nat, down: bool)
    requires AtPosition(c, pos) && c.pc != Gone
    requires match pc
             case Accept(_) => pos == NotYet
             case HsReady(_) => pos == NotYet
             case HsMonitor(_) => pos == MustMonitor
             case HsConfirm(_) => pos == AwaitConfirm
             case _ => false
    ensures var c' := ClientStep(c, true, extra, true, down);
            && ClientLeft(pc, c') <= ClientLeft(pc, c)
            && (ClientLeft(pc, c) > 0 ==> ClientLeft(pc, c') < ClientLeft(pc, c))
  {
    if pc.HsConfirm? && c.toServer == [] {
      ClientCommanded(c, Monitor, extra, true, down);
    }
  }

  lemma {:induction false} HandshakeStep(s: State, act: Action)
    requires There(s) && Willing(act) && InHandshake(s.pc)
    ensures var s' := Step(s, act);
            && HandshakeLeft(s') <= HandshakeLeft(s)
            && (InHandshake(s'.pc) || InService(s'.pc))
            && (HandshakeLeft(s') == HandshakeLeft(s) ==> s'.pc == s.pc && Lag(s') == Lag(s))
            && (IsTurn(act, Lag(s) == 0, s.pc.i) ==> HandshakeLeft(s') < HandshakeLeft(s))
  {
    if act.Server? {
      HandshakeServer(s, act.extra);
    } else {
      HandshakeClient(s, act);
    }
  }

  lemma {:induction false} HandshakeAfter(s: State, schedule: seq<Action>)
    requires There(s) && forall act :: act in schedule ==> Willing(act)
    ensures var s' := After(s, schedule);
            && There(s')
            && (InService(s.pc) ==> InService(s'.pc))
            && (InHandshake(s'.pc) ==> HandshakeLeft(s') <= HandshakeLeft(s))
            && (InHandshake(s'.pc) && HandshakeLeft(s') == HandshakeLeft(s) ==> s'.pc == s.pc && Lag(s') == Lag(s))
  {
    if schedule != [] {
      var front, act := schedule[..|schedule| - 1], schedule[|schedule| - 1];
      assert act in schedule && forall a :: a in front ==> a in schedule;
      HandshakeAfter(s, front);
      var t := After(s, front);
      ThereStep(t, act);
      if InHandshake(t.pc) {
        HandshakeStep(t, act);
      } else {
        ServiceStays(t, act);
      }
    }
  }

  lemma {:induction false} ServiceStays(s: State, act: Action)
    requires There(s) && There(Step(s, act)) && InService(s.pc) && Willing(act)
    ensures InService(Step(s, act).pc)
  {
  }

  lemma {:induction false} HandshakeRound(s: State, round: seq<Action>)
    requires There(s) && InHandshake(s.pc) && FullRound(round, |s.conns|) && forall act :: act in round ==> Willing(act)
    ensures var s' := After(s, round);
            InHandshake(s'.pc) ==> HandshakeLeft(s') < HandshakeLeft(s)
  {
    var i := HasTurn(round, |s.conns|, Lag(s) == 0, s.pc.i);
    var before, rest := round[..i], round[i + 1..];
    assert round[i] in round && (forall a :: a in before ==> a in round) && forall a :: a in rest ==> a in round;
    AfterSplit(s, round, i);
    HandshakeAfter(s, before);
    HandshakeTurn(s, After(s, before), round[i]);
    HandshakeAfter(Step(After(s, before), round[i]), rest);
  }

  lemma {:induction false} HandshakeTurn(s: State, t: State, act: Action)
    requires There(t) && Willing(act) && InHandshake(s.pc) && IsTurn(act, Lag(s) == 0, s.pc.i)
    requires InHandshake(t.pc) ==> HandshakeLeft(t) <= HandshakeLeft(s)
    requires InHandshake(t.pc) && HandshakeLeft(t) == HandshakeLeft(s) ==> t.pc == s.pc && Lag(t) == Lag(s)
    ensures There(Step(t, act))
    ensures InHandshake(Step(t, act).pc) ==> HandshakeLeft(Step(t, act)) < HandshakeLeft(s)
  {
    ThereStep(t, act);
    if InHandshake(t.pc) {
      HandshakeStep(t, act);
    } else {
      ServiceStays(t, act);
    }
  }

  lemma {:induction false} HandshakeRounds(s: State, rounds: seq<seq<Action>>)
    requires There(s)
    requires forall r :: r in rounds ==> FullRound(r, |s.conns|) && forall act :: act in r ==> Willing(act)
    ensures var s' := AfterRounds(s, rounds);
            && There(s')
            && (InService(s.pc) ==> InService(s'.pc))
            && (InHandshake(s'.pc) ==> HandshakeLeft(s') + |rounds| <= HandshakeLeft(s))
  {
    if rounds != [] {
      var front, last := rounds[..|rounds| - 1], rounds[|rounds| - 1];
      assert last in rounds && forall r :: r in front ==> r in rounds;
      HandshakeRounds(s, front);
      var t := AfterRounds(s, front);
      HandshakeAfter(t, last);
      if InHandshake(t.pc) {
        HandshakeRound(t, last);
      }
    }
  }

  lemma {:induction false} AlwaysThere(s0: State, schedule: seq<Action>)
    requires Initial(s0) && forall act :: act in schedule ==> Willing(act)
    ensures There(After(s0, schedule))
  {
    AlwaysInv(s0, []);
    HandshakeAfter(s0, schedule);
  }

  /** The handshake completes: from any moment of a run in which no client ends, 40 fair rounds for each
      interface and 20 more bring the server to its service loop, whatever its reads swallow. */
  lemma {:induction false} HandshakeCompletes(s0: State, schedule: seq<Action>, rounds: seq<seq<Action>>)
    requires Initial(s0) && forall act :: act in schedule ==> Willing(act)
    requires forall r :: r in rounds ==> FullRound(r, |s0.conns|) && forall act :: act in r ==> Willing(act)
    requires |rounds| >= 40 * |s0.conns| + 20
    ensures InService(AfterRounds(After(s0, schedule), rounds).pc)
  {
    AlwaysThere(s0, schedule);
    HandshakeEnds(After(s0, schedule), rounds);
  }

  lemma {:induction false} HandshakeBounds(s: State)
    requires WellFormed(s) && InHandshake(s.pc)
    ensures 10 <= HandshakeLeft(s) <= 40 * |s.conns| + 13
  {
  }

  lemma {:induction false} HandshakeEnds(s: State, rounds: seq<seq<Action>>)
    requires There(s) && |rounds| >= 40 * |s.conns| + 20
    requires forall r :: r in rounds ==> FullRound(r, |s.conns|) && forall act :: act in r ==> Willing(act)
    ensures InService(AfterRounds(s, rounds).pc)
  {
    HandshakeRounds(s, rounds);
    if InHandshake(s.pc) {
      HandshakeBounds(s);
      if InHandshake(AfterRounds(s, rounds).pc) {
        HandshakeBounds(AfterRounds(s, rounds));
      }
    }
  }

  // ---------- The shutdown loop ----------

  predicate Quitting(pc: ServerPc) {
    pc.QuitSend? || pc.QuitWait?
  }

  predicate Over(pc: ServerPc) {
    pc == Exited || pc == Killed
  }

  /** Something for the server to read is there or under way, or the client is at its display. */
  predicate Coming(c: Conn) {
    || c.toServer != []
    || c.pc in {Gone, Confirm, Display, ReportDown, RaiseLink, ReportUp, Finish}
    || (Resting(c) && c.toClient != [])
  }

  ghost predicate QuitInv(s: State) {
    && Inv(s)
    && (s.pc.QuitWait? ==> s.conns[s.pc.i].open && Coming(s.conns[s.pc.i]))
  }

  /** The client stays with its display for ever, and nothing it has sent is unread. */
  predicate Stays(c: Conn) {
    c.pc == Display && !c.down && c.toServer == []
  }

  /** The server waits for such a client. */
  predicate Stuck(s: State)
    requires WellFormed(s)
  {
    s.pc.QuitWait? && Stays(s.conns[s.pc.i])
  }

  function AnswerLeft(c: Conn): nat {
    if c.toServer != [] then 0
    else match c.pc
      case Gone => 0
      case Head => 4
      case Waiting => 3
      case RaiseLink => 2
      case Display => 2
      case _ => 1
  }

  function QuitLag(s: State): nat
    requires WellFormed(s)
  {
    if s.pc.QuitWait? then AnswerLeft(s.conns[s.pc.i]) else 0
  }

  function QuitLeft(s: State): int
    requires WellFormed(s)
  {
    match s.pc
    case QuitSend(i) => 10 * (2 * (|s.conns| - i) + 1)
    case QuitWait(i) => 20 * (|s.conns| - i) + QuitLag(s)
    case _ => 0
  }

  lemma {:induction false} ShutIsComing(c: Conn)
    requires Cycling(c)
    ensures Coming(c.(toClient := c.toClient + [ShutDown], log := c.log + [ShutDown]))
  {
    PhaseIsComing(c, |c.log| % 5);
  }

  lemma {:induction false} PhaseIsComing(c: Conn, p: int)
    requires 0 <= p < 5 && InPhase(c, p)
    ensures Resting(c) || c.pc in {Gone, Confirm, Display, ReportDown, RaiseLink, ReportUp}
  {
  }

  lemma {:induction false} QuitAsks(s: State, extra: nat)
    requires QuitInv(s) && s.pc.QuitSend?
    ensures var s' := ServerStep(s, extra);
            && (Quitting(s'.pc) || Over(s'.pc)) && QuitLeft(s') < QuitLeft(s)
            && (s'.pc.QuitWait? ==> s'.conns[s'.pc.i].open && Coming(s'.conns[s'.pc.i]))
  {
    if s.pc.i < |s.conns| {
      var c := s.conns[s.pc.i];
      assert ConnInv(c, Closing, s.pc.i == |s.conns| - 1);
      ShutIsComing(c);
    }
  }

  lemma {:induction false} QuitReads(s: State, extra: nat)
    requires QuitInv(s) && s.pc.QuitWait?
    ensures var s' := ServerStep(s, extra);
            if QuitLag(s) == 0 then s'.pc == QuitSend(s.pc.i + 1) && QuitLeft(s') < QuitLeft(s) else s' == s
  {
    DrainShape(s, extra);
  }

  lemma {:induction false} QuitServer(s: State, extra: nat)
    requires QuitInv(s) && Quitting(s.pc)
    ensures var s' := ServerStep(s, extra);
            && QuitInv(s') && (Quitting(s'.pc) || Over(s'.pc))
            && (if QuitLag(s) == 0 then QuitLeft(s') < QuitLeft(s) else s' == s)
  {
    ServerKeeps(s, extra);
    if s.pc.QuitSend? {
      QuitAsks(s, extra);
    } else {
      QuitReads(s, extra);
    }
  }

  lemma {:induction false} ClientComing(c: Conn, extra: nat, ok: bool, down: bool)
    requires Coming(c) && Commands(c.toClient)
    ensures var c' := ClientStep(c, true, extra, ok, down);
            && Coming(c') && AnswerLeft(c') <= AnswerLeft(c)
            && (AnswerLeft(c) > 0 && !(c.pc == Display && !c.down) ==> AnswerLeft(c') < AnswerLeft(c))
            && (c.pc == Display && !c.down ==> c' == c)
  {
    if c.pc == Waiting && c.toClient != [] {
      assert c.toClient[0] in c.toClient;
    }
  }

  lemma {:induction false} QuitClient(s: State, act: Action)
    requires QuitInv(s) && Quitting(s.pc) && act.Client?
    ensures var s' := Step(s, act);
            && QuitInv(s') && s'.pc == s.pc && QuitLag(s') <= QuitLag(s)
            && (Stuck(s) ==> Stuck(s'))
            && (s.pc.QuitWait? && act.i == s.pc.i && QuitLag(s) > 0 && !Stuck(s) ==> QuitLag(s') < QuitLag(s))
  {
    ClientTurnKeeps(s, act);
    if s.pc.QuitWait? && act.i == s.pc.i {
      var c := s.conns[act.i];
      assert ConnInv(c, Closed, act.i == |s.conns| - 1);
      ClientComing(c, act.extra, act.ok, act.down);
      ClientLog(c, true, act.extra, act.ok, act.down);
    }
  }

  /** The client that is to answer, if one is. */
  function Asked(pc: ServerPc): nat {
    if pc.QuitWait? then pc.i else 0
  }

  lemma {:induction false} QuitStep(s: State, act: Action)
    requires QuitInv(s) && Quitting(s.pc) && !act.Interrupt?
    ensures var s' := Step(s, act);
            && QuitInv(s') && (Quitting(s'.pc) || Over(s'.pc)) && QuitLeft(s') <= QuitLeft(s)
            && (QuitLeft(s') == QuitLeft(s) ==> s'.pc == s.pc && QuitLag(s') == QuitLag(s))
            && (Stuck(s) ==> Stuck(s'))
            && (!Stuck(s) && IsTurn(act, QuitLag(s) == 0, Asked(s.pc)) ==> QuitLeft(s') < QuitLeft(s))
  {
    if act.Server? {
      QuitServer(s, act.extra);
    } else {
      QuitClient(s, act);
    }
  }

  lemma {:induction false} OverStays(s: State, act: Action)
    requires QuitInv(s) && Over(s.pc) && !act.Interrupt?
    ensures QuitInv(Step(s, act)) && Step(s, act).pc == s.pc
  {
    if act.Client? {
      ClientTurnKeeps(s, act);
    }
  }

  /** Done, stuck, or closer to the end by k. */
  ghost predicate Nearer(s: State, s': State, k: nat)
    requires WellFormed(s) && WellFormed(s')
  {
    Over(s'.pc) || Stuck(s') || (Quitting(s'.pc) && QuitLeft(s') + k <= QuitLeft(s))
  }

  lemma {:induction false} QuitAfter(s: State, schedule: seq<Action>)
    requires QuitInv(s) && (Quitting(s.pc) || Over(s.pc)) && forall act :: act in schedule ==> !act.Interrupt?
    ensures var s' := After(s, schedule);
            && QuitInv(s') && Nearer(s, s', 0)
            && (Over(s.pc) ==> Over(s'.pc)) && (Stuck(s) ==> Stuck(s'))
            && (Over(s'.pc) || Stuck(s') || QuitLeft(s') < QuitLeft(s) || (s'.pc == s.pc && QuitLag(s') == QuitLag(s)))
  {
    if schedule != [] {
      var front, act := schedule[..|schedule| - 1], schedule[|schedule| - 1];
      assert act in schedule && forall a :: a in front ==> a in schedule;
      QuitAfter(s, front);
      var t := After(s, front);
      if Quitting(t.pc) {
        QuitStep(t, act);
      } else {
        OverStays(t, act);
      }
    }
  }

  lemma {:induction false} QuitRound(s: State, round: seq<Action>)
    requires QuitInv(s) && (Quitting(s.pc) || Over(s.pc))
    requires FullRound(round, |s.conns|) && forall act :: act in round ==> !act.Interrupt?
    ensures QuitInv(After(s, round)) && Nearer(s, After(s, round), 1)
  {
    QuitAfter(s, round);
    if Quitting(s.pc) && !Stuck(s) {
      var i := HasTurn(round, |s.conns|, QuitLag(s) == 0, Asked(s.pc));
      var before, rest := round[..i], round[i + 1..];
      assert round[i] in round && (forall a :: a in before ==> a in round) && forall a :: a in rest ==> a in round;
      AfterSplit(s, round, i);
      QuitAfter(s, before);
      var t := After(s, before);
      if Quitting(t.pc) {
        QuitStep(t, round[i]);
      } else {
        OverStays(t, round[i]);
      }
      QuitAfter(Step(t, round[i]), rest);
    }
  }

  lemma {:induction false} QuitRounds(s: State, rounds: seq<seq<Action>>)
    requires QuitInv(s) && (Quitting(s.pc) || Over(s.pc))
    requires forall r :: r in rounds ==> FullRound(r, |s.conns|) && forall act :: act in r ==> !act.Interrupt?
    ensures QuitInv(AfterRounds(s, rounds)) && Nearer(s, AfterRounds(s, rounds), |rounds|)
  {
    if rounds != [] {
      var front, last := rounds[..|rounds| - 1], rounds[|rounds| - 1];
      assert last in rounds && forall r :: r in front ==> r in rounds;
      QuitRounds(s, front);
      var t := AfterRounds(s, front);
      QuitAfter(t, last);
      QuitRound(t, last);
    }
  }

  /** In every run, SIGINTs included, the client the shutdown loop waits for has an answer there or under way, or is
      at its display, where it may stay. */
  lemma {:induction false} AlwaysComing(s0: State, schedule: seq<Action>)
    requires Initial(s0)
    ensures QuitInv(After(s0, schedule))
  {
    AlwaysInv(s0, schedule);
    if schedule != [] {
      var front, act := schedule[..|schedule| - 1], schedule[|schedule| - 1];
      AlwaysComing(s0, front);
      var t := After(s0, front);
      if Quitting(t.pc) {
        ComingStep(t, act);
      } else {
        NotYetWaiting(t, act);
      }
    }
  }

  lemma {:induction false} ComingStep(s: State, act: Action)
    requires QuitInv(s) && Quitting(s.pc)
    ensures var s' := Step(s, act);
            s'.pc.QuitWait? ==> s'.conns[s'.pc.i].open && Coming(s'.conns[s'.pc.i])
  {
    if !act.Interrupt? {
      QuitStep(s, act);
    }
  }

  lemma {:induction false} NotYetWaiting(s: State, act: Action)
    requires WellFormed(s) && !Quitting(s.pc)
    ensures !Step(s, act).pc.QuitWait?
  {
  }

  /** The shutdown loop completes, or waits for a client that stays with its display: from any moment in it,
      20 fair rounds for each interface and 20 more bring the server to its end or there, and not both. */
  lemma {:induction false} ShutdownCompletes(s0: State, schedule: seq<Action>, rounds: seq<seq<Action>>)
    requires Initial(s0) && Quitting(After(s0, schedule).pc)
    requires forall r :: r in rounds ==> FullRound(r, |s0.conns|) && forall act :: act in r ==> !act.Interrupt?
    requires |rounds| >= 20 * |s0.conns| + 20
    ensures var t := AfterRounds(After(s0, schedule), rounds);
            Over(t.pc) <==> !Stuck(t)
  {
    AlwaysComing(s0, schedule);
    QuitEnds(After(s0, schedule), rounds);
  }

  lemma {:induction false} QuitBounds(s: State)
    requires WellFormed(s) && Quitting(s.pc)
    ensures 10 <= QuitLeft(s) <= 20 * |s.conns| + 10
  {
  }

  lemma {:induction false} QuitEnds(s: State, rounds: seq<seq<Action>>)
    requires QuitInv(s) && Quitting(s.pc)
    requires forall r :: r in rounds ==> FullRound(r, |s.conns|) && forall act :: act in r ==> !act.Interrupt?
    requires |rounds| >= 20 * |s.conns| + 20
    ensures Over(AfterRounds(s, rounds).pc) <==> !Stuck(AfterRounds(s, rounds))
  {
    QuitRounds(s, rounds);
    QuitBounds(s);
    if Quitting(AfterRounds(s, rounds).pc) {
      QuitBounds(AfterRounds(s, rounds));
    }
  }

  /** And there it stays until another SIGINT. */
  lemma {:induction false} StuckForever(s: State, schedule: seq<Action>)
    requires WellFormed(s) && Stuck(s) && forall act :: act in schedule ==> !act.Interrupt?
    ensures Stuck(After(s, schedule)) && After(s, schedule).pc == s.pc
  {
    if schedule != [] {
      var front, act := schedule[..|schedule| - 1], schedule[|schedule| - 1];
      assert act in schedule && forall a :: a in front ==> a in schedule;
      StuckForever(s, front);
    }
  }

  predicate SawDown(c: Conn) {
    c.pc in {Waiting, Confirm, Display} ==> c.down
  }

  lemma {:induction false} AlwaysSawDown(s0: State, schedule: seq<Action>, i: nat)
    requires Initial(s0) && i < |s0.conns|
    requires forall act :: act in schedule && act.Client? && act.i == i ==> act.down
    ensures SawDown(After(s0, schedule).conns[i])
  {
    if schedule != [] {
      var front, act := schedule[..|schedule| - 1], schedule[|schedule| - 1];
      assert act in schedule && forall a :: a in front ==> a in schedule;
      AlwaysSawDown(s0, front, i);
      var t := After(s0, front);
      if act.Server? {
        ServerEndsNobody(t, act.extra);
      } else if act.Client? && act.i == i {
        ClientSawDown(t.conns[i], Open(t, i), act);
      }
    }
  }

  lemma {:induction false} ClientSawDown(c: Conn, open: bool, act: Action)
    requires SawDown(c) && act.Client? && act.down
    ensures SawDown(ClientStep(c, open, act.extra, act.ok, act.down))
  {
  }

  /** A client whose snapshots were all down is never the one: with down snapshots the loop completes. */
  lemma {:induction false} DownNeverSticks(s0: State, schedule: seq<Action>, i: nat)
    requires Initial(s0) && i < |s0.conns|
    requires forall act :: act in schedule && act.Client? && act.i == i ==> act.down
    ensures Stuck(After(s0, schedule)) ==> After(s0, schedule).pc.i != i
  {
    AlwaysSawDown(s0, schedule, i);
  }
}
