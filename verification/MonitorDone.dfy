/** The end of every conversation: what follows Shut Down on a connection, and whether the server closes its end. */
module MonitorDone {
  import opened MonitorProtocol
  import opened MonitorConversation
  import Runs = MonitorRuns
  import opened MonitorCompletion

  // ---------- The whole conversation ----------

  /** A conversation without the two messages that end it. */
  function Core(log: seq<Message>): seq<Message> {
    if log == [] then []
    else
      var m := log[|log| - 1];
      Core(log[..|log| - 1]) + if m == ShutDown || m == Done then [] else [m]
  }

  lemma {:induction false} CoreAppend(log: seq<Message>, m: Message)
    ensures Core(log + [m]) == Core(log) + if m == ShutDown || m == Done then [] else [m]
  {
    assert (log + [m])[..|log|] == log;
  }

  lemma {:induction false} LetterIsCore(k: nat)
    ensures Letter(k) != ShutDown && Letter(k) != Done
  {
  }

  lemma {:induction false} LastLetter(log: seq<Message>)
    requires InLanguage(log) && log != []
    ensures InLanguage(log[..|log| - 1]) && log == log[..|log| - 1] + [Letter(|log| - 1)]
  {
    hide Letter;
    assert log[|log| - 1] == Letter(|log| - 1);
  }

  lemma {:induction false} CoreOfLanguage(log: seq<Message>)
    requires InLanguage(log)
    ensures Core(log) == log
  {
    hide Letter, InLanguage;
    if log != [] {
      var front := log[..|log| - 1];
      LastLetter(log);
      CoreOfLanguage(front);
      LetterIsCore(|front|);
      CoreAppend(front, Letter(|front|));
    }
  }

  /** What is queued for the client besides a Shut Down at the end. */
  function Commanding(q: seq<Message>): seq<Message> {
    if q != [] && q[|q| - 1] == ShutDown then q[..|q| - 1] else q
  }

  /** A client that goes on, after n messages of the cycle, with q queued for it. */
  predicate Going(pc: ClientPc, q: seq<Message>, n: nat) {
    var resting := pc == Head || pc == Waiting;
    if n == 0 then q == [] && (pc == Unconnected || pc == Checking || pc == Announce)
    else match n % 5
      case 0 => (resting && q == [SetLinkUp]) || ((pc == RaiseLink || pc == ReportUp) && q == [])
      case 2 => (resting && q == [Monitor]) || (pc == Confirm && q == [])
      case 3 => (pc == Display || pc == ReportDown) && q == []
      case _ => resting && q == []
  }

  /** Done is the last message, if it is there, and comes after Shut Down; only a client that has read Shut Down
      is about to send it. */
  ghost predicate Parting(c: Conn) {
    && (forall m :: m in c.toClient ==> m in c.log)
    && (Done in c.log ==> c.pc == Gone && Done !in c.log[..|c.log| - 1] && c.log[|c.log| - 1] == Done)
    && (Done in c.log || c.pc == Finish ==> ShutDown in c.log)
  }

  ghost predicate Whole(c: Conn) {
    && InLanguage(Core(c.log)) && Parting(c)
    && (c.pc == Finish || c.pc == Gone || Going(c.pc, Commanding(c.toClient), |Core(c.log)|))
  }

  lemma {:induction false} EarlyGoes(c: Conn)
    requires (Early(c) || Greeted(c)) && c.pc != Gone
    ensures Going(c.pc, Commanding(c.toClient), |c.log|) && c.pc != Finish
  {
  }

  lemma {:induction false} CommandedGoes(c: Conn, m: Message, n: nat)
    requires Commanded(c, m) && n > 0 && c.pc != Gone
    requires if n % 5 == 0 then m == SetLinkUp else n % 5 == 2 && m == Monitor
    ensures Going(c.pc, Commanding(c.toClient), n) && c.pc != Finish
  {
  }

  lemma {:induction false} PhaseGoes(c: Conn, n: nat)
    requires n > 0 && InPhase(c, n % 5) && c.pc != Gone
    ensures Going(c.pc, Commanding(c.toClient), n) && c.pc != Finish
  {
    if n % 5 == 0 {
      CommandedGoes(c, SetLinkUp, n);
    } else if n % 5 == 2 {
      CommandedGoes(c, Monitor, n);
    }
  }

  lemma {:induction false} ConfirmGoes(c: Conn)
    requires Confirming(c) && c.pc != Gone
    ensures Going(c.pc, Commanding(c.toClient), |c.log|) && c.pc != Finish
  {
    if |c.log| == 2 {
      CommandedGoes(c, Monitor, 2);
    }
  }

  predicate Parted(pos: Position) {
    pos == Closed || pos == Ended
  }

  /** As long as the server has not come to Shut Down, the invariant of the conversation says it all. */
  lemma {:induction false} NotParted(c: Conn, pos: Position, last: bool)
    requires ConnInv(c, pos, last) && !Parted(pos)
    ensures InLanguage(c.log) && Core(c.log) == c.log
    ensures c.pc != Finish && (c.pc == Gone || Going(c.pc, Commanding(c.toClient), |c.log|))
  {
    if pos == NotYet || pos == MustMonitor {
      assert InLanguage(c.log) by {
        assert forall k: nat :: k < |c.log| ==> c.log[k] == Letter(k);
      }
      if c.pc != Gone {
        EarlyGoes(c);
      }
    } else if pos == AwaitConfirm {
      if c.pc != Gone {
        ConfirmGoes(c);
      }
    } else if c.pc != Gone {
      PhaseGoes(c, |c.log|);
    }
    CoreOfLanguage(c.log);
  }

  // ---------- One step ----------

  lemma {:induction false} ReadGoes(c: Conn, open: bool, extra: nat)
    requires Whole(c) && c.pc == Waiting
    ensures Whole(ClientStep(c, open, extra, true, true))
  {
    if c.toClient == [] {
      ReadNothing(c, open, extra);
    } else {
      hide Whole, Commanding, Dispatch;
      var r := Read(c.toClient, !open, extra);
      OneCommand(c);
      ShortQueue(c.toClient, extra);
      DispatchGoes(c, r.m, r.rest);
    }
  }

  lemma {:induction false} ReadNothing(c: Conn, open: bool, extra: nat)
    requires Whole(c) && c.pc == Waiting && c.toClient == []
    ensures Whole(ClientStep(c, open, extra, true, true))
  {
    if !open {
      hide InLanguage, Core;
      assert ClientStep(c, open, extra, true, true) == c.(pc := Head, confused := true);
    }
  }

  lemma {:induction false} OneCommand(c: Conn)
    requires Whole(c) && c.pc == Waiting
    ensures |Commanding(c.toClient)| <= 1
  {
  }

  lemma {:induction false} ShortQueue(q: seq<Message>, extra: nat)
    requires q != [] && |Commanding(q)| <= 1
    ensures var r := Read(q, false, extra);
            && r.m == (if Commanding(q) == [] then ShutDown else Commanding(q)[0])
            && r.m in q && Commanding(r.rest) == [] && forall m :: m in r.rest ==> m in q
  {
  }

  lemma {:induction false} DispatchGoes(c: Conn, m: Message, rest: seq<Message>)
    requires Whole(c) && c.pc == Waiting && c.toClient != [] && m in c.toClient
    requires m == if Commanding(c.toClient) == [] then ShutDown else Commanding(c.toClient)[0]
    requires Commanding(rest) == [] && forall x :: x in rest ==> x in c.toClient
    ensures Whole(Dispatch(c.(toClient := rest), m))
  {
  }

  lemma {:induction false} SayGoes(c: Conn, open: bool)
    requires Whole(c) && Writes(c.pc)
    ensures Whole(Say(c, open, Written(c.pc), AfterWrite(c.pc)))
  {
    if open {
      var m := Written(c.pc);
      var c' := Say(c, open, m, AfterWrite(c.pc));
      CoreAppend(c.log, m);
      SayParts(c, c', m);
      if m != Done {
        NextLetter(c);
        LanguageExtends(Core(c.log));
        SayMoves(c);
      }
    }
  }

  lemma {:induction false} SayParts(c: Conn, c': Conn, m: Message)
    requires Parting(c) && Writes(c.pc) && m == Written(c.pc)
    requires c'.log == c.log + [m] && c'.toClient == c.toClient && c'.pc == AfterWrite(c.pc)
    ensures Parting(c')
  {
    assert Done !in c.log && c'.log[..|c.log|] == c.log && c'.log[|c.log|] == m;
  }

  lemma {:induction false} NextLetter(c: Conn)
    requires Writes(c.pc) && c.pc != Finish && Going(c.pc, Commanding(c.toClient), |Core(c.log)|)
    ensures Written(c.pc) == Letter(|Core(c.log)|)
  {
  }

  lemma {:induction false} SayMoves(c: Conn)
    requires Writes(c.pc) && c.pc != Finish && Going(c.pc, Commanding(c.toClient), |Core(c.log)|)
    ensures Going(AfterWrite(c.pc), Commanding(c.toClient), |Core(c.log)| + 1)
  {
  }

  lemma {:induction false} LocalGoes(c: Conn, open: bool, ok: bool, down: bool)
    requires Whole(c) && !Writes(c.pc) && c.pc != Waiting
    ensures Whole(LocalStep(c, open, ok, down))
  {
    LocalLog(c, open, ok, down);
  }

  lemma {:induction false} ClientGoes(c: Conn, open: bool, extra: nat, ok: bool, down: bool)
    requires Whole(c)
    ensures Whole(ClientStep(c, open, extra, ok, down))
  {
    if Writes(c.pc) {
      SayGoes(c, open);
    } else if c.pc == Waiting {
      ReadGoes(c, open, extra);
    } else {
      LocalGoes(c, open, ok, down);
    }
  }

  /** The server, at position pos, sends m. */
  predicate Sent(c: Conn, c': Conn, m: Message, pos: Position) {
    && m != Done && c'.log == c.log + [m] && c'.toClient == c.toClient + [m]
    && ((m == ShutDown && pos == Closing) || pos == MustMonitor || pos == OwesUp || pos == OwesMonitor)
  }

  /** What a step of the server does to connection i: nothing, a read, or one message sent to a client that is
      there. */
  lemma {:induction false} ServerShape(s: State, extra: nat, i: nat)
    requires Inv(s) && i < |s.conns|
    ensures var c, c' := s.conns[i], ServerStep(s, extra).conns[i];
            && c'.pc == c.pc
            && ((c'.log == c.log && c'.toClient == c.toClient)
                || (c.pc != Gone && exists m :: Sent(c, c', m, PositionOf(s.pc, |s.conns|, i))))
  {
    match s.pc
    case HsMonitor(_) => SentOne(s, extra, i, Monitor);
    case Answer(m) => SentOne(s, extra, i, m);
    case QuitSend(_) => SentOne(s, extra, i, ShutDown);
    case QuitWait(_) => DrainShape(s, extra);
    case HsReady(_) => TookOnly(s, extra, i);
    case HsConfirm(_) => TookOnly(s, extra, i);
    case Listen => TookOnly(s, extra, i);
    case _ => Untouched(s, extra);
  }

  lemma {:induction false} Untouched(s: State, extra: nat)
    requires WellFormed(s) && (s.pc.Accept? || s.pc == LoopTest || s.pc == Exited || s.pc == Killed)
    ensures ServerStep(s, extra).conns == s.conns
  {
  }

  lemma {:induction false} SentOne(s: State, extra: nat, i: nat, m: Message)
    requires WellFormed(s) && Expected(s.pc) && i < |s.conns|
    requires (s.pc.HsMonitor? && m == Monitor) || s.pc == Answer(m) || (s.pc.QuitSend? && m == ShutDown)
    ensures var c, c' := s.conns[i], ServerStep(s, extra).conns[i];
            && c'.pc == c.pc
            && ((c'.log == c.log && c'.toClient == c.toClient)
                || (c.pc != Gone && Sent(c, c', m, PositionOf(s.pc, |s.conns|, i))))
  {
  }

  lemma {:induction false} TookOnly(s: State, extra: nat, i: nat)
    requires WellFormed(s) && i < |s.conns| && (s.pc.HsReady? || s.pc.HsConfirm? || s.pc.Listen?)
    ensures var c, c' := s.conns[i], ServerStep(s, extra).conns[i];
            c'.pc == c.pc && c'.log == c.log && c'.toClient == c.toClient
  {
  }

  lemma {:induction false} PartsStill(c: Conn, c': Conn, m: Message)
    requires Parting(c) && c.pc != Gone && m != Done
    requires c'.pc == c.pc && c'.log == c.log + [m] && c'.toClient == c.toClient + [m]
    ensures Parting(c')
  {
  }

  lemma {:induction false} ServerGoes(s: State, extra: nat, i: nat)
    requires Inv(s) && i < |s.conns| && Whole(s.conns[i])
    ensures Whole(ServerStep(s, extra).conns[i])
  {
    var s' := ServerStep(s, extra);
    var c, c' := s.conns[i], s'.conns[i];
    ServerKeeps(s, extra);
    ServerShape(s, extra, i);
    if c'.log != c.log {
      var m :| Sent(c, c', m, PositionOf(s.pc, |s.conns|, i));
      PartsStill(c, c', m);
      CoreAppend(c.log, m);
      var pos, last := PositionOf(s.pc, |s.conns|, i), i == |s.conns| - 1;
      assert ConnInv(c, pos, last);
      if pos == Closing {
        Asked(c, c', last);
      } else {
        AnsweredAt(s, i, extra);
        NotParted(c', PositionOf(s'.pc, |s'.conns|, i), last);
      }
    }
  }

  lemma {:induction false} Asked(c: Conn, c': Conn, last: bool)
    requires ConnInv(c, Closing, last) && c.pc != Gone
    requires c'.pc == c.pc && c'.log == c.log + [ShutDown] && c'.toClient == c.toClient + [ShutDown]
    ensures InLanguage(Core(c'.log)) && Going(c'.pc, Commanding(c'.toClient), |Core(c'.log)|)
  {
    hide Going, InLanguage, Core, BeforeShut;
    CoreAppend(c.log, ShutDown);
    NotParted(c, Closing, last);
    assert c.log + [] == c.log;
    assert Core(c'.log) == c.log;
    PhaseQueue(c, |c.log| % 5);
    WithShutDown(c.toClient);
  }

  lemma {:induction false} WithShutDown(q: seq<Message>)
    ensures Commanding(q + [ShutDown]) == q
  {
  }

  lemma {:induction false} PhaseQueue(c: Conn, p: int)
    requires 0 <= p < 5 && InPhase(c, p)
    ensures Commanding(c.toClient) == c.toClient
  {
  }

  lemma {:induction false} AnsweredAt(s: State, i: nat, extra: nat)
    requires Inv(s) && i < |s.conns| && PositionOf(s.pc, |s.conns|, i) in {MustMonitor, OwesUp, OwesMonitor}
    requires ServerStep(s, extra).conns[i].log != s.conns[i].log
    ensures Inv(ServerStep(s, extra))
    ensures var s' := ServerStep(s, extra);
            !Parted(PositionOf(s'.pc, |s'.conns|, i))
            && ConnInv(s'.conns[i], PositionOf(s'.pc, |s'.conns|, i), i == |s'.conns| - 1)
  {
    ServerKeeps(s, extra);
  }

  // ---------- Every run ----------

  lemma {:induction false} AlwaysWhole(s0: State, schedule: seq<Action>, i: nat)
    requires Initial(s0) && i < |s0.conns|
    ensures Whole(After(s0, schedule).conns[i])
  {
    if schedule != [] {
      hide Whole, Inv;
      var front, act := schedule[..|schedule| - 1], schedule[|schedule| - 1];
      AlwaysWhole(s0, front, i);
      AlwaysInv(s0, front);
      var s := After(s0, front);
      match act
      case Server(extra) => ServerGoes(s, extra, i);
      case Client(_, _, _, _) => ClientGoes(s.conns[i], Open(s, i), act.extra, act.ok, act.down);
      case Interrupt(_) =>
    } else {
      assert Whole(Fresh);
    }
  }

  /** From the first message to the last: without Shut Down and Done every conversation is a prefix of the cycle, on
      both sides of Shut Down; Done comes once, last, and after Shut Down, and its sender has ended. */
  lemma {:induction false} WholeConversation(s0: State, schedule: seq<Action>, i: nat)
    requires Initial(s0) && i < |s0.conns|
    ensures var c := After(s0, schedule).conns[i];
            && InLanguage(Core(c.log))
            && (Done in c.log ==>
                  && c.pc == Gone && c.log[|c.log| - 1] == Done
                  && Done !in c.log[..|c.log| - 1] && ShutDown in c.log)
  {
    AlwaysWhole(s0, schedule, i);
  }

  // ---------- Reading Shut Down ----------

  predicate TurnOf(act: Action, i: nat) {
    act.Client? && act.i == i
  }

  /** The server sends nothing on a connection it has told to shut down. */
  lemma {:induction false} QuietServer(s: State, extra: nat, i: nat)
    requires WellFormed(s) && i < |s.conns| && Parted(PositionOf(s.pc, |s.conns|, i))
    ensures var s' := ServerStep(s, extra);
            && s'.conns[i].pc == s.conns[i].pc && s'.conns[i].log == s.conns[i].log
            && s'.conns[i].toClient == s.conns[i].toClient
            && Parted(PositionOf(s'.pc, |s'.conns|, i))
  {
    match s.pc
    case QuitWait(_) => DrainShape(s, extra);
    case _ =>
  }

  lemma {:induction false} Quiet(s: State, act: Action, i: nat)
    requires Inv(s) && i < |s.conns| && !TurnOf(act, i)
    requires Parted(PositionOf(s.pc, |s.conns|, i))
    ensures var s' := Step(s, act);
            && s'.conns[i].pc == s.conns[i].pc && s'.conns[i].log == s.conns[i].log
            && s'.conns[i].toClient == s.conns[i].toClient
            && Parted(PositionOf(s'.pc, |s'.conns|, i))
  {
    assert WellFormed(s);
    hide Inv, ServerStep, ClientStep;
    match act
    case Server(extra) => QuietServer(s, extra, i);
    case _ =>
  }

  lemma {:induction false} InvStep(s: State, act: Action)
    requires Inv(s)
    ensures Inv(Step(s, act))
  {
    match act
    case Server(extra) => ServerKeeps(s, extra);
    case Client(_, _, _, _) => ClientTurnKeeps(s, act);
    case Interrupt(inRead) => InterruptKeeps(s, inRead);
  }

  /** The client i is about to say Done, and has not had its turn. */
  ghost predicate AboutToEnd(s: State, i: nat, log: seq<Message>) {
    && WellFormed(s) && Inv(s) && i < |s.conns| && Parted(PositionOf(s.pc, |s.conns|, i))
    && s.conns[i].pc == Finish && s.conns[i].log == log
  }

  ghost predicate HasEnded(s: State, i: nat, log: seq<Message>) {
    && WellFormed(s) && Inv(s) && i < |s.conns| && Parted(PositionOf(s.pc, |s.conns|, i))
    && s.conns[i].pc == Gone && s.conns[i].log == log
  }

  lemma {:induction false} WaitsToEnd(s: State, schedule: seq<Action>, i: nat, log: seq<Message>)
    requires AboutToEnd(s, i, log) && forall act :: act in schedule ==> !TurnOf(act, i)
    ensures AboutToEnd(After(s, schedule), i, log)
  {
    if schedule != [] {
      hide Step, Inv;
      var front, act := schedule[..|schedule| - 1], schedule[|schedule| - 1];
      assert act in schedule && forall a :: a in front ==> a in schedule;
      WaitsToEnd(s, front, i, log);
      Quiet(After(s, front), act, i);
      InvStep(After(s, front), act);
    }
  }

  lemma {:induction false} EndedStep(s: State, act: Action, i: nat, log: seq<Message>)
    requires HasEnded(s, i, log)
    ensures HasEnded(Step(s, act), i, log)
  {
    hide Inv;
    InvStep(s, act);
    if TurnOf(act, i) {
      GoneStays(s.conns[i], Open(s, i), act);
    } else {
      hide Step;
      Quiet(s, act, i);
    }
  }

  lemma {:induction false} GoneStays(c: Conn, open: bool, act: Action)
    requires act.Client? && c.pc == Gone
    ensures ClientStep(c, open, act.extra, act.ok, act.down) == c
  {
  }

  lemma {:induction false} StaysEnded(s: State, schedule: seq<Action>, i: nat, log: seq<Message>)
    requires HasEnded(s, i, log)
    ensures HasEnded(After(s, schedule), i, log)
  {
    if schedule != [] {
      hide Step, Inv;
      var front, act := schedule[..|schedule| - 1], schedule[|schedule| - 1];
      StaysEnded(s, front, i, log);
      EndedStep(After(s, front), act, i, log);
    }
  }

  lemma {:induction false} LastTurn(s: State, act: Action, i: nat, log: seq<Message>)
    requires AboutToEnd(s, i, log) && TurnOf(act, i)
    ensures HasEnded(Step(s, act), i, log + if Open(s, i) then [Done] else [])
  {
    InvStep(s, act);
  }

  lemma {:induction false} FinishIsParted(c: Conn, pos: Position, last: bool)
    requires ConnInv(c, pos, last) && c.pc == Finish
    ensures Parted(pos)
  {
    if !Parted(pos) {
      NotParted(c, pos, last);
    }
  }

  /** A client that has read Shut Down says Done with its next turn, and nothing else ever, if the server's end is
      still there; and it ends with that turn in any case. */
  lemma {:induction false} LastWord(s0: State, schedule: seq<Action>, i: nat,
                                    wait: seq<Action>, turn: Action, rest: seq<Action>)
    requires Initial(s0) && i < |s0.conns| && After(s0, schedule).conns[i].pc == Finish
    requires TurnOf(turn, i) && forall act :: act in wait ==> !TurnOf(act, i)
    ensures var c := After(s0, schedule).conns[i];
            var s := After(After(s0, schedule), wait);
            var t := After(Step(s, turn), rest);
            && s.conns[i].log == c.log && Done !in c.log && ShutDown in c.log
            && t.conns[i].pc == Gone
            && t.conns[i].log == c.log + if Open(s, i) then [Done] else []
  {
    var s := After(s0, schedule);
    var c := s.conns[i];
    AlwaysWhole(s0, schedule, i);
    AlwaysInv(s0, schedule);
    assert ConnInv(c, PositionOf(s.pc, |s.conns|, i), i == |s.conns| - 1);
    FinishIsParted(c, PositionOf(s.pc, |s.conns|, i), i == |s.conns| - 1);
    Ends(s, i, c.log, wait, turn, rest);
  }

  lemma {:induction false} Ends(s: State, i: nat, log: seq<Message>,
                                wait: seq<Action>, turn: Action, rest: seq<Action>)
    requires AboutToEnd(s, i, log) && TurnOf(turn, i) && forall act :: act in wait ==> !TurnOf(act, i)
    ensures var u := After(s, wait);
            var t := After(Step(u, turn), rest);
            && AboutToEnd(u, i, log)
            && HasEnded(t, i, log + if Open(u, i) then [Done] else [])
  {
    hide Step, Inv;
    var u := After(s, wait);
    WaitsToEnd(s, wait, i, log);
    LastTurn(u, turn, i, log);
    StaysEnded(Step(u, turn), rest, i, log + if Open(u, i) then [Done] else []);
  }

  // ---------- Closing the connection ----------

  lemma {:induction false} OpenStays(s: State, schedule: seq<Action>, i: nat)
    requires Inv(s) && i < |s.conns| && Parted(PositionOf(s.pc, |s.conns|, i)) && s.pc != QuitWait(i)
    ensures var t := After(s, schedule);
            && Inv(t) && t.pc != QuitWait(i) && Parted(PositionOf(t.pc, |t.conns|, i))
            && t.conns[i].open == s.conns[i].open
  {
    if schedule != [] {
      hide Inv;
      var front, act := schedule[..|schedule| - 1], schedule[|schedule| - 1];
      OpenStays(s, front, i);
      InvStep(After(s, front), act);
      OpenStep(After(s, front), act, i);
    }
  }

  lemma {:induction false} OpenStep(s: State, act: Action, i: nat)
    requires Inv(s) && i < |s.conns| && Parted(PositionOf(s.pc, |s.conns|, i)) && s.pc != QuitWait(i)
    ensures var s' := Step(s, act);
            && s'.pc != QuitWait(i) && Parted(PositionOf(s'.pc, |s'.conns|, i))
            && s'.conns[i].open == s.conns[i].open
  {
    match act
    case Server(extra) => OpenServer(s, extra, i);
    case Client(j, _, _, _) =>
      if j < |s.conns| {
        ClientLog(s.conns[j], Open(s, j), act.extra, act.ok, act.down);
      }
    case Interrupt(_) =>
  }

  lemma {:induction false} OpenServer(s: State, extra: nat, i: nat)
    requires WellFormed(s) && i < |s.conns| && Parted(PositionOf(s.pc, |s.conns|, i)) && s.pc != QuitWait(i)
    ensures var s' := ServerStep(s, extra);
            && s'.pc != QuitWait(i) && Parted(PositionOf(s'.pc, |s'.conns|, i))
            && s'.conns[i].open == s.conns[i].open
  {
    match s.pc
    case QuitWait(_) => DrainShape(s, extra);
    case _ =>
  }

  /** The server closes connection i if and only if the first message it reads after asking is Done: in every run, and
      for good, whatever ends its wait there. */
  lemma {:induction false} ClosedExactly(s0: State, schedule: seq<Action>, i: nat, act: Action, rest: seq<Action>)
    requires Initial(s0) && After(s0, schedule).pc == QuitWait(i) && After(s0, schedule + [act]).pc != QuitWait(i)
    ensures var q := After(s0, schedule).conns[i].toServer;
            After(s0, schedule + [act] + rest).conns[i].open <==> !(act.Server? && q != [] && q[0] == Done)
  {
    var s := After(s0, schedule);
    AlwaysComing(s0, schedule);
    assert (schedule + [act])[..|schedule|] == schedule;
    var s' := Step(s, act);
    InvStep(s, act);
    if act.Server? {
      DrainShape(s, act.extra);
    }
    OpenStays(s', rest, i);
    Runs.AfterConcat(s0, schedule + [act], rest);
  }
}
