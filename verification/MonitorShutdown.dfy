/** The shutdown loop of Assignments/A1: every client is told to shut down, and told once. */
module MonitorShutdown {
  import opened MonitorProtocol
  import opened MonitorConversation

  /** How often Shut Down was sent. */
  function Shuts(log: seq<Message>): nat {
    if log == [] then 0
    else Shuts(log[..|log| - 1]) + if log[|log| - 1] == ShutDown then 1 else 0
  }

  ghost predicate Told(s: State, i: nat)
    requires i < |s.conns|
  {
    ToldAt(s.pc, |s.conns|, i, Shuts(s.conns[i].log))
  }

  predicate ToldAt(pc: ServerPc, n: nat, i: nat, shuts: nat) {
    if PositionOf(pc, n, i) == Closed || pc == Exited then shuts == 1
    else if pc == Killed then shuts <= 1 else shuts == 0
  }

  lemma {:induction false} NoShuts(log: seq<Message>)
    requires ShutDown !in log
    ensures Shuts(log) == 0
  {
    if log != [] {
      NoShuts(log[..|log| - 1]);
    }
  }

  lemma {:induction false} OneMore(log: seq<Message>, m: Message)
    ensures Shuts(log + [m]) == Shuts(log) + if m == ShutDown then 1 else 0
  {
    assert (log + [m])[..|log|] == log;
  }

  /** A connection the shutdown loop has not reached was never told. */
  lemma {:induction false} NotYetTold(c: Conn, pos: Position)
    requires AtPosition(c, pos) && pos != Closed && pos != Ended
    ensures Shuts(c.log) == 0
  {
    if InLanguage(c.log) {
      LanguageNotShut(c.log);
    }
    NoShuts(c.log);
  }

  /** No client sends Shut Down. */
  lemma {:induction false} ClientNeverTells(c: Conn, open: bool, extra: nat, ok: bool, down: bool)
    ensures Shuts(ClientStep(c, open, extra, ok, down).log) == Shuts(c.log)
  {
    if Writes(c.pc) {
      if open {
        OneMore(c.log, Written(c.pc));
      }
    } else if c.pc != Waiting {
      LocalLog(c, open, ok, down);
    }
  }

  lemma {:induction false} TellClient(s: State, act: Action, i: nat)
    requires WellFormed(s) && act.Client? && i < |s.conns| && Told(s, i)
    ensures Told(Step(s, act), i)
  {
    if act.i == i {
      ClientNeverTells(s.conns[i], Open(s, i), act.extra, act.ok, act.down);
    }
  }

  /** The loop tells connection j as it moves past it. */
  lemma {:induction false} TellQuit(s: State, extra: nat, i: nat)
    requires WellFormed(s) && s.pc.QuitSend? && i < |s.conns| && Told(s, i)
    ensures Told(ServerStep(s, extra), i)
  {
    QuitShape(s, extra, i);
    OneMore(s.conns[i].log, ShutDown);
    var s' := ServerStep(s, extra);
    QuitTells(s.pc.i, s'.pc, |s.conns|, i, Shuts(s.conns[i].log), Shuts(s'.conns[i].log));
  }

  lemma {:induction false} QuitTells(j: nat, pc': ServerPc, n: nat, i: nat, before: nat, after: nat)
    requires j <= n && i < n && ToldAt(QuitSend(j), n, i, before)
    requires pc' == (if j == n then Exited else QuitWait(j)) || pc' == Killed
    requires after == if pc' == QuitWait(j) && i == j then before + 1 else before
    ensures ToldAt(pc', n, i, after)
  {
  }

  lemma {:induction false} QuitShape(s: State, extra: nat, i: nat)
    requires WellFormed(s) && s.pc.QuitSend? && i < |s.conns|
    ensures var j, s' := s.pc.i, ServerStep(s, extra);
            && (s'.pc == (if j == |s.conns| then Exited else QuitWait(j)) || s'.pc == Killed)
            && s'.conns[i].log == if s'.pc == QuitWait(j) && i == j then s.conns[i].log + [ShutDown] else s.conns[i].log
  {
  }

  lemma {:induction false} TellWait(s: State, extra: nat, i: nat)
    requires WellFormed(s) && s.pc.QuitWait? && i < |s.conns| && Told(s, i)
    ensures Told(ServerStep(s, extra), i)
  {
  }

  /** Before the shutdown loop the invariant of the conversation says it all, but for a server that is
      ended by a write to a client that is gone. */
  lemma {:induction false} TellBefore(s: State, extra: nat, i: nat)
    requires Inv(s) && !s.pc.QuitSend? && !s.pc.QuitWait? && i < |s.conns| && Told(s, i)
    ensures Told(ServerStep(s, extra), i)
  {
    ServerKeeps(s, extra);
    KilledKeepsLogs(s, extra);
    NotToldIn(ServerStep(s, extra), i);
  }

  lemma {:induction false} NotToldIn(s: State, i: nat)
    requires Inv(s) && i < |s.conns|
    ensures PositionOf(s.pc, |s.conns|, i) !in {Closed, Ended} ==> Shuts(s.conns[i].log) == 0
  {
    var pos := PositionOf(s.pc, |s.conns|, i);
    assert ConnInv(s.conns[i], pos, i == |s.conns| - 1);
    if pos != Closed && pos != Ended {
      NotYetTold(s.conns[i], pos);
    }
  }

  lemma {:induction false} KilledKeepsLogs(s: State, extra: nat)
    requires WellFormed(s) && !s.pc.QuitSend? && !s.pc.QuitWait?
    ensures var s' := ServerStep(s, extra);
            && (s'.pc == Killed || s'.pc == Exited ==> s'.conns == s.conns && (s'.pc == Exited ==> s.pc == Exited))
            && (forall i :: PositionOf(s'.pc, |s'.conns|, i) != Closed)
  {
  }

  lemma {:induction false} TellStep(s: State, act: Action, i: nat)
    requires Inv(s) && i < |s.conns| && Told(s, i)
    ensures Told(Step(s, act), i)
  {
    match act
    case Server(extra) =>
      if s.pc.QuitSend? {
        TellQuit(s, extra, i);
      } else if s.pc.QuitWait? {
        TellWait(s, extra, i);
      } else {
        TellBefore(s, extra, i);
      }
    case Client(_, _, _, _) => TellClient(s, act, i);
    case Interrupt(_) =>
  }

  /** At any moment of any run a client has been told to shut down once if the shutdown loop is past it, at
      most once if the server was killed, and never otherwise; after a full shutdown, exactly once. */
  lemma {:induction false} ShutDownOnce(s0: State, schedule: seq<Action>, i: nat)
    requires Initial(s0) && i < |s0.conns|
    ensures Told(After(s0, schedule), i)
  {
    if schedule == [] {
      NoShuts([]);
    } else {
      var front := schedule[..|schedule| - 1];
      ShutDownOnce(s0, front, i);
      AlwaysInv(s0, front);
      TellStep(After(s0, front), schedule[|schedule| - 1], i);
    }
  }

  // ---------- When the loop is entered ----------

  predicate Stopping(pc: ServerPc) {
    pc.QuitSend? || pc.QuitWait? || pc.Exited?
  }

  /** The server shuts down only after a SIGINT. */
  lemma {:induction false} WorksOn(s: State, act: Action)
    requires WellFormed(s) && s.isWorking && !Stopping(s.pc) && !act.Interrupt?
    ensures Step(s, act).isWorking && !Stopping(Step(s, act).pc)
  {
  }

  lemma {:induction false} OnlyAfterSigint(s0: State, schedule: seq<Action>)
    requires Initial(s0) && forall act :: act in schedule ==> !act.Interrupt?
    ensures After(s0, schedule).isWorking && !Stopping(After(s0, schedule).pc)
  {
    if schedule != [] {
      var front, act := schedule[..|schedule| - 1], schedule[|schedule| - 1];
      assert act in schedule && forall a :: a in front ==> a in schedule;
      OnlyAfterSigint(s0, front);
      WorksOn(After(s0, front), act);
    }
  }

  /** How far the server is from the shutdown loop once the flag is cleared. */
  function ToStop(pc: ServerPc): nat {
    match pc
    case Listen => 3
    case Answer(_) => 2
    case LoopTest => 1
    case _ => 0
  }

  lemma {:induction false} StopsSoon(s: State, extra: nat)
    requires WellFormed(s) && !s.isWorking && (s.pc == Listen || s.pc.Answer? || s.pc == LoopTest)
    ensures var s' := ServerStep(s, extra);
            || (s.pc == Listen && s' == s)
            || Stopping(s'.pc) || s'.pc == Killed
            || ((s'.pc.Answer? || s'.pc == LoopTest) && !s'.isWorking && ToStop(s'.pc) < ToStop(s.pc))
  {
  }

  /** A read that blocks blocks again. */
  lemma {:induction false} BlocksAgain(s: State, a: nat, b: nat)
    requires WellFormed(s) && s.pc == Listen && ServerStep(s, a) == s
    ensures ServerStep(s, b) == s
  {
  }

  lemma {:induction false} ThreeTurns(s: State, a: nat, b: nat, c: nat)
    requires WellFormed(s) && !s.isWorking && (s.pc == Listen || s.pc.Answer? || s.pc == LoopTest)
    ensures var t := ServerStep(ServerStep(ServerStep(s, a), b), c);
            Stopping(t.pc) || t.pc == Killed || (s.pc == Listen && t == s)
  {
    var s1 := ServerStep(s, a);
    StopsSoon(s, a);
    if s.pc == Listen && s1 == s {
      BlocksAgain(s, a, b);
      BlocksAgain(s, a, c);
    } else if s1.pc.Answer? || s1.pc == LoopTest {
      StopsSoon(s1, b);
      var s2 := ServerStep(s1, b);
      if s2.pc.Answer? || s2.pc == LoopTest {
        StopsSoon(s2, c);
      } else {
        StopStays(s2, c);
      }
    } else {
      StopStays(s1, b);
      StopStays(ServerStep(s1, b), c);
    }
  }

  lemma {:induction false} StopStays(s: State, extra: nat)
    requires WellFormed(s) && (Stopping(s.pc) || s.pc == Killed)
    ensures Stopping(ServerStep(s, extra).pc) || ServerStep(s, extra).pc == Killed
  {
  }

  /** And a SIGINT in the service loop is heeded: if it ends the blocked read the next turn of the server
      enters the shutdown loop, and wherever it comes at most one more message is read before that. */
  lemma {:induction false} SigintHeeded(s: State, inRead: bool, a: nat, b: nat, c: nat)
    requires WellFormed(s) && (s.pc == Listen || s.pc.Answer? || s.pc == LoopTest)
    ensures inRead && s.pc == Listen ==> ServerStep(InterruptStep(s, inRead), a).pc == QuitSend(0)
    ensures var t := ServerStep(ServerStep(ServerStep(InterruptStep(s, inRead), a), b), c);
            t.pc == Listen || Stopping(t.pc) || t.pc == Killed
    ensures var t := ServerStep(ServerStep(ServerStep(InterruptStep(s, inRead), a), b), c);
            t.pc == Listen ==> s.pc == Listen && !inRead && t == s.(isWorking := false)
  {
    ThreeTurns(InterruptStep(s, inRead), a, b, c);
  }

  function Answering(m: Message): seq<Message> {
    if m == LinkDown then [SetLinkUp] else if m == LinkUp then [Monitor] else []
  }

  /** A SIGINT that finds the server about to read, but not in the read, lets it read and answer one more message, as it
      would have without it; one that ends the blocked read leaves everything unread. */
  lemma {:induction false} LastMessage(s: State, inRead: bool, a: nat, b: nat, c: nat)
    requires WellFormed(s) && s.pc == Listen
    ensures var j := |s.conns| - 1;
            var u := InterruptStep(s, inRead);
            var r := ReadFrom(s, j, a);
            var t := ServerStep(ServerStep(ServerStep(u, a), b), c);
            && (inRead ==> ServerStep(u, a).pc == QuitSend(0) && ServerStep(u, a).conns == s.conns)
            && (!inRead && r.Got? && s.conns[j].pc != Gone ==>
                  && (if Answering(r.m) == [] then ServerStep(ServerStep(u, a), b).pc else t.pc) == QuitSend(0)
                  && ServerStep(ServerStep(u, a), b).conns[j].toServer == r.rest
                  && ServerStep(ServerStep(u, a), b).conns[j].log == s.conns[j].log + Answering(r.m))
  {
    var u := InterruptStep(s, inRead);
    if !inRead {
      OneMoreRead(u, a, b, c);
    }
  }

  lemma {:induction false} OneMoreRead(s: State, a: nat, b: nat, c: nat)
    requires WellFormed(s) && s.pc == Listen && !s.isWorking
    ensures var j := |s.conns| - 1;
            var r := ReadFrom(s, j, a);
            var t := ServerStep(ServerStep(ServerStep(s, a), b), c);
            r.Got? && s.conns[j].pc != Gone ==>
              && (if Answering(r.m) == [] then ServerStep(ServerStep(s, a), b).pc else t.pc) == QuitSend(0)
              && ServerStep(ServerStep(s, a), b).conns[j].toServer == r.rest
              && ServerStep(ServerStep(s, a), b).conns[j].log == s.conns[j].log + Answering(r.m)
  {
    var j := |s.conns| - 1;
    var r := ReadFrom(s, j, a);
    if r.Got? {
      assert s.conns[j].log + [] == s.conns[j].log;
      assert Answering(r.m) == [] ==> ServerStep(s, a) == Took(s, j, r.rest, LoopTest);
      assert Answering(r.m) != [] ==> ServerStep(s, a) == Took(s, j, r.rest, Answer(Answering(r.m)[0]));
    }
  }

  /** Where a SIGINT is heeded. */
  predicate Heeds(pc: ServerPc) {
    pc.Listen? || pc.Answer? || pc.LoopTest? || pc.QuitSend? || pc.QuitWait?
  }

  ghost predicate Heeded(s0: State, schedule: seq<Action>)
    requires WellFormed(s0)
  {
    exists k :: 0 <= k < |schedule| && schedule[k].Interrupt? && Heeds(After(s0, schedule[..k]).pc)
  }

  lemma {:induction false} HeededStep(s0: State, front: seq<Action>, act: Action)
    requires WellFormed(s0)
    ensures Heeded(s0, front + [act]) <==> Heeded(s0, front) || (act.Interrupt? && Heeds(After(s0, front).pc))
  {
    var all, n := front + [act], |front|;
    assert all[..n] == front && all[n] == act;
    assert forall k :: 0 <= k < n ==> all[k] == front[k] && all[..k] == front[..k];
  }

  /** In every run the flag is cleared if and only if a SIGINT has come in the service loop or the shutdown loop. */
  lemma {:induction false} FlagExactly(s0: State, schedule: seq<Action>)
    requires Initial(s0)
    ensures !After(s0, schedule).isWorking <==> Heeded(s0, schedule)
  {
    if schedule != [] {
      hide Step, Heeded;
      var front, act := schedule[..|schedule| - 1], schedule[|schedule| - 1];
      assert schedule == front + [act];
      FlagExactly(s0, front);
      HeededStep(s0, front, act);
      FlagStep(After(s0, front), act);
    } else {
      assert !Heeded(s0, []);
    }
  }

  lemma {:induction false} FlagStep(s: State, act: Action)
    requires WellFormed(s)
    ensures Step(s, act).isWorking <==> s.isWorking && !(act.Interrupt? && Heeds(s.pc))
  {
  }

  // ---------- Writes that kill ----------

  /** The server writes to a client that is gone, in the handshake or in the shutdown loop: SIGPIPE. */
  predicate Kills(s: State, act: Action)
    requires WellFormed(s)
  {
    && act.Server? && (s.pc.HsMonitor? || (s.pc.QuitSend? && s.pc.i < |s.conns|))
    && s.conns[s.pc.i].pc == Gone
  }

  predicate KillFree(s: State, schedule: seq<Action>)
    requires WellFormed(s)
  {
    schedule == [] ||
    var front := schedule[..|schedule| - 1];
    KillFree(s, front) && !Kills(After(s, front), schedule[|schedule| - 1])
  }

  /** No other write can find its client gone. */
  lemma {:induction false} OnlyThatKills(s: State, extra: nat)
    requires Inv(s) && s.pc != Killed
    ensures ServerStep(s, extra).pc == Killed <==> Kills(s, Server(extra))
  {
    if s.pc.Answer? {
      var j := |s.conns| - 1;
      assert ConnInv(s.conns[j], PositionOf(s.pc, |s.conns|, j), true);
      AnswerConn(s.conns[j], s.pc.m);
    }
  }

  lemma {:induction false} DeadStays(s: State, act: Action)
    requires WellFormed(s) && (s.pc == Killed || !act.Server?)
    ensures (Step(s, act).pc == Killed <==> s.pc == Killed) && !(Kills(s, act))
  {
  }

  /** In every run the server is dead exactly if one of its writes has found its client gone. */
  lemma {:induction false} KilledExactly(s0: State, schedule: seq<Action>)
    requires Initial(s0)
    ensures After(s0, schedule).pc == Killed <==> !KillFree(s0, schedule)
  {
    if schedule != [] {
      var front, act := schedule[..|schedule| - 1], schedule[|schedule| - 1];
      KilledExactly(s0, front);
      var s := After(s0, front);
      if act.Server? && s.pc != Killed {
        AlwaysInv(s0, front);
        OnlyThatKills(s, act.extra);
      } else {
        DeadStays(s, act);
      }
    }
  }
}
