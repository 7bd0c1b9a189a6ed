/** Whether the shutdown loop of Assignments/A1 ends is decided when it is entered. */
module MonitorEnding {
  import opened MonitorProtocol
  import opened MonitorConversation
  import opened MonitorRuns
  import opened MonitorCompletion

  /** The connections the loop has still to read from. */
  predicate Unread(pc: ServerPc, i: nat) {
    Quitting(pc) && pc.i <= i
  }

  /** Nothing a client does makes it start or stop staying with its display. */
  lemma {:induction false} ClientStays(c: Conn, open: bool, act: Action)
    requires act.Client?
    ensures Stays(ClientStep(c, open, act.extra, act.ok, act.down)) <==> Stays(c)
  {
  }

  /** A client that is not the last has never been asked to raise its link, and so has not ended. */
  lemma {:induction false} OnlyLastIsGone(c: Conn, last: bool)
    requires ConnInv(c, Closing, last) && c.pc == Gone
    ensures last
  {
    LanguageNotShut(c.log);
    if |c.log| <= 4 {
      NotGoneYet(c, |c.log| % 5);
    }
  }

  lemma {:induction false} NotGoneYet(c: Conn, p: int)
    requires (p == 3 || p == 4) && InPhase(c, p)
    ensures c.pc != Gone
  {
  }

  /** Between s and t the loop has not reached connection i, which stays in t exactly if it did in s; or the loop
      is past it, and it did not stay in s. */
  ghost predicate Traced(s: State, t: State, i: nat)
    requires i < |s.conns| && i < |t.conns|
  {
    && (Unread(t.pc, i) ==> Unread(s.pc, i) && (Stays(t.conns[i]) <==> Stays(s.conns[i])))
    && (!Unread(t.pc, i) && Unread(s.pc, i) ==> !Stays(s.conns[i]))
  }

  lemma {:induction false} TraceClient(s: State, t: State, act: Action, i: nat)
    requires WellFormed(t) && act.Client? && |s.conns| == |t.conns| && i < |s.conns| && Traced(s, t, i)
    ensures Traced(s, Step(t, act), i)
  {
    if act.i == i {
      ClientStays(t.conns[i], Open(t, i), act);
    }
  }

  /** A write asks connection j; if it kills the server, j is the last one, and it is gone. */
  lemma {:induction false} TraceAsk(s: State, t: State, extra: nat, i: nat)
    requires Inv(t) && t.pc.QuitSend? && |s.conns| == |t.conns| && i < |s.conns| && Traced(s, t, i)
    ensures Traced(s, ServerStep(t, extra), i)
  {
    var j := t.pc.i;
    if j < |t.conns| {
      var c := t.conns[j];
      assert ConnInv(c, Closing, j == |t.conns| - 1);
      if c.pc == Gone {
        OnlyLastIsGone(c, j == |t.conns| - 1);
      } else {
        var asked := c.(toClient := c.toClient + [ShutDown], log := c.log + [ShutDown]);
        assert ServerStep(t, extra) == t.(conns := t.conns[j := asked], pc := QuitWait(j));
      }
    }
  }

  lemma {:induction false} TraceRead(s: State, t: State, extra: nat, i: nat)
    requires WellFormed(t) && t.pc.QuitWait? && |s.conns| == |t.conns| && i < |s.conns| && Traced(s, t, i)
    ensures Traced(s, ServerStep(t, extra), i)
  {
    DrainShape(t, extra);
  }

  lemma {:induction false} TraceStep(s: State, t: State, act: Action, i: nat)
    requires QuitInv(t) && (Quitting(t.pc) || Over(t.pc)) && !act.Interrupt?
    requires |s.conns| == |t.conns| && i < |s.conns| && Traced(s, t, i)
    ensures Traced(s, Step(t, act), i)
  {
    if act.Client? {
      TraceClient(s, t, act, i);
    } else if t.pc.QuitSend? {
      TraceAsk(s, t, act.extra, i);
    } else if t.pc.QuitWait? {
      TraceRead(s, t, act.extra, i);
    }
  }

  lemma {:induction false} TraceAfter(s: State, t: State, schedule: seq<Action>, i: nat)
    requires QuitInv(t) && (Quitting(t.pc) || Over(t.pc)) && forall act :: act in schedule ==> !act.Interrupt?
    requires |s.conns| == |t.conns| && i < |s.conns| && Traced(s, t, i)
    ensures Traced(s, After(t, schedule), i)
  {
    if schedule != [] {
      var front, act := schedule[..|schedule| - 1], schedule[|schedule| - 1];
      assert act in schedule && forall a :: a in front ==> a in schedule;
      TraceAfter(s, t, front, i);
      QuitAfter(t, front);
      TraceStep(s, After(t, front), act, i);
    }
  }

  lemma {:induction false} TraceRounds(s: State, rounds: seq<seq<Action>>, i: nat)
    requires QuitInv(s) && Quitting(s.pc) && i < |s.conns|
    requires forall r :: r in rounds ==> FullRound(r, |s.conns|) && forall act :: act in r ==> !act.Interrupt?
    ensures Traced(s, AfterRounds(s, rounds), i)
  {
    if rounds != [] {
      var front, last := rounds[..|rounds| - 1], rounds[|rounds| - 1];
      assert last in rounds && forall r :: r in front ==> r in rounds;
      TraceRounds(s, front, i);
      QuitRounds(s, front);
      TraceAfter(s, AfterRounds(s, front), last, i);
    }
  }

  /** The first of the connections the loop has still to read from that stays with its display. */
  predicate FirstToStay(s: State, i: nat) {
    && i < |s.conns| && Unread(s.pc, i) && Stays(s.conns[i])
    && forall j: nat :: j < i && Unread(s.pc, j) ==> !Stays(s.conns[j])
  }

  lemma {:induction false} EndsExactly(s: State, rounds: seq<seq<Action>>)
    requires QuitInv(s) && Quitting(s.pc)
    requires forall r :: r in rounds ==> FullRound(r, |s.conns|) && forall act :: act in r ==> !act.Interrupt?
    requires |rounds| >= 20 * |s.conns| + 20
    ensures var t := AfterRounds(s, rounds);
            && (Over(t.pc) <==> forall i: nat :: i < |s.conns| && Unread(s.pc, i) ==> !Stays(s.conns[i]))
            && (!Over(t.pc) ==> Stuck(t) && FirstToStay(s, t.pc.i))
  {
    QuitEnds(s, rounds);
    var t := AfterRounds(s, rounds);
    forall i: nat | i < |s.conns| ensures Traced(s, t, i) {
      TraceRounds(s, rounds, i);
    }
    TraceDecides(s, t);
  }

  lemma {:induction false} TraceDecides(s: State, t: State)
    requires WellFormed(s) && WellFormed(t) && |t.conns| == |s.conns|
    requires Over(t.pc) <==> !Stuck(t)
    requires forall i: nat :: i < |s.conns| ==> Traced(s, t, i)
    ensures Over(t.pc) <==> forall i: nat :: i < |s.conns| && Unread(s.pc, i) ==> !Stays(s.conns[i])
    ensures !Over(t.pc) ==> Stuck(t) && FirstToStay(s, t.pc.i)
  {
    if Stuck(t) {
      assert Traced(s, t, t.pc.i);
      forall j: nat | j < t.pc.i && Unread(s.pc, j) ensures !Stays(s.conns[j]) {
        assert Traced(s, t, j);
      }
    } else {
      forall i: nat | i < |s.conns| && Unread(s.pc, i) ensures !Stays(s.conns[i]) {
        assert Traced(s, t, i);
      }
    }
  }

  /** The shutdown loop ends if and only if none of the clients it has still to read from, at any moment in it, is at
      its display with an interface that was up and with nothing unread: 20 fair rounds for each interface
      and 20 more bring the server to its end, or to the first of these clients. */
  lemma {:induction false} ShutdownExactly(s0: State, schedule: seq<Action>, rounds: seq<seq<Action>>)
    requires Initial(s0) && Quitting(After(s0, schedule).pc)
    requires forall r :: r in rounds ==> FullRound(r, |s0.conns|) && forall act :: act in r ==> !act.Interrupt?
    requires |rounds| >= 20 * |s0.conns| + 20
    ensures var s := After(s0, schedule);
            var t := AfterRounds(s, rounds);
            && (Over(t.pc) <==> forall i: nat :: i < |s.conns| && Unread(s.pc, i) ==> !Stays(s.conns[i]))
            && (!Over(t.pc) ==> Stuck(t) && FirstToStay(s, t.pc.i))
  {
    AlwaysComing(s0, schedule);
    EndsExactly(After(s0, schedule), rounds);
  }

  /** In particular when the loop is entered: it ends if and only if no client stays with its display then. */
  lemma {:induction false} DecidedAtEntry(s0: State, schedule: seq<Action>, rounds: seq<seq<Action>>)
    requires Initial(s0) && After(s0, schedule).pc == QuitSend(0)
    requires forall r :: r in rounds ==> FullRound(r, |s0.conns|) && forall act :: act in r ==> !act.Interrupt?
    requires |rounds| >= 20 * |s0.conns| + 20
    ensures var s := After(s0, schedule);
            Over(AfterRounds(s, rounds).pc) <==> forall i :: 0 <= i < |s.conns| ==> !Stays(s.conns[i])
  {
    ShutdownExactly(s0, schedule, rounds);
    var s := After(s0, schedule);
    assert forall i: nat :: i < |s.conns| ==> Unread(s.pc, i);
  }

  // ---------- More SIGINTs ----------

  /** A SIGINT in a blocked read of the shutdown loop, and the server's next write. */
  function Impatience(n: nat): seq<Action> {
    if n == 0 then [] else [Interrupt(true), Server(0)] + Impatience(n - 1)
  }

  /** One more SIGINT in each blocked read ends the loop, whatever the clients do: as many as there are clients still to
      be read. Nothing is read meanwhile; one that does not come in the read changes nothing. */
  lemma {:induction false} SigintsEnd(s: State)
    requires WellFormed(s) && s.pc.QuitWait?
    ensures Over(After(s, Impatience(|s.conns| - s.pc.i)).pc)
    ensures forall i: nat :: i < |s.conns| ==>
              After(s, Impatience(|s.conns| - s.pc.i)).conns[i].toServer == s.conns[i].toServer
    ensures Step(s, Interrupt(false)) == s.(isWorking := false)
    decreases |s.conns| - s.pc.i
  {
    hide After, Step;
    var n, pair := |s.conns| - s.pc.i, [Interrupt(true), Server(0)];
    var t := Step(Step(s, Interrupt(true)), Server(0));
    Freed(s);
    Two(s, Interrupt(true), Server(0));
    AfterConcat(s, pair, Impatience(n - 1));
    if t.pc.QuitWait? {
      SigintsEnd(t);
    } else {
      NoClients(n - 1);
      OverStays(t, Impatience(n - 1));
    }
  }

  lemma {:induction false} Freed(s: State)
    requires WellFormed(s) && s.pc.QuitWait?
    ensures var t := Step(Step(s, Interrupt(true)), Server(0));
            && (if t.pc.QuitWait? then t.pc.i == s.pc.i + 1 else Over(t.pc))
            && forall i: nat :: i < |s.conns| ==> t.conns[i].toServer == s.conns[i].toServer
    ensures Step(s, Interrupt(false)) == s.(isWorking := false)
  {
    var u := InterruptStep(s, true);
    assert u == s.(isWorking := false, pc := QuitSend(s.pc.i + 1));
  }

  lemma {:induction false} NoClients(n: nat)
    ensures forall act :: act in Impatience(n) ==> !act.Client?
  {
    if n > 0 {
      NoClients(n - 1);
    }
  }

  lemma {:induction false} OverStays(s: State, schedule: seq<Action>)
    requires WellFormed(s) && Over(s.pc) && forall act :: act in schedule ==> !act.Client?
    ensures After(s, schedule) == s
  {
    if schedule != [] {
      var front := schedule[..|schedule| - 1];
      assert schedule[|schedule| - 1] in schedule && forall a :: a in front ==> a in schedule;
      OverStays(s, front);
    }
  }

  // ---------- Interfaces that are up keep the server ----------

  /** All n clients confirm and stay with their displays; a SIGINT ends the blocked read of the service loop. */
  function Sticking(n: nat): seq<Action> {
    Handshakes(n, false) + [Server(0), Interrupt(true)] + [Server(0), Server(0)]
  }

  lemma {:induction false} Stops(n: nat, r: int)
    requires n > 0
    ensures After(Accepting(n, n, r, false), [Server(0), Interrupt(true)]) ==
            State(Shown(n, n, false), LoopTest, n - 1, false)
  {
    var s := Accepting(n, n, r, false);
    Two(s, Server(0), Interrupt(true));
    assert ServerStep(s, 0) == s.(pc := Listen);
  }

  lemma {:induction false} AsksToQuit(s: State)
    requires WellFormed(s) && s.pc == LoopTest && !s.isWorking && Stays(s.conns[0])
    ensures Stuck(After(s, [Server(0), Server(0)]))
  {
    Two(s, Server(0), Server(0));
    assert ServerStep(s, 0) == s.(pc := QuitSend(0));
  }

  lemma {:induction false} ServiceStops(s0: State)
    requires Initial(s0)
    ensures var n := |s0.conns|;
            After(s0, Handshakes(n, false) + [Server(0), Interrupt(true)]) ==
            State(Shown(n, n, false), LoopTest, n - 1, false)
  {
    hide Step;
    var n := |s0.conns|;
    AfterConcat(s0, Handshakes(n, false), [Server(0), Interrupt(true)]);
    HandshakesDone(s0, n, false);
    Stops(n, s0.retRecv);
  }

  /** It does happen: for any number of interfaces, when they are up this run leaves the shutdown loop stuck. */
  lemma {:induction false} ShutdownCanStick(s0: State)
    requires Initial(s0)
    ensures Stuck(After(s0, Sticking(|s0.conns|)))
  {
    hide Step;
    var n := |s0.conns|;
    AfterConcat(s0, Handshakes(n, false) + [Server(0), Interrupt(true)], [Server(0), Server(0)]);
    ServiceStops(s0);
    assert Shown(n, n, false)[0] == Displaying(false);
    AsksToQuit(State(Shown(n, n, false), LoopTest, n - 1, false));
  }
}
