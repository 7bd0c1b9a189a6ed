/** What becomes of a client when the server's end of its connection is gone: it reads an empty text for ever. */
module MonitorOrphan {
  import opened MonitorProtocol
  import opened MonitorConversation
  import opened MonitorGuarantees
  import opened MonitorDone

  /** With this action client i reads at the end of the stream. */
  predicate ReadsEof(s: State, act: Action, i: nat)
    requires i < |s.conns|
  {
    TurnOf(act, i) && s.conns[i].pc == Waiting && s.conns[i].toClient == [] && !Open(s, i)
  }

  ghost predicate HasReadEof(s0: State, schedule: seq<Action>, i: nat)
    requires WellFormed(s0) && i < |s0.conns|
  {
    exists k :: 0 <= k < |schedule| && ReadsEof(After(s0, schedule[..k]), schedule[k], i)
  }

  lemma {:induction false} EofStep(s0: State, front: seq<Action>, act: Action, i: nat)
    requires WellFormed(s0) && i < |s0.conns|
    ensures HasReadEof(s0, front + [act], i) <==> HasReadEof(s0, front, i) || ReadsEof(After(s0, front), act, i)
  {
    var all, n := front + [act], |front|;
    assert all[..n] == front && all[n] == act;
    assert forall k :: 0 <= k < n ==> all[k] == front[k] && all[..k] == front[..k];
  }

  lemma {:induction false} ClientConfused(c: Conn, open: bool, act: Action)
    requires act.Client? && Commands(c.toClient)
    ensures ClientStep(c, open, act.extra, act.ok, act.down).confused <==>
            c.confused || (c.pc == Waiting && c.toClient == [] && !open)
  {
    if c.pc == Waiting && c.toClient != [] {
      assert c.toClient[0] in c.toClient;
    }
  }

  lemma {:induction false} ConfusedByStep(s: State, act: Action, i: nat)
    requires Inv(s) && i < |s.conns|
    ensures Step(s, act).conns[i].confused <==> s.conns[i].confused || ReadsEof(s, act, i)
  {
    if act.Client? {
      if act.i == i {
        var pos := PositionOf(s.pc, |s.conns|, i);
        assert ConnInv(s.conns[i], pos, i == |s.conns| - 1);
        AlwaysLight(s.conns[i], pos);
        ClientConfused(s.conns[i], Open(s, i), act);
      }
    } else {
      ServerEnds(s, act, i);
    }
  }

  /** In every run a client has printed "Command not known" if and only if it has read at the end of its stream. */
  lemma {:induction false} ConfusedExactly(s0: State, schedule: seq<Action>, i: nat)
    requires Initial(s0) && i < |s0.conns|
    ensures After(s0, schedule).conns[i].confused <==> HasReadEof(s0, schedule, i)
  {
    if schedule != [] {
      hide Step, Inv, HasReadEof;
      var front, act := schedule[..|schedule| - 1], schedule[|schedule| - 1];
      assert schedule == front + [act];
      ConfusedExactly(s0, front, i);
      AlwaysInv(s0, front);
      EofStep(s0, front, act, i);
      ConfusedByStep(After(s0, front), act, i);
    }
  }

  function TurnsOf(schedule: seq<Action>, i: nat): nat {
    if schedule == [] then 0
    else TurnsOf(schedule[..|schedule| - 1], i) + if TurnOf(schedule[|schedule| - 1], i) then 1 else 0
  }

  /** A client with nothing to read on a connection whose server end is gone. */
  ghost predicate Orphan(s: State, i: nat) {
    && WellFormed(s) && Inv(s) && i < |s.conns| && !Open(s, i)
    && Resting(s.conns[i]) && s.conns[i].toClient == []
  }

  lemma {:induction false} OrphanIsParted(s: State, i: nat)
    requires Orphan(s, i)
    ensures Parted(PositionOf(s.pc, |s.conns|, i))
  {
    OpenIs(s, i);
    assert ConnInv(s.conns[i], PositionOf(s.pc, |s.conns|, i), i == |s.conns| - 1);
  }

  lemma {:induction false} OrphanStep(s: State, act: Action, i: nat)
    requires Orphan(s, i)
    ensures var c, c' := s.conns[i], Step(s, act).conns[i];
            && Orphan(Step(s, act), i) && c'.log == c.log
            && c'.pc == (if !TurnOf(act, i) then c.pc else if c.pc == Head then Waiting else Head)
            && (c'.confused <==> c.confused || (TurnOf(act, i) && c.pc == Waiting))
  {
    InvStep(s, act);
    OrphanIsParted(s, i);
    ConfusedByStep(s, act, i);
    if act.Client? {
      OrphanTurn(s, act, i);
    } else {
      ServerEnds(s, act, i);
      Quiet(s, act, i);
    }
  }

  lemma {:induction false} OrphanClient(c: Conn, act: Action)
    requires act.Client? && Resting(c) && c.toClient == []
    ensures var c' := ClientStep(c, false, act.extra, act.ok, act.down);
            c'.toClient == [] && c'.log == c.log && c'.open == c.open && c'.pc == if c.pc == Head then Waiting else Head
  {
  }

  lemma {:induction false} OrphanTurn(s: State, act: Action, i: nat)
    requires Orphan(s, i) && act.Client?
    ensures var c, c' := s.conns[i], Step(s, act).conns[i];
            && !Open(Step(s, act), i) && c'.toClient == [] && c'.log == c.log
            && c'.pc == if !TurnOf(act, i) then c.pc else if c.pc == Head then Waiting else Head
  {
    hide Inv, ClientStep;
    OrphanClient(s.conns[i], act);
  }

  /** Such a client neither ends nor says anything, ever: it goes round its loop, and has printed "Command not known"
      from its second turn on. */
  lemma {:induction false} OrphanSpins(s0: State, schedule: seq<Action>, rest: seq<Action>, i: nat)
    requires Initial(s0) && i < |s0.conns| && Orphan(After(s0, schedule), i)
    ensures var c, d := After(s0, schedule).conns[i], After(After(s0, schedule), rest).conns[i];
            && Resting(d) && d.log == c.log
            && (d.pc == c.pc <==> TurnsOf(rest, i) % 2 == 0)
            && (TurnsOf(rest, i) >= 2 ==> d.confused)
  {
    Spins(After(s0, schedule), rest, i);
  }

  /** d is c after n turns of an orphan. */
  ghost predicate Spun(c: Conn, d: Conn, n: nat) {
    && Resting(c) && Resting(d) && d.log == c.log
    && (d.pc == c.pc <==> n % 2 == 0)
    && (n >= 2 || (n == 1 && d.pc == Head) ==> d.confused)
  }

  lemma {:induction false} SpunOnce(c: Conn, d: Conn, n: nat, d': Conn)
    requires Spun(c, d, n) && d'.log == d.log
    requires d'.pc == (if d.pc == Head then Waiting else Head) && (d'.confused <==> d.confused || d.pc == Waiting)
    ensures Spun(c, d', n + 1)
  {
  }

  lemma {:induction false} Spins(s: State, rest: seq<Action>, i: nat)
    requires Orphan(s, i)
    ensures Orphan(After(s, rest), i) && Spun(s.conns[i], After(s, rest).conns[i], TurnsOf(rest, i))
  {
    hide Step, Inv, Spun, Orphan, WellFormed;
    Known(s, i);
    if rest != [] {
      var front, act := rest[..|rest| - 1], rest[|rest| - 1];
      Spins(s, front, i);
      Known(After(s, front), i);
      SpinsOn(s.conns[i], After(s, front), act, i, TurnsOf(front, i));
    }
  }

  lemma {:induction false} Known(s: State, i: nat)
    requires Orphan(s, i)
    ensures WellFormed(s) && i < |s.conns| && Spun(s.conns[i], s.conns[i], 0)
  {
    hide Inv;
  }

  lemma {:induction false} SpinsOn(c: Conn, s: State, act: Action, i: nat, n: nat)
    requires Orphan(s, i) && Spun(c, s.conns[i], n)
    ensures Orphan(Step(s, act), i) && Spun(c, Step(s, act).conns[i], n + if TurnOf(act, i) then 1 else 0)
  {
    hide Step, Inv;
    OrphanStep(s, act, i);
    if TurnOf(act, i) {
      SpunOnce(c, s.conns[i], n, Step(s, act).conns[i]);
    }
  }

  // ---------- How a client ends ----------

  /** The turns with which client i ends: it cannot connect, its directory is bad, interfaceUp fails, it writes to a
      server that is gone, or it has answered Shut Down. */
  predicate EndsWith(s: State, act: Action, i: nat)
    requires i < |s.conns|
  {
    && TurnOf(act, i)
    && match s.conns[i].pc
       case Unconnected => !Open(s, i)
       case Checking => !act.ok
       case RaiseLink => !act.ok
       case Announce => !Open(s, i)
       case Confirm => !Open(s, i)
       case ReportDown => !Open(s, i)
       case ReportUp => !Open(s, i)
       case Finish => true
       case _ => false
  }

  ghost predicate Ended(s0: State, schedule: seq<Action>, i: nat)
    requires WellFormed(s0) && i < |s0.conns|
  {
    exists k :: 0 <= k < |schedule| && EndsWith(After(s0, schedule[..k]), schedule[k], i)
  }

  lemma {:induction false} EndedStep(s0: State, front: seq<Action>, act: Action, i: nat)
    requires WellFormed(s0) && i < |s0.conns|
    ensures Ended(s0, front + [act], i) <==> Ended(s0, front, i) || EndsWith(After(s0, front), act, i)
  {
    var all, n := front + [act], |front|;
    assert all[..n] == front && all[n] == act;
    assert forall k :: 0 <= k < n ==> all[k] == front[k] && all[..k] == front[..k];
  }

  lemma {:induction false} EndsByStep(s: State, act: Action, i: nat)
    requires WellFormed(s) && i < |s.conns|
    ensures Step(s, act).conns[i].pc == Gone <==> s.conns[i].pc == Gone || EndsWith(s, act, i)
  {
    if act.Client? {
      if act.i == i {
        EndsByTurn(s.conns[i], Open(s, i), act);
      }
    } else {
      ServerLeaves(s, act, i);
    }
  }

  lemma {:induction false} EndsByTurn(c: Conn, open: bool, act: Action)
    requires act.Client?
    ensures ClientStep(c, open, act.extra, act.ok, act.down).pc == Gone <==>
            || c.pc == Gone || c.pc == Finish
            || (!open && (c.pc == Unconnected || Writes(c.pc)))
            || (!act.ok && (c.pc == Checking || c.pc == RaiseLink))
  {
  }

  lemma {:induction false} ServerLeaves(s: State, act: Action, i: nat)
    requires WellFormed(s) && i < |s.conns| && !act.Client?
    ensures Step(s, act).conns[i].pc == s.conns[i].pc
  {
  }

  /** In every run a client has ended if and only if it has had one of these turns. */
  lemma {:induction false} GoneExactly(s0: State, schedule: seq<Action>, i: nat)
    requires Initial(s0) && i < |s0.conns|
    ensures After(s0, schedule).conns[i].pc == Gone <==> Ended(s0, schedule, i)
  {
    if schedule != [] {
      hide Step, Ended;
      var front, act := schedule[..|schedule| - 1], schedule[|schedule| - 1];
      assert schedule == front + [act];
      GoneExactly(s0, front, i);
      EndedStep(s0, front, act, i);
      EndsByStep(After(s0, front), act, i);
    } else {
      assert !Ended(s0, [], i);
    }
  }
}
