/** What the conversation invariant means for the two programs of Assignments/A1. */
module MonitorGuarantees {
  import opened MonitorProtocol
  import opened MonitorConversation
  import Framing = MonitorFraming

  lemma {:induction false} Reached(s0: State, schedule: seq<Action>, i: nat)
    requires Initial(s0) && i < |s0.conns|
    ensures var s := After(s0, schedule);
            && Expected(s.pc)
            && ConnInv(s.conns[i], PositionOf(s.pc, |s.conns|, i), i == |s.conns| - 1)
  {
    AlwaysInv(s0, schedule);
  }

  /** For every client and every interleaving, even when reads swallow messages: what is sent on a
      connection before Shut Down is a prefix of Ready Monitor Monitoring (Link down, Set Link Up,
      Link Up, Monitor, Monitoring)*, and only the last connection accepted gets past its first Link down. */
  lemma {:induction false} ConversationLanguage(s0: State, schedule: seq<Action>, i: nat)
    requires Initial(s0) && i < |s0.conns|
    ensures var said := BeforeShut(After(s0, schedule).conns[i].log);
            && (forall k: nat :: k < |said| ==> said[k] == Letter(k))
            && (i < |s0.conns| - 1 ==> |said| <= 4)
  {
    Reached(s0, schedule, i);
  }

  /** No client that confirmed is ever refused. */
  lemma {:induction false} NeverRefused(s0: State, schedule: seq<Action>)
    requires Initial(s0)
    ensures !After(s0, schedule).pc.HsRefuse?
  {
    Reached(s0, schedule, 0);
  }

  /** What the refusal would be: a client that sent anything else there would be sent Shut Down, once, before the next
      client is accepted, and a client that is gone would end the server. */
  lemma {:induction false} WouldRefuse(s: State, extra: nat, more: nat)
    requires WellFormed(s) && s.pc.HsConfirm? && ReadFrom(s, s.pc.i, extra).Got?
    ensures var c, m := s.conns[s.pc.i], ReadFrom(s, s.pc.i, extra).m;
            var t := ServerStep(ServerStep(s, extra), more);
            var c' := t.conns[s.pc.i];
            if m == Monitoring then c'.log == c.log && t.pc != HsRefuse(s.pc.i)
            else if c.pc == Gone then t.pc == Killed && c'.log == c.log
            else t.pc == Accept(s.pc.i + 1) && c'.log == c.log + [ShutDown] && c'.toClient == c.toClient + [ShutDown]
  {
  }

  /** The server has read a message on connection i that it still has to answer. */
  function ServerOwes(s: State, i: nat): nat {
    if PositionOf(s.pc, |s.conns|, i) in {MustMonitor, OwesUp, OwesMonitor} then 1 else 0
  }

  lemma {:induction false} NothingElse(c: Conn, pos: Position)
    requires AtPosition(c, pos) && pos in {MustMonitor, OwesUp, OwesMonitor}
    ensures Tokens(c) == 0
  {
    TotalSmall(c.toClient, Orders);
    TotalSmall(c.toServer, Replies);
  }

  /** The turn is conserved: pending commands, pending replies and obligations of either process are
      never more than one per connection. */
  lemma {:induction false} TokenConservation(s0: State, schedule: seq<Action>, i: nat)
    requires Initial(s0) && i < |s0.conns|
    ensures var s := After(s0, schedule);
            Tokens(s.conns[i]) + ServerOwes(s, i) <= 1
  {
    Reached(s0, schedule, i);
    var s := After(s0, schedule);
    var pos := PositionOf(s.pc, |s.conns|, i);
    AlwaysLight(s.conns[i], pos);
    if ServerOwes(s, i) == 1 {
      NothingElse(s.conns[i], pos);
    }
  }

  /** Bytes in flight never exceed 26 towards the server and 22 towards a client. */
  lemma {:induction false} BoundedChannels(s0: State, schedule: seq<Action>, i: nat)
    requires Initial(s0) && i < |s0.conns|
    ensures var c := After(s0, schedule).conns[i];
            Total(c.toServer, Wire) <= 26 && Total(c.toClient, Wire) <= 22
  {
    Reached(s0, schedule, i);
    var s := After(s0, schedule);
    AlwaysLight(s.conns[i], PositionOf(s.pc, |s.conns|, i));
  }

  // ---------- Down to the bytes ----------

  function Texts(q: seq<Message>): seq<string> {
    if q == [] then [] else [Text(q[0])] + Texts(q[1..])
  }

  lemma {:induction false} TextsOf(q: seq<Message>)
    ensures |Texts(q)| == |q|
    ensures forall t :: t in Texts(q) ==> Framing.NulFree(t)
    ensures |Framing.Encode(Texts(q))| == Total(q, Wire)
  {
    if q != [] {
      TextsOf(q[1..]);
      assert Framing.NulFree(Text(q[0]));
      assert Texts(q)[1..] == Texts(q[1..]);
    }
  }

  /** A queue this light is read whole: the byte-level receiveMessage returns the first message and
      leaves nothing, as the message-level read that takes everything does. */
  lemma {:induction false} WholeRead(q: seq<Message>, peerClosed: bool, stale: char)
    requires q != [] && Total(q, Wire) <= Framing.READ_LEN
    ensures Read(q, peerClosed, |q| - 1) == Got(q[0], [])
    ensures Framing.Value(Framing.Filled(Framing.Encode(Texts(q)), stale)) == Framing.Text(Text(q[0]))
    ensures Framing.Rest(Framing.Encode(Texts(q))) == []
  {
    TextsOf(q);
    Framing.Coalesced(Texts(q), stale);
  }

  /** So no read in any run splits a message, in either direction. */
  lemma {:induction false} ReadsAreWhole(s0: State, schedule: seq<Action>, i: nat, stale: char)
    requires Initial(s0) && i < |s0.conns|
    ensures var c := After(s0, schedule).conns[i];
            forall q :: q in {c.toServer, c.toClient} && q != [] ==>
              && Framing.Value(Framing.Filled(Framing.Encode(Texts(q)), stale)) == Framing.Text(Text(q[0]))
              && Framing.Rest(Framing.Encode(Texts(q))) == []
  {
    BoundedChannels(s0, schedule, i);
    var c := After(s0, schedule).conns[i];
    if c.toServer != [] {
      WholeRead(c.toServer, false, stale);
    }
    if c.toClient != [] {
      WholeRead(c.toClient, false, stale);
    }
  }

  // ---------- "Command not known" ----------

  lemma {:induction false} ConfusedStep(c: Conn, open: bool, extra: nat, ok: bool, down: bool)
    requires Commands(c.toClient) && (c.confused ==> !open)
    ensures ClientStep(c, open, extra, ok, down).confused ==> !open
  {
    if c.pc == Waiting && c.toClient != [] {
      assert c.toClient[0] in c.toClient;
    }
  }

  /** The server never touches the history of confusion and never reopens an end. */
  lemma {:induction false} ServerEnds(s: State, act: Action, i: nat)
    requires WellFormed(s) && i < |s.conns| && !act.Client?
    ensures var s' := Step(s, act);
            s'.conns[i].confused == s.conns[i].confused && (Open(s', i) ==> Open(s, i))
  {
  }

  /** While the server's end is open a client never falls into "Command not known". */
  lemma {:induction false} NeverConfused(s0: State, schedule: seq<Action>, i: nat)
    requires Initial(s0) && i < |s0.conns|
    ensures var s := After(s0, schedule);
            Open(s, i) ==> !s.conns[i].confused
  {
    if schedule != [] {
      var front, act := schedule[..|schedule| - 1], schedule[|schedule| - 1];
      NeverConfused(s0, front, i);
      var s := After(s0, front);
      if act.Client? {
        if act.i == i {
          Reached(s0, front, i);
          AlwaysLight(s.conns[i], PositionOf(s.pc, |s.conns|, i));
          ConfusedStep(s.conns[i], Open(s, i), act.extra, act.ok, act.down);
          ClientLog(s.conns[i], Open(s, i), act.extra, act.ok, act.down);
        }
      } else {
        ServerEnds(s, act, i);
      }
    }
  }

  // ---------- Only what is down is reported down ----------

  ghost predicate NeverDown(c: Conn) {
    !c.down && c.pc != ReportDown && LinkDown !in c.log
  }

  lemma {:induction false} ClientUp(c: Conn, open: bool, extra: nat, ok: bool)
    requires NeverDown(c)
    ensures NeverDown(ClientStep(c, open, extra, ok, false))
  {
  }

  lemma {:induction false} ServerUp(s: State, extra: nat, i: nat)
    requires WellFormed(s) && Expected(s.pc) && i < |s.conns| && NeverDown(s.conns[i])
    ensures NeverDown(ServerStep(s, extra).conns[i])
  {
  }

  /** A client none of whose snapshots was down never has Link down sent on its connection: after its first
      Monitoring it stays with the display for good, so that its conversation is at most three messages long
      before Shut Down. */
  lemma {:induction false} UpNeverReports(s0: State, schedule: seq<Action>, i: nat)
    requires Initial(s0) && i < |s0.conns|
    requires forall act :: act in schedule && act.Client? && act.i == i ==> !act.down
    ensures var c := After(s0, schedule).conns[i];
            LinkDown !in c.log && |BeforeShut(c.log)| <= 3
  {
    AlwaysUp(s0, schedule, i);
    Reached(s0, schedule, i);
    UpIsShort(After(s0, schedule).conns[i].log);
  }

  lemma {:induction false} UpIsShort(log: seq<Message>)
    requires InLanguage(BeforeShut(log)) && LinkDown !in log
    ensures |BeforeShut(log)| <= 3
  {
    FourHasDown(BeforeShut(log));
    BeforeShutPrefix(log);
  }

  lemma {:induction false} FourHasDown(w: seq<Message>)
    requires InLanguage(w)
    ensures LinkDown in w <==> |w| > 3
  {
    if |w| > 3 {
      assert w[3] == Letter(3);
    }
  }

  lemma {:induction false} AlwaysUp(s0: State, schedule: seq<Action>, i: nat)
    requires Initial(s0) && i < |s0.conns|
    requires forall act :: act in schedule && act.Client? && act.i == i ==> !act.down
    ensures NeverDown(After(s0, schedule).conns[i])
  {
    if schedule != [] {
      var front, act := schedule[..|schedule| - 1], schedule[|schedule| - 1];
      assert act in schedule && forall a :: a in front ==> a in schedule;
      AlwaysUp(s0, front, i);
      var s := After(s0, front);
      match act
      case Server(extra) =>
        Reached(s0, front, i);
        ServerUp(s, extra, i);
      case Client(_, _, _, _) => ClientUp(s.conns[i], Open(s, i), act.extra, act.ok);
      case Interrupt(_) =>
    }
  }

  lemma {:induction false} BeforeShutPrefix(log: seq<Message>)
    ensures BeforeShut(log) <= log
  {
    if log != [] && log[0] != ShutDown {
      BeforeShutPrefix(log[1..]);
      assert log == [log[0]] + log[1..];
    }
  }
}
