/** Schedules put together, and the handshake with any number of clients as a concrete run. */
module MonitorRuns {
  import opened MonitorProtocol

  lemma {:induction false} AfterConcat(s: State, a: seq<Action>, b: seq<Action>)
    requires WellFormed(s)
    ensures After(s, a + b) == After(After(s, a), b)
  {
    hide Step;
    if b == [] {
      assert a + b == a;
    } else {
      var front := b[..|b| - 1];
      assert (a + b)[..|a + b| - 1] == a + front;
      AfterConcat(s, a, front);
    }
  }

  lemma {:induction false} One(s: State, act: Action)
    requires WellFormed(s)
    ensures After(s, [act]) == Step(s, act)
  {
    assert [act][..0] == [];
    assert After(s, []) == s;
  }

  lemma {:induction false} Two(s: State, a: Action, b: Action)
    requires WellFormed(s)
    ensures After(s, [a, b]) == Step(Step(s, a), b)
  {
    assert [a, b] == [a] + [b];
    AfterConcat(s, [a], [b]);
    One(s, a);
    One(Step(s, a), b);
  }

  lemma {:induction false} Three(s: State, a: Action, b: Action, c: Action)
    requires WellFormed(s)
    ensures After(s, [a, b, c]) == Step(Step(Step(s, a), b), c)
  {
    assert [a, b, c] == [a, b] + [c];
    AfterConcat(s, [a, b], [c]);
    Two(s, a, b);
    One(Step(Step(s, a), b), c);
  }

  lemma {:induction false} AfterSplit(s: State, round: seq<Action>, i: nat)
    requires WellFormed(s) && i < |round|
    ensures After(s, round) == After(Step(After(s, round[..i]), round[i]), round[i + 1..])
  {
    hide Step;
    assert round == round[..i] + [round[i]] + round[i + 1..];
    AfterConcat(s, round[..i] + [round[i]], round[i + 1..]);
    AfterConcat(s, round[..i], [round[i]]);
    One(After(s, round[..i]), round[i]);
  }

  function AfterRounds(s: State, rounds: seq<seq<Action>>): (s': State)
    requires WellFormed(s)
    ensures WellFormed(s') && |s'.conns| == |s.conns|
  {
    if rounds == [] then s
    else After(AfterRounds(s, rounds[..|rounds| - 1]), rounds[|rounds| - 1])
  }

  // ---------- The handshake with one client ----------

  /** The connections are conns, but for connection i, which is c. */
  function At(conns: seq<Conn>, i: nat, c: Conn, pc: ServerPc, r: int): State
    requires i < |conns|
  {
    State(conns[i := c], pc, r, true)
  }

  /** A turn of client i that goes well; down is what operstate says. */
  function Turn(i: nat, down: bool): Action {
    Client(i, 0, true, down)
  }

  lemma {:induction false} ClientMoves(conns: seq<Conn>, i: nat, c: Conn, pc: ServerPc, r: int, down: bool)
    requires i < |conns| && WellFormed(At(conns, i, c, pc, r)) && c.open && pc != Exited && pc != Killed
    ensures Step(At(conns, i, c, pc, r), Turn(i, down)) == At(conns, i, ClientStep(c, true, 0, true, down), pc, r)
  {
    var c' := ClientStep(c, true, 0, true, down);
    assert conns[i := c][i := c'] == conns[i := c'];
  }

  lemma {:induction false} ServerReads(conns: seq<Conn>, i: nat, c: Conn, pc: ServerPc, extra: nat, m: Message,
                                       rest: seq<Message>)
    requires i < |conns| && (pc == HsReady(i) || (pc == HsConfirm(i) && m == Monitoring))
    requires Read(c.toServer, c.pc == Gone, extra) == Got(m, rest)
    ensures ServerStep(At(conns, i, c, pc, i), extra) ==
            At(conns, i, c.(toServer := rest), if pc == HsReady(i) then HsMonitor(i) else Accept(i + 1), i)
  {
    var c' := c.(toServer := rest);
    assert conns[i := c][i := c'] == conns[i := c'];
  }

  lemma {:induction false} ServerWrites(conns: seq<Conn>, i: nat, c: Conn)
    requires i < |conns| && c.pc != Gone
    ensures ServerStep(At(conns, i, c, HsMonitor(i), i), 0) ==
            At(conns, i, c.(toClient := c.toClient + [Monitor], log := c.log + [Monitor]), HsConfirm(i), i)
  {
    var c' := c.(toClient := c.toClient + [Monitor], log := c.log + [Monitor]);
    assert conns[i := c][i := c'] == conns[i := c'];
  }

  const Announced: Conn := Conn(Head, false, [], [Ready], true, [Ready], false)
  const Greeted: Conn := Conn(Head, false, [Monitor], [], true, [Ready, Monitor], false)

  function Confirmed(down: bool): Conn {
    Conn(Display, down, [], [Monitoring], true, [Ready, Monitor, Monitoring], false)
  }

  function ThreeTurns(i: nat, down: bool): seq<Action> {
    [Turn(i, down), Turn(i, down), Turn(i, down)]
  }

  const ThreeServes: seq<Action> := [Server(0), Server(0), Server(0)]

  /** The client connects, finds its directory and announces itself. */
  lemma {:induction false} Announces(conns: seq<Conn>, i: nat, r: int, down: bool)
    requires i < |conns| && WellFormed(At(conns, i, Fresh, Accept(i), r))
    ensures After(At(conns, i, Fresh, Accept(i), r), ThreeTurns(i, down)) == At(conns, i, Announced, Accept(i), r)
  {
    Three(At(conns, i, Fresh, Accept(i), r), Turn(i, down), Turn(i, down), Turn(i, down));
    ClientMoves(conns, i, Fresh, Accept(i), r, down);
    ClientMoves(conns, i, Fresh.(pc := Checking), Accept(i), r, down);
    ClientMoves(conns, i, Fresh.(pc := Announce), Accept(i), r, down);
    assert [] + [Ready] == [Ready];
  }

  /** The server accepts it, reads Ready and sends Monitor. */
  lemma {:induction false} Greets(conns: seq<Conn>, i: nat, r: int)
    requires i < |conns| && WellFormed(At(conns, i, Announced, Accept(i), r))
    ensures After(At(conns, i, Announced, Accept(i), r), ThreeServes) == At(conns, i, Greeted, HsConfirm(i), i)
  {
    var s := At(conns, i, Announced, Accept(i), r);
    Three(s, Server(0), Server(0), Server(0));
    assert ServerStep(s, 0) == At(conns, i, Announced, HsReady(i), i);
    assert Read([Ready], false, 0) == Got(Ready, []);
    ServerReads(conns, i, Announced, HsReady(i), 0, Ready, []);
    ServerWrites(conns, i, Announced.(toServer := []));
    assert [Ready] + [Monitor] == [Ready, Monitor] && [] + [Monitor] == [Monitor];
  }

  /** The client takes its snapshot and confirms. */
  lemma {:induction false} Confirms(conns: seq<Conn>, i: nat, down: bool)
    requires i < |conns|
    ensures After(At(conns, i, Greeted, HsConfirm(i), i), ThreeTurns(i, down)) ==
            At(conns, i, Confirmed(down), HsConfirm(i), i)
  {
    Three(At(conns, i, Greeted, HsConfirm(i), i), Turn(i, down), Turn(i, down), Turn(i, down));
    var waiting := Greeted.(pc := Waiting, down := down);
    ClientMoves(conns, i, Greeted, HsConfirm(i), i, down);
    ReadsMonitor(waiting, down);
    ClientMoves(conns, i, waiting, HsConfirm(i), i, down);
    WritesMonitoring(waiting.(pc := Confirm, toClient := []), down);
    ClientMoves(conns, i, waiting.(pc := Confirm, toClient := []), HsConfirm(i), i, down);
  }

  lemma {:induction false} ReadsMonitor(c: Conn, down: bool)
    requires c.pc == Waiting && c.toClient == [Monitor]
    ensures ClientStep(c, true, 0, true, down) == c.(pc := Confirm, toClient := [])
  {
    assert Read([Monitor], false, 0) == Got(Monitor, []);
  }

  lemma {:induction false} WritesMonitoring(c: Conn, down: bool)
    requires c == Conn(Confirm, c.down, [], [], true, [Ready, Monitor], false)
    ensures ClientStep(c, true, 0, true, down) == Confirmed(c.down)
  {
    assert [Ready, Monitor] + [Monitoring] == [Ready, Monitor, Monitoring] && [] + [Monitoring] == [Monitoring];
  }

  /** Nine actions that bring client i to its display, its confirmation not yet read. */
  function Opening(i: nat, down: bool): seq<Action> {
    ThreeTurns(i, down) + ThreeServes + ThreeTurns(i, down)
  }

  lemma {:induction false} Opens(conns: seq<Conn>, i: nat, r: int, down: bool)
    requires i < |conns| && WellFormed(At(conns, i, Fresh, Accept(i), r))
    ensures After(At(conns, i, Fresh, Accept(i), r), Opening(i, down)) == At(conns, i, Confirmed(down), HsConfirm(i), i)
  {
    hide Step;
    var s := At(conns, i, Fresh, Accept(i), r);
    AfterConcat(s, ThreeTurns(i, down) + ThreeServes, ThreeTurns(i, down));
    AfterConcat(s, ThreeTurns(i, down), ThreeServes);
    Announces(conns, i, r, down);
    Greets(conns, i, r);
    Confirms(conns, i, down);
  }

  // ---------- The handshake with the first k clients ----------

  function Handshakes(k: nat, down: bool): seq<Action> {
    if k == 0 then [] else Handshakes(k - 1, down) + (Opening(k - 1, down) + [Server(0)])
  }

  function Displaying(down: bool): Conn {
    Confirmed(down).(toServer := [])
  }

  /** The first k clients are at their displays, the others have not connected. */
  function Shown(n: nat, k: nat, down: bool): seq<Conn> {
    seq(n, j requires 0 <= j < n => if j < k then Displaying(down) else Fresh)
  }

  function Accepting(n: nat, k: nat, r: int, down: bool): State {
    State(Shown(n, k, down), Accept(k), if k == 0 then r else k - 1, true)
  }

  /** One more client. */
  lemma {:induction false} OneHandshake(n: nat, k: nat, r: int, down: bool)
    requires k < n
    ensures After(Accepting(n, k, r, down), Opening(k, down) + [Server(0)]) == Accepting(n, k + 1, r, down)
  {
    var s, conns := Accepting(n, k, r, down), Shown(n, k, down);
    assert conns[k := Fresh] == conns;
    AfterConcat(s, Opening(k, down), [Server(0)]);
    Opens(conns, k, s.retRecv, down);
    One(At(conns, k, Confirmed(down), HsConfirm(k), k), Server(0));
    assert Read([Monitoring], false, 0) == Got(Monitoring, []);
    ServerReads(conns, k, Confirmed(down), HsConfirm(k), 0, Monitoring, []);
    assert conns[k := Displaying(down)] == Shown(n, k + 1, down);
  }

  lemma {:induction false} HandshakesDone(s0: State, k: nat, down: bool)
    requires Initial(s0) && k <= |s0.conns|
    ensures After(s0, Handshakes(k, down)) == Accepting(|s0.conns|, k, s0.retRecv, down)
  {
    hide Step;
    if k == 0 {
      assert s0.conns == Shown(|s0.conns|, 0, down);
    } else {
      var front, last := Handshakes(k - 1, down), Opening(k - 1, down) + [Server(0)];
      assert Handshakes(k, down) == front + last;
      HandshakesDone(s0, k - 1, down);
      AfterConcat(s0, front, last);
      OneHandshake(|s0.conns|, k - 1, s0.retRecv, down);
    }
  }
}
