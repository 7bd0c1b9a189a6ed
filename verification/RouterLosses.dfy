/** The messages of the router that no client ever gets: those with a dest below 1, and those with dest 4. */
module RouterLosses {
  import opened Sequences
  import opened Router
  import opened RouterSafety
  import opened RouterShutdown
  import opened RouterLiveness

  // ---------- Exactly what is put where a client can take it ----------

  predicate Reachable(dest: int) {
    dest >= 1 && dest != 4
  }

  function Reaches(): Message -> bool { (m: Message) => Reachable(m.dest) }

  function ToClient(): Message -> bool { (m: Message) => !m.shutdown && m.mtype != 4 }

  lemma {:induction false} DeliverReaches(render: Rendering, ms: seq<Message>)
    ensures var out := Filter(DeliverAll(render, ms), ToClient());
            && out == RenderAll(render, Filter(ms, Reaches()))
            && |out| <= |ms|
            && (|out| == |ms| <==> forall m :: m in ms ==> Reachable(m.dest))
  {
    if ms != [] {
      var front, last := ms[..|ms| - 1], ms[|ms| - 1];
      assert ms == front + [last];
      DeliverReaches(render, front);
      if last.dest >= 1 {
        FilterAppend(DeliverAll(render, front), Forwarded(render, last), ToClient());
      }
    }
  }

  /** At any moment of any run the messages that the server has put under a client's type, besides Quits, are the
      popped ones, rendered and in order, without those whose dest is below 1 or 4; every popped message is
      among them if and only if no dest is below 1 or 4. */
  lemma {:induction false} DeliveredExactly(render: Rendering, s0: State, schedule: seq<Action>)
    requires Initial(s0)
    ensures var s := After(render, s0, schedule);
            var out := Filter(s.h.sent, ToClient());
            && out == RenderAll(render, Filter(s.h.forwarded, Reaches()))
            && (|out| == |s.h.forwarded| <==> forall m :: m in s.h.forwarded ==> Reachable(m.dest))
  {
    AlwaysOutput(render, s0, schedule);
    var s := After(render, s0, schedule);
    ClientOutput(render, s);
    DeliverReaches(render, s.h.forwarded);
  }

  lemma {:induction false} ClientOutput(render: Rendering, s: State)
    requires OutputInv(render, s)
    ensures Filter(s.h.sent, ToClient()) == Filter(DeliverAll(render, s.h.forwarded), ToClient())
  {
    var plain := DeliverAll(render, s.h.forwarded);
    var quits := s.h.sent[|plain|..];
    assert s.h.sent == plain + quits;
    FilterConcat(plain, quits, ToClient());
    assert forall m :: m in quits ==> m.shutdown;
    FilterNone(quits, ToClient());
  }

  /** What waits under a client's type is addressed to it, and so is all that was taken. */
  ghost predicate Addressed(s: State) {
    && (forall m :: m in s.kernelQ && m.mtype != 4 ==> m.mtype >= 1 && (m.shutdown || m.dest == m.mtype))
    && (forall m :: m in s.h.taken ==> m.mtype != 4 && m.mtype >= 1 && (m.shutdown || m.dest == m.mtype))
  }

  lemma {:induction false} AddressedMain(render: Rendering, s: State)
    requires Addressed(s) && OutputInv(render, s)
    ensures Addressed(MainStep(render, s))
  {
    MainFrame(render, s);
  }

  lemma {:induction false} AddressedStep(render: Rendering, s: State, act: Action)
    requires Addressed(s) && OutputInv(render, s)
    ensures Addressed(Step(render, s, act))
  {
    if act == Main {
      AddressedMain(render, s);
    }
  }

  /** In every run no client ever takes a message with a dest below 1 or with dest 4, but for Quits. */
  lemma {:induction false} OnlyReachableTaken(render: Rendering, s0: State, schedule: seq<Action>)
    requires Initial(s0)
    ensures var s := After(render, s0, schedule);
            Addressed(s) && forall m :: m in s.h.taken && !m.shutdown ==> Reachable(m.dest)
  {
    if schedule != [] {
      var front := schedule[..|schedule| - 1];
      OnlyReachableTaken(render, s0, front);
      AlwaysOutput(render, s0, front);
      AddressedStep(render, After(render, s0, front), schedule[|schedule| - 1]);
    }
  }

  // ---------- A message with dest 0 ----------

  /** Nothing that entered can be delivered, and nothing was. */
  ghost predicate NothingOut(s: State, entered: seq<Message>) {
    s.h.sent == [] && s.h.entered == entered && forall m :: m in entered ==> m.dest < 1
  }

  lemma {:induction false} NothingOutStep(render: Rendering, s: State, act: Action, entered: seq<Message>)
    requires Up(s) && OutputInv(render, s) && NothingOut(s, entered) && act != Interrupt && !act.ClientSend?
    ensures NothingOut(Step(render, s, act), entered)
  {
    if act == Main && s.mainPc == Send {
      assert s.received in s.h.obtained;
      assert s.received in s.h.entered;
    }
  }

  lemma {:induction false} NothingOutAfter(render: Rendering, s: State, schedule: seq<Action>, entered: seq<Message>)
    requires Up(s) && OutputInv(render, s) && NothingOut(s, entered)
    requires forall act :: act in schedule ==> act != Interrupt && !act.ClientSend?
    ensures var s' := After(render, s, schedule);
            Up(s') && OutputInv(render, s') && NothingOut(s', entered)
  {
    if schedule != [] {
      var front, act := schedule[..|schedule| - 1], schedule[|schedule| - 1];
      assert act in schedule && forall a :: a in front ==> a in schedule;
      NothingOutAfter(render, s, front, entered);
      UpStep(render, After(render, s, front), act);
      OutputStep(render, After(render, s, front), act);
      NothingOutStep(render, After(render, s, front), act, entered);
    }
  }

  lemma {:induction false} NothingOutRounds(render: Rendering, s: State, rounds: seq<seq<Action>>,
                                            entered: seq<Message>)
    requires Up(s) && OutputInv(render, s) && NothingOut(s, entered)
    requires forall r, act :: r in rounds && act in r ==> act != Interrupt && !act.ClientSend?
    ensures var s' := AfterRounds(render, s, rounds);
            Up(s') && OutputInv(render, s') && NothingOut(s', entered)
  {
    if rounds != [] {
      var front, last := rounds[..|rounds| - 1], rounds[|rounds| - 1];
      assert last in rounds && forall r :: r in front ==> r in rounds;
      NothingOutRounds(render, s, front, entered);
      NothingOutAfter(render, AfterRounds(render, s, front), last, entered);
    }
  }

  /** A message with dest 0, the only one that enters, is taken, popped and forwarded, and nothing is sent:
      from an empty queue, after 21 rounds of alternating turns, it is gone. */
  lemma {:induction false} DestZeroIsLost(render: Rendering, s0: State, text: string, rounds: seq<seq<Action>>)
    requires Initial(s0) && s0.kernelQ == [] && |rounds| >= 21
    requires forall r :: r in rounds ==> r == Alternation
    ensures var m := Message(4, 1, 0, text, false);
            var s := AfterRounds(render, After(render, s0, [ClientSend(m)]), rounds);
            s.h.forwarded == [m] && s.h.sent == [] && s.messageQ == [] && Waiting(s) == 0
  {
    hide Step;
    var m := Message(4, 1, 0, text, false);
    var s1 := After(render, s0, [ClientSend(m)]);
    Alone(render, s0, m);
    NothingOutRounds(render, s1, rounds, [m]);
    AlternatingIsLucky(render, s1, rounds);
    ForwardedFrom(render, s1, rounds, 1);
    AllGone(AfterRounds(render, s1, rounds), [m]);
  }

  /** One message in an empty router. */
  lemma {:induction false} Alone(render: Rendering, s0: State, m: Message)
    requires Initial(s0) && s0.kernelQ == [] && m.mtype == 4 && !m.shutdown
    ensures var s := After(render, s0, [ClientSend(m)]);
            && Up(s) && OutputInv(render, s) && s.kernelQ == [m] && s.h == History([m], [], [], [], [])
            && Need(s, 1) == 20
  {
    hide Step;
    var asks := [ClientSend(m)];
    One(render, s0, ClientSend(m));
    SendAlone(render, s0, m);
    AlwaysUp(render, s0, asks);
    AlwaysOutput(render, s0, asks);
  }

  lemma {:induction false} SendAlone(render: Rendering, s0: State, m: Message)
    requires Initial(s0) && s0.kernelQ == [] && m.mtype == 4 && !m.shutdown
    ensures var s := Step(render, s0, ClientSend(m));
            s.kernelQ == [m] && s.h == History([m], [], [], [], []) && Need(s, 1) == 20
  {
    assert m.(mtype := 4, shutdown := false) == m && [] + [m] == [m];
  }

  lemma {:induction false} AllGone(s: State, entered: seq<Message>)
    requires Up(s) && s.h.entered == entered && entered <= s.h.forwarded
    ensures s.h.forwarded == entered && s.messageQ == [] && Waiting(s) == 0
  {
    assert |s.h.entered| == |s.h.forwarded| + |MainHand(s)| + |s.messageQ| + |RecvHand(s)| + Waiting(s);
  }

  // ---------- A message with dest 4 ----------

  /** Everything in the router has dest 4, exactly one message is on its way, and nobody has taken anything. */
  ghost predicate Circling(s: State) {
    && |s.h.entered| == |s.h.forwarded| + 1 && s.h.taken == []
    && (forall m :: m in s.h.entered ==> m.dest == 4)
    && (forall m :: m in s.kernelQ ==> m.mtype == 4)
  }

  lemma {:induction false} CirclingMain(render: Rendering, s: State)
    requires Up(s) && OutputInv(render, s) && Circling(s)
    ensures Circling(MainStep(render, s))
  {
    MainFrame(render, s);
    if s.mainPc == Send {
      assert s.received in s.h.obtained;
      assert s.received in s.h.entered;
      assert MainPuts(s) == [s.outgoing] && s.outgoing.mtype == 4;
    } else {
      assert MainStep(render, s).h == s.h && MainPuts(s) == [];
    }
  }

  lemma {:induction false} CirclingStep(render: Rendering, s: State, act: Action)
    requires Up(s) && OutputInv(render, s) && Circling(s) && (act == Main || act == Recv)
    ensures var s' := Step(render, s, act);
            Up(s') && OutputInv(render, s') && Circling(s')
  {
    UpStep(render, s, act);
    OutputStep(render, s, act);
    if act == Main {
      CirclingMain(render, s);
    }
  }

  lemma {:induction false} CirclingAfter(render: Rendering, s: State, schedule: seq<Action>)
    requires Up(s) && OutputInv(render, s) && Circling(s)
    requires forall act :: act in schedule ==> act == Main || act == Recv
    ensures var s' := After(render, s, schedule);
            Up(s') && OutputInv(render, s') && Circling(s')
  {
    if schedule != [] {
      var front, act := schedule[..|schedule| - 1], schedule[|schedule| - 1];
      assert act in schedule && forall a :: a in front ==> a in schedule;
      CirclingAfter(render, s, front);
      CirclingStep(render, After(render, s, front), act);
    }
  }

  lemma {:induction false} CirclingRounds(render: Rendering, s: State, rounds: seq<seq<Action>>)
    requires Up(s) && OutputInv(render, s) && Circling(s)
    requires forall r :: r in rounds ==> r == Alternation
    ensures var s' := AfterRounds(render, s, rounds);
            Up(s') && OutputInv(render, s') && Circling(s')
  {
    if rounds != [] {
      var front, last := rounds[..|rounds| - 1], rounds[|rounds| - 1];
      assert last in rounds && forall r :: r in front ==> r in rounds;
      CirclingRounds(render, s, front);
      CirclingAfter(render, AfterRounds(render, s, front), last);
    }
  }

  lemma {:induction false} RoundsConcat(render: Rendering, s: State, a: seq<seq<Action>>, b: seq<seq<Action>>)
    ensures AfterRounds(render, s, a + b) == AfterRounds(render, AfterRounds(render, s, a), b)
  {
    if b == [] {
      assert a + b == a;
    } else {
      var front := b[..|b| - 1];
      assert (a + b)[..|a + b| - 1] == a + front;
      RoundsConcat(render, s, a, front);
    }
  }

  /** Each lap takes at most 23 rounds. */
  lemma {:induction false} Laps(render: Rendering, s: State, rounds: seq<seq<Action>>, k: nat)
    requires Up(s) && OutputInv(render, s) && Circling(s)
    requires |rounds| == 23 * k && forall r :: r in rounds ==> r == Alternation
    ensures |AfterRounds(render, s, rounds).h.forwarded| >= k
  {
    hide Step;
    if k > 0 {
      var most, lap := rounds[..23 * (k - 1)], rounds[23 * (k - 1)..];
      assert rounds == most + lap;
      assert (forall r :: r in most ==> r in rounds) && forall r :: r in lap ==> r in rounds;
      Laps(render, s, most, k - 1);
      CirclingRounds(render, s, most);
      RoundsConcat(render, s, most, lap);
      OneLap(render, AfterRounds(render, s, most), lap);
    }
  }

  lemma {:induction false} OneLap(render: Rendering, s: State, rounds: seq<seq<Action>>)
    requires Up(s) && Circling(s) && |rounds| == 23 && forall r :: r in rounds ==> r == Alternation
    ensures |AfterRounds(render, s, rounds).h.forwarded| >= |s.h.forwarded| + 1
  {
    hide Step;
    AlternatingIsLucky(render, s, rounds);
    NeedIsSmall(s, |s.h.entered|);
    ForwardedFrom(render, s, rounds, |s.h.entered|);
  }

  /** A message with dest 4 goes round for ever: alone in an empty router, after 23 * k rounds of alternating turns
      it has been popped and sent on at least k times, it is on its way again, and no client has got anything. */
  lemma {:induction false} DestFourCirculates(render: Rendering, s0: State, text: string,
                                              rounds: seq<seq<Action>>, k: nat)
    requires Initial(s0) && s0.kernelQ == [] && |rounds| == 23 * k
    requires forall r :: r in rounds ==> r == Alternation
    ensures var s := AfterRounds(render, After(render, s0, [ClientSend(Message(4, 1, 4, text, false))]), rounds);
            && |s.h.forwarded| >= k && |s.h.entered| == |s.h.forwarded| + 1 && s.h.taken == []
            && forall m :: m in s.h.entered ==> m.dest == 4
  {
    hide Step;
    var m := Message(4, 1, 4, text, false);
    Alone(render, s0, m);
    var s1 := After(render, s0, [ClientSend(m)]);
    CirclingRounds(render, s1, rounds);
    Laps(render, s1, rounds, k);
  }
}
