/** The fork loop and the wait loop of the system monitor (Labs/Lab 5/sysmonExec.cpp), for any number NUM
    of children: every process runs the same code on its own copy of the variables. */
module ForkLoop {
  datatype Pc =
    | LoopTest          // 31
    | Fork              // 32
    | Branch            // 33
    | Mark              // 34-35
    | Exec              // 36-38
    | Rest              // 41
    | Signal(k: nat)    // 58-74 for k < NUM (SIGUSR1), 79-95 for the others (SIGUSR2)
    | WaitTest          // 99
    | Wait              // 100
    | Finish            // 46-48
    | Program           // the other program, after a successful exec
    | Zombie            // ended, not yet waited for
    | Reaped

  /** A process: its parent, its control point and its copy of i, isParent, childPid and pid. */
  datatype Process = Process(parent: int, pc: Pc, i: nat, isParent: bool, childPid: seq<int>, pid: int)

  /** procs is every process ever created. waits, reaped and signalled are histories of the root. */
  datatype State = State(
    num: nat, root: int, procs: map<int, Process>,
    waits: nat, reaped: seq<int>, signalled: seq<int>)

  /** Run: process p takes a step; fork returns newPid, exec succeeds or not, wait finds the zombie z.
      Die: process p ends, by its program's end or by a signal. */
  datatype Action =
    | Run(p: int, newPid: int, execs: bool, z: int)
    | Die(p: int)

  function Put(s: State, p: int, q: Process): State {
    s.(procs := s.procs[p := q])
  }

  /** fork returns a new process number in the parent and 0 in the child, which has a copy of everything. */
  function ForkStep(s: State, p: int, me: Process, newPid: int): State {
    if newPid <= 0 || newPid in s.procs || me.i >= |me.childPid| then s
    else
      var child := me.(parent := p, pc := Branch, childPid := me.childPid[me.i := 0]);
      var parent := me.(pc := Branch, childPid := me.childPid[me.i := newPid]);
      s.(procs := s.procs[newPid := child][p := parent])
  }

  predicate IsChild(s: State, c: int, p: int) {
    c in s.procs && c != p && s.procs[c].parent == p && s.procs[c].pc != Reaped
  }

  /** wait reaps a child that has ended, blocks while there are only living ones, and fails with none left. */
  function WaitStep(s: State, p: int, me: Process, z: int): State {
    if IsChild(s, z, p) && s.procs[z].pc == Zombie then
      s.(procs := s.procs[z := s.procs[z].(pc := Reaped)][p := me.(pid := z, pc := WaitTest)],
         waits := s.waits + 1, reaped := s.reaped + [z])
    else if forall c :: c in s.procs ==> !IsChild(s, c, p) then
      Put(s, p, me.(pid := -1, pc := WaitTest)).(waits := s.waits + 1)
    else s
  }

  function RunStep(s: State, p: int, newPid: int, execs: bool, z: int): State
    requires p in s.procs
  {
    var me := s.procs[p];
    match me.pc
    case LoopTest => Put(s, p, me.(pc := if me.i < s.num && me.isParent then Fork else Rest))
    case Fork => ForkStep(s, p, me, newPid)
    case Branch =>
      if me.i < |me.childPid| && me.childPid[me.i] == 0 then Put(s, p, me.(pc := Mark))
      else Put(s, p, me.(pc := LoopTest, i := me.i + 1))
    case Mark => Put(s, p, me.(isParent := false, pc := Exec))
    case Exec => Put(s, p, if execs then me.(pc := Program) else me.(pc := LoopTest, i := me.i + 1))
    case Rest => Put(s, p, me.(pc := if me.isParent then Signal(0) else Finish))
    case Signal(k) =>
      if k < 2 * s.num && s.num <= |me.childPid| then
        Put(s, p, me.(pc := Signal(k + 1))).(signalled := s.signalled + [me.childPid[k % s.num]])
      else Put(s, p, me.(pc := WaitTest, pid := 0))
    case WaitTest => Put(s, p, me.(pc := if me.pid >= 0 then Wait else Finish))
    case Wait => WaitStep(s, p, me, z)
    case Finish => Put(s, p, me.(pc := Zombie))
    case Program => s
    case Zombie => s
    case Reaped => s
  }

  function Step(s: State, act: Action): State {
    match act
    case Run(p, newPid, execs, z) => if p in s.procs then RunStep(s, p, newPid, execs, z) else s
    case Die(p) =>
      if p in s.procs && p != s.root && s.procs[p].pc != Reaped then Put(s, p, s.procs[p].(pc := Zombie)) else s
  }

  function After(s: State, schedule: seq<Action>): State {
    if schedule == [] then s
    else Step(After(s, schedule[..|schedule| - 1]), schedule[|schedule| - 1])
  }

  /** Only the root, before its loop; childPid is a global array, so it starts as zeros. */
  ghost predicate Initial(s: State) {
    && s.root > 0 && s.procs.Keys == {s.root}
    && s.procs[s.root] == Process(0, LoopTest, 0, true, seq(s.num, _ => 0), 0)
    && s.waits == 0 && s.reaped == [] && s.signalled == []
  }

  // ---------- The shape of the process tree ----------

  /** The children the root has forked so far, in order. */
  function Kids(r: Process): seq<int> {
    var n := if r.pc == Branch then r.i + 1 else r.i;
    if n <= |r.childPid| then r.childPid[..n] else r.childPid
  }

  predicate RootPc(pc: Pc) {
    pc != Mark && pc != Exec && pc != Program && pc != Reaped
  }

  predicate Looping(pc: Pc) {
    pc == LoopTest || pc == Fork || pc == Branch
  }

  ghost predicate RootOk(num: nat, r: Process) {
    && r.isParent && RootPc(r.pc)
    && |r.childPid| == num && r.i <= num
    && (r.pc == Fork || r.pc == Branch ==> r.i < num)
    && (!Looping(r.pc) ==> r.i == num)
    && (r.pc == Branch ==> r.childPid[r.i] != 0)
  }

  predicate ChildPc(pc: Pc) {
    pc != Fork && !pc.Signal? && pc != WaitTest && pc != Wait
  }

  /** A child has the copied entry 0 until it has marked itself, and never forks or monitors. */
  ghost predicate ChildOk(root: int, c: Process) {
    && c.parent == root && ChildPc(c.pc)
    && (c.pc == Branch || c.pc == Mark ==> c.i < |c.childPid| && c.childPid[c.i] == 0)
    && (c.pc == Exec || c.pc == LoopTest || c.pc == Rest || c.pc == Finish ==> !c.isParent)
  }

  ghost predicate Distinct(s: seq<int>) {
    forall a, b :: 0 <= a < b < |s| ==> s[a] != s[b]
  }

  ghost predicate Tree(s: State) {
    && s.root > 0 && s.root in s.procs
    && RootOk(s.num, s.procs[s.root])
    && Distinct(Kids(s.procs[s.root]))
    && (forall c :: c in s.procs && c != s.root <==> c in Kids(s.procs[s.root]))
    && (forall c :: c in s.procs && c != s.root ==> c > 0 && ChildOk(s.root, s.procs[c]))
  }

  // ---------- The wait loop ----------

  predicate Waiting(pc: Pc) {
    pc == WaitTest || pc == Wait || pc == Finish || pc == Zombie
  }

  /** What the last wait returned: -1 once one has failed, and 0 if there was none. */
  function LastWaited(waits: nat, reaped: seq<int>): int {
    if waits > |reaped| then -1 else if reaped == [] then 0 else reaped[|reaped| - 1]
  }

  ghost predicate Waits(s: State) {
    && s.root in s.procs
    && var r := s.procs[s.root];
    && Distinct(s.reaped)
    && (forall c :: c in s.reaped <==> c in s.procs && s.procs[c].pc == Reaped)
    && s.root !in s.reaped
    && (Waiting(r.pc) ==> s.waits == |s.reaped| + if r.pid < 0 then 1 else 0)
    && (Waiting(r.pc) ==> r.pid == LastWaited(s.waits, s.reaped))
    && (!Waiting(r.pc) ==> s.waits == 0 && s.reaped == [])
    && (r.pc == Wait ==> r.pid >= 0)
    && (r.pc == Finish || r.pc == Zombie ==> r.pid < 0)
    && (Waiting(r.pc) && r.pid < 0 ==> forall c :: c in s.procs && c != s.root ==> s.procs[c].pc == Reaped)
  }

  // ---------- Preservation ----------

  /** Only process p changes, and it stays what it is: the root with the same children, or a good child. */
  lemma {:induction false} TreePut(s: State, p: int, q: Process)
    requires Tree(s) && p in s.procs
    requires if p == s.root then RootOk(s.num, q) && Kids(q) == Kids(s.procs[p]) else ChildOk(s.root, q)
    ensures Tree(Put(s, p, q))
  {
  }

  /** A fork appends the new child to the root's list. */
  lemma {:induction false} ForkKids(s: State, newPid: int)
    requires Tree(s) && s.procs[s.root].pc == Fork && newPid > 0 && newPid !in s.procs
    ensures var me := s.procs[s.root];
            var me' := me.(pc := Branch, childPid := me.childPid[me.i := newPid]);
            RootOk(s.num, me') && Kids(me') == Kids(me) + [newPid] && newPid !in Kids(me) && Distinct(Kids(me'))
  {
    var me := s.procs[s.root];
    assert newPid !in Kids(me);
  }

  lemma {:induction false} TreeFork(s: State, newPid: int)
    requires Tree(s) && s.procs[s.root].pc == Fork
    ensures Tree(ForkStep(s, s.root, s.procs[s.root], newPid))
  {
    if newPid > 0 && newPid !in s.procs {
      ForkKids(s, newPid);
      var me := s.procs[s.root];
      var child := me.(parent := s.root, pc := Branch, childPid := me.childPid[me.i := 0]);
      var me' := me.(pc := Branch, childPid := me.childPid[me.i := newPid]);
      assert ChildOk(s.root, child);
      TreeGrows(s, s.(procs := s.procs[newPid := child][s.root := me']), newPid, child, me');
    }
  }

  lemma {:induction false} TreeGrows(s: State, s': State, newPid: int, child: Process, me': Process)
    requires Tree(s) && newPid > 0 && newPid !in s.procs && ChildOk(s.root, child)
    requires s' == s.(procs := s.procs[newPid := child][s.root := me'])
    requires RootOk(s.num, me') && Kids(me') == Kids(s.procs[s.root]) + [newPid] && Distinct(Kids(me'))
    ensures Tree(s')
  {
  }

  lemma {:induction false} TreeWait(s: State, z: int)
    requires Tree(s) && s.procs[s.root].pc == Wait
    ensures Tree(WaitStep(s, s.root, s.procs[s.root], z))
  {
    var r := s.procs[s.root];
    var s' := WaitStep(s, s.root, r, z);
    if s'.reaped != s.reaped {
      var s1 := Put(s, z, s.procs[z].(pc := Reaped));
      TreePut(s, z, s.procs[z].(pc := Reaped));
      TreePut(s1, s.root, r.(pid := z, pc := WaitTest));
    } else if s' != s {
      TreePut(s, s.root, r.(pid := -1, pc := WaitTest));
    }
  }

  /** In its other steps the root stays a good root with the same children, and touches nobody else. */
  lemma {:induction false} RootKeeps(s: State, newPid: int, execs: bool, z: int)
    requires s.root in s.procs && RootOk(s.num, s.procs[s.root])
    requires s.procs[s.root].pc != Fork && s.procs[s.root].pc != Wait
    ensures var s' := RunStep(s, s.root, newPid, execs, z);
            && s.root in s'.procs && s'.num == s.num && s'.root == s.root
            && RootOk(s.num, s'.procs[s.root]) && Kids(s'.procs[s.root]) == Kids(s.procs[s.root])
  {
  }

  lemma {:induction false} RootAlone(s: State, newPid: int, execs: bool, z: int)
    requires s.root in s.procs && s.procs[s.root].pc != Fork && s.procs[s.root].pc != Wait
    ensures var s' := RunStep(s, s.root, newPid, execs, z);
            s.root in s'.procs && s'.procs == s.procs[s.root := s'.procs[s.root]]
  {
  }

  lemma {:induction false} SameTree(s: State, t: State)
    requires Tree(s) && t.procs == s.procs && t.root == s.root && t.num == s.num
    ensures Tree(t)
  {
  }

  lemma {:induction false} TreeRoot(s: State, newPid: int, execs: bool, z: int)
    requires Tree(s)
    ensures Tree(RunStep(s, s.root, newPid, execs, z))
  {
    var r := s.procs[s.root];
    if r.pc == Fork {
      TreeFork(s, newPid);
      assert RunStep(s, s.root, newPid, execs, z) == ForkStep(s, s.root, r, newPid);
    } else if r.pc == Wait {
      TreeWait(s, z);
      assert RunStep(s, s.root, newPid, execs, z) == WaitStep(s, s.root, r, z);
    } else {
      TreeQuiet(s, newPid, execs, z);
    }
  }

  lemma {:induction false} TreeQuiet(s: State, newPid: int, execs: bool, z: int)
    requires Tree(s) && s.procs[s.root].pc != Fork && s.procs[s.root].pc != Wait
    ensures Tree(RunStep(s, s.root, newPid, execs, z))
  {
    RootKeeps(s, newPid, execs, z);
    RootAlone(s, newPid, execs, z);
    var s' := RunStep(s, s.root, newPid, execs, z);
    TreePut(s, s.root, s'.procs[s.root]);
    SameTree(Put(s, s.root, s'.procs[s.root]), s');
  }

  lemma {:induction false} ChildRun(s: State, p: int, newPid: int, execs: bool, z: int)
    requires Tree(s) && p in s.procs && p != s.root
    ensures var s' := RunStep(s, p, newPid, execs, z);
            && p in s'.procs && s' == Put(s, p, s'.procs[p]) && ChildOk(s.root, s'.procs[p])
            && (s'.procs[p].pc == Reaped <==> s.procs[p].pc == Reaped)
  {
    var c := s.procs[p];
    assert ChildOk(s.root, c);
    assert s.procs == s.procs[p := c];
  }

  lemma {:induction false} TreeStep(s: State, act: Action)
    requires Tree(s)
    ensures Tree(Step(s, act))
  {
    match act
    case Run(p, newPid, execs, z) =>
      if p == s.root {
        TreeRoot(s, newPid, execs, z);
      } else if p in s.procs {
        ChildRun(s, p, newPid, execs, z);
        TreePut(s, p, RunStep(s, p, newPid, execs, z).procs[p]);
      }
    case Die(p) =>
      if p in s.procs && p != s.root && s.procs[p].pc != Reaped {
        TreePut(s, p, s.procs[p].(pc := Zombie));
      }
  }

  lemma {:induction false} TreeInitial(s0: State)
    requires Initial(s0)
    ensures Tree(s0)
  {
    assert forall c :: c in s0.procs <==> c == s0.root;
  }

  lemma {:induction false} Constants(s: State, act: Action)
    ensures Step(s, act).num == s.num && Step(s, act).root == s.root
  {
  }

  lemma {:induction false} AlwaysTree(s0: State, schedule: seq<Action>)
    requires Initial(s0)
    ensures var s := After(s0, schedule);
            Tree(s) && s.num == s0.num && s.root == s0.root
  {
    if schedule == [] {
      TreeInitial(s0);
    } else {
      var front, act := schedule[..|schedule| - 1], schedule[|schedule| - 1];
      AlwaysTree(s0, front);
      TreeStep(After(s0, front), act);
      Constants(After(s0, front), act);
    }
  }

  /** In every interleaving, with any mix of successful and failed execs: the processes are the root and the
      children it forked, each a child of the root; no child ever forks or runs the monitor; and when the
      root is past its loop there are exactly NUM children. */
  lemma {:induction false} ProcessTree(s0: State, schedule: seq<Action>)
    requires Initial(s0)
    ensures var s := After(s0, schedule);
            && s.root in s.procs
            && (forall c :: c in s.procs && c != s.root ==> s.procs[c].parent == s.root && ChildPc(s.procs[c].pc))
            && |s.procs| == 1 + |Kids(s.procs[s.root])|
            && (!Looping(s.procs[s.root].pc) ==> |s.procs| == s0.num + 1)
  {
    AlwaysTree(s0, schedule);
    var s := After(s0, schedule);
    TreeSize(s);
  }

  lemma {:induction false} TreeSize(s: State)
    requires Tree(s)
    ensures |s.procs| == 1 + |Kids(s.procs[s.root])|
  {
    var kids := Kids(s.procs[s.root]);
    forall c ensures c in s.procs <==> c in (set x | x in kids) + {s.root} {
      assert c in s.procs && c != s.root <==> c in kids;
    }
    assert s.procs.Keys == (set x | x in kids) + {s.root};
    DistinctSize(kids);
    assert s.root !in kids;
  }

  lemma {:induction false} DistinctSize(s: seq<int>)
    requires Distinct(s)
    ensures |(set x | x in s)| == |s|
  {
    if s == [] {
      assert (set x | x in s) == {};
    } else {
      var front, last := s[..|s| - 1], s[|s| - 1];
      assert last !in front;
      assert (set x | x in s) == (set x | x in front) + {last};
      DistinctSize(front);
    }
  }

  // ---------- Preservation of the wait loop's part ----------

  lemma {:induction false} WaitsReap(s: State, z: int)
    requires Tree(s) && Waits(s) && s.procs[s.root].pc == Wait
    ensures Waits(WaitStep(s, s.root, s.procs[s.root], z))
  {
    var s' := WaitStep(s, s.root, s.procs[s.root], z);
    if s'.reaped != s.reaped {
      assert z in Kids(s.procs[s.root]) && z > 0;
      assert s'.reaped == s.reaped + [z] && z !in s.reaped;
    } else if s' != s {
      forall c | c in s.procs && c != s.root ensures s.procs[c].pc == Reaped {
        assert ChildOk(s.root, s.procs[c]) && !IsChild(s, c, s.root);
      }
    }
  }

  lemma {:induction false} WaitsRoot(s: State, newPid: int, execs: bool, z: int)
    requires Tree(s) && Waits(s)
    ensures Waits(RunStep(s, s.root, newPid, execs, z))
  {
    var pc := s.procs[s.root].pc;
    if pc == Wait {
      WaitsReap(s, z);
    } else if pc == Fork {
      WaitsFork(s, newPid);
    } else {
      assert RootOk(s.num, s.procs[s.root]);
      RootAlone(s, newPid, execs, z);
      RootMoves(s, newPid, execs, z);
      var s' := RunStep(s, s.root, newPid, execs, z);
      WaitsOther(s, s', s'.procs[s.root]);
    }
  }

  lemma {:induction false} RootMoves(s: State, newPid: int, execs: bool, z: int)
    requires s.root in s.procs && RootOk(s.num, s.procs[s.root])
    requires s.procs[s.root].pc != Fork && s.procs[s.root].pc != Wait
    requires var r := s.procs[s.root]; r.pc == Finish || r.pc == Zombie ==> r.pid < 0
    ensures var r, s' := s.procs[s.root], RunStep(s, s.root, newPid, execs, z);
            && s'.root == s.root && s'.waits == s.waits && s'.reaped == s.reaped && s.root in s'.procs
            && var q := s'.procs[s.root];
               && q.pc != Reaped
               && (Waiting(q.pc) ==> Waiting(r.pc) || (r.pc.Signal? && q.pc == WaitTest && q.pid == 0))
               && (Waiting(r.pc) ==> Waiting(q.pc) && q.pid == r.pid)
               && (q.pc == Wait ==> q.pid >= 0) && (q.pc == Finish || q.pc == Zombie ==> q.pid < 0)
  {
  }

  lemma {:induction false} WaitsFork(s: State, newPid: int)
    requires s.root in s.procs && Waits(s) && s.procs[s.root].pc == Fork
    ensures var s' := ForkStep(s, s.root, s.procs[s.root], newPid);
            s.root in s'.procs && Waits(s')
  {
  }

  /** The root moves on without waiting: it is not reaped, and it enters and leaves the loop as it should. */
  lemma {:induction false} WaitsOther(s: State, s': State, q: Process)
    requires s.root in s.procs && Waits(s) && q.pc != Reaped
    requires s'.procs == s.procs[s.root := q] && s'.root == s.root && s'.waits == s.waits && s'.reaped == s.reaped
    requires Waiting(q.pc) ==>
               || Waiting(s.procs[s.root].pc)
               || (s.procs[s.root].pc.Signal? && q.pc == WaitTest && q.pid == 0)
    requires Waiting(s.procs[s.root].pc) ==> Waiting(q.pc) && q.pid == s.procs[s.root].pid
    requires (q.pc == Wait ==> q.pid >= 0) && (q.pc == Finish || q.pc == Zombie ==> q.pid < 0)
    ensures Waits(s')
  {
  }

  lemma {:induction false} WaitsPut(s: State, c: int, q: Process)
    requires s.root in s.procs && Waits(s) && c in s.procs && c != s.root
    requires (q.pc == Reaped <==> s.procs[c].pc == Reaped)
    ensures Waits(Put(s, c, q))
  {
  }

  lemma {:induction false} WaitsStep(s: State, act: Action)
    requires Tree(s) && Waits(s)
    ensures Waits(Step(s, act))
  {
    match act
    case Run(p, newPid, execs, z) =>
      if p == s.root {
        WaitsRoot(s, newPid, execs, z);
      } else if p in s.procs {
        ChildRun(s, p, newPid, execs, z);
        WaitsPut(s, p, RunStep(s, p, newPid, execs, z).procs[p]);
      }
    case Die(p) =>
      if p in s.procs && p != s.root && s.procs[p].pc != Reaped {
        WaitsPut(s, p, s.procs[p].(pc := Zombie));
      }
  }

  lemma {:induction false} AlwaysWaits(s0: State, schedule: seq<Action>)
    requires Initial(s0)
    ensures Tree(After(s0, schedule)) && Waits(After(s0, schedule))
  {
    AlwaysTree(s0, schedule);
    if schedule != [] {
      var front := schedule[..|schedule| - 1];
      AlwaysWaits(s0, front);
      WaitsStep(After(s0, front), schedule[|schedule| - 1]);
    }
  }

  /** When the root leaves its wait loop it has waited exactly NUM + 1 times and reaped each of its NUM
      children once. */
  lemma {:induction false} WaitsExactly(s0: State, schedule: seq<Action>)
    requires Initial(s0)
    requires var procs := After(s0, schedule).procs;
             s0.root in procs && (procs[s0.root].pc == Finish || procs[s0.root].pc == Zombie)
    ensures var s := After(s0, schedule);
            && s.waits == s0.num + 1
            && |s.reaped| == s0.num && Distinct(s.reaped)
            && (forall c :: c in s.reaped <==> c in s.procs && c != s.root)
  {
    AlwaysTree(s0, schedule);
    AlwaysWaits(s0, schedule);
    AllReaped(After(s0, schedule));
  }

  lemma {:induction false} AllReaped(s: State)
    requires Tree(s) && Waits(s) && (s.procs[s.root].pc == Finish || s.procs[s.root].pc == Zombie)
    ensures s.waits == s.num + 1 && |s.reaped| == s.num && Distinct(s.reaped)
    ensures forall c :: c in s.reaped <==> c in s.procs && c != s.root
  {
    var kids := Kids(s.procs[s.root]);
    DistinctSize(kids);
    DistinctSize(s.reaped);
    assert (set x | x in kids) == (set x | x in s.reaped);
  }

  // ---------- The wait loop ends ----------

  lemma {:induction false} ReapedFew(s: State)
    requires Tree(s) && Waits(s) && Waiting(s.procs[s.root].pc)
    ensures |s.reaped| <= s.num
    ensures |s.reaped| < s.num <==> exists c :: c in s.procs && c != s.root && s.procs[c].pc != Reaped
  {
    var kids := Kids(s.procs[s.root]);
    var all, done := set x | x in kids, set x | x in s.reaped;
    DistinctSize(kids);
    DistinctSize(s.reaped);
    assert done <= all;
    Cardinality(done, all);
    if |s.reaped| < s.num {
      var c :| c in kids && c !in s.reaped;
      assert c in s.procs && c != s.root && s.procs[c].pc != Reaped;
    } else {
      assert done == all;
      forall c | c in s.procs && c != s.root ensures s.procs[c].pc == Reaped {
        assert c in all;
      }
    }
  }

  lemma {:induction false} Cardinality<T>(a: set<T>, b: set<T>)
    requires a <= b
    ensures |a| <= |b|
    ensures |a| == |b| <==> a == b
    ensures |a| < |b| ==> exists x :: x in b && x !in a
  {
    assert |b| == |a| + |b - a| by {
      assert a + (b - a) == b;
    }
    if |a| < |b| {
      var x :| x in b - a;
    }
  }

  /** Steps the root has left in its wait loop. */
  function WaitMeasure(s: State): int
    requires s.root in s.procs
  {
    var r := s.procs[s.root];
    2 * (s.num - |s.reaped|) +
    match r.pc
    case WaitTest => if r.pid >= 0 then 4 else 2
    case Wait => 3
    case Finish => 1
    case _ => 0
  }

  ghost predicate AllEnded(s: State) {
    forall c :: c in s.procs && c != s.root ==> s.procs[c].pc == Zombie || s.procs[c].pc == Reaped
  }

  /** The answer wait gives once every child has ended: a zombie if there is one left. */
  ghost predicate Answer(s: State, z: int) {
    || (IsChild(s, z, s.root) && s.procs[z].pc == Zombie)
    || (forall c :: c in s.procs ==> !IsChild(s, c, s.root))
  }

  /** Once every child has ended, wait never blocks: the kernel has an answer. */
  lemma {:induction false} AnAnswer(s: State) returns (z: int)
    requires Tree(s) && AllEnded(s)
    ensures Answer(s, z)
    ensures s.procs[s.root].pc == Wait ==> WaitStep(s, s.root, s.procs[s.root], z) != s
  {
    z := 0;
    if exists c :: c in s.procs && IsChild(s, c, s.root) {
      z :| z in s.procs && IsChild(s, z, s.root);
    }
  }

  predicate IsTurn(act: Action, p: int) {
    act.Run? && act.p == p
  }

  /** The kernel answers each wait of the root that happens in the schedule. */
  ghost predicate Answered(s: State, schedule: seq<Action>) {
    schedule == [] ||
    var front, act := schedule[..|schedule| - 1], schedule[|schedule| - 1];
    Answered(s, front) && (IsTurn(act, s.root) ==> Answer(After(s, front), act.z))
  }

  /** The turns of process p. */
  function TurnsOf(p: int, schedule: seq<Action>): nat {
    if schedule == [] then 0
    else
      var act := schedule[|schedule| - 1];
      TurnsOf(p, schedule[..|schedule| - 1]) + if IsTurn(act, p) then 1 else 0
  }

  ghost predicate Winding(s: State) {
    Tree(s) && Waits(s) && AllEnded(s) && Waiting(s.procs[s.root].pc)
  }

  lemma {:induction false} RootWinds(s: State, newPid: int, execs: bool, z: int)
    requires Winding(s) && Answer(s, z)
    ensures var s' := RunStep(s, s.root, newPid, execs, z);
            && AllEnded(s') && s'.procs.Keys == s.procs.Keys && s.root in s'.procs && Waiting(s'.procs[s.root].pc)
            && s'.root == s.root && s'.num == s.num
            && if s.procs[s.root].pc == Zombie then s' == s else WaitMeasure(s') == WaitMeasure(s) - 1
  {
    if s.procs[s.root].pc == Wait {
      RootReaps(s, z);
    } else {
      assert s.procs[s.root := s.procs[s.root]] == s.procs;
    }
  }

  lemma {:induction false} RootReaps(s: State, z: int)
    requires Winding(s) && Answer(s, z) && s.procs[s.root].pc == Wait
    ensures var s' := WaitStep(s, s.root, s.procs[s.root], z);
            && AllEnded(s') && s'.procs.Keys == s.procs.Keys && s.root in s'.procs && s'.procs[s.root].pc == WaitTest
            && s'.root == s.root && s'.num == s.num && WaitMeasure(s') == WaitMeasure(s) - 1
  {
    var me, s' := s.procs[s.root], WaitStep(s, s.root, s.procs[s.root], z);
    if IsChild(s, z, s.root) && s.procs[z].pc == Zombie {
      assert z != s.root && z > 0;
      assert s'.procs == s.procs[z := s.procs[z].(pc := Reaped)][s.root := me.(pid := z, pc := WaitTest)];
    } else {
      assert s' == Put(s, s.root, me.(pid := -1, pc := WaitTest)).(waits := s.waits + 1);
      NoneLeft(s);
    }
  }

  lemma {:induction false} NoneLeft(s: State)
    requires Winding(s) && forall c :: c in s.procs ==> !IsChild(s, c, s.root)
    ensures |s.reaped| == s.num
  {
    ReapedFew(s);
  }

  lemma {:induction false} OthersWind(s: State, act: Action)
    requires Winding(s) && (act.Run? ==> act.p != s.root)
    ensures Step(s, act) == s
  {
    if act.p in s.procs {
      assert s.procs[act.p := s.procs[act.p]] == s.procs;
    }
  }

  lemma {:induction false} Unended(s: State)
    requires Winding(s)
    ensures s.root in s.procs
    ensures WaitMeasure(s) >= 0 && (WaitMeasure(s) == 0 <==> s.procs[s.root].pc == Zombie)
  {
    ReapedFew(s);
    if s.procs[s.root].pid < 0 {
      assert |s.reaped| == s.num;
    }
  }

  lemma {:induction false} WindingStep(s: State, act: Action)
    requires Winding(s) && (IsTurn(act, s.root) ==> Answer(s, act.z))
    ensures var s' := Step(s, act);
            && Winding(s') && s'.root == s.root && s'.num == s.num && s'.procs.Keys == s.procs.Keys
            && WaitMeasure(s') == WaitMeasure(s) - if IsTurn(act, s.root) && s.procs[s.root].pc != Zombie then 1 else 0
  {
    TreeStep(s, act);
    WaitsStep(s, act);
    if IsTurn(act, s.root) {
      RootWinds(s, act.newPid, act.execs, act.z);
    } else {
      OthersWind(s, act);
    }
  }

  lemma {:induction false} WindingAfter(s: State, schedule: seq<Action>)
    requires Winding(s) && Answered(s, schedule)
    ensures var t := After(s, schedule);
            && Winding(t) && t.root == s.root && t.num == s.num && t.procs.Keys == s.procs.Keys
            && WaitMeasure(t) == Max(WaitMeasure(s) - TurnsOf(s.root, schedule), 0)
  {
    hide Step, Winding, WaitMeasure;
    Unended(s);
    if schedule != [] {
      var front, act := schedule[..|schedule| - 1], schedule[|schedule| - 1];
      WindingAfter(s, front);
      Unended(After(s, front));
      WindingStep(After(s, front), act);
    }
  }

  function Max(a: int, b: int): int {
    if a < b then b else a
  }

  /** The monitor ends: once all children have terminated, in every interleaving its wait loop and the root are
      over exactly from the turn of the root that WaitMeasure says, after NUM + 1 waits. */
  lemma {:induction false} WaitLoopEnds(s0: State, schedule: seq<Action>, rest: seq<Action>)
    requires Initial(s0)
    requires var s := After(s0, schedule);
             s.root in s.procs && Waiting(s.procs[s.root].pc) && AllEnded(s) && Answered(s, rest)
    ensures var s, t := After(s0, schedule), After(After(s0, schedule), rest);
            && t.root == s0.root && t.root in t.procs
            && (t.procs[t.root].pc == Zombie <==> TurnsOf(s.root, rest) >= WaitMeasure(s))
            && (t.procs[t.root].pc == Zombie ==> t.waits == s0.num + 1)
  {
    hide After, Step, Tree, Waits, AllEnded, WaitMeasure, Answered;
    AlwaysTree(s0, schedule);
    AlwaysWaits(s0, schedule);
    WindsUp(After(s0, schedule), rest);
  }

  lemma {:induction false} WindsUp(s: State, rest: seq<Action>)
    requires Winding(s) && Answered(s, rest)
    ensures var t := After(s, rest);
            && t.root == s.root && t.root in t.procs
            && (t.procs[t.root].pc == Zombie <==> TurnsOf(s.root, rest) >= WaitMeasure(s))
            && (t.procs[t.root].pc == Zombie ==> t.waits == s.num + 1)
  {
    hide After, Winding, WaitMeasure, Answered, Tree, Waits;
    WindingAfter(s, rest);
    Unended(After(s, rest));
    if After(s, rest).procs[s.root].pc == Zombie {
      WoundUp(After(s, rest));
    }
  }

  lemma {:induction false} WoundUp(s: State)
    requires Winding(s) && s.procs[s.root].pc == Zombie
    ensures s.waits == s.num + 1
  {
    AllReaped(s);
  }

  // ---------- The signals ----------

  /** The root has signalled a prefix of its children twice over: SIGUSR1 to each, then SIGUSR2 to each. */
  ghost predicate Signals(s: State)
    requires s.root in s.procs
  {
    var r := s.procs[s.root];
    if r.pc.Signal? then
      r.pc.k <= 2 * s.num <= |r.childPid + r.childPid| && s.signalled == (r.childPid + r.childPid)[..r.pc.k]
    else if Waiting(r.pc) then s.signalled == r.childPid + r.childPid
    else s.signalled == []
  }

  /** What another process does leaves the root and its history as they are. */
  lemma {:induction false} OthersSignalNothing(s: State, act: Action)
    requires Tree(s) && act.p != s.root
    ensures var s' := Step(s, act);
            s'.root == s.root && s'.num == s.num && s.root in s'.procs
            && s'.procs[s.root] == s.procs[s.root] && s'.signalled == s.signalled
  {
    if act.Run? && act.p in s.procs {
      ChildRun(s, act.p, act.newPid, act.execs, act.z);
      assert ChildOk(s.root, s.procs[act.p]);
    }
  }

  lemma {:induction false} RootSignals(s: State, newPid: int, execs: bool, z: int)
    requires s.root in s.procs && RootOk(s.num, s.procs[s.root]) && Signals(s)
    ensures var s' := RunStep(s, s.root, newPid, execs, z);
            s.root in s'.procs && Signals(s')
  {
    var r := s.procs[s.root];
    if r.pc.Signal? {
      SignalOne(r.childPid, s.num, r.pc.k);
    }
  }

  lemma {:induction false} SignalsStep(s: State, act: Action)
    requires Tree(s) && Signals(s)
    ensures s.root in Step(s, act).procs && Signals(Step(s, act))
  {
    if act.p != s.root {
      OthersSignalNothing(s, act);
    } else if act.Run? {
      RootSignals(s, act.newPid, act.execs, act.z);
    }
  }

  lemma {:induction false} SignalOne(kids: seq<int>, num: nat, k: nat)
    requires |kids| == num
    ensures k < 2 * num ==> (kids + kids)[..k + 1] == (kids + kids)[..k] + [kids[k % num]]
    ensures k == 2 * num ==> (kids + kids)[..k] == kids + kids
  {
    if k < 2 * num {
      ModOnce(k, num);
      assert (kids + kids)[k] == kids[k % num];
    }
  }

  lemma {:induction false} ModOnce(k: nat, num: nat)
    requires k < 2 * num
    ensures k % num == if k < num then k else k - num
  {
  }

  lemma {:induction false} AlwaysSignals(s0: State, schedule: seq<Action>)
    requires Initial(s0)
    ensures Tree(After(s0, schedule)) && Signals(After(s0, schedule))
  {
    AlwaysTree(s0, schedule);
    if schedule != [] {
      var front := schedule[..|schedule| - 1];
      AlwaysSignals(s0, front);
      SignalsStep(After(s0, front), schedule[|schedule| - 1]);
    }
  }

  /** Before it waits the root has sent the start signal to each of its children, in the order it forked
      them, and then the stop signal to each in the same order; to no other process and no child twice. */
  lemma {:induction false} EachSignalledTwice(s0: State, schedule: seq<Action>)
    requires Initial(s0)
    requires var procs := After(s0, schedule).procs; s0.root in procs && Waiting(procs[s0.root].pc)
    ensures var s := After(s0, schedule);
            var kids := Kids(s.procs[s0.root]);
            s.signalled == kids + kids && |kids| == s0.num && Distinct(kids)
  {
    AlwaysTree(s0, schedule);
    AlwaysSignals(s0, schedule);
    var r := After(s0, schedule).procs[s0.root];
    assert r.childPid[..|r.childPid|] == r.childPid;
  }

  // ---------- The processes as they are updated in place ----------

  class System {
    const num: nat
    const root: int
    var procs: map<int, Process>
    ghost var waits: nat
    ghost var reaped: seq<int>
    ghost var signalled: seq<int>

    ghost function View(): State
      reads this
    {
      State(num, root, procs, waits, reaped, signalled)
    }

    constructor (num: nat, root: int)
      requires root > 0
      ensures Initial(View()) && this.num == num && this.root == root
    {
      this.num, this.root := num, root;
      procs := map[root := Process(0, LoopTest, 0, true, seq(num, _ => 0), 0)];
      waits, reaped, signalled := 0, [], [];
    }

    /** Lines 31-40: one step of the loop, in whichever process. */
    method LoopTurn(p: int, newPid: int, execs: bool)
      requires p in procs && (Looping(procs[p].pc) || procs[p].pc == Mark || procs[p].pc == Exec)
      modifies this`procs
      ensures View() == RunStep(old(View()), p, newPid, execs, 0)
    {
      var me := procs[p];
      match me.pc
      case LoopTest =>
        me := me.(pc := if me.i < num && me.isParent then Fork else Rest);
        procs := procs[p := me];
      case Fork =>
        if newPid > 0 && newPid !in procs && me.i < |me.childPid| {
          procs := procs[newPid := me.(parent := p, pc := Branch, childPid := me.childPid[me.i := 0])];
          me := me.(pc := Branch, childPid := me.childPid[me.i := newPid]);
          procs := procs[p := me];
        }
      case Branch =>
        if me.i < |me.childPid| && me.childPid[me.i] == 0 {
          me := me.(pc := Mark);
        } else {
          me := me.(pc := LoopTest, i := me.i + 1);
        }
        procs := procs[p := me];
      case Mark =>
        procs := procs[p := me.(isParent := false, pc := Exec)];
      case Exec =>
        if execs {
          me := me.(pc := Program);
        } else {
          me := me.(pc := LoopTest, i := me.i + 1);
        }
        procs := procs[p := me];
    }

    /** Line 100. */
    method WaitTurn(p: int, z: int)
      requires p in procs && procs[p].pc == Wait
      modifies this
      ensures View() == WaitStep(old(View()), p, old(procs[p]), z)
    {
      var me := procs[p];
      if z in procs && z != p && procs[z].parent == p && procs[z].pc == Zombie {
        procs := procs[z := procs[z].(pc := Reaped)];
        procs := procs[p := me.(pid := z, pc := WaitTest)];
        waits, reaped := waits + 1, reaped + [z];
      } else if forall c :: c in procs ==> c == p || procs[c].parent != p || procs[c].pc == Reaped {
        procs := procs[p := me.(pid := -1, pc := WaitTest)];
        waits := waits + 1;
        assert forall c :: c in old(procs) ==> !IsChild(old(View()), c, p);
      } else {
        assert exists c :: c in procs && IsChild(old(View()), c, p);
      }
    }

    /** Lines 41-48 and 58-105, in whichever process. */
    method RestTurn(p: int, z: int)
      requires p in procs && !(Looping(procs[p].pc) || procs[p].pc == Mark || procs[p].pc == Exec)
      modifies this
      ensures View() == RunStep(old(View()), p, 0, false, z)
    {
      var me := procs[p];
      match me.pc
      case Rest => procs := procs[p := me.(pc := if me.isParent then Signal(0) else Finish)];
      case Signal(k) =>
        if k < 2 * num && num <= |me.childPid| {
          signalled := signalled + [me.childPid[k % num]];
          procs := procs[p := me.(pc := Signal(k + 1))];
        } else {
          procs := procs[p := me.(pc := WaitTest, pid := 0)];
        }
      case WaitTest => procs := procs[p := me.(pc := if me.pid >= 0 then Wait else Finish)];
      case Wait => WaitTurn(p, z);
      case Finish => procs := procs[p := me.(pc := Zombie)];
      case _ =>
    }

    method Turn(act: Action)
      modifies this
      ensures View() == Step(old(View()), act)
    {
      if act.p in procs {
        if act.Die? {
          if act.p != root && procs[act.p].pc != Reaped {
            procs := procs[act.p := procs[act.p].(pc := Zombie)];
          }
        } else if Looping(procs[act.p].pc) || procs[act.p].pc == Mark || procs[act.p].pc == Exec {
          LoopTurn(act.p, act.newPid, act.execs);
        } else {
          RestTurn(act.p, act.z);
        }
      }
    }

    /** Any interleaving of all processes. */
    method Run(schedule: seq<Action>)
      modifies this
      ensures View() == After(old(View()), schedule)
      ensures Initial(old(View())) ==> Tree(View()) && Waits(View())
    {
      ghost var before := View();
      var n := 0;
      while n < |schedule|
        invariant n <= |schedule|
        invariant View() == After(before, schedule[..n])
      {
        assert schedule[..n + 1][..n] == schedule[..n];
        Turn(schedule[n]);
        n := n + 1;
      }
      assert schedule[..n] == schedule;
      if Initial(before) {
        AlwaysWaits(before, schedule);
      }
    }
  }
}
