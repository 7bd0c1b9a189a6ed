/** What becomes of every process of the fork loop, in closed form: its control point after any number of its
    own turns, whatever the others do in between. */
module ForkLives {
  import opened ForkLoop

  // ---------- What a schedule holds for one process ----------

  /** The turns child c has had since it was forked. */
  function OwnTurns(s0: State, schedule: seq<Action>, c: int): nat {
    if schedule == [] then 0
    else
      var front, act := schedule[..|schedule| - 1], schedule[|schedule| - 1];
      OwnTurns(s0, front, c) + if IsTurn(act, c) && c in After(s0, front).procs then 1 else 0
  }

  /** Its exec, which is its third turn, has succeeded. */
  ghost predicate Succeeds(s0: State, schedule: seq<Action>, c: int) {
    exists k :: 0 <= k < |schedule| && IsTurn(schedule[k], c) && schedule[k].execs
                && c in After(s0, schedule[..k]).procs && OwnTurns(s0, schedule[..k], c) == 2
  }

  /** Something other than its own code has ended it. */
  ghost predicate Dies(s0: State, schedule: seq<Action>, c: int) {
    exists k :: 0 <= k < |schedule| && schedule[k] == Die(c) && c in After(s0, schedule[..k]).procs
  }

  lemma {:induction false} SucceedsStep(s0: State, front: seq<Action>, act: Action, c: int)
    ensures Succeeds(s0, front + [act], c) <==>
            || Succeeds(s0, front, c)
            || (IsTurn(act, c) && act.execs && c in After(s0, front).procs && OwnTurns(s0, front, c) == 2)
  {
    var all, n := front + [act], |front|;
    assert all[..n] == front && all[n] == act;
    assert forall k :: 0 <= k < n ==> all[k] == front[k] && all[..k] == front[..k];
  }

  lemma {:induction false} DiesStep(s0: State, front: seq<Action>, act: Action, c: int)
    ensures Dies(s0, front + [act], c) <==> Dies(s0, front, c) || (act == Die(c) && c in After(s0, front).procs)
  {
    var all, n := front + [act], |front|;
    assert all[..n] == front && all[n] == act;
    assert forall k :: 0 <= k < n ==> all[k] == front[k] && all[..k] == front[..k];
  }

  lemma {:induction false} StepGrows(s: State, act: Action, c: int)
    requires c in s.procs
    ensures c in Step(s, act).procs
  {
  }

  lemma {:induction false} AfterGrows(s0: State, schedule: seq<Action>, k: nat, c: int)
    requires k <= |schedule| && c in After(s0, schedule[..k]).procs
    ensures c in After(s0, schedule).procs
  {
    if k < |schedule| {
      var front := schedule[..|schedule| - 1];
      assert front[..k] == schedule[..k];
      AfterGrows(s0, front, k, c);
      StepGrows(After(s0, front), schedule[|schedule| - 1], c);
    } else {
      assert schedule[..k] == schedule;
    }
  }

  /** Before its fork nothing has happened to a process. */
  lemma {:induction false} Unborn(s0: State, schedule: seq<Action>, c: int)
    requires c !in After(s0, schedule).procs
    ensures OwnTurns(s0, schedule, c) == 0 && !Succeeds(s0, schedule, c) && !Dies(s0, schedule, c)
  {
    forall k | 0 <= k <= |schedule| ensures c !in After(s0, schedule[..k]).procs {
      if c in After(s0, schedule[..k]).procs {
        AfterGrows(s0, schedule, k, c);
      }
    }
    if schedule != [] {
      Unborn(s0, schedule[..|schedule| - 1], c);
    }
  }

  // ---------- The life of a child ----------

  /** The control point of a child after n turns of its own. */
  function Life(n: nat, succeeds: bool): Pc {
    if n == 0 then Branch else if n == 1 then Mark else if n == 2 then Exec
    else if succeeds then Program
    else if n == 3 then LoopTest else if n == 4 then Rest else if n == 5 then Finish else Zombie
  }

  /** q lives as child number k of the root: on its copy of i it is at its own entry, past it once exec failed. */
  predicate LivesAs(q: Process, k: int, n: nat, succeeds: bool) {
    && q.i == k + (if n >= 3 && !succeeds then 1 else 0)
    && (n < 2 ==> k < |q.childPid| && q.childPid[k] == 0)
    && (n >= 2 ==> !q.isParent)
    && (q.pc == Life(n, succeeds) || (q.pc == Reaped && Life(n, succeeds) == Zombie))
  }

  ghost predicate ChildLives(s: State, c: int, n: nat, succeeds: bool, dies: bool)
    requires s.root in s.procs && c in s.procs
  {
    var q, kids := s.procs[c], Kids(s.procs[s.root]);
    if dies then q.pc == Zombie || q.pc == Reaped
    else exists k :: 0 <= k < |kids| && kids[k] == c && LivesAs(q, k, n, succeeds)
  }

  lemma {:induction false} LifeTurn(q: Process, s: State, c: int, k: nat, n: nat, succeeds: bool, act: Action)
    requires c in s.procs && s.procs[c] == q && LivesAs(q, k, n, succeeds) && IsTurn(act, c)
    requires n <= 2 ==> !succeeds
    ensures var s' := Step(s, act);
            && s' == Put(s, c, s'.procs[c])
            && LivesAs(s'.procs[c], k, n + 1, succeeds || (n == 2 && act.execs))
  {
    assert s.procs[c := q] == s.procs;
  }

  /** What another process does to a child: it reaps it, if it has ended. */
  lemma {:induction false} OthersReap(s: State, act: Action, c: int)
    requires Tree(s) && c in s.procs && c != s.root && act.p != c
    ensures var s' := Step(s, act);
            && c in s'.procs
            && (s'.procs[c] == s.procs[c] || (s.procs[c].pc == Zombie && s'.procs[c] == s.procs[c].(pc := Reaped)))
  {
    if act.Run? && act.p in s.procs && act.p != s.root {
      ChildRun(s, act.p, act.newPid, act.execs, act.z);
    }
  }

  lemma {:induction false} QuietKids(s: State, act: Action)
    requires Tree(s) && act.p in s.procs
    requires IsTurn(act, s.root) ==> s.procs[s.root].pc != Fork
    ensures var s' := Step(s, act);
            && s'.root == s.root && s.root in s'.procs && s'.procs.Keys == s.procs.Keys
            && Kids(s'.procs[s.root]) == Kids(s.procs[s.root])
  {
    if act.p != s.root {
      OthersSignalNothing(s, act);
      if act.Run? {
        ChildRun(s, act.p, act.newPid, act.execs, act.z);
      }
    } else if act.Run? && s.procs[s.root].pc != Wait {
      RootKeeps(s, act.newPid, act.execs, act.z);
      RootAlone(s, act.newPid, act.execs, act.z);
    }
  }

  /** A process number comes to exist only by the root's fork, which also appends it to childPid; it is then a
      copy of the root with a 0 where the root has its number. */
  lemma {:induction false} Birth(s: State, act: Action)
    requires Tree(s)
    ensures var s' := Step(s, act);
            && s'.root == s.root && s.root in s'.procs
            && if IsTurn(act, s.root) && s.procs[s.root].pc == Fork && act.newPid > 0 && act.newPid !in s.procs
               then var r := s.procs[s.root];
                    && s'.procs.Keys == s.procs.Keys + {act.newPid}
                    && Kids(s'.procs[s.root]) == Kids(r) + [act.newPid] && |Kids(r)| == r.i
                    && s'.procs[act.newPid] == r.(parent := s.root, pc := Branch, childPid := r.childPid[r.i := 0])
               else s'.procs.Keys == s.procs.Keys && Kids(s'.procs[s.root]) == Kids(s.procs[s.root])
  {
    if IsTurn(act, s.root) && s.procs[s.root].pc == Fork {
      if act.newPid > 0 && act.newPid !in s.procs {
        ForkKids(s, act.newPid);
      }
    } else if act.p in s.procs {
      QuietKids(s, act);
    }
  }

  lemma {:induction false} LivesStep(s: State, act: Action, c: int, n: nat, succeeds: bool, dies: bool)
    requires Tree(s) && c in s.procs && c != s.root && ChildLives(s, c, n, succeeds, dies)
    requires n <= 2 ==> !succeeds
    ensures var s' := Step(s, act);
            && s'.root in s'.procs && c in s'.procs
            && ChildLives(s', c, n + if IsTurn(act, c) then 1 else 0,
                          succeeds || (IsTurn(act, c) && act.execs && n == 2), dies || act == Die(c))
  {
    Birth(s, act);
    if dies || act == Die(c) {
      DeadStep(s, act, c);
    } else {
      var kids := Kids(s.procs[s.root]);
      var k :| 0 <= k < |kids| && kids[k] == c && LivesAs(s.procs[c], k, n, succeeds);
      PlaceStep(s, act, k);
      AliveStep(s, act, c, k, n, succeeds);
    }
  }

  lemma {:induction false} DeadStep(s: State, act: Action, c: int)
    requires Tree(s) && c in s.procs && c != s.root
    requires s.procs[c].pc == Zombie || s.procs[c].pc == Reaped || act == Die(c)
    ensures var s' := Step(s, act);
            c in s'.procs && (s'.procs[c].pc == Zombie || s'.procs[c].pc == Reaped)
  {
    if act.p != c {
      OthersReap(s, act, c);
    }
  }

  lemma {:induction false} PlaceStep(s: State, act: Action, k: nat)
    requires Tree(s) && k < |Kids(s.procs[s.root])|
    ensures var s' := Step(s, act);
            && s'.root in s'.procs && k < |Kids(s'.procs[s'.root])|
            && Kids(s'.procs[s'.root])[k] == Kids(s.procs[s.root])[k]
  {
    Birth(s, act);
  }

  lemma {:induction false} AliveStep(s: State, act: Action, c: int, k: nat, n: nat, succeeds: bool)
    requires Tree(s) && c in s.procs && c != s.root && act != Die(c) && LivesAs(s.procs[c], k, n, succeeds)
    requires n <= 2 ==> !succeeds
    ensures var s' := Step(s, act);
            && c in s'.procs
            && LivesAs(s'.procs[c], k, n + if IsTurn(act, c) then 1 else 0,
                       succeeds || (IsTurn(act, c) && act.execs && n == 2))
  {
    if IsTurn(act, c) {
      LifeTurn(s.procs[c], s, c, k, n, succeeds, act);
    } else {
      OthersReap(s, act, c);
    }
  }

  lemma {:induction false} SucceedsLate(s0: State, schedule: seq<Action>, c: int)
    requires Succeeds(s0, schedule, c)
    ensures OwnTurns(s0, schedule, c) >= 3
  {
    var front, act := schedule[..|schedule| - 1], schedule[|schedule| - 1];
    assert schedule == front + [act];
    SucceedsStep(s0, front, act, c);
    if Succeeds(s0, front, c) {
      SucceedsLate(s0, front, c);
    }
  }

  lemma {:induction false} Newborn(s: State, act: Action, c: int)
    requires Tree(s) && c !in s.procs && c in Step(s, act).procs
    ensures var s' := Step(s, act);
            && s'.root in s'.procs && ChildLives(s', c, 0, false, false)
  {
    Birth(s, act);
    var s' := Step(s, act);
    var i := s.procs[s.root].i;
    assert Kids(s'.procs[s.root])[i] == c && LivesAs(s'.procs[c], i, 0, false);
  }

  /** In every interleaving every child is, after n turns of its own, where the n-th turn and the answer of its
      exec put it: at the other program from its third turn on if exec succeeded, and otherwise through the loop
      test, which its cleared isParent fails, to its end with the sixth turn. Only Die ends it elsewhere. Its
      copy of i is its place in the root's list, so that it is started for the interface of its own number. */
  lemma {:induction false} EveryChildLives(s0: State, schedule: seq<Action>, c: int)
    requires Initial(s0) && c in After(s0, schedule).procs && c != s0.root
    ensures var s := After(s0, schedule);
            && Tree(s) && s.root == s0.root
            && ChildLives(s, c, OwnTurns(s0, schedule, c), Succeeds(s0, schedule, c), Dies(s0, schedule, c))
  {
    hide Step, Tree, ChildLives, Succeeds, Dies, Initial;
    AlwaysTree(s0, schedule);
    if schedule == [] {
      RootStarts(s0);
    } else {
      var front, act := schedule[..|schedule| - 1], schedule[|schedule| - 1];
      assert schedule == front + [act];
      var t := After(s0, front);
      AlwaysTree(s0, front);
      SucceedsStep(s0, front, act, c);
      DiesStep(s0, front, act, c);
      if c in t.procs {
        EveryChildLives(s0, front, c);
        if Succeeds(s0, front, c) {
          SucceedsLate(s0, front, c);
        }
        LivesStep(t, act, c, OwnTurns(s0, front, c), Succeeds(s0, front, c), Dies(s0, front, c));
      } else {
        Unborn(s0, front, c);
        Newborn(t, act, c);
      }
    }
  }

  /** What the answer of exec decides: a child is at the other program only if its exec succeeded; one whose exec
      succeeded never comes back to the loop or to the end of main; and one whose exec failed ends by itself with
      its sixth turn. */
  lemma {:induction false} ExecDecides(s0: State, schedule: seq<Action>, c: int)
    requires Initial(s0) && c in After(s0, schedule).procs && c != s0.root
    ensures var pc, n := After(s0, schedule).procs[c].pc, OwnTurns(s0, schedule, c);
            && (pc == Program <==> Succeeds(s0, schedule, c) && !Dies(s0, schedule, c))
            && (pc == LoopTest || pc == Rest || pc == Finish ==> !Succeeds(s0, schedule, c) && 3 <= n <= 5)
            && (pc == Zombie || pc == Reaped <==> Dies(s0, schedule, c) || (n >= 6 && !Succeeds(s0, schedule, c)))
  {
    EveryChildLives(s0, schedule, c);
    if Succeeds(s0, schedule, c) {
      SucceedsLate(s0, schedule, c);
    }
  }

  lemma {:induction false} AtItsPlace(s0: State, schedule: seq<Action>, c: int)
    requires Initial(s0) && c in After(s0, schedule).procs && c != s0.root
    requires var pc := After(s0, schedule).procs[c].pc; pc == Exec || pc == Program
    ensures var s := After(s0, schedule);
            && s.root == s0.root && s.root in s.procs
            && s.procs[c].i < |Kids(s.procs[s.root])| && Kids(s.procs[s.root])[s.procs[c].i] == c
  {
    EveryChildLives(s0, schedule, c);
    ExecDecides(s0, schedule, c);
  }

  /** No two children exec for the same interface, and none for one that does not exist. */
  lemma {:induction false} InterfaceEach(s0: State, schedule: seq<Action>, c: int, d: int)
    requires Initial(s0) && c != s0.root && d != s0.root && c != d
    requires var procs := After(s0, schedule).procs;
             c in procs && d in procs && (procs[c].pc == Exec || procs[c].pc == Program)
             && (procs[d].pc == Exec || procs[d].pc == Program)
    ensures var procs := After(s0, schedule).procs;
            procs[c].i != procs[d].i && procs[c].i < s0.num && procs[d].i < s0.num
  {
    AtItsPlace(s0, schedule, c);
    AtItsPlace(s0, schedule, d);
    FewKids(s0, schedule);
  }

  lemma {:induction false} FewKids(s0: State, schedule: seq<Action>)
    requires Initial(s0)
    ensures var s := After(s0, schedule);
            s.root in s.procs && |Kids(s.procs[s.root])| <= s0.num
  {
    AlwaysTree(s0, schedule);
  }

  // ---------- The life of the root ----------

  /** Each fork of the root that happens in the schedule is given a new process number. */
  ghost predicate ForksAnswered(s: State, schedule: seq<Action>) {
    schedule == [] ||
    var front, act := schedule[..|schedule| - 1], schedule[|schedule| - 1];
    var t := After(s, front);
    && ForksAnswered(s, front)
    && (IsTurn(act, s.root) && s.root in t.procs && t.procs[s.root].pc == Fork ==>
          act.newPid > 0 && act.newPid !in t.procs)
  }

  /** The process numbers of the forks: the root forks with every third turn, NUM times. */
  function Forks(root: int, num: nat, schedule: seq<Action>): seq<int> {
    if schedule == [] then []
    else
      var front, act := schedule[..|schedule| - 1], schedule[|schedule| - 1];
      var n := TurnsOf(root, front);
      Forks(root, num, front) + if IsTurn(act, root) && n % 3 == 1 && n < 3 * num then [act.newPid] else []
  }

  /** The control point of the root after n of its turns, up to the wait loop. */
  function RootLife(num: nat, n: nat): Pc {
    if n <= 3 * num then
      match n % 3
      case 0 => LoopTest
      case 1 => Fork
      case _ => Branch
    else if n == 3 * num + 1 then Rest
    else if n <= 5 * num + 2 then Signal(n - 3 * num - 2)
    else WaitTest
  }

  ghost predicate RootLives(s: State, n: nat)
    requires s.root in s.procs
  {
    var r := s.procs[s.root];
    if n <= 5 * s.num + 3
    then
      && r.pc == RootLife(s.num, n) && r.i == (if n < 3 * s.num then n / 3 else s.num)
      && (r.pc == WaitTest ==> r.pid == 0)
    else Waiting(r.pc)
  }

  lemma {:induction false} RootTurn(s: State, act: Action, n: nat)
    requires Tree(s) && RootLives(s, n) && IsTurn(act, s.root)
    requires s.procs[s.root].pc == Fork ==> act.newPid > 0 && act.newPid !in s.procs
    ensures var s' := Step(s, act);
            s'.root == s.root && s'.num == s.num && s.root in s'.procs && RootLives(s', n + 1)
  {
    var r := s.procs[s.root];
    assert RootOk(s.num, r);
    if n < 3 * s.num {
      LoopTurns(s, act, n);
    }
  }

  lemma {:induction false} LoopTurns(s: State, act: Action, n: nat)
    requires Tree(s) && RootLives(s, n) && IsTurn(act, s.root) && n < 3 * s.num
    requires s.procs[s.root].pc == Fork ==> act.newPid > 0 && act.newPid !in s.procs
    ensures var s' := Step(s, act);
            s'.root == s.root && s'.num == s.num && s.root in s'.procs && RootLives(s', n + 1)
  {
  }

  /** In every interleaving in which forks succeed, the root's own turns alone decide where it is: three for each
      child, then one for each signal, until with turn 5 * NUM + 3 it is at its wait loop; and its children are
      the process numbers its forks were given, in order. */
  lemma {:induction false} TheRootLives(s0: State, schedule: seq<Action>)
    requires Initial(s0) && ForksAnswered(s0, schedule)
    ensures var s := After(s0, schedule);
            && s.root == s0.root && s.num == s0.num && s.root in s.procs
            && RootLives(s, TurnsOf(s0.root, schedule))
            && Kids(s.procs[s.root]) == Forks(s0.root, s0.num, schedule)
  {
    hide Step, Tree, RootLives, Kids;
    AlwaysTree(s0, schedule);
    if schedule == [] {
      RootStarts(s0);
    } else {
      var front, act := schedule[..|schedule| - 1], schedule[|schedule| - 1];
      AlwaysTree(s0, front);
      TheRootLives(s0, front);
      AnyTurn(After(s0, front), act, TurnsOf(s0.root, front));
    }
  }

  lemma {:induction false} RootStarts(s0: State)
    requires Initial(s0)
    ensures s0.root in s0.procs && RootLives(s0, 0) && Kids(s0.procs[s0.root]) == []
    ensures forall c :: c in s0.procs ==> c == s0.root
  {
  }

  lemma {:induction false} AnyTurn(s: State, act: Action, n: nat)
    requires Tree(s) && RootLives(s, n)
    requires IsTurn(act, s.root) && s.procs[s.root].pc == Fork ==> act.newPid > 0 && act.newPid !in s.procs
    ensures var s' := Step(s, act);
            && s'.root == s.root && s'.num == s.num && s.root in s'.procs
            && RootLives(s', n + if IsTurn(act, s.root) then 1 else 0)
            && Kids(s'.procs[s.root]) ==
               Kids(s.procs[s.root]) + if IsTurn(act, s.root) && n % 3 == 1 && n < 3 * s.num then [act.newPid] else []
  {
    hide Step, Tree, RootLives;
    Birth(s, act);
    ForkTurn(s, n);
    if IsTurn(act, s.root) {
      RootTurn(s, act, n);
    } else {
      OthersTurn(s, act, n);
    }
  }

  lemma {:induction false} ForkTurn(s: State, n: nat)
    requires Tree(s) && RootLives(s, n)
    ensures s.procs[s.root].pc == Fork <==> n % 3 == 1 && n < 3 * s.num
  {
  }

  lemma {:induction false} OthersTurn(s: State, act: Action, n: nat)
    requires Tree(s) && !IsTurn(act, s.root) && RootLives(s, n)
    ensures var s' := Step(s, act);
            s'.root == s.root && s'.num == s.num && s.root in s'.procs && RootLives(s', n)
  {
    if act.p != s.root {
      OthersSignalNothing(s, act);
    }
  }

  // ---------- The whole program ----------

  /** The monitor ends: when forks succeed, the root has had the turns to come to its wait loop, every child has
      ended and wait is answered, 2 * NUM + 4 more turns of the root are enough, in every interleaving. */
  lemma {:induction false} ProgramEnds(s0: State, schedule: seq<Action>, rest: seq<Action>)
    requires Initial(s0) && ForksAnswered(s0, schedule) && TurnsOf(s0.root, schedule) >= 5 * s0.num + 3
    requires AllEnded(After(s0, schedule)) && Answered(After(s0, schedule), rest)
    requires TurnsOf(s0.root, rest) >= 2 * s0.num + 4
    ensures var t := After(After(s0, schedule), rest);
            && s0.root in t.procs && t.procs[s0.root].pc == Zombie && t.waits == s0.num + 1
            && Distinct(t.reaped) && (forall c :: c in t.reaped <==> c in Forks(s0.root, s0.num, schedule))
  {
    hide Step, Tree, Waits, AllEnded;
    var s := After(s0, schedule);
    AlwaysTree(s0, schedule);
    AlwaysWaits(s0, schedule);
    TheRootLives(s0, schedule);
    WaitLoopEnds(s0, schedule, rest);
    WindingAfter(s, rest);
    var t := After(s, rest);
    Unended(t);
    AllReaped(t);
    TreeKids(s);
  }

  lemma {:induction false} TreeKids(s: State)
    requires Tree(s)
    ensures forall c :: c in s.procs && c != s.root <==> c in Kids(s.procs[s.root])
  {
  }
}
