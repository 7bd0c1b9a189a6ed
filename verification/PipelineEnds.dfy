/** What becomes of every process of the pipeline launcher (Labs/Lab 7/Lab7.cpp:114-184), of a writer whose reader has
    ended, and of the wait loop if it were entered. */
module PipelineEnds {
  import opened Pipeline

  // ---------- The lives of the children ----------

  datatype Which = One | Two

  function Of(s: State, k: Which): Child {
    if k == One then s.first else s.second
  }

  function TurnOf(k: Which): Action {
    if k == One then First else Second
  }

  function EndOf(k: Which): Action {
    if k == One then FirstEnds else SecondEnds
  }

  /** The child's end of the pipe is already where its program expects it. */
  predicate InPlace(s: State, k: Which) {
    if k == One then s.w == STDOUT else s.r == STDIN
  }

  /** Where a child is after n turns of its own. */
  function Life(n: nat, inPlace: bool): ChildPc {
    if n == 0 then TestFd
    else if inPlace then (if n == 1 then Exec else Running)
    else match n
      case 1 => Dup
      case 2 => CloseR
      case 3 => CloseW
      case 4 => Exec
      case _ => Running
  }

  /** The turns a child has had since its fork. */
  function OwnTurns(s0: State, schedule: seq<Action>, k: Which): nat {
    if schedule == [] then 0
    else
      var front := schedule[..|schedule| - 1];
      OwnTurns(s0, front, k) +
      if schedule[|schedule| - 1] == TurnOf(k) && Of(After(s0, front), k).pc != Unborn then 1 else 0
  }

  /** Its program was told to end when it ran. */
  ghost predicate ToldToEnd(s0: State, schedule: seq<Action>, k: Which) {
    exists i :: 0 <= i < |schedule| && schedule[i] == EndOf(k) && Of(After(s0, schedule[..i]), k).pc == Running
  }

  lemma {:induction false} ToldStep(s0: State, front: seq<Action>, act: Action, k: Which)
    ensures ToldToEnd(s0, front + [act], k) <==>
            ToldToEnd(s0, front, k) || (act == EndOf(k) && Of(After(s0, front), k).pc == Running)
  {
    var all, n := front + [act], |front|;
    assert all[..n] == front && all[n] == act;
    assert forall i :: 0 <= i < n ==> all[i] == front[i] && all[..i] == front[..i];
  }

  ghost predicate Lives(s: State, k: Which, n: nat, ended: bool) {
    var pc := Of(s, k).pc;
    if !Forked(s.parentPc, k == Two) then pc == Unborn && n == 0 && !ended
    else if ended then pc == Ended
    else pc == Life(n, InPlace(s, k))
  }

  lemma {:induction false} ChildTurn(c: Child, t: Table, r: int, w: int, end: int, std: int, n: nat)
    requires r != w && (end == r || end == w) && r !in t && w !in t
    requires c.fds == ChildTable(c.pc, t, r, w, end, std) && Moving(c.pc, end, std)
    requires c.pc == Life(n, end == std)
    ensures ChildStep(c, r, w, end, std).pc == Life(n + 1, end == std)
  {
  }

  lemma {:induction false} LivesStep(s: State, t: Table, act: Action, k: Which, n: nat, ended: bool)
    requires s.r != s.w && s.r !in t && s.w !in t && Tables(s, t) && Lives(s, k, n, ended)
    ensures var pc := Of(s, k).pc;
            Lives(Step(s, act), k, n + (if act == TurnOf(k) && pc != Unborn then 1 else 0),
                  ended || (act == EndOf(k) && pc == Running))
  {
    if act == TurnOf(k) && Of(s, k).pc != Unborn && Of(s, k).pc != Ended {
      ChildTurn(Of(s, k), t, s.r, s.w, if k == One then s.w else s.r, if k == One then STDOUT else STDIN, n);
    }
  }

  /** In every interleaving each child is where its own number of turns since its fork puts it: at its program from
      the fifth turn on, or from the second if its end of the pipe is in place already, until it ends. */
  lemma {:induction false} EveryChildLives(s0: State, schedule: seq<Action>, k: Which)
    requires Initial(s0)
    ensures var s := After(s0, schedule);
            s.r == s0.r && s.w == s0.w && Lives(s, k, OwnTurns(s0, schedule, k), ToldToEnd(s0, schedule, k))
  {
    if schedule != [] {
      hide Step, Tables, Lives, ToldToEnd;
      var front, act := schedule[..|schedule| - 1], schedule[|schedule| - 1];
      assert schedule == front + [act];
      EveryChildLives(s0, front, k);
      AlwaysTables(s0, front);
      AlwaysTables(s0, schedule);
      ToldStep(s0, front, act, k);
      LivesStep(After(s0, front), s0.parent, act, k, OwnTurns(s0, front, k), ToldToEnd(s0, front, k));
    }
  }

  // ---------- A writer without a reader ----------

  /** Writing the pipe fails once no process holds a read end. */
  ghost predicate Broken(s: State) {
    forall p, fd :: !Holds(s, p, fd, ReadEnd)
  }

  ghost predicate WriterThere(s: State, t: Table) {
    && s.r != s.w && Tables(s, t) && (forall fd :: fd in t ==> t[fd].Other?) && s.r !in t && s.w !in t
    && PastCloses(s.parentPc) && AtProgram(s.first)
  }

  lemma {:induction false} ReaderKeeps(s: State, t: Table)
    requires WriterThere(s, t) && AtProgram(s.second) && s.w != STDIN
    ensures Holds(s, TheSecond, STDIN, ReadEnd)
  {
  }

  lemma {:induction false} ReaderCutOff(s: State, t: Table)
    requires WriterThere(s, t) && AtProgram(s.second) && s.w == STDIN
    ensures Broken(s)
  {
  }

  lemma {:induction false} WriterAlone(s: State, t: Table)
    requires WriterThere(s, t) && s.second.pc == Ended
    ensures Broken(s) <==> s.w != STDOUT
  {
    if s.w == STDOUT {
      assert Holds(s, TheFirst, s.r, ReadEnd);
    }
  }

  /** The writer is cut off exactly when the reader ends, not before and then at once, if and only if the write end of
      the pipe was neither descriptor 0 nor descriptor 1. */
  lemma {:induction false} BrokenPipeExactly(s0: State, schedule: seq<Action>)
    requires Initial(s0)
    requires var s := After(s0, schedule);
             PastCloses(s.parentPc) && AtProgram(s.first) && s.second.pc == Running
    ensures !Broken(After(s0, schedule)) && Broken(After(s0, schedule + [SecondEnds]))
            <==> s0.w != STDIN && s0.w != STDOUT
  {
    var ended := schedule + [SecondEnds];
    assert ended[..|schedule|] == schedule;
    AlwaysTables(s0, schedule);
    AlwaysTables(s0, ended);
    WriterAlone(After(s0, ended), s0.parent);
    if s0.w == STDIN {
      ReaderCutOff(After(s0, schedule), s0.parent);
    } else {
      ReaderKeeps(After(s0, schedule), s0.parent);
    }
  }

  /** With the lowest free descriptors: if and only if the launcher is started with descriptor 0 or 1 open. */
  lemma {:induction false} BrokenPipeIfOpen(s0: State, schedule: seq<Action>)
    requires Initial(s0) && Lowest(s0)
    requires var s := After(s0, schedule);
             PastCloses(s.parentPc) && AtProgram(s.first) && s.second.pc == Running
    ensures !Broken(After(s0, schedule)) && Broken(After(s0, schedule + [SecondEnds]))
            <==> STDIN in s0.parent || STDOUT in s0.parent
  {
    BrokenPipeExactly(s0, schedule);
  }

  // ---------- The wait loop, if it were entered ----------

  /** The children the wait loop has not reaped. */
  function Unreaped(reaped: set<int>): nat {
    (if 1 in reaped then 0 else 1) + if 2 in reaped then 0 else 1
  }

  /** In the wait loop, or past it: what was reaped has ended, the last wait says what pid is, and the parent leaves
      only when wait has nobody left. */
  ghost predicate WaitLoop(s: State, pid: int) {
    && s.reaped <= {1, 2} && pid > 0
    && (1 in s.reaped ==> s.first.pc == Ended) && (2 in s.reaped ==> s.second.pc == Ended)
    && (s.pid == -1 || s.pid in s.reaped || (s.pid == pid && s.reaped == {}))
    && (s.pid == -1 ==> s.reaped == {1, 2})
    && match s.parentPc
       case WaitTest => true
       case Wait => s.pid > 0
       case Returned => s.pid == -1
       case _ => false
  }

  lemma {:induction false} WaitLoopStep(s: State, pid: int, act: Action)
    requires WaitLoop(s, pid)
    ensures WaitLoop(Step(s, act), pid)
  {
  }

  /** Turns of the parent until it returns, once both children have ended. */
  function ToReturn(s: State): nat {
    if s.parentPc == Returned then 0
    else 2 * Unreaped(s.reaped) + if s.parentPc == Wait then 2 else if s.pid == -1 then 1 else 3
  }

  predicate WaitBlocks(s: State) {
    && s.parentPc == Wait && s.reaped != {1, 2}
    && (1 in s.reaped || s.first.pc != Ended) && (2 in s.reaped || s.second.pc != Ended)
  }

  lemma {:induction false} WaitTurns(s: State, pid: int, act: Action)
    requires WaitLoop(s, pid)
    ensures ToReturn(Step(s, act)) ==
            if act == Parent && s.parentPc != Returned && !WaitBlocks(s) then ToReturn(s) - 1 else ToReturn(s)
  {
  }

  lemma {:induction false} Waiting(s: State, pid: int, schedule: seq<Action>)
    requires WaitLoop(s, pid)
    ensures var t := After(s, schedule);
            && WaitLoop(t, pid)
            && (t.parentPc == Returned ==> t.first.pc == Ended && t.second.pc == Ended && t.reaped == {1, 2})
            && (s.first.pc == Ended && s.second.pc == Ended ==>
                  && t.first.pc == Ended && t.second.pc == Ended
                  && ToReturn(t) == Minus(ToReturn(s), Turns(schedule, Parent)))
  {
    if schedule != [] {
      hide Step, WaitLoop;
      var front, act := schedule[..|schedule| - 1], schedule[|schedule| - 1];
      Waiting(s, pid, front);
      WaitLoopStep(After(s, front), pid, act);
      WaitTurns(After(s, front), pid, act);
      EndedStays(After(s, front), act);
      AfterAll(After(s, schedule), pid);
      if s.first.pc == Ended && s.second.pc == Ended {
        NeverBlocks(After(s, front));
      }
    } else {
      AfterAll(s, pid);
    }
  }

  lemma {:induction false} EndedStays(s: State, act: Action)
    ensures s.parentPc != ForkFirst && s.first.pc == Ended ==> Step(s, act).first.pc == Ended
    ensures s.parentPc != ForkSecond && s.second.pc == Ended ==> Step(s, act).second.pc == Ended
  {
  }

  lemma {:induction false} NeverBlocks(s: State)
    requires s.first.pc == Ended && s.second.pc == Ended
    ensures WaitBlocks(s) ==> 1 in s.reaped && 2 in s.reaped
  {
  }

  lemma {:induction false} AfterAll(s: State, pid: int)
    requires WaitLoop(s, pid)
    ensures s.parentPc != ForkFirst && s.parentPc != ForkSecond
    ensures s.parentPc == Returned <==> ToReturn(s) == 0
    ensures s.parentPc == Returned ==> s.first.pc == Ended && s.second.pc == Ended && s.reaped == {1, 2}
    ensures WaitBlocks(s) ==> !(1 in s.reaped && 2 in s.reaped)
  {
  }

  /** The guard alone is what is wrong with the wait loop: a parent that came to it with pid positive would not return
      before both children have ended and been reaped, in any interleaving; and once they have, it would return with
      exactly its seventh turn. With the pid it has it returns at once. */
  lemma {:induction false} WaitsIfPositive(s: State, schedule: seq<Action>)
    requires s.parentPc == WaitTest && s.reaped == {} && s.pid >= 0
    ensures s.pid > 0 && After(s, schedule).parentPc == Returned ==>
              var t := After(s, schedule);
              t.first.pc == Ended && t.second.pc == Ended && t.reaped == {1, 2} && t.pid == -1
    ensures s.pid > 0 && s.first.pc == Ended && s.second.pc == Ended ==>
              (After(s, schedule).parentPc == Returned <==> Turns(schedule, Parent) >= 7)
    ensures s.pid == 0 ==> Step(s, Parent).parentPc == Returned
  {
    if s.pid > 0 {
      Waiting(s, s.pid, schedule);
      AfterAll(After(s, schedule), s.pid);
    }
  }
}
