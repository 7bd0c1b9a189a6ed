/** The pipeline launcher (Labs/Lab 7/Lab7.cpp:114-184): a parent, two children and their descriptor
    tables, under every interleaving. System calls succeed as long as their descriptors are open. */
module Pipeline {
  /** What a descriptor refers to: an end of the launcher's pipe or anything else. */
  datatype File = ReadEnd | WriteEnd | Other(id: nat)

  type Table = map<int, File>

  const STDIN: int := 0
  const STDOUT: int := 1

  datatype ParentPc =
    | Piping       // 114
    | ForkFirst    // 119
    | ForkSecond   // 144
    | CloseRead    // 168
    | CloseWrite   // 173
    | WaitTest     // 178
    | Wait         // 180
    | Returned     // 183

  datatype ChildPc =
    | Unborn
    | TestFd       // 122, 147
    | Dup          // 124, 149
    | CloseR       // 128, 153
    | CloseW       // 132, 157
    | Exec         // 138, 163
    | Running      // the new program, with the same descriptors
    | Ended

  datatype Child = Child(pc: ChildPc, fds: Table)

  datatype State = State(
    r: int, w: int,          // pid_fd
    parentPc: ParentPc, parent: Table,
    pid: int,                // the parent's pid, which starts as 0
    reaped: set<int>,        // children waited for: 1, 2
    first: Child, second: Child)

  datatype Action = Parent | First | Second | FirstEnds | SecondEnds

  function Dup2(t: Table, from: int, to: int): Table
    requires from in t
  {
    t[to := t[from]]
  }

  /** A call on a closed descriptor fails, and errorDetection ends the process. */
  function Close(c: Child, fd: int, next: ChildPc): Child {
    if fd in c.fds then Child(next, c.fds - {fd}) else Child(Ended, map[])
  }

  /** A child that connects descriptor end to descriptor std, closes the pipe and runs its program. */
  function ChildStep(c: Child, r: int, w: int, end: int, std: int): Child {
    match c.pc
    case Unborn => c
    case TestFd => c.(pc := if end != std then Dup else Exec)
    case Dup => if end in c.fds then Child(CloseR, Dup2(c.fds, end, std)) else Child(Ended, map[])
    case CloseR => Close(c, r, CloseW)
    case CloseW => Close(c, w, Exec)
    case Exec => c.(pc := Running)
    case Running => c
    case Ended => c
  }

  /** wait gives the number of a child that has ended, -1 when none is left, and blocks otherwise. */
  function WaitStep(s: State): State {
    if s.first.pc == Ended && 1 !in s.reaped then s.(reaped := s.reaped + {1}, pid := 1, parentPc := WaitTest)
    else if s.second.pc == Ended && 2 !in s.reaped then s.(reaped := s.reaped + {2}, pid := 2, parentPc := WaitTest)
    else if 1 in s.reaped && 2 in s.reaped then s.(pid := -1, parentPc := WaitTest)
    else s
  }

  function ParentStep(s: State): State {
    match s.parentPc
    case Piping => s.(parent := s.parent[s.r := ReadEnd][s.w := WriteEnd], parentPc := ForkFirst)
    case ForkFirst => s.(first := Child(TestFd, s.parent), parentPc := ForkSecond)
    case ForkSecond => s.(second := Child(TestFd, s.parent), parentPc := CloseRead)
    case CloseRead => s.(parent := s.parent - {s.r}, parentPc := CloseWrite)
    case CloseWrite => s.(parent := s.parent - {s.w}, parentPc := WaitTest)
    case WaitTest => if s.pid > 0 then s.(parentPc := Wait) else s.(parent := map[], parentPc := Returned)
    case Wait => WaitStep(s)
    case Returned => s
  }

  function Step(s: State, act: Action): State {
    match act
    case Parent => ParentStep(s)
    case First => s.(first := ChildStep(s.first, s.r, s.w, s.w, STDOUT))
    case Second => s.(second := ChildStep(s.second, s.r, s.w, s.r, STDIN))
    case FirstEnds => if s.first.pc == Running then s.(first := Child(Ended, map[])) else s
    case SecondEnds => if s.second.pc == Running then s.(second := Child(Ended, map[])) else s
  }

  function After(s: State, schedule: seq<Action>): State {
    if schedule == [] then s
    else Step(After(s, schedule[..|schedule| - 1]), schedule[|schedule| - 1])
  }

  /** pipe will return two different descriptors that are not open. */
  ghost predicate Initial(s: State) {
    && s.r >= 0 && s.w >= 0 && s.r != s.w && s.r !in s.parent && s.w !in s.parent
    && (forall fd :: fd in s.parent ==> s.parent[fd].Other?)
    && s.parentPc == Piping && s.pid == 0 && s.reaped == {}
    && s.first == Child(Unborn, map[]) && s.second == Child(Unborn, map[])
  }

  // ---------- Who holds what ----------

  datatype Process = TheParent | TheFirst | TheSecond

  function Fds(s: State, p: Process): Table {
    match p
    case TheParent => s.parent
    case TheFirst => s.first.fds
    case TheSecond => s.second.fds
  }

  predicate Holds(s: State, p: Process, fd: int, file: File) {
    fd in Fds(s, p) && Fds(s, p)[fd] == file
  }

  /** Reading the pipe gives end of file once no process holds a write end. */
  ghost predicate EndOfFile(s: State) {
    forall p, fd :: !Holds(s, p, fd, WriteEnd)
  }

  /** The write end is held by the first child's standard output alone, the read end by the second's input. */
  ghost predicate WiredUp(s: State) {
    && (forall p, fd :: Holds(s, p, fd, WriteEnd) <==> p == TheFirst && fd == STDOUT)
    && (forall p, fd :: Holds(s, p, fd, ReadEnd) <==> p == TheSecond && fd == STDIN)
  }

  /** Standard input and output were open when the pipe was made, so that neither end is descriptor 0 or 1. */
  predicate Clear(s: State) {
    s.r != STDIN && s.r != STDOUT && s.w != STDIN && s.w != STDOUT
  }

  // ---------- The tables, in closed form ----------

  function Inherited(t: Table, r: int, w: int): Table {
    t[r := ReadEnd][w := WriteEnd]
  }

  function ParentTable(pc: ParentPc, t: Table, r: int, w: int): Table {
    match pc
    case Piping => t
    case ForkFirst => Inherited(t, r, w)
    case ForkSecond => Inherited(t, r, w)
    case CloseRead => Inherited(t, r, w)
    case CloseWrite => Inherited(t, r, w) - {r}
    case WaitTest => Inherited(t, r, w) - {r} - {w}
    case Wait => Inherited(t, r, w) - {r} - {w}
    case Returned => map[]
  }

  function ChildTable(pc: ChildPc, t: Table, r: int, w: int, end: int, std: int): Table {
    match pc
    case Unborn => map[]
    case TestFd => Inherited(t, r, w)
    case Dup => Inherited(t, r, w)
    case CloseR => Inherited(t, r, w)[std := if end == w then WriteEnd else ReadEnd]
    case CloseW => Inherited(t, r, w)[std := if end == w then WriteEnd else ReadEnd] - {r}
    case Exec => Wired(t, r, w, end, std)
    case Running => Wired(t, r, w, end, std)
    case Ended => map[]
  }

  function Wired(t: Table, r: int, w: int, end: int, std: int): Table {
    if end == std then Inherited(t, r, w)
    else Inherited(t, r, w)[std := if end == w then WriteEnd else ReadEnd] - {r} - {w}
  }

  predicate Forked(pc: ParentPc, second: bool) {
    pc != Piping && pc != ForkFirst && (second ==> pc != ForkSecond)
  }

  /** A child is past its test only if it has something to move. */
  predicate Moving(pc: ChildPc, end: int, std: int) {
    pc == Dup || pc == CloseR || pc == CloseW ==> end != std
  }

  ghost predicate Tables(s: State, t: Table) {
    && s.parent == ParentTable(s.parentPc, t, s.r, s.w)
    && s.first.fds == ChildTable(s.first.pc, t, s.r, s.w, s.w, STDOUT)
    && s.second.fds == ChildTable(s.second.pc, t, s.r, s.w, s.r, STDIN)
    && (s.first.pc != Unborn <==> Forked(s.parentPc, false))
    && (s.second.pc != Unborn <==> Forked(s.parentPc, true))
    && Moving(s.first.pc, s.w, STDOUT) && Moving(s.second.pc, s.r, STDIN)
  }

  lemma {:induction false} ChildKeeps(c: Child, t: Table, r: int, w: int, end: int, std: int)
    requires r != w && (end == r || end == w) && r !in t && w !in t
    requires c.fds == ChildTable(c.pc, t, r, w, end, std) && Moving(c.pc, end, std)
    ensures var c' := ChildStep(c, r, w, end, std);
            && c'.fds == ChildTable(c'.pc, t, r, w, end, std) && Moving(c'.pc, end, std)
            && (c'.pc == Unborn <==> c.pc == Unborn)
            && (c'.pc == Ended <==> c.pc == Ended)
  {
  }

  lemma {:induction false} TablesParent(s: State, t: Table)
    requires Tables(s, t)
    ensures Tables(ParentStep(s), t)
  {
    OwnTable(s, t);
  }

  lemma {:induction false} OwnTable(s: State, t: Table)
    requires s.parent == ParentTable(s.parentPc, t, s.r, s.w)
    ensures var s' := ParentStep(s);
            && s'.parent == ParentTable(s'.parentPc, t, s.r, s.w) && s'.r == s.r && s'.w == s.w
            && (Forked(s'.parentPc, false) <==> Forked(s.parentPc, false) || s.parentPc == ForkFirst)
            && (Forked(s'.parentPc, true) <==> Forked(s.parentPc, true) || s.parentPc == ForkSecond)
  {
  }

  lemma {:induction false} TablesStep(s: State, t: Table, act: Action)
    requires s.r != s.w && s.r !in t && s.w !in t && Tables(s, t)
    ensures Tables(Step(s, act), t) && Step(s, act).r == s.r && Step(s, act).w == s.w
  {
    match act
    case Parent => TablesParent(s, t);
    case First => ChildKeeps(s.first, t, s.r, s.w, s.w, STDOUT);
    case Second => ChildKeeps(s.second, t, s.r, s.w, s.r, STDIN);
    case _ =>
  }

  /** In every interleaving each table is the one its own process has made of the inherited table. */
  lemma {:induction false} AlwaysTables(s0: State, schedule: seq<Action>)
    requires Initial(s0)
    ensures var s := After(s0, schedule);
            s.r == s0.r && s.w == s0.w && Tables(s, s0.parent)
  {
    if schedule != [] {
      var front := schedule[..|schedule| - 1];
      AlwaysTables(s0, front);
      TablesStep(After(s0, front), s0.parent, schedule[|schedule| - 1]);
    }
  }

  /** Neither child ends but by its program's end. */
  lemma {:induction false} ChildrenLive(s: State, t: Table, act: Action)
    requires s.r != s.w && s.r !in t && s.w !in t && Tables(s, t)
    ensures s.first.pc != Ended && act != FirstEnds ==> Step(s, act).first.pc != Ended
    ensures s.second.pc != Ended && act != SecondEnds ==> Step(s, act).second.pc != Ended
  {
    match act
    case First => ChildKeeps(s.first, t, s.r, s.w, s.w, STDOUT);
    case Second => ChildKeeps(s.second, t, s.r, s.w, s.r, STDIN);
    case _ =>
  }

  /** Every dup2 and close finds its descriptor open: a child ends only when its program does. */
  lemma {:induction false} NoErrorExit(s0: State, schedule: seq<Action>)
    requires Initial(s0)
    ensures FirstEnds !in schedule ==> After(s0, schedule).first.pc != Ended
    ensures SecondEnds !in schedule ==> After(s0, schedule).second.pc != Ended
  {
    if schedule != [] {
      var front, act := schedule[..|schedule| - 1], schedule[|schedule| - 1];
      assert act in schedule && forall a :: a in front ==> a in schedule;
      NoErrorExit(s0, front);
      AlwaysTables(s0, front);
      ChildrenLive(After(s0, front), s0.parent, act);
    }
  }

  // ---------- The pipe ends ----------

  /** A child on its way to its program has not lost the end it is there to connect. */
  predicate OnItsWay(pc: ChildPc) {
    pc != Unborn && pc != Ended
  }

  /** From its fork on, child 1 holds a write end as long as it lives, in every interleaving, exactly if the
      read end is not descriptor 1; child 2 holds a read end exactly if the write end is not descriptor 0. */
  lemma {:induction false} EndsHeld(s0: State, schedule: seq<Action>)
    requires Initial(s0)
    ensures var s := After(s0, schedule);
            && (OnItsWay(s.first.pc) && s0.r != STDOUT ==> exists fd :: Holds(s, TheFirst, fd, WriteEnd))
            && (OnItsWay(s.second.pc) && s0.w != STDIN ==> exists fd :: Holds(s, TheSecond, fd, ReadEnd))
            && (s.first.pc == Running && s0.r == STDOUT ==> forall fd :: !Holds(s, TheFirst, fd, WriteEnd))
            && (s.second.pc == Running && s0.w == STDIN ==> forall fd :: !Holds(s, TheSecond, fd, ReadEnd))
  {
    AlwaysTables(s0, schedule);
    var s := After(s0, schedule);
    if OnItsWay(s.first.pc) && s0.r != STDOUT {
      WriterHolds(s, s0.parent);
    }
    if OnItsWay(s.second.pc) && s0.w != STDIN {
      ReaderHolds(s, s0.parent);
    }
  }

  lemma {:induction false} WriterHolds(s: State, t: Table)
    requires s.r != s.w && Tables(s, t) && OnItsWay(s.first.pc) && s.r != STDOUT
    ensures exists fd :: Holds(s, TheFirst, fd, WriteEnd)
  {
    var fd := if s.first.pc == TestFd || s.first.pc == Dup then s.w else STDOUT;
    assert Holds(s, TheFirst, fd, WriteEnd);
  }

  lemma {:induction false} ReaderHolds(s: State, t: Table)
    requires s.r != s.w && Tables(s, t) && OnItsWay(s.second.pc) && s.w != STDIN
    ensures exists fd :: Holds(s, TheSecond, fd, ReadEnd)
  {
    var fd := if s.second.pc == TestFd || s.second.pc == Dup then s.r else STDIN;
    assert Holds(s, TheSecond, fd, ReadEnd);
  }

  predicate PastCloses(pc: ParentPc) {
    pc == WaitTest || pc == Wait || pc == Returned
  }

  predicate AtProgram(c: Child) {
    c.pc == Exec || c.pc == Running
  }

  lemma {:induction false} WiredIfClear(s: State, t: Table)
    requires s.r != s.w && Tables(s, t) && (forall fd :: fd in t ==> t[fd].Other?) && s.r !in t && s.w !in t
    requires PastCloses(s.parentPc) && AtProgram(s.first) && AtProgram(s.second) && Clear(s)
    ensures WiredUp(s)
  {
  }

  lemma {:induction false} NotWiredIfNot(s: State, t: Table)
    requires s.r != s.w && Tables(s, t)
    requires AtProgram(s.first) && AtProgram(s.second) && !Clear(s)
    ensures !WiredUp(s)
  {
    if s.r == STDOUT {
      assert !Holds(s, TheFirst, STDOUT, WriteEnd);
    } else if s.w == STDIN {
      assert !Holds(s, TheSecond, STDIN, ReadEnd);
    } else if s.w == STDOUT {
      assert Holds(s, TheFirst, s.r, ReadEnd);
    } else {
      assert Holds(s, TheSecond, s.w, WriteEnd);
    }
  }

  /** When the parent is past its closes and both children are at their programs, exactly one write
      reference (child 1, descriptor 1) and one read reference (child 2, descriptor 0) are left if and only
      if neither end of the pipe was descriptor 0 or 1. */
  lemma {:induction false} OneReferenceEach(s0: State, schedule: seq<Action>)
    requires Initial(s0)
    requires var s := After(s0, schedule);
             PastCloses(s.parentPc) && AtProgram(s.first) && AtProgram(s.second)
    ensures WiredUp(After(s0, schedule)) <==> Clear(s0)
  {
    AlwaysTables(s0, schedule);
    var s := After(s0, schedule);
    if Clear(s) {
      WiredIfClear(s, s0.parent);
    } else {
      NotWiredIfNot(s, s0.parent);
    }
  }

  lemma {:induction false} SomeWriter(s: State, t: Table)
    requires s.r != s.w && Tables(s, t) && s.r != STDOUT
    requires s.parentPc != Piping && s.first.pc != Ended
    ensures !EndOfFile(s)
  {
    if s.first.pc == Unborn {
      assert Holds(s, TheParent, s.w, WriteEnd);
    } else {
      WriterHolds(s, t);
      var fd :| Holds(s, TheFirst, fd, WriteEnd);
    }
  }

  /** The second child and the parent do not hold a write end past their closes, unless the second child had
      nothing to close because the read end already was descriptor 0. */
  lemma {:induction false} OthersLetGo(s: State, t: Table)
    requires s.r != s.w && Tables(s, t) && (forall fd :: fd in t ==> t[fd].Other?) && s.r !in t && s.w !in t
    requires s.r != STDIN && PastCloses(s.parentPc) && (AtProgram(s.second) || s.second.pc == Ended)
    ensures forall fd :: !Holds(s, TheParent, fd, WriteEnd) && !Holds(s, TheSecond, fd, WriteEnd)
  {
  }

  /** End of file never comes before the writer ends, in any interleaving, unless the read end is descriptor 1;
      and it comes as soon as the writer has ended and the parent and the second child have closed their
      copies, unless the read end is descriptor 0. Where the write end is does not matter. */
  lemma {:induction false} EndOfFileInTime(s0: State, schedule: seq<Action>)
    requires Initial(s0) && After(s0, schedule).parentPc != Piping
    ensures var s := After(s0, schedule);
            && (s0.r != STDOUT ==> (EndOfFile(s) ==> s.first.pc == Ended))
            && (s0.r != STDIN && PastCloses(s.parentPc) && (AtProgram(s.second) || s.second.pc == Ended) ==>
                  (s.first.pc == Ended ==> EndOfFile(s)))
  {
    AlwaysTables(s0, schedule);
    var s := After(s0, schedule);
    if s.first.pc == Ended {
      if s0.r != STDIN && PastCloses(s.parentPc) && (AtProgram(s.second) || s.second.pc == Ended) {
        OthersLetGo(s, s0.parent);
      }
    } else if s0.r != STDOUT {
      SomeWriter(s, s0.parent);
    }
  }

  /** With the read end on descriptor 1 the first child's dup2 overwrites it and its close then closes its own
      standard output, so that its program runs without a write end. */
  lemma {:induction false} WriterCutOff(s: State, t: Table)
    requires s.r != s.w && Tables(s, t) && (forall fd :: fd in t ==> t[fd].Other?) && s.r !in t && s.w !in t
    requires s.r == STDOUT && PastCloses(s.parentPc) && AtProgram(s.first) && AtProgram(s.second)
    ensures EndOfFile(s)
  {
    OthersLetGo(s, t);
  }

  /** When the parent is past its closes and both programs are there, the reader is at end of file although the
      writer is still running if and only if the read end was descriptor 1. */
  lemma {:induction false} PrematureExactly(s0: State, schedule: seq<Action>)
    requires Initial(s0)
    requires var s := After(s0, schedule);
             PastCloses(s.parentPc) && AtProgram(s.first) && AtProgram(s.second)
    ensures EndOfFile(After(s0, schedule)) <==> s0.r == STDOUT
  {
    AlwaysTables(s0, schedule);
    if s0.r == STDOUT {
      WriterCutOff(After(s0, schedule), s0.parent);
    } else {
      EndOfFileInTime(s0, schedule);
    }
  }

  /** End of file comes exactly when the writer ends, not before and then at once, if and only if the read end
      of the pipe was neither descriptor 0 nor descriptor 1. */
  lemma {:induction false} EndOfFileExactly(s0: State, schedule: seq<Action>)
    requires Initial(s0)
    requires var s := After(s0, schedule);
             PastCloses(s.parentPc) && s.first.pc == Running && AtProgram(s.second)
    ensures !EndOfFile(After(s0, schedule)) && EndOfFile(After(s0, schedule + [FirstEnds]))
            <==> s0.r != STDIN && s0.r != STDOUT
  {
    var ended := schedule + [FirstEnds];
    assert ended[..|schedule|] == schedule;
    PrematureExactly(s0, schedule);
    AlwaysTables(s0, schedule);
    if s0.r == STDIN {
      assert Holds(After(s0, ended), TheSecond, s0.w, WriteEnd);
    } else {
      EndOfFileInTime(s0, ended);
    }
  }

  /** With standard input closed at the start the second child may keep a write end of its own pipe, and
      then never sees the end of file while it runs, whatever the others do. */
  lemma {:induction false} ReaderBlocksItself(s0: State, schedule: seq<Action>)
    requires Initial(s0) && s0.r == STDIN && After(s0, schedule).second.pc == Running
    ensures !EndOfFile(After(s0, schedule))
  {
    AlwaysTables(s0, schedule);
    var s := After(s0, schedule);
    assert Holds(s, TheSecond, s.w, WriteEnd);
  }

  /** A process that starts with descriptors 0 and 1 open gets a clear pipe. */
  lemma {:induction false} OpenStdioIsClear(s0: State)
    requires Initial(s0) && STDIN in s0.parent && STDOUT in s0.parent
    ensures Clear(s0)
  {
  }

  // ---------- What a caller can check ----------

  /** pipe hands out the lowest descriptors that are not open. */
  ghost predicate Lowest(s: State) {
    && (forall fd :: 0 <= fd < s.r ==> fd in s.parent)
    && (forall fd :: 0 <= fd < s.w && fd != s.r ==> fd in s.parent)
  }

  predicate StdioOpen(s: State) {
    STDIN in s.parent && STDOUT in s.parent
  }

  /** Then the two conditions on the pipe ends say that standard input and output were open at the start. */
  lemma {:induction false} OpenExactly(s0: State)
    requires Initial(s0) && Lowest(s0)
    ensures Clear(s0) <==> StdioOpen(s0)
    ensures s0.r != STDIN && s0.r != STDOUT <==> StdioOpen(s0)
  {
  }

  /** The launcher wires its programs up as it should if and only if it is started with standard input and output
      open. */
  lemma {:induction false} WiredExactly(s0: State, schedule: seq<Action>)
    requires Initial(s0) && Lowest(s0)
    requires var s := After(s0, schedule);
             PastCloses(s.parentPc) && AtProgram(s.first) && AtProgram(s.second)
    ensures WiredUp(After(s0, schedule)) <==> StdioOpen(s0)
  {
    OneReferenceEach(s0, schedule);
    OpenExactly(s0);
  }

  /** And end of file comes exactly when the writer ends if and only if it is. */
  lemma {:induction false} EndOfFileIfOpen(s0: State, schedule: seq<Action>)
    requires Initial(s0) && Lowest(s0)
    requires var s := After(s0, schedule);
             PastCloses(s.parentPc) && s.first.pc == Running && AtProgram(s.second)
    ensures !EndOfFile(After(s0, schedule)) && EndOfFile(After(s0, schedule + [FirstEnds])) <==> StdioOpen(s0)
  {
    EndOfFileExactly(s0, schedule);
    OpenExactly(s0);
  }

  // ---------- Nobody is waited for ----------

  predicate Ends(act: Action) {
    act == FirstEnds || act == SecondEnds
  }

  function Turns(schedule: seq<Action>, act: Action): nat {
    if schedule == [] then 0
    else Turns(schedule[..|schedule| - 1], act) + if schedule[|schedule| - 1] == act then 1 else 0
  }

  /** Turns of the parent before it returns, and of a child before it is its program. */
  function ParentLeft(pc: ParentPc): nat {
    match pc
    case Piping => 6
    case ForkFirst => 5
    case ForkSecond => 4
    case CloseRead => 3
    case CloseWrite => 2
    case WaitTest => 1
    case Wait => 1
    case Returned => 0
  }

  function ChildLeft(pc: ChildPc): nat {
    match pc
    case Unborn => 6
    case TestFd => 5
    case Dup => 4
    case CloseR => 3
    case CloseW => 2
    case Exec => 1
    case Running => 0
    case Ended => 0
  }

  /** The wait loop is never entered: the parent returns with exactly its sixth turn, whatever its children do. */
  lemma {:induction false} NobodyIsWaitedFor(s0: State, schedule: seq<Action>)
    requires Initial(s0)
    ensures var s := After(s0, schedule);
            && s.parentPc != Wait && s.reaped == {} && s.pid == 0
            && ParentLeft(s.parentPc) == if Turns(schedule, Parent) < 6 then 6 - Turns(schedule, Parent) else 0
  {
    if schedule != [] {
      NobodyIsWaitedFor(s0, schedule[..|schedule| - 1]);
    }
  }

  function Minus(a: nat, b: nat): nat {
    if a < b then 0 else a - b
  }

  /** How much closer one action brings a child that is born and has not ended. */
  lemma {:induction false} Advances(s: State, t: Table, act: Action)
    requires s.r != s.w && s.r !in t && s.w !in t && Tables(s, t) && !Ends(act)
    requires OnItsWay(s.first.pc) && OnItsWay(s.second.pc)
    ensures var s' := Step(s, act);
            && OnItsWay(s'.first.pc) && OnItsWay(s'.second.pc)
            && ChildLeft(s'.first.pc) <= Minus(ChildLeft(s.first.pc), if act == First then 1 else 0)
            && ChildLeft(s'.second.pc) <= Minus(ChildLeft(s.second.pc), if act == Second then 1 else 0)
  {
    ChildrenLive(s, t, act);
  }

  lemma {:induction false} ProgramsStart(s: State, t: Table, schedule: seq<Action>)
    requires s.r != s.w && s.r !in t && s.w !in t && Tables(s, t)
    requires OnItsWay(s.first.pc) && OnItsWay(s.second.pc) && forall act :: act in schedule ==> !Ends(act)
    ensures var s' := After(s, schedule);
            && s'.r == s.r && s'.w == s.w && Tables(s', t)
            && OnItsWay(s'.first.pc) && OnItsWay(s'.second.pc)
            && ChildLeft(s'.first.pc) <= Minus(ChildLeft(s.first.pc), Turns(schedule, First))
            && ChildLeft(s'.second.pc) <= Minus(ChildLeft(s.second.pc), Turns(schedule, Second))
  {
    if schedule != [] {
      var front, act := schedule[..|schedule| - 1], schedule[|schedule| - 1];
      assert act in schedule && forall a :: a in front ==> a in schedule;
      ProgramsStart(s, t, front);
      TablesStep(After(s, front), t, act);
      Advances(After(s, front), t, act);
    }
  }

  /** The launcher leaves its programs behind: after six turns of the parent and then five of each child it has
      returned and both programs run. */
  lemma {:induction false} ProgramsOutliveParent(s0: State, schedule: seq<Action>, rest: seq<Action>)
    requires Initial(s0) && Turns(schedule, Parent) >= 6 && Turns(rest, First) >= 5 && Turns(rest, Second) >= 5
    requires forall act :: act in schedule || act in rest ==> !Ends(act)
    ensures var s := After(After(s0, schedule), rest);
            s.parentPc == Returned && s.first.pc == Running && s.second.pc == Running
  {
    NobodyIsWaitedFor(s0, schedule);
    AlwaysTables(s0, schedule);
    NoErrorExit(s0, schedule);
    ProgramsStart(After(s0, schedule), s0.parent, rest);
    ReturnedStays(After(s0, schedule), rest);
  }

  lemma {:induction false} ReturnedStays(s: State, schedule: seq<Action>)
    requires s.parentPc == Returned
    ensures After(s, schedule).parentPc == Returned
  {
    if schedule != [] {
      ReturnedStays(s, schedule[..|schedule| - 1]);
    }
  }

  // ---------- The tables as they are updated in place ----------

  class Launcher {
    var r: int
    var w: int
    var parentPc: ParentPc
    var parentFds: Table
    var pid: int
    var reaped: set<int>
    var firstPc: ChildPc
    var firstFds: Table
    var secondPc: ChildPc
    var secondFds: Table

    ghost function View(): State
      reads this
    {
      State(r, w, parentPc, parentFds, pid, reaped, Child(firstPc, firstFds), Child(secondPc, secondFds))
    }

    /** pipe will return r and w. */
    constructor (stdio: Table, r: int, w: int)
      requires r >= 0 && w >= 0 && r != w && r !in stdio && w !in stdio
      requires forall fd :: fd in stdio ==> stdio[fd].Other?
      ensures Initial(View()) && this.r == r && this.w == w && parentFds == stdio
    {
      this.r, this.w, parentPc, parentFds, pid, reaped := r, w, Piping, stdio, 0, {};
      firstPc, firstFds, secondPc, secondFds := Unborn, map[], Unborn, map[];
    }

    method ParentTurn()
      modifies this
      ensures View() == Step(old(View()), Parent)
    {
      match parentPc
      case Piping =>
        parentFds := parentFds[r := ReadEnd];
        parentFds := parentFds[w := WriteEnd];
        parentPc := ForkFirst;
      case ForkFirst =>
        firstPc, firstFds, parentPc := TestFd, parentFds, ForkSecond;
      case ForkSecond =>
        secondPc, secondFds, parentPc := TestFd, parentFds, CloseRead;
      case CloseRead =>
        parentFds, parentPc := parentFds - {r}, CloseWrite;
      case CloseWrite =>
        parentFds, parentPc := parentFds - {w}, WaitTest;
      case WaitTest =>
        if pid > 0 {
          parentPc := Wait;
        } else {
          parentFds, parentPc := map[], Returned;
        }
      case Wait => WaitTurn();
      case Returned =>
    }

    method WaitTurn()
      requires parentPc == Wait
      modifies this`parentPc, this`pid, this`reaped
      ensures View() == WaitStep(old(View()))
    {
      if firstPc == Ended && 1 !in reaped {
        reaped, pid, parentPc := reaped + {1}, 1, WaitTest;
      } else if secondPc == Ended && 2 !in reaped {
        reaped, pid, parentPc := reaped + {2}, 2, WaitTest;
      } else if 1 in reaped && 2 in reaped {
        pid, parentPc := -1, WaitTest;
      }
    }

    method FirstTurn()
      modifies this`firstPc, this`firstFds
      ensures View() == Step(old(View()), First)
    {
      match firstPc
      case TestFd => firstPc := if w != STDOUT then Dup else Exec;
      case Dup =>
        if w in firstFds {
          firstFds, firstPc := firstFds[STDOUT := firstFds[w]], CloseR;
        } else {
          firstFds, firstPc := map[], Ended;
        }
      case CloseR =>
        if r in firstFds {
          firstFds, firstPc := firstFds - {r}, CloseW;
        } else {
          firstFds, firstPc := map[], Ended;
        }
      case CloseW =>
        if w in firstFds {
          firstFds, firstPc := firstFds - {w}, Exec;
        } else {
          firstFds, firstPc := map[], Ended;
        }
      case Exec => firstPc := Running;
      case _ =>
    }

    method SecondTurn()
      modifies this`secondPc, this`secondFds
      ensures View() == Step(old(View()), Second)
    {
      match secondPc
      case TestFd => secondPc := if r != STDIN then Dup else Exec;
      case Dup =>
        if r in secondFds {
          secondFds, secondPc := secondFds[STDIN := secondFds[r]], CloseR;
        } else {
          secondFds, secondPc := map[], Ended;
        }
      case CloseR =>
        if r in secondFds {
          secondFds, secondPc := secondFds - {r}, CloseW;
        } else {
          secondFds, secondPc := map[], Ended;
        }
      case CloseW =>
        if w in secondFds {
          secondFds, secondPc := secondFds - {w}, Exec;
        } else {
          secondFds, secondPc := map[], Ended;
        }
      case Exec => secondPc := Running;
      case _ =>
    }

    method ProgramEnds(act: Action)
      requires act == FirstEnds || act == SecondEnds
      modifies this`firstPc, this`firstFds, this`secondPc, this`secondFds
      ensures View() == Step(old(View()), act)
    {
      if act == FirstEnds && firstPc == Running {
        firstPc, firstFds := Ended, map[];
      } else if act == SecondEnds && secondPc == Running {
        secondPc, secondFds := Ended, map[];
      }
    }

    /** Any interleaving of parent and children. */
    method Run(schedule: seq<Action>)
      modifies this
      ensures View() == After(old(View()), schedule)
      ensures Initial(old(View())) && PastCloses(parentPc) && AtProgram(View().first) && AtProgram(View().second) ==>
                (WiredUp(View()) <==> Clear(old(View())))
    {
      ghost var before := View();
      var n := 0;
      while n < |schedule|
        invariant n <= |schedule|
        invariant View() == After(before, schedule[..n])
      {
        assert schedule[..n + 1][..n] == schedule[..n];
        match schedule[n] {
          case Parent => ParentTurn();
          case First => FirstTurn();
          case Second => SecondTurn();
          case _ => ProgramEnds(schedule[n]);
        }
        n := n + 1;
      }
      assert schedule[..n] == schedule;
      if Initial(before) && PastCloses(parentPc) && AtProgram(View().first) && AtProgram(View().second) {
        OneReferenceEach(before, schedule);
      }
    }
  }
}
