// The stage scheduler of taskctl/scheduler.go: one scan loop, one goroutine per started stage.
//
// Every read and every write of a stage status is a step of its own, so the scan loop, the
// status checks and isDone interleave freely with the goroutines and with Cancel.
module StageScheduler {
  import opened Basics
  import opened Jobs
  import TaskOrder

  /** Stage names with their dependencies, and the stages whose failure is allowed. */
  datatype Graph = Graph(deps: map<string, set<string>>, allowed: set<string>)

  ghost predicate Acyclic(g: Graph) {
    exists t :: TaskOrder.IsTopological(g.deps, t)
  }

  ghost predicate Closed(g: Graph) {
    forall n | n in g.deps :: g.deps[n] <= g.deps.Keys
  }

  /** The goroutine of a stage: not launched, in runStage, past UpdateStatus(StatusError), ended. */
  datatype Phase = Idle | Executing | Failed | Exited

  datatype Stage = Stage(status: TaskStatus, phase: Phase)

  type Stages = map<string, Stage>

  /** Where the goroutine of Schedule stands. */
  datatype Pc =
    | Polling(unread: set<string>)
    | TestingCancel
    | Scanning(unvisited: set<string>)
    | Checking(stage: string, unreadDeps: set<string>, ready: bool, rest: set<string>)
    | Joining
    | Returned

  datatype Sys = Sys(st: Stages, pc: Pc, cancelled: bool, lastErr: bool, ran: seq<string>)

  datatype Action =
    | ReadDone(n: string)
    | AllRead
    | TestCancel
    | Visit(n: string)
    | ReadDep(d: string)
    | Decide
    | EndScan
    | Join
    | TaskOk(n: string)
    | TaskFails(n: string)
    | Recover(n: string)
    | Report(n: string)
    | Cancel

  predicate Unfinished(s: TaskStatus) {
    s == Waiting || s == Running
  }

  predicate Passes(g: Graph, d: string, s: TaskStatus) {
    s == Done || s == Skipped || (s == Error && d in g.allowed)
  }

  predicate Blocks(g: Graph, d: string, s: TaskStatus) {
    s == Canceled || (s == Error && d !in g.allowed)
  }

  predicate Active(p: Phase) {
    p == Executing || p == Failed
  }

  function Init(g: Graph): Sys {
    Sys(map n | n in g.deps :: Stage(Waiting, Idle), Polling(g.deps.Keys), false, false, [])
  }

  /** `fails` fixes the outcome of each task; a cancellation may change any of them. */
  ghost predicate Enabled(g: Graph, fails: set<string>, s: Sys, a: Action) {
    match a
    case ReadDone(n) => s.pc.Polling? && n in s.pc.unread && n in s.st
    case AllRead => s.pc == Polling({})
    case TestCancel => s.pc.TestingCancel?
    case Visit(n) => s.pc.Scanning? && n in s.pc.unvisited && n in s.st && n in g.deps
    case ReadDep(d) => s.pc.Checking? && d in s.pc.unreadDeps && d in s.st
    case Decide => s.pc.Checking? && s.pc.unreadDeps == {}
    case EndScan => s.pc == Scanning({})
    case Join => s.pc.Joining? && forall n | n in s.st :: !Active(s.st[n].phase)
    case TaskOk(n) => n in s.st && s.st[n].phase == Executing && (n !in fails || s.cancelled)
    case TaskFails(n) => n in s.st && s.st[n].phase == Executing && (n in fails || s.cancelled)
    case Recover(n) => n in s.st && s.st[n].phase == Failed && n in g.allowed
    case Report(n) => n in s.st && s.st[n].phase == Failed && n !in g.allowed
    case Cancel => true
  }

  function Apply(g: Graph, ghost fails: set<string>, s: Sys, a: Action): Sys
    requires Enabled(g, fails, s, a)
  {
    match a
    case ReadDone(n) =>
      s.(pc := if Unfinished(s.st[n].status) then TestingCancel else Polling(s.pc.unread - {n}))
    case AllRead => s.(pc := Joining)
    case TestCancel => s.(pc := if s.cancelled then Joining else Scanning(g.deps.Keys))
    case Visit(n) =>
      var rest := s.pc.unvisited - {n};
      s.(pc := if s.st[n].status != Waiting then Scanning(rest) else Checking(n, g.deps[n], true, rest))
    case ReadDep(d) =>
      var c, status := s.pc, s.st[d].status;
      if Passes(g, d, status) then s.(pc := c.(unreadDeps := c.unreadDeps - {d}))
      else
        s.(pc := c.(unreadDeps := c.unreadDeps - {d}, ready := false),
           st := if Blocks(g, d, status) then s.st[c.stage := Stage(Canceled, Idle)] else s.st)
    case Decide =>
      if s.pc.ready
      then
        s.(pc := Scanning(s.pc.rest), st := s.st[s.pc.stage := Stage(Running, Executing)], ran := s.ran + [s.pc.stage])
      else s.(pc := Scanning(s.pc.rest))
    case EndScan => s.(pc := Polling(g.deps.Keys))
    case Join => s.(pc := Returned)
    case TaskOk(n) => s.(st := s.st[n := Stage(Done, Exited)])
    case TaskFails(n) => s.(st := s.st[n := Stage(Error, Failed)])
    case Recover(n) => s.(st := s.st[n := Stage(Done, Exited)])
    case Report(n) => s.(st := s.st[n := Stage(Error, Exited)], lastErr := true)
    case Cancel => s.(cancelled := true)
  }

  // ---------------------------------------------------------------------------------------------
  // The invariant of every run, canceled or not
  // ---------------------------------------------------------------------------------------------

  ghost predicate StageInv(g: Graph, st: Stages, n: string)
    requires n in st && n in g.deps && g.deps[n] <= st.Keys
  {
    && match st[n].phase {
         case Idle => st[n].status == Waiting || st[n].status == Canceled
         case Executing => st[n].status == Running
         case Failed => st[n].status == Error
         case Exited => st[n].status == Done || (st[n].status == Error && n !in g.allowed)
       }
    && (st[n].phase != Idle ==> forall d | d in g.deps[n] :: Passes(g, d, st[d].status))
    && (st[n].status == Canceled ==> exists d | d in g.deps[n] :: Blocks(g, d, st[d].status))
  }

  ghost predicate PcInv(g: Graph, st: Stages, cancelled: bool, pc: Pc)
    requires st.Keys == g.deps.Keys && Closed(g)
  {
    match pc
    case Polling(unread) => unread <= g.deps.Keys && forall n | n in st && n !in unread :: !Unfinished(st[n].status)
    case TestingCancel => true
    case Scanning(unvisited) => unvisited <= g.deps.Keys
    case Checking(n, unread, ready, rest) =>
      && rest <= g.deps.Keys && n in st && unread <= g.deps[n] && st[n].phase == Idle
      && (ready ==> st[n].status == Waiting && forall d | d in g.deps[n] && d !in unread :: Passes(g, d, st[d].status))
      && (st[n].status == Canceled ==> !ready)
    case Joining => cancelled || forall n | n in st :: !Unfinished(st[n].status)
    case Returned =>
      && (cancelled || forall n | n in st :: !Unfinished(st[n].status))
      && forall n | n in st :: !Active(st[n].phase)
  }

  ghost predicate Inv(g: Graph, s: Sys) {
    && Closed(g) && s.st.Keys == g.deps.Keys
    && (forall n | n in s.st :: StageInv(g, s.st, n))
    && PcInv(g, s.st, s.cancelled, s.pc)
    && NoDup(s.ran) && (forall n :: n in s.ran <==> n in s.st && s.st[n].phase != Idle)
    && (s.lastErr <==> SomeFailed(s.st))
  }

  /** A stage only moves down this list: waiting, running, failed, settled. */
  function Level(x: Stage): nat {
    if x.phase == Executing then 2 else if x.phase == Failed then 1 else if x == Stage(Waiting, Idle) then 3 else 0
  }

  ghost predicate StageMove(g: Graph, n: string, x: Stage, y: Stage) {
    || y == x
    || (x == Stage(Waiting, Idle) && (y == Stage(Running, Executing) || y == Stage(Canceled, Idle)))
    || (x == Stage(Canceled, Idle) && y == Stage(Canceled, Idle))
    || (x.phase == Executing && (y == Stage(Done, Exited) || y == Stage(Error, Failed)))
    || (x.phase == Failed && y == if n in g.allowed then Stage(Done, Exited) else Stage(Error, Exited))
  }

  // Replacing one stage: everything said about the others survives.
  lemma MoveKeepsStages(g: Graph, st: Stages, n: string, y: Stage)
    requires Closed(g) && st.Keys == g.deps.Keys && n in st
    requires forall m | m in st :: StageInv(g, st, m)
    requires StageMove(g, n, st[n], y)
    requires y.phase == Executing ==> forall d | d in g.deps[n] :: Passes(g, d, st[d].status)
    requires y.status == Canceled ==> exists d | d in g.deps[n] :: Blocks(g, d, st[d].status)
    ensures forall m | m in st :: StageInv(g, st[n := y], m)
  {
  }

  lemma MoveKeepsPc(g: Graph, st: Stages, cancelled: bool, pc: Pc, n: string, y: Stage)
    requires Closed(g) && st.Keys == g.deps.Keys && n in st
    requires forall m | m in st :: StageInv(g, st, m)
    requires st[n].phase != Idle && StageMove(g, n, st[n], y)
    requires PcInv(g, st, cancelled, pc)
    ensures PcInv(g, st[n := y], cancelled, pc)
  {
  }

  // The steps of the stage goroutines.
  lemma GoroutineKeepsInv(g: Graph, fails: set<string>, s: Sys, a: Action)
    requires Inv(g, s) && Enabled(g, fails, s, a)
    requires a.TaskOk? || a.TaskFails? || a.Recover? || a.Report?
    ensures Inv(g, Apply(g, fails, s, a))
  {
    var s' := Apply(g, fails, s, a);
    var n := a.n;
    assert StageInv(g, s.st, n);
    var y := s'.st[n];
    assert s'.st == s.st[n := y];
    MoveKeepsStages(g, s.st, n, y);
    MoveKeepsPc(g, s.st, s.cancelled, s.pc, n, y);
    if a.Report? {
      assert s'.st[n] == Stage(Error, Exited);
    } else if s.lastErr {
      var m :| m in s.st && s.st[m] == Stage(Error, Exited);
      assert s'.st[m] == Stage(Error, Exited);
    } else {
      forall m | m in s'.st ensures s'.st[m] != Stage(Error, Exited) {
        assert s.st[m] != Stage(Error, Exited);
      }
    }
  }

  lemma LoopKeepsInv(g: Graph, fails: set<string>, s: Sys, a: Action)
    requires Inv(g, s) && Enabled(g, fails, s, a)
    requires !(a.TaskOk? || a.TaskFails? || a.Recover? || a.Report?)
    requires !a.ReadDep? && !a.Decide?
    ensures Inv(g, Apply(g, fails, s, a))
  {
  }

  ghost predicate SomeFailed(st: Stages) {
    exists n | n in st :: st[n] == Stage(Error, Exited)
  }

  lemma IdleMoveKeepsFailed(st: Stages, n: string, y: Stage)
    requires n in st && st[n].phase == Idle && y.phase != Exited
    ensures SomeFailed(st[n := y]) <==> SomeFailed(st)
  {
    if SomeFailed(st) {
      var m :| m in st && st[m] == Stage(Error, Exited);
      assert st[n := y][m] == Stage(Error, Exited);
    }
    if SomeFailed(st[n := y]) {
      var m :| m in st && st[n := y][m] == Stage(Error, Exited);
      assert st[m] == Stage(Error, Exited);
    }
  }

  lemma DecideKeepsInv(g: Graph, fails: set<string>, s: Sys)
    requires Inv(g, s) && Enabled(g, fails, s, Decide)
    ensures Inv(g, Apply(g, fails, s, Decide))
  {
    var s' := Apply(g, fails, s, Decide);
    var n := s.pc.stage;
    assert StageInv(g, s.st, n);
    if s.pc.ready {
      var y := Stage(Running, Executing);
      MoveKeepsStages(g, s.st, n, y);
      IdleMoveKeepsFailed(s.st, n, y);
      assert n !in s.ran;
      assert s'.lastErr <==> SomeFailed(s'.st);
    }
  }

  lemma ReadDepKeepsInv(g: Graph, fails: set<string>, s: Sys, d: string)
    requires Inv(g, s) && Enabled(g, fails, s, ReadDep(d))
    ensures Inv(g, Apply(g, fails, s, ReadDep(d)))
  {
    hide Inv, StageInv, SomeFailed;
    var s' := Apply(g, fails, s, ReadDep(d));
    var n := s.pc.stage;
    InvMeans(g, s);
    assert StageInv(g, s.st, n);
    assert d in g.deps[n] && d in s.st;
    IdleStatus(g, s.st, n);
    if Blocks(g, d, s.st[d].status) {
      var y := Stage(Canceled, Idle);
      MoveKeepsStages(g, s.st, n, y);
      IdleMoveKeepsFailed(s.st, n, y);
    }
    InvFrom(g, s');
  }

  lemma IdleStatus(g: Graph, st: Stages, n: string)
    requires n in st && n in g.deps && g.deps[n] <= st.Keys && StageInv(g, st, n) && st[n].phase == Idle
    ensures st[n] == Stage(Waiting, Idle) || st[n] == Stage(Canceled, Idle)
  {
  }

  lemma InvMeans(g: Graph, s: Sys)
    requires Inv(g, s)
    ensures Closed(g) && s.st.Keys == g.deps.Keys
    ensures forall n | n in s.st :: StageInv(g, s.st, n)
    ensures PcInv(g, s.st, s.cancelled, s.pc)
    ensures NoDup(s.ran) && (forall n :: n in s.ran <==> n in s.st && s.st[n].phase != Idle)
    ensures s.lastErr <==> SomeFailed(s.st)
  {
  }

  lemma InvFrom(g: Graph, s: Sys)
    requires Closed(g) && s.st.Keys == g.deps.Keys
    requires forall n | n in s.st :: StageInv(g, s.st, n)
    requires PcInv(g, s.st, s.cancelled, s.pc)
    requires NoDup(s.ran) && (forall n :: n in s.ran <==> n in s.st && s.st[n].phase != Idle)
    requires s.lastErr <==> SomeFailed(s.st)
    ensures Inv(g, s)
  {
  }

  lemma StepKeepsInv(g: Graph, fails: set<string>, s: Sys, a: Action)
    requires Inv(g, s) && Enabled(g, fails, s, a)
    ensures Inv(g, Apply(g, fails, s, a))
  {
    if a.TaskOk? || a.TaskFails? || a.Recover? || a.Report? {
      GoroutineKeepsInv(g, fails, s, a);
    } else if a.ReadDep? {
      ReadDepKeepsInv(g, fails, s, a.d);
    } else if a.Decide? {
      DecideKeepsInv(g, fails, s);
    } else {
      LoopKeepsInv(g, fails, s, a);
    }
  }
}
