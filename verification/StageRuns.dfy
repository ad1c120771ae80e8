// Runs of the stage scheduler: safety whatever the interleaving, and the one outcome of a run that nobody cancels.
module StageRuns {
  import opened Basics
  import opened Jobs
  import opened StageScheduler

  // ---------------------------------------------------------------------------------------------
  // Runs
  // ---------------------------------------------------------------------------------------------

  ghost predicate Reaches(g: Graph, fails: set<string>, s: Sys, run: seq<Action>, s': Sys)
    decreases |run|
  {
    if run == [] then s == s'
    else Enabled(g, fails, s, run[0]) && Reaches(g, fails, Apply(g, fails, s, run[0]), run[1..], s')
  }

  lemma {:induction false} RunKeepsInv(g: Graph, fails: set<string>, s: Sys, run: seq<Action>, s': Sys)
    requires Inv(g, s) && Reaches(g, fails, s, run, s')
    ensures Inv(g, s')
    ensures s.cancelled ==> s'.cancelled
    decreases |run|
  {
    if run != [] {
      StepKeepsInv(g, fails, s, run[0]);
      RunKeepsInv(g, fails, Apply(g, fails, s, run[0]), run[1..], s');
    }
  }

  lemma StepKeepsSettled(g: Graph, fails: set<string>, s: Sys, a: Action, n: string)
    requires Inv(g, s) && Enabled(g, fails, s, a) && n in s.st && !Unfinished(s.st[n].status)
    ensures var s' := Apply(g, fails, s, a); n in s'.st && !Unfinished(s'.st[n].status)
  {
  }

  /** A settled stage stays settled, so an isDone that has read all stages as settled stays true. */
  lemma {:induction false} SettledStays(g: Graph, fails: set<string>, s: Sys, run: seq<Action>, s': Sys, n: string)
    requires Inv(g, s) && Reaches(g, fails, s, run, s') && n in s.st && !Unfinished(s.st[n].status)
    ensures n in s'.st && !Unfinished(s'.st[n].status)
    decreases |run|
  {
    hide Inv;
    if run != [] {
      StepKeepsInv(g, fails, s, run[0]);
      StepKeepsSettled(g, fails, s, run[0], n);
      SettledStays(g, fails, Apply(g, fails, s, run[0]), run[1..], s', n);
    }
  }

  lemma InitInv(g: Graph)
    requires Closed(g)
    ensures Inv(g, Init(g))
  {
  }

  ghost predicate DependenciesPassed(g: Graph, st: Stages, n: string) {
    n in g.deps && forall d | d in g.deps[n] :: d in st && Passes(g, d, st[d].status)
  }

  /**
   * Safety of every run, whatever the interleaving, the task outcomes and the cancellations: a task runs at
   * most once, and only when each dependency is Done, Skipped or an allowed Error; at return no stage is
   * Running, and the error is nil exactly when no stage ended in Error.
   */
  lemma Safety(g: Graph, fails: set<string>, run: seq<Action>, s: Sys)
    requires Closed(g) && Reaches(g, fails, Init(g), run, s)
    ensures NoDup(s.ran)
    ensures s.st.Keys == g.deps.Keys
    ensures forall n | n in s.ran :: DependenciesPassed(g, s.st, n)
    ensures s.pc.Returned? ==> forall n | n in s.st :: s.st[n].status != Running
    ensures s.pc.Returned? ==> (!s.lastErr <==> forall n | n in s.st :: s.st[n].status != Error)
  {
    hide Inv;
    InitInv(g);
    RunKeepsInv(g, fails, Init(g), run, s);
    InvSafe(g, s);
  }

  lemma InvSafe(g: Graph, s: Sys)
    requires Inv(g, s)
    ensures NoDup(s.ran) && s.st.Keys == g.deps.Keys
    ensures forall n | n in s.ran :: DependenciesPassed(g, s.st, n)
    ensures s.pc.Returned? ==> forall n | n in s.st :: s.st[n].status != Running
    ensures s.pc.Returned? ==> (!s.lastErr <==> forall n | n in s.st :: s.st[n].status != Error)
  {
    forall n | n in s.ran ensures DependenciesPassed(g, s.st, n) {
      assert StageInv(g, s.st, n);
    }
    if s.pc.Returned? {
      forall n | n in s.st
        ensures s.st[n].status != Running && (s.st[n].status == Error ==> s.st[n] == Stage(Error, Exited))
      {
        assert StageInv(g, s.st, n);
      }
    }
  }

  // Following blocked dependencies backwards in topological order ends at a failed stage.
  lemma {:induction false} CanceledHasError(g: Graph, s: Sys, t: seq<string>, k: nat)
    requires Inv(g, s) && TaskOrder.IsTopological(g.deps, t)
    requires k < |t| && t[k] in s.st && Blocks(g, t[k], s.st[t[k]].status)
    ensures exists n | n in s.st :: s.st[n].status == Error
  {
    var n := t[k];
    if s.st[n].status == Canceled {
      assert StageInv(g, s.st, n);
      var d :| d in g.deps[n] && Blocks(g, d, s.st[d].status);
      assert g.deps[t[k]] <= Elems(t[..k]);
      var j :| 0 <= j < k && t[..k][j] == d;
      CanceledHasError(g, s, t, j);
    }
  }

  /** Without Cancel, Schedule returns nil exactly when every stage is Done or Skipped. */
  lemma NilMeansAllDone(g: Graph, fails: set<string>, run: seq<Action>, s: Sys)
    requires Closed(g) && Acyclic(g) && Reaches(g, fails, Init(g), run, s)
    requires s.pc.Returned? && !s.cancelled
    ensures !s.lastErr <==> forall n | n in s.st :: s.st[n].status == Done || s.st[n].status == Skipped
  {
    hide StageInv;
    Safety(g, fails, run, s);
    InitInv(g);
    RunKeepsInv(g, fails, Init(g), run, s);
    var t :| TaskOrder.IsTopological(g.deps, t);
    forall n | n in s.st && s.st[n].status == Canceled ensures s.lastErr {
      assert n in Elems(t);
      var k :| 0 <= k < |t| && t[k] == n;
      CanceledHasError(g, s, t, k);
    }
  }

  // ---------------------------------------------------------------------------------------------
  // Confluence
  // ---------------------------------------------------------------------------------------------

  /** The status of one stage, given those of its dependencies. */
  ghost function Outcome(g: Graph, fails: set<string>, m: map<string, TaskStatus>, n: string): TaskStatus
    requires n in g.deps && g.deps[n] <= m.Keys
  {
    if exists d | d in g.deps[n] :: m[d] == Error || m[d] == Canceled then Canceled
    else if n in fails && n !in g.allowed then Error
    else Done
  }

  ghost predicate IsOutcome(g: Graph, fails: set<string>, m: map<string, TaskStatus>) {
    Closed(g) && m.Keys == g.deps.Keys && forall n | n in m :: m[n] == Outcome(g, fails, m, n)
  }

  // The outcome by recursion along a topological order.
  lemma {:induction false} OutcomePrefix(g: Graph, fails: set<string>, t: seq<string>, k: nat)
    returns (m: map<string, TaskStatus>)
    requires Closed(g) && TaskOrder.IsTopological(g.deps, t) && k <= |t|
    ensures m.Keys == Elems(t[..k])
    ensures forall n | n in m :: n in g.deps && g.deps[n] <= m.Keys && m[n] == Outcome(g, fails, m, n)
  {
    if k == 0 {
      m := map[];
    } else {
      var p := OutcomePrefix(g, fails, t, k - 1);
      var n := t[k - 1];
      assert t[..k] == t[..k - 1] + [n];
      assert n in Elems(t) && g.deps[n] <= Elems(t[..k - 1]);
      assert n !in t[..k - 1] by {
        assert forall i | 0 <= i < k - 1 :: t[i] != n;
      }
      m := p[n := Outcome(g, fails, p, n)];
      forall x | x in m ensures g.deps[x] <= m.Keys && m[x] == Outcome(g, fails, m, x) {
        if x in p {
          assert p[x] == Outcome(g, fails, p, x);
        }
        forall d | d in g.deps[x] ensures d in p && m[d] == p[d] {
        }
      }
    }
  }

  lemma OutcomeExists(g: Graph, fails: set<string>) returns (m: map<string, TaskStatus>)
    requires Closed(g) && Acyclic(g)
    ensures IsOutcome(g, fails, m)
  {
    var t :| TaskOrder.IsTopological(g.deps, t);
    m := OutcomePrefix(g, fails, t, |t|);
    assert t[..|t|] == t;
  }

  /** What is settled so far agrees with the outcome. */
  ghost predicate StageAgrees(g: Graph, fails: set<string>, m: map<string, TaskStatus>, n: string, x: Stage)
    requires n in m
  {
    && (x.status == Canceled ==> m[n] == Canceled)
    && (x.phase != Idle ==> m[n] != Canceled)
    && (x.phase == Failed ==> n in fails)
    && (x.status == Error && n !in g.allowed ==> m[n] == Error)
    && (x.status == Done ==> m[n] == Done)
  }

  ghost predicate Agrees(g: Graph, fails: set<string>, m: map<string, TaskStatus>, s: Sys) {
    IsOutcome(g, fails, m) && s.st.Keys == m.Keys && forall n | n in s.st :: StageAgrees(g, fails, m, n, s.st[n])
  }

  // A dependency that blocks or passes now does so in the outcome too.
  lemma DependencyAgrees(g: Graph, fails: set<string>, m: map<string, TaskStatus>, s: Sys, d: string)
    requires Inv(g, s) && Agrees(g, fails, m, s) && d in s.st
    ensures d in m && (Blocks(g, d, s.st[d].status) ==> m[d] == Error || m[d] == Canceled)
    ensures Passes(g, d, s.st[d].status) ==> m[d] != Error && m[d] != Canceled
  {
    assert StageInv(g, s.st, d) && StageAgrees(g, fails, m, d, s.st[d]) && m[d] == Outcome(g, fails, m, d);
  }

  // The stage being checked meets its outcome: canceled by a blocking dependency, or started.
  lemma CheckedAgrees(g: Graph, fails: set<string>, m: map<string, TaskStatus>, s: Sys, n: string)
    requires Inv(g, s) && Agrees(g, fails, m, s) && n in s.st
    ensures (exists d | d in g.deps[n] :: Blocks(g, d, s.st[d].status)) ==> m[n] == Canceled
    ensures (forall d | d in g.deps[n] :: Passes(g, d, s.st[d].status)) ==> m[n] != Canceled
  {
    hide Inv, Blocks, Passes, StageAgrees;
    InvMeans(g, s);
    assert m[n] == Outcome(g, fails, m, n);
    forall d | d in g.deps[n]
      ensures d in s.st && (Blocks(g, d, s.st[d].status) ==> m[d] == Error || m[d] == Canceled)
      ensures Passes(g, d, s.st[d].status) ==> m[d] != Error && m[d] != Canceled
    {
      DependencyAgrees(g, fails, m, s, d);
    }
  }

  lemma MoveAgrees(g: Graph, fails: set<string>, m: map<string, TaskStatus>, s: Sys, n: string, y: Stage)
    requires Inv(g, s) && Agrees(g, fails, m, s) && n in s.st && StageMove(g, n, s.st[n], y)
    requires y == Stage(Canceled, Idle) ==> m[n] == Canceled
    requires y == Stage(Running, Executing) ==> m[n] != Canceled
    requires s.st[n].phase == Executing ==> (y.phase == Failed <==> n in fails)
    ensures StageAgrees(g, fails, m, n, y)
  {
  }

  lemma StepAgrees(g: Graph, fails: set<string>, m: map<string, TaskStatus>, s: Sys, a: Action)
    requires Inv(g, s) && Enabled(g, fails, s, a) && Agrees(g, fails, m, s) && !s.cancelled
    ensures Agrees(g, fails, m, Apply(g, fails, s, a))
  {
    if a.TaskOk? || a.TaskFails? || a.Recover? || a.Report? {
      GoroutineAgrees(g, fails, m, s, a);
    } else if Apply(g, fails, s, a).st != s.st {
      DecisionAgrees(g, fails, m, s, a);
    }
  }

  lemma GoroutineAgrees(g: Graph, fails: set<string>, m: map<string, TaskStatus>, s: Sys, a: Action)
    requires Inv(g, s) && Enabled(g, fails, s, a) && Agrees(g, fails, m, s) && !s.cancelled
    requires a.TaskOk? || a.TaskFails? || a.Recover? || a.Report?
    ensures Agrees(g, fails, m, Apply(g, fails, s, a))
  {
    hide Inv, StageInv, StageAgrees, IsOutcome;
    InvMeans(g, s);
    MoveAgrees(g, fails, m, s, a.n, Apply(g, fails, s, a).st[a.n]);
  }

  lemma DecisionAgrees(g: Graph, fails: set<string>, m: map<string, TaskStatus>, s: Sys, a: Action)
    requires Inv(g, s) && Enabled(g, fails, s, a) && Agrees(g, fails, m, s)
    requires !(a.TaskOk? || a.TaskFails? || a.Recover? || a.Report?) && Apply(g, fails, s, a).st != s.st
    ensures Agrees(g, fails, m, Apply(g, fails, s, a))
  {
    hide Inv, StageInv, StageAgrees, IsOutcome;
    InvMeans(g, s);
    var s', n := Apply(g, fails, s, a), s.pc.stage;
    CheckedAgrees(g, fails, m, s, n);
    assert StageInv(g, s.st, n);
    IdleStatus(g, s.st, n);
    MoveAgrees(g, fails, m, s, n, s'.st[n]);
  }

  lemma {:induction false} RunAgrees(g: Graph, fails: set<string>, m: map<string, TaskStatus>, s: Sys, run: seq<Action>,
                                     s': Sys)
    requires Inv(g, s) && Agrees(g, fails, m, s) && Reaches(g, fails, s, run, s') && !s'.cancelled
    ensures Agrees(g, fails, m, s')
    decreases |run|
  {
    hide Inv, Agrees;
    if run != [] {
      var s1 := Apply(g, fails, s, run[0]);
      StepKeepsInv(g, fails, s, run[0]);
      RunKeepsInv(g, fails, s1, run[1..], s');
      StepAgrees(g, fails, m, s, run[0]);
      RunAgrees(g, fails, m, s1, run[1..], s');
    }
  }

  function Statuses(st: Stages): map<string, TaskStatus> {
    map n | n in st :: st[n].status
  }

  lemma SettledIsOutcome(g: Graph, fails: set<string>, m: map<string, TaskStatus>, s: Sys)
    requires Inv(g, s) && Agrees(g, fails, m, s) && s.pc.Returned? && !s.cancelled
    ensures Statuses(s.st) == m
  {
    forall n | n in s.st ensures s.st[n].status == m[n] {
      assert StageInv(g, s.st, n) && StageAgrees(g, fails, m, n, s.st[n]);
    }
  }

  /** Every complete run without Cancel ends in the status map given by recursion over the graph. */
  lemma Confluence(g: Graph, fails: set<string>, run: seq<Action>, s: Sys, m: map<string, TaskStatus>)
    requires Closed(g) && Reaches(g, fails, Init(g), run, s) && s.pc.Returned? && !s.cancelled
    requires IsOutcome(g, fails, m)
    ensures Statuses(s.st) == m
  {
    RunKeepsInv(g, fails, Init(g), run, s);
    RunAgrees(g, fails, m, Init(g), run, s);
    SettledIsOutcome(g, fails, m, s);
  }

  lemma SameResult(g: Graph, fails: set<string>, run: seq<Action>, s: Sys, other: seq<Action>, s': Sys)
    requires Closed(g) && Acyclic(g)
    requires Reaches(g, fails, Init(g), run, s) && s.pc.Returned? && !s.cancelled
    requires Reaches(g, fails, Init(g), other, s') && s'.pc.Returned? && !s'.cancelled
    ensures Statuses(s.st) == Statuses(s'.st) && s.lastErr == s'.lastErr
  {
    var m := OutcomeExists(g, fails);
    Confluence(g, fails, run, s, m);
    Confluence(g, fails, other, s', m);
    Safety(g, fails, run, s);
    Safety(g, fails, other, s');
    forall n | n in s.st ensures s.st[n].status == m[n] == s'.st[n].status {
      assert Statuses(s.st)[n] == m[n] && Statuses(s'.st)[n] == m[n];
    }
  }
}
