// Scheduler.Schedule as the loop it is, run against an environment that moves the stage goroutines (and may
// cancel) before each status that the loop reads. What happens after a last read, before the decision, before
// the test for cancellation or before the pause, is no different from what happens before the next read. The
// loop terminates as soon as every pause lets one active goroutine take a step.
module ScheduleLoop {
  import opened Basics
  import opened Jobs
  import opened StageScheduler
  import opened StageRuns
  import opened StageCancels

  ghost function AtLeast(st: Stages, k: nat): set<string> {
    set n | n in st && Level(st[n]) >= k
  }

  /** How far the stages are from being settled. */
  ghost function Rank(st: Stages): nat {
    |AtLeast(st, 1)| + |AtLeast(st, 2)| + |AtLeast(st, 3)|
  }

  lemma LowerLevelLowersRank(st: Stages, n: string, y: Stage)
    requires n in st && Level(y) < Level(st[n])
    ensures Rank(st[n := y]) < Rank(st)
  {
    var st' := st[n := y];
    forall k: nat | 1 <= k <= 3 ensures |AtLeast(st', k)| <= |AtLeast(st, k)| {
      SubsetSize(AtLeast(st', k), AtLeast(st, k));
    }
    var k := Level(st[n]);
    assert n in AtLeast(st, k) && n !in AtLeast(st', k);
    SubsetSize(AtLeast(st', k), AtLeast(st, k));
  }

  lemma StepLowersRank(g: Graph, fails: set<string>, s: Sys, a: Action)
    requires Inv(g, s) && Enabled(g, fails, s, a)
    ensures var s' := Apply(g, fails, s, a); s'.st == s.st || Rank(s'.st) < Rank(s.st)
  {
    hide Inv, StageInv, Rank;
    InvMeans(g, s);
    var s' := Apply(g, fails, s, a);
    if s'.st != s.st {
      var n := if s.pc.Checking? && (a.ReadDep? || a.Decide?) then s.pc.stage else a.n;
      assert StageInv(g, s.st, n);
      if a.ReadDep? || a.Decide? {
        IdleStatus(g, s.st, n);
      }
      LowerLevelLowersRank(s.st, n, s'.st[n]);
    }
  }

  /**
   * What one or more steps do to the stages: nothing, or they lower the rank. Once canceled, nothing begins that
   * the scan in progress has not still to visit.
   */
  ghost predicate Follows(s: Sys, s': Sys) {
    && (s.cancelled ==> s'.cancelled && Begun(s') <= Begun(s))
    && (s'.st == s.st || Rank(s'.st) < Rank(s.st))
  }

  /** The invariant of the loop, and agreement with the outcome `m` as long as nobody cancels. */
  ghost predicate Good(g: Graph, fails: set<string>, m: map<string, TaskStatus>, s: Sys) {
    Inv(g, s) && (!s.cancelled ==> Agrees(g, fails, m, s))
  }

  lemma StepIsGood(g: Graph, fails: set<string>, m: map<string, TaskStatus>, s: Sys, a: Action)
    requires Good(g, fails, m, s) && Enabled(g, fails, s, a)
    ensures Good(g, fails, m, Apply(g, fails, s, a)) && Follows(s, Apply(g, fails, s, a))
  {
    hide Inv, Agrees;
    StepKeepsInv(g, fails, s, a);
    StepLowersRank(g, fails, s, a);
    if s.cancelled {
      CanceledStep(g, fails, s, a);
    } else {
      StepAgrees(g, fails, m, s, a);
      if a.Cancel? {
        assert Apply(g, fails, s, a).cancelled;
      }
    }
  }

  ghost predicate Quiet(st: Stages) {
    forall n | n in st :: !Active(st[n].phase)
  }

  /** A waiting stage that a check leaves waiting because a dependency is waiting too. */
  ghost predicate Held(g: Graph, st: Stages, n: string) {
    n in g.deps && exists d | d in g.deps[n] :: d in st && st[d].status == Waiting
  }

  lemma HeldBy(g: Graph, st: Stages, n: string) returns (d: string)
    requires Held(g, st, n)
    ensures n in g.deps && d in g.deps[n] && d in st && st[d].status == Waiting
  {
    d :| d in g.deps[n] && d in st && st[d].status == Waiting;
  }

  // In an acyclic graph the first waiting stage is not held.
  lemma {:induction false} FirstWaitingIsFree(g: Graph, st: Stages, t: seq<string>, k: nat)
    requires TaskOrder.IsTopological(g.deps, t) && k < |t|
    requires forall n | n in st && st[n].status == Waiting :: Held(g, st, n)
    ensures t[k] in st ==> st[t[k]].status != Waiting
  {
    hide Held;
    var n := t[k];
    assert n in Elems(t) && g.deps[n] <= Elems(t[..k]);
    if n in st && st[n].status == Waiting {
      var d := HeldBy(g, st, n);
      assert d in t[..k];
      var j :| 0 <= j < k && t[..k][j] == d;
      assert t[j] == d;
      FirstWaitingIsFree(g, st, t, j);
    }
  }

  lemma InactiveIsNotRunning(g: Graph, st: Stages, n: string)
    requires n in st && n in g.deps && g.deps[n] <= st.Keys && StageInv(g, st, n) && !Active(st[n].phase)
    ensures st[n].status != Running
  {
  }

  /** Progress: with nothing running, a scan that held every waiting stage has found no waiting stage. */
  lemma NotAllHeld(g: Graph, s: Sys)
    requires Inv(g, s) && Acyclic(g) && Quiet(s.st)
    requires forall n | n in s.st && s.st[n].status == Waiting :: Held(g, s.st, n)
    ensures forall n | n in s.st :: !Unfinished(s.st[n].status)
  {
    hide Held, StageInv, Inv;
    InvMeans(g, s);
    var t :| TaskOrder.IsTopological(g.deps, t);
    forall n | n in s.st ensures !Unfinished(s.st[n].status) {
      InactiveIsNotRunning(g, s.st, n);
      assert n in Elems(t);
      var k :| 0 <= k < |t| && t[k] == n;
      FirstWaitingIsFree(g, s.st, t, k);
    }
  }

  class Scheduler {
    const g: Graph
    const fails: set<string>
    ghost const m: map<string, TaskStatus>
    var s: Sys

    ghost predicate Valid()
      reads this
    {
      Good(g, fails, m, s)
    }

    constructor (g: Graph, fails: set<string>, ghost m: map<string, TaskStatus>)
      requires IsOutcome(g, fails, m)
      ensures this.g == g && this.fails == fails && this.m == m && s == Init(g) && Valid()
    {
      this.g, this.fails, this.m := g, fails, m;
      s := Init(g);
    }

    method Do(a: Action)
      requires Valid() && Enabled(g, fails, s, a)
      modifies this
      ensures Valid() && s == Apply(g, fails, old(s), a) && Follows(old(s), s)
    {
      StepIsGood(g, fails, m, s, a);
      s := Apply(g, fails, s, a);
    }

    /** One step of the goroutine of some active stage. */
    method GoroutineStep()
      requires Valid() && !Quiet(s.st)
      modifies this
      ensures Valid() && s.pc == old(s.pc) && Follows(old(s), s) && Rank(s.st) < Rank(old(s.st))
    {
      ghost var before := s.st;
      var n :| n in s.st && Active(s.st[n].phase);
      if s.st[n].phase == Failed {
        if n in g.allowed {
          Do(Recover(n));
        } else {
          Do(Report(n));
        }
      } else {
        // The task's own result decides, unless a cancellation has interfered.
        var failed: bool :| failed == (n in fails) || s.cancelled;
        if failed {
          Do(TaskFails(n));
        } else {
          Do(TaskOk(n));
        }
      }
      assert s.st[n] != before[n];
    }

    /** Whatever happens while the loop is between two statements. */
    method Interference()
      requires Valid()
      modifies this
      ensures Valid() && s.pc == old(s.pc) && Follows(old(s), s)
    {
      var cancel: bool := *;
      if cancel {
        Do(Cancel);
      }
      var more: bool := *;
      while more && !forall n | n in s.st :: !Active(s.st[n].phase)
        invariant Valid() && s.pc == old(s.pc) && Follows(old(s), s)
        decreases Rank(s.st)
      {
        GoroutineStep();
        more := *;
      }
    }

    /** isDone: reads the statuses one after the other. */
    method IsDone() returns (done: bool)
      requires Valid() && s.pc == Polling(g.deps.Keys)
      modifies this
      ensures Valid() && Follows(old(s), s)
      ensures done ==> s.pc.Joining?
      ensures !done ==>
        s.pc.TestingCancel? && (s.st == old(s.st) ==> exists n | n in s.st :: Unfinished(s.st[n].status))
    {
      while s.pc.unread != {}
        invariant Valid() && s.pc.Polling? && Follows(old(s), s)
        decreases s.pc.unread
      {
        Interference();
        var n :| n in s.pc.unread;
        InvMeans(g, s);
        ghost var st := s.st;
        Do(ReadDone(n));
        if s.pc.TestingCancel? {
          assert Unfinished(st[n].status);
          return false;
        }
      }
      Do(AllRead);
      return true;
    }

    /** checkStatus looks at one more dependency of the stage. */
    method ReadOneDep()
      requires Valid() && s.pc.Checking? && s.pc.unreadDeps != {}
      modifies this
      ensures Valid() && Follows(old(s), s)
      ensures s.pc.Checking? && s.pc.stage == old(s.pc.stage) && s.pc.rest == old(s.pc.rest)
      ensures s.pc.unreadDeps < old(s.pc.unreadDeps)
      ensures s.st == old(s.st) && Quiet(s.st) && old(s.pc.ready) ==> s.pc.ready || Held(g, s.st, s.pc.stage)
      ensures !old(s.pc.ready) ==> !s.pc.ready
    {
      hide Inv, Agrees, StageInv, Rank, PcInv, SomeFailed, StageMove;
      Interference();
      var d :| d in s.pc.unreadDeps;
      InvMeans(g, s);
      ghost var s0 := s;
      CheckedStage(g, s);
      Do(ReadDep(d));
      if s.st == old(s.st) && Quiet(s.st) && !s.pc.ready && s0.pc.ready {
        HeldByWaiting(g, s0, s0.pc.stage, d);
      }
    }

    /** checkStatus on one waiting stage, and the start of the stage when it is ready. */
    method CheckStage(n: string)
      requires Valid() && s.pc.Scanning? && n in s.pc.unvisited && s.st.Keys == g.deps.Keys
      requires n in s.st && s.st[n].status == Waiting
      modifies this
      ensures Valid() && Follows(old(s), s) && s.pc == Scanning(old(s.pc.unvisited) - {n})
      ensures s.st == old(s.st) && Quiet(s.st) ==> Held(g, s.st, n)
    {
      hide Inv, Agrees, StageInv, Rank, PcInv, SomeFailed, StageMove;
      Do(Visit(n));
      while s.pc.unreadDeps != {}
        invariant Valid() && Follows(old(s), s)
        invariant s.pc.Checking? && s.pc.stage == n && s.pc.rest == old(s.pc.unvisited) - {n}
        invariant s.st == old(s.st) && Quiet(s.st) ==> s.pc.ready || Held(g, s.st, n)
        decreases s.pc.unreadDeps
      {
        ReadOneDep();
      }
      CheckedStage(g, s);
      ghost var ready := s.pc.ready;
      Do(Decide);
      assert ready ==> s.st[n].phase == Executing;
    }

    /** One round of the loop over the stages. */
    method VisitOne() returns (n: string)
      requires Valid() && s.pc.Scanning? && s.pc.unvisited != {} && s.pc.unvisited <= g.deps.Keys == s.st.Keys
      modifies this
      ensures Valid() && Follows(old(s), s) && s.st.Keys == g.deps.Keys
      ensures n in old(s.pc.unvisited) && s.pc == Scanning(old(s.pc.unvisited) - {n})
      ensures s.st == old(s.st) && Quiet(s.st) && s.st[n].status == Waiting ==> Held(g, s.st, n)
    {
      hide Inv, Agrees, StageInv, Rank, PcInv, SomeFailed, StageMove;
      Interference();
      InvMeans(g, s);
      n :| n in s.pc.unvisited;
      if s.st[n].status == Waiting {
        CheckStage(n);
      } else {
        Do(Visit(n));
      }
      InvMeans(g, s);
    }

    method Scan()
      requires Valid() && s.pc == Scanning(g.deps.Keys) && Acyclic(g)
      modifies this
      ensures Valid() && Follows(old(s), s) && s.pc == Polling(g.deps.Keys)
      ensures s.st == old(s.st) && Quiet(s.st) ==> forall n | n in s.st :: !Unfinished(s.st[n].status)
    {
      hide Inv, Agrees, StageInv, Rank, PcInv, SomeFailed, StageMove, Held;
      InvMeans(g, s);
      while s.pc.unvisited != {}
        invariant Valid() && s.pc.Scanning? && Follows(old(s), s) && s.pc.unvisited <= g.deps.Keys == s.st.Keys
        invariant s.st == old(s.st) && Quiet(s.st) ==>
          forall n | n in s.st && n !in s.pc.unvisited && s.st[n].status == Waiting :: Held(g, s.st, n)
        decreases s.pc.unvisited
      {
        var n := VisitOne();
      }
      if s.st == old(s.st) && Quiet(s.st) {
        NotAllHeld(g, s);
      }
      Do(EndScan);
    }

    /** time.Sleep: an active goroutine gets somewhere. */
    method Pause()
      requires Valid()
      modifies this
      ensures Valid() && s.pc == old(s.pc) && Follows(old(s), s)
      ensures s.st == old(s.st) ==> Quiet(s.st)
    {
      if !forall n | n in s.st :: !Active(s.st[n].phase) {
        GoroutineStep();
      }
      Interference();
    }

    /** wg.Wait */
    method Wait()
      requires Valid() && s.pc.Joining?
      modifies this
      ensures Valid() && Follows(old(s), s) && s.pc.Joining? && Quiet(s.st)
    {
      while !forall n | n in s.st :: !Active(s.st[n].phase)
        invariant Valid() && Follows(old(s), s) && s.pc.Joining?
        decreases Rank(s.st)
      {
        GoroutineStep();
      }
    }

    /**
     * Terminates; without a cancellation the stages end as the graph and the task results say, and after a
     * cancellation that came first nothing was started.
     */
    method Schedule() returns (failed: bool)
      requires Valid() && s == Init(g).(cancelled := s.cancelled) && Acyclic(g)
      modifies this
      ensures Valid() && s.pc.Returned?
      ensures forall n | n in s.st :: s.st[n].status != Running
      ensures failed <==> exists n | n in s.st :: s.st[n].status == Error
      ensures !s.cancelled ==> Statuses(s.st) == m
      ensures old(s.cancelled) ==> s.ran == [] && !failed && forall n | n in s.st :: s.st[n].status == Waiting
    {
      while true
        invariant Valid() && s.pc == Polling(g.deps.Keys)
        invariant old(s.cancelled) ==> s.cancelled && Begun(s) == {}
        decreases Rank(s.st)
      {
        ghost var before := s.st;
        var done := IsDone();
        if done {
          break;
        }
        ghost var seen := s.st;
        Do(TestCancel);
        if s.pc.Joining? {
          break;
        }
        Scan();
        ghost var scanned := s.st;
        Pause();
        assert Rank(s.st) < Rank(before) || (before == seen == scanned == s.st);
      }
      Wait();
      Do(Join);
      failed := s.lastErr;
      ReturnedStatuses(g, s);
      if old(s.cancelled) {
        NothingRan(s);
        NothingBegun(g, s);
      }
      if !s.cancelled {
        SettledIsOutcome(g, fails, m, s);
      }
    }
  }

  lemma NothingRan(s: Sys)
    ensures Elems(s.ran) == {} <==> s.ran == []
  {
    if s.ran != [] {
      assert s.ran[0] in Elems(s.ran);
    }
  }

  lemma CheckedStage(g: Graph, s: Sys)
    requires Inv(g, s) && s.pc.Checking?
    ensures s.pc.stage in s.st && s.pc.stage in g.deps
    ensures s.pc.unreadDeps <= g.deps[s.pc.stage] <= s.st.Keys
    ensures s.pc.ready ==> s.st[s.pc.stage].status == Waiting
  {
  }

  // With nothing running, a dependency that neither passes nor blocks is waiting itself.
  lemma HeldByWaiting(g: Graph, s: Sys, n: string, d: string)
    requires Inv(g, s) && s.pc.Checking? && s.pc.stage == n && d in s.pc.unreadDeps && Quiet(s.st)
    requires d in s.st && !Passes(g, d, s.st[d].status) && !Blocks(g, d, s.st[d].status)
    ensures Held(g, s.st, n)
  {
  }

  lemma ReturnedStatuses(g: Graph, s: Sys)
    requires Inv(g, s) && s.pc.Returned?
    ensures forall n | n in s.st :: s.st[n].status != Running
    ensures s.lastErr <==> exists n | n in s.st :: s.st[n].status == Error
  {
  }
}
