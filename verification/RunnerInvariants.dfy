// The invariant of one pipeline over all runs, and the steps that may break it.
//
// A run may schedule, complete, cancel, fire timers, sweep, report tasks, shut down and replace the definitions
// in any order, with any mix of jobs that can and cannot be built.
module RunnerInvariants {
  import opened Definitions
  import opened WaitList
  import opened RunnerState
  import opened Dispatch
  import opened RunnerEvents
  import opened RunnerIndexes
  import opened RunnerArrivals

  /** What runs, or may still run, is in jobsByID and has a definition. */
  ghost predicate Registered(s: State, p: string) {
    forall id | id in s.jobs && s.jobs[id].pipeline == p && (Live(s.jobs[id]) || IsRunning(s.jobs[id])) ::
      id in s.known && s.jobs[id].ticket >= 0 && p in s.defs
  }

  /** Running jobs never exceed the concurrency. */
  ghost predicate Bounded(s: State, p: string) {
    p in s.defs ==> FreeSlots(s, p) >= 0
  }

  /** A free slot means that nothing waiting can be started. */
  ghost predicate Conserving(s: State, p: string) {
    p in s.defs && FreeSlots(s, p) > 0 ==> NoneStartable(s.jobs, ListOf(s.wait, p))
  }

  /** When spawned[j] was started, every earlier undelayed job of its pipeline had been started or canceled. */
  ghost predicate Fifo(s: State, p: string) {
    forall j, a | 0 <= j < |s.spawned| && Earlier(s, p, a, s.spawned[j]) :: NotOvertaken(s, a, j)
  }

  ghost predicate Earlier(s: State, p: string, a: JobId, b: JobId) {
    && a in s.jobs && b in s.jobs && s.jobs[a].pipeline == p && s.jobs[b].pipeline == p
    && 0 <= s.jobs[a].ticket < s.jobs[b].ticket && s.jobs[a].startDelay <= 0
  }

  ghost predicate NotOvertaken(s: State, a: JobId, j: nat)
    requires a in s.jobs && j <= |s.spawned|
  {
    a in s.spawned[..j] || (a !in s.spawned && s.jobs[a].canceled)
  }

  ghost predicate AllBuilt(s: State, p: string) {
    forall id | id in s.jobs && s.jobs[id].pipeline == p && s.jobs[id].ticket >= 0 :: s.jobs[id].builds
  }

  /** Where all jobs build, a job on the wait list has not been started. */
  ghost predicate Separate(s: State, p: string) {
    AllBuilt(s, p) ==> forall id | id in ListOf(s.wait, p) && id in s.jobs :: s.jobs[id].start.None?
  }

  /** Everything but work conservation, which a completion or a timer breaks until the dispatch that follows. */
  ghost predicate PipelineBase(s: State, p: string) {
    Registered(s, p) && Bounded(s, p) && Fifo(s, p) && Separate(s, p)
  }

  ghost predicate PipelineInv(s: State, p: string) {
    PipelineBase(s, p) && Conserving(s, p)
  }

  /** What every sequence of operations keeps. */
  ghost predicate Global(s: State) {
    DefsUsable(s.defs) && Consistent(s) && (s.shutting ==> forall p :: ListOf(s.wait, p) == [])
  }

  ghost predicate Inv(s: State, p: string) {
    Global(s) && PipelineInv(s, p)
  }

  // ---------------------------------------------------------------------------------------------
  // The steps that may break it
  // ---------------------------------------------------------------------------------------------

  /** The job that the request displaces is running. */
  ghost predicate DisplacesRunning(s: State, req: Request) {
    req.pipeline in s.defs &&
    var v := Displaces(s, req); v.Some? && v.value in s.jobs && IsRunning(s.jobs[v.value])
  }

  /**
   * No running job is displaced, or nothing could take the slot that then reads as free: the new job is
   * delayed, and no other one can be started.
   */
  ghost predicate MayQueue(s: State, req: Request) {
    MustWait(s, req) && DisplacesRunning(s, req) ==>
      s.defs[req.pipeline].startDelay > 0 && NoneStartable(s.jobs, ListOf(s.wait, req.pipeline))
  }

  /** Nothing of the pipeline runs, and nothing of it can ever start. */
  ghost predicate AllOver(s: State, p: string) {
    forall id | id in s.jobs && s.jobs[id].pipeline == p :: !Live(s.jobs[id]) && !IsRunning(s.jobs[id])
  }

  /** The new definitions suit what runs and waits: nothing loses its definition, and the slots fit. */
  ghost predicate Suits(s: State, defs: PipelinesMap, p: string) {
    if p in defs then
      && RunningJobs(s, p) <= defs[p].concurrency
      && (RunningJobs(s, p) < defs[p].concurrency ==> NoneStartable(s.jobs, ListOf(s.wait, p)))
    else AllOver(s, p)
  }

  /** What can be seen before an event: requests and definitions for other pipelines never harm this one. */
  ghost predicate Harmless(s: State, e: Event, p: string) {
    match e
    case Schedule(req, _) => req.pipeline == p ==> MayQueue(s, req)
    case Redefine(defs) => Suits(s, defs, p)
    case _ => true
  }

  // ---------------------------------------------------------------------------------------------
  // Steps that concern another pipeline
  // ---------------------------------------------------------------------------------------------

  /** Nothing about the pipeline has changed, and nothing of it was started. */
  ghost predicate Untouched(s: State, s': State, p: string) {
    && s'.defs == s.defs
    && (forall id | id in s.jobs :: id in s'.jobs && s'.jobs[id].pipeline == s.jobs[id].pipeline)
    && (forall id | id in s.jobs && s.jobs[id].pipeline == p :: s'.jobs[id] == s.jobs[id])
    && (forall id | id in s'.jobs && s'.jobs[id].pipeline == p :: id in s.jobs && (id in s.known ==> id in s'.known))
    && ListOf(s'.byPipeline, p) == ListOf(s.byPipeline, p) && ListOf(s'.wait, p) == ListOf(s.wait, p)
    && s.spawned <= s'.spawned
    && (forall id | id in s'.spawned[|s.spawned|..] :: id in s'.jobs && s'.jobs[id].pipeline != p)
  }

  lemma UntouchedTransitive(s: State, s1: State, s2: State, p: string)
    requires Untouched(s, s1, p) && Untouched(s1, s2, p)
    ensures Untouched(s, s2, p)
  {
    var new1, new2 := s1.spawned[|s.spawned|..], s2.spawned[|s1.spawned|..];
    assert s2.spawned[|s.spawned|..] == new1 + new2;
  }

  lemma UntouchedFree(s: State, s': State, p: string)
    requires Untouched(s, s', p) && Consistent(s)
    ensures FreeSlots(s', p) == FreeSlots(s, p)
  {
    hide ConsistentBut;
    ConsistentTidy(s, {}, p);
    CountAgrees(s.jobs, s'.jobs, ListOf(s.byPipeline, p));
  }

  lemma SpawnedElsewhere(s: State, s': State, p: string)
    requires Untouched(s, s', p)
    ensures forall j | |s.spawned| <= j < |s'.spawned| ::
      s'.spawned[j] in s'.jobs && s'.jobs[s'.spawned[j]].pipeline != p
  {
    var new_ := s'.spawned[|s.spawned|..];
    forall j | |s.spawned| <= j < |s'.spawned|
      ensures s'.spawned[j] in s'.jobs && s'.jobs[s'.spawned[j]].pipeline != p
    {
      assert new_[j - |s.spawned|] == s'.spawned[j];
    }
  }

  lemma UntouchedFifo(s: State, s': State, p: string)
    requires Untouched(s, s', p) && Fifo(s, p)
    ensures Fifo(s', p)
  {
    var new_ := s'.spawned[|s.spawned|..];
    assert s'.spawned == s.spawned + new_;
    SpawnedElsewhere(s, s', p);
    forall j, a | 0 <= j < |s'.spawned| && Earlier(s', p, a, s'.spawned[j]) ensures NotOvertaken(s', a, j) {
      assert j < |s.spawned|;
      assert s'.spawned[j] == s.spawned[j];
      assert Earlier(s, p, a, s.spawned[j]) && NotOvertaken(s, a, j);
      assert s'.spawned[..j] == s.spawned[..j];
      assert a !in new_;
    }
  }

  lemma UntouchedInv(s: State, s': State, p: string)
    requires Untouched(s, s', p) && Consistent(s) && PipelineInv(s, p)
    ensures PipelineInv(s', p)
  {
    hide FreeSlots, Fifo, ConsistentBut;
    UntouchedFree(s, s', p);
    UntouchedFifo(s, s', p);
    ConsistentTidy(s, {}, p);
    assert AllBuilt(s', p) <==> AllBuilt(s, p);
  }

  lemma MovesUntouched(s: State, s': State, q: string, now: int, p: string)
    requires Moves(s, s', q, now) && p != q
    ensures Untouched(s, s', p)
  {
    forall id | id in s.jobs ensures s'.jobs[id].pipeline == s.jobs[id].pipeline {
      assert JobMove(s.jobs[id], s'.jobs[id], now);
    }
  }

  lemma EditUntouched(s: State, id: JobId, j: Job, token: bool, p: string)
    requires id in s.jobs && s.jobs[id].pipeline == j.pipeline != p
    ensures Untouched(s, s.(jobs := s.jobs[id := j], token := token), p)
  {
    assert s.spawned[|s.spawned|..] == [];
  }

  lemma CreatedUntouched(s: State, req: Request, now: int, p: string)
    requires req.pipeline in s.defs && req.id !in s.jobs && req.pipeline != p
    ensures Untouched(s, Fresh(s, req, now), p)
  {
    assert s.spawned[|s.spawned|..] == [];
  }
}
