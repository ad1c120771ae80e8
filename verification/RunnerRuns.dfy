// The invariant of one pipeline over whole runs, and what it means for its jobs.
module RunnerRuns {
  import opened Basics
  import opened Definitions
  import opened Jobs
  import opened WaitList
  import opened RunnerState
  import opened Dispatch
  import opened Promotion
  import opened Retention
  import opened RunnerEvents
  import opened RunnerLifecycle
  import opened RunnerIndexes
  import opened RunnerInvariants
  import opened RunnerSteps
  import opened RunnerSchedule

  // ---------------------------------------------------------------------------------------------
  // Completion and timers: one slot, or one job, becomes available
  // ---------------------------------------------------------------------------------------------

  lemma TokenKeepsPipeline(s: State, token: bool, p: string)
    requires PipelineInv(s, p)
    ensures PipelineInv(s.(token := token), p)
  {
    hide FreeSlots;
    FreeIgnoresToken(s, token, p);
    var s' := s.(token := token);
    assert Fifo(s', p) by {
      forall j, a | 0 <= j < |s'.spawned| && Earlier(s', p, a, s'.spawned[j]) ensures NotOvertaken(s', a, j) {
        assert Earlier(s, p, a, s.spawned[j]) && NotOvertaken(s, a, j);
      }
    }
  }

  lemma FreeIgnoresToken(s: State, token: bool, p: string)
    ensures FreeSlots(s.(token := token), p) == FreeSlots(s, p)
  {
  }

  // The dispatch of another pipeline, after one of its jobs has changed.
  lemma DispatchElsewhere(s: State, id: JobId, j: Job, now: int, p: string)
    requires Consistent(s) && id in s.jobs && Edit(s.jobs[id], j) && j.pipeline != p
    ensures Untouched(s, StartJobsOnWaitList(Edited(s, id, j, s.token), j.pipeline, now), p)
  {
    hide ConsistentBut, StartJobsOnWaitList, Moves, KeepsLive, Untouched;
    var s1, q := Edited(s, id, j, s.token), j.pipeline;
    EditPipeline(s.jobs[id], j);
    EditedConsistent(s, id, j, s.token);
    ConsistentTidy(s1, {}, q);
    EditUntouched(s, id, j, s.token, p);
    WaitListMoves(s1, q, now);
    MovesUntouched(s1, StartJobsOnWaitList(s1, q, now), q, now, p);
    UntouchedTransitive(s, s1, StartJobsOnWaitList(s1, q, now), p);
  }

  lemma CompleteKeepsInv(s: State, id: JobId, err: Option<string>, ctxCanceled: bool, now: int, p: string)
    requires Inv(s, p) && Enabled(s, Complete(id, err, ctxCanceled, now))
    ensures Inv(JobCompleted(s, id, err, ctxCanceled, now), p)
  {
    hide FreeSlots, PipelineInv, StartJobsOnWaitList, Consistent;
    var j := CompletedJob(s.jobs[id], err, ctxCanceled, now);
    var s1 := Edited(s, id, j, s.token);
    StepKeepsGlobal(s, Complete(id, err, ctxCanceled, now));
    SpawnedStarted(s, id);
    if j.pipeline == p {
      CompletedDispatch(s, id, j, now);
    } else {
      DispatchElsewhere(s, id, j, now, p);
      UntouchedInv(s, StartJobsOnWaitList(s1, j.pipeline, now), p);
    }
    TokenKeepsPipeline(StartJobsOnWaitList(s1, j.pipeline, now), true, p);
  }

  lemma SpawnedStarted(s: State, id: JobId)
    requires Consistent(s) && id in s.spawned
    ensures id in s.jobs && s.jobs[id].start.Some? && s.jobs[id].ticket >= 0
  {
  }

  lemma CompletedDispatch(s: State, id: JobId, j: Job, now: int)
    requires Consistent(s) && PipelineInv(s, j.pipeline) && id in s.jobs && Edit(s.jobs[id], j) && !CanBeStarted(j)
    ensures var s1 := Edited(s, id, j, s.token); var s' := StartJobsOnWaitList(s1, j.pipeline, now);
      PipelineInv(s', j.pipeline) && s' == Promote(s1, j.pipeline, now)
  {
    hide FreeSlots, PipelineBase, StartJobsOnWaitList, Consistent, Promote;
    var s1, p := Edited(s, id, j, s.token), j.pipeline;
    EditedConsistent(s, id, j, s.token);
    EditedBase(s, id, j, s.token);
    EditedCount(s, id, j, s.token);
    SlotsAre(s, p);
    AfterCompletion(s, s1, p, id);
    DispatchRestores(s1, p, now);
  }

  // One slot at most is free now: otherwise one was free before, and nothing could be started.
  lemma AfterCompletion(s: State, s1: State, p: string, id: JobId)
    requires Conserving(s, p) && id in s.jobs && s1.jobs.Keys == s.jobs.Keys && s1.wait == s.wait && s1.defs == s.defs
    requires forall x | x in s.jobs && x != id :: s1.jobs[x] == s.jobs[x]
    requires !CanBeStarted(s1.jobs[id])
    requires FreeSlots(s1, p) <= FreeSlots(s, p) + 1
    requires p !in s.defs ==> FreeSlots(s, p) <= 0
    ensures FreeSlots(s1, p) <= 1 || AtMostOneStartable(s1.jobs, ListOf(s1.wait, p))
  {
  }

  lemma TimerKeepsInv(s: State, id: JobId, now: int, p: string)
    requires Inv(s, p)
    ensures Inv(StartDelayedJob(s, id, now), p)
  {
    hide FreeSlots, PipelineInv, StartJobsOnWaitList, Consistent;
    StepKeepsGlobal(s, TimerFired(id, now));
    if id in s.known && id in s.jobs && !s.jobs[id].canceled {
      var j := s.jobs[id].(timer := false);
      if j.pipeline == p {
        TimerDispatch(s, id, j, now);
      } else {
        DispatchElsewhere(s, id, j, now, p);
        UntouchedInv(s, StartDelayedJob(s, id, now), p);
      }
    }
  }

  lemma TimerDispatch(s: State, id: JobId, j: Job, now: int)
    requires Consistent(s) && PipelineInv(s, j.pipeline) && id in s.jobs && j == s.jobs[id].(timer := false)
    ensures var s1 := Edited(s, id, j, s.token); var s' := StartJobsOnWaitList(s1, j.pipeline, now);
      PipelineInv(s', j.pipeline) && s' == Promote(s1, j.pipeline, now)
  {
    hide FreeSlots, PipelineBase, StartJobsOnWaitList, Consistent, Promote;
    var s1, p := Edited(s, id, j, s.token), j.pipeline;
    EditedConsistent(s, id, j, s.token);
    EditedBase(s, id, j, s.token);
    EditedCount(s, id, j, s.token);
    SlotsAre(s, p);
    ConsistentOrdered(s, p);
    AfterTimer(s, s1, p, id);
    DispatchRestores(s1, p, now);
  }

  // At most the job whose timer fired can be started: otherwise the pipeline was full before.
  lemma AfterTimer(s: State, s1: State, p: string, id: JobId)
    requires Conserving(s, p) && Ordered(s, p) && id in s.jobs
    requires s1.jobs.Keys == s.jobs.Keys && s1.wait == s.wait && s1.defs == s.defs
    requires forall x | x in s.jobs && x != id :: s1.jobs[x] == s.jobs[x]
    requires FreeSlots(s1, p) == FreeSlots(s, p)
    requires p !in s.defs ==> FreeSlots(s, p) <= 0
    ensures FreeSlots(s1, p) <= 1 || AtMostOneStartable(s1.jobs, ListOf(s1.wait, p))
  {
  }

  // ---------------------------------------------------------------------------------------------
  // Cancellation and callbacks
  // ---------------------------------------------------------------------------------------------

  lemma CancelKeepsInv(s: State, id: JobId, p: string)
    requires Inv(s, p)
    ensures Inv(CancelJob(s, id), p)
  {
    hide Inv;
    if id in s.known && id in s.jobs && !s.jobs[id].canceled && !s.jobs[id].completed && s.jobs[id].start.None? {
      EditKeepsInv(s, id, MarkAsCanceled(s.jobs[id]), true, p);
    }
  }

  lemma TaskChangeKeepsInv(s: State, id: JobId, name: string, r: TaskReport, p: string)
    requires Inv(s, p)
    ensures Inv(HandleTaskChange(s, id, name, r), p)
  {
    hide Inv, ReportedJob, CancelJob, TaskErrored, FailFast;
    if TaskKnown(s, id, name) {
      var j := ReportedJob(s.jobs[id], name, r);
      ReportKeeps(s.jobs[id], name, r);
      EditKeepsInv(s, id, j, true, p);
      CancelKeepsInv(Edited(s, id, j, true), id, p);
    }
  }

  lemma StageChangeKeepsInv(s: State, id: JobId, name: string, status: TaskStatus, p: string)
    requires Inv(s, p)
    ensures Inv(HandleStageChange(s, id, name, status), p)
  {
    hide Inv;
    if TaskKnown(s, id, name) {
      var assign := (t: JobTask) => t.(status := if t.canceled then TaskStatus.Canceled else status);
      EditKeepsInv(s, id, SetTask(s.jobs[id], name, assign), true, p);
      assert HandleStageChange(s, id, name, status) ==
        Edited(s, id, HandleStageChange(s, id, name, status).jobs[id], true);
      EditKeepsInv(s, id, HandleStageChange(s, id, name, status).jobs[id], true, p);
    }
  }

  // ---------------------------------------------------------------------------------------------
  // Steps that concern all pipelines: shutdown, the retention sweep and new definitions
  // ---------------------------------------------------------------------------------------------

  lemma ShutdownKeepsInv(s: State, p: string)
    requires Inv(s, p)
    ensures Inv(Shutdown(s), p)
  {
    hide FreeSlots, Fifo, Registered, Separate, Shutdown, Consistent;
    StepKeepsGlobal(s, StopAll);
    ShutdownLists(s, p);
    ShutdownFifo(s, p);
    ShutdownCount(s, p);
    ShutdownSettings(s, p);
  }

  lemma ShutdownSettings(s: State, p: string)
    ensures Shutdown(s).defs == s.defs && ListOf(Shutdown(s).wait, p) == []
  {
  }

  lemma ShutdownLists(s: State, p: string)
    requires Registered(s, p)
    ensures Registered(Shutdown(s), p) && Separate(Shutdown(s), p)
  {
  }

  lemma ShutdownFifo(s: State, p: string)
    requires Fifo(s, p)
    ensures Fifo(Shutdown(s), p)
  {
    var s' := Shutdown(s);
    forall j, a | 0 <= j < |s'.spawned| && Earlier(s', p, a, s'.spawned[j]) ensures NotOvertaken(s', a, j) {
      assert Earlier(s, p, a, s.spawned[j]) && NotOvertaken(s, a, j);
    }
  }

  lemma ShutdownCount(s: State, p: string)
    ensures FreeSlots(Shutdown(s), p) >= FreeSlots(s, p)
  {
    CountShrinks(s.jobs, Shutdown(s).jobs, ListOf(s.byPipeline, p));
  }

  lemma SaveKeepsInv(s: State, rankings: map<string, seq<JobId>>, now: int, p: string)
    requires Inv(s, p) && RankingsFor(s, rankings)
    ensures Inv(Sweep(s, rankings, now), p)
  {
    hide FreeSlots, SweepList, RemovedIds, Consistent, Registered, IsRanking, Fifo;
    var s' := Sweep(s, rankings, now);
    StepKeepsGlobal(s, Save(rankings, now));
    SweepFifo(s, rankings, now, p);
    SweepRegistered(s, rankings, now, p);
    SweepCount(s, rankings, now, p);
    assert AllBuilt(s', p) <==> AllBuilt(s, p);
  }

  lemma UnfinishedStayKnown(s: State, rankings: map<string, seq<JobId>>, now: int, p: string, id: JobId)
    requires Consistent(s) && RankingsFor(s, rankings)
    requires id in s.known && s.jobs[id].pipeline == p && p in s.defs && !Finished(s.jobs[id])
    ensures id in Sweep(s, rankings, now).known
  {
    hide ConsistentBut, IsRanking;
    ConsistentTidy(s, {}, p);
    var list := ListOf(s.byPipeline, p);
    assert id in list && p in s.byPipeline;
    assert IsRanking(s.jobs, s.byPipeline[p], rankings[p]);
    UnfinishedSurvive(s.defs, s.jobs, p, list, rankings[p], now, id);
    SweepListed(s, rankings, now, p);
  }

  lemma SweepRegistered(s: State, rankings: map<string, seq<JobId>>, now: int, p: string)
    requires Consistent(s) && Registered(s, p) && RankingsFor(s, rankings)
    ensures Registered(Sweep(s, rankings, now), p)
  {
    hide ConsistentBut, SweepList, RemovedIds, IsRanking;
    forall id | id in s.jobs && s.jobs[id].pipeline == p && (Live(s.jobs[id]) || IsRunning(s.jobs[id]))
      ensures id in Sweep(s, rankings, now).known
    {
      UnfinishedStayKnown(s, rankings, now, p, id);
    }
  }

  lemma SweepCount(s: State, rankings: map<string, seq<JobId>>, now: int, p: string)
    requires Consistent(s) && RankingsFor(s, rankings)
    ensures p in s.defs ==> FreeSlots(Sweep(s, rankings, now), p) == FreeSlots(s, p)
  {
    hide ConsistentBut;
    ConsistentTidy(s, {}, p);
    if p in s.byPipeline && p in s.defs {
      assert IsRanking(s.jobs, s.byPipeline[p], rankings[p]);
      SweepKeepsCount(s.defs, s.jobs, p, s.byPipeline[p], rankings[p], now);
    }
  }

  lemma SweepFifo(s: State, rankings: map<string, seq<JobId>>, now: int, p: string)
    requires Fifo(s, p) && RankingsFor(s, rankings)
    ensures Fifo(Sweep(s, rankings, now), p)
  {
    hide IsRanking;
    var s' := Sweep(s, rankings, now);
    forall j, a | 0 <= j < |s'.spawned| && Earlier(s', p, a, s'.spawned[j]) ensures NotOvertaken(s', a, j) {
      assert Earlier(s, p, a, s.spawned[j]) && NotOvertaken(s, a, j);
    }
  }

  /** New definitions keep the invariant exactly when they suit what runs and waits. */
  lemma RedefineKeepsInvIff(s: State, defs: PipelinesMap, p: string)
    requires Inv(s, p) && DefsUsable(defs)
    ensures Inv(ReplaceDefinitions(s, defs), p) <==> Suits(s, defs, p)
  {
    hide Consistent, Fifo, RunningJobs;
    var s' := ReplaceDefinitions(s, defs);
    StepKeepsGlobal(s, Redefine(defs));
    RedefineFifo(s, defs, p);
    RedefineCounts(s, defs, p);
    assert AllBuilt(s', p) <==> AllBuilt(s, p);
  }

  lemma RedefineFifo(s: State, defs: PipelinesMap, p: string)
    requires Fifo(s, p)
    ensures Fifo(ReplaceDefinitions(s, defs), p)
  {
    var s' := ReplaceDefinitions(s, defs);
    forall j, a | 0 <= j < |s'.spawned| && Earlier(s', p, a, s'.spawned[j]) ensures NotOvertaken(s', a, j) {
      assert Earlier(s, p, a, s.spawned[j]) && NotOvertaken(s, a, j);
    }
  }

  lemma RedefineCounts(s: State, defs: PipelinesMap, p: string)
    ensures RunningJobs(ReplaceDefinitions(s, defs), p) == RunningJobs(s, p)
  {
  }

  // ---------------------------------------------------------------------------------------------
  // Every step
  // ---------------------------------------------------------------------------------------------

  /** Every operation keeps the invariant of a pipeline, except exactly those that can be seen to harm it. */
  lemma StepKeepsInvIff(s: State, e: Event, p: string)
    requires Inv(s, p) && Enabled(s, e)
    ensures Inv(Next(s, e), p) <==> Harmless(s, e, p)
  {
    hide Global, PipelineInv, MayQueue, Suits, RankingsFor, ScheduleAsync, JobCompleted, StartDelayedJob, Sweep,
      HandleTaskChange, HandleStageChange, CancelJob, Shutdown;
    GlobalUsable(s);
    match e
    case Schedule(req, now) => ScheduleKeepsInvIff(s, req, now, p);
    case Complete(id, err, ctxCanceled, now) => CompleteKeepsInv(s, id, err, ctxCanceled, now, p);
    case CancelRequest(id) => CancelKeepsInv(s, id, p);
    case TimerFired(id, now) => TimerKeepsInv(s, id, now, p);
    case Save(rankings, now) => SaveKeepsInv(s, rankings, now, p);
    case TaskChange(id, name, report) => TaskChangeKeepsInv(s, id, name, report, p);
    case StageChange(id, name, status) => StageChangeKeepsInv(s, id, name, status, p);
    case StopAll => ShutdownKeepsInv(s, p);
    case Redefine(defs) => RedefineKeepsInvIff(s, defs, p);
  }

  lemma GlobalUsable(s: State)
    requires Global(s)
    ensures DefsUsable(s.defs)
  {
  }

  lemma InitialInv(s: State, p: string)
    requires Initial(s)
    ensures Inv(s, p)
  {
    hide Consistent;
    InitialConsistent(s);
    NothingRuns(s.jobs, ListOf(s.byPipeline, p));
  }

  // ---------------------------------------------------------------------------------------------
  // Runs
  // ---------------------------------------------------------------------------------------------

  /** A run in which each event is possible when it happens and does not harm the pipeline. */
  ghost predicate Run(s: State, events: seq<Event>, s': State, p: string)
    decreases |events|
  {
    if events == [] then s == s'
    else
      && DefsUsable(s.defs) && Enabled(s, events[0]) && Harmless(s, events[0], p)
      && Run(Next(s, events[0]), events[1..], s', p)
  }

  lemma {:induction false} RunKeepsInv(s: State, events: seq<Event>, s': State, p: string)
    requires Inv(s, p) && Run(s, events, s', p)
    ensures Inv(s', p)
    decreases |events|
  {
    hide Inv, Harmless;
    if events != [] {
      StepKeepsInvIff(s, events[0], p);
      RunKeepsInv(Next(s, events[0]), events[1..], s', p);
    }
  }

  /** The invariant holds at every lock-free point of a sequence of operations. */
  ghost predicate HoldsThroughout(s: State, events: seq<Event>, p: string)
    decreases |events|
  {
    Inv(s, p) && (events != [] && DefsUsable(s.defs) && Enabled(s, events[0]) ==>
      HoldsThroughout(Next(s, events[0]), events[1..], p))
  }

  /** The invariant of a pipeline holds throughout a sequence of operations exactly when no event harms it. */
  lemma {:induction false} HoldsThroughoutIff(s: State, events: seq<Event>, s': State, p: string)
    requires Inv(s, p) && AnyRun(s, events, s')
    ensures HoldsThroughout(s, events, p) <==> Run(s, events, s', p)
    decreases |events|
  {
    hide Inv, Harmless;
    if events != [] {
      StepKeepsInvIff(s, events[0], p);
      if Inv(Next(s, events[0]), p) {
        HoldsThroughoutIff(Next(s, events[0]), events[1..], s', p);
      }
    }
  }

  // ---------------------------------------------------------------------------------------------
  // What holds at every lock-free point of such a run
  // ---------------------------------------------------------------------------------------------

  /** Running jobs never exceed the concurrency, and a free slot means that no waiting job can be started. */
  lemma BoundAndWorkConservation(s0: State, events: seq<Event>, s: State, p: string)
    requires Initial(s0) && Run(s0, events, s, p) && p in s.defs
    ensures RunningJobs(s, p) <= s.defs[p].concurrency
    ensures RunningJobs(s, p) < s.defs[p].concurrency ==>
      forall id | id in ListOf(s.wait, p) :: id in s.jobs && !CanBeStarted(s.jobs[id])
  {
    hide ConsistentBut;
    InitialInv(s0, p);
    RunKeepsInv(s0, events, s, p);
    ConsistentTidy(s, {}, p);
  }

  function Occurrences(list: seq<JobId>, id: JobId): nat {
    multiset(list)[id]
  }

  /**
   * Conservation: a job is exactly one of live (on its wait list exactly once), running and ended; where
   * all jobs build, a started job is on no wait list.
   */
  lemma Conservation(s0: State, events: seq<Event>, s: State, id: JobId)
    requires Initial(s0) && id in s.jobs && Run(s0, events, s, s.jobs[id].pipeline)
    ensures var j := s.jobs[id];
      && (Live(j) ==> !IsRunning(j) && !Ended(j) && Occurrences(ListOf(s.wait, j.pipeline), id) == 1 && id in s.known)
      && (IsRunning(j) ==> !Ended(j) && id in s.spawned && id in s.known)
      && (Live(j) || IsRunning(j) || Ended(j))
      && (AllBuilt(s, j.pipeline) && j.start.Some? ==> forall p :: id !in ListOf(s.wait, p))
  {
    hide FreeSlots, Fifo;
    var j := s.jobs[id];
    InitialInv(s0, j.pipeline);
    RunKeepsInv(s0, events, s, j.pipeline);
    assert Tidy(s, j.pipeline, {});
    if Live(j) {
      OrderedNoDup(s, j.pipeline);
      CountOnce(ListOf(s.wait, j.pipeline), id);
    }
    forall p | id in ListOf(s.wait, p) ensures p == j.pipeline {
      assert Tidy(s, p, {});
    }
  }

  /**
   * FIFO: whatever the queue strategy, an undelayed job that was scheduled before another one of its
   * pipeline and is started at all is started before it.
   */
  lemma FirstInFirstOut(s0: State, events: seq<Event>, s: State, p: string, i: nat, j: nat)
    requires Initial(s0) && Run(s0, events, s, p) && i < |s.spawned| && j < |s.spawned|
    requires var a, b := s.spawned[i], s.spawned[j];
      a in s.jobs && b in s.jobs && s.jobs[a].pipeline == s.jobs[b].pipeline == p
      && s.jobs[a].ticket < s.jobs[b].ticket && s.jobs[a].startDelay <= 0
    ensures i < j
  {
    hide FreeSlots, Tidy;
    InitialInv(s0, p);
    RunKeepsInv(s0, events, s, p);
    var a, b := s.spawned[i], s.spawned[j];
    assert a in s.spawned && s.jobs[a].ticket >= 0;
    assert Earlier(s, p, a, b) && NotOvertaken(s, a, j);
    var k :| 0 <= k < j && s.spawned[..j][k] == a;
    assert s.spawned[k] == a && s.spawned[i] == a;
  }
}
