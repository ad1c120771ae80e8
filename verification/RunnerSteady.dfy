// Pipelines whose definition stays: on append and replace queues, and on partitioned ones whose partitions do
// not mix, no running job is ever displaced, so nothing harms the invariant.
module RunnerSteady {
  import opened Basics
  import opened Definitions
  import opened WaitList
  import opened RunnerState
  import opened Dispatch
  import opened Promotion
  import opened Retention
  import opened RunnerEvents
  import opened RunnerLifecycle
  import opened RunnerIndexes
  import opened RunnerLanes
  import opened RunnerArrivals
  import opened RunnerInvariants
  import opened RunnerSteps
  import opened RunnerSchedule
  import opened RunnerRuns

  // ---------------------------------------------------------------------------------------------
  // No step gives a started job the last slot of a queue
  // ---------------------------------------------------------------------------------------------

  /** A request for the pipeline may join the jobs that wait there. */
  ghost predicate Joins(s: State, e: Event, p: string) {
    e.Schedule? && e.req.pipeline == p ==> MayJoin(s, e.req)
  }

  lemma DispatchKeepsLanes(s: State, p: string, now: int)
    requires Consistent(s) && PipelineBase(s, p) && Lanes(s, p)
    requires FreeSlots(s, p) <= 1 || AtMostOneStartable(s.jobs, ListOf(s.wait, p))
    ensures Lanes(StartJobsOnWaitList(s, p, now), p)
  {
    hide FreeSlots, PipelineBase, Consistent, Lanes, Promote, StartJobsOnWaitList;
    ConsistentOrdered(s, p);
    DispatchRestores(s, p, now);
    if FreeSlots(s, p) > 0 {
      PromoteLanes(s, p, now);
    } else {
      PromoteFull(s, p, now);
    }
  }

  lemma EditKeepsLanes(s: State, id: JobId, j: Job, token: bool, p: string)
    requires Consistent(s) && Lanes(s, p) && id in s.jobs && Edit(s.jobs[id], j)
    ensures Lanes(Edited(s, id, j, token), p)
  {
    hide ConsistentBut, Lanes;
    ConsistentTidy(s, {}, p);
    SameLanes(s, Edited(s, id, j, token), p);
  }

  lemma UntouchedLanes(s: State, s': State, p: string)
    requires Consistent(s) && Untouched(s, s', p) && Lanes(s, p)
    ensures Lanes(s', p)
  {
    hide ConsistentBut, Lanes;
    ConsistentTidy(s, {}, p);
    SameLanes(s, s', p);
  }

  lemma CompleteKeepsLanes(s: State, id: JobId, err: Option<string>, ctxCanceled: bool, now: int, p: string)
    requires Inv(s, p) && Lanes(s, p) && Enabled(s, Complete(id, err, ctxCanceled, now))
    ensures Lanes(JobCompleted(s, id, err, ctxCanceled, now), p)
  {
    hide FreeSlots, PipelineBase, Consistent, Lanes, StartJobsOnWaitList, Untouched;
    var j := CompletedJob(s.jobs[id], err, ctxCanceled, now);
    var s1, q := Edited(s, id, j, s.token), s.jobs[id].pipeline;
    SpawnedStarted(s, id);
    if q == p {
      EditedConsistent(s, id, j, s.token);
      EditedBase(s, id, j, s.token);
      EditedCount(s, id, j, s.token);
      SlotsAre(s, p);
      AfterCompletion(s, s1, p, id);
      EditKeepsLanes(s, id, j, s.token, p);
      DispatchKeepsLanes(s1, p, now);
    } else {
      DispatchElsewhere(s, id, j, now, p);
      UntouchedLanes(s, StartJobsOnWaitList(s1, q, now), p);
    }
    TokenKeepsLanes(StartJobsOnWaitList(s1, q, now), true, p);
  }

  lemma TokenKeepsLanes(s: State, token: bool, p: string)
    requires Lanes(s, p)
    ensures Lanes(s.(token := token), p)
  {
    var s' := s.(token := token);
    assert forall q | p in s.defs :: LaneOf(s', p, q) == LaneOf(s, p, q);
  }

  lemma TimerKeepsLanes(s: State, id: JobId, now: int, p: string)
    requires Inv(s, p) && Lanes(s, p)
    ensures Lanes(StartDelayedJob(s, id, now), p)
  {
    hide FreeSlots, PipelineBase, Consistent, Lanes, StartJobsOnWaitList, Untouched;
    if id in s.known && id in s.jobs && !s.jobs[id].canceled {
      var j, q := s.jobs[id].(timer := false), s.jobs[id].pipeline;
      var s1 := Edited(s, id, j, s.token);
      if q == p {
        EditedConsistent(s, id, j, s.token);
        EditedBase(s, id, j, s.token);
        EditedCount(s, id, j, s.token);
        SlotsAre(s, p);
        ConsistentOrdered(s, p);
        AfterTimer(s, s1, p, id);
        EditKeepsLanes(s, id, j, s.token, p);
        DispatchKeepsLanes(s1, p, now);
      } else {
        DispatchElsewhere(s, id, j, now, p);
        UntouchedLanes(s, StartDelayedJob(s, id, now), p);
      }
    }
  }

  // The new job takes the last slot, waiting; nobody else moves up.
  lemma QueuedLanesKept(s: State, req: Request, now: int)
    requires Consistent(s) && DefsUsable(s.defs) && MustWait(s, req) && Lanes(s, req.pipeline) && MayJoin(s, req)
    ensures Lanes(ScheduleAsync(s, req, now), req.pipeline)
  {
    hide FreeSlots, ConsistentBut, ScheduleAsync, Enqueue, LaneOf, Roomy, Displaces, Refusal, Usable, LimitReady;
    var p, s2 := req.pipeline, ScheduleAsync(s, req, now);
    Queues(s, req, now);
    QueuedIs(s, req, now);
    ConsistentTidy(s, {}, p);
    if !s.defs[p].queueStrategy.Append? {
      forall q ensures Roomy(s2.jobs, LaneOf(s2, p, q), Slots(s.defs[p])) {
        var v := EnqueuedLane(s, req, now, q);
        assert Roomy(s.jobs, LaneOf(s, p, q), Slots(s.defs[p]));
        assert Roomy(s.jobs, LaneOf(s, p, req.partition), Slots(s.defs[p]));
        RoomyReplace(s.jobs, s2.jobs, LaneOf(s, p, req.partition), Slots(s.defs[p]), req.id);
        RoomyStays(s.jobs, s2.jobs, LaneOf(s, p, q), Slots(s.defs[p]));
      }
    }
  }

  lemma SettledKeepsLanes(s: State, req: Request, s2: State, now: int)
    requires Consistent(s) && req.id !in s.jobs && Settled(s, req, now, s2) && Lanes(s, req.pipeline)
    ensures Lanes(s2, req.pipeline)
  {
    hide ConsistentBut, Lanes;
    ConsistentTidy(s, {}, req.pipeline);
    SameLanes(s, s2, req.pipeline);
  }

  lemma DirectKeepsLanes(s: State, req: Request, now: int)
    requires Consistent(s) && PipelineInv(s, req.pipeline) && req.id !in s.jobs && req.pipeline in s.defs
    requires FreeSlots(s, req.pipeline) > 0 && Lanes(s, req.pipeline)
    ensures Lanes(StartJob(Fresh(s, req, now), req.id, now), req.pipeline)
  {
    hide FreeSlots, PipelineBase, Consistent, Lanes, StartJobsOnWaitList;
    var s1 := Fresh(s, req, now);
    if req.builds {
      SettledKeepsLanes(s, req, Started(s1, req.id, now), now);
    } else {
      var s2 := Unbuildable(s1, req.id);
      SettledKeepsLanes(s, req, s2, now);
      FailedBase(s, req, now);
      DispatchKeepsLanes(s2, req.pipeline, now);
    }
  }

  lemma ScheduleKeepsLanes(s: State, req: Request, now: int, p: string)
    requires Inv(s, p) && Lanes(s, p) && req.id !in s.jobs && (req.pipeline == p ==> MayJoin(s, req))
    ensures Lanes(ScheduleAsync(s, req, now), p)
  {
    hide FreeSlots, Consistent, ScheduleAsync, PipelineInv, Refusal, Lanes, MayJoin, Untouched, StartJob, LimitReady;
    if Refusal(s, req.pipeline).Some? {
      Refused(s, req, now);
    } else if req.pipeline != p {
      ScheduleElsewhere(s, req, now, p);
      UntouchedLanes(s, ScheduleAsync(s, req, now), p);
    } else if MustWait(s, req) {
      QueuedLanesKept(s, req, now);
    } else {
      StartsAtOnce(s, req, now);
      DirectKeepsLanes(s, req, now);
    }
  }

  lemma CancelKeepsLanes(s: State, id: JobId, p: string)
    requires Consistent(s) && Lanes(s, p)
    ensures Lanes(CancelJob(s, id), p)
  {
    hide Consistent, Lanes;
    if id in s.known && id in s.jobs && !s.jobs[id].canceled && !s.jobs[id].completed && s.jobs[id].start.None? {
      EditKeepsLanes(s, id, MarkAsCanceled(s.jobs[id]), true, p);
    }
  }

  lemma TaskChangeKeepsLanes(s: State, id: JobId, name: string, r: TaskReport, p: string)
    requires Consistent(s) && Lanes(s, p)
    ensures Lanes(HandleTaskChange(s, id, name, r), p)
  {
    hide Consistent, Lanes, ReportedJob, CancelJob, TaskErrored, FailFast;
    if TaskKnown(s, id, name) {
      var j := ReportedJob(s.jobs[id], name, r);
      ReportKeeps(s.jobs[id], name, r);
      EditKeepsLanes(s, id, j, true, p);
      EditedConsistent(s, id, j, true);
      CancelKeepsLanes(Edited(s, id, j, true), id, p);
    }
  }

  // Task states, the sweep and other definitions do not move anybody.
  lemma StillKeepsLanes(s: State, s': State, p: string)
    requires Consistent(s) && Lanes(s, p) && SameDef(s, s', p) && s'.wait == s.wait && s'.jobs.Keys == s.jobs.Keys
    requires forall id | id in s.jobs :: SameLane(s.jobs[id], s'.jobs[id])
    ensures Lanes(s', p)
  {
    hide ConsistentBut, Lanes;
    ConsistentTidy(s, {}, p);
    SameLanes(s, s', p);
  }

  /** Every operation keeps started jobs off the last slots, as long as partitions do not mix. */
  lemma StepKeepsLanes(s: State, e: Event, p: string)
    requires Inv(s, p) && Lanes(s, p) && Enabled(s, e) && KeepsDef(s, e, p) && Joins(s, e, p)
    ensures Lanes(Next(s, e), p)
  {
    hide Consistent, PipelineInv, Lanes, MayJoin, RankingsFor, ScheduleAsync, JobCompleted, StartDelayedJob,
      HandleTaskChange, CancelJob, SweepList, RemovedIds;
    match e
    case Schedule(req, now) => ScheduleKeepsLanes(s, req, now, p);
    case Complete(id, err, ctxCanceled, now) => CompleteKeepsLanes(s, id, err, ctxCanceled, now, p);
    case CancelRequest(id) => CancelKeepsLanes(s, id, p);
    case TimerFired(id, now) => TimerKeepsLanes(s, id, now, p);
    case TaskChange(id, name, report) => TaskChangeKeepsLanes(s, id, name, report, p);
    case StopAll => NoLanes(Next(s, e), p);
    case _ => StillKeepsLanes(s, Next(s, e), p);
  }

  // ---------------------------------------------------------------------------------------------
  // So nothing harms the invariant
  // ---------------------------------------------------------------------------------------------

  /** The job that an arrival displaces holds the last slot of its queue, so it has not been started. */
  lemma VictimNotStarted(s: State, req: Request)
    requires Lanes(s, req.pipeline) && req.pipeline in s.defs
    ensures var v := Displaces(s, req); v.Some? && v.value in s.jobs ==> s.jobs[v.value].start.None?
  {
    hide LaneOf;
    var def := s.defs[req.pipeline];
    if !def.queueStrategy.Append? {
      assert Roomy(s.jobs, LaneOf(s, req.pipeline, req.partition), Slots(def));
      VictimWaits(s.jobs, LaneOf(s, req.pipeline, req.partition), Slots(def));
    }
  }

  /**
   * When new definitions harm a pipeline: never one that had no definition; one that loses it unless all its
   * jobs are over; a lower concurrency exactly if more jobs run than it allows; a higher one exactly if a job
   * waits that could be started.
   */
  lemma NewDefinitionsSuitIff(s: State, defs: PipelinesMap, p: string)
    requires Inv(s, p) && DefsUsable(defs)
    ensures Suits(s, defs, p) <==>
      if p !in s.defs then true
      else if p !in defs then AllOver(s, p)
      else if defs[p].concurrency <= s.defs[p].concurrency then RunningJobs(s, p) <= defs[p].concurrency
      else NoneStartable(s.jobs, ListOf(s.wait, p))
  {
    hide Fifo, Separate, Consistent, RunningJobs;
    SlotsAre(s, p);
    if p !in s.defs {
      UndefinedIsOver(s, p);
    }
  }

  lemma UndefinedIsOver(s: State, p: string)
    requires Inv(s, p) && p !in s.defs
    ensures AllOver(s, p) && RunningJobs(s, p) == 0 && NoneStartable(s.jobs, ListOf(s.wait, p))
  {
    hide Fifo, Separate, ConsistentBut;
    ConsistentTidy(s, {}, p);
    CountAgrees(s.jobs, map[], ListOf(s.byPipeline, p));
    NothingRuns(map[], ListOf(s.byPipeline, p));
  }

  /** New definitions that leave the concurrency of a pipeline as it is suit it. */
  lemma SameConcurrencySuits(s: State, defs: PipelinesMap, p: string)
    requires Inv(s, p) && (p in defs <==> p in s.defs) && (p in defs ==> defs[p].concurrency == s.defs[p].concurrency)
    ensures Suits(s, defs, p)
  {
    hide Consistent;
    SlotsAre(s, p);
  }

  lemma SteadyIsHarmless(s: State, e: Event, p: string)
    requires Inv(s, p) && Lanes(s, p) && KeepsDef(s, e, p)
    ensures Harmless(s, e, p)
  {
    hide Inv, Lanes, Suits;
    if e.Redefine? {
      SameConcurrencySuits(s, e.defs, p);
    } else if e.Schedule? && e.req.pipeline == p && p in s.defs {
      VictimNotStarted(s, e.req);
    }
  }

  /** A run that leaves the definition of the pipeline as it is and does not mix its partitions. */
  ghost predicate SteadyRun(s: State, events: seq<Event>, s': State, p: string)
    decreases |events|
  {
    if events == [] then s == s'
    else
      && DefsUsable(s.defs) && Enabled(s, events[0]) && KeepsDef(s, events[0], p) && Joins(s, events[0], p)
      && SteadyRun(Next(s, events[0]), events[1..], s', p)
  }

  lemma {:induction false} SteadyRunHarmless(s: State, events: seq<Event>, s': State, p: string)
    requires Inv(s, p) && Lanes(s, p) && SteadyRun(s, events, s', p)
    ensures Run(s, events, s', p) && Lanes(s', p)
    decreases |events|
  {
    hide Inv, Lanes, Harmless, KeepsDef, Joins;
    if events != [] {
      SteadyIsHarmless(s, events[0], p);
      StepKeepsInvIff(s, events[0], p);
      StepKeepsLanes(s, events[0], p);
      SteadyRunHarmless(Next(s, events[0]), events[1..], s', p);
    }
  }

  /** Where partitions do not mix, a partitioned pipeline with a definition that stays is never harmed. */
  lemma UnmixedRunIsHarmless(s0: State, events: seq<Event>, s: State, p: string)
    requires Initial(s0) && SteadyRun(s0, events, s, p)
    ensures Run(s0, events, s, p)
  {
    hide SteadyRun, Run, Inv, Lanes;
    InitialInv(s0, p);
    NoLanes(s0, p);
    SteadyRunHarmless(s0, events, s, p);
  }

  lemma {:induction false} PlainIsSteady(s: State, events: seq<Event>, s': State, p: string)
    requires ListsOwn(s) && StableRun(s, events, s', p)
    requires p in s.defs ==> !s.defs[p].queueStrategy.PartitionedReplace?
    ensures SteadyRun(s, events, s', p)
    decreases |events|
  {
    hide ListsOwn;
    if events != [] {
      StepKeepsDef(s, events[0], p);
      StepKeepsOwn(s, events[0]);
      PlainIsSteady(Next(s, events[0]), events[1..], s', p);
    }
  }

  /**
   * Append and replace pipelines with a definition that stays are never harmed, whatever builds and whatever
   * happens to other pipelines.
   */
  lemma PlainRunIsHarmless(s0: State, events: seq<Event>, s: State, p: string)
    requires Initial(s0) && StableRun(s0, events, s, p)
    requires p in s0.defs ==> !s0.defs[p].queueStrategy.PartitionedReplace?
    ensures Run(s0, events, s, p)
  {
    hide SteadyRun, Run, Consistent, ListsOwn, StableRun;
    InitialConsistent(s0);
    ConsistentOwn(s0);
    PlainIsSteady(s0, events, s, p);
    UnmixedRunIsHarmless(s0, events, s, p);
  }
}
