// Goroutines in flight. The runner counts running jobs by their flags; a started job that is marked canceled
// drops out of that count although its goroutine goes on. Which steps do that, and which runs are free of it.
module RunnerFlights {
  import opened Basics
  import opened Definitions
  import opened WaitList
  import opened RunnerState
  import opened Dispatch
  import opened RunnerEvents
  import opened RunnerLifecycle
  import opened RunnerIndexes
  import opened RunnerArrivals
  import opened RunnerInvariants
  import opened RunnerSteps
  import opened RunnerSchedule
  import opened RunnerRuns

  /** Started and not ended, but not counted as running either. */
  predicate Flagged(j: Job) {
    j.start.Some? && j.canceled && !j.completed
  }

  ghost predicate NoneFlagged(s: State, p: string) {
    forall id | id in s.jobs && s.jobs[id].pipeline == p && s.jobs[id].ticket >= 0 :: !Flagged(s.jobs[id])
  }

  /** No running job is displaced, and none is on the wait list when Shutdown cancels it. */
  ghost predicate Spares(s: State, e: Event, p: string) {
    match e
    case Schedule(req, _) => req.pipeline == p && MustWait(s, req) ==> !DisplacesRunning(s, req)
    case StopAll => forall id | id in ListOf(s.wait, p) && id in s.jobs :: !IsRunning(s.jobs[id])
    case _ => true
  }

  // ---------------------------------------------------------------------------------------------
  // One step
  // ---------------------------------------------------------------------------------------------

  /** No job of the pipeline is flagged that was not flagged before. */
  ghost predicate NoNewFlags(s: State, s': State, p: string) {
    forall id | id in s'.jobs && s'.jobs[id].pipeline == p && Flagged(s'.jobs[id]) ::
      id in s.jobs && s.jobs[id].pipeline == p && s.jobs[id].ticket == s'.jobs[id].ticket && Flagged(s.jobs[id])
  }

  lemma NoneNew(s: State, s': State, p: string)
    requires NoneFlagged(s, p) && NoNewFlags(s, s', p)
    ensures NoneFlagged(s', p)
  {
  }

  lemma MovesFlag(s: State, s': State, q: string, now: int, p: string)
    requires Moves(s, s', q, now)
    ensures NoNewFlags(s, s', p)
  {
    forall id | id in s.jobs ensures JobMove(s.jobs[id], s'.jobs[id], now) {
    }
  }

  lemma DispatchFlag(s: State, id: JobId, j: Job, now: int, p: string)
    requires Consistent(s) && id in s.jobs && Edit(s.jobs[id], j) && (Flagged(j) ==> Flagged(s.jobs[id]))
    ensures NoNewFlags(s, StartJobsOnWaitList(Edited(s, id, j, s.token), j.pipeline, now), p)
  {
    hide ConsistentBut, StartJobsOnWaitList, Moves, KeepsLive;
    var s1 := Edited(s, id, j, s.token);
    EditedConsistent(s, id, j, s.token);
    ConsistentTidy(s1, {}, j.pipeline);
    WaitListMoves(s1, j.pipeline, now);
    MovesFlag(s1, StartJobsOnWaitList(s1, j.pipeline, now), j.pipeline, now, p);
  }

  lemma CompleteFlag(s: State, id: JobId, err: Option<string>, ctxCanceled: bool, now: int, p: string)
    requires Consistent(s) && RunnerEvents.Enabled(s, Complete(id, err, ctxCanceled, now))
    ensures NoNewFlags(s, JobCompleted(s, id, err, ctxCanceled, now), p)
  {
    hide ConsistentBut, StartJobsOnWaitList;
    SpawnedStarted(s, id);
    DispatchFlag(s, id, CompletedJob(s.jobs[id], err, ctxCanceled, now), now, p);
  }

  lemma TimerFlag(s: State, id: JobId, now: int, p: string)
    requires Consistent(s)
    ensures NoNewFlags(s, StartDelayedJob(s, id, now), p)
  {
    hide ConsistentBut, StartJobsOnWaitList;
    if id in s.known && id in s.jobs && !s.jobs[id].canceled {
      DispatchFlag(s, id, s.jobs[id].(timer := false), now, p);
    }
  }

  lemma TaskChangeFlag(s: State, id: JobId, name: string, r: TaskReport, p: string)
    ensures NoNewFlags(s, HandleTaskChange(s, id, name, r), p)
  {
    hide ReportedJob, TaskErrored, FailFast, CancelJob, NoNewFlags;
    if TaskKnown(s, id, name) {
      var j := ReportedJob(s.jobs[id], name, r);
      ReportKeeps(s.jobs[id], name, r);
      EditFlag(s, id, j, p);
      CancelFlag(s, s.(jobs := s.jobs[id := j], token := true), id, p);
    } else {
      SameFlags(s, p);
    }
  }

  lemma EditFlag(s: State, id: JobId, j: Job, p: string)
    requires id in s.jobs && j == s.jobs[id].(tasks := j.tasks, firstFailed := j.firstFailed)
    ensures NoNewFlags(s, s.(jobs := s.jobs[id := j], token := true), p)
  {
  }

  lemma CancelFlag(s: State, s1: State, id: JobId, p: string)
    requires NoNewFlags(s, s1, p)
    ensures NoNewFlags(s, CancelJob(s1, id), p)
  {
  }

  lemma SameFlags(s: State, p: string)
    ensures NoNewFlags(s, s, p)
  {
  }

  lemma DirectFlag(s: State, req: Request, now: int, p: string)
    requires Consistent(s) && req.pipeline in s.defs && req.id !in s.jobs
    ensures NoNewFlags(s, StartJob(Fresh(s, req, now), req.id, now), p)
  {
    hide StartJob, Moves, ConsistentBut;
    var s1 := Fresh(s, req, now);
    FreshMoves(s, req, now);
    MovesFlag(s1, StartJob(s1, req.id, now), req.pipeline, now, p);
  }

  // Of the jobs that waited only the displaced one changes, and it is flagged if it runs.
  lemma QueuedFlag(s: State, s': State, req: Request, now: int)
    requires Consistent(s) && req.pipeline in s.defs && req.id !in s.jobs && Enqueued(s, req, now, s')
    requires Displaces(s, req).Some? ==> Displaces(s, req).value in ListOf(s.wait, req.pipeline)
    requires NoneFlagged(s, req.pipeline)
    ensures NoneFlagged(s', req.pipeline) <==> !DisplacesRunning(s, req)
  {
    hide ConsistentBut, Displaces;
    ConsistentOrdered(s, req.pipeline);
    if DisplacesRunning(s, req) {
      var v := Displaces(s, req).value;
      assert Flagged(s'.jobs[v]) && s'.jobs[v].ticket >= 0;
    }
  }

  lemma ScheduleFlag(s: State, req: Request, now: int, p: string)
    requires Consistent(s) && DefsUsable(s.defs) && req.id !in s.jobs && NoneFlagged(s, p)
    ensures NoneFlagged(ScheduleAsync(s, req, now), p) <==> Spares(s, Schedule(req, now), p)
  {
    hide FreeSlots, ConsistentBut, ScheduleAsync, Refusal, Usable, Enqueued, Displaces, StartJob, NoneFlagged, Fresh,
      DisplacesRunning;
    if Refusal(s, req.pipeline).Some? {
      Refused(s, req, now);
    } else if MustWait(s, req) {
      QueuedIs(s, req, now);
      if req.pipeline == p {
        DisplacedListed(s, req);
        QueuedFlag(s, ScheduleAsync(s, req, now), req, now);
      } else {
        ScheduleElsewhere(s, req, now, p);
        UntouchedFlags(s, ScheduleAsync(s, req, now), p);
      }
    } else {
      StartsAtOnce(s, req, now);
      DirectFlag(s, req, now, p);
      NoneNew(s, ScheduleAsync(s, req, now), p);
    }
  }

  lemma UntouchedFlags(s: State, s': State, p: string)
    requires Untouched(s, s', p) && NoneFlagged(s, p)
    ensures NoneFlagged(s', p)
  {
  }

  lemma DisplacedListed(s: State, req: Request)
    requires Consistent(s) && DefsUsable(s.defs) && MustWait(s, req)
    ensures req.pipeline in s.defs
    ensures Displaces(s, req).Some? ==> Displaces(s, req).value in ListOf(s.wait, req.pipeline)
  {
    hide FreeSlots, ConsistentBut, Displaces, Enqueue, LimitReady;
    QueueingReplaces(s, req, 0);
  }

  // Shutdown marks what is listed, and the jobs of a pipeline are on its own list.
  lemma ShutdownFlag(s: State, p: string)
    requires Consistent(s) && NoneFlagged(s, p)
    ensures NoneFlagged(Shutdown(s), p) <==> Spares(s, StopAll, p)
  {
    hide ConsistentBut;
    var s' := Shutdown(s);
    ConsistentOrdered(s, p);
    forall id | id in s.jobs && s.jobs[id].pipeline == p ensures OnSomeList(s, id) <==> id in ListOf(s.wait, p) {
      OwnListOnly(s, p, id);
    }
    if id :| id in ListOf(s.wait, p) && id in s.jobs && IsRunning(s.jobs[id]) {
      assert Flagged(s'.jobs[id]) && s'.jobs[id].ticket >= 0 && s'.jobs[id].pipeline == p;
    }
  }

  lemma OwnListOnly(s: State, p: string, id: JobId)
    requires Consistent(s) && id in s.jobs && s.jobs[id].pipeline == p
    ensures OnSomeList(s, id) <==> id in ListOf(s.wait, p)
  {
    hide ConsistentBut;
    if q :| q in s.wait && id in s.wait[q] {
      ConsistentTidy(s, {}, q);
    }
  }

  /** A running job is marked canceled in flight exactly by the arrivals and the shutdown that do not spare it. */
  lemma StepFlagIff(s: State, e: Event, p: string)
    requires Consistent(s) && DefsUsable(s.defs) && RunnerEvents.Enabled(s, e) && NoneFlagged(s, p)
    ensures NoneFlagged(Next(s, e), p) <==> Spares(s, e, p)
  {
    hide ConsistentBut, ScheduleAsync, JobCompleted, StartDelayedJob, Shutdown, HandleTaskChange, NoNewFlags,
      DefsUsable;
    match e
    case Schedule(req, now) => ScheduleFlag(s, req, now, p);
    case Complete(id, err, ctxCanceled, now) =>
      CompleteFlag(s, id, err, ctxCanceled, now, p);
      NoneNew(s, Next(s, e), p);
    case TimerFired(id, now) =>
      TimerFlag(s, id, now, p);
      NoneNew(s, Next(s, e), p);
    case TaskChange(id, name, report) =>
      TaskChangeFlag(s, id, name, report, p);
      NoneNew(s, Next(s, e), p);
    case StopAll => ShutdownFlag(s, p);
    case _ =>
  }

  // ---------------------------------------------------------------------------------------------
  // Runs
  // ---------------------------------------------------------------------------------------------

  /** A run that neither harms the pipeline nor cancels a running job of it behind the back of its goroutine. */
  ghost predicate SparingRun(s: State, events: seq<Event>, s': State, p: string)
    decreases |events|
  {
    if events == [] then s == s'
    else
      && DefsUsable(s.defs) && RunnerEvents.Enabled(s, events[0])
      && Harmless(s, events[0], p) && Spares(s, events[0], p)
      && SparingRun(Next(s, events[0]), events[1..], s', p)
  }

  lemma {:induction false} SparingKeeps(s: State, events: seq<Event>, s': State, p: string)
    requires Inv(s, p) && NoneFlagged(s, p) && SparingRun(s, events, s', p)
    ensures Inv(s', p) && NoneFlagged(s', p) && AnyRun(s, events, s')
    decreases |events|
  {
    hide PipelineInv, NoneFlagged, Harmless, Spares, Consistent;
    if events != [] {
      StepKeepsInvIff(s, events[0], p);
      StepFlagIff(s, events[0], p);
      SparingKeeps(Next(s, events[0]), events[1..], s', p);
    }
  }

  /** The goroutines of a pipeline that have not reported their end. */
  ghost function InFlight(s: State, p: string): set<JobId> {
    set id | id in s.spawned && id in s.jobs && s.jobs[id].pipeline == p && !s.jobs[id].completed
  }

  /**
   * In a sparing run the goroutines in flight are the running jobs: they stay within the concurrency, and a
   * poll that counts no running job comes after the last goroutine of the pipeline.
   */
  lemma BoundInFlight(s0: State, events: seq<Event>, s: State, p: string)
    requires Initial(s0) && SparingRun(s0, events, s, p)
    ensures forall id | id in InFlight(s, p) :: IsRunning(s.jobs[id])
    ensures |InFlight(s, p)| == RunningJobs(s, p) && (p in s.defs ==> RunningJobs(s, p) <= s.defs[p].concurrency)
    ensures RunningJobs(s, p) == 0 ==> InFlight(s, p) == {}
  {
    hide Fifo, Separate, Tidy, RunningJobs;
    InitialInv(s0, p);
    SparingKeeps(s0, events, s, p);
    IndexAgreement(s0, events, s, p);
    SlotsAre(s, p);
    assert InFlight(s, p) ==
      set id | id in s.jobs && id in s.known && s.jobs[id].pipeline == p && IsRunning(s.jobs[id]);
  }

  // ---------------------------------------------------------------------------------------------
  // Pipelines whose jobs all build
  // ---------------------------------------------------------------------------------------------

  lemma StepBuiltBefore(s: State, e: Event, p: string)
    requires Consistent(s) && DefsUsable(s.defs) && RunnerEvents.Enabled(s, e) && AllBuilt(Next(s, e), p)
    ensures AllBuilt(s, p)
  {
    hide ConsistentBut;
    ConsistentOwn(s);
    StepGrows(s, e);
    forall id | id in s.jobs && s.jobs[id].pipeline == p && s.jobs[id].ticket >= 0 ensures s.jobs[id].builds {
      assert Later(s.jobs[id], Next(s, e).jobs[id]);
    }
  }

  // Nothing that is listed has been started, so nothing that is canceled from the list runs.
  lemma BuiltSpares(s: State, e: Event, p: string)
    requires Inv(s, p) && AllBuilt(s, p)
    ensures Spares(s, e, p)
  {
    hide Registered, Fifo, Consistent, FreeSlots, Displaces;
    if e.Schedule? && e.req.pipeline == p && MustWait(s, e.req) {
      DisplacedListed(s, e.req);
    }
  }

  lemma {:induction false} BuiltRunSpares(s: State, events: seq<Event>, s': State, p: string)
    requires Inv(s, p) && Run(s, events, s', p) && AllBuilt(s', p)
    ensures SparingRun(s, events, s', p) && AllBuilt(s, p)
    decreases |events|
  {
    hide PipelineInv, AllBuilt, Harmless, Spares, Consistent;
    if events != [] {
      StepKeepsInvIff(s, events[0], p);
      BuiltRunSpares(Next(s, events[0]), events[1..], s', p);
      StepBuiltBefore(s, events[0], p);
      BuiltSpares(s, events[0], p);
    }
  }

  /** Where all jobs of a pipeline build, every run that does not harm it is a sparing one. */
  lemma BuildingJobsAreSpared(s0: State, events: seq<Event>, s: State, p: string)
    requires Initial(s0) && Run(s0, events, s, p) && AllBuilt(s, p)
    ensures SparingRun(s0, events, s, p)
  {
    hide Inv, AllBuilt;
    InitialInv(s0, p);
    BuiltRunSpares(s0, events, s, p);
  }
}
