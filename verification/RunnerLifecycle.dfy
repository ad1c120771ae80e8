// What no operation undoes: ended jobs stay ended, and a stopping runner starts nothing. These hold for
// every operation, also when definitions are replaced and when jobs cannot be built.
module RunnerLifecycle {
  import opened Basics
  import opened Definitions
  import opened Jobs
  import opened WaitList
  import opened RunnerState
  import opened Dispatch
  import opened Retention
  import opened RunnerEvents

  /** The history of one job only grows. */
  ghost predicate Later(j: Job, j': Job) {
    && j'.pipeline == j.pipeline && j'.partition == j.partition && j'.ticket == j.ticket && j'.builds == j.builds
    && j'.created == j.created && j'.startDelay == j.startDelay
    && j'.variables == j.variables && j'.env == j.env && j'.user == j.user
    && (j.completed ==> j'.end == j.end)
    && (j.canceled ==> j'.canceled) && (j.completed ==> j'.completed) && (j.start.Some? ==> j'.start == j.start)
    && (j'.start.Some? && j.start.None? ==> Live(j))
    && (j.firstFailed.Some? ==> j'.firstFailed == j.firstFailed) && (j'.timer ==> j.timer)
  }

  ghost predicate Grows(s: State, s': State) {
    && (forall id | id in s.jobs :: id in s'.jobs && Later(s.jobs[id], s'.jobs[id]))
    && s.spawned <= s'.spawned
  }

  /** Each list holds only jobs of its own pipeline. */
  ghost predicate ListsOwn(s: State) {
    forall p :: Own(s, p, ListOf(s.wait, p))
  }

  lemma GrowsTransitive(s: State, s1: State, s2: State)
    requires Grows(s, s1) && Grows(s1, s2)
    ensures Grows(s, s2)
  {
  }

  lemma MovesGrow(s: State, s': State, p: string, now: int)
    requires Moves(s, s', p, now)
    ensures Grows(s, s')
  {
  }

  lemma EditGrows(s: State, id: JobId, j: Job, token: bool)
    requires id in s.jobs && Later(s.jobs[id], j)
    ensures Grows(s, s.(jobs := s.jobs[id := j], token := token))
  {
  }

  lemma OwnEdited(s: State, s1: State, p: string)
    requires Own(s, p, ListOf(s.wait, p)) && ListOf(s1.wait, p) == ListOf(s.wait, p)
    requires forall id | id in s.jobs :: id in s1.jobs && s1.jobs[id].pipeline == s.jobs[id].pipeline
    ensures Own(s1, p, ListOf(s1.wait, p))
  {
  }

  lemma EnqueueGrows(s: State, p: string, id: JobId)
    requires p in s.defs && LimitReady(s.defs[p])
    ensures Grows(s, Enqueue(s, p, id))
  {
  }

  lemma CreatedGrows(s: State, req: Request, now: int)
    requires req.pipeline in s.defs && req.id !in s.jobs
    ensures Grows(s, Created(s, s.defs[req.pipeline], req, now))
  {
  }

  lemma StartGrows(s: State, id: JobId, now: int)
    requires id in s.jobs && s.jobs[id].start.None? && Own(s, s.jobs[id].pipeline, ListOf(s.wait, s.jobs[id].pipeline))
    ensures Grows(s, StartJob(s, id, now))
  {
    hide StartJob, Moves, Own;
    StartJobMoves(s, id, s.jobs[id].pipeline, now);
    MovesGrow(s, StartJob(s, id, now), s.jobs[id].pipeline, now);
  }

  lemma ScheduleGrows(s: State, req: Request, now: int)
    requires DefsUsable(s.defs) && req.id !in s.jobs && ListsOwn(s)
    ensures Grows(s, ScheduleAsync(s, req, now))
  {
    hide StartJob, Enqueue, FreeSlots, Grows, Own;
    if Refusal(s, req.pipeline).Some? {
      assert Grows(s, s) by { GrowsSelf(s); }
    } else {
      var p := req.pipeline;
      var s1 := Created(s, s.defs[p], req, now);
      CreatedGrows(s, req, now);
      assert Own(s, p, ListOf(s.wait, p));
      OwnEdited(s, s1, p);
      StartGrows(s1, req.id, now);
      GrowsTransitive(s, s1, StartJob(s1, req.id, now));
      EnqueueGrows(s1, p, req.id);
      GrowsTransitive(s, s1, Enqueue(s1, p, req.id));
    }
  }

  lemma GrowsSelf(s: State)
    ensures Grows(s, s)
  {
  }

  lemma CompletedGrows(s: State, id: JobId, err: Option<string>, ctxCanceled: bool, now: int)
    requires id in s.jobs && !s.jobs[id].completed && ListsOwn(s)
    ensures Grows(s, JobCompleted(s, id, err, ctxCanceled, now))
  {
    hide StartJobsOnWaitList;
    var p := s.jobs[id].pipeline;
    var s1 := s.(jobs := s.jobs[id := CompletedJob(s.jobs[id], err, ctxCanceled, now)]);
    EditGrows(s, id, s1.jobs[id], s.token);
    assert Own(s, p, ListOf(s.wait, p));
    OwnEdited(s, s1, p);
    WaitListMoves(s1, p, now);
    MovesGrow(s1, StartJobsOnWaitList(s1, p, now), p, now);
    GrowsTransitive(s, s1, StartJobsOnWaitList(s1, p, now));
  }

  lemma TimerGrows(s: State, id: JobId, now: int)
    requires ListsOwn(s)
    ensures Grows(s, StartDelayedJob(s, id, now))
  {
    hide StartJobsOnWaitList;
    if id in s.known && id in s.jobs && !s.jobs[id].canceled {
      var p := s.jobs[id].pipeline;
      var s1 := s.(jobs := s.jobs[id := s.jobs[id].(timer := false)]);
      EditGrows(s, id, s1.jobs[id], s.token);
      assert Own(s, p, ListOf(s.wait, p));
      OwnEdited(s, s1, p);
      WaitListMoves(s1, p, now);
      MovesGrow(s1, StartJobsOnWaitList(s1, p, now), p, now);
      GrowsTransitive(s, s1, StartJobsOnWaitList(s1, p, now));
    }
  }

  lemma StepGrows(s: State, e: Event)
    requires DefsUsable(s.defs) && Enabled(s, e) && ListsOwn(s)
    ensures Grows(s, Next(s, e))
  {
    hide ListsOwn, StartJobsOnWaitList, StartJob, RankingsFor, ScheduleAsync, JobCompleted, StartDelayedJob,
      HandleTaskChange, HandleStageChange, CancelJob, Shutdown, RemovedIds, SweepList;
    match e
    case Schedule(req, now) => ScheduleGrows(s, req, now);
    case Complete(id, err, ctxCanceled, now) => CompletedGrows(s, id, err, ctxCanceled, now);
    case TimerFired(id, now) => TimerGrows(s, id, now);
    case TaskChange(id, name, report) => TaskChangeGrows(s, id, name, report);
    case StageChange(id, name, status) => StageChangeGrows(s, id, name, status);
    case CancelRequest(id) => CancelGrows(s, id);
    case Save(rankings, now) =>
    case StopAll => ShutdownGrows(s);
    case Redefine(defs) =>
  }

  lemma TaskChangeGrows(s: State, id: JobId, name: string, r: TaskReport)
    ensures Grows(s, HandleTaskChange(s, id, name, r))
  {
    hide Grows, ReportedJob, CancelJob, TaskErrored, FailFast;
    GrowsSelf(s);
    if TaskKnown(s, id, name) {
      var j := ReportedJob(s.jobs[id], name, r);
      var s1 := s.(jobs := s.jobs[id := j], token := true);
      ReportKeeps(s.jobs[id], name, r);
      EditGrows(s, id, j, true);
      CancelGrows(s1, id);
      GrowsTransitive(s, s1, CancelJob(s1, id));
    }
  }

  lemma StageChangeGrows(s: State, id: JobId, name: string, status: TaskStatus)
    ensures Grows(s, HandleStageChange(s, id, name, status))
  {
    hide ByName;
  }

  lemma ShutdownGrows(s: State)
    ensures Grows(s, Shutdown(s))
  {
  }

  lemma CancelGrows(s: State, id: JobId)
    ensures Grows(s, CancelJob(s, id))
  {
  }

  // ---------------------------------------------------------------------------------------------
  // Wait lists hold jobs of their own pipeline
  // ---------------------------------------------------------------------------------------------

  lemma MovesKeepOwn(s: State, s': State, p: string, now: int)
    requires ListsOwn(s) && Moves(s, s', p, now) && KeepsLive(s, s', p)
    ensures ListsOwn(s')
  {
    hide Subseq, StartsExactly;
    forall q ensures Own(s', q, ListOf(s'.wait, q)) {
      assert Own(s, q, ListOf(s.wait, q));
      if q == p {
        KeepsOwn(s, s', p, now);
      } else {
        forall id | id in ListOf(s.wait, q) ensures id in s'.jobs && s'.jobs[id].pipeline == q {
          assert JobMove(s.jobs[id], s'.jobs[id], now);
        }
      }
    }
  }

  lemma EditedListsOwn(s: State, s1: State)
    requires ListsOwn(s) && s1.wait == s.wait
    requires forall id | id in s.jobs :: id in s1.jobs && s1.jobs[id].pipeline == s.jobs[id].pipeline
    ensures ListsOwn(s1)
  {
  }

  lemma DispatchKeepsOwn(s: State, s1: State, p: string, now: int)
    requires ListsOwn(s) && s1.wait == s.wait
    requires forall id | id in s.jobs :: id in s1.jobs && s1.jobs[id].pipeline == s.jobs[id].pipeline
    ensures ListsOwn(StartJobsOnWaitList(s1, p, now))
  {
    hide StartJobsOnWaitList, Own, Moves, KeepsLive;
    EditedListsOwn(s, s1);
    assert Own(s1, p, ListOf(s1.wait, p));
    WaitListMoves(s1, p, now);
    MovesKeepOwn(s1, StartJobsOnWaitList(s1, p, now), p, now);
  }

  lemma QueuedElems(def: PipelineDef, part: JobId -> string, list: seq<JobId>, id: JobId)
    requires LimitReady(def)
    ensures forall x | x in ModifyWaitList(def, part, list, id).list :: x == id || x in list
  {
    hide Filter;
    if def.queueStrategy.PartitionedReplace? {
      var mine := Project(part, list, part(id));
      if |mine| >= def.queuePartitionLimit.value {
        FilterElems(list, Other(mine[|mine| - 1]));
      }
    }
  }

  lemma EnqueueKeepsOwn(s: State, p: string, id: JobId)
    requires ListsOwn(s) && p in s.defs && LimitReady(s.defs[p]) && id in s.jobs && s.jobs[id].pipeline == p
    ensures ListsOwn(Enqueue(s, p, id))
  {
    hide ModifyWaitList;
    QueuedElems(s.defs[p], PartOf(s.jobs), ListOf(s.wait, p), id);
    var s' := Enqueue(s, p, id);
    forall q ensures Own(s', q, ListOf(s'.wait, q)) {
      assert Own(s, q, ListOf(s.wait, q));
    }
  }

  lemma ScheduleKeepsOwn(s: State, req: Request, now: int)
    requires DefsUsable(s.defs) && req.id !in s.jobs && ListsOwn(s)
    ensures ListsOwn(ScheduleAsync(s, req, now))
  {
    hide StartJob, Enqueue, FreeSlots, Own, Moves, KeepsLive, ListsOwn;
    if Refusal(s, req.pipeline).None? {
      var p := req.pipeline;
      var s1 := Created(s, s.defs[p], req, now);
      EditedListsOwn(s, s1);
      assert Own(s1, p, ListOf(s1.wait, p)) by { OwnOf(s1, p); }
      StartJobMoves(s1, req.id, p, now);
      MovesKeepOwn(s1, StartJob(s1, req.id, now), p, now);
      AcceptedIsReady(s.defs[p], ListOf(s.wait, p));
      EnqueueKeepsOwn(s1, p, req.id);
    }
  }

  lemma OwnOf(s: State, p: string)
    requires ListsOwn(s)
    ensures Own(s, p, ListOf(s.wait, p))
  {
  }

  lemma CompletedKeepsOwn(s: State, id: JobId, err: Option<string>, ctxCanceled: bool, now: int)
    requires ListsOwn(s) && id in s.jobs
    ensures ListsOwn(JobCompleted(s, id, err, ctxCanceled, now))
  {
    hide ListsOwn, StartJobsOnWaitList;
    var s1 := s.(jobs := s.jobs[id := CompletedJob(s.jobs[id], err, ctxCanceled, now)]);
    DispatchKeepsOwn(s, s1, s.jobs[id].pipeline, now);
    EditedListsOwn(StartJobsOnWaitList(s1, s.jobs[id].pipeline, now), JobCompleted(s, id, err, ctxCanceled, now));
  }

  lemma TimerKeepsOwn(s: State, id: JobId, now: int)
    requires ListsOwn(s)
    ensures ListsOwn(StartDelayedJob(s, id, now))
  {
    hide ListsOwn, StartJobsOnWaitList;
    if id in s.known && id in s.jobs && !s.jobs[id].canceled {
      var s1 := s.(jobs := s.jobs[id := s.jobs[id].(timer := false)]);
      DispatchKeepsOwn(s, s1, s.jobs[id].pipeline, now);
    }
  }

  /** Every operation keeps the wait lists apart. */
  lemma StepKeepsOwn(s: State, e: Event)
    requires DefsUsable(s.defs) && Enabled(s, e) && ListsOwn(s)
    ensures ListsOwn(Next(s, e))
  {
    hide ListsOwn, JobCompleted, StartDelayedJob, RankingsFor, ScheduleAsync, HandleTaskChange, RemovedIds, SweepList;
    match e
    case Schedule(req, now) => ScheduleKeepsOwn(s, req, now);
    case Complete(id, err, ctxCanceled, now) => CompletedKeepsOwn(s, id, err, ctxCanceled, now);
    case TimerFired(id, now) => TimerKeepsOwn(s, id, now);
    case TaskChange(id, name, report) =>
      TaskChangeKeepsLists(s, id, name, report);
      EditedListsOwn(s, Next(s, e));
    case StopAll => NothingListed(Shutdown(s));
    case _ => EditedListsOwn(s, Next(s, e));
  }

  lemma DispatchKeepsDefs(s: State, s1: State, p: string, now: int)
    requires ListsOwn(s) && s1.wait == s.wait
    requires forall id | id in s.jobs :: id in s1.jobs && s1.jobs[id].pipeline == s.jobs[id].pipeline
    ensures var s' := StartJobsOnWaitList(s1, p, now); s'.defs == s1.defs && s'.shutting == s1.shutting
  {
    hide StartJobsOnWaitList, Own, KeepsLive;
    EditedListsOwn(s, s1);
    assert Own(s1, p, ListOf(s1.wait, p));
    WaitListMoves(s1, p, now);
  }

  lemma ScheduleKeepsDefs(s: State, req: Request, now: int)
    requires ListsOwn(s) && DefsUsable(s.defs) && req.id !in s.jobs
    ensures var s' := ScheduleAsync(s, req, now); s'.defs == s.defs && s'.shutting == s.shutting
  {
    hide StartJob, ModifyWaitList, KeepsLive, ListsOwn, Own, ScheduleAsync, Refusal;
    ScheduleOutcome(s, req, now);
    if Refusal(s, req.pipeline).None? {
      var s1 := Created(s, s.defs[req.pipeline], req, now);
      EditedListsOwn(s, s1);
      OwnOf(s1, req.pipeline);
      StartJobMoves(s1, req.id, req.pipeline, now);
    }
  }

  /** Only ReplaceDefinitions changes the definitions, and only Shutdown sets its flag. */
  lemma StepKeepsDefs(s: State, e: Event)
    requires ListsOwn(s) && DefsUsable(s.defs) && Enabled(s, e) && !e.Redefine?
    ensures Next(s, e).defs == s.defs && (!e.StopAll? ==> Next(s, e).shutting == s.shutting)
  {
    hide ListsOwn, StartJobsOnWaitList, RankingsFor, ScheduleAsync, HandleTaskChange;
    match e
    case Schedule(req, now) => ScheduleKeepsDefs(s, req, now);
    case Complete(id, err, ctxCanceled, now) =>
      var s1 := s.(jobs := s.jobs[id := CompletedJob(s.jobs[id], err, ctxCanceled, now)]);
      DispatchKeepsDefs(s, s1, s.jobs[id].pipeline, now);
    case TimerFired(id, now) =>
      if id in s.known && id in s.jobs && !s.jobs[id].canceled {
        var s1 := s.(jobs := s.jobs[id := s.jobs[id].(timer := false)]);
        DispatchKeepsDefs(s, s1, s.jobs[id].pipeline, now);
      }
    case TaskChange(id, name, report) => TaskChangeKeepsLists(s, id, name, report);
    case _ =>
  }

  lemma TaskChangeKeepsLists(s: State, id: JobId, name: string, r: TaskReport)
    ensures var s' := HandleTaskChange(s, id, name, r);
      s'.wait == s.wait && s'.defs == s.defs && s'.shutting == s.shutting && forall x | x in s.jobs ::
        x in s'.jobs && s'.jobs[x].pipeline == s.jobs[x].pipeline
  {
    hide ReportedJob, CancelJob, TaskErrored, FailFast;
    if TaskKnown(s, id, name) {
      var j := ReportedJob(s.jobs[id], name, r);
      assert j.pipeline == s.jobs[id].pipeline by { ReportKeeps(s.jobs[id], name, r); }
      CancelKeepsLists(s.(jobs := s.jobs[id := j], token := true), id);
    }
  }

  lemma SetTaskKeeps(j: Job, name: string, f: JobTask -> JobTask)
    ensures SetTask(j, name, f) == j.(tasks := SetTask(j, name, f).tasks)
  {
    hide ByName;
  }

  lemma ReportKeeps(j: Job, name: string, r: TaskReport)
    ensures var j' := ReportedJob(j, name, r);
      && j' == j.(tasks := j'.tasks, firstFailed := j'.firstFailed)
      && (j.firstFailed.Some? ==> j'.firstFailed == j.firstFailed)
  {
    hide SetTask, TaskErrored, ByName;
    SetTaskKeeps(j, name, (t: JobTask) => Reported(t, r));
  }

  lemma CancelKeepsLists(s: State, id: JobId)
    ensures var s' := CancelJob(s, id);
      && s'.wait == s.wait && s'.defs == s.defs && s'.shutting == s.shutting && s'.jobs.Keys == s.jobs.Keys
      && forall x | x in s.jobs :: s'.jobs[x].pipeline == s.jobs[x].pipeline
  {
  }

  lemma NothingListed(s: State)
    requires s.wait == map[]
    ensures ListsOwn(s)
  {
  }

  predicate Ended(j: Job) {
    j.completed || j.canceled
  }

  // ---------------------------------------------------------------------------------------------
  // Shutdown
  // ---------------------------------------------------------------------------------------------

  /** What Shutdown leaves: the flag, and nothing waiting. */
  ghost predicate Stopping(s: State) {
    s.shutting && DefsUsable(s.defs) && forall p :: ListOf(s.wait, p) == []
  }

  lemma ShutdownStops(s: State)
    requires DefsUsable(s.defs)
    ensures Stopping(Shutdown(s))
    ensures forall id | id in s.jobs && OnSomeList(s, id) :: Shutdown(s).jobs[id].canceled
  {
  }

  lemma NothingToDispatch(s: State, p: string, now: int)
    requires ListOf(s.wait, p) == []
    ensures var r := StartJobsOnWaitList(s, p, now);
      r == s || r == s.(wait := s.wait[p := []])
  {
  }

  // The dispatch after a completion or a timer.
  lemma StoppedDispatch(s: State, id: JobId, j: Job, now: int)
    requires Stopping(s) && id in s.jobs && (IsRunning(j) ==> IsRunning(s.jobs[id]))
    ensures var s' := StartJobsOnWaitList(s.(jobs := s.jobs[id := j]), s.jobs[id].pipeline, now);
      && Stopping(s') && s'.spawned == s.spawned && s'.jobs.Keys == s.jobs.Keys
      && forall x | x in s.jobs && IsRunning(s'.jobs[x]) :: IsRunning(s.jobs[x])
  {
    hide StartJobsOnWaitList;
    var s1 := s.(jobs := s.jobs[id := j]);
    assert s1.jobs.Keys == s.jobs.Keys;
    NothingToDispatch(s1, s.jobs[id].pipeline, now);
    var wait := s.wait[s.jobs[id].pipeline := []];
    forall q ensures ListOf(wait, q) == [] {
      assert ListOf(s.wait, q) == [];
    }
  }

  /** Nothing has been started, nothing runs that did not run before, and the runner is still stopping. */
  ghost predicate Quiet(s: State, s': State) {
    && Stopping(s') && s'.spawned == s.spawned && s'.jobs.Keys == s.jobs.Keys
    && forall id | id in s.jobs && IsRunning(s'.jobs[id]) :: IsRunning(s.jobs[id])
  }

  lemma StoppedTaskChange(s: State, id: JobId, name: string, r: TaskReport)
    requires Stopping(s)
    ensures Quiet(s, HandleTaskChange(s, id, name, r))
  {
    hide TaskErrored, FailFast, ReportedJob;
    if TaskKnown(s, id, name) {
      ReportKeeps(s.jobs[id], name, r);
    }
  }

  lemma StoppedStageChange(s: State, id: JobId, name: string, status: TaskStatus)
    requires Stopping(s)
    ensures Quiet(s, HandleStageChange(s, id, name, status))
  {
  }

  /** While the runner stops, no operation starts a job, and only running jobs are running afterwards. */
  lemma StoppingStep(s: State, e: Event)
    requires Stopping(s) && Enabled(s, e)
    ensures Quiet(s, Next(s, e))
  {
    hide StartJobsOnWaitList, StartJob, Enqueue, RankingsFor, HandleTaskChange, HandleStageChange;
    match e
    case Complete(id, err, ctxCanceled, now) =>
      StoppedDispatch(s, id, CompletedJob(s.jobs[id], err, ctxCanceled, now), now);
    case TimerFired(id, now) =>
      if id in s.known && id in s.jobs {
        StoppedDispatch(s, id, s.jobs[id].(timer := false), now);
      }
    case TaskChange(id, name, report) => StoppedTaskChange(s, id, name, report);
    case StageChange(id, name, status) => StoppedStageChange(s, id, name, status);
    case _ =>
  }

  /** Any sequence of operations, also with new definitions. */
  ghost predicate AnyRun(s: State, events: seq<Event>, s': State)
    decreases |events|
  {
    if events == [] then s == s'
    else DefsUsable(s.defs) && Enabled(s, events[0]) && AnyRun(Next(s, events[0]), events[1..], s')
  }

  lemma {:induction false} NothingStartsWhileStopping(s: State, events: seq<Event>, s': State)
    requires Stopping(s) && AnyRun(s, events, s')
    ensures Stopping(s') && s'.spawned == s.spawned
    ensures forall id | id in s'.jobs && IsRunning(s'.jobs[id]) :: id in s.jobs && IsRunning(s.jobs[id])
    decreases |events|
  {
    hide Stopping;
    if events != [] {
      StoppingStep(s, events[0]);
      NothingStartsWhileStopping(Next(s, events[0]), events[1..], s');
    }
  }

  /**
   * Once Shutdown has begun, whatever is called in whatever order starts no job: the running jobs are among
   * those that ran before, and the jobs that waited stay canceled.
   */
  lemma NothingStartsAfterShutdown(s: State, events: seq<Event>, s': State)
    requires DefsUsable(s.defs) && AnyRun(Shutdown(s), events, s')
    ensures s'.spawned == s.spawned
    ensures forall id | id in s'.jobs && IsRunning(s'.jobs[id]) :: id in s.jobs && IsRunning(s.jobs[id])
    ensures forall id | id in s.jobs && OnSomeList(s, id) :: id in s'.jobs && s'.jobs[id].canceled
  {
    ShutdownStops(s);
    NothingStartsWhileStopping(Shutdown(s), events, s');
    CanceledWhileStopping(Shutdown(s), events, s');
  }

  lemma {:induction false} CanceledWhileStopping(s: State, events: seq<Event>, s': State)
    requires Stopping(s) && AnyRun(s, events, s')
    ensures forall id | id in s.jobs && s.jobs[id].canceled :: id in s'.jobs && s'.jobs[id].canceled
    decreases |events|
  {
    hide Stopping;
    if events != [] {
      StoppingOwn(s);
      StepGrows(s, events[0]);
      StoppingStep(s, events[0]);
      var s1 := Next(s, events[0]);
      CanceledWhileStopping(s1, events[1..], s');
      forall id | id in s.jobs && s.jobs[id].canceled ensures id in s1.jobs && s1.jobs[id].canceled {
        assert Later(s.jobs[id], s1.jobs[id]);
      }
    }
  }

  lemma StoppingOwn(s: State)
    requires Stopping(s)
    ensures ListsOwn(s) && DefsUsable(s.defs)
  {
    forall p ensures Own(s, p, ListOf(s.wait, p)) {
      assert ListOf(s.wait, p) == [];
    }
  }

  // ---------------------------------------------------------------------------------------------
  // A pipeline whose definition stays
  // ---------------------------------------------------------------------------------------------

  /** The definition of the pipeline is not replaced by another one; other pipelines may change. */
  ghost predicate KeepsDef(s: State, e: Event, p: string) {
    e.Redefine? ==> (p in e.defs <==> p in s.defs) && (p in s.defs ==> e.defs[p] == s.defs[p])
  }

  ghost predicate SameDef(s: State, s': State, p: string) {
    (p in s'.defs <==> p in s.defs) && (p in s.defs ==> s'.defs[p] == s.defs[p])
  }

  lemma StepKeepsDef(s: State, e: Event, p: string)
    requires ListsOwn(s) && DefsUsable(s.defs) && Enabled(s, e) && KeepsDef(s, e, p)
    ensures SameDef(s, Next(s, e), p)
  {
    hide ListsOwn, DefsUsable;
    if !e.Redefine? {
      StepKeepsDefs(s, e);
    }
  }

  /** Any sequence of operations that leaves the definition of one pipeline as it is. */
  ghost predicate StableRun(s: State, events: seq<Event>, s': State, p: string)
    decreases |events|
  {
    if events == [] then s == s'
    else
      && DefsUsable(s.defs) && Enabled(s, events[0]) && KeepsDef(s, events[0], p)
      && StableRun(Next(s, events[0]), events[1..], s', p)
  }

  lemma {:induction false} StableIsAny(s: State, events: seq<Event>, s': State, p: string)
    requires StableRun(s, events, s', p)
    ensures AnyRun(s, events, s')
    decreases |events|
  {
    if events != [] {
      StableIsAny(Next(s, events[0]), events[1..], s', p);
    }
  }
}
