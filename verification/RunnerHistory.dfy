// What a job holds at the end of a run, told from the operations of the run: what was asked for, whether a started
// job counts as canceled, which of its tasks failed first, and which were canceled.
module RunnerHistory {
  import opened Basics
  import opened Jobs
  import opened WaitList
  import opened RunnerState
  import opened Dispatch
  import opened Retention
  import opened RunnerEvents
  import opened RunnerLifecycle
  import opened RunnerIndexes
  import opened RunnerArrivals
  import opened RunnerSchedule
  import opened Persistence
  import opened RunnerWrites

  // ---------------------------------------------------------------------------------------------
  // What was asked for
  // ---------------------------------------------------------------------------------------------

  /** Whatever follows, the record of a job says who asked for it, with which variables, and when. */
  lemma RequestRecorded(s: State, req: Request, now: int, events: seq<Event>, s': State)
    requires Consistent(s) && DefsUsable(s.defs) && Takes(s, req) && AnyRun(ScheduleAsync(s, req, now), events, s')
    ensures req.id in s'.jobs && req.pipeline in s.defs
    ensures var j := s'.jobs[req.id];
      && j.variables == req.variables && j.env == s.defs[req.pipeline].env && j.partition == req.partition
    ensures req.id in s'.known ==>
      && req.id in View(s')
      && var r := View(s')[req.id];
         r.variables == req.variables && r.user == req.user && r.pipeline == req.pipeline && r.created == now
  {
    hide ConsistentBut, ScheduleAsync, View, Refusal, TriedAtOnce, ListsOwn;
    RequestWrites(s, req, now);
    ConsistentOwn(s);
    ScheduleKeepsOwn(s, req, now);
    EndedForever(ScheduleAsync(s, req, now), events, s', req.id);
    if req.id in s'.known {
      RecordIs(s', req.id);
    }
  }

  // ---------------------------------------------------------------------------------------------
  // Canceled after the start
  // ---------------------------------------------------------------------------------------------

  /** The job is displaced, found on a wait list by a shutdown, or completed with a canceled context. */
  ghost predicate CancelsStarted(s: State, e: Event, id: JobId) {
    match e
    case Schedule(req, _) => MustWait(s, req) && req.pipeline in s.defs && Displaces(s, req) == Some(id)
    case StopAll => OnSomeList(s, id)
    case Complete(x, _, ctxCanceled, _) => x == id && ctxCanceled
    case _ => false
  }

  ghost predicate CanceledIn(s: State, events: seq<Event>, id: JobId)
    decreases |events|
  {
    events != [] && DefsUsable(s.defs) && RunnerEvents.Enabled(s, events[0]) &&
    (CancelsStarted(s, events[0], id) || CanceledIn(Next(s, events[0]), events[1..], id))
  }

  ghost predicate Marked(s: State, id: JobId) {
    id in s.jobs && s.jobs[id].canceled
  }

  /** What one step says about a job that is started in the end: it is canceled now exactly for these reasons. */
  ghost predicate MarkedFor(s: State, s': State, e: Event, id: JobId) {
    && (id !in s'.jobs ==> !CancelsStarted(s, e, id) && !Marked(s, id))
    && (id in s'.jobs && s'.jobs[id].start.Some? ==>
          (s'.jobs[id].canceled <==> Marked(s, id) || CancelsStarted(s, e, id)))
    && (id in s'.jobs && Live(s'.jobs[id]) ==> !Marked(s, id) && !CancelsStarted(s, e, id))
  }

  // A dispatch cancels only jobs that it does not start.
  lemma MovedMarks(s: State, s': State, p: string, now: int, id: JobId)
    requires Moves(s, s', p, now) && id in s.jobs
    ensures id in s'.jobs
    ensures s'.jobs[id].start.Some? || Live(s'.jobs[id]) ==> s'.jobs[id].canceled == s.jobs[id].canceled
  {
    assert JobMove(s.jobs[id], s'.jobs[id], now);
  }

  lemma DispatchMarks(s: State, s1: State, p: string, now: int, id: JobId)
    requires Consistent(s) && s1.wait == s.wait && s1.jobs.Keys == s.jobs.Keys
    requires forall x | x in s.jobs :: s1.jobs[x].pipeline == s.jobs[x].pipeline
    ensures var s' := StartJobsOnWaitList(s1, p, now);
      && s'.jobs.Keys == s.jobs.Keys
      && (id in s.jobs && (s'.jobs[id].start.Some? || Live(s'.jobs[id])) ==>
            s'.jobs[id].canceled == s1.jobs[id].canceled)
  {
    hide ConsistentBut, StartJobsOnWaitList, Moves, KeepsLive;
    ConsistentTidy(s, {}, p);
    OwnEdited(s, s1, p);
    WaitListMoves(s1, p, now);
    if id in s.jobs {
      MovedMarks(s1, StartJobsOnWaitList(s1, p, now), p, now, id);
    }
  }

  lemma CompletionMarks(s: State, e: Event, id: JobId)
    requires Consistent(s) && RunnerEvents.Enabled(s, e) && e.Complete?
    ensures MarkedFor(s, JobCompleted(s, e.id, e.err, e.ctxCanceled, e.now), e, id)
  {
    hide ConsistentBut, StartJobsOnWaitList, JobCompleted;
    CompletedKeys(s, e, id);
    assert s.jobs[e.id].start.Some? by { ConsistentTidy(s, {}, ""); }
    CompletionWrites(s, e.id, e.err, e.ctxCanceled, e.now);
  }

  lemma CompletedKeys(s: State, e: Event, id: JobId)
    requires Consistent(s) && RunnerEvents.Enabled(s, e) && e.Complete?
    ensures var s' := JobCompleted(s, e.id, e.err, e.ctxCanceled, e.now);
      && s'.jobs.Keys == s.jobs.Keys
      && (id in s.jobs && id != e.id && (s'.jobs[id].start.Some? || Live(s'.jobs[id])) ==>
            s'.jobs[id].canceled == s.jobs[id].canceled)
  {
    hide ConsistentBut, StartJobsOnWaitList;
    var s1 := s.(jobs := s.jobs[e.id := CompletedJob(s.jobs[e.id], e.err, e.ctxCanceled, e.now)]);
    DispatchMarks(s, s1, s.jobs[e.id].pipeline, e.now, id);
  }

  lemma TimerMarks(s: State, e: Event, id: JobId)
    requires Consistent(s) && e.TimerFired?
    ensures MarkedFor(s, StartDelayedJob(s, e.id, e.now), e, id)
  {
    hide ConsistentBut, StartJobsOnWaitList;
    if e.id in s.known && e.id in s.jobs && !s.jobs[e.id].canceled {
      var s1 := s.(jobs := s.jobs[e.id := s.jobs[e.id].(timer := false)]);
      DispatchMarks(s, s1, s.jobs[e.id].pipeline, e.now, id);
    }
  }

  // A request that has to wait cancels what it displaces, and nothing else.
  lemma WaitingMarks(s: State, e: Event, id: JobId)
    requires Consistent(s) && DefsUsable(s.defs) && e.Schedule? && MustWait(s, e.req)
    ensures MarkedFor(s, ScheduleAsync(s, e.req, e.now), e, id)
  {
    hide ConsistentBut, ScheduleAsync, Displaces, MustWait;
    QueuedIs(s, e.req, e.now);
    NewIsLive(s, e.req, e.now);
  }

  lemma NewIsLive(s: State, req: Request, now: int)
    requires req.pipeline in s.defs
    ensures Live(NewJob(s.defs[req.pipeline], req, s.tickets, now))
  {
  }

  lemma TriedMarks(s: State, e: Event, id: JobId)
    requires Consistent(s) && DefsUsable(s.defs) && e.Schedule? && Takes(s, e.req) && !MustWait(s, e.req)
    ensures MarkedFor(s, ScheduleAsync(s, e.req, e.now), e, id)
  {
    hide ConsistentBut, ScheduleAsync, StartJob, Displaces, MustWait, Moves, NewJob, FreeSlots;
    var req, s1 := e.req, Fresh(s, e.req, e.now);
    StartsAtOnce(s, req, e.now);
    FreshMoves(s, req, e.now);
    NewIsLive(s, req, e.now);
    MovedKeys(s1, StartJob(s1, req.id, e.now), req.pipeline, e.now);
    if id in s1.jobs {
      MovedMarks(s1, StartJob(s1, req.id, e.now), req.pipeline, e.now, id);
    }
  }

  lemma MovedKeys(s: State, s': State, p: string, now: int)
    requires Moves(s, s', p, now)
    ensures s'.jobs.Keys == s.jobs.Keys
  {
  }

  lemma ScheduleMarks(s: State, e: Event, id: JobId)
    requires Consistent(s) && DefsUsable(s.defs) && RunnerEvents.Enabled(s, e) && e.Schedule?
    ensures MarkedFor(s, ScheduleAsync(s, e.req, e.now), e, id)
  {
    hide Consistent, ScheduleAsync, Displaces, Refusal, FreeSlots;
    if Refusal(s, e.req.pipeline).Some? {
      Refused(s, e.req, e.now);
    } else if MustWait(s, e.req) {
      WaitingMarks(s, e, id);
    } else {
      TriedMarks(s, e, id);
    }
  }

  lemma ReportMarks(s: State, e: Event, id: JobId)
    requires e.TaskChange?
    ensures MarkedFor(s, HandleTaskChange(s, e.id, e.name, e.report), e, id)
  {
    hide ReportedJob, TaskErrored, FailFast, ByName;
    if TaskKnown(s, e.id, e.name) {
      ReportKeeps(s.jobs[e.id], e.name, e.report);
    }
  }

  lemma ShutdownMarks(s: State, id: JobId)
    requires Consistent(s)
    ensures MarkedFor(s, Shutdown(s), StopAll, id)
  {
    hide ConsistentBut;
    if p :| p in s.wait && id in s.wait[p] {
      ConsistentTidy(s, {}, p);
    }
  }

  lemma StepMarks(s: State, e: Event, id: JobId)
    requires Consistent(s) && DefsUsable(s.defs) && RunnerEvents.Enabled(s, e)
    ensures MarkedFor(s, Next(s, e), e, id)
  {
    hide Consistent, MarkedFor, ScheduleAsync, JobCompleted, StartDelayedJob, HandleTaskChange, Shutdown, RankingsFor;
    match e
    case Schedule(req, now) => ScheduleMarks(s, e, id);
    case Complete(x, err, ctxCanceled, now) => CompletionMarks(s, e, id);
    case TimerFired(x, now) => TimerMarks(s, e, id);
    case TaskChange(x, name, report) => ReportMarks(s, e, id);
    case StopAll => ShutdownMarks(s, id);
    case _ => OtherMarks(s, e, id);
  }

  lemma OtherMarks(s: State, e: Event, id: JobId)
    requires DefsUsable(s.defs) && RunnerEvents.Enabled(s, e)
    requires e.CancelRequest? || e.Save? || e.StageChange? || e.Redefine?
    ensures MarkedFor(s, Next(s, e), e, id)
  {
    hide RankingsFor, ByName, RemovedIds, SweepList;
  }

  /**
   * Over every run: a job that was started counts as canceled exactly if it was displaced, was found on a wait list
   * by a shutdown, or was completed with a canceled context; and so says its record.
   */
  lemma {:induction false} StartedCanceledIff(s: State, events: seq<Event>, s': State, id: JobId)
    requires Consistent(s) && AnyRun(s, events, s') && id in s'.spawned
    ensures id in s'.jobs && (s'.jobs[id].canceled <==> Marked(s, id) || CanceledIn(s, events, id))
    ensures id in s'.known ==> id in View(s') && View(s')[id].canceled == s'.jobs[id].canceled
    decreases |events|
  {
    hide ConsistentBut, CancelsStarted, View, ListsOwn;
    if events == [] {
      ConsistentTidy(s, {}, "");
      if id in s'.known {
        RecordIs(s', id);
      }
    } else {
      var e, s1 := events[0], Next(s, events[0]);
      StepKeepsConsistent(s, e);
      StepMarks(s, e, id);
      StartedCanceledIff(s1, events[1..], s', id);
      if id in s1.jobs {
        ConsistentOwn(s1);
        EndedForever(s1, events[1..], s', id);
        RunKeepsConsistent(s1, events[1..], s');
        ConsistentTidy(s', {}, "");
        assert s1.jobs[id].start.Some? || Live(s1.jobs[id]);
      }
    }
  }

  // ---------------------------------------------------------------------------------------------
  // Delays
  // ---------------------------------------------------------------------------------------------

  /** The start delay of the job still runs, or it was canceled before it started. */
  predicate HeldBack(j: Job) {
    j.start.None? && (j.canceled || (j.startDelay > 0 && j.timer))
  }

  lemma ScheduleHolds(s: State, req: Request, now: int, id: JobId)
    requires Consistent(s) && DefsUsable(s.defs) && req.id !in s.jobs && id in s.jobs && HeldBack(s.jobs[id])
    ensures var s' := ScheduleAsync(s, req, now); id in s'.jobs && HeldBack(s'.jobs[id])
  {
    hide ConsistentBut, ScheduleAsync, StartJob, Displaces, NewJob, FreeSlots, Refusal, MustWait;
    if Refusal(s, req.pipeline).Some? {
      Refused(s, req, now);
    } else if MustWait(s, req) {
      QueuedIs(s, req, now);
    } else {
      StartsAtOnce(s, req, now);
      NewIsLive(s, req, now);
      StartSkips(Fresh(s, req, now), req.id, now, id);
    }
  }

  /** Every operation but its own timer leaves such a job held back. */
  lemma StepHolds(s: State, e: Event, id: JobId)
    requires Consistent(s) && DefsUsable(s.defs) && RunnerEvents.Enabled(s, e) && id in s.jobs && HeldBack(s.jobs[id])
    requires !(e.TimerFired? && e.id == id)
    ensures id in Next(s, e).jobs && HeldBack(Next(s, e).jobs[id])
  {
    hide Consistent, ScheduleAsync, StartJobsOnWaitList, RankingsFor, RemovedIds, SweepList, HandleTaskChange;
    match e
    case Schedule(req, now) => ScheduleHolds(s, req, now, id);
    case Complete(x, err, ctxCanceled, now) =>
      SpawnedIsStarted(s, x);
      var s1 := s.(jobs := s.jobs[x := CompletedJob(s.jobs[x], err, ctxCanceled, now)]);
      DispatchSkips(s1, s.jobs[x].pipeline, now, id);
    case TimerFired(x, now) =>
      if x in s.known && x in s.jobs && !s.jobs[x].canceled {
        var s1 := s.(jobs := s.jobs[x := s.jobs[x].(timer := false)]);
        DispatchSkips(s1, s.jobs[x].pipeline, now, id);
      }
    case TaskChange(x, name, report) => ReportHolds(s, x, name, report, id);
    case _ =>
  }

  lemma SpawnedIsStarted(s: State, id: JobId)
    requires Consistent(s) && id in s.spawned
    ensures id in s.jobs && s.jobs[id].start.Some?
  {
  }

  lemma ReportHolds(s: State, x: JobId, name: string, r: TaskReport, id: JobId)
    requires id in s.jobs && HeldBack(s.jobs[id])
    ensures var s' := HandleTaskChange(s, x, name, r); id in s'.jobs && HeldBack(s'.jobs[id])
  {
    hide ReportedJob, TaskErrored, FailFast, ByName;
    if TaskKnown(s, x, name) {
      ReportKeeps(s.jobs[x], name, r);
    }
  }

  /** A delayed job is not started before its timer has fired, whatever slots become free. */
  lemma {:induction false} NotBeforeTimer(s: State, events: seq<Event>, s': State, id: JobId)
    requires Consistent(s) && AnyRun(s, events, s') && id in s.jobs && HeldBack(s.jobs[id])
    requires forall e | e in events :: !(e.TimerFired? && e.id == id)
    ensures id in s'.jobs && HeldBack(s'.jobs[id]) && id !in s'.spawned
    decreases |events|
  {
    hide ConsistentBut, HeldBack;
    if events == [] {
      ConsistentTidy(s, {}, "");
      HeldIsNotStarted(s.jobs[id]);
    } else {
      StepHolds(s, events[0], id);
      StepKeepsConsistent(s, events[0]);
      NotBeforeTimer(Next(s, events[0]), events[1..], s', id);
    }
  }

  lemma HeldIsNotStarted(j: Job)
    requires HeldBack(j)
    ensures j.start.None?
  {
  }

  // ---------------------------------------------------------------------------------------------
  // Failed and canceled tasks
  // ---------------------------------------------------------------------------------------------

  /** The step leaves the tasks of the job alone. */
  ghost predicate SameTasks(s: State, s': State, id: JobId) {
    id in s.jobs ==>
      id in s'.jobs && s'.jobs[id].tasks == s.jobs[id].tasks && s'.jobs[id].firstFailed == s.jobs[id].firstFailed
  }

  lemma MovedTasks(s: State, s': State, p: string, now: int, id: JobId)
    requires Moves(s, s', p, now)
    ensures SameTasks(s, s', id)
  {
    if id in s.jobs {
      assert JobMove(s.jobs[id], s'.jobs[id], now);
    }
  }

  lemma DispatchTasks(s: State, s1: State, p: string, now: int, id: JobId)
    requires Consistent(s) && s1.wait == s.wait && s1.jobs.Keys == s.jobs.Keys
    requires forall x | x in s.jobs :: s1.jobs[x].pipeline == s.jobs[x].pipeline
    ensures SameTasks(s1, StartJobsOnWaitList(s1, p, now), id)
  {
    hide ConsistentBut, StartJobsOnWaitList, Moves, KeepsLive;
    ConsistentTidy(s, {}, p);
    OwnEdited(s, s1, p);
    WaitListMoves(s1, p, now);
    MovedTasks(s1, StartJobsOnWaitList(s1, p, now), p, now, id);
  }

  lemma ScheduleTasks(s: State, req: Request, now: int, id: JobId)
    requires Consistent(s) && DefsUsable(s.defs) && req.id !in s.jobs
    ensures SameTasks(s, ScheduleAsync(s, req, now), id)
  {
    hide ConsistentBut, ScheduleAsync, StartJob, Displaces, Moves, NewJob, FreeSlots, Refusal, MustWait;
    if Refusal(s, req.pipeline).Some? {
      Refused(s, req, now);
    } else if MustWait(s, req) {
      QueuedIs(s, req, now);
    } else {
      StartsAtOnce(s, req, now);
      FreshMoves(s, req, now);
      NewIsLive(s, req, now);
      MovedTasks(Fresh(s, req, now), StartJob(Fresh(s, req, now), req.id, now), req.pipeline, now, id);
    }
  }

  /** Only a cancellation on request and the reports on tasks and stages touch the tasks of a job. */
  lemma OnlyReportsTouchTasks(s: State, e: Event, id: JobId)
    requires Consistent(s) && DefsUsable(s.defs) && RunnerEvents.Enabled(s, e)
    requires !e.CancelRequest? && !e.TaskChange? && !e.StageChange?
    ensures SameTasks(s, Next(s, e), id)
  {
    hide ConsistentBut, ScheduleAsync, JobCompleted, StartDelayedJob, RankingsFor, RemovedIds, SweepList;
    match e
    case Schedule(req, now) => ScheduleTasks(s, req, now, id);
    case Complete(x, err, ctxCanceled, now) => CompleteTasks(s, x, err, ctxCanceled, now, id);
    case TimerFired(x, now) => TimerTasks(s, x, now, id);
    case _ =>
  }

  lemma CompleteTasks(s: State, x: JobId, err: Option<string>, ctxCanceled: bool, now: int, id: JobId)
    requires Consistent(s) && x in s.jobs
    ensures SameTasks(s, JobCompleted(s, x, err, ctxCanceled, now), id)
  {
    hide ConsistentBut, StartJobsOnWaitList;
    var s1 := s.(jobs := s.jobs[x := CompletedJob(s.jobs[x], err, ctxCanceled, now)]);
    DispatchTasks(s, s1, s.jobs[x].pipeline, now, id);
  }

  lemma TimerTasks(s: State, x: JobId, now: int, id: JobId)
    requires Consistent(s)
    ensures SameTasks(s, StartDelayedJob(s, x, now), id)
  {
    hide ConsistentBut, StartJobsOnWaitList;
    if x in s.known && x in s.jobs && !s.jobs[x].canceled {
      var s1 := s.(jobs := s.jobs[x := s.jobs[x].(timer := false)]);
      DispatchTasks(s, s1, s.jobs[x].pipeline, now, id);
    }
  }

  /** The index of the task that a report on the job is about. */
  function Subject(s: State, id: JobId, name: string): Option<nat> {
    if id in s.known && id in s.jobs then ByName(s.jobs[id].tasks, name) else None
  }

  lemma ReportedFirst(s: State, id: JobId, name: string)
    ensures var k := Subject(s, id, name);
      if k.Some? then id in s.known && id in s.jobs && FirstNamed(s.jobs[id].tasks, name, k.value)
      else id in s.known && id in s.jobs ==>
        forall i | 0 <= i < |s.jobs[id].tasks| :: s.jobs[id].tasks[i].name != name
  {
    hide ByName;
    if id in s.known && id in s.jobs {
      ByNameInRange(s.jobs[id].tasks, name);
    }
  }

  /** A report that a task of the job has failed, other than by a cancellation. */
  ghost predicate ReportsFailure(s: State, e: Event, id: JobId) {
    e.TaskChange? && e.id == id && Subject(s, id, e.name).Some? && e.report.errored && !e.report.ctxCanceled
  }

  ghost function FirstFailure(s: State, events: seq<Event>, id: JobId): Option<nat>
    decreases |events|
  {
    if events == [] || !(DefsUsable(s.defs) && RunnerEvents.Enabled(s, events[0])) then None
    else if ReportsFailure(s, events[0], id) then Subject(s, id, events[0].name)
    else FirstFailure(Next(s, events[0]), events[1..], id)
  }

  /** No task of the job has failed before the first failed one is remembered. */
  ghost predicate Remembered(j: Job) {
    j.firstFailed.None? ==> forall i | 0 <= i < |j.tasks| :: !j.tasks[i].errored
  }

  lemma FailureStep(s: State, e: Event, id: JobId)
    requires Consistent(s) && DefsUsable(s.defs) && RunnerEvents.Enabled(s, e) && id in s.jobs && Remembered(s.jobs[id])
    ensures var s' := Next(s, e);
      && id in s'.jobs && Remembered(s'.jobs[id])
      && s'.jobs[id].firstFailed ==
        if s.jobs[id].firstFailed.Some? then s.jobs[id].firstFailed
        else if ReportsFailure(s, e, id) then Subject(s, id, e.name) else None
  {
    hide Consistent, Subject, CancelJob, HandleTaskChange, HandleStageChange, ByName, Cancelable;
    match e
    case CancelRequest(x) => CancelWrites(s, x);
    case TaskChange(x, name, r) =>
      ReportedFirst(s, x, name);
      if Subject(s, x, name).Some? {
        ReportWrites(s, x, name, r, Subject(s, x, name).value);
      } else {
        UnknownReports(s, x, name, r, Waiting);
      }
    case StageChange(x, name, status) =>
      ReportedFirst(s, x, name);
      if Subject(s, x, name).Some? {
        StageWrites(s, x, name, status, Subject(s, x, name).value);
      } else {
        UnknownReports(s, x, name, NO_REPORT, status);
      }
    case _ => OnlyReportsTouchTasks(s, e, id);
  }

  const NO_REPORT := TaskReport(None, None, 0, false, false, None, false)

  /** The remembered task is the one of the first report of a failure that was no cancellation. */
  lemma {:induction false} FirstFailureIs(s: State, events: seq<Event>, s': State, id: JobId)
    requires Consistent(s) && AnyRun(s, events, s') && id in s.jobs && Remembered(s.jobs[id])
    ensures id in s'.jobs && Remembered(s'.jobs[id])
    ensures s'.jobs[id].firstFailed ==
      if s.jobs[id].firstFailed.Some? then s.jobs[id].firstFailed else FirstFailure(s, events, id)
    decreases |events|
  {
    hide Consistent, Remembered, ReportsFailure, Subject;
    if events != [] {
      FailureStep(s, events[0], id);
      StepKeepsConsistent(s, events[0]);
      ReportedSome(s, events[0], id);
      FirstFailureIs(Next(s, events[0]), events[1..], s', id);
    }
  }

  lemma ReportedSome(s: State, e: Event, id: JobId)
    ensures ReportsFailure(s, e, id) ==> e.TaskChange? && Subject(s, id, e.name).Some?
  {
  }

  /** The step cancels the task: with its waiting job, or because its report says so. */
  ghost predicate CancelsTask(s: State, e: Event, id: JobId, k: nat) {
    match e
    case CancelRequest(x) => x == id && Cancelable(s, id)
    case TaskChange(x, name, r) => x == id &&
      var n := Subject(s, id, name);
      n.Some? && n.value < |s.jobs[id].tasks| &&
      ((n.value == k && r.ctxCanceled) || (FailedAfter(s.jobs[id].tasks[n.value], r) && FailsFast(s, id)))
    case _ => false
  }

  ghost predicate TaskCanceledIn(s: State, events: seq<Event>, id: JobId, k: nat)
    decreases |events|
  {
    events != [] && DefsUsable(s.defs) && RunnerEvents.Enabled(s, events[0]) &&
    (CancelsTask(s, events[0], id, k) || TaskCanceledIn(Next(s, events[0]), events[1..], id, k))
  }

  /** What the step does to the task: its name and definition stay, and it is canceled exactly then. */
  ghost predicate TaskMarked(s: State, s': State, e: Event, id: JobId, k: nat)
    requires id in s.jobs && k < |s.jobs[id].tasks|
  {
    && id in s'.jobs && |s'.jobs[id].tasks| == |s.jobs[id].tasks|
    && var t, t' := s.jobs[id].tasks[k], s'.jobs[id].tasks[k];
       t'.name == t.name && t'.def == t.def && (t'.canceled <==> t.canceled || CancelsTask(s, e, id, k))
  }

  lemma ReportedTask(s: State, e: Event, id: JobId, k: nat)
    requires e.TaskChange? && id in s.jobs && k < |s.jobs[id].tasks|
    ensures TaskMarked(s, HandleTaskChange(s, e.id, e.name, e.report), e, id, k)
  {
    hide HandleTaskChange, Cancelable, FailedAfter, FailsFast, Subject;
    var n := Subject(s, e.id, e.name);
    ReportedFirst(s, e.id, e.name);
    if n.Some? {
      ReportWrites(s, e.id, e.name, e.report, n.value);
    } else {
      UnknownReports(s, e.id, e.name, e.report, Waiting);
    }
  }

  lemma StagedTask(s: State, e: Event, id: JobId, k: nat)
    requires e.StageChange? && id in s.jobs && k < |s.jobs[id].tasks|
    ensures TaskMarked(s, HandleStageChange(s, e.id, e.name, e.status), e, id, k)
  {
    hide HandleStageChange, Subject;
    var n := Subject(s, e.id, e.name);
    ReportedFirst(s, e.id, e.name);
    if n.Some? {
      StageWrites(s, e.id, e.name, e.status, n.value);
    } else {
      UnknownReports(s, e.id, e.name, NO_REPORT, e.status);
    }
  }

  lemma TaskStep(s: State, e: Event, id: JobId, k: nat)
    requires Consistent(s) && DefsUsable(s.defs) && RunnerEvents.Enabled(s, e) && id in s.jobs && k < |s.jobs[id].tasks|
    ensures TaskMarked(s, Next(s, e), e, id, k)
  {
    hide Consistent, CancelJob, HandleTaskChange, HandleStageChange, Subject, Cancelable;
    match e
    case CancelRequest(x) => CancelWrites(s, x);
    case TaskChange(x, name, r) => ReportedTask(s, e, id, k);
    case StageChange(x, name, status) => StagedTask(s, e, id, k);
    case _ => OnlyReportsTouchTasks(s, e, id);
  }

  /** A task keeps its name and definition, and is canceled exactly by a report that says so or with its waiting job. */
  lemma {:induction false} TaskCanceledIff(s: State, events: seq<Event>, s': State, id: JobId, k: nat)
    requires Consistent(s) && AnyRun(s, events, s') && id in s.jobs && k < |s.jobs[id].tasks|
    ensures id in s'.jobs && |s'.jobs[id].tasks| == |s.jobs[id].tasks|
    ensures var t, t' := s.jobs[id].tasks[k], s'.jobs[id].tasks[k];
      t'.name == t.name && t'.def == t.def && (t'.canceled <==> t.canceled || TaskCanceledIn(s, events, id, k))
    decreases |events|
  {
    hide Consistent, CancelsTask;
    if events != [] {
      TaskStep(s, events[0], id, k);
      StepKeepsConsistent(s, events[0]);
      TaskCanceledIff(Next(s, events[0]), events[1..], s', id, k);
    }
  }
}
