// What each operation writes, field by field: into the job it creates, completes, cancels or is told about, and
// into the record of a job.
module RunnerWrites {
  import opened Basics
  import opened Definitions
  import opened Jobs
  import opened WaitList
  import opened RunnerState
  import opened Dispatch
  import opened Retention
  import opened RunnerEvents
  import opened RunnerLifecycle
  import opened RunnerIndexes
  import opened RunnerSchedule
  import opened Persistence
  import TaskOrder

  // ---------------------------------------------------------------------------------------------
  // A request
  // ---------------------------------------------------------------------------------------------

  /** Why a request is refused, in the order of the checks. */
  lemma RefusalIs(s: State, p: string)
    requires p in s.defs ==> Accepted(s.defs[p])
    ensures Refusal(s, p) == Some(ShuttingDown) <==> s.shutting
    ensures Refusal(s, p) == Some(NotDefined) <==> !s.shutting && p !in s.defs
    ensures Refusal(s, p) == Some(NoQueue) <==> !s.shutting && p in s.defs && s.defs[p].queueLimit == Some(0)
    ensures Refusal(s, p) == Some(QueueFull) <==>
      && !s.shutting && p in s.defs && s.defs[p].queueStrategy.Append?
      && s.defs[p].queueLimit.Some? && 0 < s.defs[p].queueLimit.value <= |ListOf(s.wait, p)|
  {
  }

  /** The request finds a free slot and has no delay. */
  ghost predicate TriedAtOnce(s: State, req: Request)
    requires req.pipeline in s.defs
  {
    s.defs[req.pipeline].startDelay <= 0 && RunningJobs(s, req.pipeline) < s.defs[req.pipeline].concurrency
  }

  // The new job, however the request goes on.
  lemma RequestOutcome(s: State, req: Request, now: int)
    requires Consistent(s) && Takes(s, req)
    ensures req.pipeline in s.defs && req.id in ScheduleAsync(s, req, now).jobs
    ensures var s1, s' := Fresh(s, req, now), ScheduleAsync(s, req, now);
      && s'.known == s1.known && s'.byPipeline == s1.byPipeline && s'.tickets == s1.tickets
      && s'.jobs[req.id] ==
        if !TriedAtOnce(s, req) then s1.jobs[req.id]
        else if req.builds then s1.jobs[req.id].(start := Some(now), scheduler := true)
        else
          s1.jobs[req.id].(canceled := true, lastError := Some("building execution graph"), scheduler := true)
  {
    hide ConsistentBut, ScheduleAsync, StartJob, Enqueue, RunningJobs, Refusal, LimitReady, NewJob, Moves, KeepsLive;
    ScheduleGoes(s, req, now);
    var p, s1 := req.pipeline, Fresh(s, req, now);
    ConsistentTidy(s, {}, p);
    CreatedCount(s, req, now);
    NewestTicket(s, req, now);
    if TriedAtOnce(s, req) {
      TriedWrites(s, req, now);
    } else if LimitReady(s.defs[p]) {
      QueuedWrites(s1, p, req.id);
    }
  }

  lemma QueuedWrites(s: State, p: string, id: JobId)
    requires p in s.defs && LimitReady(s.defs[p]) && id in s.jobs && id !in ListOf(s.wait, p)
    ensures var s' := Enqueue(s, p, id);
      && id in s'.jobs && s'.jobs[id] == s.jobs[id]
      && s'.known == s.known && s'.byPipeline == s.byPipeline && s'.tickets == s.tickets
  {
    hide ModifyWaitList;
    VictimListed(s.defs[p], PartOf(s.jobs), ListOf(s.wait, p), id);
  }

  lemma TriedWrites(s: State, req: Request, now: int)
    requires Consistent(s) && req.pipeline in s.defs && req.id !in s.jobs
    ensures var s1 := Fresh(s, req, now); var s' := StartJob(s1, req.id, now);
      && req.id in s'.jobs
      && s'.known == s1.known && s'.byPipeline == s1.byPipeline && s'.tickets == s1.tickets
      && s'.jobs[req.id] ==
        if req.builds then s1.jobs[req.id].(start := Some(now), scheduler := true)
        else
          s1.jobs[req.id].(canceled := true, lastError := Some("building execution graph"), scheduler := true)
  {
    hide ConsistentBut, StartJobsOnWaitList, Moves, KeepsLive;
    var p, s1 := req.pipeline, Fresh(s, req, now);
    if !req.builds {
      ConsistentTidy(s, {}, p);
      var s2 := Unbuildable(s1, req.id);
      OwnEdited(s, s2, p);
      WaitListMoves(s2, p, now);
      StaysLeftover(s2, StartJobsOnWaitList(s2, p, now), p, now, req.id);
      MovesKnown(s2, StartJobsOnWaitList(s2, p, now), p, now);
    }
  }

  lemma MovesKnown(s: State, s': State, p: string, now: int)
    requires Moves(s, s', p, now)
    ensures s'.known == s.known && s'.byPipeline == s.byPipeline && s'.tickets == s.tickets
  {
  }

  /**
   * What an accepted request leaves of itself: what it asked for, what the definition says and the time, and that
   * its job was started now, failed to start, or is left to wait.
   */
  lemma RequestWrites(s: State, req: Request, now: int)
    requires Consistent(s) && Takes(s, req)
    ensures req.pipeline in s.defs && req.id in ScheduleAsync(s, req, now).jobs
    ensures var s', d := ScheduleAsync(s, req, now), s.defs[req.pipeline]; var j := s'.jobs[req.id];
      && j.pipeline == req.pipeline && j.partition == req.partition && j.user == req.user
      && j.variables == req.variables && j.env == d.env && j.startDelay == d.startDelay && j.builds == req.builds
      && j.created == now && j.tasks == req.tasks && j.ticket == s.tickets && j.timer == (d.startDelay > 0)
      && !j.completed && j.end.None? && j.firstFailed.None?
      && s'.known == s.known + {req.id} && s'.tickets == s.tickets + 1
      && ListOf(s'.byPipeline, req.pipeline) == ListOf(s.byPipeline, req.pipeline) + [req.id]
    ensures var j := ScheduleAsync(s, req, now).jobs[req.id];
      && j.start == (if TriedAtOnce(s, req) && req.builds then Some(now) else None)
      && j.canceled == (TriedAtOnce(s, req) && !req.builds) && j.scheduler == TriedAtOnce(s, req)
      && j.lastError == if j.canceled then Some("building execution graph") else None
  {
    hide ConsistentBut, ScheduleAsync, TriedAtOnce, Refusal;
    RequestOutcome(s, req, now);
  }

  /** The records of a definition's tasks: as defined, waiting, and with nothing that a run would leave. */
  lemma NewRecords(tasks: map<string, TaskDef>, records: seq<JobTask>, i: nat)
    requires TaskOrder.TaskRecords(tasks, records) && i < |records|
    ensures var t := records[i];
      && t.name in tasks && t.def == tasks[t.name] && t.status == Waiting && t.start.None? && t.end.None?
      && !t.skipped && t.exitCode == 0 && !t.errored && t.error.None? && !t.canceled
  {
    assert records[i] in records;
  }

  // ---------------------------------------------------------------------------------------------
  // Completion, timers, cancellation, shutdown
  // ---------------------------------------------------------------------------------------------

  /** What a completion leaves of a started job: its end and error, and canceled if it was or its context was. */
  lemma CompletionWrites(s: State, id: JobId, err: Option<string>, ctxCanceled: bool, now: int)
    requires Consistent(s) && id in s.jobs && s.jobs[id].start.Some?
    ensures var s', j := JobCompleted(s, id, err, ctxCanceled, now), s.jobs[id];
      && id in s'.jobs
      && s'.jobs[id] == j.(completed := true, end := Some(now), lastError := err,
                           canceled := j.canceled || ctxCanceled, scheduler := false)
      && s'.token
  {
    hide ConsistentBut, StartJobsOnWaitList, Moves, KeepsLive;
    var p := s.jobs[id].pipeline;
    var s1 := s.(jobs := s.jobs[id := CompletedJob(s.jobs[id], err, ctxCanceled, now)]);
    ConsistentTidy(s, {}, p);
    OwnEdited(s, s1, p);
    WaitListMoves(s1, p, now);
    StaysLeftover(s1, StartJobsOnWaitList(s1, p, now), p, now, id);
  }

  /** Only a known job that has neither started nor ended is canceled by a request, and then with all its tasks. */
  ghost predicate Cancelable(s: State, id: JobId) {
    id in s.known && id in s.jobs && !s.jobs[id].canceled && !s.jobs[id].completed && s.jobs[id].start.None?
  }

  lemma CancelWrites(s: State, id: JobId)
    ensures var s' := CancelJob(s, id);
      if !Cancelable(s, id) then s' == s
      else
        && s' == s.(jobs := s.jobs[id := s'.jobs[id]], token := true)
        && var j, j' := s.jobs[id], s'.jobs[id];
           && j' == j.(canceled := true, tasks := j'.tasks) && |j'.tasks| == |j.tasks|
           && forall i | 0 <= i < |j.tasks| :: j'.tasks[i] == j.tasks[i].(canceled := true)
    ensures CancelRefusal(s, id) == Some(JobNotFound) <==> id !in s.known || id !in s.jobs
    ensures CancelRefusal(s, id) == Some(AlreadyCompleted) <==>
      id in s.known && id in s.jobs && s.jobs[id].completed && !s.jobs[id].canceled
  {
  }

  /** A timer that fires is over, and changes nothing else about a job that the dispatch leaves alone. */
  lemma TimerWrites(s: State, id: JobId, now: int)
    requires Consistent(s) && id in s.known && id in s.jobs && !s.jobs[id].canceled
    ensures var s', j := StartDelayedJob(s, id, now), s.jobs[id];
      && id in s'.jobs && !s'.jobs[id].timer
      && (s'.jobs[id].start == j.start && !s'.jobs[id].canceled ==> s'.jobs[id] == j.(timer := false))
  {
    hide ConsistentBut, Tidy, StartJobsOnWaitList, KeepsLive, Moves;
    var p := s.jobs[id].pipeline;
    var s1 := s.(jobs := s.jobs[id := s.jobs[id].(timer := false)]);
    ConsistentTidy(s, {}, p);
    OwnEdited(s, s1, p);
    WaitListMoves(s1, p, now);
    MovedTimer(s1, StartJobsOnWaitList(s1, p, now), p, now, id);
  }

  lemma MovedTimer(s: State, s': State, p: string, now: int, id: JobId)
    requires Moves(s, s', p, now) && id in s.jobs
    ensures id in s'.jobs && s'.jobs[id].timer == s.jobs[id].timer
    ensures s'.jobs[id].start == s.jobs[id].start && !s'.jobs[id].canceled ==> s'.jobs[id] == s.jobs[id]
  {
    assert JobMove(s.jobs[id], s'.jobs[id], now);
  }

  /** Shutdown sets its flag, drops all lists, and cancels what was on them, leaving everything else of it. */
  lemma ShutdownWrites(s: State, id: JobId)
    requires id in s.jobs
    ensures var s' := Shutdown(s);
      && s'.shutting && s'.wait == map[] && id in s'.jobs
      && s'.jobs[id] == s.jobs[id].(canceled := s.jobs[id].canceled || exists p :: id in ListOf(s.wait, p))
      && s' == s.(shutting := true, wait := map[], jobs := s'.jobs) && s'.jobs.Keys == s.jobs.Keys
  {
    if p :| id in ListOf(s.wait, p) {
      assert p in s.wait && id in s.wait[p];
    }
    if p :| p in s.wait && id in s.wait[p] {
      assert id in ListOf(s.wait, p);
    }
  }

  // ---------------------------------------------------------------------------------------------
  // Reports on tasks and stages
  // ---------------------------------------------------------------------------------------------

  /** The first task of that name. */
  ghost predicate FirstNamed(tasks: seq<JobTask>, name: string, k: nat) {
    k < |tasks| && tasks[k].name == name && forall i | 0 <= i < k :: tasks[i].name != name
  }

  lemma FirstNamedIs(tasks: seq<JobTask>, name: string, k: nat)
    requires FirstNamed(tasks, name, k)
    ensures ByName(tasks, name) == Some(k)
  {
    ByNameInRange(tasks, name);
  }

  /** A report makes a waiting job fail fast: the definition says so, and the job has not been started. */
  ghost predicate FailsFast(s: State, id: JobId) {
    && Cancelable(s, id) && s.jobs[id].pipeline in s.defs
    && !s.defs[s.jobs[id].pipeline].continueRunningTasksAfterFailure
  }

  /** Whether the task counts as failed after the report. */
  predicate FailedAfter(t: JobTask, r: TaskReport) {
    if r.ctxCanceled then t.errored else r.errored
  }

  /** What a report leaves of the job: the first failed task, and the cancellation if it fails fast. */
  ghost predicate JobAfterReport(s: State, s': State, id: JobId, r: TaskReport, k: nat)
    requires id in s.jobs && k < |s.jobs[id].tasks|
  {
    var j, failed := s.jobs[id], FailedAfter(s.jobs[id].tasks[k], r);
    && id in s'.jobs && s' == s.(jobs := s.jobs[id := s'.jobs[id]], token := true)
    && var j' := s'.jobs[id];
       && |j'.tasks| == |j.tasks|
       && j' == j.(tasks := j'.tasks, canceled := j.canceled || (failed && FailsFast(s, id)),
                   firstFailed := if failed && j.firstFailed.None? then Some(k) else j.firstFailed)
  }

  /** What it leaves of the task. */
  ghost predicate TaskAfterReport(t: JobTask, t': JobTask, r: TaskReport, stopped: bool) {
    && t'.name == t.name && t'.def == t.def && t'.status == t.status
    && t'.start == (if r.start.Some? then r.start else t.start) && t'.end == (if r.end.Some? then r.end else t.end)
    && t'.exitCode == r.exitCode && t'.skipped == r.skipped
    && t'.canceled == (t.canceled || r.ctxCanceled || stopped)
    && t'.errored == (if r.ctxCanceled then t.errored else r.errored)
    && t'.error == (if r.ctxCanceled then t.error else r.error)
  }

  /**
   * A report on a known task: times when they are there, exit code and skipped mark as reported, canceled if the
   * context was, and otherwise the reported error. Other tasks change only in a waiting job that fails fast.
   */
  lemma ReportWrites(s: State, id: JobId, name: string, r: TaskReport, k: nat)
    requires id in s.known && id in s.jobs && FirstNamed(s.jobs[id].tasks, name, k)
    ensures var s', j := HandleTaskChange(s, id, name, r), s.jobs[id];
      var stopped := FailedAfter(j.tasks[k], r) && FailsFast(s, id);
      && JobAfterReport(s, s', id, r, k)
      && TaskAfterReport(j.tasks[k], s'.jobs[id].tasks[k], r, stopped)
      && forall i | 0 <= i < |j.tasks| && i != k ::
           s'.jobs[id].tasks[i] == j.tasks[i].(canceled := j.tasks[i].canceled || stopped)
  {
    hide CancelJob, ReportedJob, HandleTaskChange, Cancelable;
    var j := ReportedJob(s.jobs[id], name, r);
    ReportedFields(s.jobs[id], name, r, k);
    ReportOutcome(s, id, name, r, k);
    CancelWrites(s.(jobs := s.jobs[id := j], token := true), id);
    var s' := HandleTaskChange(s, id, name, r);
    assert s.jobs[id := j][id := s'.jobs[id]] == s.jobs[id := s'.jobs[id]];
  }

  lemma ReportOutcome(s: State, id: JobId, name: string, r: TaskReport, k: nat)
    requires id in s.known && id in s.jobs && FirstNamed(s.jobs[id].tasks, name, k)
    ensures var s1 := s.(jobs := s.jobs[id := ReportedJob(s.jobs[id], name, r)], token := true);
      && HandleTaskChange(s, id, name, r) ==
         (if FailedAfter(s.jobs[id].tasks[k], r) && FailsFast(s, id) then CancelJob(s1, id) else s1)
      && (Cancelable(s1, id) <==> Cancelable(s, id))
  {
    hide CancelJob, ReportedJob, HandleTaskChange;
    var s1 := s.(jobs := s.jobs[id := ReportedJob(s.jobs[id], name, r)], token := true);
    FirstNamedIs(s.jobs[id].tasks, name, k);
    ReportedFields(s.jobs[id], name, r, k);
    ReportStep(s, id, name, r, k);
    CancelWrites(s1, id);
  }

  // The report itself, before a possible cancellation.
  lemma ReportedFields(j: Job, name: string, r: TaskReport, k: nat)
    requires FirstNamed(j.tasks, name, k)
    ensures var j' := ReportedJob(j, name, r);
      && |j'.tasks| == |j.tasks| && TaskAfterReport(j.tasks[k], j'.tasks[k], r, false)
      && (forall i | 0 <= i < |j.tasks| && i != k :: j'.tasks[i] == j.tasks[i])
      && j' == j.(tasks := j'.tasks, firstFailed :=
           if FailedAfter(j.tasks[k], r) && j.firstFailed.None? then Some(k) else j.firstFailed)
      && TaskErrored(j', name) == FailedAfter(j.tasks[k], r)
  {
    hide ByName, SetTask, Reported, TaskAfterReport, FailedAfter;
    TaskReported(j.tasks[k], r);
    SetTaskAt(j, name, (t: JobTask) => Reported(t, r), k);
    var j1 := SetTask(j, name, (t: JobTask) => Reported(t, r));
    assert FirstNamed(j1.tasks, name, k);
    FirstNamedIs(j1.tasks, name, k);
  }

  lemma TaskReported(t: JobTask, r: TaskReport)
    ensures TaskAfterReport(t, Reported(t, r), r, false)
    ensures Reported(t, r).name == t.name && Reported(t, r).errored == FailedAfter(t, r)
  {
  }

  lemma SetTaskAt(j: Job, name: string, f: JobTask -> JobTask, k: nat)
    requires FirstNamed(j.tasks, name, k)
    ensures SetTask(j, name, f) == j.(tasks := j.tasks[k := f(j.tasks[k])])
  {
    hide ByName;
    FirstNamedIs(j.tasks, name, k);
  }

  lemma ReportStep(s: State, id: JobId, name: string, r: TaskReport, k: nat)
    requires id in s.known && id in s.jobs && ByName(s.jobs[id].tasks, name) == Some(k)
    requires ReportedJob(s.jobs[id], name, r).pipeline == s.jobs[id].pipeline
    ensures var j := ReportedJob(s.jobs[id], name, r); var s1 := s.(jobs := s.jobs[id := j], token := true);
      HandleTaskChange(s, id, name, r) ==
        if TaskErrored(j, name) && j.pipeline in s.defs && !s.defs[j.pipeline].continueRunningTasksAfterFailure
        then CancelJob(s1, id) else s1
  {
    hide ReportedJob, TaskErrored, CancelJob, ByName;
  }

  /** A stage report sets the status of its task, canceled if the task was, and nothing else. */
  lemma StageWrites(s: State, id: JobId, name: string, status: TaskStatus, k: nat)
    requires id in s.known && id in s.jobs && FirstNamed(s.jobs[id].tasks, name, k)
    ensures var s', j := HandleStageChange(s, id, name, status), s.jobs[id]; var t := j.tasks[k];
      s' == s.(token := true, jobs := s.jobs[id := j.(tasks := j.tasks[k :=
        t.(status := if t.canceled then TaskStatus.Canceled else status)])])
  {
    hide ByName;
    FirstNamedIs(s.jobs[id].tasks, name, k);
  }

  /** Reports on unknown jobs and unknown tasks are ignored. */
  lemma UnknownReports(s: State, id: JobId, name: string, r: TaskReport, status: TaskStatus)
    requires id in s.known && id in s.jobs ==>
      forall i | 0 <= i < |s.jobs[id].tasks| :: s.jobs[id].tasks[i].name != name
    ensures HandleTaskChange(s, id, name, r) == s && HandleStageChange(s, id, name, status) == s
  {
    if id in s.known && id in s.jobs {
      ByNameInRange(s.jobs[id].tasks, name);
    }
  }

  // ---------------------------------------------------------------------------------------------
  // Starts
  // ---------------------------------------------------------------------------------------------

  /** The time of an operation that may start jobs. */
  function TimeOf(e: Event): Option<int> {
    match e
    case Schedule(_, now) => Some(now)
    case Complete(_, _, _, now) => Some(now)
    case TimerFired(_, now) => Some(now)
    case _ => None
  }

  lemma MovedStarts(s: State, s1: State, s': State, p: string, now: int, id: JobId)
    requires Moves(s1, s', p, now) && s1.spawned == s.spawned && id in s'.spawned && id !in s.spawned
    ensures id in s'.jobs && s'.jobs[id].start == Some(now)
  {
    var begun := s'.spawned[|s.spawned|..];
    assert s'.spawned == s.spawned + begun;
    assert id in begun && JobMove(s1.jobs[id], s'.jobs[id], now);
  }

  lemma DispatchStarts(s: State, s1: State, p: string, now: int, id: JobId)
    requires Consistent(s) && s1.wait == s.wait && s1.spawned == s.spawned
    requires forall x | x in s.jobs :: x in s1.jobs && s1.jobs[x].pipeline == s.jobs[x].pipeline
    requires id in StartJobsOnWaitList(s1, p, now).spawned && id !in s.spawned
    ensures var s' := StartJobsOnWaitList(s1, p, now); id in s'.jobs && s'.jobs[id].start == Some(now)
  {
    hide ConsistentBut, StartJobsOnWaitList, Moves, KeepsLive;
    ConsistentTidy(s, {}, p);
    OwnEdited(s, s1, p);
    WaitListMoves(s1, p, now);
    MovedStarts(s, s1, StartJobsOnWaitList(s1, p, now), p, now, id);
  }

  lemma RequestStarts(s: State, req: Request, now: int, id: JobId)
    requires Consistent(s) && req.id !in s.jobs
    requires id in ScheduleAsync(s, req, now).spawned && id !in s.spawned
    ensures var s' := ScheduleAsync(s, req, now); id in s'.jobs && s'.jobs[id].start == Some(now)
  {
    hide ConsistentBut, ScheduleAsync, StartJob, RunningJobs, Refusal, LimitReady, Moves, NewJob, ModifyWaitList;
    ScheduleGoes(s, req, now);
    if Refusal(s, req.pipeline).None? {
      var d, s1 := s.defs[req.pipeline], Fresh(s, req, now);
      if d.startDelay <= 0 && RunningJobs(s1, req.pipeline) < d.concurrency {
        CreatedStarts(s, req, now, id);
      }
    }
  }

  lemma CreatedStarts(s: State, req: Request, now: int, id: JobId)
    requires Consistent(s) && req.pipeline in s.defs && req.id !in s.jobs
    requires id in StartJob(Fresh(s, req, now), req.id, now).spawned && id !in s.spawned
    ensures var s' := StartJob(Fresh(s, req, now), req.id, now); id in s'.jobs && s'.jobs[id].start == Some(now)
  {
    hide ConsistentBut, StartJob, Moves;
    FreshMoves(s, req, now);
    MovedStarts(s, Fresh(s, req, now), StartJob(Fresh(s, req, now), req.id, now), req.pipeline, now, id);
  }

  /** A job is started only by a request, a completion or a timer, and its start is the time of that. */
  lemma StepStarts(s: State, e: Event, id: JobId)
    requires Consistent(s) && DefsUsable(s.defs) && RunnerEvents.Enabled(s, e)
    requires id in Next(s, e).spawned && id !in s.spawned
    ensures TimeOf(e).Some? && id in Next(s, e).jobs && Next(s, e).jobs[id].start == TimeOf(e)
  {
    hide ConsistentBut, ScheduleAsync, StartJobsOnWaitList, RankingsFor, HandleTaskChange;
    match e
    case Schedule(req, now) => RequestStarts(s, req, now, id);
    case Complete(x, err, ctxCanceled, now) =>
      var s1 := s.(jobs := s.jobs[x := CompletedJob(s.jobs[x], err, ctxCanceled, now)]);
      DispatchStarts(s, s1, s.jobs[x].pipeline, now, id);
    case TimerFired(x, now) =>
      if x in s.known && x in s.jobs && !s.jobs[x].canceled {
        var s1 := s.(jobs := s.jobs[x := s.jobs[x].(timer := false)]);
        DispatchStarts(s, s1, s.jobs[x].pipeline, now, id);
      }
    case TaskChange(x, name, report) => TaskChangeEdits(s, x, name, report);
    case _ =>
  }

  // ---------------------------------------------------------------------------------------------
  // The sweep, the records and the reload
  // ---------------------------------------------------------------------------------------------

  /**
   * The sweep of the whole runner: a job of a defined pipeline stays in both indexes exactly by the rule for its
   * rank among the jobs of its pipeline, one of an undefined pipeline goes, and nothing else changes.
   */
  lemma SweepWrites(s: State, rankings: map<string, seq<JobId>>, now: int, id: JobId) returns (i: nat)
    requires Consistent(s) && RankingsFor(s, rankings) && id in s.known
    ensures id in s.jobs && s.jobs[id].pipeline in rankings
    ensures var j, s' := s.jobs[id], Sweep(s, rankings, now); var p := j.pipeline;
      && i < |rankings[p]| && rankings[p][i] == id
      && (id in s'.known <==> p in s.defs && Retained(s.defs[p], j, i, now))
      && (id in ListOf(s'.byPipeline, p) <==> id in s'.known)
      && s' == s.(known := s'.known, byPipeline := s'.byPipeline)
  {
    hide ConsistentBut, SweepList, RemovedIds, IsRanking;
    assert id in s.jobs by { ConsistentTidy(s, {}, ""); }
    var p := s.jobs[id].pipeline;
    ConsistentTidy(s, {}, p);
    SweepListed(s, rankings, now, p);
    var list := ListOf(s.byPipeline, p);
    assert id in list && p in s.byPipeline;
    assert IsRanking(s.jobs, list, rankings[p]);
    RankingFacts(s.jobs, list, rankings[p]);
    assert id in Elems(list) && id in Elems(rankings[p]);
    i :| 0 <= i < |rankings[p]| && rankings[p][i] == id;
    if p in s.defs {
      SweepRule(s.defs, s.jobs, p, list, rankings[p], now, i);
    } else {
      UndefinedIsEmptied(s.defs, s.jobs, p, list, rankings[p], now);
    }
  }

  /** The record of a job: every field that is persisted, of the job and of each of its tasks. */
  lemma RecordIs(s: State, id: JobId)
    requires id in s.known && id in s.jobs
    ensures id in View(s)
    ensures var r, j := View(s)[id], s.jobs[id];
      && r.id == id && r.pipeline == j.pipeline && r.user == j.user && r.variables == j.variables
      && r.completed == j.completed && r.canceled == j.canceled
      && r.created == j.created && r.start == j.start && r.end == j.end
      && |r.tasks| == |j.tasks| && forall i | 0 <= i < |j.tasks| ::
           var x, t := r.tasks[i], j.tasks[i];
           && x.name == t.name && x.script == t.def.script && x.dependsOn == t.def.dependsOn
           && x.allowFailure == t.def.allowFailure && x.status == t.status && x.start == t.start && x.end == t.end
           && x.skipped == t.skipped && x.exitCode == t.exitCode && x.errored == t.errored && x.error == t.error
  {
  }

  /** What a reload leaves out of the record starts empty, so that nothing of a restored job can be started. */
  lemma ReloadWrites(pj: PersistedJob)
    ensures var j := LoadJob(pj);
      && j.pipeline == pj.pipeline && j.user == pj.user && j.variables == pj.variables
      && j.created == pj.created && j.start == pj.start && j.end == pj.end && j.completed == pj.completed
      && j.canceled == (pj.canceled || pj.start.None? || !pj.completed)
      && j.partition == "" && j.env == map[] && j.startDelay == 0 && !j.timer && !j.scheduler
      && j.lastError.None? && j.firstFailed.None? && j.ticket == FROM_STORE
      && |j.tasks| == |pj.tasks| && forall i | 0 <= i < |j.tasks| ::
           var x, t := pj.tasks[i], j.tasks[i];
           && t.name == x.name && t.def == TaskDef(x.script, x.dependsOn, x.allowFailure, map[]) && !t.canceled
           && t.start == x.start && t.end == x.end && t.skipped == x.skipped && t.exitCode == x.exitCode
           && t.errored == x.errored && t.error == (if x.error == Some("") then None else x.error)
           && t.status ==
              if !pj.canceled && pj.start.Some? && !pj.completed && x.status in {Waiting, TaskStatus.Running}
              then TaskStatus.Canceled else x.status
  {
  }
}
