// The operations of PipelineRunner as events, and what ties its indexes to its jobs.
module RunnerEvents {
  import opened Basics
  import opened Definitions
  import opened Jobs
  import opened WaitList
  import opened RunnerState
  import opened Retention

  datatype Event =
    | Schedule(req: Request, now: int)
    | Complete(id: JobId, err: Option<string>, ctxCanceled: bool, now: int)
    | CancelRequest(id: JobId)
    | TimerFired(id: JobId, now: int)
    | Save(rankings: map<string, seq<JobId>>, now: int)
    | TaskChange(id: JobId, name: string, report: TaskReport)
    | StageChange(id: JobId, name: string, status: TaskStatus)
    | StopAll
    | Redefine(defs: PipelinesMap)

  /** Ids are fresh, and the goroutine of a started job reports its end once. */
  ghost predicate Enabled(s: State, e: Event) {
    match e
    case Schedule(req, _) => req.id !in s.jobs
    case Complete(id, _, _, _) => id in s.spawned && id in s.jobs && !s.jobs[id].completed
    case Save(rankings, _) => RankingsFor(s, rankings)
    case Redefine(defs) => DefsUsable(defs)
    case _ => true
  }

  ghost function Next(s: State, e: Event): State
    requires DefsUsable(s.defs) && Enabled(s, e)
  {
    match e
    case Schedule(req, now) => ScheduleAsync(s, req, now)
    case Complete(id, err, ctxCanceled, now) => JobCompleted(s, id, err, ctxCanceled, now)
    case CancelRequest(id) => CancelJob(s, id)
    case TimerFired(id, now) => StartDelayedJob(s, id, now)
    case Save(rankings, now) => Sweep(s, rankings, now)
    case TaskChange(id, name, report) => HandleTaskChange(s, id, name, report)
    case StageChange(id, name, status) => HandleStageChange(s, id, name, status)
    case StopAll => Shutdown(s)
    case Redefine(defs) => ReplaceDefinitions(s, defs)
  }

  /** jobsByPipeline[p] enumerates, without repetition, the jobs of jobsByID that belong to p. */
  ghost predicate Indexed(s: State, p: string) {
    NoDup(ListOf(s.byPipeline, p)) &&
    forall id :: id in ListOf(s.byPipeline, p) <==> id in s.known && id in s.jobs && s.jobs[id].pipeline == p
  }

  /** The wait list is in schedule order. */
  ghost predicate Ordered(s: State, p: string) {
    var w := ListOf(s.wait, p);
    && (forall id | id in w :: id in s.jobs && s.jobs[id].pipeline == p && s.jobs[id].ticket >= 0)
    && forall i, j | 0 <= i < j < |w| :: s.jobs[w[i]].ticket < s.jobs[w[j]].ticket
  }

  /** A job that was launched has its scheduler until it is completed. */
  ghost predicate Staffed(j: Job) {
    j.start.Some? && j.ticket >= 0 ==> (j.scheduler <==> !j.completed)
  }

  /** Tickets are handed out in order, and each started job that was scheduled has one goroutine. */
  ghost predicate Recorded(s: State) {
    && s.known <= s.jobs.Keys
    && (forall id | id in s.jobs :: FROM_STORE <= s.jobs[id].ticket < s.tickets && Staffed(s.jobs[id]))
    && NoDup(s.spawned)
    && (forall id :: id in s.spawned <==> id in s.jobs && s.jobs[id].start.Some? && s.jobs[id].ticket >= 0)
  }

  lemma {:induction false} CountAgrees(jobs: JobTable, jobs': JobTable, ids: seq<JobId>)
    requires forall id | id in ids :: (id in jobs && IsRunning(jobs[id])) <==> (id in jobs' && IsRunning(jobs'[id]))
    ensures CountRunning(jobs', ids) == CountRunning(jobs, ids)
    decreases |ids|
  {
    if ids != [] {
      assert ids[|ids| - 1] in ids;
      CountAgrees(jobs, jobs', ids[..|ids| - 1]);
    }
  }

  // The new job does not run yet, so it is not counted.
  lemma CreatedCount(s: State, req: Request, now: int)
    requires req.pipeline in s.defs && req.id !in ListOf(s.byPipeline, req.pipeline)
    ensures RunningJobs(Created(s, s.defs[req.pipeline], req, now), req.pipeline) == RunningJobs(s, req.pipeline)
  {
    var s1, p := Created(s, s.defs[req.pipeline], req, now), req.pipeline;
    var ids := ListOf(s.byPipeline, p);
    assert ListOf(s1.byPipeline, p) == ids + [req.id] && (ids + [req.id])[..|ids|] == ids;
    CountAgrees(s.jobs, s1.jobs, ids);
  }

  lemma {:induction false} CountShrinks(jobs: JobTable, jobs': JobTable, ids: seq<JobId>)
    requires forall id | id in ids && id in jobs' && IsRunning(jobs'[id]) :: id in jobs && IsRunning(jobs[id])
    ensures CountRunning(jobs', ids) <= CountRunning(jobs, ids)
    decreases |ids|
  {
    if ids != [] {
      assert ids[|ids| - 1] in ids;
      CountShrinks(jobs, jobs', ids[..|ids| - 1]);
    }
  }

  lemma {:induction false} NothingRuns(jobs: JobTable, ids: seq<JobId>)
    requires forall id | id in jobs :: !IsRunning(jobs[id])
    ensures CountRunning(jobs, ids) == 0
    decreases |ids|
  {
    if ids != [] {
      NothingRuns(jobs, ids[..|ids| - 1]);
    }
  }
}
