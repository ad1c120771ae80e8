// The concurrency bound over runs that replace the definitions: with jobs that build, a pipeline never
// runs more jobs than the greatest concurrency it was ever given, as long as it stays defined.
module RunnerRedefined {
  import opened Basics
  import opened Definitions
  import opened Jobs
  import opened WaitList
  import opened RunnerState
  import opened Dispatch
  import opened Retention
  import opened RunnerEvents
  import opened RunnerLifecycle
  import opened RunnerIndexes

  /** The list that runningJobsCount walks has every job of the pipeline that runs or may still start. */
  ghost predicate Covered(s: State, p: string) {
    var list := ListOf(s.byPipeline, p);
    && NoDup(list)
    && (forall id | id in list :: id in s.jobs && s.jobs[id].pipeline == p)
    && (forall id | id in s.jobs && s.jobs[id].pipeline == p && (Live(s.jobs[id]) || IsRunning(s.jobs[id])) ::
          id in list)
    && (forall id | id in s.jobs && s.jobs[id].pipeline == p && Live(s.jobs[id]) ::
          !s.jobs[id].completed && s.jobs[id].builds)
  }

  /** Only started jobs have a goroutine that reports their end. */
  ghost predicate SpawnedAreStarted(s: State) {
    forall id | id in s.spawned :: id in s.jobs && s.jobs[id].start.Some?
  }

  ghost predicate Tracked(s: State, p: string, most: int) {
    && p in s.defs && s.defs[p].concurrency <= most && RunningJobs(s, p) <= most
    && Covered(s, p) && ListsOwn(s) && SpawnedAreStarted(s)
  }

  /** Jobs of the pipeline build, and new definitions keep it within the bound. */
  ghost predicate Admissible(e: Event, p: string, most: int) {
    match e
    case Schedule(req, _) => req.pipeline == p ==> req.builds
    case Redefine(defs) => p in defs && defs[p].concurrency <= most
    case _ => true
  }

  // ---------------------------------------------------------------------------------------------
  // Changes to jobs that start nothing
  // ---------------------------------------------------------------------------------------------

  /** No job of the pipeline becomes running or live, and live ones are still to be completed and built. */
  ghost predicate StartsNone(s: State, s': State, p: string) {
    && s'.jobs.Keys == s.jobs.Keys
    && forall id | id in s.jobs :: Settles(s.jobs[id], s'.jobs[id], p)
  }

  ghost predicate Settles(j: Job, j': Job, p: string) {
    && j'.pipeline == j.pipeline
    && (j.pipeline == p ==>
      && (IsRunning(j') ==> IsRunning(j))
      && (Live(j') ==> Live(j) && j'.completed == j.completed && j'.builds == j.builds))
  }

  lemma StartsNoneKeeps(s: State, s': State, p: string, most: int)
    requires Tracked(s, p, most) && StartsNone(s, s', p)
    requires ListOf(s'.byPipeline, p) == ListOf(s.byPipeline, p) && p in s'.defs && s'.defs[p].concurrency <= most
    requires ListsOwn(s') && SpawnedAreStarted(s')
    ensures Tracked(s', p, most)
  {
    hide ListsOwn, SpawnedAreStarted;
    forall id | id in s.jobs ensures Settles(s.jobs[id], s'.jobs[id], p) {
    }
    CountShrinks(s.jobs, s'.jobs, ListOf(s.byPipeline, p));
  }

  // ---------------------------------------------------------------------------------------------
  // Starts
  // ---------------------------------------------------------------------------------------------

  lemma MovesAreStarted(s: State, s': State, p: string, now: int)
    requires SpawnedAreStarted(s) && Moves(s, s', p, now)
    ensures SpawnedAreStarted(s')
  {
  }

  // A dispatch or a start for another pipeline.
  lemma ElsewhereKeeps(s: State, s': State, p: string, q: string, now: int, most: int)
    requires Tracked(s, p, most) && q != p && Moves(s, s', q, now) && ListsOwn(s')
    ensures Tracked(s', p, most)
  {
    hide ListsOwn, SpawnedAreStarted, StartsExactly;
    MovesAreStarted(s, s', q, now);
    forall id | id in s.jobs ensures Settles(s.jobs[id], s'.jobs[id], p) {
      assert JobMove(s.jobs[id], s'.jobs[id], now);
    }
    StartsNoneKeeps(s, s', p, most);
  }

  lemma MovesKeepCovered(s: State, s': State, p: string, now: int)
    requires Covered(s, p) && Moves(s, s', p, now)
    ensures Covered(s', p)
  {
  }

  lemma CoveredIsCounted(s: State, p: string)
    requires Covered(s, p) && Own(s, p, ListOf(s.wait, p))
    ensures Counted(s, p, ListOf(s.wait, p)) && AllBuild(s.jobs, ListOf(s.wait, p))
  {
  }

  // A dispatch for the pipeline itself fills it, but no further.
  lemma DispatchTracked(s: State, p: string, now: int, most: int)
    requires Tracked(s, p, most)
    ensures Tracked(StartJobsOnWaitList(s, p, now), p, most)
  {
    hide StartJobsOnWaitList, FreeSlots, RunningJobs, Covered, ListsOwn, SpawnedAreStarted, KeepsLive, Moves, Own;
    var s' := StartJobsOnWaitList(s, p, now);
    assert Own(s, p, ListOf(s.wait, p)) by { OwnOf(s, p); }
    SelfDispatchKeepsOwn(s, p, now);
    WaitListMoves(s, p, now);
    MovesAreStarted(s, s', p, now);
    MovesKeepCovered(s, s', p, now);
    DispatchKeepsDefs(s, s', p, now);
    CoveredIsCounted(s, p);
    WaitListConserves(s, p, now);
    SlotsAre(s, p);
    SlotsAre(s', p);
    FullIsIdle(s, p, now);
  }

  lemma FullIsIdle(s: State, p: string, now: int)
    ensures FreeSlots(s, p) <= 0 ==> StartJobsOnWaitList(s, p, now) == s
  {
  }

  lemma DispatchKeepsDefs(s: State, s': State, p: string, now: int)
    requires Moves(s, s', p, now)
    ensures s'.defs == s.defs
  {
  }

  lemma SelfDispatchKeepsOwn(s: State, p: string, now: int)
    requires ListsOwn(s)
    ensures ListsOwn(StartJobsOnWaitList(s, p, now))
  {
    hide ListsOwn;
    DispatchKeepsOwn(s, s, p, now);
  }

  lemma AnyDispatchTracked(s: State, p: string, q: string, now: int, most: int)
    requires Tracked(s, p, most)
    ensures Tracked(StartJobsOnWaitList(s, q, now), p, most)
  {
    hide StartJobsOnWaitList, Tracked, ListsOwn, Moves, KeepsLive, Own;
    if p == q {
      DispatchTracked(s, p, now, most);
    } else {
      TrackedOwn(s, p, most, q);
      SelfDispatchKeepsOwn(s, q, now);
      WaitListMoves(s, q, now);
      ElsewhereKeeps(s, StartJobsOnWaitList(s, q, now), p, q, now, most);
    }
  }

  lemma TrackedOwn(s: State, p: string, most: int, q: string)
    requires Tracked(s, p, most)
    ensures ListsOwn(s) && Own(s, q, ListOf(s.wait, q)) && SpawnedAreStarted(s) && p in s.defs
  {
  }

  // ---------------------------------------------------------------------------------------------
  // Scheduling
  // ---------------------------------------------------------------------------------------------

  lemma CreatedCovered(s: State, req: Request, now: int, p: string)
    requires Covered(s, p) && req.id !in s.jobs && req.pipeline in s.defs && (req.pipeline == p ==> req.builds)
    ensures var s1 := Created(s, s.defs[req.pipeline], req, now);
      Covered(s1, p) && RunningJobs(s1, p) == RunningJobs(s, p)
  {
    hide CountRunning, RunningJobs;
    CreatedRunning(s, req, now, p);
    if req.pipeline == p {
      NoDupConcat(ListOf(s.byPipeline, p), [req.id]);
    }
  }

  lemma CreatedRunning(s: State, req: Request, now: int, p: string)
    requires Covered(s, p) && req.id !in s.jobs && req.pipeline in s.defs
    ensures RunningJobs(Created(s, s.defs[req.pipeline], req, now), p) == RunningJobs(s, p)
  {
    hide NewJob;
    if req.pipeline == p {
      CreatedCount(s, req, now);
    } else {
      CountAgrees(s.jobs, Created(s, s.defs[req.pipeline], req, now).jobs, ListOf(s.byPipeline, p));
    }
  }

  lemma CreatedTracked(s: State, req: Request, now: int, p: string, most: int)
    requires Tracked(s, p, most) && req.id !in s.jobs && req.pipeline in s.defs && (req.pipeline == p ==> req.builds)
    ensures var s1 := Created(s, s.defs[req.pipeline], req, now);
      Tracked(s1, p, most) && RunningJobs(s1, p) == RunningJobs(s, p)
  {
    hide ListsOwn, Covered, RunningJobs;
    EditedListsOwn(s, Created(s, s.defs[req.pipeline], req, now));
    CreatedCovered(s, req, now, p);
  }

  lemma StartTracked(s: State, id: JobId, now: int, p: string, most: int)
    requires Tracked(s, p, most) && id in s.jobs && Live(s.jobs[id])
    requires s.jobs[id].pipeline == p ==> s.jobs[id].builds && RunningJobs(s, p) < s.defs[p].concurrency
    ensures Tracked(StartJob(s, id, now), p, most)
  {
    hide StartJob, ListsOwn, Moves, KeepsLive, Own, Covered, SpawnedAreStarted, FreeSlots, RunningJobs;
    var q, s' := s.jobs[id].pipeline, StartJob(s, id, now);
    TrackedOwn(s, p, most, q);
    StartJobMoves(s, id, q, now);
    MovesKeepOwn(s, s', q, now);
    if q == p {
      MovesAreStarted(s, s', p, now);
      MovesKeepCovered(s, s', p, now);
      DispatchKeepsDefs(s, s', p, now);
      OneMoreRuns(s, id, now, p);
    } else {
      ElsewhereKeeps(s, s', p, q, now, most);
    }
  }

  lemma OneMoreRuns(s: State, id: JobId, now: int, p: string)
    requires Covered(s, p) && id in s.jobs && Live(s.jobs[id]) && s.jobs[id].pipeline == p && s.jobs[id].builds
    ensures RunningJobs(StartJob(s, id, now), p) == RunningJobs(s, p) + 1
  {
    assert Listed(s, p, id);
    FreeAfterStart(s, p, id, now);
  }

  lemma EnqueueTracked(s: State, q: string, id: JobId, p: string, most: int)
    requires Tracked(s, p, most) && q in s.defs && LimitReady(s.defs[q]) && id in s.jobs && s.jobs[id].pipeline == q
    ensures Tracked(Enqueue(s, q, id), p, most)
  {
    hide ListsOwn, ModifyWaitList, RunningJobs, Covered;
    EnqueueKeepsOwn(s, q, id);
    StartsNoneKeeps(s, Enqueue(s, q, id), p, most);
  }

  lemma ScheduleTracked(s: State, req: Request, now: int, p: string, most: int)
    requires Tracked(s, p, most) && DefsUsable(s.defs) && req.id !in s.jobs && (req.pipeline == p ==> req.builds)
    ensures Tracked(ScheduleAsync(s, req, now), p, most)
  {
    hide StartJob, Enqueue, Tracked, RunningJobs, Refusal, Usable, LimitReady, Created;
    ScheduleOutcome(s, req, now);
    if Refusal(s, req.pipeline).None? {
      var q := req.pipeline;
      var s1 := Created(s, s.defs[q], req, now);
      CreatedTracked(s, req, now, p, most);
      NewJobIs(s, req, now);
      if s.defs[q].startDelay <= 0 && RunningJobs(s1, q) < s.defs[q].concurrency {
        StartTracked(s1, req.id, now, p, most);
      } else {
        EnqueueTracked(s1, q, req.id, p, most);
      }
    }
  }

  lemma NewJobIs(s: State, req: Request, now: int)
    requires req.pipeline in s.defs
    ensures var s1 := Created(s, s.defs[req.pipeline], req, now);
      && s1.defs == s.defs && req.id in s1.jobs && Live(s1.jobs[req.id])
      && s1.jobs[req.id].pipeline == req.pipeline && s1.jobs[req.id].builds == req.builds
  {
  }

  // ---------------------------------------------------------------------------------------------
  // The other operations
  // ---------------------------------------------------------------------------------------------

  lemma EditTracked(s: State, id: JobId, j: Job, token: bool, p: string, most: int)
    requires Tracked(s, p, most) && id in s.jobs && Settles(s.jobs[id], j, p)
    requires (s.jobs[id].start.Some? ==> j.start.Some?)
    ensures Tracked(s.(jobs := s.jobs[id := j], token := token), p, most)
  {
    hide ListsOwn, RunningJobs, Covered;
    var s1 := s.(jobs := s.jobs[id := j], token := token);
    EditedListsOwn(s, s1);
    StartsNoneKeeps(s, s1, p, most);
  }

  lemma TokenTracked(s: State, token: bool, p: string, most: int)
    requires Tracked(s, p, most)
    ensures Tracked(s.(token := token), p, most)
  {
  }

  lemma CompleteTracked(s: State, id: JobId, err: Option<string>, ctxCanceled: bool, now: int, p: string, most: int)
    requires Tracked(s, p, most) && id in s.spawned && id in s.jobs
    ensures Tracked(JobCompleted(s, id, err, ctxCanceled, now), p, most)
  {
    hide Tracked, StartJobsOnWaitList;
    TrackedOwn(s, p, most, p);
    var q, j := s.jobs[id].pipeline, CompletedJob(s.jobs[id], err, ctxCanceled, now);
    var s1 := s.(jobs := s.jobs[id := j]);
    assert s.jobs[id].start.Some?;
    EditTracked(s, id, j, s.token, p, most);
    assert s1 == s.(jobs := s.jobs[id := j], token := s.token);
    AnyDispatchTracked(s1, p, q, now, most);
    TokenTracked(StartJobsOnWaitList(s1, q, now), true, p, most);
  }

  lemma TimerTracked(s: State, id: JobId, now: int, p: string, most: int)
    requires Tracked(s, p, most)
    ensures Tracked(StartDelayedJob(s, id, now), p, most)
  {
    hide Tracked, StartJobsOnWaitList;
    if id in s.known && id in s.jobs && !s.jobs[id].canceled {
      var j := s.jobs[id].(timer := false);
      EditTracked(s, id, j, s.token, p, most);
      assert s.(jobs := s.jobs[id := j]) == s.(jobs := s.jobs[id := j], token := s.token);
      AnyDispatchTracked(s.(jobs := s.jobs[id := j]), p, s.jobs[id].pipeline, now, most);
    }
  }

  lemma CancelTracked(s: State, id: JobId, p: string, most: int)
    requires Tracked(s, p, most)
    ensures Tracked(CancelJob(s, id), p, most)
  {
    hide Tracked;
    if id in s.known && id in s.jobs && !s.jobs[id].canceled && !s.jobs[id].completed && s.jobs[id].start.None? {
      EditTracked(s, id, MarkAsCanceled(s.jobs[id]), true, p, most);
    }
  }

  lemma SetTaskTracked(s: State, id: JobId, name: string, f: JobTask -> JobTask, p: string, most: int)
    requires Tracked(s, p, most) && id in s.jobs
    ensures Tracked(s.(jobs := s.jobs[id := SetTask(s.jobs[id], name, f)], token := true), p, most)
  {
    hide Tracked, SetTask;
    SetTaskKeeps(s.jobs[id], name, f);
    EditTracked(s, id, SetTask(s.jobs[id], name, f), true, p, most);
  }

  lemma TaskChangeTracked(s: State, id: JobId, name: string, r: TaskReport, p: string, most: int)
    requires Tracked(s, p, most)
    ensures Tracked(HandleTaskChange(s, id, name, r), p, most)
  {
    hide Tracked, ReportedJob, CancelJob, TaskErrored, FailFast;
    if TaskKnown(s, id, name) {
      var j := ReportedJob(s.jobs[id], name, r);
      ReportKeeps(s.jobs[id], name, r);
      EditTracked(s, id, j, true, p, most);
      CancelTracked(s.(jobs := s.jobs[id := j], token := true), id, p, most);
    }
  }

  lemma StageChangeTracked(s: State, id: JobId, name: string, status: TaskStatus, p: string, most: int)
    requires Tracked(s, p, most)
    ensures Tracked(HandleStageChange(s, id, name, status), p, most)
  {
    hide Tracked, SetTask;
    if TaskKnown(s, id, name) {
      var assign := (t: JobTask) => t.(status := if t.canceled then TaskStatus.Canceled else status);
      var s' := HandleStageChange(s, id, name, status);
      SetTaskTracked(s, id, name, assign, p, most);
      assert s' == s.(jobs := s'.jobs, token := true) && s'.jobs == s.jobs[id := s'.jobs[id]];
    }
  }

  lemma ShutdownTracked(s: State, p: string, most: int)
    requires Tracked(s, p, most)
    ensures Tracked(Shutdown(s), p, most)
  {
    hide ListsOwn, RunningJobs, Covered;
    NothingListed(Shutdown(s));
    StartsNoneKeeps(s, Shutdown(s), p, most);
  }

  lemma SweepTracked(s: State, rankings: map<string, seq<JobId>>, now: int, p: string, most: int)
    requires Tracked(s, p, most) && RankingsFor(s, rankings)
    ensures Tracked(Sweep(s, rankings, now), p, most)
  {
    hide ListsOwn, SweepList, RemovedIds, IsRanking;
    var s', list := Sweep(s, rankings, now), ListOf(s.byPipeline, p);
    EditedListsOwn(s, s');
    if p in s.byPipeline {
      SweepKeepsCount(s.defs, s.jobs, p, list, rankings[p], now);
      SweepNoDup(s.defs, s.jobs, list, rankings[p], now);
      forall id | id in list && (Live(s.jobs[id]) || IsRunning(s.jobs[id])) ensures id in ListOf(s'.byPipeline, p) {
        UnfinishedSurvive(s.defs, s.jobs, p, list, rankings[p], now, id);
      }
    }
  }

  lemma RedefineTracked(s: State, defs: PipelinesMap, p: string, most: int)
    requires Tracked(s, p, most) && p in defs && defs[p].concurrency <= most
    ensures Tracked(ReplaceDefinitions(s, defs), p, most)
  {
  }

  lemma StepTracked(s: State, e: Event, p: string, most: int)
    requires Tracked(s, p, most) && DefsUsable(s.defs) && RunnerEvents.Enabled(s, e) && Admissible(e, p, most)
    ensures Tracked(Next(s, e), p, most)
  {
    hide Tracked, ScheduleAsync, JobCompleted, CancelJob, StartDelayedJob, Shutdown, Sweep, HandleTaskChange,
      HandleStageChange,
      RankingsFor, DefsUsable;
    match e
    case Schedule(req, now) => ScheduleTracked(s, req, now, p, most);
    case Complete(id, err, ctxCanceled, now) => CompleteTracked(s, id, err, ctxCanceled, now, p, most);
    case CancelRequest(id) => CancelTracked(s, id, p, most);
    case TimerFired(id, now) => TimerTracked(s, id, now, p, most);
    case Save(rankings, now) => SweepTracked(s, rankings, now, p, most);
    case TaskChange(id, name, report) => TaskChangeTracked(s, id, name, report, p, most);
    case StageChange(id, name, status) => StageChangeTracked(s, id, name, status, p, most);
    case StopAll => ShutdownTracked(s, p, most);
    case Redefine(defs) => RedefineTracked(s, defs, p, most);
  }

  lemma {:induction false} RunTracked(s: State, events: seq<Event>, s': State, p: string, most: int)
    requires Tracked(s, p, most) && AnyRun(s, events, s') && forall e | e in events :: Admissible(e, p, most)
    ensures Tracked(s', p, most)
    decreases |events|
  {
    hide Tracked, DefsUsable, Admissible;
    if events != [] {
      assert events[0] in events;
      StepTracked(s, events[0], p, most);
      RunTracked(Next(s, events[0]), events[1..], s', p, most);
    }
  }

  /** Whatever definitions come and go, the running jobs stay within the greatest concurrency ever given. */
  lemma BoundUnderNewDefinitions(s0: State, events: seq<Event>, s: State, p: string, most: nat)
    requires Initial(s0) && p in s0.defs && s0.defs[p].concurrency <= most
    requires AnyRun(s0, events, s) && forall e | e in events :: Admissible(e, p, most)
    ensures |set id | id in s.jobs && s.jobs[id].pipeline == p && IsRunning(s.jobs[id])| <= most
  {
    InitialTracked(s0, p, most);
    RunTracked(s0, events, s, p, most);
    var list := ListOf(s.byPipeline, p);
    CountElems(s.jobs, list);
    assert RunningSet(s.jobs, list) == set id | id in s.jobs && s.jobs[id].pipeline == p && IsRunning(s.jobs[id]);
  }

  lemma InitialTracked(s: State, p: string, most: nat)
    requires Initial(s) && p in s.defs && s.defs[p].concurrency <= most
    ensures Tracked(s, p, most)
  {
    assert Indexed(s, p);
    NothingListed(s);
    NothingRuns(s.jobs, ListOf(s.byPipeline, p));
  }
}
