// Saving to and loading from the data store, and the persist requests that make the loop save: what a
// restart gives back, and that no change is left out of it.
module Persistence {
  import opened Basics
  import opened Definitions
  import opened Jobs
  import opened WaitList
  import opened RunnerState
  import opened Dispatch
  import opened Retention
  import opened RunnerEvents
  import opened RunnerLifecycle
  import opened RunnerIndexes

  // ---------------------------------------------------------------------------------------------
  // One job
  // ---------------------------------------------------------------------------------------------

  datatype PersistedTask = PersistedTask(
    name: string,
    script: seq<string>,
    dependsOn: seq<string>,
    allowFailure: bool,
    status: TaskStatus,
    start: Option<int>,
    end: Option<int>,
    skipped: bool,
    exitCode: int,
    errored: bool,
    error: Option<string>)

  datatype PersistedJob = PersistedJob(
    id: JobId,
    pipeline: string,
    completed: bool,
    canceled: bool,
    created: int,
    start: Option<int>,
    end: Option<int>,
    tasks: seq<PersistedTask>,
    variables: map<string, string>,
    user: string)

  /** StrPtrToErr: an empty message is no error. ErrToStrPtr keeps the message of any error. */
  function StrPtrToErr(s: Option<string>): Option<string> {
    if s == Some("") then None else s
  }

  function PersistTask(t: JobTask): PersistedTask {
    PersistedTask(t.name, t.def.script, t.def.dependsOn, t.def.allowFailure, t.status, t.start, t.end,
                  t.skipped, t.exitCode, t.errored, t.error)
  }

  function PersistTasks(tasks: seq<JobTask>): (r: seq<PersistedTask>)
    ensures |r| == |tasks|
  {
    seq(|tasks|, i requires 0 <= i < |tasks| => PersistTask(tasks[i]))
  }

  function PersistJob(id: JobId, j: Job): PersistedJob {
    PersistedJob(id, j.pipeline, j.completed, j.canceled, j.created, j.start, j.end, PersistTasks(j.tasks),
                 j.variables, j.user)
  }

  function BuildTask(pt: PersistedTask): JobTask {
    JobTask(pt.name, TaskDef(pt.script, pt.dependsOn, pt.allowFailure, map[]), pt.status, pt.start, pt.end,
            pt.skipped, pt.exitCode, pt.errored, StrPtrToErr(pt.error), false)
  }

  function BuildTasks(tasks: seq<PersistedTask>): (r: seq<JobTask>)
    ensures |r| == |tasks|
  {
    seq(|tasks|, i requires 0 <= i < |tasks| => BuildTask(tasks[i]))
  }

  /** buildJobFromPersistedJob */
  function BuildJob(pj: PersistedJob): Job {
    Job(pj.pipeline, "", map[], pj.variables, pj.user, 0, false, FROM_STORE, pj.created, pj.completed, pj.canceled,
        pj.start, pj.end, BuildTasks(pj.tasks), None, None, false, false)
  }

  function Interrupted(t: JobTask): JobTask {
    if t.status.Waiting? || t.status.Running? then t.(status := TaskStatus.Canceled) else t
  }

  function InterruptedTasks(tasks: seq<JobTask>): (r: seq<JobTask>)
    ensures |r| == |tasks|
  {
    seq(|tasks|, i requires 0 <= i < |tasks| => Interrupted(tasks[i]))
  }

  /** A job as initialLoadFromStore puts it into the runner. */
  function LoadJob(pj: PersistedJob): Job {
    var built := BuildJob(pj);
    var job := if IsRunning(built) then built.(tasks := InterruptedTasks(built.tasks), canceled := true) else built;
    if job.start.None? && !job.canceled then job.(canceled := true) else job
  }

  /** The persisted view after a restart: LoadJob, seen through PersistJob. */
  function Reloaded(pj: PersistedJob): PersistedJob {
    PersistJob(pj.id, LoadJob(pj))
  }

  // ---------------------------------------------------------------------------------------------
  // What a restart does to a job
  // ---------------------------------------------------------------------------------------------

  predicate Unfinished(pj: PersistedJob) {
    !pj.canceled && (pj.start.None? || !pj.completed)
  }

  predicate WasRunning(pj: PersistedJob) {
    !pj.canceled && pj.start.Some? && !pj.completed
  }

  /** `r` is `pj` with an unfinished job canceled, and the open tasks of a running one marked canceled. */
  ghost predicate Restored(pj: PersistedJob, r: PersistedJob) {
    && r == pj.(canceled := pj.canceled || Unfinished(pj), tasks := r.tasks)
    && |r.tasks| == |pj.tasks|
    && forall i | 0 <= i < |pj.tasks| ::
         var t := pj.tasks[i];
         r.tasks[i] ==
           if WasRunning(pj) && t.status in {Waiting, TaskStatus.Running} then t.(status := TaskStatus.Canceled) else t
  }

  ghost predicate NoEmptyErrors(pj: PersistedJob) {
    forall i | 0 <= i < |pj.tasks| :: pj.tasks[i].error != Some("")
  }

  /** Save then load: only the marks of the interruption differ, exactly when no error message is empty. */
  lemma RoundTrip(pj: PersistedJob)
    ensures Restored(pj, Reloaded(pj)) <==> NoEmptyErrors(pj)
  {
  }

  /** A second round trip changes nothing. */
  lemma SecondRoundTrip(pj: PersistedJob)
    ensures Reloaded(Reloaded(pj)) == Reloaded(pj)
  {
  }

  lemma LoadedIsEnded(pj: PersistedJob)
    ensures var j := LoadJob(pj);
      !Live(j) && !IsRunning(j) && Ended(j) && (j.canceled || j.start.Some?) && j.ticket == FROM_STORE
    ensures LoadJob(pj).pipeline == pj.pipeline
  {
  }

  // ---------------------------------------------------------------------------------------------
  // The whole store
  // ---------------------------------------------------------------------------------------------

  type Snapshot = map<JobId, PersistedJob>

  /** What SaveToStore writes: the jobs of jobsByID. */
  function View(s: State): Snapshot {
    map id | id in s.known && id in s.jobs :: PersistJob(id, s.jobs[id])
  }

  /** The records of the store by id; SaveToStore writes each id once. */
  function ById(data: seq<PersistedJob>): Snapshot
    decreases |data|
  {
    if data == [] then map[]
    else
      var n := |data| - 1;
      ById(data[..n])[data[n].id := data[n]]
  }

  ghost predicate DistinctIds(data: seq<PersistedJob>) {
    forall i, j | 0 <= i < j < |data| :: data[i].id != data[j].id
  }

  function Empty(defs: PipelinesMap): State {
    State(defs, map[], {}, map[], map[], false, false, 0, [])
  }

  /** One record loaded. */
  function Restore(s: State, pj: PersistedJob): State {
    s.(jobs := s.jobs[pj.id := LoadJob(pj)],
       known := s.known + {pj.id},
       byPipeline := s.byPipeline[pj.pipeline := ListOf(s.byPipeline, pj.pipeline) + [pj.id]])
  }

  /** initialLoadFromStore */
  function LoadAll(defs: PipelinesMap, data: seq<PersistedJob>): State
    decreases |data|
  {
    if data == [] then Empty(defs)
    else Restore(LoadAll(defs, data[..|data| - 1]), data[|data| - 1])
  }

  lemma {:induction false} LoadedJobs(defs: PipelinesMap, data: seq<PersistedJob>)
    ensures var s := LoadAll(defs, data);
      && s.known == s.jobs.Keys == ById(data).Keys
      && (forall id | id in s.jobs :: s.jobs[id] == LoadJob(ById(data)[id]) && ById(data)[id].id == id)
      && s == Empty(defs).(jobs := s.jobs, known := s.known, byPipeline := s.byPipeline)
    decreases |data|
  {
    hide LoadJob;
    if data != [] {
      LoadedJobs(defs, data[..|data| - 1]);
    }
  }

  lemma {:induction false} ByIdHas(data: seq<PersistedJob>, id: JobId)
    requires DistinctIds(data)
    ensures id in ById(data) <==> exists i | 0 <= i < |data| :: data[i].id == id
    decreases |data|
  {
    if data != [] {
      var n := |data| - 1;
      ByIdHas(data[..n], id);
      if i :| 0 <= i < n && data[i].id == id {
        assert data[..n][i].id == id;
      }
    }
  }

  lemma RestoredIndexed(s: State, pj: PersistedJob, p: string)
    requires Indexed(s, p) && pj.id !in s.jobs && s.known == s.jobs.Keys
    ensures Indexed(Restore(s, pj), p)
  {
    hide LoadJob;
    LoadedIsEnded(pj);
    NoDupConcat(ListOf(s.byPipeline, p), [pj.id]);
  }

  lemma {:induction false} LoadedLists(defs: PipelinesMap, data: seq<PersistedJob>, p: string)
    requires DistinctIds(data)
    ensures Indexed(LoadAll(defs, data), p)
    decreases |data|
  {
    hide Restore, Indexed, LoadJob;
    if data == [] {
      EmptyIndexed(defs, p);
    } else {
      var n := |data| - 1;
      LoadedLists(defs, data[..n], p);
      LoadedJobs(defs, data[..n]);
      ByIdHas(data[..n], data[n].id);
      RestoredIndexed(LoadAll(defs, data[..n]), data[n], p);
    }
  }

  lemma EmptyIndexed(defs: PipelinesMap, p: string)
    ensures Indexed(Empty(defs), p)
  {
  }

  ghost predicate Listing(s: State, p: string, id: JobId) {
    id in ListOf(s.byPipeline, p)
  }

  /** A job is listed twice, or for two pipelines. */
  ghost predicate Clash(s: State) {
    || (exists p :: !NoDup(ListOf(s.byPipeline, p)))
    || exists p, q, id :: p != q && Listing(s, p, id) && Listing(s, q, id)
  }

  // A record with an id that has been seen adds a second entry for it, and entries are never taken away.
  lemma {:induction false} RepeatedIdsClash(defs: PipelinesMap, data: seq<PersistedJob>)
    ensures forall id | id in LoadAll(defs, data).known :: exists p :: Listing(LoadAll(defs, data), p, id)
    ensures !DistinctIds(data) ==> Clash(LoadAll(defs, data))
    decreases |data|
  {
    hide LoadJob;
    if data != [] {
      var n := |data| - 1;
      RepeatedIdsClash(defs, data[..n]);
      LoadedJobs(defs, data[..n]);
      RestoreClashes(LoadAll(defs, data[..n]), data[n]);
      if !DistinctIds(data) && DistinctIds(data[..n]) {
        var i := SeenBefore(data);
        ByIdHas(data[..n], data[n].id);
      }
    }
  }

  lemma SeenBefore(data: seq<PersistedJob>) returns (i: nat)
    requires data != [] && !DistinctIds(data) && DistinctIds(data[..|data| - 1])
    ensures i < |data| - 1 && data[..|data| - 1][i].id == data[|data| - 1].id
  {
    var n := |data| - 1;
    forall i, j | 0 <= i < j < n ensures data[i].id != data[j].id {
      assert data[..n][i] == data[i] && data[..n][j] == data[j];
    }
    var k, j :| 0 <= k < j < |data| && data[k].id == data[j].id;
    i := k;
  }

  lemma RestoreClashes(s: State, pj: PersistedJob)
    requires forall id | id in s.known :: exists p :: Listing(s, p, id)
    ensures var s' := Restore(s, pj);
      && (forall id | id in s'.known :: exists p :: Listing(s', p, id))
      && (Clash(s) || pj.id in s.known ==> Clash(s'))
  {
    hide LoadJob;
    var s' := Restore(s, pj);
    assert Listing(s', pj.pipeline, pj.id);
    forall p
      ensures ListOf(s.byPipeline, p) <= ListOf(s'.byPipeline, p) && forall id | Listing(s, p, id) :: Listing(s', p, id)
    {
    }
    if p :| !NoDup(ListOf(s.byPipeline, p)) {
      assert !NoDup(ListOf(s'.byPipeline, p));
    }
    if pj.id in s.known {
      var p :| Listing(s, p, pj.id);
      if p == pj.pipeline {
        var ids := ListOf(s.byPipeline, p);
        var i :| 0 <= i < |ids| && ids[i] == pj.id;
        assert (ids + [pj.id])[i] == (ids + [pj.id])[|ids|];
      }
    }
  }

  lemma ListingOwn(s: State, p: string, id: JobId)
    requires Indexed(s, p) && Listing(s, p, id)
    ensures id in s.jobs && s.jobs[id].pipeline == p && NoDup(ListOf(s.byPipeline, p))
  {
  }

  lemma IndexedNeverClash(s: State)
    requires forall p :: Indexed(s, p)
    ensures !Clash(s)
  {
    hide Indexed, Listing;
    forall p, q, id | Listing(s, p, id) && Listing(s, q, id) ensures p == q {
      ListingOwn(s, p, id);
      ListingOwn(s, q, id);
    }
    forall p ensures NoDup(ListOf(s.byPipeline, p)) {
      assert Indexed(s, p);
      IndexedNoDup(s, p);
    }
  }

  lemma IndexedNoDup(s: State, p: string)
    requires Indexed(s, p)
    ensures NoDup(ListOf(s.byPipeline, p))
  {
  }

  /** A restart begins with nothing waiting, nothing running and all lists agreeing, exactly when no id repeats. */
  lemma LoadIsInitial(defs: PipelinesMap, data: seq<PersistedJob>)
    requires DefsUsable(defs)
    ensures Initial(LoadAll(defs, data)) <==> DistinctIds(data)
  {
    hide LoadJob, Indexed, Clash;
    var s := LoadAll(defs, data);
    LoadedJobs(defs, data);
    if DistinctIds(data) {
      forall id | id in s.jobs ensures s.jobs[id].ticket == FROM_STORE && !Live(s.jobs[id]) && !IsRunning(s.jobs[id]) {
        LoadedIsEnded(ById(data)[id]);
      }
      forall p ensures Indexed(s, p) {
        LoadedLists(defs, data, p);
      }
    } else {
      RepeatedIdsClash(defs, data);
      if Initial(s) {
        IndexedNeverClash(s);
        assert false;
      }
    }
  }

  /** Nothing that was restored is ever started, whatever happens afterwards. */
  lemma NothingResumes(defs: PipelinesMap, data: seq<PersistedJob>, events: seq<Event>, s: State, id: JobId)
    requires DefsUsable(defs) && DistinctIds(data) && AnyRun(LoadAll(defs, data), events, s) && id in ById(data)
    ensures id in s.jobs && id !in s.spawned && !IsRunning(s.jobs[id]) && !CanBeStarted(s.jobs[id])
  {
    hide LoadJob, Initial, ConsistentBut, ListsOwn;
    var s0 := LoadAll(defs, data);
    LoadIsInitial(defs, data);
    InitialConsistent(s0);
    ConsistentOwn(s0);
    LoadedJobs(defs, data);
    LoadedIsEnded(ById(data)[id]);
    EndedForever(s0, events, s, id);
    RunKeepsConsistent(s0, events, s);
    ConsistentTidy(s, {}, s.jobs[id].pipeline);
  }

  /**
   * Save then load: the view after a restart is the saved one with every unfinished job canceled and the open
   * tasks of running jobs marked, exactly when no saved error message is empty.
   */
  lemma SaveThenLoad(s: State, data: seq<PersistedJob>, defs: PipelinesMap)
    requires ById(data) == View(s)
    ensures var v, r := View(s), View(LoadAll(defs, data));
      && r.Keys == v.Keys
      && ((forall id | id in v :: Restored(v[id], r[id])) <==> (forall id | id in v :: NoEmptyErrors(v[id])))
  {
    hide PersistJob, LoadJob, Restored, NoEmptyErrors;
    ReloadViewIs(defs, data);
    forall id | id in View(s)
      ensures Restored(View(s)[id], View(LoadAll(defs, data))[id]) <==> NoEmptyErrors(View(s)[id])
    {
      RoundTrip(View(s)[id]);
    }
  }

  function ReloadedView(v: Snapshot): Snapshot {
    map id | id in v :: Reloaded(v[id])
  }

  /** The view after a restart, and after a second one from a save of the first. */
  lemma ReloadView(defs: PipelinesMap, data: seq<PersistedJob>)
    ensures View(LoadAll(defs, data)) == ReloadedView(ById(data))
    ensures forall again | ById(again) == View(LoadAll(defs, data)) :: View(LoadAll(defs, again)) == ById(again)
  {
    hide PersistJob, LoadJob;
    ReloadViewIs(defs, data);
    forall again | ById(again) == View(LoadAll(defs, data)) ensures View(LoadAll(defs, again)) == ById(again) {
      ReloadViewIs(defs, again);
      forall id | id in ById(data) ensures Reloaded(Reloaded(ById(data)[id])) == Reloaded(ById(data)[id]) {
        SecondRoundTrip(ById(data)[id]);
      }
    }
  }

  lemma ReloadViewIs(defs: PipelinesMap, data: seq<PersistedJob>)
    ensures View(LoadAll(defs, data)) == ReloadedView(ById(data))
  {
    hide PersistJob, LoadJob;
    LoadedJobs(defs, data);
  }

  // ---------------------------------------------------------------------------------------------
  // No change is lost
  // ---------------------------------------------------------------------------------------------

  /**
   * The runner with its persist loop: a request may have been taken, and the store holds what was last saved
   * or, until then, what the runner was loaded from.
   */
  datatype Looped = Looped(run: State, taken: bool, stored: Snapshot, saved: bool)

  datatype Step = Operation(event: Event) | Take | Snap(rankings: map<string, seq<JobId>>, now: int)

  ghost predicate Possible(l: Looped, step: Step) {
    match step
    case Operation(e) => DefsUsable(l.run.defs) && Enabled(l.run, e) && !e.Save? && !e.StopAll?
    case Take => l.run.token && !l.taken
    case Snap(rankings, _) => l.taken && RankingsFor(l.run, rankings)
  }

  ghost function After(l: Looped, step: Step): Looped
    requires Possible(l, step)
  {
    match step
    case Operation(e) => l.(run := Next(l.run, e))
    case Take => l.(run := l.run.(token := false), taken := true)
    case Snap(rankings, now) =>
      var swept := Sweep(l.run, rankings, now);
      Looped(swept, false, View(swept), true)
  }

  ghost predicate LoopRun(l: Looped, steps: seq<Step>, l': Looped)
    decreases |steps|
  {
    if steps == [] then l == l'
    else Possible(l, steps[0]) && LoopRun(After(l, steps[0]), steps[1..], l')
  }

  /** The store holds the jobs as they are; before the first save it holds what they were restored from. */
  ghost predicate UpToDate(l: Looped) {
    View(l.run) == if l.saved then l.stored else ReloadedView(l.stored)
  }

  ghost predicate Covered(l: Looped) {
    l.run.token || l.taken || UpToDate(l)
  }

  lemma DispatchRequests(s: State, p: string, now: int)
    requires Own(s, p, ListOf(s.wait, p))
    ensures var s' := StartJobsOnWaitList(s, p, now);
      (s.token ==> s'.token) && (s'.token || View(s') == View(s)) && s'.known == s.known
  {
    hide StartJobsOnWaitList, PersistJob, KeepsLive, StartsExactly;
    WaitListMoves(s, p, now);
  }

  lemma StartRequests(s: State, id: JobId, now: int)
    requires id in s.jobs && s.jobs[id].start.None? && Own(s, s.jobs[id].pipeline, ListOf(s.wait, s.jobs[id].pipeline))
    ensures s.token ==> StartJob(s, id, now).token
  {
    hide StartJob, KeepsLive, StartsExactly;
    StartJobMoves(s, id, s.jobs[id].pipeline, now);
  }

  lemma ScheduleRequests(s: State, req: Request, now: int)
    requires DefsUsable(s.defs) && req.id !in s.jobs && ListsOwn(s)
    ensures var s' := ScheduleAsync(s, req, now); s' == s || s'.token
  {
    hide StartJob, ModifyWaitList, FreeSlots, Own;
    if Refusal(s, req.pipeline).None? {
      var p := req.pipeline;
      var s1 := Created(s, s.defs[p], req, now);
      assert Own(s, p, ListOf(s.wait, p));
      OwnEdited(s, s1, p);
      StartRequests(s1, req.id, now);
    }
  }

  lemma TimerUnseen(s: State, id: JobId)
    requires id in s.jobs
    ensures View(s.(jobs := s.jobs[id := s.jobs[id].(timer := false)])) == View(s)
  {
    hide PersistTasks;
  }

  lemma TimerRequests(s: State, id: JobId, now: int)
    requires ListsOwn(s)
    ensures var s' := StartDelayedJob(s, id, now); (s.token ==> s'.token) && (s'.token || View(s') == View(s))
  {
    hide StartJobsOnWaitList, Own, View;
    if id in s.known && id in s.jobs && !s.jobs[id].canceled {
      var p := s.jobs[id].pipeline;
      var s1 := s.(jobs := s.jobs[id := s.jobs[id].(timer := false)]);
      assert Own(s, p, ListOf(s.wait, p));
      OwnEdited(s, s1, p);
      DispatchRequests(s1, p, now);
      TimerUnseen(s, id);
    }
  }

  /** Every operation that changes what is persisted asks for a save; only Shutdown leaves that to its final save. */
  lemma StepRequests(s: State, e: Event)
    requires DefsUsable(s.defs) && Enabled(s, e) && ListsOwn(s) && !e.Save? && !e.StopAll?
    ensures var s' := Next(s, e); (s.token ==> s'.token) && (s'.token || View(s') == View(s))
  {
    hide ListsOwn, StartJobsOnWaitList, ScheduleAsync, StartDelayedJob, RankingsFor, PersistJob;
    match e
    case Schedule(req, now) => ScheduleRequests(s, req, now);
    case TimerFired(id, now) => TimerRequests(s, id, now);
    case Redefine(defs) => assert View(Next(s, e)) == View(s);
    case _ =>
  }

  /**
   * No lost persist: at every point where the mutex is free, a request is in the channel, or the loop has
   * taken one and not yet read the jobs, or the store holds what is persisted of the jobs as they are.
   */
  lemma {:induction false} NoLostPersist(l: Looped, steps: seq<Step>, l': Looped)
    requires ListsOwn(l.run) && Covered(l) && LoopRun(l, steps, l')
    ensures Covered(l')
    decreases |steps|
  {
    hide ListsOwn, View, RankingsFor;
    if steps != [] {
      var l1 := After(l, steps[0]);
      match steps[0] {
        case Operation(e) =>
          StepRequests(l.run, e);
          StepKeepsOwn(l.run, e);
        case Take => TakeKeeps(l.run);
        case Snap(rankings, now) => SweepKeepsOwn(l.run, rankings, now);
      }
      NoLostPersist(l1, steps[1..], l');
    }
  }

  lemma TakeKeeps(s: State)
    ensures View(s.(token := false)) == View(s) && (ListsOwn(s) ==> ListsOwn(s.(token := false)))
  {
  }

  lemma SweepKeepsOwn(s: State, rankings: map<string, seq<JobId>>, now: int)
    requires ListsOwn(s) && RankingsFor(s, rankings)
    ensures ListsOwn(Sweep(s, rankings, now))
  {
  }

  /** It holds from the start, before anything has been saved. */
  lemma FreshlyLoadedIsCovered(defs: PipelinesMap, data: seq<PersistedJob>)
    ensures var l := Looped(LoadAll(defs, data), false, ById(data), false); UpToDate(l) && Covered(l) && ListsOwn(l.run)
  {
    hide PersistJob, LoadJob;
    ReloadViewIs(defs, data);
    LoadedJobs(defs, data);
    var s := LoadAll(defs, data);
    forall p ensures Own(s, p, ListOf(s.wait, p)) {
    }
  }

  /** Shutdown is the exception: it cancels waiting jobs without a request, and its final save makes up for it. */
  lemma ShutdownIsSavedAtTheEnd(l: Looped, rankings: map<string, seq<JobId>>, now: int)
    requires RankingsFor(Shutdown(l.run), rankings)
    ensures Shutdown(l.run).token == l.run.token
    ensures var swept := Sweep(Shutdown(l.run), rankings, now); UpToDate(Looped(swept, false, View(swept), true))
  {
  }
}
