// The job objects that the runner's indexes share (PipelineJob in prunner.go), the slices of them, and the
// queue strategies as they work on those slices.
module PipelineJobs {
  import opened Basics
  import opened Definitions
  import opened Jobs
  import opened WaitList
  import opened RunnerState
  import opened Retention
  import Persistence

  // A lookup by name only depends on the names.
  lemma {:induction false} SameNames(tasks: seq<JobTask>, tasks': seq<JobTask>, name: string)
    requires |tasks'| == |tasks| && forall i | 0 <= i < |tasks| :: tasks'[i].name == tasks[i].name
    ensures ByName(tasks', name) == ByName(tasks, name)
    decreases |tasks|
  {
    if tasks != [] {
      SameNames(tasks[1..], tasks'[1..], name);
    }
  }

  class PipelineJob {
    const id: JobId
    const pipeline: string
    const queuePartition: string
    const env: map<string, string>
    const variables: map<string, string>
    const user: string
    const startDelay: int
    const builds: bool
    const created: int
    ghost const ticket: int
    var completed: bool
    var canceled: bool
    var start: Option<int>
    var end: Option<int>
    var tasks: seq<JobTask>
    var lastError: Option<string>
    var firstFailedTask: Option<nat>
    var sched: bool
    var startTimer: bool

    /** The object as a value. */
    ghost function Value(): Job
      reads this
    {
      Job(pipeline, queuePartition, env, variables, user, startDelay, builds, ticket, created, completed, canceled,
          start, end, tasks, lastError, firstFailedTask, sched, startTimer)
    }

    predicate IsRunning()
      reads this
      ensures IsRunning() == RunnerState.IsRunning(Value())
    {
      start.Some? && !completed && !canceled
    }

    predicate CanBeStarted()
      reads this
      ensures CanBeStarted() == RunnerState.CanBeStarted(Value())
    {
      if startDelay > 0 && startTimer then false
      else if start.Some? then false
      else if canceled then false
      else true
    }

    constructor (def: PipelineDef, req: Request, ghost ticket: int, now: int)
      ensures id == req.id && pipeline == req.pipeline && start.None? && Value() == NewJob(def, req, ticket, now)
    {
      id, pipeline, queuePartition, variables, user := req.id, req.pipeline, req.partition, req.variables, req.user;
      startDelay, env, builds, created, this.ticket := def.startDelay, def.env, req.builds, now, ticket;
      completed, canceled, start, end := false, false, None, None;
      tasks, lastError, firstFailedTask, sched, startTimer := req.tasks, None, None, false, def.startDelay > 0;
    }

    /** buildJobFromPersistedJob, and the cancellation of unfinished jobs in initialLoadFromStore. */
    constructor FromStore(pj: Persistence.PersistedJob)
      ensures id == pj.id && pipeline == pj.pipeline && Value() == Persistence.LoadJob(pj)
    {
      id, pipeline, queuePartition, variables, user := pj.id, pj.pipeline, "", pj.variables, pj.user;
      startDelay, env, builds, created, ticket := 0, map[], false, pj.created, FROM_STORE;
      completed, canceled, start, end := pj.completed, pj.canceled, pj.start, pj.end;
      tasks, lastError, firstFailedTask := Persistence.BuildTasks(pj.tasks), None, None;
      sched, startTimer := false, false;
      new;
      if IsRunning() {
        ghost var built := tasks;
        for i := 0 to |tasks|
          invariant |tasks| == |built|
          invariant forall k | 0 <= k < i :: tasks[k] == Persistence.Interrupted(built[k])
          invariant forall k | i <= k < |tasks| :: tasks[k] == built[k]
          invariant Value() == Persistence.BuildJob(pj).(tasks := tasks)
        {
          if tasks[i].status.Waiting? || tasks[i].status.Running? {
            tasks := tasks[i := tasks[i].(status := TaskStatus.Canceled)];
          }
        }
        assert tasks == Persistence.InterruptedTasks(built);
        canceled := true;
      }
      if start.None? && !canceled {
        canceled := true;
      }
    }

    /** The record of the job in the data store. */
    method Persisted() returns (pj: Persistence.PersistedJob)
      ensures pj == Persistence.PersistJob(id, Value()) && pj.id == id
    {
      var records := [];
      for i := 0 to |tasks|
        invariant |records| == i && forall k | 0 <= k < i :: records[k] == Persistence.PersistTask(tasks[k])
      {
        records := records + [Persistence.PersistTask(tasks[i])];
      }
      assert records == Persistence.PersistTasks(tasks);
      pj := Persistence.PersistedJob(id, pipeline, completed, canceled, created, start, end, records, variables, user);
    }

    /** determineIfJobShouldBeRemoved */
    method ShouldBeRemoved(defs: PipelinesMap, index: nat, now: int) returns (remove: bool)
      ensures remove == Retention.ShouldBeRemoved(defs, Value(), index, now)
    {
      if pipeline !in defs {
        return true;
      }
      if start.None? && !canceled {
        return false;
      }
      if !completed && !canceled {
        return false;
      }
      var def := defs[pipeline];
      if def.retentionPeriod > 0 && now - created > def.retentionPeriod {
        return true;
      }
      if def.retentionCount > 0 && index >= def.retentionCount {
        return true;
      }
      return false;
    }

    method InitScheduler()
      modifies this
      ensures Value() == old(Value()).(scheduler := true)
    {
      sched := true;
    }

    method DeinitScheduler()
      requires sched
      modifies this
      ensures Value() == old(Value()).(scheduler := false)
    {
      sched := false;
    }

    method MarkStarted(now: int)
      modifies this
      ensures Value() == Launched(old(Value()), now)
    {
      InitScheduler();
      start := Some(now);
    }

    method MarkUnbuildable()
      modifies this
      ensures Value() == FailedStart(old(Value()))
    {
      InitScheduler();
      lastError := Some("building execution graph");
      canceled := true;
    }

    /** The fields that JobCompleted writes. */
    method MarkCompleted(err: Option<string>, ctxCanceled: bool, now: int)
      requires sched
      modifies this
      ensures Value() == CompletedJob(old(Value()), err, ctxCanceled, now)
    {
      DeinitScheduler();
      completed := true;
      end := Some(now);
      lastError := err;
      if ctxCanceled {
        canceled := true;
      }
    }

    method StopTimer()
      modifies this
      ensures Value() == old(Value()).(timer := false)
    {
      startTimer := false;
    }

    method Cancel()
      modifies this
      ensures Value() == old(Value()).(canceled := true)
    {
      canceled := true;
    }

    method ByName(name: string) returns (k: Option<nat>)
      ensures k == RunnerState.ByName(tasks, name)
      ensures k.Some? ==> k.value < |tasks|
    {
      ByNameInRange(tasks, name);
      for i := 0 to |tasks|
        invariant forall j | 0 <= j < i :: tasks[j].name != name
      {
        if tasks[i].name == name {
          return Some(i);
        }
      }
      return None;
    }

    /** The task fields that HandleTaskChange writes. */
    method WriteReport(k: nat, name: string, r: TaskReport)
      requires RunnerState.ByName(tasks, name) == Some(k) && k < |tasks|
      modifies this
      ensures Value() == SetTask(old(Value()), name, (t: JobTask) => Reported(t, r))
      ensures |tasks| == |old(tasks)| && RunnerState.ByName(tasks, name) == Some(k)
    {
      hide RunnerState.ByName;
      var jt := tasks[k];
      if r.start.Some? {
        jt := jt.(start := r.start);
      }
      if r.end.Some? {
        jt := jt.(end := r.end);
      }
      jt := jt.(exitCode := r.exitCode, skipped := r.skipped);
      if r.ctxCanceled {
        jt := jt.(canceled := true);
      } else {
        jt := jt.(errored := r.errored, error := r.error);
      }
      tasks := tasks[k := jt];
      SameNames(old(tasks), tasks, name);
    }

    /** What HandleTaskChange writes: the fields of the task, and the first task that failed. */
    method ReportTask(k: nat, name: string, r: TaskReport)
      requires RunnerState.ByName(tasks, name) == Some(k) && k < |tasks|
      modifies this
      ensures Value() == ReportedJob(old(Value()), name, r)
      ensures |tasks| == |old(tasks)| && TaskErrored(Value(), name) == tasks[k].errored
    {
      hide RunnerState.ByName, SetTask;
      WriteReport(k, name, r);
      if tasks[k].errored && firstFailedTask.None? {
        firstFailedTask := Some(k);
      }
    }

    method SetTaskStatus(k: nat, name: string, status: TaskStatus)
      requires RunnerState.ByName(tasks, name) == Some(k) && k < |tasks|
      modifies this
      ensures Value() ==
        SetTask(old(Value()), name, (t: JobTask) => t.(status := if t.canceled then TaskStatus.Canceled else status))
    {
      var jt := tasks[k];
      if jt.canceled {
        jt := jt.(status := TaskStatus.Canceled);
      } else {
        jt := jt.(status := status);
      }
      tasks := tasks[k := jt];
    }

    method MarkAsCanceled()
      modifies this
      ensures Value() == RunnerState.MarkAsCanceled(old(Value()))
    {
      canceled := true;
      for i := 0 to |tasks|
        invariant |tasks| == |old(tasks)|
        invariant forall k | 0 <= k < i :: tasks[k] == old(tasks)[k].(canceled := true)
        invariant forall k | i <= k < |tasks| :: tasks[k] == old(tasks)[k]
        invariant Value() == old(Value()).(canceled := true, tasks := tasks)
      {
        tasks := tasks[i := tasks[i].(canceled := true)];
      }
      assert tasks == AllCanceled(old(tasks));
    }
  }

  // ---------------------------------------------------------------------------------------------
  // Slices of jobs
  // ---------------------------------------------------------------------------------------------

  function Ids(list: seq<PipelineJob>): (r: seq<JobId>)
    ensures |r| == |list|
  {
    seq(|list|, i requires 0 <= i < |list| => list[i].id)
  }

  ghost function IdLists(m: map<string, seq<PipelineJob>>): map<string, seq<JobId>> {
    map p | p in m :: Ids(m[p])
  }

  function JobsOf(m: map<string, seq<PipelineJob>>, p: string): seq<PipelineJob> {
    if p in m then m[p] else []
  }

  /** No two objects of the slice have the same id. */
  ghost predicate IdsDiffer(list: seq<PipelineJob>) {
    forall j, k | j in list && k in list && j.id == k.id :: j == k
  }

  lemma {:induction false} FilterIds(list: seq<PipelineJob>, keep: PipelineJob -> bool, keepId: JobId -> bool)
    requires forall j | j in list :: keep(j) == keepId(j.id)
    ensures Ids(Filter(list, keep)) == Filter(Ids(list), keepId)
    decreases |list|
  {
    if list != [] {
      var n := |list| - 1;
      assert list[n] in list;
      FilterIds(list[..n], keep, keepId);
      assert Ids(list)[..n] == Ids(list[..n]);
      var tail := if keep(list[n]) then [list[n]] else [];
      assert Ids(Filter(list[..n], keep) + tail) == Ids(Filter(list[..n], keep)) + Ids(tail);
    }
  }

  /** removeJobFromList */
  method RemoveJobFromList(jobs: seq<PipelineJob>, job: PipelineJob) returns (r: seq<PipelineJob>)
    ensures Ids(r) == RemoveJob(Ids(jobs), job.id)
    ensures forall j | j in r :: j in jobs
  {
    ghost var ids := Ids(jobs);
    for index := 0 to |jobs|
      invariant job.id !in ids[..index]
    {
      if jobs[index].id == job.id {
        IndexIs(ids, job.id, index);
        r := jobs[index := jobs[|jobs| - 1]][..|jobs| - 1];
        return r;
      }
    }
    assert ids[..|jobs|] == ids;
    IndexIs(ids, job.id, |jobs|);
    return jobs;
  }

  lemma {:induction false} IndexIs(list: seq<JobId>, id: JobId, k: nat)
    requires k <= |list| && id !in list[..k] && (k < |list| ==> list[k] == id)
    ensures IndexOf(list, id) == k
    decreases |list|
  {
  }

  // ---------------------------------------------------------------------------------------------
  // Sorting by creation time
  // ---------------------------------------------------------------------------------------------

  predicate ByCreationTimeDesc(p1: PipelineJob, p2: PipelineJob) {
    p2.created < p1.created
  }

  /** No job comes before one that is newer. */
  ghost predicate NewestFirst(list: seq<PipelineJob>) {
    forall i, j | 0 <= i < j < |list| :: list[i].created >= list[j].created
  }

  /** The same objects in another order. */
  ghost predicate Rearranged(list: seq<PipelineJob>, list': seq<PipelineJob>) {
    multiset(Ids(list')) == multiset(Ids(list)) && multiset(list') == multiset(list)
  }

  // pipelineJobsSorter.Swap
  method Swap(jobs: array<PipelineJob>, i: nat, j: nat)
    requires i < j < jobs.Length
    modifies jobs
    ensures jobs[i] == old(jobs[j]) && jobs[j] == old(jobs[i])
    ensures forall k | 0 <= k < jobs.Length && k != i && k != j :: jobs[k] == old(jobs[k])
    ensures Rearranged(old(jobs[..]), jobs[..])
  {
    ghost var before := jobs[..];
    jobs[i], jobs[j] := jobs[j], jobs[i];
    assert jobs[..] == before[i := before[j]][j := before[i]];
    assert Ids(jobs[..]) == Ids(before)[i := Ids(before)[j]][j := Ids(before)[i]];
  }

  // pipelineJobBy.Sort on a copy of the slice. The library sort is not stable; this one stands for it.
  method SortByCreationTime(jobs: array<PipelineJob>)
    modifies jobs
    ensures Rearranged(old(jobs[..]), jobs[..]) && NewestFirst(jobs[..])
  {
    hide Rearranged;
    ghost var all := jobs[..];
    assert Rearranged(all, jobs[..]) by { Same(all); }
    for i := 0 to jobs.Length
      invariant Rearranged(all, jobs[..])
      invariant forall a, b | 0 <= a < b < i :: jobs[a].created >= jobs[b].created
    {
      var k := i;
      while k > 0 && ByCreationTimeDesc(jobs[k], jobs[k - 1])
        invariant 0 <= k <= i
        invariant Rearranged(all, jobs[..])
        invariant forall a, b | 0 <= a < b <= i && b != k :: jobs[a].created >= jobs[b].created
      {
        ghost var before := jobs[..];
        Swap(jobs, k - 1, k);
        RearrangedTransitive(all, before, jobs[..]);
        k := k - 1;
      }
    }
  }

  lemma Same(list: seq<PipelineJob>)
    ensures Rearranged(list, list)
  {
  }

  lemma RearrangedTransitive(a: seq<PipelineJob>, b: seq<PipelineJob>, c: seq<PipelineJob>)
    requires Rearranged(a, b) && Rearranged(b, c)
    ensures Rearranged(a, c)
  {
  }

  // ---------------------------------------------------------------------------------------------
  // Queue strategies
  // ---------------------------------------------------------------------------------------------

  /** Of the listed jobs only the victim changed: it was canceled and its timer stopped. */
  twostate predicate OnlyDisplaced(list: seq<PipelineJob>, victim: Option<JobId>)
    reads list
  {
    forall j | j in list ::
      j.Value() == if victim == Some(j.id) then old(j.Value()).(canceled := true, timer := false) else old(j.Value())
  }

  method Displace(previousJob: PipelineJob)
    modifies previousJob
    ensures previousJob.Value() == old(previousJob.Value()).(canceled := true, timer := false)
  {
    previousJob.canceled := true;
    if previousJob.startTimer {
      previousJob.startTimer := false;
    }
  }

  method ReplaceModify(def: PipelineDef, previousWaitList: seq<PipelineJob>, job: PipelineJob)
    returns (r: seq<PipelineJob>, ghost victim: Option<JobId>)
    requires def.queueStrategy.Replace? && LimitReady(def) && IdsDiffer(previousWaitList)
    modifies previousWaitList
    ensures Queued(Ids(r), victim) == ReplaceIn(Ids(previousWaitList), def.queueLimit.value, job.id)
    ensures OnlyDisplaced(previousWaitList, victim)
    ensures forall j | j in r :: j in previousWaitList || j == job
  {
    var n := |previousWaitList|;
    if n < def.queueLimit.value {
      r, victim := previousWaitList + [job], None;
      assert Ids(r) == Ids(previousWaitList) + [job.id];
    } else {
      Displace(previousWaitList[n - 1]);
      victim := Some(previousWaitList[n - 1].id);
      r := previousWaitList[n - 1 := job];
      assert Ids(r) == Ids(previousWaitList)[..n - 1] + [job.id];
    }
  }

  method PartitionedReplaceModify(def: PipelineDef, previousWaitList: seq<PipelineJob>, job: PipelineJob,
                                  ghost part: JobId -> string)
    returns (r: seq<PipelineJob>, ghost victim: Option<JobId>)
    requires def.queueStrategy.PartitionedReplace? && LimitReady(def) && IdsDiffer(previousWaitList)
    requires part(job.id) == job.queuePartition && forall j | j in previousWaitList :: part(j.id) == j.queuePartition
    modifies previousWaitList
    ensures Queued(Ids(r), victim) ==
      PartitionedReplaceIn(part, Ids(previousWaitList), def.queuePartitionLimit.value, job.id)
    ensures OnlyDisplaced(previousWaitList, victim)
    ensures forall j | j in r :: j in previousWaitList || j == job
  {
    hide Filter;
    var queuePartition := job.queuePartition;
    var mine := (j: PipelineJob) => j.queuePartition == queuePartition;
    var partitionedWaitList := FilterLoop(previousWaitList, mine);
    FilterIds(previousWaitList, mine, InPartition(part, queuePartition));
    FilterElems(previousWaitList, mine);
    var n := |partitionedWaitList|;
    if n < def.queuePartitionLimit.value {
      r, victim := previousWaitList + [job], None;
      assert Ids(r) == Ids(previousWaitList) + [job.id];
    } else {
      var previousJob := partitionedWaitList[n - 1];
      assert previousJob in partitionedWaitList;
      Displace(previousJob);
      victim := Some(previousJob.id);
      var others := (j: PipelineJob) => previousJob != j;
      var waitList := FilterLoop(previousWaitList, others);
      FilterIds(previousWaitList, others, Other(previousJob.id));
      FilterElems(previousWaitList, others);
      r := waitList + [job];
      assert Ids(r) == Ids(waitList) + [job.id];
    }
  }

  /** modifyWaitList of the strategy of the definition. */
  method ModifySlice(def: PipelineDef, previousWaitList: seq<PipelineJob>, job: PipelineJob,
                     ghost part: JobId -> string)
    returns (r: seq<PipelineJob>, ghost victim: Option<JobId>)
    requires LimitReady(def) && IdsDiffer(previousWaitList)
    requires part(job.id) == job.queuePartition && forall j | j in previousWaitList :: part(j.id) == j.queuePartition
    modifies previousWaitList
    ensures Queued(Ids(r), victim) == ModifyWaitList(def, part, Ids(previousWaitList), job.id)
    ensures OnlyDisplaced(previousWaitList, victim)
    ensures forall j | j in r :: j in previousWaitList || j == job
  {
    match def.queueStrategy
    case Append =>
      r, victim := previousWaitList + [job], None;
      assert Ids(r) == Ids(previousWaitList) + [job.id];
    case Replace => r, victim := ReplaceModify(def, previousWaitList, job);
    case PartitionedReplace => r, victim := PartitionedReplaceModify(def, previousWaitList, job, part);
  }
}
