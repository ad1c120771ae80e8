// The state of PipelineRunner (prunner.go) as a value, and its operations as functions on it.
// Each operation holds the runner's mutex, so one call is one atomic step.
module RunnerState {
  import opened Basics
  import opened Definitions
  import opened Jobs
  import opened WaitList

  const FROM_STORE := -1

  datatype Job = Job(
    pipeline: string,
    partition: string,
    env: map<string, string>,
    variables: map<string, string>,
    user: string,
    startDelay: int,
    builds: bool,            // whether buildPipelineGraph succeeds for this job
    ticket: int,             // position among all scheduled jobs, FROM_STORE for a restored one
    created: int,
    completed: bool,
    canceled: bool,
    start: Option<int>,
    end: Option<int>,
    tasks: seq<JobTask>,
    lastError: Option<string>,
    firstFailed: Option<nat>, // firstFailedTask, as an index into tasks
    scheduler: bool,         // sched != nil, and with it taskRunner
    timer: bool)             // startTimer != nil

  type JobTable = map<JobId, Job>

  predicate IsRunning(j: Job) {
    j.start.Some? && !j.completed && !j.canceled
  }

  predicate CanBeStarted(j: Job) {
    !(j.startDelay > 0 && j.timer) && j.start.None? && !j.canceled
  }

  /** Neither started nor canceled. */
  predicate Live(j: Job) {
    j.start.None? && !j.canceled
  }

  datatype State = State(
    defs: PipelinesMap,
    jobs: JobTable,                        // every job object there ever was
    known: set<JobId>,                     // the keys of jobsByID
    byPipeline: map<string, seq<JobId>>,
    wait: map<string, seq<JobId>>,
    shutting: bool,
    token: bool,                           // a request in the capacity-1 persist channel
    tickets: nat,
    spawned: seq<JobId>)                   // goroutines launched, in order

  /** A missing map entry reads as an empty list. */
  function ListOf(m: map<string, seq<JobId>>, p: string): seq<JobId> {
    if p in m then m[p] else []
  }

  /** runningJobsCount on one list. */
  function CountRunning(jobs: JobTable, ids: seq<JobId>): nat
    decreases |ids|
  {
    if ids == [] then 0
    else
      var n := |ids| - 1;
      CountRunning(jobs, ids[..n]) + if ids[n] in jobs && IsRunning(jobs[ids[n]]) then 1 else 0
  }

  function RunningJobs(s: State, p: string): nat {
    CountRunning(s.jobs, ListOf(s.byPipeline, p))
  }

  /** A pipeline without definition has the zero value, concurrency 0. */
  function Concurrency(defs: PipelinesMap, p: string): int {
    if p in defs then defs[p].concurrency else 0
  }

  function FreeSlots(s: State, p: string): int {
    Concurrency(s.defs, p) - RunningJobs(s, p)
  }

  lemma SlotsAre(s: State, p: string)
    ensures FreeSlots(s, p) == Concurrency(s.defs, p) - RunningJobs(s, p)
    ensures p in s.defs ==> (FreeSlots(s, p) > 0 <==> RunningJobs(s, p) < s.defs[p].concurrency)
    ensures p !in s.defs ==> FreeSlots(s, p) <= 0
  {
  }

  function PartOf(jobs: JobTable): JobId -> string {
    (id: JobId) => if id in jobs then jobs[id].partition else ""
  }

  // ---------------------------------------------------------------------------------------------
  // Starting jobs
  // ---------------------------------------------------------------------------------------------

  ghost function LiveSet(jobs: JobTable): set<JobId> {
    set id | id in jobs && Live(jobs[id])
  }

  /** A job whose graph has been built and whose goroutine is launched. */
  function Launched(j: Job, now: int): Job {
    j.(start := Some(now), scheduler := true)
  }

  /** A job whose graph cannot be built: the scheduler that was made for it stays. */
  function FailedStart(j: Job): Job {
    j.(canceled := true, lastError := Some("building execution graph"), scheduler := true)
  }

  function Started(s: State, id: JobId, now: int): State
    requires id in s.jobs
  {
    s.(jobs := s.jobs[id := Launched(s.jobs[id], now)], token := true, spawned := s.spawned + [id])
  }

  function Unbuildable(s: State, id: JobId): State
    requires id in s.jobs
  {
    s.(jobs := s.jobs[id := FailedStart(s.jobs[id])], token := true)
  }

  /** What a start may do to the table: keep it, shrink the live jobs. */
  ghost predicate Shrinks(jobs: JobTable, jobs': JobTable) {
    jobs'.Keys == jobs.Keys && LiveSet(jobs') <= LiveSet(jobs)
  }

  function StartJob(s: State, id: JobId, now: int): (r: State)
    requires id in s.jobs && s.jobs[id].start.None?
    ensures Shrinks(s.jobs, r.jobs) && id !in LiveSet(r.jobs)
    decreases LiveSet(s.jobs), 0, 0
  {
    if s.jobs[id].canceled then s
    else if s.jobs[id].builds then Started(s, id, now)
    else
      assert id in LiveSet(s.jobs);
      // A canceled job makes room, so the wait list is visited again from here.
      StartJobsOnWaitList(Unbuildable(s, id), s.jobs[id].pipeline, now)
  }

  function StartJobsOnWaitList(s: State, p: string, now: int): (r: State)
    ensures Shrinks(s.jobs, r.jobs)
    decreases LiveSet(s.jobs), 2, 0
  {
    if FreeSlots(s, p) <= 0 then s
    else StartFrom(s, p, ListOf(s.wait, p), FreeSlots(s, p), [], now)
  }

  /** The loop over the wait list as it was read; `kept` is newWaitList. */
  function StartFrom(s: State, p: string, rest: seq<JobId>, free: int, kept: seq<JobId>, now: int): (r: State)
    ensures Shrinks(s.jobs, r.jobs)
    decreases LiveSet(s.jobs), 1, |rest|
  {
    if rest == [] then s.(wait := s.wait[p := kept])
    else
      var id := rest[0];
      if id in s.jobs && CanBeStarted(s.jobs[id]) && free > 0 then
        assert id in LiveSet(s.jobs);
        StartFrom(StartJob(s, id, now), p, rest[1..], free - 1, kept, now)
      else StartFrom(s, p, rest[1..], free, kept + [id], now)
  }

  // ---------------------------------------------------------------------------------------------
  // Scheduling
  // ---------------------------------------------------------------------------------------------

  datatype ScheduleError = ShuttingDown | NotDefined | NoQueue | QueueFull

  datatype Request = Request(
    id: JobId,
    pipeline: string,
    partition: string,
    variables: map<string, string>,
    user: string,
    builds: bool,
    tasks: seq<JobTask>)

  function CanAcceptJob(def: PipelineDef, list: seq<JobId>): Option<ScheduleError> {
    match def.queueStrategy
    case Append =>
      if def.queueLimit == Some(0) then Some(NoQueue)
      else if def.queueLimit.Some? && |list| >= def.queueLimit.value then Some(QueueFull)
      else None
    case Replace => if def.queueLimit == Some(0) then Some(NoQueue) else None
    case PartitionedReplace => if def.queuePartitionLimit == Some(0) then Some(NoQueue) else None
  }

  /** The limit that a replace strategy dereferences. */
  predicate LimitReady(def: PipelineDef) {
    match def.queueStrategy
    case Append => true
    case Replace => def.queueLimit.Some? && def.queueLimit.value > 0
    case PartitionedReplace => def.queuePartitionLimit.Some? && def.queuePartitionLimit.value > 0
  }

  lemma AcceptedIsReady(def: PipelineDef, list: seq<JobId>)
    requires Usable(def) && CanAcceptJob(def, list).None?
    ensures LimitReady(def)
  {
  }

  function ModifyWaitList(def: PipelineDef, part: JobId -> string, list: seq<JobId>, id: JobId): Queued
    requires LimitReady(def)
  {
    match def.queueStrategy
    case Append => AppendTo(list, id)
    case Replace => ReplaceIn(list, def.queueLimit.value, id)
    case PartitionedReplace => PartitionedReplaceIn(part, list, def.queuePartitionLimit.value, id)
  }

  /** A replaced job is canceled and its timer stopped. */
  function Displaced(jobs: JobTable, victim: Option<JobId>): JobTable {
    if victim.Some? && victim.value in jobs
    then jobs[victim.value := jobs[victim.value].(canceled := true, timer := false)]
    else jobs
  }

  function Enqueue(s: State, p: string, id: JobId): State
    requires p in s.defs && LimitReady(s.defs[p])
  {
    var q := ModifyWaitList(s.defs[p], PartOf(s.jobs), ListOf(s.wait, p), id);
    s.(jobs := Displaced(s.jobs, q.victim), wait := s.wait[p := q.list])
  }

  function NewJob(def: PipelineDef, req: Request, ticket: int, now: int): Job {
    Job(req.pipeline, req.partition, def.env, req.variables, req.user, def.startDelay, req.builds, ticket, now,
        false, false, None, None, req.tasks, None, None, false, def.startDelay > 0)
  }

  function Created(s: State, def: PipelineDef, req: Request, now: int): State {
    s.(jobs := s.jobs[req.id := NewJob(def, req, s.tickets, now)],
       known := s.known + {req.id},
       byPipeline := s.byPipeline[req.pipeline := ListOf(s.byPipeline, req.pipeline) + [req.id]],
       token := true,
       tickets := s.tickets + 1)
  }

  ghost predicate DefsUsable(defs: PipelinesMap) {
    forall p | p in defs :: Usable(defs[p])
  }

  function Refusal(s: State, p: string): Option<ScheduleError> {
    if s.shutting then Some(ShuttingDown)
    else if p !in s.defs then Some(NotDefined)
    else CanAcceptJob(s.defs[p], ListOf(s.wait, p))
  }

  function ScheduleAsync(s: State, req: Request, now: int): State
    requires req.id !in s.jobs
  {
    if Refusal(s, req.pipeline).Some? then s
    else
      var def := s.defs[req.pipeline];
      var s1 := Created(s, def, req, now);
      if def.startDelay <= 0 && RunningJobs(s1, req.pipeline) < def.concurrency
      then StartJob(s1, req.id, now)
      else if LimitReady(def) then Enqueue(s1, req.pipeline, req.id)
      else s1  // The queue strategy panics on its missing limit; the job has been created.
  }

  /** The request panics: its job is to be queued, and the queue strategy dereferences a limit that is not there. */
  predicate Panics(s: State, req: Request, now: int) {
    Refusal(s, req.pipeline).None? &&
    var def := s.defs[req.pipeline];
    && !(def.startDelay <= 0 && RunningJobs(Created(s, def, req, now), req.pipeline) < def.concurrency)
    && !LimitReady(def)
  }

  /** How a request goes: it is refused, or its job is created and then started or queued, or left there by a panic. */
  lemma ScheduleGoes(s: State, req: Request, now: int)
    requires req.id !in s.jobs
    ensures Refusal(s, req.pipeline).Some? ==> ScheduleAsync(s, req, now) == s
    ensures Refusal(s, req.pipeline).None? ==>
      && req.pipeline in s.defs
      && var def := s.defs[req.pipeline]; var s1 := Created(s, def, req, now);
         if def.startDelay <= 0 && RunningJobs(s1, req.pipeline) < def.concurrency
         then ScheduleAsync(s, req, now) == StartJob(s1, req.id, now) && !Panics(s, req, now)
         else
           && (Panics(s, req, now) <==> !LimitReady(def))
           && ScheduleAsync(s, req, now) == if LimitReady(def) then Enqueue(s1, req.pipeline, req.id) else s1
  {
  }

  /** With definitions that have their limits. */
  lemma ScheduleOutcome(s: State, req: Request, now: int)
    requires DefsUsable(s.defs) && req.id !in s.jobs
    ensures !Panics(s, req, now)
    ensures Refusal(s, req.pipeline).Some? ==> ScheduleAsync(s, req, now) == s
    ensures Refusal(s, req.pipeline).None? ==>
      && req.pipeline in s.defs && LimitReady(s.defs[req.pipeline])
      && var def := s.defs[req.pipeline]; var s1 := Created(s, def, req, now);
         ScheduleAsync(s, req, now) ==
           if def.startDelay <= 0 && RunningJobs(s1, req.pipeline) < def.concurrency then StartJob(s1, req.id, now)
           else Enqueue(s1, req.pipeline, req.id)
  {
  }

  // ---------------------------------------------------------------------------------------------
  // The other operations
  // ---------------------------------------------------------------------------------------------

  function CompletedJob(j: Job, err: Option<string>, ctxCanceled: bool, now: int): Job {
    j.(completed := true, end := Some(now), lastError := err, canceled := j.canceled || ctxCanceled,
       scheduler := false)
  }

  function JobCompleted(s: State, id: JobId, err: Option<string>, ctxCanceled: bool, now: int): State
    requires id in s.jobs
  {
    var s1 := s.(jobs := s.jobs[id := CompletedJob(s.jobs[id], err, ctxCanceled, now)]);
    StartJobsOnWaitList(s1, s.jobs[id].pipeline, now).(token := true)
  }

  datatype CancelError = JobNotFound | AlreadyCompleted

  function AllCanceled(tasks: seq<JobTask>): seq<JobTask> {
    seq(|tasks|, i requires 0 <= i < |tasks| => tasks[i].(canceled := true))
  }

  function MarkAsCanceled(j: Job): Job {
    j.(canceled := true, tasks := AllCanceled(j.tasks))
  }

  function CancelRefusal(s: State, id: JobId): Option<CancelError> {
    if id !in s.known || id !in s.jobs then Some(JobNotFound)
    else if !s.jobs[id].canceled && s.jobs[id].completed then Some(AlreadyCompleted)
    else None
  }

  /** A started job is only told to stop: its scheduler is canceled in the background. */
  function CancelJob(s: State, id: JobId): State {
    if id !in s.known || id !in s.jobs then s
    else
      var j := s.jobs[id];
      if j.canceled || j.completed || j.start.Some? then s
      else s.(jobs := s.jobs[id := MarkAsCanceled(j)], token := true)
  }

  function StartDelayedJob(s: State, id: JobId, now: int): State {
    if id !in s.known || id !in s.jobs || s.jobs[id].canceled then s
    else StartJobsOnWaitList(s.(jobs := s.jobs[id := s.jobs[id].(timer := false)]), s.jobs[id].pipeline, now)
  }

  function ReplaceDefinitions(s: State, defs: PipelinesMap): State {
    s.(defs := defs)
  }

  /** Every job on any wait list is canceled and the lists are dropped. */
  function Shutdown(s: State): State {
    s.(shutting := true, wait := map[],
       jobs := map id | id in s.jobs :: if OnSomeList(s, id) then s.jobs[id].(canceled := true) else s.jobs[id])
  }

  predicate OnSomeList(s: State, id: JobId) {
    exists p | p in s.wait :: id in s.wait[p]
  }

  // ---------------------------------------------------------------------------------------------
  // Task and stage callbacks
  // ---------------------------------------------------------------------------------------------

  datatype TaskReport = TaskReport(
    start: Option<int>,
    end: Option<int>,
    exitCode: int,
    skipped: bool,
    errored: bool,
    error: Option<string>,
    ctxCanceled: bool)

  /** ByName: the first task of that name. */
  function ByName(tasks: seq<JobTask>, name: string): Option<nat> {
    if tasks == [] then None
    else if tasks[0].name == name then Some(0)
    else match ByName(tasks[1..], name) case None => None case Some(k) => Some(k + 1)
  }

  lemma ByNameInRange(tasks: seq<JobTask>, name: string)
    ensures var k := ByName(tasks, name);
      k.Some? ==>
        k.value < |tasks| && tasks[k.value].name == name && forall i | 0 <= i < k.value :: tasks[i].name != name
    ensures ByName(tasks, name).None? ==> forall i | 0 <= i < |tasks| :: tasks[i].name != name
  {
  }

  function Reported(t: JobTask, r: TaskReport): JobTask {
    var u := t.(start := if r.start.Some? then r.start else t.start,
                end := if r.end.Some? then r.end else t.end,
                exitCode := r.exitCode, skipped := r.skipped);
    if r.ctxCanceled then u.(canceled := true) else u.(errored := r.errored, error := r.error)
  }

  function SetTask(j: Job, name: string, f: JobTask -> JobTask): Job {
    var k := ByName(j.tasks, name);
    if k.Some? && k.value < |j.tasks| then j.(tasks := j.tasks[k.value := f(j.tasks[k.value])]) else j
  }

  function TaskKnown(s: State, id: JobId, name: string): bool {
    id in s.known && id in s.jobs && ByName(s.jobs[id].tasks, name).Some?
  }

  function FailFast(s: State, id: JobId): bool
    requires id in s.jobs
  {
    s.jobs[id].pipeline in s.defs && !s.defs[s.jobs[id].pipeline].continueRunningTasksAfterFailure
  }

  function TaskErrored(j: Job, name: string): bool {
    var k := ByName(j.tasks, name);
    k.Some? && k.value < |j.tasks| && j.tasks[k.value].errored
  }

  /** The job after a report on one of its tasks: the first task that failed is remembered. */
  function ReportedJob(j: Job, name: string, r: TaskReport): Job {
    var j1 := SetTask(j, name, (t: JobTask) => Reported(t, r));
    if TaskErrored(j1, name) && j1.firstFailed.None? then j1.(firstFailed := ByName(j1.tasks, name)) else j1
  }

  function HandleTaskChange(s: State, id: JobId, name: string, r: TaskReport): State {
    if !TaskKnown(s, id, name) then s
    else
      var j := ReportedJob(s.jobs[id], name, r);
      var s1 := s.(jobs := s.jobs[id := j], token := true);
      if TaskErrored(j, name) && FailFast(s, id) then CancelJob(s1, id) else s1
  }

  function HandleStageChange(s: State, id: JobId, name: string, status: TaskStatus): State {
    if !TaskKnown(s, id, name) then s
    else
      var assign := (t: JobTask) => t.(status := if t.canceled then TaskStatus.Canceled else status);
      s.(jobs := s.jobs[id := SetTask(s.jobs[id], name, assign)], token := true)
  }
}
