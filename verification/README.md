# prunner in Dafny

prunner runs pipelines of shell tasks. This project models three of its parts and proves what they promise:

1. **The runner** (`prunner.go`): a mutex-protected state machine over job objects that three indexes share
   (`jobsByID`, `jobsByPipeline`, `waitListByPipeline`). Jobs are scheduled, queued by one of three queue strategies,
   started at once, after a delay or when a slot becomes free, canceled, completed, persisted, swept by retention,
   restored after a restart, and wound down at shutdown.
2. **The stage scheduler** (`taskctl/scheduler.go`): a scan loop over the stages of a task graph that races with one
   goroutine per running stage and with cancellation.
3. **Sequential algorithms**: Kahn's sort of the tasks, the retention sweep with its swap removal, the line writer,
   the validation of pipeline definitions.

## How the files fit together

| file | contents |
|---|---|
| `Basics.dfy`, `Definitions.dfy`, `Jobs.dfy` | shared vocabulary, pipeline definitions with validation, task records |
| `TaskOrder.dfy` | the task sort, in place on an array, against "lexicographically least topological order" |
| `LineWriter.dfy`, `LineChunks.dfy` | the line writer as a class, against a machine that reads byte by byte; what it promises about any cutting of the input, the last line included |
| `Stages.dfy`, `StageRuns.dfy`, `StageCancels.dfy`, `Schedule.dfy` | the stage scheduler as a transition system with one action per read and write of a status; its runs; what a cancellation stops; the loop of `Schedule` run against arbitrary interference |
| `WaitList.dfy` | the queue strategies on lists; a shared partitioned list against one list per partition |
| `RunnerState.dfy` | the state of the runner as a value, every exported operation as a function on it |
| `Dispatch.dfy`, `Promotion.dfy` | the mutual recursion of `startJob` and `startJobsOnWaitList`, for any mix of jobs, and its one-step form |
| `Attempts.dfy`, `Overshoot.dfy` | the same recursion for any number of free slots: which entries it attempts, when that is too many, and which started jobs it leaves on the list |
| `Retention.dfy` | the sweep of one pipeline |
| `RunnerEvents.dfy`, `RunnerLifecycle.dfy`, `RunnerIndexes.dfy` | the operations as events; for any sequence of them, new definitions included: what nothing undoes, shutdown, and the agreement of jobs, indexes, wait lists and goroutines |
| `RunnerLanes.dfy`, `RunnerArrivals.dfy` | the queues of the replace strategies, which job a queued request displaces, and what a dispatch does to the last slots |
| `RunnerInvariants.dfy`, `RunnerSteps.dfy`, `RunnerSchedule.dfy`, `RunnerRuns.dfy` | the invariant of one pipeline, exactly which events harm it, and what it means for jobs over whole runs |
| `RunnerSteady.dfy` | pipelines whose definition stays: why nothing harms append and replace queues, and when nothing harms partitioned ones |
| `RunnerOrder.dfy`, `RunnerFlights.dfy` | no overtaking, delays included; goroutines in flight |
| `RunnerQueues.dfy`, `RunnerProgress.dfy` | over whole runs: queue limits, the waiting jobs that no arrival can displace, and how soon they start |
| `RunnerLeftovers.dfy`, `RunnerStarvation.dfy` | entries that stay on a wait list after their job is canceled: when an append pipeline refuses jobs for good, and exactly when a replace queue can starve its jobs |
| `RunnerRedefined.dfy` | the concurrency bound when definitions are replaced during the run |
| `Persistence.dfy` | saving, loading, and the persist requests |
| `RunnerWrites.dfy`, `RunnerHistory.dfy` | what each operation writes, field by field; what a job holds at the end of a run, told from the operations of the run |
| `Counterexamples.dfy`, `CounterexampleRuns.dfy`, `LeftoverRuns.dfy` | where the guarantees end, exactly when, and runs from an empty runner that get there |
| `PipelineJobs.dfy`, `PipelineRunner.dfy` | the job objects and the runner as classes that update their fields in place; every method is proved equal to its function of `RunnerState.dfy` |

The runner is proved in two layers. `Runner.PipelineRunner` holds the maps of shared, mutable `PipelineJob` objects and
does what the Go code does, statement by statement. Its function `Abs()` gives the state as a value, and each method
ensures `Abs() == F(old(Abs()), …)` for the function `F` of `RunnerState`. The theorems are about sequences of these
functions, so they hold for every sequence of method calls. Since all exported operations hold one mutex, a sequence of
calls is all there is; the stage scheduler, which holds no lock, is modelled read by read and write by write.

Times are integers, one per operation. Random ids are parameters that must be fresh. Whether the graph of a job can be
built is a field `builds` of the request: `buildPipelineGraph` depends on the tasks and variables of the job only. The
ghost fields `ticket` (the position of a job among all scheduled ones) and `spawned` (the goroutines launched, in order)
are there to state order and "at most once". A persisted error is its message.

## What was found

- **The invariant of a pipeline** (bound, work conservation, FIFO, no job lost) **is broken by exactly two kinds of
  events** (`RunnerRuns.StepKeepsInvIff`, `RunnerRuns.HoldsThroughoutIff`): a request for this pipeline that displaces a
  running job while something could take the slot that then reads as free (`RunnerSchedule.ScheduleKeepsInvIff`), and
  new definitions that do not suit what runs and waits there (`RunnerRuns.RedefineKeepsInvIff`). Other pipelines never
  matter, nor does which jobs can be built.
- **Re-entrancy by itself is harmless.** `startJob` visits the wait list again when a graph cannot be built, possibly
  from within a visit, and the outer visit then writes a stale list back. Where the invariant holds each visit has one
  free slot or one job to start at most, and then the recursion amounts to a single promotion
  (`Promotion.DispatchIsPromotion`). What remains is a started job left on the wait list: exactly when one of the first
  startable jobs, as many as there are free slots, fails to build and a later one builds (`Overshoot.StaleEntryIff`,
  `CounterexampleRuns.StaleEntryRun`).
- **Append and replace pipelines with a definition that stays are never harmed** (`RunnerSteady.PlainRunIsHarmless`): on
  a replace queue a started job never holds the last slot, so it is never displaced.
- **With partitions a started job can be displaced.** The entry that leaves the list may be of another partition, and
  then the started job keeps the last slot of its own (`RunnerLanes.PromoteRoomyIff` says exactly when). The next arrival
  there cancels it: a slot reads as free although its goroutine goes on (`RunnerArrivals.ReplacingARunningJob`), and the
  request after that starts beside it and past a waiting job (`CounterexampleRuns.DisplacingRun`, a run with fixed
  definitions). It never happens as long as jobs that do not build do not wait together with building jobs of another
  partition (`RunnerSteady.UnmixedRunIsHarmless`).
- **New definitions can break more.** With jobs that build, running jobs stay within the greatest concurrency ever given
  (`RunnerRedefined.BoundUnderNewDefinitions`). A job that does not build, met while two or more slots are free, leaves
  attempts behind that nobody takes back: the bound is exceeded exactly when a building job comes within as many entries
  after those that take the free slots (`Overshoot.OvershootIff`, `CounterexampleRuns.ExceedingRun`). FIFO does not
  survive a concurrency that is raised while a startable job waits (`CounterexampleRuns.NewDefinitionsBreakTheOrder`). A
  pipeline that loses its definition loses all its jobs in the next sweep, also running ones
  (`Retention.UndefinedIsEmptied`).
- **A second sweep at the same time may remove more**, because the sort is not stable. It is idle exactly when every
  finished survivor ranks within the count behind all its ties, and always when creation times differ
  (`Retention.SecondSweepIdle`, `Retention.DistinctTimesIdle`; `Retention.SecondSweepRemoves` is an instance where it is
  not).
- **A canceled job keeps its place on the wait list.** Canceling a waiting job leaves it on the list
  (`prunner.go:1199-1210`), every dispatch writes it back (`prunner.go:801-814`), and the limits count it
  (`prunner.go:246`, `prunner.go:275`). Two documented promises fail because of that:
  - *An idle append pipeline can refuse every job for good.* With nothing running and nothing live, a pipeline refuses
    exactly when `queue_limit` is 0, or when it appends and `queue_limit` ended jobs or more were left on its list
    (`Counterexamples.IdlePipelineRefuses`, `LeftoverRuns.BlockedRun`). In general a refusal is for good exactly when
    nothing on the list is live (`RunnerLeftovers.RefusesForGoodIff`), which only cancellations of waiting jobs bring
    about (`RunnerLeftovers.SpareForGood`).
  - *A replace queue with `queue_limit` 2 or more can starve its jobs*, which `definition/pipelines.go:192-195`,
    `README.md:273-276` and `docs/2025_08_14_partitioned_waitlist.md:60` exclude. What no arrival can displace is a job
    before the last slot; no job of a queue will ever stand there exactly when the slots before the last one are held by
    canceled or started jobs (`RunnerStarvation.NeverSecureIff`). Then the first live job is the one that the next
    arrival displaces (`RunnerStarvation.FirstLiveDisplacedIff`, `LeftoverRuns.StarvingRun`), and so on for any number
    of arrivals (`RunnerStarvation.FloodLeavesLast`). A job that does stand there, or waits on an append queue, starts
    after at most as many completions as live jobs were scheduled before it, and one more
    (`RunnerProgress.StartsInTurn`).
- **Disagreements between code and documentation.** `queue_limit: 0` rejects every job, also on an idle pipeline
  (`prunner.go:242-245`), while `README.md:226` presents it as a way to run without a queue. A replace pipeline without
  `queue_limit` passes validation, and its queue strategy then dereferences nil (`prunner.go:275`,
  `definition/pipelines.go:94-131`): the server recovers from the panic (`server/server.go:44`), and the job stays in
  both indexes, live and on no wait list (`Counterexamples.PanicLosesJob`). The model follows the code throughout.

## Model

| member | source | states |
|---|---|---|
| TaskOrder.SortTasksByDependencies | prunner.go:1312-1372 | the slice is rearranged in place into the order that Kahn's algorithm with a sorted queue assigns, names breaking ties of rank |
| TaskOrder.Ranks | prunner.go:1326-1360 | the loop ends, and the ranks it assigns are positions in the greedy order that always takes the least available name |
| TaskOrder.TaskOrderLeast | prunner.go:1312-1372 | whenever the tasks can be ordered at all, the result is a topological order and the lexicographically least one |
| TaskOrder.TaskOrderUnique | prunner.go:1342-1343 | the result does not depend on the order in which the task map was iterated, cyclic or not |
| TaskOrder.BuildJobTasks | prunner.go:431-445 | one waiting record for each task of the definition, in task order |
| TaskOrder.SameTaskList | prunner.go:431-445 | two schedulings of one definition give the same task list |
| LineWriting.LineWriter.Write | taskctl/line_writer.go:16-45 | the two fields become what the byte machine leaves after the chunk, and all bytes are consumed |
| LineWriting.LineWriter.Finish | taskctl/line_writer.go:54-62 | a non-empty remainder becomes the last line |
| LineChunks.ChunkInvariance | taskctl/line_writer.go:16-62 | cutting the input into Writes is invisible after Finish exactly when no cut separates a CR from its LF |
| LineChunks.ReassemblyExact | taskctl/line_writer.go:16-62 | joining the lines with LF plus the remainder gives the input back exactly when no Write holds a CR LF pair, in particular for CR-free input |
| LineChunks.FinishedExact | taskctl/line_writer.go:54-62 | after Finish the lines, each with its LF, are the input with its last line terminated, however it was cut, exactly when no Write holds a CR LF pair |
| Definitions.Validate | definition/pipelines.go:94-131 | no error exactly for the accepted definitions, and of several faults the first one in the order of the checks; a missing task is named and really missing |
| Definitions.SetDefaults | definition/pipelines.go:229-237 | a concurrency of 0 becomes 1 and nothing else changes |
| WaitList.FilterLoop | helper/slice_utils/sliceUtils.go:3-11 | the loop computes the filter of the list |
| WaitList.PartitionedIsReplace | prunner.go:321-356 | projected on the partition of the job, one arrival is a replace on the projected list with the same victim; every other projection is unchanged |
| WaitList.SharedSimulatesSingle | docs/2025_08_14_partitioned_waitlist.md:105-109 | over any history, one partition sees the list and the replacements of a replace queue of its own |
| WaitList.SharedBounded | docs/2025_08_14_partitioned_waitlist.md:111 | the shared list grows up to the limit times the number of partitions on it |
| StageScheduler.StepKeepsInv | taskctl/scheduler.go:51-117 | every read and write of a status, a cancellation included, keeps the invariant of the stages |
| StageRuns.Safety | taskctl/scheduler.go:81-119 | on every run a task runs at most once and only after each dependency is Done, Skipped or an allowed Error; none is Running at return; the error is nil exactly when no stage ended in Error |
| StageRuns.NilMeansAllDone | taskctl/scheduler.go:51-119 | without Cancel, nil is returned exactly when every stage is Done or Skipped |
| StageRuns.OutcomeExists | taskctl/scheduler.go:175-201 | for an acyclic graph the recursion over dependencies has a solution |
| StageRuns.Confluence | taskctl/scheduler.go:51-117 | every complete run without Cancel ends in the status map given by that recursion |
| StageRuns.SameResult | taskctl/scheduler.go:51-117 | two complete runs of the same graph and task outcomes end in the same statuses and the same success |
| StageRuns.SettledStays | taskctl/scheduler.go:133-142 | a settled stage stays settled, so an isDone that read all stages as settled stays true |
| StageCancels.CancelStops | taskctl/scheduler.go:51-54 | once canceled, between two scans no task is started any more, and during a scan only stages that it has still to visit, each once |
| StageCancels.CanceledIff | taskctl/scheduler.go:123-126 | a run is canceled exactly if somebody has called Cancel |
| StageCancels.PendingMayStart | taskctl/scheduler.go:56-88 | that bound is met: a scan in progress does start a stage it has still to visit, if the dependencies have passed |
| StageCancels.BeginsCanceled | taskctl/scheduler.go:51-54 | on every run that begins canceled nothing runs, nothing fails and every stage stays waiting |
| ScheduleLoop.NotAllHeld | taskctl/scheduler.go:59-113 | progress: with nothing running, a scan that left every waiting stage waiting has found none waiting |
| ScheduleLoop.StepLowersRank | taskctl/scheduler.go:82-110 | each step that changes a stage lowers a rank over the statuses |
| ScheduleLoop.Scheduler.IsDone | taskctl/scheduler.go:133-142 | under interference between any two reads, true means that all stages are settled for good |
| ScheduleLoop.Scheduler.CheckStage | taskctl/scheduler.go:59-88 | a waiting stage is started or canceled, or a dependency of it waits or something runs |
| ScheduleLoop.Scheduler.Schedule | taskctl/scheduler.go:43-120 | the loop ends under any interference, nothing is Running, it fails exactly if a stage ended in Error, without Cancel the statuses are the outcome of the graph, and if it began canceled nothing was started |
| Dispatch.StartJobMoves | prunner.go:502-531 | starting one job, with the dispatch inside it, starts each live job at most once or cancels it, leaves other pipelines alone and keeps live jobs on the list in order |
| Dispatch.WaitListMoves | prunner.go:785-815 | re-entrancy: for any mix of jobs the recursion ends, starts each live job at most once, drops no live job from the wait list and keeps the survivors in order |
| Dispatch.DispatchKeepsLeftover | prunner.go:799-814 | a dispatch, with all the dispatches inside it, writes back every entry whose job has been canceled or started |
| Dispatch.DispatchSkips | prunner.go:157-176 | a dispatch, with all the dispatches inside it, leaves alone every job whose delay still runs, that has started or that was canceled |
| Dispatch.WaitListConserves | prunner.go:785-815 | after a dispatch the pipeline is full or nothing on its list can be started; if all startable jobs build it is not overfull |
| Promotion.DispatchIsPromotion | prunner.go:502-526 | with one free slot or one startable job, the recursion equals a single promotion |
| Attempts.DispatchAttempts | prunner.go:785-815 | for any number of free slots and any mix of jobs: exactly the first startable entries are attempted, those that take the free slots and as many more as failed attempts left behind; nothing else changes, and the rest of the list can still be started |
| Overshoot.OvershootIff | prunner.go:795-814 | a dispatch exceeds the concurrency exactly when a startable job that builds comes after those that take the free slots, within as many entries as the failed attempts before it left behind |
| Overshoot.ExtraNoneIff | prunner.go:792-803 | failed attempts leave nothing behind exactly when each of them is made on the last free slot |
| Overshoot.OneFailingEntry | prunner.go:792-803 | with one failing job and `a` building ones before it, the concurrency is exceeded exactly when the attempt meets two free slots or more and more jobs than that wait behind it |
| Overshoot.StaleEntryIff | prunner.go:512-526 | a dispatch leaves a job that it started on the wait list exactly when one of the first startable jobs, as many as there are free slots, does not build and a later one does |
| Retention.RemoveAllElems | prunner.go:1127-1138 | removing by overwriting with the last entry removes exactly the given jobs, whatever their order |
| Retention.SurvivesIff | prunner.go:1141-1166 | a job survives the sweep exactly when the rule for its rank keeps it |
| Retention.SweepRule | prunner.go:1141-1166 | a job stays exactly if it has neither ended nor been canceled, or if it was created no longer ago than a positive retention period and ranks within a positive retention count |
| Retention.TooOldForGood | prunner.go:1157-1159 | an ended job that is older than the retention period is on its list after no sweep, then and later, whatever else is there |
| RunnerWrites.SweepWrites | prunner.go:968-1001 | the sweep of all pipelines: in both indexes a job stays exactly by that rule for its rank among the jobs of its pipeline, or goes with its definition, and nothing else changes |
| Retention.UnfinishedSurvive | prunner.go:1147-1155 | unfinished jobs of a defined pipeline survive every sweep |
| Retention.UndefinedIsEmptied | prunner.go:1142-1145 | a pipeline without definition loses all its jobs |
| Retention.RetentionCountHolds | prunner.go:1161-1163 | at most RetentionCount finished jobs remain |
| Retention.OldestGoFirst | prunner.go:1157-1163 | a finished job removed for its rank is no newer than any finished job that stayed |
| Retention.SweepKeepsCount | prunner.go:968-1001 | the number of running jobs is the same after a sweep |
| Retention.SecondSweepIdle | prunner.go:968-1001 | a second sweep at the same time removes nothing, however ties are sorted, exactly when every finished survivor ranks within the count behind all its ties |
| Retention.SecondSweepRemoves | prunner.go:968-1001 | with a retention count of 1, a finished and a waiting job of the same age, a second sweep removes what the first one kept |
| Retention.DistinctTimesIdle | prunner_sort.go:38-40 | distinct creation times meet that condition |
| RunnerIndexes.StepKeepsConsistent | prunner.go:29-62 | every operation, new definitions included, keeps jobs, both indexes, wait lists and goroutines in agreement |
| RunnerLanes.EnqueuedLane | prunner.go:253-356 | an arrival replaces the last job of a full queue, which on a partitioned list is what its partition sees; other partitions see nothing |
| RunnerLanes.PromoteRoomyIff | prunner.go:785-815 | starting the next job leaves a started job in the last slot of a replace queue exactly when that job holds the slot and the entry that leaves, one that does not build, is of another partition |
| RunnerLanes.PromoteLanes | prunner.go:785-815 | where jobs that do not build wait with building ones of their own partition only, starting the next job keeps the last slots for jobs that wait |
| RunnerArrivals.ReplacingARunningJob | prunner.go:274-356 | for each strategy, queueing a request frees a slot exactly when its queue is full and the last entry there is a running job, which is then canceled although nothing has ended |
| RunnerSchedule.ScheduleKeepsInvIff | prunner.go:362-429 | ScheduleAsync keeps the invariant of a pipeline exactly unless the request is for it and displaces a running job while the new job, or another one, could take the slot that then reads as free |
| RunnerIndexes.ModifyIs | prunner.go:253-356 | whichever the strategy, the new job is last, the victim is gone and the others keep their order |
| RunnerRuns.CompleteKeepsInv | prunner.go:756-783 | a completion, on this pipeline or another one, and the dispatch after it keep the invariant of a pipeline |
| RunnerRuns.TimerKeepsInv | prunner.go:1239-1262 | a timer that fires keeps the invariant |
| RunnerRuns.CancelKeepsInv | prunner.go:1184-1237 | a cancellation keeps the invariant |
| RunnerRuns.SaveKeepsInv | prunner.go:958-1001 | the retention sweep keeps the invariant |
| RunnerRuns.ShutdownKeepsInv | prunner.go:1064-1080 | the first part of Shutdown keeps the invariant |
| RunnerRuns.TaskChangeKeepsInv | prunner.go:671-728 | a task report, with the fail-fast cancellation in it, keeps the invariant |
| RunnerRuns.RedefineKeepsInvIff | prunner.go:1268-1273 | new definitions keep the invariant of a pipeline exactly when they leave it defined or idle, fit its running jobs, and open no slot before a startable job |
| RunnerRuns.StepKeepsInvIff | prunner.go:29-62 | every operation keeps the invariant of a pipeline, except exactly those that can be seen to harm it before the call |
| RunnerRuns.RunKeepsInv | prunner.go:29-62 | the invariant of a pipeline holds after every run without an event that harms it, whatever happens to other pipelines |
| RunnerRuns.HoldsThroughoutIff | prunner.go:29-62 | the invariant of a pipeline holds at every lock-free point of a sequence of operations exactly when no event of it harms the pipeline |
| RunnerSteady.StepKeepsLanes | prunner.go:253-356 | as long as the definition stays and partitions do not mix, no operation leaves a started job in the last slot of a queue |
| RunnerSteady.VictimNotStarted | prunner.go:284-297 | then the job that an arrival displaces has not been started |
| RunnerSteady.NewDefinitionsSuitIff | prunner.go:1268-1273 | new definitions harm no pipeline that had none; they harm one that loses its definition exactly if something of it is live or running, a lowered concurrency exactly if more jobs run than it allows, a raised one exactly if a startable job waits |
| RunnerSteady.SameConcurrencySuits | prunner.go:1268-1273 | new definitions that leave a pipeline its concurrency never harm it |
| RunnerSteady.PlainRunIsHarmless | prunner.go:253-308 | no event of a run harms an append or replace pipeline whose definition stays, whatever builds and whatever happens elsewhere |
| RunnerSteady.UnmixedRunIsHarmless | prunner.go:321-356 | no event of a run harms a partitioned pipeline whose definition stays and on whose list jobs that do not build never wait with building ones of another partition |
| RunnerRuns.BoundAndWorkConservation | prunner.go:785-815 | in every run that does not harm the pipeline, at every lock-free point running jobs do not exceed Concurrency, and while fewer run no job on the wait list can be started |
| RunnerIndexes.IndexAgreement | prunner.go:399-400 | after any sequence of operations jobsByPipeline enumerates, each once, the jobs of jobsByID of that pipeline, and the count of running jobs misses none |
| RunnerRuns.Conservation | prunner.go:502-531 | in every run that does not harm its pipeline, a job is exactly one of live-waiting (on its wait list exactly once), running and ended; where all jobs build, a started job is on no wait list |
| RunnerIndexes.LiveJobsWait | prunner.go:502-531 | after any sequence of operations a job neither started nor canceled is on the wait list of its pipeline exactly once |
| RunnerIndexes.EndedForever | prunner.go:147-176 | whatever follows, an ended job never waits or runs again, and a start is never taken back |
| RunnerRuns.FirstInFirstOut | prunner.go:402-426 | in every run that does not harm the pipeline, whatever the strategy, of two started jobs the one scheduled first, if undelayed, was started first |
| RunnerOrder.NothingOvertakes | prunner.go:785-815 | whatever a step starts, a job of the same pipeline that was scheduled before and could have been started, its timer fired or firing now, has been started before it or is canceled |
| RunnerIndexes.StartedOnce | prunner.go:528-541 | after any sequence of operations each job got at most one goroutine, and exactly the started ones have one |
| RunnerIndexes.SchedulerInPlace | prunner.go:1219-1226 | after any sequence of operations a job that got its goroutine has its scheduler exactly until it is completed: canceling it finds one, completing it has one to release |
| RunnerIndexes.PollSeesEveryRunningJob | prunner.go:1082-1102 | as long as a pipeline stays defined, whatever else happens, the count that the polling loop of Shutdown reads is that of all its running jobs |
| RunnerFlights.StepFlagIff | prunner.go:284-297 | a running job is marked canceled in flight exactly by a request that displaces it and by a shutdown that finds it on its wait list |
| RunnerFlights.BoundInFlight | prunner.go:1082-1102 | in every run without such events, whatever builds, the goroutines in flight are the running jobs: they stay within Concurrency, and none is left when the poll counts zero |
| RunnerFlights.BuildingJobsAreSpared | prunner.go:785-815 | where all jobs of a pipeline build, every run that does not harm it is without such events |
| RunnerQueues.LimitsHold | prunner.go:241-251 | as long as its definition stays, whatever builds and whatever happens to other pipelines, a wait list stays within queue_limit, and within queue_partition_limit for each partition |
| RunnerQueues.PartitionedLength | docs/2025_08_14_partitioned_waitlist.md:111 | in every such run a partitioned wait list is at most the limit times the number of partitions on it |
| RunnerQueues.SecureStep | prunner.go:274-308 | no step pushes back or cancels, other than on request, a job of an append queue or one that stands before the last slot of a replace queue, unless its turn came and its graph could not be built |
| RunnerQueues.SecureForGood | prunner.go:253-308 | as long as the definition stays, such a job keeps or improves its rank in its (partition's) queue until it is started, or ends with the error of its own failed graph: no arrival ever takes its place |
| RunnerProgress.CompletionStartsNext | prunner.go:756-783 | progress: where a startable job that builds waits, each completion of a running job starts it, or one of the live jobs scheduled before it |
| RunnerProgress.StartsInTurn | prunner.go:785-815 | in every run that does not harm the pipeline and keeps its definition, a job that no arrival can displace, that builds and whose delay is over, has been started once more running jobs were completed than live jobs were scheduled before it |
| RunnerProgress.AheadWithinRank | prunner.go:785-815 | without partitions those live jobs are no more than the rank of the job on its list, so fewer than its limit |
| RunnerLeftovers.LeftoverStep | prunner.go:801-814 | no operation but a shutdown takes an entry off its wait list whose job has been canceled or started, except an arrival that takes its slot |
| RunnerLeftovers.BlockedForGood | prunner.go:241-251 | once such entries fill an append queue, every job is refused after every run without a shutdown that keeps the definition |
| RunnerLeftovers.RefusesForGoodIff | prunner.go:241-251 | a pipeline refuses every job from now on, in all such runs, exactly when it refuses one now and nothing on its wait list is live; otherwise a timer and one completion make room |
| RunnerLeftovers.SpareForGood | prunner.go:241-251 | in every run that keeps the definition, does not harm the pipeline and neither shuts down nor cancels a waiting job, an append list keeps room or a live job, whatever builds and whatever is delayed: only cancellations make a refusal final |
| RunnerStarvation.CloggedForGood | prunner.go:274-356 | replace and partitioned replace: once the slots before the last one are held by canceled or started jobs, the same ones hold them after every such run, and no job of that queue is ever out of reach of arrivals |
| RunnerStarvation.NeverSecureIff | definition/pipelines.go:192-199 | no job of a queue will ever stand where arrivals cannot displace it exactly when canceled or started jobs hold all slots before its last one, whatever its limit; with a limit of one there are none, and it is always so |
| RunnerStarvation.NewcomerSecureIff | prunner.go:274-285 | a job that is queued on a replace queue can never be displaced exactly when fewer than limit - 1 entries were on its queue |
| RunnerStarvation.FirstLiveDisplacedIff | prunner.go:284-305 | the first live job of a queue is displaced by an arrival exactly when the queue is full and every entry before the last one is canceled or started |
| RunnerStarvation.FloodLeavesLast | docs/2025_08_14_partitioned_waitlist.md:60 | of any number of arrivals at a full queue, while the pipeline stays full or its jobs are delayed, all but the last one are canceled without a start |
| RunnerLifecycle.StepGrows | prunner.go:115-145 | no operation takes back a start, a cancellation, a completion, a launched goroutine or the first failed task of a job, sets a start timer again, or changes what was asked for |
| RunnerLifecycle.StepKeepsOwn | prunner.go:36-39 | every operation keeps the jobs of a wait list in its pipeline |
| RunnerLifecycle.StoppingStep | prunner.go:366-368 | while the runner stops, no operation starts a job |
| RunnerLifecycle.NothingStartsAfterShutdown | prunner.go:1064-1102 | once Shutdown has begun, whatever is called starts no job, the running jobs are among those that ran before, and jobs that waited stay canceled |
| RunnerWrites.RefusalIs | prunner.go:366-379 | which of the four errors a request gets, each exactly when |
| RunnerWrites.RequestWrites | prunner.go:387-426 | an accepted job has the variables, user and partition of the request, the environment and delay of the definition and the time; it was started now or failed to build exactly if a slot was free and no delay set |
| RunnerWrites.NewRecords | prunner.go:431-440 | a new task is as defined, waiting, and has nothing that a run would leave |
| RunnerWrites.CompletionWrites | prunner.go:756-781 | a completed job has its end and error and no scheduler, is canceled exactly if it was or its context was, and is otherwise as before |
| RunnerWrites.CancelWrites | prunner.go:1184-1210 | a known job that has neither started nor ended is canceled with each of its tasks and nothing else; any other one is left alone, and which error it gets |
| RunnerWrites.TimerWrites | prunner.go:1239-1258 | after a timer the job has no timer, and is otherwise as before unless its turn has come |
| RunnerWrites.ShutdownWrites | prunner.go:1064-1080 | the flag is set, no list is left, and exactly the listed jobs are canceled, with nothing else about them |
| RunnerWrites.ReportWrites | prunner.go:685-725 | field by field what a report leaves of its task, of the other tasks and of the job: canceled for a canceled context, else the reported error; times where there are any; the first failed task; the cancellation of a waiting job that fails fast |
| RunnerWrites.StageWrites | prunner.go:745-751 | a stage report sets the status of its task, canceled if the task was, and changes nothing else |
| RunnerWrites.UnknownReports | prunner.go:677-684 | reports on unknown jobs and tasks change nothing |
| RunnerWrites.StepStarts | prunner.go:528-531 | a job is started by a request, a completion or a timer only, and its start is the time of that |
| RunnerWrites.RecordIs | prunner.go:1003-1032 | the record of a job has each persisted field of the job and of its tasks |
| RunnerWrites.ReloadWrites | prunner.go:1275-1309 | a reloaded job has the fields of its record, is canceled if it had not ended, and has no partition, environment, delay, timer, scheduler, error or canceled task |
| RunnerHistory.RequestRecorded | prunner.go:387-398 | whatever operations follow, a job and its record keep the variables, user, pipeline and time of the request, and the job the environment of the definition it came from |
| RunnerHistory.StartedCanceledIff | prunner.go:767-770 | over every run a job that was started is canceled, and recorded so, exactly if it was displaced, was found on a wait list by a shutdown, or was completed with a canceled context |
| RunnerHistory.NotBeforeTimer | prunner.go:402-406 | over every run a delayed job is not started before its timer has fired |
| RunnerHistory.FirstFailureIs | prunner.go:709-713 | over every run the remembered task is that of the first report of a failure that was no cancellation |
| RunnerHistory.TaskCanceledIff | prunner.go:697-703 | over every run a task keeps its name and definition, and is canceled exactly by a report with a canceled context or with its waiting job |
| RunnerRedefined.StepTracked | prunner.go:1268-1273 | every operation, new definitions included, keeps the bound and the coverage of the count |
| RunnerRedefined.BoundUnderNewDefinitions | prunner.go:1268-1273 | with jobs that build, running jobs never exceed the greatest concurrency seen, as long as the pipeline stays defined |
| Persistence.SaveThenLoad | prunner.go:1003-1034 | save then load gives the saved view with every unfinished job canceled and the open tasks of running jobs marked, exactly when no error message is empty |
| Persistence.LoadIsInitial | prunner.go:908-956 | after a restart nothing waits, nothing runs and the indexes agree, exactly when no id repeats in the store |
| Persistence.NothingResumes | prunner.go:920-949 | no restored job is ever started, whatever operations follow, new definitions included |
| Persistence.ReloadView | prunner.go:908-956 | the view after a restart is the stored view, restored record by record, and a restart from a save of it changes nothing |
| Persistence.StepRequests | prunner.go:1168-1175 | every operation but Shutdown that changes what is persisted leaves a request in the channel |
| Persistence.NoLostPersist | prunner.go:91-107 | at every lock-free point a request is in the channel, or taken and not yet served, or the store holds what is persisted of every job as it is now (before the first save: what the jobs were restored from) |
| Persistence.FreshlyLoadedIsCovered | prunner.go:83-88 | this holds from the start |
| Counterexamples.IdlePipelineRefuses | prunner.go:241-251 | with nothing running and nothing live, a pipeline refuses a job exactly when queue_limit is 0, or it appends and at least queue_limit entries, all of ended jobs, were left on its list; and then it refuses for good |
| Counterexamples.PanicLosesJob | prunner.go:387-426 | a request leaves a live job in both indexes and on no wait list exactly when the queue strategy panics on its missing limit; every other request keeps jobs, indexes and lists in agreement |
| Counterexamples.ReplaceNeedsLimit | definition/pipelines.go:94-131 | a validated definition has the limit its strategy dereferences exactly unless it is a replace pipeline without queue_limit |
| Counterexamples.OvertakesIff | prunner.go:407-423 | a request is started past a startable waiting job exactly when a slot is free while one waits |
| CounterexampleRuns.StaleEntryRun | prunner.go:512-526 | a run from an empty append pipeline that ends with a running job on the wait list |
| CounterexampleRuns.DisplacingRun | prunner.go:321-356 | a run from an empty partitioned pipeline with fixed definitions in which an arrival cancels a running job and the next request starts beside it, past a startable waiting job |
| CounterexampleRuns.ExceedingRun | prunner.go:795-814 | a run from an empty pipeline that ends with more running jobs than its raised concurrency |
| CounterexampleRuns.NewDefinitionsBreakTheOrder | prunner.go:1268-1273 | a run in which a raised concurrency starts a later job first |
| LeftoverRuns.BlockedRun | prunner.go:1199-1210 | append, concurrency 1, queue_limit 1: after two requests, a cancellation and a completion nothing is live or running, and every job is refused for good |
| LeftoverRuns.StarvingRun | README.md:273-276 | replace, concurrency 1, queue_limit 2: behind a canceled job the first live job is displaced by the next arrival, and no job of the queue is ever out of reach again |
| PipelineJobs.PipelineJob.constructor | prunner.go:387-406 | the object holds the fields of a new job, its environment and delay from the definition |
| PipelineJobs.PipelineJob.FromStore | prunner.go:919-950 | the object is the restored job, interrupted tasks and all |
| PipelineJobs.PipelineJob.CanBeStarted | prunner.go:157-176 | the three guards together are the predicate of the model |
| PipelineJobs.PipelineJob.MarkAsCanceled | prunner.go:200-205 | the job and each of its tasks are canceled and nothing else changes |
| PipelineJobs.PipelineJob.ByName | prunner.go:1374-1381 | the first task of that name |
| PipelineJobs.PipelineJob.ReportTask | prunner.go:682-713 | the task fields after a report, a cancellation or an error excluding each other, and the first task that failed is remembered |
| PipelineJobs.PipelineJob.ShouldBeRemoved | prunner.go:1141-1166 | the guards in order decide as the retention rule does |
| PipelineJobs.PipelineJob.Persisted | prunner.go:1004-1033 | the record of the job |
| PipelineJobs.RemoveJobFromList | prunner.go:1127-1138 | the first entry with that id is overwritten by the last, which is dropped |
| PipelineJobs.Swap | prunner_sort.go:29-31 | two entries change places and the slice keeps its elements |
| PipelineJobs.SortByCreationTime | prunner_sort.go:15-21 | the slice is rearranged with no job before a newer one |
| PipelineJobs.ReplaceModify | prunner.go:274-308 | on the slice of job objects: append below the limit, else the last job is canceled, its timer stopped and its place taken |
| PipelineJobs.PartitionedReplaceModify | prunner.go:321-356 | on the slice of job objects: append below the limit of the partition, else the last job of the partition is canceled and removed and the new one appended |
| Runner.PipelineRunner.RunningJobsCount | prunner.go:867-875 | the count over the objects is the count of the model |
| Runner.PipelineRunner.RequestPersist | prunner.go:1168-1175 | a request is pending and nothing else changed |
| Runner.PipelineRunner.StartJob | prunner.go:502-542 | a canceled job is left alone, one that builds gets its start and one goroutine, one that does not is canceled and the wait list is visited from within; object by object equal to the model |
| Runner.PipelineRunner.StartJobsOnWaitList | prunner.go:785-815 | the loop over the list as it was read, calling back into itself, ends and leaves the same state as the model |
| Runner.PipelineRunner.ScheduleAsync | prunner.go:362-429 | the error is the model's refusal; otherwise a fresh job object with ordered tasks, started or queued as in the model, or created only, when the queue strategy panics on its missing limit |
| Runner.PipelineRunner.JobCompleted | prunner.go:756-783 | the scheduler is released, the job completed with its end and error, canceled if the context was, its pipeline dispatched and a save requested; all other objects and indexes as in the model |
| Runner.PipelineRunner.CancelJob | prunner.go:1177-1237 | unknown and completed jobs are refused in that order of checks, a canceled one is no error, a job not started is canceled with its tasks, a started one is unchanged |
| Runner.PipelineRunner.StartDelayedJob | prunner.go:1239-1262 | unknown and canceled jobs are left alone; otherwise the timer is gone and the pipeline is dispatched |
| Runner.PipelineRunner.ReplaceDefinitions | prunner.go:1268-1273 | only the definitions change |
| Runner.PipelineRunner.HandleTaskChange | prunner.go:671-728 | nothing for an unknown job or task; otherwise the report is recorded, the first task that failed remembered, a save requested, and a job that failed fast and has not started is canceled |
| Runner.PipelineRunner.HandleStageChange | prunner.go:731-754 | nothing for an unknown job or task; otherwise the task takes the status of the stage, or canceled if it was canceled, and a save is requested |
| Runner.PipelineRunner.BeginShutdown | prunner.go:1064-1080 | flag, canceled waiting jobs and dropped lists as in the model |
| Runner.PipelineRunner.HasRunningPipelines | prunner.go:1082-1096 | true exactly if the count of some listed pipeline is positive |
| Runner.PipelineRunner.SweepPipeline | prunner.go:969-1001 | walking a sorted copy while the list shrinks removes from both indexes what the rule says |
| Runner.PipelineRunner.SaveToStore | prunner.go:958-1034 | the sweep of the model for some order of ties, and one record for each job left |
| Runner.PipelineRunner.constructor | prunner.go:64-88 | the runner starts as the model loads it, over objects of its own |

## Left out

- RunnerRuns.FirstInFirstOut: is about jobs without start delay; what holds for a delayed job once its timer has fired is RunnerOrder.NothingOvertakes.
- RunnerSteady.UnmixedRunIsHarmless: asks for more than is needed; exactly what is needed, event by event, is RunnerRuns.StepKeepsInvIff.
- RunnerIndexes.EndedForever: a goroutine that reports the end of its job twice is excluded; the source launches one per start.
- RunnerIndexes.PollSeesEveryRunningJob: needs the pipeline to stay defined, because a sweep forgets the running jobs of one that does not.
- Retention.OldestGoFirst: jobs removed for their age are excluded, since only the count ranks jobs.
- Persistence.NothingResumes: needs distinct ids in the store, as SaveToStore writes them.
- Runner.PipelineRunner.constructor: needs distinct ids in the store, as SaveToStore writes them: the table of all job objects is keyed by id; the persist loop is in Persistence.
- RunnerLeftovers.RefusesForGoodIff: asks that the list is within its limit, which RunnerQueues.LimitsHold keeps as long as the definition stays.
- RunnerHistory.FirstFailureIs: is about jobs without a failed task at first, as RunnerWrites.NewRecords has them; a restored job may have failed tasks and none remembered.
- RunnerHistory.NotBeforeTimer: that a timer fires no earlier than its delay is a matter of the Go runtime; the event may come at any time.
- RunnerProgress.StartsInTurn: is about jobs that build and whose delay is over; that a timer fires is an event like any other.
- Runner.PipelineRunner.ScheduleAsync: asks for a definition that passed validation, as the loader checks (`definition/loader.go:58`); the runs ask that it has its limits, too.
- Runner.PipelineRunner.JobCompleted: asks that the job has its scheduler, which the source dereferences (RunnerIndexes.SchedulerInPlace).
- Runner.PipelineRunner.StartJob: sets the persist request first, where the source defers it to the end of the same critical section.
- Runner.PipelineRunner.CancelJob: canceling a started job only tells its scheduler, in the background; the order of that against the stages is in StageScheduler.
- buildPipelineGraph: its result is a field of the request; the graph checks of the taskctl library are not part of this model.
- The polling and forced cancellation of Shutdown: one round of the poll is modelled; canceling all jobs only signals their schedulers, because none is waiting any more.
- The on_error handler: a job runs until JobCompleted; the task it appends, its variables and the second scheduler it makes are not modelled.
- The value of lastErr and of LastError beyond being nil or a given message.
- Stage conditions and nested stage pipelines, which prunner never sets.
- Notifications from stages to job tasks: HandleStageChange is an operation that may happen with any status at any time.
- Task execution, process groups, kill timeouts, output files, HTTP, tokens, configuration and YAML loading.
- Shutdown and its final save: Shutdown cancels waiting jobs without a persist request, so the no-lost-persist runs leave it out; its final save covers it (Persistence.ShutdownIsSavedAtTheEnd).
- JSON encoding: the store returns the records it was given, and a failed save is not modelled.
- SaveToStore under its read lock: sweep and snapshot are one atomic step, as the only writer under that lock.
- Definition equality, listings of pipelines and jobs: they only read.
- Slices that share a backing array: lists are values of the maps that hold them, job objects are shared.
