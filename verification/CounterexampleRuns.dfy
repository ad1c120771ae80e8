// Runs from a runner without jobs that reach the states in which the guarantees end.
module CounterexampleRuns {
  import opened Basics
  import opened Definitions
  import opened WaitList
  import opened RunnerState
  import opened Dispatch
  import opened Promotion
  import opened Attempts
  import opened Overshoot
  import opened RunnerEvents
  import opened RunnerArrivals
  import opened RunnerLifecycle
  import opened RunnerIndexes
  import opened RunnerLanes

  const ONE_SLOT := PipelineDef(1, None, None, Append, 0, false, 0, 0, map[], map[])
  const TWO_SLOTS := ONE_SLOT.(concurrency := 2)
  const PARTITIONS := ONE_SLOT.(queueStrategy := PartitionedReplace, queuePartitionLimit := Some(1))
  const ONE_PLACE := ONE_SLOT.(queueLimit := Some(1))
  const TWO_PLACES := ONE_SLOT.(queueStrategy := Replace, queueLimit := Some(2))

  /** A definition with one slot for running jobs. */
  predicate Example(def: PipelineDef) {
    def == ONE_SLOT || def == PARTITIONS || def == ONE_PLACE || def == TWO_PLACES
  }

  function Ask(id: JobId, partition: string, builds: bool): Request {
    Request(id, "p", partition, map[], "", builds, [])
  }

  ghost function Runner(def: PipelineDef): State {
    State(map["p" := def], map[], {}, map[], map[], false, false, 0, [])
  }

  // ---------------------------------------------------------------------------------------------
  // Single steps
  // ---------------------------------------------------------------------------------------------

  /** A run that got this far, with what its next step relies on. */
  ghost predicate Got(s0: State, events: seq<Event>, s: State) {
    AnyRun(s0, events, s) && Consistent(s) && DefsUsable(s.defs)
  }

  lemma {:induction false} RunOneEvent(s0: State, events: seq<Event>, s: State, e: Event)
    requires AnyRun(s0, events, s) && DefsUsable(s.defs) && RunnerEvents.Enabled(s, e)
    ensures AnyRun(s0, events + [e], Next(s, e))
    decreases |events|
  {
    if events == [] {
      assert [e][0] == e && [e][1..] == [] && events + [e] == [e];
    } else {
      assert (events + [e])[1..] == events[1..] + [e];
      RunOneEvent(Next(s0, events[0]), events[1..], s, e);
    }
  }

  lemma OneEvent(s0: State, events: seq<Event>, s: State, e: Event)
    requires Got(s0, events, s) && RunnerEvents.Enabled(s, e)
    ensures AnyRun(s0, events + [e], Next(s, e)) && Consistent(Next(s, e))
    ensures !e.Redefine? ==> Next(s, e).defs == s.defs && (!e.StopAll? ==> Next(s, e).shutting == s.shutting)
  {
    hide Consistent, AnyRun, DefsUsable, ListsOwn;
    RunOneEvent(s0, events, s, e);
    StepKeepsConsistent(s, e);
    ConsistentOwn(s);
    if !e.Redefine? {
      StepKeepsDefs(s, e);
    }
  }

  lemma StartOfRun(def: PipelineDef)
    requires Example(def)
    ensures Got(Runner(def), [], Runner(def)) && FreeSlots(Runner(def), "p") == 1
  {
    var s := Runner(def);
    assert Initial(s);
    InitialConsistent(s);
    assert CountRunning(s.jobs, []) == 0;
  }

  // A request that has to wait and replaces nobody.
  lemma HasToWait(s: State, req: Request, now: int)
    requires Consistent(s) && DefsUsable(s.defs) && Takes(s, req) && FreeSlots(s, req.pipeline) <= 0
    requires Displaces(s, req).None?
    ensures var s' := ScheduleAsync(s, req, now);
      s' == Fresh(s, req, now).(wait := s'.wait) && FreeSlots(s', req.pipeline) == FreeSlots(s, req.pipeline)
      && s'.wait == s.wait[req.pipeline := ListOf(s'.wait, req.pipeline)]
      && ListOf(s'.wait, req.pipeline) == ListOf(s.wait, req.pipeline) + [req.id]
  {
    hide FreeSlots, Enqueue, ConsistentBut, ScheduleAsync, Refusal, Displaces, Usable, LimitReady, Indexed;
    Queues(s, req, now);
    var p, s1 := req.pipeline, Fresh(s, req, now);
    ReplacingARunningJob(s, req, now);
    QueueingReplaces(s, req, now);
    LastWithoutVictim(s, req, now);
    assert Enqueue(s1, p, req.id).jobs == s1.jobs;
  }

  lemma LastWithoutVictim(s: State, req: Request, now: int)
    requires Consistent(s) && DefsUsable(s.defs) && Takes(s, req) && Displaces(s, req).None?
    ensures req.pipeline in s.defs && LimitReady(s.defs[req.pipeline])
    ensures ListOf(Enqueue(Fresh(s, req, now), req.pipeline, req.id).wait, req.pipeline) ==
      ListOf(s.wait, req.pipeline) + [req.id]
  {
    hide LaneOf, Lane, ConsistentBut, Filter;
    QueueingReplaces(s, req, now);
    var def := s.defs[req.pipeline];
    if !def.queueStrategy.Append? {
      SameVictim(s, req, now);
    }
  }

  lemma Ends(s: State, p: string, id: JobId, now: int)
    requires Consistent(s) && id in s.jobs && s.jobs[id].pipeline == p && IsRunning(s.jobs[id]) && id in s.known
    requires forall x | x in ListOf(s.wait, p) :: x in s.known
    ensures var s1 := s.(jobs := s.jobs[id := CompletedJob(s.jobs[id], None, false, now)]);
      && FreeSlots(s1, p) == FreeSlots(s, p) + 1 && Orderly(s1, p, ListOf(s1.wait, p))
      && JobCompleted(s, id, None, false, now) == StartJobsOnWaitList(s1, p, now).(token := true)
  {
    hide ConsistentBut, StartJobsOnWaitList;
    ConsistentTidy(s, {}, p);
    CountUpdate(s.jobs, ListOf(s.byPipeline, p), id, CompletedJob(s.jobs[id], None, false, now));
    var s1 := s.(jobs := s.jobs[id := CompletedJob(s.jobs[id], None, false, now)]);
    forall x | x in ListOf(s.wait, p) ensures Listed(s1, p, x) {
      WaiterListed(s, p, x);
    }
  }

  lemma WaiterListed(s: State, p: string, x: JobId)
    requires Consistent(s) && x in ListOf(s.wait, p)
    ensures x in s.jobs && s.jobs[x].pipeline == p
    ensures Live(s.jobs[x]) && x in s.known ==> x in ListOf(s.byPipeline, p) && !s.jobs[x].completed
  {
    assert Tidy(s, p, {});
  }

  // ---------------------------------------------------------------------------------------------
  // One running job, one that cannot be built, one that can
  // ---------------------------------------------------------------------------------------------

  function New(def: PipelineDef, id: JobId, partition: string, builds: bool): Job {
    NewJob(def, Ask(id, partition, builds), id, id)
  }

  /** Job 0 runs; job 1 of its partition cannot be built; job 2 of another partition can. */
  ghost function Opening(): seq<Event> {
    [Schedule(Ask(0, "a", true), 0), Schedule(Ask(1, "a", false), 1), Schedule(Ask(2, "b", true), 2)]
  }

  ghost predicate Opened(s: State, def: PipelineDef) {
    && s.defs == map["p" := def] && s.known == s.jobs.Keys && s.wait == map["p" := [1, 2]] && !s.shutting
    && s.jobs ==
      map[0 := Launched(New(def, 0, "a", true), 0), 1 := New(def, 1, "a", false), 2 := New(def, 2, "b", true)]
    && s.tickets == 3 && s.spawned == [0] && FreeSlots(s, "p") == 0
  }

  lemma NobodyInPartition(s: State, def: PipelineDef, req: Request)
    requires s.defs == map["p" := def] && Example(def) && req.pipeline == "p"
    requires def == TWO_PLACES ==> |ListOf(s.wait, "p")| < 2
    requires def == PARTITIONS ==> forall id | id in ListOf(s.wait, "p") ::
      id in s.jobs && s.jobs[id].partition != req.partition
    ensures Displaces(s, req).None?
  {
    if def == PARTITIONS {
      FilterNone(ListOf(s.wait, "p"), InPartition(PartOf(s.jobs), req.partition));
    }
  }

  lemma FirstStarts(def: PipelineDef) returns (s: State)
    requires Example(def)
    ensures Got(Runner(def), Opening()[..1], s) && s.defs == map["p" := def]
    ensures s.known == {0} && s.wait == map[] && !s.shutting && s.tickets == 1 && s.spawned == [0]
    ensures FreeSlots(s, "p") == 0
    ensures s.jobs == map[0 := Launched(New(def, 0, "a", true), 0)]
  {
    hide FreeSlots, Consistent, ScheduleAsync, AnyRun;
    var s0, e := Runner(def), Opening()[0];
    StartOfRun(def);
    OneEvent(s0, [], s0, e);
    StartsNow(s0, e.req, e.now);
    assert [] + [e] == Opening()[..1];
    s := Next(s0, e);
  }

  lemma SecondWaits(def: PipelineDef, builds: bool) returns (s: State)
    requires Example(def)
    ensures Got(Runner(def), Opening()[..1] + [Schedule(Ask(1, "a", builds), 1)], s) && s.defs == map["p" := def]
    ensures s.known == {0, 1} && s.wait == map["p" := [1]] && !s.shutting && s.tickets == 2 && s.spawned == [0]
    ensures FreeSlots(s, "p") == 0
    ensures s.jobs == map[0 := Launched(New(def, 0, "a", true), 0), 1 := New(def, 1, "a", builds)]
  {
    hide FreeSlots, Consistent, ScheduleAsync, AnyRun, Displaces;
    var s1 := FirstStarts(def);
    var e := Schedule(Ask(1, "a", builds), 1);
    NobodyInPartition(s1, def, e.req);
    OneEvent(Runner(def), Opening()[..1], s1, e);
    HasToWait(s1, e.req, e.now);
    assert [] + [1] == [1];
    s := Next(s1, e);
  }

  lemma ThirdWaits(def: PipelineDef) returns (s: State)
    requires def == ONE_SLOT || def == PARTITIONS
    ensures Got(Runner(def), Opening(), s) && Opened(s, def)
  {
    hide FreeSlots, Consistent, ScheduleAsync, AnyRun, Displaces;
    var s2 := SecondWaits(def, false);
    var e := Opening()[2];
    NobodyInPartition(s2, def, e.req);
    assert Opening()[..1] + [Opening()[1]] == Opening()[..2];
    OneEvent(Runner(def), Opening()[..2], s2, e);
    HasToWait(s2, e.req, e.now);
    assert Opening()[..2] + [e] == Opening();
    assert [1] + [2] == [1, 2];
    s := Next(s2, e);
  }

  // ---------------------------------------------------------------------------------------------
  // A started job on the wait list, and one that is canceled while it runs
  // ---------------------------------------------------------------------------------------------

  // The dispatch of job 0's completion: job 1 is canceled, job 2 started, and job 1 taken off the list.
  lemma PromoteSecond(s: State, def: PipelineDef, now: int)
    requires FreeSlots(s, "p") == 1 && ListOf(s.wait, "p") == [1, 2] && 1 in s.jobs && 2 in s.jobs
    requires CanBeStarted(s.jobs[1]) && !s.jobs[1].builds && CanBeStarted(s.jobs[2]) && s.jobs[2].builds
    ensures var s' := Promote(s, "p", now);
      && s' == s.(jobs := s'.jobs, spawned := s.spawned + [2], token := true, wait := s.wait["p" := [2]])
      && s'.jobs.Keys == s.jobs.Keys && (forall id | id in s.jobs && id != 1 && id != 2 :: s'.jobs[id] == s.jobs[id])
      && s'.jobs[2] == Launched(s.jobs[2], now) && !Live(s'.jobs[1]) && s'.jobs[1].canceled
  {
    hide FreeSlots;
    var w := [1, 2];
    assert w[1..] == [2] && w[..0] + w[1..] == [2];
    assert Chosen(s.jobs, [2]) == Some(2) && PassedOver(s.jobs, [2]) == {};
  }

  ghost predicate Resumed(s: State, def: PipelineDef) {
    && s.defs == map["p" := def] && s.known == s.jobs.Keys == {0, 1, 2} && s.wait == map["p" := [2]] && !s.shutting
    && s.jobs[0].completed && s.jobs[1].canceled && s.jobs[2] == Launched(New(def, 2, "b", true), 3)
    && s.tickets == 3 && s.spawned == [0, 2] && FreeSlots(s, "p") == 0
  }

  lemma FirstEnds(def: PipelineDef) returns (s: State)
    requires def == ONE_SLOT || def == PARTITIONS
    ensures Got(Runner(def), Opening() + [Complete(0, None, false, 3)], s) && Resumed(s, def)
  {
    hide FreeSlots, Consistent, AnyRun, StartJobsOnWaitList, Promote, Orderly, PassedOver, Chosen, Moves;
    var s3 := ThirdWaits(def);
    var e := Complete(0, None, false, 3);
    OneEvent(Runner(def), Opening(), s3, e);
    Ends(s3, "p", 0, 3);
    var s4 := s3.(jobs := s3.jobs[0 := CompletedJob(s3.jobs[0], None, false, 3)]);
    OrderlyPromotes(s4, 3);
    PromoteSecond(s4, def, 3);
    PromotedSlots(s4, 3);
    s := Next(s3, e);
  }

  lemma OrderlyPromotes(s: State, now: int)
    requires Orderly(s, "p", ListOf(s.wait, "p")) && FreeSlots(s, "p") <= 1
    ensures StartJobsOnWaitList(s, "p", now) == Promote(s, "p", now)
  {
    hide FreeSlots, Counted, Promote, StartJobsOnWaitList;
    DispatchIsPromotion(s, "p", now);
  }

  // One of the two took the slot.
  lemma PromotedSlots(s: State, now: int)
    requires Orderly(s, "p", ListOf(s.wait, "p")) && FreeSlots(s, "p") == 1 && ListOf(s.wait, "p") == [1, 2]
    requires 1 in s.jobs && 2 in s.jobs
    requires CanBeStarted(s.jobs[1]) && !s.jobs[1].builds && CanBeStarted(s.jobs[2]) && s.jobs[2].builds
    ensures FreeSlots(StartJobsOnWaitList(s, "p", now).(token := true), "p") == 0
  {
    hide FreeSlots, StartJobsOnWaitList, Counted;
    var r := StartJobsOnWaitList(s, "p", now);
    OvershootIff(s, "p", now);
    TwoDue(s.jobs);
    var bs := [false, true];
    TwoFlags(s.jobs);
    assert bs[1..] == [true] && [true][1..] == [] && bs[..2] == bs;
    assert Reach(bs, 1) == 2 && Builders(bs) == 1;
    FreeKeepsToken(r);
  }

  lemma FreeKeepsToken(s: State)
    ensures FreeSlots(s.(token := true), "p") == FreeSlots(s, "p")
  {
  }

  lemma TwoFlags(jobs: JobTable)
    requires 1 in jobs && 2 in jobs && !jobs[1].builds && jobs[2].builds
    ensures Flags(jobs, [1, 2]) == [false, true]
  {
    assert !Builds(jobs)(1) && Builds(jobs)(2);
    assert |Flags(jobs, [1, 2])| == 2;
    assert Flags(jobs, [1, 2])[0] == Builds(jobs)([1, 2][0]);
    assert Flags(jobs, [1, 2])[1] == Builds(jobs)([1, 2][1]);
  }

  lemma TwoDue(jobs: JobTable)
    requires Startable(jobs, 1) && Startable(jobs, 2)
    ensures DueIn(jobs, [1, 2]) == [1, 2]
  {
    FilterAll([1, 2], CanStart(jobs));
  }

  /** Completing job 0 starts job 2, which stays on the wait list. */
  lemma StaleEntryRun() returns (s: State)
    ensures AnyRun(Runner(ONE_SLOT), Opening() + [Complete(0, None, false, 3)], s)
    ensures s.wait["p" := [2]] == s.wait && 2 in s.jobs && IsRunning(s.jobs[2]) && s.spawned == [0, 2]
  {
    s := FirstEnds(ONE_SLOT);
  }

  /** With partitions, the next request of job 2's partition takes its place: it is canceled while it runs. */
  ghost function Displacing(): seq<Event> {
    Opening() + [Complete(0, None, false, 3)] + [Schedule(Ask(3, "b", true), 4)]
  }

  ghost predicate Gap(s: State) {
    && s.defs == map["p" := PARTITIONS] && s.known == s.jobs.Keys == {0, 1, 2, 3} && ListOf(s.wait, "p") == [3]
    && !s.shutting
    && s.jobs[2].canceled && !s.jobs[2].completed && s.jobs[3] == New(PARTITIONS, 3, "b", true).(created := 4)
    && s.spawned == [0, 2] && s.tickets == 4 && FreeSlots(s, "p") == 1
  }

  lemma GapOpens(s: State, s': State, req: Request, now: int)
    requires Consistent(s) && DefsUsable(s.defs) && Resumed(s, PARTITIONS) && req == Ask(3, "b", true) && now == 4
    requires s' == ScheduleAsync(s, req, now) && Consistent(s')
    ensures Gap(s')
  {
    hide FreeSlots, Consistent, ScheduleAsync, Displaces, Enqueue, Indexed, Usable;
    LaneOfTwo(s);
    ReplacingARunningJob(s, req, now);
    QueueingReplaces(s, req, now);
    QueuedAgain(s, s', req, now);
  }

  // Job 2 still runs, a slot reads as free, and job 3 waits although it could be started.
  lemma DisplacedWhileRunning() returns (s: State)
    ensures Got(Runner(PARTITIONS), Displacing(), s) && Gap(s)
  {
    hide FreeSlots, Consistent, AnyRun, ScheduleAsync, Resumed, Gap;
    var s4 := FirstEnds(PARTITIONS);
    ResumedFacts(s4);
    var e := Schedule(Ask(3, "b", true), 4);
    OneEvent(Runner(PARTITIONS), Opening() + [Complete(0, None, false, 3)], s4, e);
    s := Next(s4, e);
    GapOpens(s4, s, e.req, e.now);
  }

  lemma ResumedFacts(s: State)
    requires Resumed(s, PARTITIONS)
    ensures s.jobs.Keys == {0, 1, 2} && s.defs == map["p" := PARTITIONS]
  {
    hide FreeSlots;
  }

  /**
   * With definitions that stay, a started job of a partitioned queue is canceled by an arrival while its
   * goroutine goes on; the request after that starts beside it, past a startable waiting job.
   */
  lemma DisplacingRun() returns (s3: State, s: State)
    ensures AnyRun(Runner(PARTITIONS), Displacing(), s3) && Gap(s3)
    ensures AnyRun(Runner(PARTITIONS), Displacing() + [Schedule(Ask(4, "b", true), 5)], s)
    ensures s.defs == map["p" := PARTITIONS] && s.spawned == [0, 2, 4] && ListOf(s.wait, "p") == [3]
    ensures 2 in s.jobs && 4 in s.jobs && !s.jobs[2].completed && !s.jobs[4].completed && 3 in s.jobs
    ensures CanBeStarted(s.jobs[3])
  {
    hide FreeSlots, Consistent, AnyRun, ScheduleAsync;
    s3 := DisplacedWhileRunning();
    var e := Schedule(Ask(4, "b", true), 5);
    OneEvent(Runner(PARTITIONS), Displacing(), s3, e);
    StartsNow(s3, e.req, e.now);
    s := Next(s3, e);
    assert [0, 2] + [4] == [0, 2, 4];
  }

  lemma LaneOfTwo(s: State)
    requires Resumed(s, PARTITIONS)
    ensures Displaces(s, Ask(3, "b", true)) == Some(2)
  {
    FilterAll([2], InPartition(PartOf(s.jobs), "b"));
  }

  lemma QueuedAgain(s: State, s': State, req: Request, now: int)
    requires Consistent(s) && DefsUsable(s.defs) && Takes(s, req) && req == Ask(3, "b", true)
    requires FreeSlots(s, "p") <= 0 && s' == ScheduleAsync(s, req, now) && Consistent(s')
    requires Displaces(s, req) == Some(2) && ListOf(s.wait, "p") == [2]
    ensures LimitReady(s.defs["p"]) && s' == Enqueue(Fresh(s, req, now), "p", 3) && ListOf(s'.wait, "p") == [3]
  {
    hide FreeSlots, Enqueue, ConsistentBut, ScheduleAsync, Refusal, Displaces, Usable, LimitReady, Indexed, Created;
    Queues(s, req, now);
    QueueingReplaces(s, req, now);
    ConsistentTidy(s', {}, "p");
    OnlyEntry(ListOf(s'.wait, "p"), 3);
  }

  lemma OnlyEntry(w: seq<JobId>, id: JobId)
    requires NoDup(w) && forall x :: x in w <==> x == id
    ensures w == [id]
  {
    assert Elems(w) == {id};
    NoDupSize(w);
  }

  // ---------------------------------------------------------------------------------------------
  // New definitions that raise the concurrency
  // ---------------------------------------------------------------------------------------------

  lemma RaisedSlots(s: State)
    requires s.defs == map["p" := ONE_SLOT]
    ensures FreeSlots(ReplaceDefinitions(s, map["p" := TWO_SLOTS]), "p") == FreeSlots(s, "p") + 1
  {
  }

  /** A queue behind a job that cannot be built; the concurrency is raised to two and the running job ends. */
  ghost function Exceeding(): seq<Event> {
    Opening() + [Schedule(Ask(3, "b", true), 3)] + [Schedule(Ask(4, "b", true), 4)]
    + [Redefine(map["p" := TWO_SLOTS])] + [Complete(0, None, false, 5)]
  }

  /** Job 0 runs and the jobs `w` wait, the first of them one that cannot be built. */
  ghost predicate Crowded(s: State, w: seq<JobId>) {
    && s.defs == map["p" := ONE_SLOT] && FreeSlots(s, "p") == 0 && !s.shutting && s.spawned == [0]
    && s.known == s.jobs.Keys && ListOf(s.wait, "p") == w
    && 0 in s.jobs && s.jobs[0].pipeline == "p" && IsRunning(s.jobs[0])
    && forall id | id in w :: id in s.jobs && CanBeStarted(s.jobs[id]) && (s.jobs[id].builds <==> id > 1)
  }

  lemma QueueGrows(events: seq<Event>, s: State, w: seq<JobId>, id: JobId) returns (s': State)
    requires Got(Runner(ONE_SLOT), events, s) && Crowded(s, w) && id > 1 && id !in s.jobs
    ensures Got(Runner(ONE_SLOT), events + [Schedule(Ask(id, "b", true), id)], s') && Crowded(s', w + [id])
    ensures s'.jobs.Keys == s.jobs.Keys + {id}
  {
    hide FreeSlots, Consistent, AnyRun, ScheduleAsync, Displaces;
    var e := Schedule(Ask(id, "b", true), id);
    OneEvent(Runner(ONE_SLOT), events, s, e);
    NobodyInPartition(s, ONE_SLOT, e.req);
    HasToWait(s, e.req, e.now);
    s' := Next(s, e);
  }

  lemma OpenedCrowded(s: State)
    requires Opened(s, ONE_SLOT)
    ensures Crowded(s, [1, 2]) && s.jobs.Keys == {0, 1, 2}
  {
    hide FreeSlots;
  }

  lemma QueueOfFour() returns (s: State)
    ensures Got(Runner(ONE_SLOT), Exceeding()[..5], s) && Crowded(s, [1, 2, 3, 4])
  {
    hide Got, Crowded, Opened;
    var s2 := ThirdWaits(ONE_SLOT);
    OpenedCrowded(s2);
    var s3 := QueueGrows(Opening(), s2, [1, 2], 3);
    assert [1, 2] + [3] == [1, 2, 3] && [1, 2, 3] + [4] == [1, 2, 3, 4];
    s := QueueGrows(Opening() + [Schedule(Ask(3, "b", true), 3)], s3, [1, 2, 3], 4);
    assert Exceeding()[..5] == Opening() + [Schedule(Ask(3, "b", true), 3)] + [Schedule(Ask(4, "b", true), 4)];
  }

  /** With a concurrency of two, three jobs run. */
  lemma ExceedingRun() returns (s: State)
    ensures AnyRun(Runner(ONE_SLOT), Exceeding(), s)
    ensures s.defs == map["p" := TWO_SLOTS] && RunningJobs(s, "p") > 2
  {
    hide FreeSlots, Consistent, AnyRun, StartJobsOnWaitList, Orderly;
    var s5 := QueueOfFour();
    var e5, e6 := Redefine(map["p" := TWO_SLOTS]), Complete(0, None, false, 5);
    OneEvent(Runner(ONE_SLOT), Exceeding()[..5], s5, e5);
    var s6 := Next(s5, e5);
    RaisedSlots(s5);
    assert Exceeding()[..5] + [e5] == Exceeding()[..6];
    OneEvent(Runner(ONE_SLOT), Exceeding()[..6], s6, e6);
    assert Exceeding()[..6] + [e6] == Exceeding();
    s := Next(s6, e6);
    Ends(s6, "p", 0, 5);
    var s7 := s6.(jobs := s6.jobs[0 := CompletedJob(s6.jobs[0], None, false, 5)]);
    ThreeStart(s7, 5);
    SlotsAre(s, "p");
  }

  lemma ThreeStart(s: State, now: int)
    requires Orderly(s, "p", ListOf(s.wait, "p")) && FreeSlots(s, "p") == 2 && ListOf(s.wait, "p") == [1, 2, 3, 4]
    requires forall id | 1 <= id <= 4 :: id in s.jobs && CanBeStarted(s.jobs[id]) && (s.jobs[id].builds <==> id > 1)
    ensures FreeSlots(StartJobsOnWaitList(s, "p", now).(token := true), "p") < 0
  {
    hide FreeSlots, StartJobsOnWaitList, Counted, Overshoots, Filter;
    OvershootIff(s, "p", now);
    FilterAll([1, 2, 3, 4], CanStart(s.jobs));
    FourFlags(s.jobs);
    OneFailingEntry([], [true, true, true], 2);
    assert [] + [false] + [true, true, true] == [false, true, true, true];
    FreeKeepsToken(StartJobsOnWaitList(s, "p", now));
  }

  lemma FourFlags(jobs: JobTable)
    requires forall id | 1 <= id <= 4 :: id in jobs && (jobs[id].builds <==> id > 1)
    ensures Flags(jobs, [1, 2, 3, 4]) == [false, true, true, true]
  {
    var ids, flags := [1, 2, 3, 4], Flags(jobs, [1, 2, 3, 4]);
    assert forall i | 0 <= i < 4 :: flags[i] == Builds(jobs)(ids[i]);
  }

  /** Job 0 runs, job 1 waits, the concurrency is raised to two, job 2 starts, job 0 ends, job 1 starts. */
  ghost function Overtaking(): seq<Event> {
    Opening()[..1] + [Schedule(Ask(1, "a", true), 1)] + [Redefine(map["p" := TWO_SLOTS])]
    + [Schedule(Ask(2, "b", true), 2)] + [Complete(0, None, false, 3)]
  }

  lemma SecondStartsFirst() returns (s: State)
    ensures Got(Runner(ONE_SLOT), Overtaking()[..4], s) && s.defs == map["p" := TWO_SLOTS] && FreeSlots(s, "p") == 0
    ensures s.known == s.jobs.Keys == {0, 1, 2} && ListOf(s.wait, "p") == [1] && s.spawned == [0, 2]
    ensures IsRunning(s.jobs[0]) && CanBeStarted(s.jobs[1]) && s.jobs[1].builds
    ensures forall id | id in s.jobs ::
      s.jobs[id].ticket == id && s.jobs[id].pipeline == "p" && s.jobs[id].startDelay == 0
  {
    hide FreeSlots, Consistent, AnyRun, ScheduleAsync, Displaces;
    var s2 := SecondWaits(ONE_SLOT, true);
    var e1, e2, e3 := Schedule(Ask(1, "a", true), 1), Redefine(map["p" := TWO_SLOTS]), Schedule(Ask(2, "b", true), 2);
    OneEvent(Runner(ONE_SLOT), Opening()[..1] + [e1], s2, e2);
    RaisedSlots(s2);
    var s3 := Next(s2, e2);
    OneEvent(Runner(ONE_SLOT), Opening()[..1] + [e1] + [e2], s3, e3);
    StartsNow(s3, e3.req, e3.now);
    s := Next(s3, e3);
    assert Overtaking()[..4] == Opening()[..1] + [e1] + [e2] + [e3];
    assert [0] + [2] == [0, 2];
  }

  /** First in, first out does not survive new definitions: job 1 waits before job 2 comes and starts after it. */
  lemma NewDefinitionsBreakTheOrder() returns (s: State)
    ensures AnyRun(Runner(ONE_SLOT), Overtaking(), s)
    ensures s.spawned == [0, 2, 1] && s.jobs.Keys == {0, 1, 2}
    ensures s.jobs[1].pipeline == s.jobs[2].pipeline && s.jobs[1].ticket < s.jobs[2].ticket && s.jobs[1].startDelay <= 0
  {
    hide FreeSlots, Consistent, AnyRun, StartJobsOnWaitList, Orderly;
    var s4 := SecondStartsFirst();
    var e := Complete(0, None, false, 3);
    OneEvent(Runner(ONE_SLOT), Overtaking()[..4], s4, e);
    assert Overtaking()[..4] + [e] == Overtaking();
    s := Next(s4, e);
    Ends(s4, "p", 0, 3);
    OneStarts(s4.(jobs := s4.jobs[0 := CompletedJob(s4.jobs[0], None, false, 3)]), 3);
    assert [0, 2] + [1] == [0, 2, 1];
  }

  lemma OneStarts(s: State, now: int)
    requires Orderly(s, "p", ListOf(s.wait, "p")) && FreeSlots(s, "p") == 1 && ListOf(s.wait, "p") == [1]
    requires 1 in s.jobs && CanBeStarted(s.jobs[1]) && s.jobs[1].builds
    ensures var r := StartJobsOnWaitList(s, "p", now);
      && r.spawned == s.spawned + [1] && r.jobs.Keys == s.jobs.Keys
      && forall id | id in s.jobs :: r.jobs[id] == if id == 1 then AttemptOn(s.jobs[1], now) else s.jobs[id]
  {
    hide FreeSlots, StartJobsOnWaitList, Counted, Filter, Flags, DueIn, LoopCount;
    DispatchAttempts(s, "p", now);
    OneDue(s.jobs);
    assert [1][..1] == [1];
  }

  lemma OneDue(jobs: JobTable)
    requires 1 in jobs && CanBeStarted(jobs[1]) && jobs[1].builds
    ensures DueIn(jobs, [1]) == [1] && Filter<JobId>([1], Builds(jobs)) == [1] && LoopCount(Flags(jobs, [1]), 1, 1) == 1
  {
    FilterOne(1, CanStart(jobs));
    FilterOne(1, Builds(jobs));
    var flags := Flags(jobs, [1]);
    assert flags == [Builds(jobs)(1)];
    assert Reach([true], 1) == 1;
  }
}
