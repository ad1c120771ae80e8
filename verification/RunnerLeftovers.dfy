// Entries that stay on a wait list although their job has been canceled or started: a cancellation leaves the
// list alone, and every dispatch writes such entries back. Exactly when they make an append pipeline refuse jobs
// for good, and what brings that about. RunnerStarvation has what they do to a replace queue.
module RunnerLeftovers {
  import opened Basics
  import opened Definitions
  import opened WaitList
  import opened RunnerState
  import opened Dispatch
  import opened Promotion
  import opened Retention
  import opened RunnerEvents
  import opened RunnerLifecycle
  import opened RunnerIndexes
  import opened RunnerArrivals
  import opened RunnerInvariants
  import opened RunnerSteps
  import opened RunnerSchedule
  import opened RunnerRuns
  import opened RunnerQueues
  import opened RunnerProgress

  ghost predicate NoShutdown(events: seq<Event>) {
    forall e | e in events :: !e.StopAll?
  }

  // ---------------------------------------------------------------------------------------------
  // One step
  // ---------------------------------------------------------------------------------------------

  // A dispatch, of this pipeline or another one, after an edit.
  lemma DispatchLeaves(s: State, s1: State, q: string, p: string, now: int, x: JobId)
    requires Consistent(s) && s1.wait == s.wait && s1.jobs.Keys == s.jobs.Keys
    requires forall id | id in s.jobs :: s1.jobs[id].pipeline == s.jobs[id].pipeline
    requires Leftover(s1, p, x)
    ensures Leftover(StartJobsOnWaitList(s1, q, now), p, x)
  {
    hide ConsistentBut, StartJobsOnWaitList, Moves, KeepsLive;
    ConsistentTidy(s, {}, q);
    OwnEdited(s, s1, q);
    if p == q {
      DispatchKeepsLeftover(s1, p, now, x);
    } else {
      WaitListMoves(s1, q, now);
      MovedElsewhere(s1, StartJobsOnWaitList(s1, q, now), q, p, now, x);
    }
  }

  lemma MovedElsewhere(s: State, s': State, q: string, p: string, now: int, x: JobId)
    requires Moves(s, s', q, now) && p != q && Leftover(s, p, x)
    ensures Leftover(s', p, x)
  {
    StaysLeftover(s, s', q, now, x);
  }

  lemma FreshLeaves(s: State, req: Request, now: int, p: string, x: JobId)
    requires Consistent(s) && Takes(s, req) && Leftover(s, p, x)
    ensures req.pipeline in s.defs && Leftover(Fresh(s, req, now), p, x)
    ensures Leftover(StartJob(Fresh(s, req, now), req.id, now), p, x)
  {
    hide ConsistentBut, StartJobsOnWaitList, Moves, KeepsLive;
    var q, s1 := req.pipeline, Fresh(s, req, now);
    if req.builds {
    } else {
      ConsistentTidy(s, {}, q);
      var s2 := Unbuildable(s1, req.id);
      OwnEdited(s, s2, q);
      if p == q {
        DispatchKeepsLeftover(s2, p, now, x);
      } else {
        WaitListMoves(s2, q, now);
        MovedElsewhere(s2, StartJobsOnWaitList(s2, q, now), q, p, now, x);
      }
    }
  }

  /** The arrival that takes the place of an entry of the pipeline. */
  ghost predicate TakesPlaceOf(s: State, s': State, p: string, e: Event, x: JobId) {
    QueuedOnto(s, s', p, e) && p in s.defs && Displaces(s, e.req) == Some(x)
  }

  lemma ScheduleLeaves(s: State, req: Request, now: int, p: string, x: JobId)
    requires Consistent(s) && DefsUsable(s.defs) && req.id !in s.jobs && Leftover(s, p, x)
    ensures var s' := ScheduleAsync(s, req, now); Leftover(s', p, x) || TakesPlaceOf(s, s', p, Schedule(req, now), x)
  {
    hide ConsistentBut, StartJob, Enqueue, Refusal, ScheduleAsync, Displaces, Fresh, LimitReady, Takes;
    ScheduleIs(s, req, now);
    if Refusal(s, req.pipeline).None? {
      FreshLeaves(s, req, now, p, x);
      FreshWaits(s, req, now);
      QueueingReplaces(s, req, now);
      if req.pipeline != p {
        EnqueueWaitsElsewhere(Fresh(s, req, now), req.pipeline, req.id, p);
      }
    }
  }

  /** No step but a shutdown takes a leftover off its list, unless it holds the place that an arrival takes. */
  lemma LeftoverStep(s: State, e: Event, p: string, x: JobId)
    requires Consistent(s) && DefsUsable(s.defs) && RunnerEvents.Enabled(s, e) && !e.StopAll? && Leftover(s, p, x)
    ensures Leftover(Next(s, e), p, x) || TakesPlaceOf(s, Next(s, e), p, e, x)
  {
    hide ConsistentBut, ScheduleAsync, StartJobsOnWaitList, RankingsFor, HandleTaskChange, QueuedOnto, Displaces;
    match e
    case Schedule(req, now) => ScheduleLeaves(s, req, now, p, x);
    case Complete(id, err, ctxCanceled, now) =>
      var s1 := s.(jobs := s.jobs[id := CompletedJob(s.jobs[id], err, ctxCanceled, now)]);
      DispatchLeaves(s, s1, s.jobs[id].pipeline, p, now, x);
    case TimerFired(id, now) =>
      if id in s.known && id in s.jobs && !s.jobs[id].canceled {
        var s1 := s.(jobs := s.jobs[id := s.jobs[id].(timer := false)]);
        DispatchLeaves(s, s1, s.jobs[id].pipeline, p, now, x);
      }
    case TaskChange(id, name, report) => TaskChangeLeaves(s, id, name, report, p, x);
    case _ =>
  }

  lemma TaskChangeLeaves(s: State, id: JobId, name: string, r: TaskReport, p: string, x: JobId)
    requires Leftover(s, p, x)
    ensures Leftover(HandleTaskChange(s, id, name, r), p, x)
  {
    hide ReportedJob, TaskErrored, FailFast;
    if TaskKnown(s, id, name) {
      ReportKeeps(s.jobs[id], name, r);
    }
  }

  // ---------------------------------------------------------------------------------------------
  // Append queues: a refusal that stays
  // ---------------------------------------------------------------------------------------------

  lemma AppendTakesNoPlace(s: State, s': State, p: string, e: Event, x: JobId)
    requires p in s.defs && s.defs[p].queueStrategy.Append?
    ensures !TakesPlaceOf(s, s', p, e, x)
  {
  }

  /** On an append queue an entry whose job has been canceled or started is never taken off. */
  lemma {:induction false} LeftoversStay(s: State, events: seq<Event>, s': State, p: string, x: JobId)
    requires Consistent(s) && StableRun(s, events, s', p) && NoShutdown(events)
    requires p in s.defs && s.defs[p].queueStrategy.Append? && Leftover(s, p, x)
    ensures Leftover(s', p, x)
    decreases |events|
  {
    hide Consistent, Leftover, TakesPlaceOf, KeepsDef, ListsOwn;
    if events != [] {
      var e := events[0];
      ConsistentOwn(s);
      StepKeepsConsistent(s, e);
      StepKeepsDef(s, e, p);
      LeftoverStep(s, e, p, x);
      AppendTakesNoPlace(s, Next(s, e), p, e, x);
      LeftoversStay(Next(s, e), events[1..], s', p, x);
    }
  }

  ghost function Leftovers(s: State, p: string): set<JobId> {
    set x | x in ListOf(s.wait, p) && Leftover(s, p, x)
  }

  lemma {:induction false} StableKeepsDef(s: State, events: seq<Event>, s': State, p: string)
    requires ListsOwn(s) && StableRun(s, events, s', p) && NoShutdown(events)
    ensures SameDef(s, s', p) && s'.shutting == s.shutting
    decreases |events|
  {
    hide ListsOwn, KeepsDef;
    if events != [] {
      var e := events[0];
      StepKeepsDef(s, e, p);
      StepKeepsOwn(s, e);
      if !e.Redefine? {
        StepKeepsDefs(s, e);
      }
      StableKeepsDef(Next(s, e), events[1..], s', p);
    }
  }

  /** Once its leftovers fill an append queue, it refuses every job, whatever ends and whatever is canceled. */
  lemma BlockedForGood(s: State, events: seq<Event>, s': State, p: string)
    requires Consistent(s) && StableRun(s, events, s', p) && NoShutdown(events)
    requires p in s.defs && s.defs[p].queueStrategy.Append?
    requires s.defs[p].queueLimit.Some? && s.defs[p].queueLimit.value <= |Leftovers(s, p)|
    ensures Leftovers(s, p) <= Leftovers(s', p) && Refusal(s', p).Some?
  {
    hide ConsistentBut, Leftover, StableRun, ListsOwn;
    ConsistentOwn(s);
    StableKeepsDef(s, events, s', p);
    forall x | x in Leftovers(s, p) ensures x in Leftovers(s', p) {
      LeftoversStay(s, events, s', p, x);
      LeftoverListed(s', p, x);
    }
    StableIsAny(s, events, s', p);
    RunKeepsConsistent(s, events, s');
    ConsistentTidy(s', {}, p);
    SubsetSize(Leftovers(s, p), Elems(ListOf(s'.wait, p)));
    NoDupSize(ListOf(s'.wait, p));
  }

  lemma LeftoverListed(s: State, p: string, x: JobId)
    requires Leftover(s, p, x)
    ensures x in ListOf(s.wait, p)
  {
  }

  // ---------------------------------------------------------------------------------------------
  // ... and one that does not
  // ---------------------------------------------------------------------------------------------

  lemma {:induction false} SomebodyRuns(jobs: JobTable, ids: seq<JobId>) returns (id: JobId)
    requires CountRunning(jobs, ids) > 0
    ensures id in ids && id in jobs && IsRunning(jobs[id])
    decreases |ids|
  {
    var n := |ids| - 1;
    if ids[n] in jobs && IsRunning(jobs[ids[n]]) {
      id := ids[n];
    } else {
      id := SomebodyRuns(jobs, ids[..n]);
    }
  }

  // A full pipeline has a running job that can be completed.
  lemma RunningJob(s: State, p: string) returns (e: Event)
    requires Inv(s, p) && p in s.defs && FreeSlots(s, p) == 0
    ensures e.Complete? && RunnerEvents.Enabled(s, e) && Frees(s, e, p)
  {
    hide ConsistentBut, CountRunning, Fifo, Separate, Usable;
    ConsistentTidy(s, {}, p);
    assert s.defs[p].concurrency > 0 by { UsableConcurrency(s.defs[p]); }
    var id := SomebodyRuns(s.jobs, ListOf(s.byPipeline, p));
    KnownRunning(s, p, id);
    e := Complete(id, None, false, 0);
  }

  lemma UsableConcurrency(d: PipelineDef)
    requires Usable(d)
    ensures d.concurrency > 0
  {
  }

  /** A pipeline that has room for one more job on its list. */
  ghost predicate Room(s: State, p: string) {
    && !s.shutting && p in s.defs && s.defs[p].queueStrategy.Append?
    && (s.defs[p].queueLimit.Some? ==> |ListOf(s.wait, p)| < s.defs[p].queueLimit.value)
  }

  /** It has room as soon as one entry leaves the list. */
  ghost predicate AlmostRoom(s: State, p: string) {
    && !s.shutting && p in s.defs && s.defs[p].queueStrategy.Append?
    && (s.defs[p].queueLimit.Some? ==> |ListOf(s.wait, p)| <= s.defs[p].queueLimit.value)
  }

  lemma RoomAccepts(s: State, p: string)
    requires Room(s, p)
    ensures Refusal(s, p).None?
  {
  }

  lemma OneStep(s: State, e: Event, p: string)
    requires DefsUsable(s.defs) && RunnerEvents.Enabled(s, e) && KeepsDef(s, e, p) && !e.StopAll?
    ensures StableRun(s, [e], Next(s, e), p) && NoShutdown([e])
  {
    assert [e][0] == e && [e][1..] == [];
  }

  lemma TwoSteps(s: State, e: Event, e': Event, p: string)
    requires DefsUsable(s.defs) && RunnerEvents.Enabled(s, e) && KeepsDef(s, e, p) && !e.StopAll?
    requires var s1 := Next(s, e);
      DefsUsable(s1.defs) && RunnerEvents.Enabled(s1, e') && KeepsDef(s1, e', p) && !e'.StopAll?
    ensures StableRun(s, [e, e'], Next(Next(s, e), e'), p) && NoShutdown([e, e'])
  {
    OneStep(Next(s, e), e', p);
    assert [e, e'][0] == e && [e, e'][1..] == [e'];
  }

  // With a startable job on the list, the next completion makes room.
  lemma CompletionMakesRoom(s: State, p: string, a: JobId) returns (e: Event)
    requires Inv(s, p) && AlmostRoom(s, p) && a in s.jobs && s.jobs[a].pipeline == p && CanBeStarted(s.jobs[a])
    ensures e.Complete? && RunnerEvents.Enabled(s, e) && DefsUsable(s.defs) && Room(Next(s, e), p)
  {
    hide PipelineInv, Consistent, FreeSlots, JobCompleted, ListsOwn;
    FullBefore(s, p, a);
    e := RunningJob(s, p);
    CompletionShortens(s, e, p, a);
    ConsistentOwn(s);
    StepKeepsDefs(s, e);
  }

  // A timer that fires starts a waiting job, or leaves the list with its job startable.
  lemma TimerMakesRoom(s: State, p: string, a: JobId)
    requires Inv(s, p) && AlmostRoom(s, p) && a in s.jobs && s.jobs[a].pipeline == p && Live(s.jobs[a])
    requires !CanBeStarted(s.jobs[a])
    ensures var s' := StartDelayedJob(s, a, 0);
      && Inv(s', p) && AlmostRoom(s', p)
      && (Room(s', p) || (a in s'.jobs && s'.jobs[a].pipeline == p && CanBeStarted(s'.jobs[a])))
  {
    hide PipelineBase, Consistent, FreeSlots, StartJobsOnWaitList, ListsOwn, Promote, PipelineInv, FirstStartable;
    TimerKeepsInv(s, a, 0, p);
    ConsistentOwn(s);
    StepKeepsDefs(s, TimerFired(a, 0));
    LiveIsKnown(s, p, a);
    var j := s.jobs[a].(timer := false);
    var s1 := Edited(s, a, j, s.token);
    EditedConsistent(s, a, j, s.token);
    TimerDispatch(s, a, j, 0);
    if FreeSlots(s1, p) > 0 {
      ConsistentOrdered(s1, p);
      PromoteShape(s1, p, 0);
      FirstExists(s1.jobs, ListOf(s1.wait, p), a);
    } else {
      PromoteFull(s1, p, 0);
    }
  }

  lemma LiveIsKnown(s: State, p: string, a: JobId)
    requires Inv(s, p) && a in s.jobs && s.jobs[a].pipeline == p && Live(s.jobs[a])
    ensures a in s.known
  {
    hide FreeSlots, Consistent, Fifo, Separate;
  }

  // One or two steps after which a job is accepted.
  lemma Unblocks(s: State, p: string, a: JobId) returns (events: seq<Event>, s': State)
    requires Inv(s, p) && AlmostRoom(s, p) && a in s.jobs && s.jobs[a].pipeline == p && Live(s.jobs[a])
    ensures StableRun(s, events, s', p) && NoShutdown(events) && Refusal(s', p).None?
  {
    hide PipelineInv, Consistent, StartDelayedJob, JobCompleted, AlmostRoom, Room, StableRun, NoShutdown;
    if CanBeStarted(s.jobs[a]) {
      var e := CompletionMakesRoom(s, p, a);
      OneStep(s, e, p);
      RoomAccepts(Next(s, e), p);
      return [e], Next(s, e);
    }
    var e := TimerFired(a, 0);
    TimerMakesRoom(s, p, a);
    var s1 := Next(s, e);
    if Room(s1, p) {
      OneStep(s, e, p);
      RoomAccepts(s1, p);
      return [e], s1;
    }
    var e' := CompletionMakesRoom(s1, p, a);
    TwoSteps(s, e, e', p);
    RoomAccepts(Next(s1, e'), p);
    return [e, e'], Next(s1, e');
  }

  /** Nothing on the list is live. */
  ghost predicate NothingLive(s: State, p: string) {
    forall x | x in ListOf(s.wait, p) && x in s.jobs :: !Live(s.jobs[x])
  }

  /**
   * A pipeline refuses every job from now on, until a shutdown, exactly when it refuses one now and nothing on
   * its wait list is live. Otherwise a timer and one completion make room.
   */
  lemma RefusesForGoodIff(s: State, p: string)
    requires Inv(s, p) && Fits(s, p)
    ensures (forall events, s' | StableRun(s, events, s', p) && NoShutdown(events) :: Refusal(s', p).Some?) <==>
      Refusal(s, p).Some? && NothingLive(s, p)
  {
    hide StableRun, NoShutdown, ConsistentBut, Fifo, Separate, FreeSlots;
    ConsistentTidy(s, {}, p);
    EmptyRun(s, p);
    if Refusal(s, p).Some? {
      if NothingLive(s, p) {
        forall events, s' | StableRun(s, events, s', p) && NoShutdown(events) ensures Refusal(s', p).Some? {
          StaysRefusing(s, events, s', p);
        }
      } else {
        var a :| a in ListOf(s.wait, p) && a in s.jobs && Live(s.jobs[a]);
        FullAppendQueue(s, p, a);
        var events, s' := Unblocks(s, p, a);
      }
    }
  }

  // Only an append queue refuses a job while one waits that is live.
  lemma FullAppendQueue(s: State, p: string, a: JobId)
    requires Inv(s, p) && Fits(s, p) && Refusal(s, p).Some?
    requires a in ListOf(s.wait, p) && a in s.jobs && s.jobs[a].pipeline == p && Live(s.jobs[a])
    ensures AlmostRoom(s, p)
  {
    hide Consistent, Fifo, Separate, FreeSlots;
  }

  lemma EmptyRun(s: State, p: string)
    ensures StableRun(s, [], s, p) && NoShutdown([])
  {
  }

  lemma StaysRefusing(s: State, events: seq<Event>, s': State, p: string)
    requires Consistent(s) && StableRun(s, events, s', p) && NoShutdown(events) && Refusal(s, p).Some?
    requires NothingLive(s, p)
    ensures Refusal(s', p).Some?
  {
    hide StableRun, NoShutdown, ConsistentBut, ListsOwn;
    ConsistentOwn(s);
    ConsistentTidy(s, {}, p);
    StableKeepsDef(s, events, s', p);
    if !s.shutting && p in s.defs && s.defs[p].queueStrategy.Append? {
      var w := ListOf(s.wait, p);
      assert Leftovers(s, p) == Elems(w);
      NoDupSize(w);
      BlockedForGood(s, events, s', p);
    }
  }

  // ---------------------------------------------------------------------------------------------
  // Only cancellations block an append queue
  // ---------------------------------------------------------------------------------------------

  ghost predicate SomeLive(s: State, p: string) {
    exists x :: x in ListOf(s.wait, p) && x in s.jobs && Live(s.jobs[x])
  }

  /** The list has room, or is full with a live job on it. */
  ghost predicate Spare(s: State, p: string) {
    AlmostRoom(s, p) && (Room(s, p) || SomeLive(s, p))
  }

  /** Not a shutdown, and no cancellation of a job that waits for this pipeline. */
  ghost predicate SparesWaiters(s: State, e: Event, p: string) {
    && !e.StopAll?
    && ((e.CancelRequest? || e.TaskChange?) && e.id in s.jobs && s.jobs[e.id].pipeline == p ==> !Live(s.jobs[e.id]))
  }

  // The list lost an entry, or it is the same and its live jobs still are.
  lemma StillSpare(s: State, s': State, p: string)
    requires Spare(s, p) && SameDef(s, s', p) && s'.shutting == s.shutting
    requires
      || |ListOf(s'.wait, p)| < |ListOf(s.wait, p)|
      || (&& ListOf(s'.wait, p) == ListOf(s.wait, p)
          && forall x | x in ListOf(s.wait, p) && x in s.jobs && Live(s.jobs[x]) :: x in s'.jobs && Live(s'.jobs[x]))
    ensures Spare(s', p)
  {
  }

  // A promotion takes an entry off the list or changes nothing.
  lemma PromoteShortens(s: State, p: string, now: int)
    requires Ordered(s, p)
    ensures var s' := Promote(s, p, now);
      || |ListOf(s'.wait, p)| < |ListOf(s.wait, p)|
      || (ListOf(s'.wait, p) == ListOf(s.wait, p) && s'.jobs == s.jobs)
  {
    hide FreeSlots, Promote, FirstStartable, Ordered;
    var w := ListOf(s.wait, p);
    if FreeSlots(s, p) <= 0 {
      PromoteFull(s, p, now);
    } else {
      PromoteShape(s, p, now);
      FirstStartableIs(s.jobs, w);
      if FirstStartable(s.jobs, w) == |w| {
        assert w[..|w|] == w;
        PromoteNone(s, p, now);
      } else {
        FirstExists(s.jobs, w, w[FirstStartable(s.jobs, w)]);
      }
    }
  }

  lemma PromotedSpare(s: State, s1: State, s': State, p: string, now: int)
    requires Spare(s, p) && Ordered(s1, p) && SameDef(s, s', p) && s'.shutting == s.shutting
    requires ListOf(s1.wait, p) == ListOf(s.wait, p)
    requires forall x | x in ListOf(s.wait, p) && x in s.jobs && Live(s.jobs[x]) :: x in s1.jobs && Live(s1.jobs[x])
    requires s'.jobs == Promote(s1, p, now).jobs && s'.wait == Promote(s1, p, now).wait
    ensures Spare(s', p)
  {
    hide Spare, Promote, Ordered;
    PromoteShortens(s1, p, now);
    StillSpare(s, s', p);
  }

  lemma UntouchedSpare(s: State, s': State, p: string)
    requires Untouched(s, s', p) && Consistent(s) && Spare(s, p) && s'.shutting == s.shutting
    ensures Spare(s', p)
  {
    hide ConsistentBut, Spare;
    ConsistentTidy(s, {}, p);
    StillSpare(s, s', p);
  }

  lemma CompleteSpare(s: State, e: Event, p: string)
    requires Inv(s, p) && RunnerEvents.Enabled(s, e) && e.Complete? && Spare(s, p)
    requires SameDef(s, Next(s, e), p) && Next(s, e).shutting == s.shutting
    ensures Spare(Next(s, e), p)
  {
    hide FreeSlots, PipelineBase, StartJobsOnWaitList, Consistent, Promote, Spare, Untouched, SameDef;
    var id, j := e.id, CompletedJob(s.jobs[e.id], e.err, e.ctxCanceled, e.now);
    var s1 := Edited(s, id, j, s.token);
    SpawnedStarted(s, id);
    if j.pipeline == p {
      EditedConsistent(s, id, j, s.token);
      ConsistentOrdered(s1, p);
      CompletedDispatch(s, id, j, e.now);
      PromotedSpare(s, s1, Next(s, e), p, e.now);
    } else {
      var s2 := StartJobsOnWaitList(s1, j.pipeline, e.now);
      DispatchElsewhere(s, id, j, e.now, p);
      UntouchedSame(s, s2, p);
      UntouchedSpare(s, s2, p);
      TokenSpare(s2, p);
    }
  }

  lemma TokenSpare(s: State, p: string)
    requires Spare(s, p)
    ensures Spare(s.(token := true), p)
  {
  }

  lemma TimerSpare(s: State, e: Event, p: string)
    requires Inv(s, p) && e.TimerFired? && Spare(s, p)
    requires SameDef(s, StartDelayedJob(s, e.id, e.now), p) && StartDelayedJob(s, e.id, e.now).shutting == s.shutting
    ensures Spare(StartDelayedJob(s, e.id, e.now), p)
  {
    hide FreeSlots, PipelineBase, StartJobsOnWaitList, Consistent, Promote, Spare, Untouched, SameDef;
    var id := e.id;
    if id in s.known && id in s.jobs && !s.jobs[id].canceled {
      var j := s.jobs[id].(timer := false);
      var s1 := Edited(s, id, j, s.token);
      if j.pipeline == p {
        EditedConsistent(s, id, j, s.token);
        ConsistentOrdered(s1, p);
        TimerDispatch(s, id, j, e.now);
        PromotedSpare(s, s1, StartDelayedJob(s, id, e.now), p, e.now);
      } else {
        DispatchElsewhere(s, id, j, e.now, p);
        UntouchedSpare(s, StartDelayedJob(s, id, e.now), p);
      }
    }
  }

  lemma UntouchedSame(s: State, s': State, p: string)
    requires Untouched(s, s', p)
    ensures SameDef(s, s', p)
  {
  }

  // A job that is accepted and has to wait is live, and last on the list.
  lemma QueuedSpare(s: State, req: Request, now: int, p: string)
    requires Consistent(s) && DefsUsable(s.defs) && MustWait(s, req) && req.pipeline == p && Spare(s, p)
    ensures Spare(ScheduleAsync(s, req, now), p)
  {
    hide ConsistentBut, ScheduleAsync, FreeSlots, Usable, NewJob;
    Queues(s, req, now);
    var s' := ScheduleAsync(s, req, now);
    FreshIsLive(s, req, now);
    AppendedList(s, req, now);
    var w := ListOf(s'.wait, p);
    assert w[|w| - 1] == req.id && req.id in w;
  }

  lemma FreshIsLive(s: State, req: Request, now: int)
    requires req.pipeline in s.defs
    ensures var j := Fresh(s, req, now).jobs[req.id]; Live(j) && j.pipeline == req.pipeline
  {
  }

  lemma AppendedList(s: State, req: Request, now: int)
    requires req.pipeline in s.defs && s.defs[req.pipeline].queueStrategy.Append?
    ensures var s1 := Fresh(s, req, now); var s' := Enqueue(s1, req.pipeline, req.id);
      && ListOf(s'.wait, req.pipeline) == ListOf(s.wait, req.pipeline) + [req.id]
      && s'.jobs == s1.jobs && s'.defs == s.defs && s'.shutting == s.shutting
  {
  }

  // A job that is accepted and tried at once is not on the list, and its failure only visits the list.
  lemma DirectSpare(s: State, req: Request, now: int, p: string)
    requires Inv(s, p) && Takes(s, req) && !MustWait(s, req) && req.pipeline == p && Spare(s, p)
    requires var s' := ScheduleAsync(s, req, now); SameDef(s, s', p) && s'.shutting == s.shutting
    ensures Spare(ScheduleAsync(s, req, now), p)
  {
    hide ConsistentBut, ScheduleAsync, FreeSlots, PipelineBase, Spare, StartJobsOnWaitList, Promote, Refusal;
    StartsAtOnce(s, req, now);
    var s1, s' := Fresh(s, req, now), ScheduleAsync(s, req, now);
    ConsistentTidy(s, {}, p);
    if req.builds {
      StillSpare(s, s', p);
    } else {
      var s2 := Unbuildable(s1, req.id);
      FailedBase(s, req, now);
      ConsistentOrdered(s2, p);
      DispatchRestores(s2, p, now);
      PromotedSpare(s, s2, s', p, now);
    }
  }

  lemma ScheduleSpare(s: State, req: Request, now: int, p: string)
    requires Inv(s, p) && req.id !in s.jobs && Spare(s, p)
    requires var s' := ScheduleAsync(s, req, now); SameDef(s, s', p) && s'.shutting == s.shutting
    ensures Spare(ScheduleAsync(s, req, now), p)
  {
    hide Consistent, ScheduleAsync, FreeSlots, PipelineInv, Spare, Refusal, Untouched, SameDef, MustWait;
    if Refusal(s, req.pipeline).Some? {
      Refused(s, req, now);
    } else if req.pipeline != p {
      ScheduleElsewhere(s, req, now, p);
      UntouchedSpare(s, ScheduleAsync(s, req, now), p);
    } else if MustWait(s, req) {
      QueuedSpare(s, req, now, p);
    } else {
      DirectSpare(s, req, now, p);
    }
  }

  lemma TaskChangeSpare(s: State, id: JobId, name: string, r: TaskReport, p: string)
    requires Consistent(s) && Spare(s, p) && SparesWaiters(s, TaskChange(id, name, r), p)
    ensures Spare(HandleTaskChange(s, id, name, r), p)
  {
    hide ConsistentBut, Tidy, Recorded, ReportedJob, TaskErrored, FailFast, Spare, MarkAsCanceled, ByName;
    ConsistentTidy(s, {}, p);
    if TaskKnown(s, id, name) {
      ReportKeeps(s.jobs[id], name, r);
    }
    StillSpare(s, HandleTaskChange(s, id, name, r), p);
  }

  lemma OtherSpare(s: State, e: Event, p: string)
    requires Consistent(s) && DefsUsable(s.defs) && RunnerEvents.Enabled(s, e) && Spare(s, p) && SparesWaiters(s, e, p)
    requires e.CancelRequest? || e.Save? || e.StageChange? || e.Redefine?
    requires SameDef(s, Next(s, e), p) && Next(s, e).shutting == s.shutting
    ensures Spare(Next(s, e), p)
  {
    hide ConsistentBut, Spare, RankingsFor, ByName, SweepList, RemovedIds;
    ConsistentTidy(s, {}, p);
    StillSpare(s, Next(s, e), p);
  }

  lemma SpareStep(s: State, e: Event, p: string)
    requires Inv(s, p) && RunnerEvents.Enabled(s, e) && KeepsDef(s, e, p) && SparesWaiters(s, e, p) && Spare(s, p)
    ensures Spare(Next(s, e), p) && Next(s, e).shutting == s.shutting
  {
    hide PipelineInv, Consistent, ListsOwn, Spare, SameDef, KeepsDef, SparesWaiters, RankingsFor, ScheduleAsync,
      JobCompleted, StartDelayedJob, HandleTaskChange, HandleStageChange, CancelJob, Sweep;
    ConsistentOwn(s);
    StepKeepsDef(s, e, p);
    NoShutdownStep(s, e, p);
    match e
    case Schedule(req, now) => ScheduleSpare(s, req, now, p);
    case Complete(id, err, ctxCanceled, now) => CompleteSpare(s, e, p);
    case TimerFired(id, now) => TimerSpare(s, e, p);
    case TaskChange(id, name, report) => TaskChangeSpare(s, id, name, report, p);
    case _ => OtherSpare(s, e, p);
  }

  lemma NoShutdownStep(s: State, e: Event, p: string)
    requires ListsOwn(s) && DefsUsable(s.defs) && RunnerEvents.Enabled(s, e) && SparesWaiters(s, e, p)
    ensures !e.StopAll? && Next(s, e).shutting == s.shutting
  {
    hide ListsOwn;
    if !e.Redefine? {
      StepKeepsDefs(s, e);
    }
  }

  /** A run that cancels no job that waits for the pipeline, and no shutdown. */
  ghost predicate UncanceledRun(s: State, events: seq<Event>, s': State, p: string)
    decreases |events|
  {
    if events == [] then s == s'
    else
      && DefsUsable(s.defs) && RunnerEvents.Enabled(s, events[0]) && KeepsDef(s, events[0], p)
      && SparesWaiters(s, events[0], p) && UncanceledRun(Next(s, events[0]), events[1..], s', p)
  }

  /**
   * Only cancellations block an append queue: in a run that cancels no waiting job, whatever builds and whatever
   * is delayed, a list with room keeps room or a live job, so that no refusal is ever for good.
   */
  lemma {:induction false} SpareForGood(s: State, events: seq<Event>, s': State, p: string)
    requires Inv(s, p) && Run(s, events, s', p) && UncanceledRun(s, events, s', p) && Spare(s, p)
    ensures Spare(s', p) && (Refusal(s', p).Some? ==> !NothingLive(s', p))
    decreases |events|
  {
    hide Inv, Harmless, KeepsDef, SparesWaiters;
    if events != [] {
      hide Spare, NothingLive, Refusal;
      StepKeepsInvIff(s, events[0], p);
      SpareStep(s, events[0], p);
      SpareForGood(Next(s, events[0]), events[1..], s', p);
    }
  }
}
