// How long a startable job waits: every completion starts it, or one of the jobs scheduled before it.
module RunnerProgress {
  import opened Basics
  import opened WaitList
  import opened RunnerState
  import opened Dispatch
  import opened Promotion
  import opened Retention
  import opened RunnerEvents
  import opened RunnerLifecycle
  import opened RunnerIndexes
  import opened RunnerInvariants
  import opened RunnerSteps
  import opened RunnerSchedule
  import opened RunnerOrder
  import opened RunnerRuns
  import opened RunnerQueues

  /** The completion of a running job of the pipeline. */
  ghost predicate Frees(s: State, e: Event, p: string) {
    e.Complete? && e.id in s.jobs && s.jobs[e.id].pipeline == p && IsRunning(s.jobs[e.id])
  }

  /** The live jobs of the pipeline that were scheduled before the job, on whichever partition. */
  ghost function Ahead(s: State, p: string, id: JobId): set<JobId>
    requires id in s.jobs
  {
    set y | y in s.jobs && s.jobs[y].pipeline == p && Live(s.jobs[y]) && s.jobs[y].ticket < s.jobs[id].ticket
  }

  // ---------------------------------------------------------------------------------------------
  // One completion
  // ---------------------------------------------------------------------------------------------

  // A completion frees one slot, and the dispatch that follows is a promotion.
  lemma CompletionPromotes(s: State, e: Event, p: string)
    requires Inv(s, p) && RunnerEvents.Enabled(s, e) && Frees(s, e, p)
    ensures var j := CompletedJob(s.jobs[e.id], e.err, e.ctxCanceled, e.now); var s1 := Edited(s, e.id, j, s.token);
      && Consistent(s1) && PipelineBase(s1, p) && FreeSlots(s1, p) == FreeSlots(s, p) + 1
      && JobCompleted(s, e.id, e.err, e.ctxCanceled, e.now) == Promote(s1, p, e.now).(token := true)
      && forall y | y in s.jobs && y != e.id :: s1.jobs[y] == s.jobs[y]
  {
    hide FreeSlots, PipelineBase, StartJobsOnWaitList, Consistent, Promote, Fifo, Separate;
    var id, j := e.id, CompletedJob(s.jobs[e.id], e.err, e.ctxCanceled, e.now);
    var s1 := Edited(s, id, j, s.token);
    EditedConsistent(s, id, j, s.token);
    EditedBase(s, id, j, s.token);
    EditedCount(s, id, j, s.token);
    KnownRunning(s, p, id);
    SlotsAre(s, p);
    AfterCompletion(s, s1, p, id);
    DispatchRestores(s1, p, e.now);
  }

  lemma KnownRunning(s: State, p: string, id: JobId)
    requires PipelineBase(s, p) && id in s.jobs && s.jobs[id].pipeline == p && IsRunning(s.jobs[id])
    ensures id in s.known && p in s.defs && s.jobs[id].ticket >= 0
  {
    hide FreeSlots, Fifo, Separate;
  }

  // Where a startable job waits, the pipeline is full, and a completion takes one entry off the list.
  lemma CompletionShortens(s: State, e: Event, p: string, a: JobId)
    requires Inv(s, p) && RunnerEvents.Enabled(s, e) && Frees(s, e, p)
    requires a in s.jobs && s.jobs[a].pipeline == p && CanBeStarted(s.jobs[a])
    ensures |ListOf(JobCompleted(s, e.id, e.err, e.ctxCanceled, e.now).wait, p)| == |ListOf(s.wait, p)| - 1
  {
    hide FreeSlots, PipelineBase, Consistent, Promote, PipelineInv, FirstStartable;
    CompletionPromotes(s, e, p);
    FullBefore(s, p, a);
    var s1 := Edited(s, e.id, CompletedJob(s.jobs[e.id], e.err, e.ctxCanceled, e.now), s.token);
    ConsistentOrdered(s1, p);
    PromoteShape(s1, p, e.now);
    FirstExists(s1.jobs, ListOf(s1.wait, p), a);
  }

  lemma FullBefore(s: State, p: string, a: JobId)
    requires Inv(s, p) && a in s.jobs && s.jobs[a].pipeline == p && CanBeStarted(s.jobs[a])
    ensures p in s.defs && FreeSlots(s, p) == 0 && Live(s.jobs[a])
  {
    hide FreeSlots, Consistent, Fifo, Separate;
    NoSlotFor(s, a);
  }

  lemma FirstExists(jobs: JobTable, w: seq<JobId>, a: JobId)
    requires a in w && Startable(jobs, a)
    ensures FirstStartable(jobs, w) < |w| && |WithoutFirst(jobs, w)| == |w| - 1
  {
    hide FirstStartable;
    FirstStartableIs(jobs, w);
    assert w[..|w|] == w;
  }

  /**
   * Progress: where a startable job that builds waits, the completion of a running job starts it, or starts
   * one of the live jobs that were scheduled before it.
   */
  lemma CompletionStartsNext(s: State, e: Event, p: string, id: JobId)
    requires Inv(s, p) && RunnerEvents.Enabled(s, e) && Frees(s, e, p)
    requires id in s.jobs && s.jobs[id].pipeline == p && CanBeStarted(s.jobs[id]) && s.jobs[id].builds
    ensures var s' := JobCompleted(s, e.id, e.err, e.ctxCanceled, e.now);
      exists c :: s'.spawned == s.spawned + [c] && (c == id || c in Ahead(s, p, id))
  {
    hide FreeSlots, PipelineBase, Consistent, Promote, PipelineInv, Chosen, PassedOver;
    CompletionPromotes(s, e, p);
    FullBefore(s, p, id);
    var s1 := Edited(s, e.id, CompletedJob(s.jobs[e.id], e.err, e.ctxCanceled, e.now), s.token);
    ConsistentOrdered(s1, p);
    PromoteShape(s1, p, e.now);
    var w := ListOf(s1.wait, p);
    ChosenIs(s1.jobs, w);
    var c := Chosen(s1.jobs, w).value;
    if c != id && s1.jobs[id].ticket < s1.jobs[c].ticket {
      EarlierPassedOver(s1, p, id);
    }
    OtherTicket(s1, p, c, id);
    assert s1.spawned == s.spawned;
  }

  lemma OtherTicket(s: State, p: string, a: JobId, b: JobId)
    requires Ordered(s, p) && a in ListOf(s.wait, p) && b in ListOf(s.wait, p)
    ensures a != b ==> s.jobs[a].ticket != s.jobs[b].ticket
  {
  }

  // ---------------------------------------------------------------------------------------------
  // Whole runs
  // ---------------------------------------------------------------------------------------------

  /** How many completions of running jobs of the pipeline a run holds. */
  ghost function Freed(s: State, events: seq<Event>, p: string): nat
    decreases |events|
  {
    if events == [] || !(DefsUsable(s.defs) && RunnerEvents.Enabled(s, events[0])) then 0
    else One(Frees(s, events[0], p)) + Freed(Next(s, events[0]), events[1..], p)
  }

  /** Only a request adds a job, and it gets the next ticket. */
  lemma NewJobsLast(s: State, e: Event)
    requires Consistent(s) && DefsUsable(s.defs) && RunnerEvents.Enabled(s, e)
    ensures forall y | y in Next(s, e).jobs && y !in s.jobs :: Next(s, e).jobs[y].ticket == s.tickets
  {
    hide ConsistentBut, ScheduleAsync, StartJobsOnWaitList, RankingsFor, HandleTaskChange;
    match e
    case Schedule(req, now) => ScheduledLast(s, req, now);
    case Complete(id, err, ctxCanceled, now) =>
    case TimerFired(id, now) =>
    case TaskChange(id, name, report) => TaskChangeEdits(s, id, name, report);
    case _ =>
  }

  lemma ScheduledLast(s: State, req: Request, now: int)
    requires Consistent(s) && DefsUsable(s.defs) && req.id !in s.jobs
    ensures forall y | y in ScheduleAsync(s, req, now).jobs && y !in s.jobs ::
      ScheduleAsync(s, req, now).jobs[y].ticket == s.tickets
  {
    hide ConsistentBut, StartJob, Enqueue, ScheduleAsync, Refusal, LimitReady, RunningJobs, Moves, KeepsLive;
    ScheduleOutcome(s, req, now);
    if Refusal(s, req.pipeline).None? {
      FreshMoves(s, req, now);
      MovedTicket(s, req, now);
      EnqueuedTicket(s, req, now);
    }
  }

  lemma MovedTicket(s: State, req: Request, now: int)
    requires req.pipeline in s.defs && req.id !in s.jobs
    requires var s1 := Fresh(s, req, now); Moves(s1, StartJob(s1, req.id, now), req.pipeline, now)
    ensures var s' := StartJob(Fresh(s, req, now), req.id, now);
      s'.jobs.Keys == s.jobs.Keys + {req.id} && s'.jobs[req.id].ticket == s.tickets
  {
    hide StartJob;
    var s1 := Fresh(s, req, now);
    assert JobMove(s1.jobs[req.id], StartJob(s1, req.id, now).jobs[req.id], now);
  }

  lemma EnqueuedTicket(s: State, req: Request, now: int)
    requires req.pipeline in s.defs && req.id !in s.jobs && LimitReady(s.defs[req.pipeline])
    ensures var s' := Enqueue(Fresh(s, req, now), req.pipeline, req.id);
      s'.jobs.Keys == s.jobs.Keys + {req.id} && s'.jobs[req.id].ticket == s.tickets
  {
    hide ModifyWaitList;
  }

  // Nobody gets in front: jobs that come later have later tickets, and no job becomes live again.
  lemma AheadShrinks(s: State, e: Event, p: string, id: JobId)
    requires Consistent(s) && DefsUsable(s.defs) && RunnerEvents.Enabled(s, e) && id in s.jobs
    ensures id in Next(s, e).jobs && Ahead(Next(s, e), p, id) <= Ahead(s, p, id)
  {
    hide ConsistentBut, Next;
    ConsistentOwn(s);
    StepGrows(s, e);
    NewJobsLast(s, e);
    ConsistentTidy(s, {}, p);
    var s' := Next(s, e);
    assert Later(s.jobs[id], s'.jobs[id]);
    forall y | y in Ahead(s', p, id) ensures y in Ahead(s, p, id) {
      assert y in s.jobs && Later(s.jobs[y], s'.jobs[y]);
    }
  }

  // A completion shortens what is ahead, if it does not start the job itself.
  lemma CompletionAdvances(s: State, e: Event, p: string, id: JobId)
    requires Inv(s, p) && RunnerEvents.Enabled(s, e) && Frees(s, e, p)
    requires id in s.jobs && s.jobs[id].pipeline == p && CanBeStarted(s.jobs[id]) && s.jobs[id].builds
    ensures id in Next(s, e).spawned || (id in Next(s, e).jobs && Ahead(Next(s, e), p, id) < Ahead(s, p, id))
  {
    hide PipelineInv, Consistent, JobCompleted, Ahead;
    CompletionStartsNext(s, e, p, id);
    AheadShrinks(s, e, p, id);
    StepKeepsGlobal(s, e);
    var s' := Next(s, e);
    var c :| s'.spawned == s.spawned + [c] && (c == id || c in Ahead(s, p, id));
    assert c in s'.spawned;
    SpawnedStarted(s', c);
    StartedIsNotAhead(s', p, id, c);
  }

  lemma StartedIsNotAhead(s: State, p: string, id: JobId, c: JobId)
    requires c in s.jobs && s.jobs[c].start.Some? && id in s.jobs
    ensures c !in Ahead(s, p, id)
  {
  }

  lemma SmallerSet(a: set<JobId>, b: set<JobId>)
    requires a <= b
    ensures |a| <= |b| && (a < b ==> |a| < |b|)
  {
    SubsetSize(a, b);
  }

  /**
   * A job that no arrival can displace, that builds and whose delay is over, starts in time: as soon as more
   * running jobs have been completed than live jobs of the pipeline were scheduled before it.
   */
  lemma {:induction false} StartsInTurn(s: State, events: seq<Event>, s': State, p: string, id: JobId)
    requires Inv(s, p) && Run(s, events, s', p) && StableRun(s, events, s', p)
    requires Secure(s, p, id) && CanBeStarted(s.jobs[id]) && s.jobs[id].builds
    requires forall e | e in events :: !OnRequest(e, id)
    ensures Freed(s, events, p) > |Ahead(s, p, id)| ==> id in s'.spawned
    decreases |events|
  {
    hide Inv, Consistent, Secure, Ahead, Harmless, KeepsDef, Frees, OnRequest, FailedToBuild;
    if events != [] {
      var e := events[0];
      var s1 := Next(s, e);
      InvConsistent(s, p);
      SecureOwn(s, p, id);
      StepKeepsInvIff(s, e, p);
      InvConsistent(s1, p);
      SecureStep(s, e, p, id);
      StillReady(s, e, id);
      AheadShrinks(s, e, p, id);
      if Frees(s, e, p) {
        CompletionAdvances(s, e, p, id);
      }
      if id in s1.spawned {
        ConsistentOwn(s1);
        StableIsAny(s1, events[1..], s', p);
        EndedForever(s1, events[1..], s', id);
      } else {
        SecureOwn(s1, p, id);
        SmallerSet(Ahead(s1, p, id), Ahead(s, p, id));
        StartsInTurn(s1, events[1..], s', p, id);
      }
    }
  }

  lemma InvConsistent(s: State, p: string)
    requires Inv(s, p)
    ensures Consistent(s) && DefsUsable(s.defs)
  {
  }

  lemma SecureOwn(s: State, p: string, id: JobId)
    requires Secure(s, p, id)
    ensures id in s.jobs && s.jobs[id].pipeline == p && Live(s.jobs[id])
  {
  }

  // As long as it is live, a job that could be started still can, and it has not failed to build.
  lemma StillReady(s: State, e: Event, id: JobId)
    requires Consistent(s) && DefsUsable(s.defs) && RunnerEvents.Enabled(s, e)
    requires id in s.jobs && CanBeStarted(s.jobs[id]) && s.jobs[id].builds
    ensures var s' := Next(s, e);
      && id in s'.jobs && s'.jobs[id].builds && !FailedToBuild(s', id)
      && (Live(s'.jobs[id]) ==> CanBeStarted(s'.jobs[id]))
  {
    hide ConsistentBut, Next;
    ConsistentOwn(s);
    StepGrows(s, e);
    assert Later(s.jobs[id], Next(s, e).jobs[id]);
  }

  /** Without partitions, no more jobs are ahead than the rank says, so fewer than the limit of a replace queue. */
  lemma AheadWithinRank(s: State, p: string, id: JobId)
    requires Consistent(s) && p in s.defs && !s.defs[p].queueStrategy.PartitionedReplace?
    requires id in s.jobs && s.jobs[id].pipeline == p && Live(s.jobs[id])
    ensures |Ahead(s, p, id)| <= QueueRank(s, p, id) < |ListOf(s.wait, p)|
  {
    hide ConsistentBut;
    LiveInView(s, p, id);
    ConsistentOrdered(s, p);
    ConsistentTidy(s, {}, p);
    var w, k := ListOf(s.wait, p), QueueRank(s, p, id);
    var front := w[..k];
    forall y | y in Ahead(s, p, id) ensures y in front {
      var i :| 0 <= i < |w| && w[i] == y;
      assert w[k] == id;
      assert i < k && front[i] == y;
    }
    SubsetSize(Ahead(s, p, id), Elems(front));
    NoDupSize(front);
  }
}
