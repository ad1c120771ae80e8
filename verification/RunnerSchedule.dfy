// ScheduleAsync and the invariant: the direct start, the failed start and the three queue strategies.
module RunnerSchedule {
  import opened Basics
  import opened Definitions
  import opened WaitList
  import opened RunnerState
  import opened Dispatch
  import opened Promotion
  import opened RunnerEvents
  import opened RunnerIndexes
  import opened RunnerArrivals
  import opened RunnerInvariants
  import opened RunnerSteps

  // ---------------------------------------------------------------------------------------------
  // A request for another pipeline
  // ---------------------------------------------------------------------------------------------

  lemma FreshMoves(s: State, req: Request, now: int)
    requires Consistent(s) && req.pipeline in s.defs && req.id !in s.jobs
    ensures var s1 := Fresh(s, req, now); Moves(s1, StartJob(s1, req.id, now), req.pipeline, now)
  {
    hide Moves, KeepsLive, StartJob, ConsistentBut;
    ConsistentTidy(s, {}, req.pipeline);
    StartJobMoves(Fresh(s, req, now), req.id, req.pipeline, now);
  }

  /** The state after queueing: the job is new, the displaced one canceled, and both lists say so. */
  ghost predicate Enqueued(s: State, req: Request, now: int, s': State)
    requires req.pipeline in s.defs
  {
    var p, v := req.pipeline, Displaces(s, req);
    && s' == Fresh(s, req, now).(jobs := s'.jobs, wait := s.wait[p := ListOf(s'.wait, p)])
    && s'.jobs.Keys == s.jobs.Keys + {req.id} && s'.jobs[req.id] == NewJob(s.defs[p], req, s.tickets, now)
    && (forall x | x in s.jobs ::
          s'.jobs[x] == if v == Some(x) then s.jobs[x].(canceled := true, timer := false) else s.jobs[x])
    && (forall x :: x in ListOf(s'.wait, p) <==> x == req.id || (x in ListOf(s.wait, p) && v != Some(x)))
    && (v.Some? ==> v.value in s.jobs && s.jobs[v.value].pipeline == p)
  }

  lemma QueuedIs(s: State, req: Request, now: int)
    requires Consistent(s) && DefsUsable(s.defs) && MustWait(s, req)
    ensures req.pipeline in s.defs && Enqueued(s, req, now, ScheduleAsync(s, req, now))
  {
    hide FreeSlots, Enqueue, ConsistentBut, ScheduleAsync, Displaces, LimitReady, Refusal, Usable;
    Queues(s, req, now);
    QueueingReplaces(s, req, now);
    ConsistentTidy(s, {}, req.pipeline);
  }

  lemma QueuedUntouched(s: State, s': State, req: Request, now: int, p: string)
    requires req.pipeline in s.defs && req.id !in s.jobs && Enqueued(s, req, now, s') && req.pipeline != p
    ensures Untouched(s, s', p)
  {
    hide Displaces;
    assert s.spawned[|s.spawned|..] == [];
  }

  lemma ScheduleElsewhere(s: State, req: Request, now: int, p: string)
    requires Consistent(s) && DefsUsable(s.defs) && Takes(s, req) && req.pipeline != p
    ensures Untouched(s, ScheduleAsync(s, req, now), p)
  {
    hide Untouched, ConsistentBut, StartJob, ScheduleAsync, FreeSlots, Moves, Enqueued;
    if MustWait(s, req) {
      QueuedIs(s, req, now);
      QueuedUntouched(s, ScheduleAsync(s, req, now), req, now, p);
    } else {
      StartsAtOnce(s, req, now);
      CreatedUntouched(s, req, now, p);
      FreshMoves(s, req, now);
      MovesUntouched(Fresh(s, req, now), StartJob(Fresh(s, req, now), req.id, now), req.pipeline, now, p);
      UntouchedTransitive(s, Fresh(s, req, now), StartJob(Fresh(s, req, now), req.id, now), p);
    }
  }

  // ---------------------------------------------------------------------------------------------
  // Starting at once
  // ---------------------------------------------------------------------------------------------

  /** The new job has been started or has failed to start; the lists stay as they are. */
  ghost predicate Settled(s: State, req: Request, now: int, s2: State) {
    && req.pipeline in s.defs && req.id in s2.jobs && s2.jobs == s.jobs[req.id := s2.jobs[req.id]]
    && !Live(s2.jobs[req.id])
    && s2.jobs[req.id] == NewJob(s.defs[req.pipeline], req, s.tickets, now).(
         start := s2.jobs[req.id].start, canceled := s2.jobs[req.id].canceled, lastError := s2.jobs[req.id].lastError,
         scheduler := true)
    && s2 == Fresh(s, req, now).(jobs := s2.jobs, spawned := s2.spawned)
  }

  lemma SettledConsistent(s: State, req: Request, now: int)
    requires Consistent(s) && req.pipeline in s.defs && req.id !in s.jobs
    ensures var s1 := Fresh(s, req, now);
      if req.builds then Consistent(Started(s1, req.id, now)) else Consistent(Unbuildable(s1, req.id))
  {
    hide ConsistentBut, Moves, KeepsLive;
    var s1 := Fresh(s, req, now);
    CreatedConsistent(s, req, now);
    SubseqSelf(ListOf(s1.wait, req.pipeline));
    if req.builds {
      StartedMoves(s1, req.id, req.pipeline, now);
      MoveSettles(s1, Started(s1, req.id, now), req.id, req.pipeline, now);
    } else {
      UnbuildableMoves(s1, req.id, req.pipeline, now);
      MoveSettles(s1, Unbuildable(s1, req.id), req.id, req.pipeline, now);
    }
  }

  // A job that was live and listed nowhere no longer needs to be listed.
  lemma MoveSettles(s: State, s': State, id: JobId, p: string, now: int)
    requires ConsistentBut(s, {id}) && Moves(s, s', p, now) && s'.wait == s.wait && id !in LiveSet(s'.jobs)
    ensures Consistent(s')
  {
    hide Moves, Tidy, Recorded;
    SubseqSelf(ListOf(s.wait, p));
    MovesKeepConsistent(s, s', p, now, {id});
    forall q ensures Tidy(s', q, {}) {
      assert Tidy(s', q, {id});
      NotSkipped(s', q, id);
    }
  }

  lemma SettledLists(s: State, req: Request, s2: State, now: int)
    requires Consistent(s) && req.id !in s.jobs && Settled(s, req, now, s2) && PipelineInv(s, req.pipeline)
    ensures Registered(s2, req.pipeline) && Separate(s2, req.pipeline)
    ensures NoneStartable(s.jobs, ListOf(s.wait, req.pipeline)) ==>
      NoneStartable(s2.jobs, ListOf(s2.wait, req.pipeline))
  {
    hide FreeSlots, Fifo, ConsistentBut;
    var p := req.pipeline;
    ConsistentTidy(s, {}, p);
    assert ListOf(s2.wait, p) == ListOf(s.wait, p);
    BuiltBefore(s, s2, req);
  }

  lemma BuiltBefore(s: State, s2: State, req: Request)
    requires forall id | id in s.jobs :: id in s2.jobs && s2.jobs[id].pipeline == s.jobs[id].pipeline
    requires forall id | id in s.jobs ::
      s2.jobs[id].ticket == s.jobs[id].ticket && s2.jobs[id].builds == s.jobs[id].builds
    ensures AllBuilt(s2, req.pipeline) ==> AllBuilt(s, req.pipeline)
  {
  }

  // The job that starts at once overtakes no undelayed job: with a free slot nothing startable waits.
  lemma DirectFifo(s: State, req: Request, now: int)
    requires Consistent(s) && PipelineInv(s, req.pipeline) && req.id !in s.jobs && req.pipeline in s.defs
    requires FreeSlots(s, req.pipeline) > 0 && req.builds
    ensures Fifo(Started(Fresh(s, req, now), req.id, now), req.pipeline)
  {
    hide FreeSlots, Tidy;
    var p := req.pipeline;
    var s2 := Started(Fresh(s, req, now), req.id, now);
    forall j, a | 0 <= j < |s2.spawned| && Earlier(s2, p, a, s2.spawned[j]) ensures NotOvertaken(s2, a, j) {
      assert a != req.id;
      if j < |s.spawned| {
        assert s2.spawned[j] == s.spawned[j] && s2.spawned[..j] == s.spawned[..j];
        assert s.spawned[j] in s.spawned;
        assert Earlier(s, p, a, s.spawned[j]) && NotOvertaken(s, a, j);
      } else {
        assert s2.spawned[..j] == s.spawned;
        NoLiveBehindFreeSlot(s, p, a);
      }
    }
  }

  lemma NoLiveBehindFreeSlot(s: State, p: string, a: JobId)
    requires Consistent(s) && PipelineInv(s, p) && p in s.defs && FreeSlots(s, p) > 0
    requires a in s.jobs && s.jobs[a].pipeline == p && s.jobs[a].ticket >= 0 && s.jobs[a].startDelay <= 0
    ensures a in s.spawned || s.jobs[a].canceled
  {
    hide FreeSlots, Fifo, ConsistentBut;
    ConsistentOrdered(s, p);
    assert Live(s.jobs[a]) ==> a in ListOf(s.wait, p) && CanBeStarted(s.jobs[a]);
  }

  lemma DirectStart(s: State, req: Request, now: int)
    requires Consistent(s) && PipelineInv(s, req.pipeline) && req.id !in s.jobs && req.pipeline in s.defs
    requires FreeSlots(s, req.pipeline) > 0 && req.builds
    ensures PipelineInv(Started(Fresh(s, req, now), req.id, now), req.pipeline)
  {
    hide FreeSlots, Fifo, Registered, Separate, ConsistentBut;
    var p, s1 := req.pipeline, Fresh(s, req, now);
    ConsistentTidy(s, {}, p);
    FreshSlots(s, req, now);
    CreatedIndexed(s, req, now, p);
    FreeAfterStart(s1, p, req.id, now);
    SettledLists(s, req, Started(s1, req.id, now), now);
    DirectFifo(s, req, now);
  }

  // A failed start leaves nothing that could be started.
  lemma FailedBase(s: State, req: Request, now: int)
    requires Consistent(s) && PipelineInv(s, req.pipeline) && req.id !in s.jobs && req.pipeline in s.defs
    requires FreeSlots(s, req.pipeline) > 0 && !req.builds
    ensures var s2 := Unbuildable(Fresh(s, req, now), req.id);
      && Consistent(s2) && PipelineBase(s2, req.pipeline)
      && AtMostOneStartable(s2.jobs, ListOf(s2.wait, req.pipeline))
  {
    hide FreeSlots, Fifo, Registered, Separate, ConsistentBut;
    var p, s1 := req.pipeline, Fresh(s, req, now);
    var s2 := Unbuildable(s1, req.id);
    ConsistentTidy(s, {}, p);
    FreshSlots(s, req, now);
    CreatedIndexed(s, req, now, p);
    FreeAfterStart(s1, p, req.id, now);
    SettledLists(s, req, s2, now);
    SettledConsistent(s, req, now);
    ArrivedFifo(s, req, s2, now);
    assert NoneStartable(s2.jobs, ListOf(s2.wait, p));
  }

  lemma DirectFailure(s: State, req: Request, now: int)
    requires Consistent(s) && PipelineInv(s, req.pipeline) && req.id !in s.jobs && req.pipeline in s.defs
    requires FreeSlots(s, req.pipeline) > 0 && !req.builds
    ensures PipelineInv(StartJob(Fresh(s, req, now), req.id, now), req.pipeline)
  {
    hide FreeSlots, PipelineInv, PipelineBase, Consistent, StartJobsOnWaitList, Promote, AtMostOneStartable;
    FailedBase(s, req, now);
    DispatchRestores(Unbuildable(Fresh(s, req, now), req.id), req.pipeline, now);
  }

  // Nobody was started: whoever was canceled on arrival of the job was not started before its turn either.
  lemma ArrivedFifo(s: State, req: Request, s2: State, now: int)
    requires Consistent(s) && Fifo(s, req.pipeline) && req.id !in s.jobs && req.pipeline in s.defs
    requires s2.spawned == s.spawned && s2.jobs.Keys == s.jobs.Keys + {req.id} && s2.jobs[req.id].ticket == s.tickets
    requires forall id | id in s.jobs ::
      && s2.jobs[id].pipeline == s.jobs[id].pipeline && s2.jobs[id].ticket == s.jobs[id].ticket
      && s2.jobs[id].startDelay == s.jobs[id].startDelay && (s.jobs[id].canceled ==> s2.jobs[id].canceled)
    ensures Fifo(s2, req.pipeline)
  {
    hide Tidy;
    var p := req.pipeline;
    forall j, a | 0 <= j < |s2.spawned| && Earlier(s2, p, a, s2.spawned[j]) ensures NotOvertaken(s2, a, j) {
      assert s.spawned[j] in s.spawned;
      assert Earlier(s, p, a, s.spawned[j]) && NotOvertaken(s, a, j);
    }
  }

  // ---------------------------------------------------------------------------------------------
  // Queueing
  // ---------------------------------------------------------------------------------------------

  // A queued request breaks nothing but work conservation.
  lemma QueuedBase(s: State, req: Request, now: int)
    requires Global(s) && PipelineInv(s, req.pipeline) && MustWait(s, req)
    ensures PipelineBase(ScheduleAsync(s, req, now), req.pipeline)
  {
    hide FreeSlots, Fifo, Consistent, ScheduleAsync, Displaces, Refusal, Registered, Separate;
    QueuedIs(s, req, now);
    ReplacingARunningJob(s, req, now);
    ArrivedFifo(s, req, ScheduleAsync(s, req, now), now);
    QueuedLists(s, ScheduleAsync(s, req, now), req, now);
  }

  lemma QueuedLists(s: State, s': State, req: Request, now: int)
    requires Consistent(s) && PipelineBase(s, req.pipeline) && req.id !in s.jobs
    requires req.pipeline in s.defs && Enqueued(s, req, now, s')
    ensures Registered(s', req.pipeline) && Separate(s', req.pipeline)
  {
    hide FreeSlots, ConsistentBut, Displaces, Fifo;
    ConsistentTidy(s, {}, req.pipeline);
    BuiltBefore(s, s', req);
  }

  // What can be started after queueing: the new job, unless it is delayed, and what could be before.
  lemma QueuedStartable(s: State, s': State, req: Request, now: int)
    requires Consistent(s) && req.id !in s.jobs && req.pipeline in s.defs && Enqueued(s, req, now, s')
    ensures NoneStartable(s'.jobs, ListOf(s'.wait, req.pipeline)) <==>
      s.defs[req.pipeline].startDelay > 0 && NoneBut(s, ListOf(s.wait, req.pipeline), Displaces(s, req))
  {
    hide ConsistentBut, Displaces;
    ConsistentTidy(s, {}, req.pipeline);
    assert req.id in ListOf(s'.wait, req.pipeline);
  }

  // The job that is displaced, if it runs, leaves a slot that nothing may be there to take.
  lemma QueuedConserves(s: State, req: Request, now: int)
    requires Global(s) && PipelineInv(s, req.pipeline) && MustWait(s, req)
    ensures Conserving(ScheduleAsync(s, req, now), req.pipeline) <==> MayQueue(s, req)
  {
    hide FreeSlots, Consistent, ScheduleAsync, Refusal, Fifo, Separate, NoneStartable, NoneBut;
    QueuedIs(s, req, now);
    hide Displaces;
    ReplacingARunningJob(s, req, now);
    QueuedStartable(s, ScheduleAsync(s, req, now), req, now);
    ButTheRunning(s, req);
  }

  // A running job is not startable, so leaving it out makes no difference.
  lemma ButTheRunning(s: State, req: Request)
    requires req.pipeline in s.defs
    ensures DisplacesRunning(s, req) ==>
      (NoneBut(s, ListOf(s.wait, req.pipeline), Displaces(s, req)) <==>
       NoneStartable(s.jobs, ListOf(s.wait, req.pipeline)))
    ensures NoneStartable(s.jobs, ListOf(s.wait, req.pipeline)) ==>
      NoneBut(s, ListOf(s.wait, req.pipeline), Displaces(s, req))
  {
    hide Displaces;
  }

  ghost predicate NoneBut(s: State, w: seq<JobId>, v: Option<JobId>) {
    forall id | id in w && id in s.jobs && v != Some(id) :: !CanBeStarted(s.jobs[id])
  }

  // ---------------------------------------------------------------------------------------------
  // Any request
  // ---------------------------------------------------------------------------------------------

  lemma OwnSchedule(s: State, req: Request, now: int)
    requires Inv(s, req.pipeline) && Takes(s, req)
    ensures PipelineInv(ScheduleAsync(s, req, now), req.pipeline) <==> MayQueue(s, req)
  {
    hide FreeSlots, Enqueue, Consistent, ScheduleAsync, StartJobsOnWaitList, PipelineBase, Conserving, LimitReady,
      Refusal;
    if MustWait(s, req) {
      QueuedBase(s, req, now);
      QueuedConserves(s, req, now);
    } else {
      StartsAtOnce(s, req, now);
      if req.builds {
        DirectStart(s, req, now);
      } else {
        DirectFailure(s, req, now);
      }
    }
  }

  /**
   * ScheduleAsync keeps the invariant of a pipeline exactly unless it displaces a running job of it while
   * something could take the slot that then reads as free.
   */
  lemma ScheduleKeepsInvIff(s: State, req: Request, now: int, p: string)
    requires Inv(s, p) && req.id !in s.jobs
    ensures Inv(ScheduleAsync(s, req, now), p) <==> Harmless(s, Schedule(req, now), p)
  {
    hide FreeSlots, Consistent, ScheduleAsync, PipelineInv, Refusal, DefsUsable, MayQueue;
    StepKeepsGlobal(s, Schedule(req, now));
    if Refusal(s, req.pipeline).Some? {
      Refused(s, req, now);
    } else if req.pipeline == p {
      OwnSchedule(s, req, now);
    } else {
      ScheduleElsewhere(s, req, now, p);
      UntouchedInv(s, ScheduleAsync(s, req, now), p);
    }
  }

  lemma Refused(s: State, req: Request, now: int)
    requires DefsUsable(s.defs) && req.id !in s.jobs && Refusal(s, req.pipeline).Some?
    ensures ScheduleAsync(s, req, now) == s && MayQueue(s, req)
  {
  }
}
