// No operation starts a job past an earlier startable one of its pipeline, whether delayed or not.
module RunnerOrder {
  import opened Basics
  import opened WaitList
  import opened RunnerState
  import opened Promotion
  import opened RunnerEvents
  import opened RunnerLifecycle
  import opened RunnerIndexes
  import opened RunnerArrivals
  import opened RunnerInvariants
  import opened RunnerSteps
  import opened RunnerSchedule
  import opened RunnerRuns

  /** Nothing keeps the job from starting in this step: it waits for a slot only, or its timer fires now. */
  ghost predicate Due(s: State, e: Event, a: JobId) {
    a in s.jobs && Live(s.jobs[a]) && (CanBeStarted(s.jobs[a]) || (e.TimerFired? && e.id == a))
  }

  /** The starts between two states leave `a` behind nobody that was scheduled after it. */
  ghost predicate KeepsTurn(s: State, s': State, a: JobId) {
    a in s.jobs && a in s'.jobs && s.spawned <= s'.spawned &&
    forall j | |s.spawned| <= j < |s'.spawned| && s'.spawned[j] in s'.jobs
      && s'.jobs[s'.spawned[j]].pipeline == s.jobs[a].pipeline && s.jobs[a].ticket < s'.jobs[s'.spawned[j]].ticket ::
      NotOvertaken(s', a, j)
  }

  lemma NobodyStarted(s: State, s': State, a: JobId)
    requires a in s.jobs && a in s'.jobs && s'.spawned == s.spawned
    ensures KeepsTurn(s, s', a)
  {
  }

  lemma UntouchedTurn(s: State, s': State, p: string, a: JobId)
    requires Untouched(s, s', p) && a in s.jobs && s.jobs[a].pipeline == p
    ensures KeepsTurn(s, s', a)
  {
    SpawnedElsewhere(s, s', p);
  }

  // One job is started at most, and the startable ones before it have been passed over.
  lemma PromoteKeepsTurn(s: State, p: string, now: int, a: JobId)
    requires Consistent(s) && a in ListOf(s.wait, p) && a in s.jobs && CanBeStarted(s.jobs[a])
    ensures KeepsTurn(s, Promote(s, p, now), a)
  {
    hide FreeSlots, Promote, Chosen, PassedOver, ConsistentBut;
    ConsistentOrdered(s, p);
    if FreeSlots(s, p) <= 0 {
      PromoteFull(s, p, now);
    } else {
      var s', w := Promote(s, p, now), ListOf(s.wait, p);
      PromoteShape(s, p, now);
      PromotedJob(s, p, now, a);
      ChosenIs(s.jobs, w);
      if Chosen(s.jobs, w).Some? {
        var b := Chosen(s.jobs, w).value;
        PromotedJob(s, p, now, b);
        assert s'.spawned[|s.spawned|] == b;
        if s.jobs[a].ticket < s.jobs[b].ticket {
          EarlierPassedOver(s, p, a);
        }
      }
    }
  }

  // The dispatch after an edit that leaves at most one slot or one job to start.
  lemma DispatchKeepsTurn(s: State, s1: State, p: string, now: int, a: JobId)
    requires Consistent(s1) && PipelineBase(s1, p)
    requires FreeSlots(s1, p) <= 1 || AtMostOneStartable(s1.jobs, ListOf(s1.wait, p))
    requires a in s.jobs && a in s1.jobs && s1.spawned == s.spawned && s1.jobs[a].ticket == s.jobs[a].ticket
    requires s1.jobs[a].pipeline == s.jobs[a].pipeline == p && CanBeStarted(s1.jobs[a])
    ensures KeepsTurn(s, StartJobsOnWaitList(s1, p, now), a)
  {
    hide FreeSlots, Promote, PipelineBase, StartJobsOnWaitList, Consistent, NotOvertaken;
    ConsistentOrdered(s1, p);
    DispatchRestores(s1, p, now);
    PromoteKeepsTurn(s1, p, now, a);
  }

  lemma CompleteKeepsTurn(s: State, id: JobId, err: Option<string>, ctxCanceled: bool, now: int, a: JobId)
    requires a in s.jobs && CanBeStarted(s.jobs[a]) && Inv(s, s.jobs[a].pipeline)
    requires RunnerEvents.Enabled(s, Complete(id, err, ctxCanceled, now))
    ensures KeepsTurn(s, JobCompleted(s, id, err, ctxCanceled, now), a)
  {
    hide FreeSlots, PipelineBase, StartJobsOnWaitList, Consistent, KeepsTurn, Untouched;
    var j, p := CompletedJob(s.jobs[id], err, ctxCanceled, now), s.jobs[a].pipeline;
    var s1 := Edited(s, id, j, s.token);
    SpawnedStarted(s, id);
    if j.pipeline == p {
      EditedConsistent(s, id, j, s.token);
      EditedBase(s, id, j, s.token);
      EditedCount(s, id, j, s.token);
      SlotsAre(s, p);
      AfterCompletion(s, s1, p, id);
      DispatchKeepsTurn(s, s1, p, now, a);
    } else {
      DispatchElsewhere(s, id, j, now, p);
      UntouchedTurn(s, StartJobsOnWaitList(s1, j.pipeline, now), p, a);
    }
    TokenKeepsTurn(s, StartJobsOnWaitList(s1, j.pipeline, now), a);
  }

  lemma TokenKeepsTurn(s: State, s': State, a: JobId)
    requires KeepsTurn(s, s', a)
    ensures KeepsTurn(s, s'.(token := true), a)
  {
    forall j | |s.spawned| <= j < |s'.spawned| && s'.spawned[j] in s'.jobs
      && s'.jobs[s'.spawned[j]].pipeline == s.jobs[a].pipeline && s.jobs[a].ticket < s'.jobs[s'.spawned[j]].ticket
      ensures NotOvertaken(s'.(token := true), a, j)
    {
      assert NotOvertaken(s', a, j);
    }
  }

  lemma TimerKeepsTurn(s: State, id: JobId, now: int, a: JobId)
    requires Due(s, TimerFired(id, now), a) && Inv(s, s.jobs[a].pipeline)
    ensures KeepsTurn(s, StartDelayedJob(s, id, now), a)
  {
    hide FreeSlots, PipelineBase, StartJobsOnWaitList, Consistent, KeepsTurn, Untouched;
    if id in s.known && id in s.jobs && !s.jobs[id].canceled {
      var j, p := s.jobs[id].(timer := false), s.jobs[a].pipeline;
      var s1 := Edited(s, id, j, s.token);
      if j.pipeline == p {
        EditedConsistent(s, id, j, s.token);
        EditedBase(s, id, j, s.token);
        EditedCount(s, id, j, s.token);
        SlotsAre(s, p);
        ConsistentOrdered(s, p);
        AfterTimer(s, s1, p, id);
        DispatchKeepsTurn(s, s1, p, now, a);
      } else {
        DispatchElsewhere(s, id, j, now, p);
        UntouchedTurn(s, StartDelayedJob(s, id, now), p, a);
      }
    } else {
      NobodyStarted(s, s, a);
    }
  }

  // A startable job waits, so no slot of its pipeline is free, and a request for it starts nobody.
  lemma ScheduleKeepsTurn(s: State, req: Request, now: int, a: JobId)
    requires a in s.jobs && CanBeStarted(s.jobs[a]) && Inv(s, s.jobs[a].pipeline) && req.id !in s.jobs
    ensures KeepsTurn(s, ScheduleAsync(s, req, now), a)
  {
    hide FreeSlots, ScheduleAsync, Consistent, Refusal, PipelineBase, KeepsTurn, Untouched, Displaces;
    if Refusal(s, req.pipeline).Some? {
      Refused(s, req, now);
      NobodyStarted(s, s, a);
    } else if req.pipeline != s.jobs[a].pipeline {
      ScheduleElsewhere(s, req, now, s.jobs[a].pipeline);
      UntouchedTurn(s, ScheduleAsync(s, req, now), s.jobs[a].pipeline, a);
    } else {
      NoSlotFor(s, a);
      assert MustWait(s, req);
      QueuedIs(s, req, now);
      NobodyStarted(s, ScheduleAsync(s, req, now), a);
    }
  }

  lemma NoSlotFor(s: State, a: JobId)
    requires a in s.jobs && CanBeStarted(s.jobs[a]) && Inv(s, s.jobs[a].pipeline)
    ensures FreeSlots(s, s.jobs[a].pipeline) <= 0
  {
    hide FreeSlots, Consistent, Fifo, Separate;
    SlotsAre(s, s.jobs[a].pipeline);
    ConsistentOrdered(s, s.jobs[a].pipeline);
  }

  lemma StillThere(s: State, e: Event, a: JobId)
    requires Consistent(s) && DefsUsable(s.defs) && RunnerEvents.Enabled(s, e) && a in s.jobs
    ensures a in Next(s, e).jobs
  {
    hide ConsistentBut;
    ConsistentOwn(s);
    StepGrows(s, e);
  }

  /**
   * Delays included: whatever a step starts, a job of the same pipeline that was scheduled before and could
   * have been started has been started before it or is canceled.
   */
  lemma NothingOvertakes(s: State, e: Event, a: JobId)
    requires Due(s, e, a) && Inv(s, s.jobs[a].pipeline) && RunnerEvents.Enabled(s, e)
    ensures KeepsTurn(s, Next(s, e), a)
  {
    hide PipelineInv, Consistent, StartDelayedJob, JobCompleted, ScheduleAsync, KeepsTurn;
    StillThere(s, e, a);
    match e
    case Schedule(req, now) => ScheduleKeepsTurn(s, req, now, a);
    case Complete(id, err, ctxCanceled, now) => CompleteKeepsTurn(s, id, err, ctxCanceled, now, a);
    case TimerFired(id, now) => TimerKeepsTurn(s, id, now, a);
    case _ => NobodyStarted(s, Next(s, e), a);
  }
}
