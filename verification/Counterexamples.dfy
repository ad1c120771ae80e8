// Where the guarantees end: what goes wrong outside their conditions, and exactly when. Overshoot has the cases
// that concern a dispatch, CounterexampleRuns the runs that get there.
module Counterexamples {
  import opened Basics
  import opened Definitions
  import opened RunnerState
  import opened Dispatch
  import opened Promotion
  import opened RunnerEvents
  import opened RunnerLifecycle
  import opened RunnerIndexes
  import opened RunnerInvariants
  import opened RunnerLeftovers

  // ---------------------------------------------------------------------------------------------
  // Settings
  // ---------------------------------------------------------------------------------------------

  /**
   * A pipeline on which nothing runs and nothing live waits refuses a job exactly when queue_limit is 0, or when
   * it appends and as many ended jobs as queue_limit allows were left on its list; and then it refuses for good.
   */
  lemma IdlePipelineRefuses(s: State, p: string)
    requires Global(s) && !s.shutting && p in s.defs && AllOver(s, p)
    ensures forall id | id in ListOf(s.wait, p) :: id in s.jobs && Ended(s.jobs[id])
    ensures var def := s.defs[p];
      Refusal(s, p).Some? <==>
        || def.queueLimit == Some(0)
        || (def.queueStrategy.Append? && def.queueLimit.Some? && def.queueLimit.value <= |ListOf(s.wait, p)|)
    ensures Refusal(s, p).Some? ==>
      forall events, s' | StableRun(s, events, s', p) && NoShutdown(events) :: Refusal(s', p).Some?
  {
    hide ConsistentBut, StableRun, NoShutdown;
    ConsistentTidy(s, {}, p);
    if Refusal(s, p).Some? {
      forall events, s' | StableRun(s, events, s', p) && NoShutdown(events) ensures Refusal(s', p).Some? {
        StaysRefusing(s, events, s', p);
      }
    }
  }

  /** A validated definition has the limit its strategy reads, except a replace queue without queue_limit. */
  lemma ReplaceNeedsLimit(d: PipelineDef)
    requires Accepted(d)
    ensures (forall list | CanAcceptJob(d, list).None? :: LimitReady(d)) <==>
      (d.queueStrategy.Replace? ==> d.queueLimit.Some?)
  {
    if d.queueStrategy.Replace? && d.queueLimit.None? {
      assert CanAcceptJob(d, []).None? && !LimitReady(d);
    } else {
      forall list | CanAcceptJob(d, list).None? ensures LimitReady(d) {
      }
    }
  }

  /**
   * A request that panics leaves its job live and in both indexes, but on no wait list, where no dispatch comes
   * to it; every other request keeps jobs, indexes and lists in agreement.
   */
  lemma PanicLosesJob(s: State, req: Request, now: int)
    requires Consistent(s) && req.id !in s.jobs
    ensures var s' := ScheduleAsync(s, req, now);
      && (Panics(s, req, now) <==> !Consistent(s'))
      && (Panics(s, req, now) ==>
            && req.id in s'.jobs && Live(s'.jobs[req.id]) && req.id in s'.known
            && req.id in ListOf(s'.byPipeline, req.pipeline) && forall p :: req.id !in ListOf(s'.wait, p))
  {
    hide ConsistentBut, ScheduleAsync, StartJob, Enqueue, RunningJobs, Refusal, LimitReady;
    ScheduleGoes(s, req, now);
    if Panics(s, req, now) {
      ConsistentOwn(s);
      var s' := ScheduleAsync(s, req, now);
      assert s' == Created(s, s.defs[req.pipeline], req, now);
      OnNoList(s, s', req);
    } else {
      ScheduleKeeps(s, req, now);
    }
  }

  lemma OnNoList(s: State, s': State, req: Request)
    requires ListsOwn(s) && req.id !in s.jobs && s'.wait == s.wait
    requires req.id in s'.jobs && s'.jobs[req.id].pipeline == req.pipeline && Live(s'.jobs[req.id])
    ensures forall p :: req.id !in ListOf(s'.wait, p)
    ensures !Consistent(s')
  {
    forall p ensures req.id !in ListOf(s'.wait, p) {
      assert Own(s, p, ListOf(s.wait, p));
    }
    assert !Tidy(s', req.pipeline, {});
  }

  // ---------------------------------------------------------------------------------------------
  // Overtaking after new definitions
  // ---------------------------------------------------------------------------------------------

  /**
   * A job is started at once past a startable waiting one exactly when a slot is free while one waits,
   * which work conservation excludes in the runs of RunnerRuns.
   */
  lemma OvertakesIff(s: State, req: Request, now: int)
    requires DefsUsable(s.defs) && req.id !in s.jobs && Refusal(s, req.pipeline).None? && req.builds
    requires Indexed(s, req.pipeline) && s.defs[req.pipeline].startDelay <= 0
    ensures var s', p := ScheduleAsync(s, req, now), req.pipeline;
      (&& s'.spawned == s.spawned + [req.id]
       && exists id | id in ListOf(s'.wait, p) :: Startable(s'.jobs, id) && id != req.id) <==>
        FreeSlots(s, p) > 0 && exists id | id in ListOf(s.wait, p) :: Startable(s.jobs, id)
  {
    hide FreeSlots, ModifyWaitList;
    var p := req.pipeline;
    var def, s1, ids := s.defs[p], Created(s, s.defs[p], req, now), ListOf(s.byPipeline, p);
    var s' := ScheduleAsync(s, req, now);
    AcceptedIsReady(def, ListOf(s.wait, p));
    FreshSlots(s, req, now);
    if FreeSlots(s, p) > 0 {
      assert s' == Started(s1, req.id, now) by { SlotsAre(s1, p); }
      if id :| id in ListOf(s.wait, p) && Startable(s.jobs, id) {
        assert Startable(s'.jobs, id);
      }
    } else {
      assert s'.spawned == s.spawned by { SlotsAre(s1, p); }
      assert |s.spawned + [req.id]| != |s.spawned|;
    }
  }
}
