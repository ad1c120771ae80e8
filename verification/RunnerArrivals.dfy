// What a queued request does: which job it displaces, and what that does to the count of running jobs.
module RunnerArrivals {
  import opened Basics
  import opened Definitions
  import opened WaitList
  import opened RunnerState
  import opened Dispatch
  import opened RunnerEvents
  import opened RunnerIndexes
  import opened RunnerLanes

  lemma AppendHasNoVictim(def: PipelineDef, part: JobId -> string, list: seq<JobId>, id: JobId)
    requires def.queueStrategy.Append?
    ensures ModifyWaitList(def, part, list, id).victim.None?
  {
  }

  /** The job that a queued request replaces: the last one that its partition sees, if its queue is full. */
  ghost function Displaces(s: State, req: Request): Option<JobId>
    requires req.pipeline in s.defs
  {
    var def := s.defs[req.pipeline];
    if def.queueStrategy.Append? then None else LastOf(LaneOf(s, req.pipeline, req.partition), Slots(def))
  }

  lemma QueueingReplaces(s: State, req: Request, now: int)
    requires Consistent(s) && DefsUsable(s.defs) && Takes(s, req)
    ensures req.pipeline in s.defs && LimitReady(s.defs[req.pipeline])
    ensures var p, v, s1 := req.pipeline, Displaces(s, req), Fresh(s, req, now);
      var s2 := Enqueue(s1, p, req.id);
      && s2 == s1.(jobs := s2.jobs, wait := s.wait[p := ListOf(s2.wait, p)]) && s2.jobs.Keys == s1.jobs.Keys
      && (forall x | x in s1.jobs ::
            s2.jobs[x] == if v == Some(x) then s1.jobs[x].(canceled := true, timer := false) else s1.jobs[x])
      && (forall x :: x in ListOf(s2.wait, p) <==> x == req.id || (x in ListOf(s.wait, p) && v != Some(x)))
      && (v.Some? ==> v.value in ListOf(s.wait, p))
  {
    hide ModifyWaitList, Lane, LaneOf, ConsistentBut, Enqueue;
    var p := req.pipeline;
    var victim := QueueingIs(s, req, now);
    if s.defs[p].queueStrategy.Append? {
      AppendHasNoVictim(s.defs[p], PartOf(Fresh(s, req, now).jobs), ListOf(s.wait, p), req.id);
    } else {
      SameVictim(s, req, now);
    }
  }

  lemma SameVictim(s: State, req: Request, now: int)
    requires Consistent(s) && req.pipeline in s.defs && req.id !in s.jobs && LimitReady(s.defs[req.pipeline])
    requires !s.defs[req.pipeline].queueStrategy.Append?
    ensures var p := req.pipeline;
      ModifyWaitList(s.defs[p], PartOf(Fresh(s, req, now).jobs), ListOf(s.wait, p), req.id).victim == Displaces(s, req)
  {
    hide ModifyWaitList, Lane;
    var p := req.pipeline;
    ConsistentTidy(s, {}, p);
    FreshLane(s, req, now, req.partition);
    ArrivalLanes(s.defs[p], PartOf(Fresh(s, req, now).jobs), ListOf(s.wait, p), req.id, req.partition);
  }

  /** A request that is queued: its job is delayed, or no slot is free. */
  ghost predicate MustWait(s: State, req: Request) {
    Takes(s, req) && (s.defs[req.pipeline].startDelay > 0 || FreeSlots(s, req.pipeline) <= 0)
  }

  lemma Queues(s: State, req: Request, now: int)
    requires Consistent(s) && DefsUsable(s.defs) && MustWait(s, req)
    ensures req.pipeline in s.defs && LimitReady(s.defs[req.pipeline])
    ensures ScheduleAsync(s, req, now) == Enqueue(Fresh(s, req, now), req.pipeline, req.id)
    ensures FreeSlots(Fresh(s, req, now), req.pipeline) == FreeSlots(s, req.pipeline)
    ensures Indexed(Fresh(s, req, now), req.pipeline)
  {
    hide FreeSlots, Enqueue, ConsistentBut, ScheduleAsync, RunningJobs, Refusal, StartJob, Usable, LimitReady, Indexed;
    ScheduleOutcome(s, req, now);
    ConsistentTidy(s, {}, req.pipeline);
    FreshSlots(s, req, now);
    SlotsAre(Fresh(s, req, now), req.pipeline);
    CreatedIndexed(s, req, now, req.pipeline);
  }

  lemma StartsAtOnce(s: State, req: Request, now: int)
    requires Consistent(s) && DefsUsable(s.defs) && Takes(s, req) && !MustWait(s, req)
    ensures req.pipeline in s.defs && FreeSlots(s, req.pipeline) > 0
    ensures ScheduleAsync(s, req, now) == StartJob(Fresh(s, req, now), req.id, now)
    ensures FreeSlots(Fresh(s, req, now), req.pipeline) == FreeSlots(s, req.pipeline)
    ensures Indexed(Fresh(s, req, now), req.pipeline)
  {
    hide FreeSlots, Enqueue, ConsistentBut, ScheduleAsync, RunningJobs, Refusal, StartJob, Usable, LimitReady, Indexed;
    ScheduleOutcome(s, req, now);
    ConsistentTidy(s, {}, req.pipeline);
    FreshSlots(s, req, now);
    SlotsAre(Fresh(s, req, now), req.pipeline);
    CreatedIndexed(s, req, now, req.pipeline);
  }

  // The new job starts and takes one slot.
  lemma StartsNow(s: State, req: Request, now: int)
    requires Consistent(s) && DefsUsable(s.defs) && Takes(s, req) && req.builds
    requires s.defs[req.pipeline].startDelay <= 0 && FreeSlots(s, req.pipeline) > 0
    ensures var s' := ScheduleAsync(s, req, now);
      s' == Started(Fresh(s, req, now), req.id, now) && FreeSlots(s', req.pipeline) == FreeSlots(s, req.pipeline) - 1
  {
    hide FreeSlots, Enqueue, ConsistentBut, ScheduleAsync, RunningJobs, Refusal, StartJobsOnWaitList;
    ScheduleOutcome(s, req, now);
    var p, s1 := req.pipeline, Fresh(s, req, now);
    ConsistentTidy(s, {}, p);
    FreshSlots(s, req, now);
    SlotsAre(s1, p);
    CreatedIndexed(s, req, now, p);
    FreeAfterStart(s1, p, req.id, now);
  }

  /**
   * Queueing a request frees a slot although nothing has ended exactly when it replaces a running job: its
   * queue is full, and the last entry there has been started and neither completed nor canceled.
   */
  lemma ReplacingARunningJob(s: State, req: Request, now: int)
    requires Consistent(s) && DefsUsable(s.defs) && MustWait(s, req)
    ensures var s', p, v := ScheduleAsync(s, req, now), req.pipeline, Displaces(s, req);
      && FreeSlots(s', p) ==
        FreeSlots(s, p) + One(v.Some? && v.value in s.known && v.value in s.jobs && IsRunning(s.jobs[v.value]))
      && (v.Some? && v.value in s.jobs ==>
            v.value in s'.jobs && s'.jobs[v.value].canceled && s'.jobs[v.value].completed == s.jobs[v.value].completed)
      && s'.spawned == s.spawned
  {
    hide FreeSlots, Enqueue, ConsistentBut, LaneOf, ScheduleAsync, Refusal, Usable, LimitReady, Indexed;
    Queues(s, req, now);
    var p, s1 := req.pipeline, Fresh(s, req, now);
    ConsistentTidy(s, {}, p);
    QueueingReplaces(s, req, now);
    QueuedSlots(s1, Enqueue(s1, p, req.id), p, Displaces(s, req));
  }

  lemma QueuedSlots(s1: State, s2: State, p: string, v: Option<JobId>)
    requires Indexed(s1, p) && s2 == s1.(jobs := s2.jobs, wait := s2.wait) && s2.jobs.Keys == s1.jobs.Keys
    requires forall x | x in s1.jobs ::
      s2.jobs[x] == if v == Some(x) then s1.jobs[x].(canceled := true, timer := false) else s1.jobs[x]
    requires v.Some? && v.value in s1.jobs ==> s1.jobs[v.value].pipeline == p
    ensures FreeSlots(s2, p) ==
      FreeSlots(s1, p) + One(v.Some? && v.value in s1.known && v.value in s1.jobs && IsRunning(s1.jobs[v.value]))
  {
    if v.Some? && v.value in s1.jobs {
      assert s2.jobs == s1.jobs[v.value := s2.jobs[v.value]];
      CountUpdate(s1.jobs, ListOf(s1.byPipeline, p), v.value, s2.jobs[v.value]);
    } else {
      assert s2.jobs == s1.jobs;
    }
  }
}
