// PipelineRunner (prunner.go): the three indexes over shared job objects, updated in place. Each method is
// one critical section of the mutex and is proved to compute the corresponding function of RunnerState.
module Runner {
  import opened Basics
  import opened Definitions
  import opened Jobs
  import opened WaitList
  import opened RunnerState
  import opened Retention
  import opened RunnerLifecycle
  import opened RunnerIndexes
  import opened PipelineJobs
  import TaskOrder

  /** What ScheduleAsync ends with; after a panic the server goes on, with the job that was created. */
  datatype Answer = Scheduled(job: PipelineJob) | Refused(error: ScheduleError) | Panicked(job: PipelineJob)

  /** Of the accepted definitions only replace without queue_limit lacks the limit of its strategy. */
  lemma LimitMissing(s: State, p: string)
    requires p in s.defs && Accepted(s.defs[p]) && Refusal(s, p).None?
    ensures LimitReady(s.defs[p]) <==> !(s.defs[p].queueStrategy.Replace? && s.defs[p].queueLimit.None?)
  {
  }

  lemma NoPanic(s: State, req: Request, now: int)
    requires Refusal(s, req.pipeline).Some?
    ensures !Panics(s, req, now)
  {
  }

  // ---------------------------------------------------------------------------------------------
  // The loop of startJobsOnWaitList, entry by entry
  // ---------------------------------------------------------------------------------------------

  lemma LoopBegins(s: State, p: string, now: int)
    ensures RunnerState.StartJobsOnWaitList(s, p, now) ==
      if FreeSlots(s, p) <= 0 then s else StartFrom(s, p, ListOf(s.wait, p), FreeSlots(s, p), [], now)
  {
  }

  lemma LoopStarts(s: State, p: string, rest: seq<JobId>, free: int, kept: seq<JobId>, now: int)
    requires rest != [] && rest[0] in s.jobs && CanBeStarted(s.jobs[rest[0]]) && free > 0
    ensures s.jobs[rest[0]].start.None? && rest[0] in LiveSet(s.jobs)
    ensures StartFrom(s, p, rest, free, kept, now) ==
      StartFrom(StartJob(s, rest[0], now), p, rest[1..], free - 1, kept, now)
  {
  }

  lemma LoopKeeps(s: State, p: string, rest: seq<JobId>, free: int, kept: seq<JobId>, now: int)
    requires rest != [] && !(rest[0] in s.jobs && CanBeStarted(s.jobs[rest[0]]) && free > 0)
    ensures StartFrom(s, p, rest, free, kept, now) == StartFrom(s, p, rest[1..], free, kept + [rest[0]], now)
  {
  }

  lemma LoopEnds(s: State, p: string, free: int, kept: seq<JobId>, now: int)
    ensures StartFrom(s, p, [], free, kept, now) == s.(wait := s.wait[p := kept])
  {
  }

  // HandleTaskChange with the persist request last, as in the source.
  lemma TaskChangeIs(s: State, id: JobId, name: string, r: TaskReport)
    ensures var s' := RunnerState.HandleTaskChange(s, id, name, r);
      if id !in s.known || id !in s.jobs || ByName(s.jobs[id].tasks, name).None? then s' == s
      else
        var j := ReportedJob(s.jobs[id], name, r);
        var s1 := s.(jobs := s.jobs[id := j]);
        var stop := TaskErrored(j, name) && j.pipeline in s.defs &&
          !s.defs[j.pipeline].continueRunningTasksAfterFailure;
        s' == (if stop then CancelJob(s1, id) else s1).(token := true) && j.pipeline == s.jobs[id].pipeline
  {
    hide ReportedJob, TaskErrored, ByName;
    if id in s.jobs {
      ReportKeeps(s.jobs[id], name, r);
    }
  }

  /** The jobs with these ids are canceled. */
  ghost function WithCanceled(jobs: JobTable, ids: set<JobId>): (r: JobTable)
    ensures r.Keys == jobs.Keys
  {
    map id | id in jobs :: if id in ids then jobs[id].(canceled := true) else jobs[id]
  }

  lemma OneMoreCanceled(jobs: JobTable, ids: set<JobId>, id: JobId)
    requires id in jobs
    ensures var t := WithCanceled(jobs, ids); WithCanceled(jobs, ids + {id}) == t[id := t[id].(canceled := true)]
  {
  }

  lemma NoneCanceled(jobs: JobTable)
    ensures WithCanceled(jobs, {}) == jobs
  {
  }

  /** Some of the lists are done: their jobs are `ids`. */
  ghost predicate DoneLists(lists: map<string, seq<PipelineJob>>, todo: map<string, seq<PipelineJob>>,
                            ids: set<JobId>)
  {
    && todo.Keys <= lists.Keys
    && (forall p | p in todo :: todo[p] == lists[p])
    && forall id :: id in ids <==> exists p | p in lists :: p !in todo && id in Ids(lists[p])
  }

  lemma OneMoreList(lists: map<string, seq<PipelineJob>>, todo: map<string, seq<PipelineJob>>, ids: set<JobId>,
                    p: string)
    requires DoneLists(lists, todo, ids) && p in todo
    ensures DoneLists(lists, todo - {p}, ids + Elems(Ids(todo[p])))
  {
  }

  lemma AllListsDone(s: State, lists: map<string, seq<PipelineJob>>, ids: set<JobId>)
    requires s.wait == IdLists(lists) && DoneLists(lists, map[], ids)
    ensures RunnerState.Shutdown(s) == s.(shutting := true, wait := map[], jobs := WithCanceled(s.jobs, ids))
  {
    forall id ensures id in ids <==> OnSomeList(s, id) {
      if p :| p in lists && id in Ids(lists[p]) {
        assert s.wait[p] == Ids(lists[p]);
      }
    }
  }

  lemma NoneDone(lists: map<string, seq<PipelineJob>>)
    ensures DoneLists(lists, lists, {})
  {
  }

  lemma {:induction false} RemoveAllMore(list: seq<JobId>, ids: seq<JobId>, id: JobId)
    ensures RemoveAll(list, ids + [id]) == RemoveJob(RemoveAll(list, ids), id)
    decreases |ids|
  {
    if ids == [] {
      assert [] + [id] == [id] && [id][1..] == [];
    } else {
      assert (ids + [id])[1..] == ids[1..] + [id];
      RemoveAllMore(RemoveJob(list, ids[0]), ids[1..], id);
    }
  }

  lemma ToRemoveMore(defs: PipelinesMap, jobs: JobTable, ranked: seq<JobId>, i: nat, now: int)
    requires i < |ranked| && ranked[i] in jobs
    ensures ToRemove(defs, jobs, ranked[..i + 1], now) ==
      ToRemove(defs, jobs, ranked[..i], now) +
      if Retention.ShouldBeRemoved(defs, jobs[ranked[i]], i, now) then [ranked[i]] else []
  {
    hide Retention.ShouldBeRemoved;
    assert ranked[..i + 1][..i] == ranked[..i];
  }

  lemma NothingRemoved(defs: PipelinesMap, jobs: JobTable, list: seq<JobId>, now: int)
    ensures ToRemove(defs, jobs, [], now) == [] && RemoveAll(list, []) == list
  {
  }

  lemma MoreRemoved(known0: set<JobId>, known: set<JobId>, known': set<JobId>, defs: PipelinesMap, jobs: JobTable,
                    rankings: map<string, seq<JobId>>, p: string, ranked: seq<JobId>, now: int)
    requires forall id :: id in known <==> id in known0 && !exists q | q in rankings ::
      id in ToRemove(defs, jobs, rankings[q], now)
    requires known' == known - Elems(ToRemove(defs, jobs, ranked, now)) && p !in rankings
    ensures var r := rankings[p := ranked];
      forall id :: id in known' <==> id in known0 && !exists q | q in r :: id in ToRemove(defs, jobs, r[q], now)
  {
    hide ToRemove;
    var r := rankings[p := ranked];
    forall id | id in known0 && id !in known' ensures exists q | q in r :: id in ToRemove(defs, jobs, r[q], now) {
      if id !in known {
        var q :| q in rankings && id in ToRemove(defs, jobs, rankings[q], now);
        assert r[q] == rankings[q];
      } else {
        assert r[p] == ranked;
      }
    }
  }

  lemma SweepIs(s: State, s': State, rankings: map<string, seq<JobId>>, now: int)
    requires rankings.Keys == s.byPipeline.Keys == s'.byPipeline.Keys
    requires s' == s.(known := s'.known, byPipeline := s'.byPipeline)
    requires forall p | p in rankings ::
      s'.byPipeline[p] == SweepList(s.defs, s.jobs, s.byPipeline[p], rankings[p], now)
    requires forall id :: id in s'.known <==> id in s.known && !exists p | p in rankings ::
      id in ToRemove(s.defs, s.jobs, rankings[p], now)
    ensures s' == Retention.Sweep(s, rankings, now)
  {
  }

  lemma NothingSaved(s: State)
    ensures Persistence.DistinctIds([]) && Persistence.ById([]) == Persistence.View(s.(known := {}))
  {
  }

  lemma OneMoreSaved(s: State, known: set<JobId>, id: JobId, data: seq<Persistence.PersistedJob>,
                     pj: Persistence.PersistedJob)
    requires Persistence.DistinctIds(data) && Persistence.ById(data) == Persistence.View(s.(known := known))
    requires id in s.jobs && id !in known && pj == Persistence.PersistJob(id, s.jobs[id]) && pj.id == id
    ensures Persistence.DistinctIds(data + [pj])
    ensures Persistence.ById(data + [pj]) == Persistence.View(s.(known := known + {id}))
  {
    hide Persistence.PersistJob, Persistence.ById, Persistence.DistinctIds;
    Persistence.ByIdHas(data, id);
    SavedIsLast(data, pj);
    hide Persistence.View;
    OneMoreSeen(s, known, id);
  }

  lemma SavedIsLast(data: seq<Persistence.PersistedJob>, pj: Persistence.PersistedJob)
    requires Persistence.DistinctIds(data) && forall i | 0 <= i < |data| :: data[i].id != pj.id
    ensures Persistence.DistinctIds(data + [pj])
    ensures Persistence.ById(data + [pj]) == Persistence.ById(data)[pj.id := pj]
  {
    assert (data + [pj])[..|data|] == data;
  }

  lemma OneMoreSeen(s: State, known: set<JobId>, id: JobId)
    requires id in s.jobs
    ensures Persistence.View(s.(known := known + {id})) ==
      Persistence.View(s.(known := known))[id := Persistence.PersistJob(id, s.jobs[id])]
  {
    hide Persistence.PersistJob;
  }

  lemma LoadMore(defs: PipelinesMap, data: seq<Persistence.PersistedJob>, i: nat)
    requires Persistence.DistinctIds(data) && i <= |data|
    ensures Persistence.LoadAll(defs, data[..0]) == Persistence.Empty(defs)
    ensures i < |data| ==>
      && data[i].id !in Persistence.LoadAll(defs, data[..i]).jobs
      && Persistence.LoadAll(defs, data[..i + 1]) == Persistence.Restore(Persistence.LoadAll(defs, data[..i]), data[i])
  {
    hide Persistence.LoadJob;
    if i < |data| {
      assert data[..i + 1][..i] == data[..i];
      Persistence.LoadedJobs(defs, data[..i]);
      Persistence.ByIdHas(data[..i], data[i].id);
    }
  }

  class PipelineRunner {
    var defs: PipelinesMap
    var jobsByID: map<JobId, PipelineJob>
    var jobsByPipeline: map<string, seq<PipelineJob>>
    var waitListByPipeline: map<string, seq<PipelineJob>>
    var isShuttingDown: bool
    var persistRequested: bool                  // a request in the capacity-1 channel
    ghost var all: map<JobId, PipelineJob>      // every job object there ever was
    ghost var tickets: nat
    ghost var spawned: seq<JobId>

    ghost predicate Known(j: PipelineJob)
      reads this
    {
      j.id in all && all[j.id] == j
    }

    ghost predicate AllKnown(list: seq<PipelineJob>)
      reads this
    {
      forall j | j in list :: Known(j)
    }

    ghost predicate Valid()
      reads this
    {
      && (forall id | id in all :: all[id].id == id)
      && (forall id | id in jobsByID :: id in all && jobsByID[id] == all[id])
      && (forall p | p in jobsByPipeline ::
            AllKnown(jobsByPipeline[p]) && forall j | j in jobsByPipeline[p] :: j.pipeline == p)
      && (forall p | p in waitListByPipeline :: AllKnown(waitListByPipeline[p]))
    }

    ghost function Table(): (r: JobTable)
      reads this, all.Values
      ensures r.Keys == all.Keys
    {
      map id | id in all :: all[id].Value()
    }

    lemma TableAt(j: PipelineJob)
      requires Known(j)
      ensures j.id in Table() && Table()[j.id] == j.Value() && Abs().jobs == Table()
    {
    }

    lemma WaitListIs(p: string)
      requires Valid()
      ensures AllKnown(JobsOf(waitListByPipeline, p)) && ListOf(Abs().wait, p) == Ids(JobsOf(waitListByPipeline, p))
    {
    }

    /** The runner as a value. */
    ghost function Abs(): State
      reads this, all.Values
    {
      State(defs, Table(), jobsByID.Keys, IdLists(jobsByPipeline), IdLists(waitListByPipeline), isShuttingDown,
            persistRequested, tickets, spawned)
    }

    lemma ByIdKnown(id: JobId)
      requires Valid() && id in jobsByID
      ensures Known(jobsByID[id]) && jobsByID[id].id == id && jobsByID[id] in all.Values
    {
    }

    lemma AbsHas()
      ensures Abs().defs == defs && Abs().jobs == Table() && Abs().tickets == tickets && Abs().known == jobsByID.Keys
    {
    }

    // -------------------------------------------------------------------------------------------
    // Reading
    // -------------------------------------------------------------------------------------------

    method RunningJobsCount(p: string) returns (running: nat)
      requires Valid()
      ensures running == RunningJobs(Abs(), p)
    {
      var jobs := JobsOf(jobsByPipeline, p);
      running := 0;
      for i := 0 to |jobs|
        invariant running == CountRunning(Table(), Ids(jobs)[..i])
      {
        assert Ids(jobs)[..i + 1][..i] == Ids(jobs)[..i];
        assert jobs[i] in jobs && Known(jobs[i]);
        if jobs[i].IsRunning() {
          running := running + 1;
        }
      }
      assert Ids(jobs)[..|jobs|] == Ids(jobs);
    }

    // -------------------------------------------------------------------------------------------
    // Single updates
    // -------------------------------------------------------------------------------------------

    method RequestPersist()
      requires Valid()
      modifies this`persistRequested
      ensures Valid() && all == old(all) && Abs() == old(Abs()).(token := true)
    {
      // A full channel is left as it is.
      if !persistRequested {
        persistRequested := true;
      }
    }

    /** One job object changed. */
    twostate lemma OneJobChanged(job: PipelineJob)
      requires old(Valid()) && old(Known(job)) && all == old(all)
      requires forall j | j in all.Values && j != job :: j.Value() == old(j.Value())
      ensures Table() == old(Table())[job.id := job.Value()]
    {
    }

    method SetWaitList(p: string, list: seq<PipelineJob>)
      requires Valid() && AllKnown(list)
      modifies this`waitListByPipeline
      ensures Valid() && all == old(all) && Abs() == old(Abs()).(wait := old(Abs()).wait[p := Ids(list)])
    {
      waitListByPipeline := waitListByPipeline[p := list];
      assert IdLists(waitListByPipeline) == IdLists(old(waitListByPipeline))[p := Ids(list)];
    }

    method MarkStarted(job: PipelineJob, now: int)
      requires Valid() && Known(job)
      modifies this`spawned, this`persistRequested, job
      ensures Valid() && all == old(all) && Abs() == Started(old(Abs()), job.id, now)
    {
      hide PipelineJob.Value, Table;
      TableAt(job);
      job.MarkStarted(now);
      OneJobChanged(job);
      RequestPersist();
      Spawn(job.id);
    }

    /** The go statement: one more goroutine. */
    ghost method Spawn(id: JobId)
      requires Valid()
      modifies this`spawned
      ensures Valid() && all == old(all) && Abs() == old(Abs()).(spawned := old(spawned) + [id])
    {
      hide PipelineJob.Value;
      spawned := spawned + [id];
    }

    method MarkUnbuildable(job: PipelineJob)
      requires Valid() && Known(job)
      modifies this`persistRequested, job
      ensures Valid() && all == old(all) && Abs() == Unbuildable(old(Abs()), job.id)
    {
      hide PipelineJob.Value;
      job.MarkUnbuildable();
      OneJobChanged(job);
      RequestPersist();
    }

    // -------------------------------------------------------------------------------------------
    // Starting jobs
    // -------------------------------------------------------------------------------------------

    // The persist request is deferred in the source; nothing reads the jobs before the mutex is free.
    method StartJob(job: PipelineJob, now: int)
      requires Valid() && Known(job) && job.start.None?
      modifies this, all.Values
      ensures Valid() && all == old(all)
      ensures Abs() == RunnerState.StartJob(old(Abs()), job.id, now)
      ensures LiveSet(Table()) <= old(LiveSet(Table()))
      decreases LiveSet(Table()), 0, 0
    {
      if job.canceled {
        return;
      }
      if !job.builds {
        assert job.id in LiveSet(Table());
        MarkUnbuildable(job);
        StartJobsOnWaitList(job.pipeline, now);
        return;
      }
      MarkStarted(job, now);
    }

    method StartJobsOnWaitList(p: string, now: int)
      requires Valid()
      modifies this, all.Values
      ensures Valid() && all == old(all)
      ensures Abs() == RunnerState.StartJobsOnWaitList(old(Abs()), p, now)
      decreases LiveSet(Table()), 2, 0
    {
      hide Valid, Abs, IdLists, PipelineJob.Value, Table, LiveSet, StartFrom, FreeSlots, RunningJobs, Live, Shrinks,
        RunnerState.CanBeStarted, RunnerState.StartJob, RunnerState.StartJobsOnWaitList;
      AbsHas();
      LoopBegins(Abs(), p, now);
      var concurrency := if p in defs then defs[p].concurrency else 0;
      var running := RunningJobsCount(p);
      var freeSlots := concurrency - running;
      SlotsAre(Abs(), p);
      if freeSlots <= 0 {
        return;
      }
      var waitList, newWaitList := JobsOf(waitListByPipeline, p), [];
      var i := 0;
      assert waitList[0..] == waitList;
      WaitListIs(p);
      while i < |waitList|
        invariant i <= |waitList|
        invariant Valid() && all == old(all) && AllKnown(waitList) && AllKnown(newWaitList)
        invariant LiveSet(Table()) <= old(LiveSet(Table()))
        invariant StartFrom(Abs(), p, Ids(waitList[i..]), freeSlots, Ids(newWaitList), now) ==
                  RunnerState.StartJobsOnWaitList(old(Abs()), p, now)
      {
        var job := waitList[i];
        assert job in waitList;
        TableAt(job);
        assert waitList[i..] == [job] + waitList[i + 1..];
        assert Ids(waitList[i..])[1..] == Ids(waitList[i + 1..]);
        if job.CanBeStarted() && freeSlots > 0 {
          LoopStarts(Abs(), p, Ids(waitList[i..]), freeSlots, Ids(newWaitList), now);
          freeSlots := freeSlots - 1;
          ghost var live := LiveSet(Table());
          StartJob(job, now);
          assert LiveSet(Table()) <= live;
        } else {
          LoopKeeps(Abs(), p, Ids(waitList[i..]), freeSlots, Ids(newWaitList), now);
          assert Ids(newWaitList + [job]) == Ids(newWaitList) + [job.id];
          newWaitList := newWaitList + [job];
        }
        i := i + 1;
      }
      assert Ids(waitList[i..]) == [];
      LoopEnds(Abs(), p, freeSlots, Ids(newWaitList), now);
      SetWaitList(p, newWaitList);
    }

    // -------------------------------------------------------------------------------------------
    // Scheduling
    // -------------------------------------------------------------------------------------------

    method Register(job: PipelineJob)
      requires Valid() && job.id !in all
      modifies this`jobsByID, this`all
      ensures Valid() && all == old(all)[job.id := job] && jobsByID == old(jobsByID)[job.id := job]
      ensures Table() == old(Table())[job.id := job.Value()]
    {
      hide PipelineJob.Value;
      jobsByID := jobsByID[job.id := job];
      all := all[job.id := job];
    }

    ghost method NextTicket()
      requires Valid()
      modifies this`tickets
      ensures Valid() && Table() == old(Table()) && tickets == old(tickets) + 1
    {
      tickets := tickets + 1;
    }

    method AddToPipeline(job: PipelineJob)
      requires Valid() && Known(job)
      modifies this`jobsByPipeline
      ensures Valid() && all == old(all)
      ensures var lists := old(IdLists(jobsByPipeline));
        IdLists(jobsByPipeline) == lists[job.pipeline := ListOf(lists, job.pipeline) + [job.id]]
      ensures Table() == old(Table())
    {
      var p := job.pipeline;
      var jobs := JobsOf(jobsByPipeline, p);
      assert Ids(jobs + [job]) == Ids(jobs) + [job.id];
      jobsByPipeline := jobsByPipeline[p := jobs + [job]];
    }

    method AddJob(job: PipelineJob, def: PipelineDef, ghost req: Request, now: int)
      requires Valid() && req.id !in all && job.id == req.id && job.pipeline == req.pipeline
      requires job.Value() == NewJob(def, req, tickets, now)
      modifies this
      ensures Valid() && all == old(all)[job.id := job] && defs == old(defs)
      ensures waitListByPipeline == old(waitListByPipeline)
      ensures Abs() == Created(old(Abs()), def, req, now)
    {
      hide PipelineJob.Value, NewJob, Table, IdLists;
      Register(job);
      NextTicket();
      AddToPipeline(job);
      assert jobsByID.Keys == old(jobsByID).Keys + {job.id};
      RequestPersist();
    }

    lemma SliceOf(p: string)
      requires Valid()
      ensures var list := JobsOf(waitListByPipeline, p);
        IdsDiffer(list) && forall j | j in list :: j in all.Values && j.id in Table() && Table()[j.id] == j.Value()
    {
    }

    // The jobs after one of a slice of them was displaced.
    lemma SliceDisplaced(list: seq<PipelineJob>, jobs: JobTable, victim: Option<JobId>)
      requires Valid() && AllKnown(list) && jobs.Keys == all.Keys
      requires forall j | j in list ::
        j.Value() == if victim == Some(j.id) then jobs[j.id].(canceled := true, timer := false) else jobs[j.id]
      requires forall id | id in all && all[id] !in list :: all[id].Value() == jobs[id]
      requires victim.Some? ==> victim.value in Ids(list)
      ensures Table() == Displaced(jobs, victim)
    {
      hide PipelineJob.Value;
      if victim.Some? {
        var k :| 0 <= k < |list| && Ids(list)[k] == victim.value;
        assert list[k] in list && all[victim.value] == list[k];
      }
      forall id | id in all ensures Table()[id] == Displaced(jobs, victim)[id] {
        assert all[id].id == id;
      }
    }

    /** The new wait list, with the jobs after the strategy has worked on the old one. */
    method ModifyWaitListOf(def: PipelineDef, job: PipelineJob)
      returns (r: seq<PipelineJob>, ghost victim: Option<JobId>)
      requires Valid() && Known(job) && LimitReady(def)
      modifies all.Values
      ensures Valid() && all == old(all) && AllKnown(r)
      ensures Queued(Ids(r), victim) ==
        ModifyWaitList(def, PartOf(old(Table())), ListOf(old(Abs()).wait, job.pipeline), job.id)
      ensures Table() == Displaced(old(Table()), victim)
    {
      hide PipelineJob.Value, ModifyWaitList, LimitReady, IdLists, Displaced;
      var p := job.pipeline;
      var list := JobsOf(waitListByPipeline, p);
      ghost var jobs, part := Table(), PartOf(Table());
      SliceOf(p);
      TableAt(job);
      WaitListIs(p);
      PartsAre(list, job);
      r, victim := ModifySlice(def, list, job, part);
      VictimListed(def, part, Ids(list), job.id);
      SliceDisplaced(list, jobs, victim);
    }

    method Enqueue(def: PipelineDef, job: PipelineJob)
      requires Valid() && Known(job) && job.pipeline in defs && defs[job.pipeline] == def && LimitReady(def)
      modifies this, all.Values
      ensures Valid() && all == old(all)
      ensures Abs() == RunnerState.Enqueue(old(Abs()), job.pipeline, job.id)
    {
      hide PipelineJob.Value, ModifyWaitList, LimitReady, Table, Valid, Displaced, IdLists;
      AbsHas();
      var r, victim := ModifyWaitListOf(def, job);
      SetWaitList(job.pipeline, r);
    }

    lemma PartsAre(list: seq<PipelineJob>, job: PipelineJob)
      requires AllKnown(list) && Known(job)
      ensures PartOf(Table())(job.id) == job.queuePartition
      ensures forall j | j in list :: PartOf(Table())(j.id) == j.queuePartition
    {
    }

    // The job is created, and started or queued. A queue strategy without its limit panics.
    method Accept(def: PipelineDef, req: Request, now: int) returns (job: PipelineJob, panics: bool)
      requires Valid() && req.id !in all && req.pipeline in defs && defs[req.pipeline] == def && Accepted(def)
      requires Refusal(Abs(), req.pipeline).None?
      modifies this, all.Values
      ensures Valid() && fresh(job) && all == old(all)[req.id := job]
      ensures Abs() == RunnerState.ScheduleAsync(old(Abs()), req, now) && panics == Panics(old(Abs()), req, now)
    {
      hide PipelineJob.Value, Table, NewJob, Valid, IdLists, Refusal, RunnerState.ScheduleAsync,
        RunnerState.StartJob, RunnerState.Enqueue, RunningJobs, Created, LimitReady, Displaced, Abs, Panics;
      AbsHas();
      ScheduleGoes(Abs(), req, now);
      LimitMissing(Abs(), req.pipeline);
      panics := false;
      job := new PipelineJob(def, req, tickets, now);
      AddJob(job, def, req, now);
      if def.startDelay <= 0 {
        var running := RunningJobsCount(req.pipeline);
        if running < def.concurrency {
          StartJob(job, now);
          return;
        }
      }
      if def.queueStrategy.Replace? && def.queueLimit.None? {
        panics := true;
        return;
      }
      Enqueue(def, job);
    }

    method CheckAccept(pipeline: string) returns (err: Option<ScheduleError>)
      requires Valid()
      ensures err == Refusal(Abs(), pipeline) && (err.None? ==> pipeline in defs)
    {
      hide PipelineJob.Value, Table, Valid, IdLists;
      WaitListIs(pipeline);
      if isShuttingDown {
        return Some(ShuttingDown);
      }
      if pipeline !in defs {
        return Some(NotDefined);
      }
      return CanAcceptJob(defs[pipeline], Ids(JobsOf(waitListByPipeline, pipeline)));
    }

    method ScheduleAsync(pipeline: string, partition: string, variables: map<string, string>, user: string,
                         builds: bool, id: JobId, now: int)
      returns (r: Answer, ghost req: Request)
      requires Valid() && id !in all && (pipeline in defs ==> Accepted(defs[pipeline]))
      modifies this, all.Values
      ensures Valid() && req == Request(id, pipeline, partition, variables, user, builds, req.tasks)
      ensures Abs() == RunnerState.ScheduleAsync(old(Abs()), req, now)
      ensures r.Panicked? <==> Panics(old(Abs()), req, now)
      ensures if r.Refused? then Refusal(old(Abs()), pipeline) == Some(r.error) && all == old(all)
        else
          && Refusal(old(Abs()), pipeline).None? && pipeline in old(defs)
          && fresh(r.job) && all == old(all)[id := r.job]
          && TaskOrder.TaskRecords(old(defs)[pipeline].tasks, req.tasks) && TaskOrder.IsTaskOrder(req.tasks, req.tasks)
    {
      hide PipelineJob.Value, Table, Valid, Abs, TaskOrder.TaskRecords, TaskOrder.IsTaskOrder, Refusal, Panics,
        RunnerState.ScheduleAsync, RunnerState.StartJob, RunnerState.Enqueue, RunningJobs, Created, LimitReady;
      req := Request(id, pipeline, partition, variables, user, builds, []);
      AbsHas();
      ScheduleGoes(Abs(), req, now);
      var err := CheckAccept(pipeline);
      if err.Some? {
        NoPanic(Abs(), req, now);
        return Refused(err.value), req;
      }
      var def := defs[pipeline];
      var tasks := TaskOrder.BuildJobTasks(def.tasks);
      var request := Request(id, pipeline, partition, variables, user, builds, tasks);
      req := request;
      var job, panics := Accept(def, request, now);
      if panics {
        return Panicked(job), req;
      }
      return Scheduled(job), req;
    }

    // -------------------------------------------------------------------------------------------
    // The other operations
    // -------------------------------------------------------------------------------------------

    method JobCompleted(job: PipelineJob, err: Option<string>, ctxCanceled: bool, now: int)
      requires Valid() && Known(job) && job.sched
      modifies this, all.Values
      ensures Valid() && all == old(all)
      ensures Abs() == RunnerState.JobCompleted(old(Abs()), job.id, err, ctxCanceled, now)
    {
      hide PipelineJob.Value, RunnerState.StartJobsOnWaitList;
      JobIs(job);
      job.MarkCompleted(err, ctxCanceled, now);
      OneJobChanged(job);
      StartJobsOnWaitList(job.pipeline, now);
      RequestPersist();
    }

    method CancelJobInternal(id: JobId) returns (err: Option<CancelError>)
      requires Valid()
      modifies this`persistRequested, all.Values
      ensures Valid() && all == old(all) && err == CancelRefusal(old(Abs()), id)
      ensures Abs() == RunnerState.CancelJob(old(Abs()), id)
    {
      if id !in jobsByID {
        return Some(JobNotFound);
      }
      var job := jobsByID[id];
      if job.canceled {
        return None;
      }
      if job.completed {
        return Some(AlreadyCompleted);
      }
      if job.start.None? {
        CancelWaiting(job);
        return None;
      }
      if !job.sched {
        return None;
      }
      // The scheduler of the job is canceled in the background.
      return None;
    }

    method CancelWaiting(job: PipelineJob)
      requires Valid() && Known(job)
      modifies this`persistRequested, job
      ensures Valid() && all == old(all)
      ensures Abs() == old(Abs()).(jobs := old(Table())[job.id := MarkAsCanceled(old(job.Value()))], token := true)
    {
      hide PipelineJob.Value, MarkAsCanceled;
      job.MarkAsCanceled();
      OneJobChanged(job);
      RequestPersist();
    }

    method CancelJob(id: JobId) returns (err: Option<CancelError>)
      requires Valid()
      modifies this`persistRequested, all.Values
      ensures Valid() && all == old(all) && err == CancelRefusal(old(Abs()), id)
      ensures Abs() == RunnerState.CancelJob(old(Abs()), id)
    {
      err := CancelJobInternal(id);
    }

    method StartDelayedJob(id: JobId, now: int)
      requires Valid()
      modifies this, all.Values
      ensures Valid() && all == old(all)
      ensures Abs() == RunnerState.StartDelayedJob(old(Abs()), id, now)
    {
      hide PipelineJob.Value, RunnerState.StartJobsOnWaitList;
      if id !in jobsByID {
        return;
      }
      var job := jobsByID[id];
      JobIs(job);
      if job.canceled {
        return;
      }
      job.StopTimer();
      OneJobChanged(job);
      StartJobsOnWaitList(job.pipeline, now);
    }

    lemma JobIs(job: PipelineJob)
      requires Known(job)
      ensures Table()[job.id] == job.Value() && Table()[job.id].canceled == job.canceled
      ensures Table()[job.id].pipeline == job.pipeline
      ensures Table()[job.id].tasks == job.tasks && Table()[job.id].created == job.created
    {
    }

    method ReplaceDefinitions(defs: PipelinesMap)
      requires Valid()
      modifies this`defs
      ensures Valid() && all == old(all) && Abs() == RunnerState.ReplaceDefinitions(old(Abs()), defs)
    {
      this.defs := defs;
    }

    method ReportTask(j: PipelineJob, k: nat, name: string, r: TaskReport)
      requires Valid() && Known(j) && ByName(j.tasks, name) == Some(k) && k < |j.tasks|
      modifies j
      ensures Valid() && all == old(all)
      ensures var j1 := ReportedJob(old(j.Value()), name, r);
        Abs() == old(Abs()).(jobs := old(Table())[j.id := j1]) && k < |j.tasks| &&
        j.tasks[k].errored == TaskErrored(j1, name)
    {
      hide PipelineJob.Value, ReportedJob, ByName, TaskErrored;
      j.ReportTask(k, name, r);
      OneJobChanged(j);
    }

    method HandleTaskChange(id: JobId, name: string, r: TaskReport)
      requires Valid()
      modifies this`persistRequested, all.Values
      ensures Valid() && all == old(all)
      ensures Abs() == RunnerState.HandleTaskChange(old(Abs()), id, name, r)
    {
      hide PipelineJob.Value, ReportedJob, ByName, TaskErrored, RunnerState.CancelJob, CancelRefusal,
        RunnerState.HandleTaskChange,
        Abs, Table, Valid;
      AbsHas();
      TaskChangeIs(Abs(), id, name, r);
      if id !in jobsByID {
        return;
      }
      var j := jobsByID[id];
      ByIdKnown(id);
      JobIs(j);
      var k := j.ByName(name);
      if k.None? {
        return;
      }
      ReportTask(j, k.value, name, r);
      if j.tasks[k.value].errored {
        AbsHas();
        if j.pipeline in defs && !defs[j.pipeline].continueRunningTasksAfterFailure {
          var _ := CancelJobInternal(id);
        }
      }
      RequestPersist();
    }

    method HandleStageChange(id: JobId, name: string, status: TaskStatus)
      requires Valid()
      modifies this`persistRequested, all.Values
      ensures Valid() && all == old(all)
      ensures Abs() == RunnerState.HandleStageChange(old(Abs()), id, name, status)
    {
      hide PipelineJob.Value, SetTask, ByName;
      if id !in jobsByID {
        return;
      }
      var j := jobsByID[id];
      JobIs(j);
      var k := j.ByName(name);
      if k.None? {
        return;
      }
      j.SetTaskStatus(k.value, name, status);
      OneJobChanged(j);
      RequestPersist();
    }

    // -------------------------------------------------------------------------------------------
    // Shutdown
    // -------------------------------------------------------------------------------------------

    method CancelAll(jobs: seq<PipelineJob>, ghost table: JobTable, ghost ids: set<JobId>)
      requires Valid() && AllKnown(jobs) && Table() == WithCanceled(table, ids)
      modifies all.Values
      ensures Valid() && Table() == WithCanceled(table, ids + Elems(Ids(jobs)))
    {
      hide PipelineJob.Value, WithCanceled, Table, Valid;
      assert Ids(jobs)[..0] == [] && ids + Elems([]) == ids;
      for i := 0 to |jobs|
        invariant Valid() && Table() == WithCanceled(table, ids + Elems(Ids(jobs)[..i]))
      {
        assert jobs[i] in jobs && Known(jobs[i]);
        JobIs(jobs[i]);
        CancelOne(jobs[i]);
        OneMoreCanceled(table, ids + Elems(Ids(jobs)[..i]), jobs[i].id);
        assert Ids(jobs)[..i + 1] == Ids(jobs)[..i] + [jobs[i].id];
        assert ids + Elems(Ids(jobs)[..i + 1]) == ids + Elems(Ids(jobs)[..i]) + {jobs[i].id};
      }
      assert Ids(jobs)[..|jobs|] == Ids(jobs);
    }

    method CancelOne(job: PipelineJob)
      requires Valid() && Known(job)
      modifies job
      ensures Valid() && Table() == old(Table())[job.id := old(job.Value()).(canceled := true)]
    {
      hide PipelineJob.Value;
      job.Cancel();
      OneJobChanged(job);
    }

    method RaiseFlag()
      requires Valid()
      modifies this`isShuttingDown
      ensures Valid() && isShuttingDown && all == old(all) && Table() == old(Table())
    {
      isShuttingDown := true;
    }

    /** The critical section of Shutdown. */
    method BeginShutdown()
      requires Valid()
      modifies this`isShuttingDown, this`waitListByPipeline, all.Values
      ensures Valid() && all == old(all) && Abs() == RunnerState.Shutdown(old(Abs()))
    {
      hide PipelineJob.Value, Table, Valid, WithCanceled, DoneLists, RunnerState.Shutdown;
      RaiseFlag();
      ghost var table, lists, ids := Table(), waitListByPipeline, {};
      NoneCanceled(table);
      NoneDone(lists);
      while waitListByPipeline != map[]
        invariant Valid() && all == old(all) && Table() == WithCanceled(table, ids)
        invariant DoneLists(lists, waitListByPipeline, ids)
        invariant isShuttingDown
        decreases |waitListByPipeline.Keys|
      {
        var pipelineName :| pipelineName in waitListByPipeline;
        OneMoreList(lists, waitListByPipeline, ids, pipelineName);
        WaitListIs(pipelineName);
        CancelAll(waitListByPipeline[pipelineName], table, ids);
        ids := ids + Elems(Ids(waitListByPipeline[pipelineName]));
        DropList(pipelineName);
      }
      AllListsDone(old(Abs()), lists, ids);
    }

    method DropList(p: string)
      requires Valid() && p in waitListByPipeline
      modifies this`waitListByPipeline
      ensures Valid() && all == old(all) && Table() == old(Table())
      ensures waitListByPipeline == old(waitListByPipeline) - {p}
      ensures |waitListByPipeline.Keys| < |old(waitListByPipeline).Keys|
    {
      ghost var before := waitListByPipeline.Keys;
      waitListByPipeline := waitListByPipeline - {p};
      assert waitListByPipeline.Keys == before - {p};
    }

    /** One round of the polling loop of Shutdown. */
    method HasRunningPipelines() returns (running: bool)
      requires Valid()
      ensures running <==> exists p | p in Abs().byPipeline :: RunningJobs(Abs(), p) > 0
    {
      running := false;
      var todo := jobsByPipeline.Keys;
      while todo != {}
        invariant todo <= jobsByPipeline.Keys
        invariant running <==> exists p | p in jobsByPipeline :: p !in todo && RunningJobs(Abs(), p) > 0
      {
        var p :| p in todo;
        var n := RunningJobsCount(p);
        if n > 0 {
          running := true;
        }
        todo := todo - {p};
      }
    }

    // -------------------------------------------------------------------------------------------
    // Saving and loading
    // -------------------------------------------------------------------------------------------

    method Remove(p: string, job: PipelineJob)
      requires Valid() && p in jobsByPipeline
      modifies this`jobsByID, this`jobsByPipeline
      ensures Valid() && all == old(all) && Table() == old(Table())
      ensures jobsByID.Keys == old(jobsByID).Keys - {job.id}
      ensures jobsByPipeline.Keys == old(jobsByPipeline).Keys
      ensures Ids(jobsByPipeline[p]) == RemoveJob(Ids(old(jobsByPipeline)[p]), job.id)
      ensures forall q | q in jobsByPipeline && q != p :: jobsByPipeline[q] == old(jobsByPipeline)[q]
    {
      hide PipelineJob.Value, RemoveJob;
      jobsByID := jobsByID - {job.id};
      var rest := RemoveJobFromList(jobsByPipeline[p], job);
      jobsByPipeline := jobsByPipeline[p := rest];
    }

    lemma RankedIs(list: seq<PipelineJob>, sorted: seq<PipelineJob>)
      requires AllKnown(list) && Rearranged(list, sorted) && NewestFirst(sorted)
      ensures IsRanking(Table(), Ids(list), Ids(sorted)) && AllKnown(sorted) && forall j | j in sorted :: j in list
    {
      hide PipelineJob.Value;
      forall j | j in sorted ensures j in list {
        assert j in multiset(sorted) && j in multiset(list);
      }
      forall k | 0 <= k < |list| ensures Ids(list)[k] in Table() {
        assert list[k] in list && Known(list[k]);
      }
      forall k | 0 <= k < |sorted|
        ensures Ids(sorted)[k] in Table() && Table()[Ids(sorted)[k]].created == sorted[k].created
      {
        assert sorted[k] in sorted && Known(sorted[k]);
        JobIs(sorted[k]);
      }
    }

    /** A sorted copy of the list. */
    method Ranked(p: string) returns (sorted: seq<PipelineJob>)
      requires Valid() && p in jobsByPipeline
      ensures AllKnown(sorted) && IsRanking(Table(), Ids(jobsByPipeline[p]), Ids(sorted))
    {
      hide PipelineJob.Value, Table, IsRanking, Rearranged;
      var list := jobsByPipeline[p];
      var copied := new PipelineJob[|list|](i requires 0 <= i < |list| => list[i]);
      assert copied[..] == list;
      SortByCreationTime(copied);
      sorted := copied[..];
      RankedIs(list, sorted);
    }

    /** The sweep of one pipeline, over a sorted copy of its list while the list shrinks. */
    method SweepPipeline(p: string, now: int) returns (ghost ranked: seq<JobId>)
      requires Valid() && p in jobsByPipeline
      modifies this`jobsByID, this`jobsByPipeline
      ensures Valid() && all == old(all) && Table() == old(Table())
      ensures IsRanking(Table(), Ids(old(jobsByPipeline)[p]), ranked)
      ensures jobsByID.Keys == old(jobsByID).Keys - Elems(ToRemove(defs, Table(), ranked, now))
      ensures jobsByPipeline.Keys == old(jobsByPipeline).Keys
      ensures Ids(jobsByPipeline[p]) == SweepList(defs, Table(), Ids(old(jobsByPipeline)[p]), ranked, now)
      ensures forall q | q in jobsByPipeline && q != p :: jobsByPipeline[q] == old(jobsByPipeline)[q]
    {
      hide PipelineJob.Value, Table, Valid, Retention.ShouldBeRemoved, IsRanking, ToRemove, RemoveAll;
      NothingRemoved(defs, Table(), Ids(jobsByPipeline[p]), now);
      ghost var list := jobsByPipeline[p];
      var sorted := Ranked(p);
      ranked := Ids(sorted);
      assert ranked[..0] == [];
      ghost var gone := [];
      for i := 0 to |sorted|
        invariant Valid() && all == old(all) && Table() == old(Table())
        invariant gone == ToRemove(defs, Table(), ranked[..i], now)
        invariant jobsByID.Keys == old(jobsByID).Keys - Elems(gone)
        invariant jobsByPipeline.Keys == old(jobsByPipeline).Keys
        invariant Ids(jobsByPipeline[p]) == RemoveAll(Ids(list), gone)
        invariant forall q | q in jobsByPipeline && q != p :: jobsByPipeline[q] == old(jobsByPipeline)[q]
      {
        var job := sorted[i];
        assert job in sorted;
        TableAt(job);
        ToRemoveMore(defs, Table(), ranked, i, now);
        var remove := job.ShouldBeRemoved(defs, i, now);
        if remove {
          Remove(p, job);
          RemoveAllMore(Ids(list), gone, job.id);
          assert Elems(gone + [job.id]) == Elems(gone) + {job.id};
          gone := gone + [job.id];
        }
      }
      assert ranked[..|sorted|] == ranked;
    }

    /** The retention sweep of SaveToStore. */
    method Sweep(now: int) returns (ghost rankings: map<string, seq<JobId>>)
      requires Valid()
      modifies this`jobsByID, this`jobsByPipeline
      ensures Valid() && all == old(all) && RankingsFor(old(Abs()), rankings)
      ensures Abs() == Retention.Sweep(old(Abs()), rankings, now)
    {
      hide PipelineJob.Value, Table, Valid, IsRanking, SweepList, ToRemove;
      rankings := map[];
      var todo := jobsByPipeline.Keys;
      ghost var lists := jobsByPipeline;
      while todo != {}
        invariant Valid() && all == old(all) && Table() == old(Table())
        invariant todo <= lists.Keys == jobsByPipeline.Keys && rankings.Keys == lists.Keys - todo
        invariant forall p | p in todo :: jobsByPipeline[p] == lists[p]
        invariant forall p | p in rankings :: IsRanking(Table(), Ids(lists[p]), rankings[p])
        invariant forall p | p in rankings ::
          Ids(jobsByPipeline[p]) == SweepList(defs, Table(), Ids(lists[p]), rankings[p], now)
        invariant forall id :: id in jobsByID <==>
          id in old(jobsByID) && !exists p | p in rankings :: id in ToRemove(defs, Table(), rankings[p], now)
      {
        var p :| p in todo;
        ghost var known := jobsByID.Keys;
        ghost var ranked := SweepPipeline(p, now);
        MoreRemoved(old(jobsByID).Keys, known, jobsByID.Keys, defs, Table(), rankings, p, ranked, now);
        rankings := rankings[p := ranked];
        todo := todo - {p};
      }
      SweepIs(old(Abs()), Abs(), rankings, now);
    }

    method Snapshot() returns (data: seq<Persistence.PersistedJob>)
      requires Valid()
      ensures Persistence.DistinctIds(data) && Persistence.ById(data) == Persistence.View(Abs())
    {
      hide PipelineJob.Value, Table, Abs, Valid, Persistence.PersistJob, Persistence.ById, Persistence.View,
        Persistence.DistinctIds;
      AbsHas();
      NothingSaved(Abs());
      data := [];
      var todo := jobsByID.Keys;
      assert jobsByID.Keys - todo == {};
      while todo != {}
        invariant todo <= jobsByID.Keys
        invariant Persistence.DistinctIds(data)
        invariant Persistence.ById(data) == Persistence.View(Abs().(known := jobsByID.Keys - todo))
      {
        var id :| id in todo;
        ByIdKnown(id);
        TableAt(jobsByID[id]);
        var pj := jobsByID[id].Persisted();
        ghost var done := jobsByID.Keys - todo;
        OneMoreSaved(Abs(), done, id, data, pj);
        data := data + [pj];
        todo := todo - {id};
        assert jobsByID.Keys - todo == done + {id};
      }
      assert jobsByID.Keys - todo == jobsByID.Keys;
      assert Abs().(known := jobsByID.Keys) == Abs();
    }

    /** SaveToStore: the sweep, then the records of what is left. */
    method SaveToStore(now: int) returns (data: seq<Persistence.PersistedJob>, ghost rankings: map<string, seq<JobId>>)
      requires Valid()
      modifies this`jobsByID, this`jobsByPipeline
      ensures Valid() && all == old(all) && RankingsFor(old(Abs()), rankings)
      ensures Abs() == Retention.Sweep(old(Abs()), rankings, now)
      ensures Persistence.DistinctIds(data) && Persistence.ById(data) == Persistence.View(Abs())
    {
      rankings := Sweep(now);
      data := Snapshot();
    }

    /** NewPipelineRunner with the jobs of the store. */
    constructor (defs: PipelinesMap, data: seq<Persistence.PersistedJob>)
      requires Persistence.DistinctIds(data)
      ensures Valid() && (forall id | id in all :: fresh(all[id])) && Abs() == Persistence.LoadAll(defs, data)
    {
      this.defs := defs;
      jobsByID, jobsByPipeline, waitListByPipeline := map[], map[], map[];
      isShuttingDown, persistRequested := false, false;
      all, tickets, spawned := map[], 0, [];
      new;
      InitialLoadFromStore(data);
    }

    method InitialLoadFromStore(data: seq<Persistence.PersistedJob>)
      requires Valid() && all == map[] && Abs() == Persistence.Empty(defs) && Persistence.DistinctIds(data)
      modifies this`jobsByID, this`all, this`jobsByPipeline
      ensures Valid() && (forall id | id in all :: fresh(all[id])) && Abs() == Persistence.LoadAll(defs, data)
    {
      hide PipelineJob.Value, Table, Valid, Abs, Persistence.LoadJob, Persistence.LoadAll, Persistence.Restore;
      LoadMore(defs, data, 0);
      for i := 0 to |data|
        invariant Valid() && forall id | id in all :: fresh(all[id])
        invariant Abs() == Persistence.LoadAll(defs, data[..i])
      {
        LoadMore(defs, data, i);
        AbsHas();
        var job := new PipelineJob.FromStore(data[i]);
        Load(job, data[i]);
      }
      assert data[..|data|] == data;
    }

    method Load(job: PipelineJob, pj: Persistence.PersistedJob)
      requires Valid() && job.id !in all && job.id == pj.id && job.pipeline == pj.pipeline
      requires job.Value() == Persistence.LoadJob(pj)
      modifies this`jobsByID, this`all, this`jobsByPipeline
      ensures Valid() && all == old(all)[job.id := job]
      ensures Abs() == Persistence.Restore(old(Abs()), pj)
    {
      hide PipelineJob.Value, Persistence.LoadJob, Table, IdLists;
      Register(job);
      AddToPipeline(job);
      assert jobsByID.Keys == old(jobsByID).Keys + {job.id};
    }
  }
}
