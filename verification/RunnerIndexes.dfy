// What ties the indexes, the wait lists and the jobs together after any sequence of operations, whatever can
// be built and whichever definitions come and go.
module RunnerIndexes {
  import opened Basics
  import opened Definitions
  import opened Jobs
  import opened WaitList
  import opened RunnerState
  import opened Dispatch
  import opened Retention
  import opened RunnerEvents
  import opened RunnerLifecycle

  /** Live jobs, apart from those in `skip`, are on the wait list of their pipeline. */
  ghost predicate Queued(s: State, p: string, skip: set<JobId>) {
    forall id | id in s.jobs && s.jobs[id].pipeline == p && Live(s.jobs[id]) ::
      s.jobs[id].ticket >= 0 && !s.jobs[id].completed && (id in skip || id in ListOf(s.wait, p))
  }

  ghost predicate Tidy(s: State, p: string, skip: set<JobId>) {
    Indexed(s, p) && Ordered(s, p) && Queued(s, p, skip)
  }

  ghost predicate ConsistentBut(s: State, skip: set<JobId>) {
    Recorded(s) && forall p :: Tidy(s, p, skip)
  }

  ghost predicate Consistent(s: State) {
    ConsistentBut(s, {})
  }

  lemma ConsistentTidy(s: State, skip: set<JobId>, p: string)
    requires ConsistentBut(s, skip)
    ensures Recorded(s) && Tidy(s, p, skip) && Own(s, p, ListOf(s.wait, p)) && NoDup(ListOf(s.wait, p))
  {
    assert Tidy(s, p, skip);
  }

  lemma ConsistentOwn(s: State)
    requires Consistent(s)
    ensures ListsOwn(s)
  {
    forall p ensures Own(s, p, ListOf(s.wait, p)) {
      ConsistentTidy(s, {}, p);
    }
  }

  // ---------------------------------------------------------------------------------------------
  // Changing jobs without starting any
  // ---------------------------------------------------------------------------------------------

  /** The job keeps its place in the indexes. */
  ghost predicate Stays(j: Job, j': Job) {
    && j'.pipeline == j.pipeline && j'.ticket == j.ticket && (j'.start.Some? <==> j.start.Some?)
    && (Live(j') ==> Live(j) && j'.completed == j.completed) && (Staffed(j) ==> Staffed(j'))
  }

  /** No job is started, the lists stay, and jobsByID loses nothing. */
  ghost predicate OnlyEdits(s: State, s': State) {
    && s'.jobs.Keys == s.jobs.Keys && (forall id | id in s.jobs :: Stays(s.jobs[id], s'.jobs[id]))
    && s'.known == s.known && s'.byPipeline == s.byPipeline && s'.wait == s.wait
    && s'.tickets == s.tickets && s'.spawned == s.spawned
  }

  lemma EditsKeep(s: State, s': State)
    requires Consistent(s) && OnlyEdits(s, s')
    ensures Consistent(s')
  {
    hide Tidy;
    forall id | id in s.jobs ensures Stays(s.jobs[id], s'.jobs[id]) {
    }
    forall p ensures Tidy(s', p, {}) {
      assert Tidy(s, p, {});
      EditsKeepTidy(s, s', p);
    }
  }

  lemma EditsKeepTidy(s: State, s': State, p: string)
    requires Tidy(s, p, {}) && OnlyEdits(s, s')
    ensures Tidy(s', p, {})
  {
    forall id | id in s.jobs ensures Stays(s.jobs[id], s'.jobs[id]) {
    }
  }

  lemma OneEdit(s: State, id: JobId, j: Job, token: bool)
    requires id in s.jobs && Stays(s.jobs[id], j)
    ensures OnlyEdits(s, s.(jobs := s.jobs[id := j], token := token))
  {
  }

  // ---------------------------------------------------------------------------------------------
  // Starts
  // ---------------------------------------------------------------------------------------------

  lemma {:induction false} SubseqPairs(s: seq<JobId>, t: seq<JobId>, key: JobId -> int)
    requires Subseq(s, t) && Increasing(t, key)
    ensures Increasing(s, key)
    decreases |t|
  {
    if s != [] {
      assert t == [t[0]] + t[1..] && s == [s[0]] + s[1..];
      assert Increasing(t[1..], key) by {
        forall i, j | 0 <= i < j < |t| - 1 ensures key(t[1..][i]) < key(t[1..][j]) {
          assert t[1..][i] == t[i + 1] && t[1..][j] == t[j + 1];
        }
      }
      if s[0] == t[0] && Subseq(s[1..], t[1..]) {
        SubseqPairs(s[1..], t[1..], key);
        SubseqElems(s[1..], t[1..]);
        forall j | 0 < j < |s| ensures key(s[0]) < key(s[j]) {
          assert s[j] == s[1..][j - 1] && s[j] in t[1..];
          var k :| 0 <= k < |t| - 1 && t[1..][k] == s[j];
          assert t[k + 1] == s[j];
        }
      } else {
        SubseqPairs(s, t[1..], key);
      }
    }
  }

  function TicketOf(jobs: JobTable): JobId -> int {
    (id: JobId) => if id in jobs then jobs[id].ticket else FROM_STORE
  }

  lemma OrderedIs(s: State, p: string)
    ensures Ordered(s, p) <==>
      && Increasing(ListOf(s.wait, p), TicketOf(s.jobs))
      && forall id | id in ListOf(s.wait, p) :: id in s.jobs && s.jobs[id].pipeline == p && s.jobs[id].ticket >= 0
  {
    var w, key := ListOf(s.wait, p), TicketOf(s.jobs);
    assert forall i | 0 <= i < |w| :: w[i] in w;
  }

  lemma MovesKeepOrder(s: State, s': State, p: string, q: string, now: int)
    requires Moves(s, s', p, now) && KeepsLive(s, s', p) && Ordered(s, q)
    ensures Ordered(s', q)
  {
    hide Subseq, StartsExactly;
    forall id | id in s.jobs
      ensures s'.jobs[id].pipeline == s.jobs[id].pipeline && s'.jobs[id].ticket == s.jobs[id].ticket
    {
      assert JobMove(s.jobs[id], s'.jobs[id], now);
    }
    if p == q {
      OrderedIs(s, p);
      OrderedIs(s', p);
      SubseqElems(ListOf(s'.wait, p), ListOf(s.wait, p));
      SubseqPairs(ListOf(s'.wait, p), ListOf(s.wait, p), TicketOf(s.jobs));
    }
  }

  lemma MoveKeepsPlace(j: Job, j': Job, now: int)
    requires JobMove(j, j', now)
    ensures j'.pipeline == j.pipeline && (Live(j') ==> j' == j)
  {
  }

  lemma MovesKeepTidy(s: State, s': State, p: string, q: string, now: int, skip: set<JobId>)
    requires Moves(s, s', p, now) && KeepsLive(s, s', p) && Tidy(s, q, skip)
    ensures Tidy(s', q, skip)
  {
    hide Subseq, StartsExactly, Ordered, JobMove;
    MovesKeepOrder(s, s', p, q, now);
    forall id | id in s.jobs
      ensures s'.jobs[id].pipeline == s.jobs[id].pipeline && (Live(s'.jobs[id]) ==> s'.jobs[id] == s.jobs[id])
    {
      MoveKeepsPlace(s.jobs[id], s'.jobs[id], now);
    }
  }

  // Only live jobs are started, so each goroutine is the first of its job.
  lemma MovesKeepRecords(s: State, s': State, p: string, now: int, skip: set<JobId>)
    requires ConsistentBut(s, skip) && Moves(s, s', p, now)
    ensures Recorded(s')
  {
    hide Tidy;
    var new_ := s'.spawned[|s.spawned|..];
    assert s'.spawned == s.spawned + new_;
    forall id | id in s.jobs
      ensures JobMove(s.jobs[id], s'.jobs[id], now)
      ensures Live(s.jobs[id]) ==> s.jobs[id].ticket >= 0 && !s.jobs[id].completed
    {
      assert Tidy(s, s.jobs[id].pipeline, skip);
      LiveTickets(s, skip, id);
    }
    NoDupConcat(s.spawned, new_);
  }

  lemma LiveTickets(s: State, skip: set<JobId>, id: JobId)
    requires id in s.jobs && Tidy(s, s.jobs[id].pipeline, skip)
    ensures Live(s.jobs[id]) ==> s.jobs[id].ticket >= 0 && !s.jobs[id].completed
  {
  }

  lemma MovesKeepConsistent(s: State, s': State, p: string, now: int, skip: set<JobId>)
    requires ConsistentBut(s, skip) && Moves(s, s', p, now) && KeepsLive(s, s', p)
    ensures ConsistentBut(s', skip)
  {
    hide Moves, KeepsLive, Tidy, Recorded;
    MovesKeepRecords(s, s', p, now, skip);
    forall q ensures Tidy(s', q, skip) {
      assert Tidy(s, q, skip);
      MovesKeepTidy(s, s', p, q, now, skip);
    }
  }

  lemma DispatchKeeps(s: State, p: string, now: int)
    requires Consistent(s)
    ensures Consistent(StartJobsOnWaitList(s, p, now))
  {
    hide StartJobsOnWaitList, Moves, KeepsLive, ConsistentBut;
    ConsistentTidy(s, {}, p);
    WaitListMoves(s, p, now);
    MovesKeepConsistent(s, StartJobsOnWaitList(s, p, now), p, now, {});
  }

  // ---------------------------------------------------------------------------------------------
  // Scheduling
  // ---------------------------------------------------------------------------------------------

  lemma ModifyIs(def: PipelineDef, part: JobId -> string, list: seq<JobId>, id: JobId, key: JobId -> int)
    requires LimitReady(def) && NoDup(list) && Increasing(list, key)
    requires id !in list && forall x | x in list :: key(x) < key(id)
    ensures var q := ModifyWaitList(def, part, list, id);
      && Increasing(q.list, key)
      && (forall x :: x in q.list <==> x == id || (x in list && q.victim != Some(x)))
      && (q.victim.Some? ==> q.victim.value in list && !def.queueStrategy.Append?)
  {
    hide Filter;
    var q := ModifyWaitList(def, part, list, id);
    if def.queueStrategy.Replace? && |list| >= def.queueLimit.value {
      var n := |list| - 1;
      assert list == list[..n] + [list[n]];
    } else if def.queueStrategy.PartitionedReplace? {
      var mine := Project(part, list, part(id));
      if |mine| >= def.queuePartitionLimit.value {
        var victim := mine[|mine| - 1];
        FilterElems(list, InPartition(part, part(id)));
        assert victim in mine;
        FilterElems(list, Other(victim));
        FilterIncreasing(list, Other(victim), key);
      }
    }
  }

  /** A request that its pipeline takes. */
  ghost predicate Takes(s: State, req: Request) {
    req.id !in s.jobs && Refusal(s, req.pipeline).None?
  }

  /** The state with the new job in its indexes, neither started nor queued. */
  ghost function Fresh(s: State, req: Request, now: int): State
    requires req.pipeline in s.defs
  {
    Created(s, s.defs[req.pipeline], req, now)
  }

  lemma VictimListed(def: PipelineDef, part: JobId -> string, list: seq<JobId>, id: JobId)
    requires LimitReady(def)
    ensures var q := ModifyWaitList(def, part, list, id); q.victim.Some? ==> q.victim.value in list
  {
    hide Filter;
    if def.queueStrategy.PartitionedReplace? {
      FilterElems(list, InPartition(part, part(id)));
      var mine := Project(part, list, part(id));
      assert mine != [] ==> mine[|mine| - 1] in mine;
    }
  }

  lemma CreatedIndexed(s: State, req: Request, now: int, q: string)
    requires req.pipeline in s.defs && req.id !in s.jobs && Indexed(s, q) && s.known <= s.jobs.Keys
    ensures Indexed(Created(s, s.defs[req.pipeline], req, now), q)
  {
    if q == req.pipeline {
      NoDupConcat(ListOf(s.byPipeline, q), [req.id]);
    }
  }

  lemma FreshSlots(s: State, req: Request, now: int)
    requires req.pipeline in s.defs && req.id !in s.jobs && Indexed(s, req.pipeline)
    ensures FreeSlots(Created(s, s.defs[req.pipeline], req, now), req.pipeline) == FreeSlots(s, req.pipeline)
  {
    CreatedCount(s, req, now);
  }

  lemma CreatedTidy(s: State, req: Request, now: int, q: string)
    requires req.pipeline in s.defs && req.id !in s.jobs && Recorded(s) && Tidy(s, q, {})
    ensures Tidy(Created(s, s.defs[req.pipeline], req, now), q, {req.id})
  {
    hide Indexed;
    CreatedIndexed(s, req, now, q);
  }

  // The new job is live and not listed yet.
  lemma CreatedConsistent(s: State, req: Request, now: int)
    requires Consistent(s) && req.pipeline in s.defs && req.id !in s.jobs
    ensures ConsistentBut(Created(s, s.defs[req.pipeline], req, now), {req.id})
  {
    hide Tidy;
    forall q ensures Tidy(Created(s, s.defs[req.pipeline], req, now), q, {req.id}) {
      assert Tidy(s, q, {});
      CreatedTidy(s, req, now, q);
    }
  }

  lemma StartSettles(s: State, id: JobId, now: int)
    requires ConsistentBut(s, {id}) && id in s.jobs && Live(s.jobs[id])
    ensures Consistent(StartJob(s, id, now))
  {
    hide Moves, KeepsLive, Tidy, Recorded, StartJobsOnWaitList;
    var p, s' := s.jobs[id].pipeline, StartJob(s, id, now);
    ConsistentTidy(s, {id}, p);
    StartJobMoves(s, id, p, now);
    MovesKeepConsistent(s, s', p, now, {id});
    assert id !in LiveSet(s'.jobs);
    forall q ensures Tidy(s', q, {}) {
      assert Tidy(s', q, {id});
      NotSkipped(s', q, id);
    }
  }

  lemma NotSkipped(s: State, p: string, id: JobId)
    requires Tidy(s, p, {id}) && id !in LiveSet(s.jobs)
    ensures Tidy(s, p, {})
  {
  }

  /** The table after queueing: only the victim changed. */
  lemma EnqueueIs(s: State, p: string, id: JobId)
    requires p in s.defs && LimitReady(s.defs[p])
    ensures var q := ModifyWaitList(s.defs[p], PartOf(s.jobs), ListOf(s.wait, p), id); var s' := Enqueue(s, p, id);
      && s' == s.(jobs := s'.jobs, wait := s.wait[p := q.list]) && s'.jobs.Keys == s.jobs.Keys
      && forall x | x in s.jobs ::
           s'.jobs[x] == if q.victim == Some(x) then s.jobs[x].(canceled := true, timer := false) else s.jobs[x]
  {
    hide ModifyWaitList;
  }

  /** The job may be put last on the wait list: it is the newest of its pipeline there. */
  ghost predicate Newest(s: State, p: string, id: JobId) {
    && p in s.defs && LimitReady(s.defs[p])
    && Ordered(s, p) && id in s.jobs && s.jobs[id].pipeline == p && id !in ListOf(s.wait, p)
    && s.jobs[id].ticket >= 0 && forall x | x in ListOf(s.wait, p) && x in s.jobs ::
      s.jobs[x].ticket < s.jobs[id].ticket
  }

  lemma NewestLast(s: State, p: string, id: JobId)
    requires Newest(s, p, id)
    ensures p in s.defs && LimitReady(s.defs[p])
    ensures var q := ModifyWaitList(s.defs[p], PartOf(s.jobs), ListOf(s.wait, p), id);
      && Increasing(q.list, TicketOf(s.jobs))
      && (forall x :: x in q.list <==> x == id || (x in ListOf(s.wait, p) && q.victim != Some(x)))
  {
    hide ModifyWaitList;
    OrderedIs(s, p);
    ModifyIs(s.defs[p], PartOf(s.jobs), ListOf(s.wait, p), id, TicketOf(s.jobs));
  }

  lemma EnqueueOrders(s: State, p: string, id: JobId, q: string)
    requires Newest(s, p, id) && Ordered(s, q)
    ensures p in s.defs && LimitReady(s.defs[p]) && Ordered(Enqueue(s, p, id), q)
  {
    hide Enqueue, ModifyWaitList, Increasing;
    NewestLast(s, p, id);
    EnqueueIs(s, p, id);
    var s' := Enqueue(s, p, id);
    OrderedIs(s, q);
    OrderedIs(s', q);
    SameTickets(s.jobs, s'.jobs, ListOf(s'.wait, q));
  }

  lemma SameTickets(jobs: JobTable, jobs': JobTable, list: seq<JobId>)
    requires jobs'.Keys == jobs.Keys && forall id | id in jobs :: jobs'[id].ticket == jobs[id].ticket
    requires Increasing(list, TicketOf(jobs))
    ensures Increasing(list, TicketOf(jobs'))
  {
  }

  lemma EnqueueTidy(s: State, p: string, id: JobId, q: string)
    requires Tidy(s, q, {id}) && Newest(s, p, id)
    ensures p in s.defs && LimitReady(s.defs[p]) && Tidy(Enqueue(s, p, id), q, {})
  {
    hide Enqueue, ModifyWaitList, Ordered;
    EnqueueOrders(s, p, id, q);
    EnqueueIs(s, p, id);
    NewestLast(s, p, id);
  }

  lemma EnqueueRecords(s: State, p: string, id: JobId)
    requires Recorded(s) && p in s.defs && LimitReady(s.defs[p])
    ensures Recorded(Enqueue(s, p, id))
  {
    hide Enqueue, ModifyWaitList, LimitReady;
    EnqueueIs(s, p, id);
  }

  lemma EnqueueSettles(s: State, p: string, id: JobId)
    requires ConsistentBut(s, {id}) && p in s.defs && LimitReady(s.defs[p])
    requires id in s.jobs && s.jobs[id].pipeline == p && id !in ListOf(s.wait, p)
    requires s.jobs[id].ticket == s.tickets - 1 >= 0
    requires forall x | x in s.jobs && x != id :: s.jobs[x].ticket < s.jobs[id].ticket
    ensures Consistent(Enqueue(s, p, id))
  {
    hide Enqueue, ModifyWaitList, Tidy, LimitReady, Recorded;
    EnqueueRecords(s, p, id);
    ConsistentTidy(s, {id}, p);
    assert Ordered(s, p) by { TidyOrdered(s, p, {id}); }
    forall q ensures Tidy(Enqueue(s, p, id), q, {}) {
      assert Tidy(s, q, {id});
      EnqueueTidy(s, p, id, q);
    }
  }

  lemma TidyOrdered(s: State, p: string, skip: set<JobId>)
    requires Tidy(s, p, skip)
    ensures Ordered(s, p) && Indexed(s, p)
  {
  }

  lemma FreshNewest(s: State, req: Request, now: int)
    requires Consistent(s) && DefsUsable(s.defs) && Takes(s, req)
    ensures req.pipeline in s.defs && LimitReady(s.defs[req.pipeline])
    ensures Newest(Fresh(s, req, now), req.pipeline, req.id)
  {
    hide Tidy;
    AcceptedIsReady(s.defs[req.pipeline], ListOf(s.wait, req.pipeline));
    NewestTicket(s, req, now);
    CreatedConsistent(s, req, now);
    ConsistentTidy(Fresh(s, req, now), {req.id}, req.pipeline);
    TidyOrdered(Fresh(s, req, now), req.pipeline, {req.id});
  }

  /** Queueing a new job: it is last, the victim left the list, and nobody else changed. */
  lemma QueueingIs(s: State, req: Request, now: int) returns (victim: Option<JobId>)
    requires Consistent(s) && DefsUsable(s.defs) && Takes(s, req)
    ensures req.pipeline in s.defs && LimitReady(s.defs[req.pipeline])
    ensures var p, s1, w := req.pipeline, Fresh(s, req, now), ListOf(s.wait, req.pipeline);
      var s2 := Enqueue(s1, p, req.id);
      && victim == ModifyWaitList(s.defs[p], PartOf(s1.jobs), w, req.id).victim
      && s2 == s1.(jobs := s2.jobs, wait := s.wait[p := ListOf(s2.wait, p)]) && s2.jobs.Keys == s1.jobs.Keys
      && (forall x | x in s1.jobs ::
            s2.jobs[x] == if victim == Some(x) then s1.jobs[x].(canceled := true, timer := false) else s1.jobs[x])
      && (forall x :: x in ListOf(s2.wait, p) <==> x == req.id || (x in w && victim != Some(x)))
      && req.id !in w && (victim.Some? ==> victim.value in w)
  {
    hide ModifyWaitList, Enqueue, Tidy, Takes;
    FreshNewest(s, req, now);
    var p, s1 := req.pipeline, Fresh(s, req, now);
    EnqueueIs(s1, p, req.id);
    NewestLast(s1, p, req.id);
    VictimListed(s.defs[p], PartOf(s1.jobs), ListOf(s.wait, p), req.id);
    victim := ModifyWaitList(s.defs[p], PartOf(s1.jobs), ListOf(s.wait, p), req.id).victim;
  }

  lemma ScheduleKeeps(s: State, req: Request, now: int)
    requires Consistent(s) && req.id !in s.jobs && !Panics(s, req, now)
    ensures Consistent(ScheduleAsync(s, req, now))
  {
    hide StartJob, Enqueue, ScheduleAsync, RunningJobs, ConsistentBut, Refusal, Panics, LimitReady;
    ScheduleGoes(s, req, now);
    if Refusal(s, req.pipeline).None? {
      var s1 := Created(s, s.defs[req.pipeline], req, now);
      CreatedConsistent(s, req, now);
      StartSettles(s1, req.id, now);
      NewestTicket(s, req, now);
      if LimitReady(s.defs[req.pipeline]) {
        EnqueueSettles(s1, req.pipeline, req.id);
      }
    }
  }

  lemma NewestTicket(s: State, req: Request, now: int)
    requires Consistent(s) && req.pipeline in s.defs && req.id !in s.jobs
    ensures var s1 := Created(s, s.defs[req.pipeline], req, now);
      && req.id in s1.jobs && s1.jobs[req.id].ticket == s1.tickets - 1 >= 0 && req.id !in ListOf(s1.wait, req.pipeline)
      && forall x | x in s1.jobs && x != req.id :: s1.jobs[x].ticket < s1.jobs[req.id].ticket
  {
    ConsistentTidy(s, {}, req.pipeline);
  }

  // ---------------------------------------------------------------------------------------------
  // The retention sweep and shutdown
  // ---------------------------------------------------------------------------------------------

  lemma ListedOwn(s: State, q: string, id: JobId)
    requires Consistent(s) && id in ListOf(s.byPipeline, q)
    ensures id in s.jobs && s.jobs[id].pipeline == q
  {
    assert Tidy(s, q, {});
  }

  // A job is ranked in its own pipeline only.
  lemma OnlyOwnRanking(s: State, rankings: map<string, seq<JobId>>, now: int, p: string, id: JobId)
    requires Consistent(s) && RankingsFor(s, rankings) && p in rankings
    requires id in s.known && s.jobs[id].pipeline == p
    ensures id in RemovedIds(s, rankings, now) <==> id in ToRemove(s.defs, s.jobs, rankings[p], now)
  {
    hide Tidy, ShouldBeRemoved;
    forall q | q in rankings && id in ToRemove(s.defs, s.jobs, rankings[q], now) ensures q == p {
      ToRemoveIs(s.defs, s.jobs, rankings[q], now, id);
      assert IsRanking(s.jobs, s.byPipeline[q], rankings[q]);
      assert id in multiset(rankings[q]) && id in multiset(s.byPipeline[q]);
      ListedOwn(s, q, id);
    }
  }

  /** The sweep removes a job from its list exactly when it removes it from jobsByID. */
  lemma SweepListed(s: State, rankings: map<string, seq<JobId>>, now: int, p: string)
    requires Consistent(s) && RankingsFor(s, rankings)
    ensures var s' := Sweep(s, rankings, now);
      && Indexed(s', p)
      && (forall id | id in s.known && s.jobs[id].pipeline == p :: id in s'.known <==> id in ListOf(s'.byPipeline, p))
  {
    hide Ordered, Queued;
    var s' := Sweep(s, rankings, now);
    assert Tidy(s, p, {});
    if p in s.byPipeline {
      SweepNoDup(s.defs, s.jobs, s.byPipeline[p], rankings[p], now);
      assert IsRanking(s.jobs, s.byPipeline[p], rankings[p]);
      forall id | id in s.known && s.jobs[id].pipeline == p
        ensures id in RemovedIds(s, rankings, now) <==> id in ToRemove(s.defs, s.jobs, rankings[p], now)
      {
        OnlyOwnRanking(s, rankings, now, p, id);
      }
    } else {
      assert ListOf(s.byPipeline, p) == [] && ListOf(s'.byPipeline, p) == [];
    }
  }

  lemma SweepKeeps(s: State, rankings: map<string, seq<JobId>>, now: int)
    requires Consistent(s) && RankingsFor(s, rankings)
    ensures Consistent(Sweep(s, rankings, now))
  {
    hide SweepList, RemovedIds, Indexed;
    var s' := Sweep(s, rankings, now);
    forall p ensures Tidy(s', p, {}) {
      assert Tidy(s, p, {});
      SweepListed(s, rankings, now, p);
    }
  }

  lemma ShutdownKeeps(s: State)
    requires Consistent(s)
    ensures Consistent(Shutdown(s))
  {
    var s' := Shutdown(s);
    forall p ensures Tidy(s', p, {}) {
      assert Tidy(s, p, {});
      forall id | id in s.jobs && s.jobs[id].pipeline == p && Live(s.jobs[id]) ensures OnSomeList(s, id) {
        assert id in ListOf(s.wait, p);
      }
    }
  }

  // ---------------------------------------------------------------------------------------------
  // Every operation
  // ---------------------------------------------------------------------------------------------

  lemma CompleteKeeps(s: State, id: JobId, err: Option<string>, ctxCanceled: bool, now: int)
    requires Consistent(s) && id in s.spawned && id in s.jobs
    ensures Consistent(JobCompleted(s, id, err, ctxCanceled, now))
  {
    hide StartJobsOnWaitList, Tidy;
    var j := CompletedJob(s.jobs[id], err, ctxCanceled, now);
    var s1 := s.(jobs := s.jobs[id := j], token := s.token);
    assert s.jobs[id].start.Some?;
    OneEdit(s, id, j, s.token);
    hide ConsistentBut;
    EditsKeep(s, s1);
    var s2 := StartJobsOnWaitList(s1, s.jobs[id].pipeline, now);
    DispatchKeeps(s1, s.jobs[id].pipeline, now);
    EditsKeep(s2, s2.(token := true));
    assert s.(jobs := s.jobs[id := j]) == s1;
  }

  lemma TimerKeeps(s: State, id: JobId, now: int)
    requires Consistent(s)
    ensures Consistent(StartDelayedJob(s, id, now))
  {
    hide StartJobsOnWaitList, ConsistentBut;
    if id in s.known && id in s.jobs && !s.jobs[id].canceled {
      var j := s.jobs[id].(timer := false);
      var s1 := s.(jobs := s.jobs[id := j], token := s.token);
      OneEdit(s, id, j, s.token);
      EditsKeep(s, s1);
      DispatchKeeps(s1, s.jobs[id].pipeline, now);
      assert s.(jobs := s.jobs[id := j]) == s1;
    }
  }

  lemma CancelEdits(s: State, id: JobId)
    ensures OnlyEdits(s, CancelJob(s, id))
  {
  }

  lemma TaskChangeEdits(s: State, id: JobId, name: string, r: TaskReport)
    ensures OnlyEdits(s, HandleTaskChange(s, id, name, r))
  {
    hide ReportedJob, CancelJob, TaskErrored, FailFast, OnlyEdits;
    if TaskKnown(s, id, name) {
      var j := ReportedJob(s.jobs[id], name, r);
      var s1 := s.(jobs := s.jobs[id := j], token := true);
      ReportKeeps(s.jobs[id], name, r);
      OneEdit(s, id, j, true);
      CancelEdits(s1, id);
      EditsCompose(s, s1, CancelJob(s1, id));
    } else {
      NoEdit(s);
    }
  }

  lemma EditsCompose(s: State, s1: State, s2: State)
    requires OnlyEdits(s, s1) && OnlyEdits(s1, s2)
    ensures OnlyEdits(s, s2)
  {
    forall id | id in s.jobs ensures Stays(s.jobs[id], s2.jobs[id]) {
      assert Stays(s.jobs[id], s1.jobs[id]) && Stays(s1.jobs[id], s2.jobs[id]);
    }
  }

  lemma NoEdit(s: State)
    ensures OnlyEdits(s, s)
  {
  }

  lemma StageChangeEdits(s: State, id: JobId, name: string, status: TaskStatus)
    ensures OnlyEdits(s, HandleStageChange(s, id, name, status))
  {
  }

  /** Every operation keeps the indexes, the wait lists and the jobs in agreement. */
  lemma StepKeepsConsistent(s: State, e: Event)
    requires Consistent(s) && DefsUsable(s.defs) && RunnerEvents.Enabled(s, e)
    ensures Consistent(Next(s, e))
  {
    hide ConsistentBut, ScheduleAsync, JobCompleted, StartDelayedJob, CancelJob, HandleTaskChange, HandleStageChange,
      Shutdown,
      Sweep, RankingsFor, OnlyEdits, DefsUsable;
    match e
    case Schedule(req, now) =>
      ScheduleOutcome(s, req, now);
      ScheduleKeeps(s, req, now);
    case Complete(id, err, ctxCanceled, now) => CompleteKeeps(s, id, err, ctxCanceled, now);
    case CancelRequest(id) =>
      CancelEdits(s, id);
      EditsKeep(s, CancelJob(s, id));
    case TimerFired(id, now) => TimerKeeps(s, id, now);
    case Save(rankings, now) => SweepKeeps(s, rankings, now);
    case TaskChange(id, name, report) =>
      TaskChangeEdits(s, id, name, report);
      EditsKeep(s, HandleTaskChange(s, id, name, report));
    case StageChange(id, name, status) =>
      StageChangeEdits(s, id, name, status);
      EditsKeep(s, HandleStageChange(s, id, name, status));
    case StopAll => ShutdownKeeps(s);
    case Redefine(defs) => RedefineKeeps(s, defs);
  }

  lemma RedefineKeeps(s: State, defs: PipelinesMap)
    requires Consistent(s)
    ensures Consistent(ReplaceDefinitions(s, defs))
  {
    hide Tidy;
    forall p ensures Tidy(ReplaceDefinitions(s, defs), p, {}) {
      assert Tidy(s, p, {});
      EditsKeepTidy(s, ReplaceDefinitions(s, defs), p);
    }
  }

  lemma {:induction false} RunKeepsConsistent(s: State, events: seq<Event>, s': State)
    requires Consistent(s) && AnyRun(s, events, s')
    ensures Consistent(s')
    decreases |events|
  {
    hide Consistent;
    if events != [] {
      StepKeepsConsistent(s, events[0]);
      RunKeepsConsistent(Next(s, events[0]), events[1..], s');
    }
  }

  /** Jobs restored from the store are finished; nothing waits and nothing runs. */
  ghost predicate Initial(s: State) {
    && DefsUsable(s.defs) && !s.shutting && s.wait == map[] && s.spawned == [] && s.tickets == 0
    && s.known == s.jobs.Keys
    && (forall id | id in s.jobs :: s.jobs[id].ticket == FROM_STORE && !Live(s.jobs[id]) && !IsRunning(s.jobs[id]))
    && (forall p :: Indexed(s, p))
  }

  lemma InitialConsistent(s: State)
    requires Initial(s)
    ensures Consistent(s)
  {
    forall p ensures Tidy(s, p, {}) {
      assert Indexed(s, p);
    }
  }

  // ---------------------------------------------------------------------------------------------
  // What holds after any sequence of operations
  // ---------------------------------------------------------------------------------------------

  /** jobsByPipeline[p] enumerates exactly the known jobs of p, each once, and the running ones of them are counted. */
  lemma IndexAgreement(s0: State, events: seq<Event>, s: State, p: string)
    requires Initial(s0) && AnyRun(s0, events, s)
    ensures NoDup(ListOf(s.byPipeline, p))
    ensures forall id :: id in ListOf(s.byPipeline, p) <==> id in s.known && id in s.jobs && s.jobs[id].pipeline == p
    ensures RunningJobs(s, p) ==
      |set id | id in s.jobs && id in s.known && s.jobs[id].pipeline == p && IsRunning(s.jobs[id])|
  {
    InitialConsistent(s0);
    RunKeepsConsistent(s0, events, s);
    assert Tidy(s, p, {});
    CountElems(s.jobs, ListOf(s.byPipeline, p));
    assert RunningSet(s.jobs, ListOf(s.byPipeline, p)) ==
      set id | id in s.jobs && id in s.known && s.jobs[id].pipeline == p && IsRunning(s.jobs[id]);
  }

  /** Every job is started at most once. */
  lemma StartedOnce(s0: State, events: seq<Event>, s: State)
    requires Initial(s0) && AnyRun(s0, events, s)
    ensures NoDup(s.spawned)
    ensures forall id :: id in s.spawned <==> id in s.jobs && s.jobs[id].start.Some? && s.jobs[id].ticket >= 0
  {
    InitialConsistent(s0);
    RunKeepsConsistent(s0, events, s);
  }

  /**
   * A job that got its goroutine has its scheduler until it is completed and not after: canceling it before
   * always finds one, and completing it always has one to release.
   */
  lemma SchedulerInPlace(s0: State, events: seq<Event>, s: State, id: JobId)
    requires Initial(s0) && AnyRun(s0, events, s) && id in s.spawned
    ensures id in s.jobs && (s.jobs[id].scheduler <==> !s.jobs[id].completed)
  {
    InitialConsistent(s0);
    RunKeepsConsistent(s0, events, s);
  }

  /** No live job is lost: it is on the wait list of its pipeline, once. */
  lemma LiveJobsWait(s0: State, events: seq<Event>, s: State, id: JobId)
    requires Initial(s0) && AnyRun(s0, events, s) && id in s.jobs && Live(s.jobs[id])
    ensures multiset(ListOf(s.wait, s.jobs[id].pipeline))[id] == 1
  {
    InitialConsistent(s0);
    RunKeepsConsistent(s0, events, s);
    ConsistentTidy(s, {}, s.jobs[id].pipeline);
    assert Tidy(s, s.jobs[id].pipeline, {});
    CountOnce(ListOf(s.wait, s.jobs[id].pipeline), id);
  }

  /** An ended job never waits or runs again, and a started job keeps its start. */
  lemma {:induction false} EndedForever(s: State, events: seq<Event>, s': State, id: JobId)
    requires ListsOwn(s) && AnyRun(s, events, s') && id in s.jobs
    ensures id in s'.jobs && Later(s.jobs[id], s'.jobs[id])
    ensures Ended(s.jobs[id]) && (s.jobs[id].canceled || s.jobs[id].start.Some?) ==>
      Ended(s'.jobs[id]) && !Live(s'.jobs[id]) && !IsRunning(s'.jobs[id])
    ensures s.spawned <= s'.spawned
    decreases |events|
  {
    hide ListsOwn, DefsUsable;
    if events != [] {
      var s1 := Next(s, events[0]);
      StepGrows(s, events[0]);
      StepKeepsOwn(s, events[0]);
      EndedForever(s1, events[1..], s', id);
      assert Later(s.jobs[id], s1.jobs[id]) && Later(s1.jobs[id], s'.jobs[id]);
    }
  }

  // ---------------------------------------------------------------------------------------------
  // Pipelines that stay defined
  // ---------------------------------------------------------------------------------------------

  /** The jobs of the pipeline that run or may still run are in jobsByID. */
  ghost predicate Kept(s: State, p: string) {
    && p in s.defs
    && forall id | id in s.jobs && s.jobs[id].pipeline == p && (Live(s.jobs[id]) || IsRunning(s.jobs[id])) ::
         id in s.known
  }

  ghost predicate StaysDefined(e: Event, p: string) {
    e.Redefine? ==> p in e.defs
  }

  /** Only the sweep takes jobs out of jobsByID, and new jobs go into it. */
  ghost predicate KnownGrows(s: State, s': State) {
    s.known <= s'.known && forall id | id in s'.jobs :: id in s.jobs || id in s'.known
  }

  lemma MovesKnow(s: State, s': State, p: string, now: int)
    requires Moves(s, s', p, now)
    ensures KnownGrows(s, s')
  {
  }

  lemma DispatchKnows(s: State, s1: State, p: string, now: int)
    requires ListsOwn(s) && s1.wait == s.wait && s1.jobs.Keys == s.jobs.Keys && s1.known == s.known
    requires forall id | id in s.jobs :: s1.jobs[id].pipeline == s.jobs[id].pipeline
    ensures KnownGrows(s, StartJobsOnWaitList(s1, p, now))
  {
    hide StartJobsOnWaitList, Moves, KeepsLive, Own;
    EditedListsOwn(s, s1);
    OwnOf(s1, p);
    WaitListMoves(s1, p, now);
    MovesKnow(s1, StartJobsOnWaitList(s1, p, now), p, now);
  }

  lemma StartKnows(s: State, req: Request, now: int)
    requires ListsOwn(s) && req.pipeline in s.defs && req.id !in s.jobs
    ensures KnownGrows(s, StartJob(Fresh(s, req, now), req.id, now))
  {
    hide StartJob, Moves, KeepsLive, Own, ListsOwn;
    var s1 := Fresh(s, req, now);
    EditedListsOwn(s, s1);
    OwnOf(s1, req.pipeline);
    StartJobMoves(s1, req.id, req.pipeline, now);
    MovesKnow(s1, StartJob(s1, req.id, now), req.pipeline, now);
  }

  lemma EnqueueKnows(s: State, req: Request, now: int)
    requires req.pipeline in s.defs && LimitReady(s.defs[req.pipeline])
    ensures KnownGrows(s, Enqueue(Fresh(s, req, now), req.pipeline, req.id))
  {
    hide ModifyWaitList;
  }

  lemma ScheduleKnows(s: State, req: Request, now: int)
    requires ListsOwn(s) && DefsUsable(s.defs) && req.id !in s.jobs
    ensures KnownGrows(s, ScheduleAsync(s, req, now))
  {
    hide StartJob, Enqueue, ListsOwn, ScheduleAsync, RunningJobs, Refusal, Usable, LimitReady, Created;
    ScheduleOutcome(s, req, now);
    if Refusal(s, req.pipeline).None? {
      StartKnows(s, req, now);
      EnqueueKnows(s, req, now);
    }
  }

  lemma StepKnows(s: State, e: Event)
    requires ListsOwn(s) && DefsUsable(s.defs) && RunnerEvents.Enabled(s, e) && !e.Save?
    ensures KnownGrows(s, Next(s, e))
  {
    hide ListsOwn, StartJobsOnWaitList, RankingsFor, ScheduleAsync, HandleTaskChange, HandleStageChange;
    match e
    case Schedule(req, now) => ScheduleKnows(s, req, now);
    case Complete(id, err, ctxCanceled, now) =>
      var s1 := s.(jobs := s.jobs[id := CompletedJob(s.jobs[id], err, ctxCanceled, now)]);
      DispatchKnows(s, s1, s.jobs[id].pipeline, now);
    case TimerFired(id, now) =>
      if id in s.known && id in s.jobs && !s.jobs[id].canceled {
        var s1 := s.(jobs := s.jobs[id := s.jobs[id].(timer := false)]);
        DispatchKnows(s, s1, s.jobs[id].pipeline, now);
      }
    case TaskChange(id, name, report) => TaskChangeEdits(s, id, name, report);
    case StageChange(id, name, status) => StageChangeEdits(s, id, name, status);
    case _ =>
  }

  // A job that may run now could run before, or it is new.
  lemma StillAlive(s: State, s': State, id: JobId)
    requires Grows(s, s') && id in s.jobs
    ensures id in s'.jobs && s'.jobs[id].pipeline == s.jobs[id].pipeline
    ensures Live(s'.jobs[id]) || IsRunning(s'.jobs[id]) ==> Live(s.jobs[id]) || IsRunning(s.jobs[id])
  {
    assert Later(s.jobs[id], s'.jobs[id]);
  }

  lemma SweepKeepsKept(s: State, rankings: map<string, seq<JobId>>, now: int, p: string)
    requires Consistent(s) && Kept(s, p) && RankingsFor(s, rankings)
    ensures Kept(Sweep(s, rankings, now), p)
  {
    hide Ordered, Queued, SweepList, RemovedIds, IsRanking;
    var s', list := Sweep(s, rankings, now), ListOf(s.byPipeline, p);
    assert Tidy(s, p, {});
    SweepListed(s, rankings, now, p);
    forall id | id in s.jobs && s.jobs[id].pipeline == p && (Live(s.jobs[id]) || IsRunning(s.jobs[id]))
      ensures id in s'.known
    {
      assert id in list && p in s.byPipeline && IsRanking(s.jobs, list, rankings[p]);
      UnfinishedSurvive(s.defs, s.jobs, p, list, rankings[p], now, id);
    }
  }

  lemma StepKeepsKept(s: State, e: Event, p: string)
    requires Consistent(s) && DefsUsable(s.defs) && RunnerEvents.Enabled(s, e) && Kept(s, p) && StaysDefined(e, p)
    ensures Kept(Next(s, e), p)
  {
    hide ConsistentBut, DefsUsable, Grows, RankingsFor, ListsOwn;
    ConsistentOwn(s);
    StepGrows(s, e);
    if e.Save? {
      SweepKeepsKept(s, e.rankings, e.now, p);
    } else {
      StepKnows(s, e);
      if !e.Redefine? {
        StepKeepsDefs(s, e);
      }
      KeptBy(s, Next(s, e), p);
    }
  }

  lemma KeptBy(s: State, s': State, p: string)
    requires Kept(s, p) && Grows(s, s') && KnownGrows(s, s') && p in s'.defs
    ensures Kept(s', p)
  {
    hide Grows;
    forall id | id in s'.jobs && s'.jobs[id].pipeline == p && (Live(s'.jobs[id]) || IsRunning(s'.jobs[id]))
      ensures id in s'.known
    {
      if id in s.jobs {
        StillAlive(s, s', id);
      }
    }
  }

  lemma {:induction false} RunKeepsKept(s: State, events: seq<Event>, s': State, p: string)
    requires Consistent(s) && Kept(s, p) && AnyRun(s, events, s') && forall e | e in events :: StaysDefined(e, p)
    ensures Consistent(s') && Kept(s', p)
    decreases |events|
  {
    hide Consistent, Kept, StaysDefined;
    if events != [] {
      assert events[0] in events;
      StepKeepsConsistent(s, events[0]);
      StepKeepsKept(s, events[0], p);
      RunKeepsKept(Next(s, events[0]), events[1..], s', p);
    }
  }

  /**
   * The polling loop of Shutdown looks at the listed jobs only. As long as a pipeline stays defined that is
   * enough: its count is the number of all its running jobs.
   */
  lemma PollSeesEveryRunningJob(s0: State, events: seq<Event>, s: State, p: string)
    requires Initial(s0) && AnyRun(s0, events, s) && p in s0.defs && forall e | e in events :: StaysDefined(e, p)
    ensures RunningJobs(s, p) == |set id | id in s.jobs && s.jobs[id].pipeline == p && IsRunning(s.jobs[id])|
    ensures RunningJobs(s, p) == 0 ==> forall id | id in s.jobs && s.jobs[id].pipeline == p :: !IsRunning(s.jobs[id])
    ensures RunningJobs(s, p) > 0 ==> p in s.byPipeline
  {
    InitialConsistent(s0);
    RunKeepsKept(s0, events, s, p);
    IndexAgreement(s0, events, s, p);
    var running := set id | id in s.jobs && s.jobs[id].pipeline == p && IsRunning(s.jobs[id]);
    assert running == set id | id in s.jobs && id in s.known && s.jobs[id].pipeline == p && IsRunning(s.jobs[id]);
    forall id | id in s.jobs && s.jobs[id].pipeline == p && RunningJobs(s, p) == 0 ensures !IsRunning(s.jobs[id]) {
      assert id in running ==> |running| > 0;
    }
  }
}
