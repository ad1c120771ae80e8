// Queue limits over whole runs, and the waiting jobs that no arrival can displace. RunnerLeftovers has the queues
// in which there is no such job and never will be.
module RunnerQueues {
  import opened Basics
  import opened Definitions
  import opened WaitList
  import opened RunnerState
  import opened Dispatch
  import opened Retention
  import opened RunnerEvents
  import opened RunnerLifecycle
  import opened RunnerIndexes
  import opened RunnerLanes

  // ---------------------------------------------------------------------------------------------
  // Subsequences
  // ---------------------------------------------------------------------------------------------

  lemma {:induction false} SubseqLength(s: seq<JobId>, t: seq<JobId>)
    requires Subseq(s, t)
    ensures |s| <= |t|
    decreases |t|
  {
    if s != [] {
      if s[0] == t[0] && Subseq(s[1..], t[1..]) {
        SubseqLength(s[1..], t[1..]);
      } else {
        SubseqLength(s, t[1..]);
      }
    }
  }

  lemma {:induction false} FilterCons(s: seq<JobId>, keep: JobId -> bool)
    requires s != []
    ensures Filter(s, keep) == (if keep(s[0]) then [s[0]] else []) + Filter(s[1..], keep)
  {
    assert s == [s[0]] + s[1..];
    FilterAppend([s[0]], s[1..], keep);
    FilterOne(s[0], keep);
  }

  lemma {:induction false} SubseqFilter(s: seq<JobId>, t: seq<JobId>, keep: JobId -> bool)
    requires Subseq(s, t)
    ensures Subseq(Filter(s, keep), Filter(t, keep))
    decreases |t|
  {
    hide Filter;
    if s == [] {
      FilterNone(s, keep);
    } else {
      FilterCons(s, keep);
      FilterCons(t, keep);
      var ft := Filter(t[1..], keep);
      if s[0] == t[0] && Subseq(s[1..], t[1..]) {
        SubseqFilter(s[1..], t[1..], keep);
        assert [] + ft == ft && [] + Filter(s[1..], keep) == Filter(s[1..], keep);
        if keep(s[0]) {
          assert Filter(s, keep)[1..] == Filter(s[1..], keep) && Filter(t, keep)[1..] == ft;
        }
      } else {
        SubseqFilter(s, t[1..], keep);
        assert [] + ft == ft;
        if keep(t[0]) {
          assert Filter(t, keep)[1..] == ft;
        }
      }
    }
  }

  lemma {:induction false} SubseqIndex(s: seq<JobId>, t: seq<JobId>, id: JobId)
    requires Subseq(s, t) && id in s && NoDup(t)
    ensures id in t && IndexOf(s, id) <= IndexOf(t, id) < |t|
    decreases |t|
  {
    SubseqElems(s, t);
    assert t == [t[0]] + t[1..] && s == [s[0]] + s[1..];
    if s[0] == t[0] && Subseq(s[1..], t[1..]) {
      if s[0] != id {
        SubseqIndex(s[1..], t[1..], id);
      }
    } else {
      SubseqElems(s, t[1..]);
      assert t[0] != id by {
        assert forall i | 0 < i < |t| :: t[0] != t[i];
      }
      SubseqIndex(s, t[1..], id);
    }
  }

  // ---------------------------------------------------------------------------------------------
  // One step of one wait list
  // ---------------------------------------------------------------------------------------------

  ghost predicate Shrunk(s: State, s': State, p: string) {
    Subseq(ListOf(s'.wait, p), ListOf(s.wait, p))
  }

  ghost predicate QueuedOnto(s: State, s': State, p: string, e: Event) {
    && e.Schedule? && e.req.pipeline == p && Takes(s, e.req) && LimitReady(s.defs[p])
    && s' == Enqueue(Fresh(s, e.req, e.now), p, e.req.id)
  }

  lemma DispatchShrinks(s: State, s1: State, p: string, q: string, now: int)
    requires Consistent(s) && s1.wait == s.wait
    requires forall id | id in s.jobs :: id in s1.jobs && s1.jobs[id].pipeline == s.jobs[id].pipeline
    ensures Shrunk(s, StartJobsOnWaitList(s1, p, now), q)
  {
    hide ConsistentBut, StartJobsOnWaitList, Subseq;
    ConsistentTidy(s, {}, p);
    OwnEdited(s, s1, p);
    WaitListMoves(s1, p, now);
    SubseqSelf(ListOf(s.wait, q));
  }

  lemma DirectWaits(s: State, req: Request, now: int, q: string)
    requires Consistent(s) && Takes(s, req)
    ensures Shrunk(s, StartJob(Fresh(s, req, now), req.id, now), q)
  {
    hide ConsistentBut, StartJob, Subseq, Moves, KeepsLive;
    var p, s1 := req.pipeline, Fresh(s, req, now);
    ConsistentTidy(s, {}, p);
    OwnEdited(s, s1, p);
    StartJobMoves(s1, req.id, p, now);
    MovedWait(s1, StartJob(s1, req.id, now), p, q, now);
  }

  lemma MovedWait(s: State, s': State, p: string, q: string, now: int)
    requires Moves(s, s', p, now) && KeepsLive(s, s', p)
    ensures Shrunk(s, s', q)
  {
    hide Subseq, StartsExactly, JobMove;
    SubseqSelf(ListOf(s.wait, q));
  }

  /** The three ways a request can go. */
  lemma ScheduleIs(s: State, req: Request, now: int)
    requires DefsUsable(s.defs) && req.id !in s.jobs
    ensures var s' := ScheduleAsync(s, req, now);
      if Refusal(s, req.pipeline).Some? then s' == s
      else
        && Takes(s, req) && req.pipeline in s.defs && LimitReady(s.defs[req.pipeline])
        && (s' == StartJob(Fresh(s, req, now), req.id, now) || s' == Enqueue(Fresh(s, req, now), req.pipeline, req.id))
  {
    hide StartJob, Enqueue, ScheduleAsync, RunningJobs;
    ScheduleOutcome(s, req, now);
  }

  lemma ScheduleWaits(s: State, req: Request, now: int, q: string)
    requires Consistent(s) && DefsUsable(s.defs) && req.id !in s.jobs
    ensures var s' := ScheduleAsync(s, req, now); Shrunk(s, s', q) || QueuedOnto(s, s', q, Schedule(req, now))
  {
    hide ConsistentBut, StartJob, Subseq, Enqueue, Refusal, ScheduleAsync, LimitReady, Takes, Fresh;
    SubseqSelf(ListOf(s.wait, q));
    ScheduleIs(s, req, now);
    if Refusal(s, req.pipeline).None? {
      DirectWaits(s, req, now, q);
      if req.pipeline != q {
        FreshWaits(s, req, now);
        EnqueueWaitsElsewhere(Fresh(s, req, now), req.pipeline, req.id, q);
      }
    }
  }

  lemma FreshWaits(s: State, req: Request, now: int)
    requires Takes(s, req)
    ensures Fresh(s, req, now).wait == s.wait && Fresh(s, req, now).defs == s.defs && req.pipeline in s.defs
  {
  }

  lemma EnqueueWaitsElsewhere(s: State, p: string, id: JobId, q: string)
    requires p in s.defs && LimitReady(s.defs[p]) && p != q
    ensures ListOf(Enqueue(s, p, id).wait, q) == ListOf(s.wait, q)
  {
  }

  lemma WaitStep(s: State, e: Event, q: string)
    requires Consistent(s) && DefsUsable(s.defs) && Enabled(s, e)
    ensures Shrunk(s, Next(s, e), q) || QueuedOnto(s, Next(s, e), q, e)
  {
    hide ConsistentBut, StartJobsOnWaitList, ScheduleAsync, Subseq, RankingsFor, HandleTaskChange, QueuedOnto;
    SubseqSelf(ListOf(s.wait, q));
    match e
    case Schedule(req, now) => ScheduleWaits(s, req, now, q);
    case Complete(id, err, ctxCanceled, now) =>
      var s1 := s.(jobs := s.jobs[id := CompletedJob(s.jobs[id], err, ctxCanceled, now)]);
      DispatchShrinks(s, s1, s.jobs[id].pipeline, q, now);
    case TimerFired(id, now) =>
      if id in s.known && id in s.jobs && !s.jobs[id].canceled {
        var s1 := s.(jobs := s.jobs[id := s.jobs[id].(timer := false)]);
        DispatchShrinks(s, s1, s.jobs[id].pipeline, q, now);
      }
    case TaskChange(id, name, report) => TaskChangeKeepsLists(s, id, name, report);
    case StopAll => EmptySubseq(ListOf(s.wait, q));
    case _ =>
  }

  lemma EmptySubseq(t: seq<JobId>)
    ensures Subseq([], t)
  {
  }

  // ---------------------------------------------------------------------------------------------
  // Limits
  // ---------------------------------------------------------------------------------------------

  /** The wait list fits: in its limit, or partition by partition. */
  ghost predicate Fits(s: State, p: string) {
    p in s.defs ==>
      var def, w := s.defs[p], ListOf(s.wait, p);
      match def.queueStrategy
      case Append => def.queueLimit.Some? ==> |w| <= def.queueLimit.value
      case Replace => def.queueLimit.Some? ==> |w| <= def.queueLimit.value
      case PartitionedReplace => def.queuePartitionLimit.Some? ==>
        forall q :: |Project(PartOf(s.jobs), w, q)| <= def.queuePartitionLimit.value
  }

  lemma SamePartitions(s: State, s': State, list: seq<JobId>, q: string)
    requires Grows(s, s') && forall id | id in list :: id in s.jobs
    ensures Project(PartOf(s'.jobs), list, q) == Project(PartOf(s.jobs), list, q)
  {
    forall id | id in list ensures s'.jobs[id].partition == s.jobs[id].partition {
      assert Later(s.jobs[id], s'.jobs[id]);
    }
    FilterAgrees(list, InPartition(PartOf(s'.jobs), q), InPartition(PartOf(s.jobs), q));
  }

  lemma ShrunkFits(s: State, s': State, p: string)
    requires Consistent(s) && Fits(s, p) && Shrunk(s, s', p) && SameDef(s, s', p) && Grows(s, s')
    ensures Fits(s', p)
  {
    hide ConsistentBut, Subseq, Filter, Grows;
    var w, w' := ListOf(s.wait, p), ListOf(s'.wait, p);
    SubseqLength(w', w);
    ConsistentTidy(s, {}, p);
    SubseqElems(w', w);
    forall q ensures |Project(PartOf(s'.jobs), w', q)| <= |Project(PartOf(s.jobs), w, q)| {
      SamePartitions(s, s', w', q);
      SubseqFilter(w', w, InPartition(PartOf(s.jobs), q));
      SubseqLength(Project(PartOf(s.jobs), w', q), Project(PartOf(s.jobs), w, q));
    }
  }

  lemma QueuedFits(s: State, s': State, p: string, e: Event)
    requires Consistent(s) && DefsUsable(s.defs) && Fits(s, p) && QueuedOnto(s, s', p, e)
    ensures Fits(s', p)
  {
    hide ConsistentBut, Enqueue, LaneOf;
    if s.defs[p].queueStrategy.Append? {
      AppendFits(s, s', p, e);
    } else {
      var limit := Slots(s.defs[p]);
      var _ := EnqueuedLane(s, e.req, e.now, e.req.partition);
      forall q ensures |LaneOf(s', p, q)| <= limit {
        var victim := EnqueuedLane(s, e.req, e.now, q);
        FitsLanes(s, p, q);
        FitsLanes(s, p, e.req.partition);
      }
      LanesFit(s', p);
    }
  }

  lemma AppendFits(s: State, s': State, p: string, e: Event)
    requires QueuedOnto(s, s', p, e) && s.defs[p].queueStrategy.Append?
    ensures Fits(s', p)
  {
  }

  lemma FitsLanes(s: State, p: string, q: string)
    requires Fits(s, p) && p in s.defs && LimitReady(s.defs[p]) && !s.defs[p].queueStrategy.Append?
    ensures |LaneOf(s, p, q)| <= Slots(s.defs[p])
  {
  }

  lemma LanesFit(s: State, p: string)
    requires p in s.defs && !s.defs[p].queueStrategy.Append? && forall q :: |LaneOf(s, p, q)| <= Slots(s.defs[p])
    ensures Fits(s, p)
  {
    if s.defs[p].queueStrategy.Replace? {
      assert LaneOf(s, p, "") == ListOf(s.wait, p);
    } else {
      assert forall q :: LaneOf(s, p, q) == Project(PartOf(s.jobs), ListOf(s.wait, p), q);
    }
  }

  /** As long as its definition stays, a pipeline's queue limit holds: on a partitioned list, in each partition. */
  lemma {:induction false} LimitsHold(s: State, events: seq<Event>, s': State, p: string)
    requires Consistent(s) && Fits(s, p) && StableRun(s, events, s', p)
    ensures Fits(s', p) && SameDef(s, s', p) && Consistent(s')
    decreases |events|
  {
    hide ConsistentBut, Fits, Grows, ListsOwn, Shrunk, QueuedOnto;
    if events != [] {
      var e := events[0];
      var s1 := Next(s, e);
      ConsistentOwn(s);
      StepGrows(s, e);
      StepKeepsConsistent(s, e);
      StepKeepsDef(s, e, p);
      WaitStep(s, e, p);
      if Shrunk(s, s1, p) {
        ShrunkFits(s, s1, p);
      } else {
        QueuedFits(s, s1, p, e);
      }
      LimitsHold(s1, events[1..], s', p);
    }
  }

  /** A partitioned wait list grows up to the partition limit times the number of partitions on it. */
  lemma PartitionedLength(s0: State, events: seq<Event>, s: State, p: string)
    requires Initial(s0) && StableRun(s0, events, s, p)
    requires p in s.defs && s.defs[p].queueStrategy.PartitionedReplace?
    ensures s.defs[p].queuePartitionLimit.Some?
    ensures var w := ListOf(s.wait, p);
      |w| <= s.defs[p].queuePartitionLimit.value * |Partitions(PartOf(s.jobs), w)|
  {
    hide ConsistentBut;
    InitialConsistent(s0);
    forall q ensures Project(PartOf(s0.jobs), [], q) == [] {
    }
    LimitsHold(s0, events, s, p);
    assert Usable(s.defs[p]);
    LengthByPartitions(PartOf(s.jobs), ListOf(s.wait, p), s.defs[p].queuePartitionLimit.value,
                       Partitions(PartOf(s.jobs), ListOf(s.wait, p)));
  }

  // ---------------------------------------------------------------------------------------------
  // Jobs that no arrival can displace
  // ---------------------------------------------------------------------------------------------

  /** The part of the wait list in which a job competes for slots. */
  ghost function View(s: State, p: string, id: JobId): seq<JobId> {
    if p in s.defs then LaneOf(s, p, PartOf(s.jobs)(id)) else ListOf(s.wait, p)
  }

  ghost function QueueRank(s: State, p: string, id: JobId): nat {
    IndexOf(View(s, p, id), id)
  }

  /** A waiting job of an append queue, or one that stands before the last slot of a replace queue. */
  ghost predicate Secure(s: State, p: string, id: JobId) {
    && p in s.defs && id in s.jobs && s.jobs[id].pipeline == p && Live(s.jobs[id])
    && (s.defs[p].queueStrategy.Append? || QueueRank(s, p, id) < Slots(s.defs[p]) - 1)
  }

  /** The events that may cancel this very job on request. */
  ghost predicate OnRequest(e: Event, id: JobId) {
    match e
    case CancelRequest(x) => x == id
    case TaskChange(x, _, _) => x == id
    case StopAll => true
    case _ => false
  }

  lemma LiveInView(s: State, p: string, id: JobId)
    requires Consistent(s) && id in s.jobs && s.jobs[id].pipeline == p && Live(s.jobs[id])
    ensures id in ListOf(s.wait, p) && id in View(s, p, id) && NoDup(View(s, p, id)) && s.jobs[id].ticket >= 0
  {
    hide Filter;
    ConsistentTidy(s, {}, p);
    assert Tidy(s, p, {});
    var keep := InPartition(PartOf(s.jobs), PartOf(s.jobs)(id));
    FilterElems(ListOf(s.wait, p), keep);
    FilterNoDup(ListOf(s.wait, p), keep);
  }

  lemma ShrunkRank(s: State, s': State, p: string, id: JobId)
    requires Consistent(s) && Consistent(s') && Shrunk(s, s', p) && SameDef(s, s', p) && Grows(s, s')
    requires id in s.jobs && s.jobs[id].pipeline == p && Live(s.jobs[id]) && Live(s'.jobs[id])
    ensures QueueRank(s', p, id) <= QueueRank(s, p, id)
  {
    hide ConsistentBut, Subseq, Filter;
    var w, w' := ListOf(s.wait, p), ListOf(s'.wait, p);
    assert Later(s.jobs[id], s'.jobs[id]);
    LiveInView(s, p, id);
    LiveInView(s', p, id);
    ConsistentTidy(s, {}, p);
    SubseqElems(w', w);
    var q := PartOf(s.jobs)(id);
    SamePartitions(s, s', w', q);
    SubseqFilter(w', w, InPartition(PartOf(s.jobs), q));
    SubseqIndex(View(s', p, id), View(s, p, id), id);
  }

  // The job at a secure rank keeps its place: a replacement takes the last slot.
  lemma ReplaceKeepsRank(v: seq<JobId>, limit: int, x: JobId, id: JobId)
    requires limit > 0 && NoDup(v) && id in v && IndexOf(v, id) < limit - 1
    ensures var q := ReplaceIn(v, limit, x);
      id in q.list && IndexOf(q.list, id) == IndexOf(v, id) && q.victim != Some(id)
  {
  }

  // An arrival on the job's own pipeline, seen from the job.
  lemma QueuedView(s: State, s': State, p: string, e: Event, id: JobId)
    requires Consistent(s) && DefsUsable(s.defs) && QueuedOnto(s, s', p, e)
    requires id in s.jobs && s.jobs[id].pipeline == p && Live(s.jobs[id]) && !s.defs[p].queueStrategy.Append?
    ensures Slots(s.defs[p]) > 0 && id in s'.jobs && s'.defs == s.defs
    ensures var q := ReplaceIn(View(s, p, id), Slots(s.defs[p]), e.req.id);
      || (View(s', p, id) == q.list && (q.victim != Some(id) ==> s'.jobs[id] == s.jobs[id]))
      || (View(s', p, id) == View(s, p, id) && s'.jobs[id] == s.jobs[id])
  {
    hide ConsistentBut, Enqueue, Takes;
    var q := PartOf(s.jobs)(id);
    var victim := EnqueuedLane(s, e.req, e.now, q);
    assert PartOf(s'.jobs)(id) == q;
    if s.defs[p].queueStrategy.PartitionedReplace? && q != e.req.partition {
      OtherPartition(s, p, e.req.partition, id);
    }
  }

  // A job is not on the queue of another partition.
  lemma OtherPartition(s: State, p: string, q: string, id: JobId)
    requires p in s.defs && s.defs[p].queueStrategy.PartitionedReplace? && PartOf(s.jobs)(id) != q
    ensures LastOf(LaneOf(s, p, q), Slots(s.defs[p])) != Some(id)
  {
    hide Filter;
    FilterElems(ListOf(s.wait, p), InPartition(PartOf(s.jobs), q));
    var lane := LaneOf(s, p, q);
    assert lane != [] ==> lane[|lane| - 1] in lane;
  }

  lemma QueuedRank(s: State, s': State, p: string, e: Event, id: JobId)
    requires Consistent(s) && DefsUsable(s.defs) && QueuedOnto(s, s', p, e) && Secure(s, p, id)
    ensures id in s'.jobs && Live(s'.jobs[id]) && QueueRank(s', p, id) <= QueueRank(s, p, id)
  {
    hide ConsistentBut, View, Enqueue, IndexOf;
    LiveInView(s, p, id);
    if s.defs[p].queueStrategy.Append? {
      AppendedRank(s, s', p, e, id);
    } else {
      QueuedView(s, s', p, e, id);
      ReplaceKeepsRank(View(s, p, id), Slots(s.defs[p]), e.req.id, id);
    }
  }

  lemma AppendedRank(s: State, s': State, p: string, e: Event, id: JobId)
    requires Consistent(s) && DefsUsable(s.defs) && QueuedOnto(s, s', p, e) && s.defs[p].queueStrategy.Append?
    requires id in s.jobs && s.jobs[id].pipeline == p && Live(s.jobs[id])
    ensures id in s'.jobs && Live(s'.jobs[id]) && QueueRank(s', p, id) == QueueRank(s, p, id)
  {
    LiveInView(s, p, id);
    AppendedIndex(ListOf(s.wait, p), e.req.id, id);
  }

  lemma {:induction false} AppendedIndex(v: seq<JobId>, x: JobId, id: JobId)
    requires id in v
    ensures IndexOf(v + [x], id) == IndexOf(v, id)
    decreases |v|
  {
    assert (v + [x])[0] == v[0];
    if v[0] != id {
      assert (v + [x])[1..] == v[1..] + [x];
      AppendedIndex(v[1..], x, id);
    }
  }

  /** The one other way off the list: the turn of a job came and its graph could not be built. */
  ghost predicate FailedToBuild(s: State, id: JobId) {
    && id in s.jobs && !s.jobs[id].builds && s.jobs[id].canceled && s.jobs[id].start.None?
    && s.jobs[id].lastError == Some("building execution graph")
  }

  /** Not canceled, or for that reason only. */
  ghost predicate NotCutOff(s: State, id: JobId) {
    id in s.jobs && (s.jobs[id].canceled ==> FailedToBuild(s, id))
  }

  lemma MovesSpare(s: State, s': State, p: string, now: int, id: JobId)
    requires Moves(s, s', p, now) && id in s.jobs && (Live(s.jobs[id]) || FailedToBuild(s, id))
    ensures NotCutOff(s', id)
    ensures FailedToBuild(s, id) ==> FailedToBuild(s', id)
  {
    assert JobMove(s.jobs[id], s'.jobs[id], now);
  }

  // A dispatch cancels only jobs that do not build, and leaves canceled ones alone.
  lemma DispatchSpares(s: State, s1: State, p: string, now: int, id: JobId)
    requires Consistent(s) && s1.wait == s.wait && s1.jobs.Keys == s.jobs.Keys
    requires forall x | x in s.jobs :: s1.jobs[x].pipeline == s.jobs[x].pipeline
    requires id in s.jobs && (Live(s1.jobs[id]) || FailedToBuild(s1, id))
    ensures var s' := StartJobsOnWaitList(s1, p, now);
      NotCutOff(s', id) && (FailedToBuild(s1, id) ==> FailedToBuild(s', id))
  {
    hide ConsistentBut, StartJobsOnWaitList, Moves, KeepsLive, FailedToBuild, NotCutOff;
    ConsistentTidy(s, {}, p);
    OwnEdited(s, s1, p);
    WaitListMoves(s1, p, now);
    MovesSpare(s1, StartJobsOnWaitList(s1, p, now), p, now, id);
  }

  lemma CompleteSpares(s: State, x: JobId, err: Option<string>, ctxCanceled: bool, now: int, id: JobId)
    requires Consistent(s) && x in s.spawned && x in s.jobs && id in s.jobs
    requires Live(s.jobs[id]) || FailedToBuild(s, id)
    ensures var s' := JobCompleted(s, x, err, ctxCanceled, now);
      NotCutOff(s', id) && (FailedToBuild(s, id) ==> FailedToBuild(s', id))
  {
    hide ConsistentBut, StartJobsOnWaitList;
    ConsistentTidy(s, {}, s.jobs[x].pipeline);
    var s1 := s.(jobs := s.jobs[x := CompletedJob(s.jobs[x], err, ctxCanceled, now)]);
    DispatchSpares(s, s1, s.jobs[x].pipeline, now, id);
  }

  lemma TimerSpares(s: State, x: JobId, now: int, id: JobId)
    requires Consistent(s) && id in s.jobs && (Live(s.jobs[id]) || FailedToBuild(s, id))
    ensures var s' := StartDelayedJob(s, x, now);
      NotCutOff(s', id) && (FailedToBuild(s, id) ==> FailedToBuild(s', id))
  {
    hide ConsistentBut, StartJobsOnWaitList;
    if x in s.known && x in s.jobs && !s.jobs[x].canceled {
      var s1 := s.(jobs := s.jobs[x := s.jobs[x].(timer := false)]);
      DispatchSpares(s, s1, s.jobs[x].pipeline, now, id);
    }
  }

  lemma DirectSpares(s: State, req: Request, now: int, id: JobId)
    requires Consistent(s) && Takes(s, req) && id in s.jobs && (Live(s.jobs[id]) || FailedToBuild(s, id))
    ensures var s' := StartJob(Fresh(s, req, now), req.id, now);
      NotCutOff(s', id) && (FailedToBuild(s, id) ==> FailedToBuild(s', id))
  {
    hide ConsistentBut, StartJob, Moves, KeepsLive;
    var p, s1 := req.pipeline, Fresh(s, req, now);
    ConsistentTidy(s, {}, p);
    OwnEdited(s, s1, p);
    StartJobMoves(s1, req.id, p, now);
    MovesSpare(s1, StartJob(s1, req.id, now), p, now, id);
  }

  // Nothing but a failed start, a replacement, a request or a shutdown cancels a live job.
  lemma NotCanceled(s: State, e: Event, id: JobId)
    requires Consistent(s) && DefsUsable(s.defs) && Enabled(s, e) && !OnRequest(e, id)
    requires id in s.jobs && Live(s.jobs[id]) && Shrunk(s, Next(s, e), s.jobs[id].pipeline)
    ensures NotCutOff(Next(s, e), id)
  {
    hide ConsistentBut, ScheduleAsync, RankingsFor, Shrunk, JobCompleted, StartDelayedJob, FailedToBuild;
    match e
    case Schedule(req, now) => ScheduleCancels(s, req, now, id);
    case Complete(x, err, ctxCanceled, now) => CompleteSpares(s, x, err, ctxCanceled, now, id);
    case TimerFired(x, now) => TimerSpares(s, x, now, id);
    case _ =>
  }

  lemma ScheduleCancels(s: State, req: Request, now: int, id: JobId)
    requires Consistent(s) && DefsUsable(s.defs) && req.id !in s.jobs
    requires id in s.jobs && Live(s.jobs[id]) && Shrunk(s, ScheduleAsync(s, req, now), s.jobs[id].pipeline)
    ensures NotCutOff(ScheduleAsync(s, req, now), id)
  {
    hide ConsistentBut, StartJob, Enqueue, Shrunk, ScheduleAsync, Refusal, Takes, Fresh, LimitReady, FailedToBuild;
    ScheduleIs(s, req, now);
    if Refusal(s, req.pipeline).None? {
      DirectSpares(s, req, now, id);
      FreshWaits(s, req, now);
      if ScheduleAsync(s, req, now) == Enqueue(Fresh(s, req, now), req.pipeline, req.id) {
        QueuedElsewhere(s, req, now, id);
      }
    }
  }

  // Queueing appends, so a list that shrank is not the one that was queued on.
  lemma QueuedElsewhere(s: State, req: Request, now: int, id: JobId)
    requires Consistent(s) && DefsUsable(s.defs) && Takes(s, req) && id in s.jobs && Live(s.jobs[id])
    requires req.pipeline in s.defs && LimitReady(s.defs[req.pipeline])
    requires Shrunk(s, Enqueue(Fresh(s, req, now), req.pipeline, req.id), s.jobs[id].pipeline)
    ensures var s' := Enqueue(Fresh(s, req, now), req.pipeline, req.id); id in s'.jobs && s'.jobs[id] == s.jobs[id]
  {
    hide ConsistentBut, Enqueue, Subseq;
    var p := req.pipeline;
    var victim := QueueingIs(s, req, now);
    var s' := Enqueue(Fresh(s, req, now), p, req.id);
    SubseqElems(ListOf(s'.wait, s.jobs[id].pipeline), ListOf(s.wait, s.jobs[id].pipeline));
    assert req.id in ListOf(s'.wait, p);
    ConsistentTidy(s, {}, p);
    assert forall x | x in ListOf(s.wait, p) :: s.jobs[x].pipeline == p;
  }

  /** A secure job keeps or improves its rank, or its turn has come. */
  lemma SecureStep(s: State, e: Event, p: string, id: JobId)
    requires Consistent(s) && DefsUsable(s.defs) && Enabled(s, e) && KeepsDef(s, e, p) && Secure(s, p, id)
    requires !OnRequest(e, id)
    ensures var s' := Next(s, e);
      || id in s'.spawned || (Secure(s', p, id) && QueueRank(s', p, id) <= QueueRank(s, p, id)) || FailedToBuild(s', id)
  {
    hide ConsistentBut, Grows, ListsOwn, Shrunk, QueuedOnto, QueueRank;
    var s' := Next(s, e);
    ConsistentOwn(s);
    StepGrows(s, e);
    StepKeepsConsistent(s, e);
    WaitStep(s, e, p);
    StepKeepsDef(s, e, p);
    GrownJob(s, s', id);
    LiveInView(s, p, id);
    if Shrunk(s, s', p) {
      NotCanceled(s, e, id);
      if Live(s'.jobs[id]) {
        ShrunkRank(s, s', p, id);
      } else if s'.jobs[id].start.Some? {
        ConsistentTidy(s', {}, p);
      }
    } else {
      QueuedRank(s, s', p, e, id);
    }
  }

  lemma GrownJob(s: State, s': State, id: JobId)
    requires Grows(s, s') && id in s.jobs
    ensures id in s'.jobs && Later(s.jobs[id], s'.jobs[id])
  {
  }

  lemma FailedStaysQueued(s: State, req: Request, now: int, id: JobId)
    requires Consistent(s) && DefsUsable(s.defs) && Takes(s, req) && FailedToBuild(s, id)
    requires req.pipeline in s.defs && LimitReady(s.defs[req.pipeline])
    ensures FailedToBuild(Enqueue(Fresh(s, req, now), req.pipeline, req.id), id)
  {
    hide ConsistentBut, Enqueue, LimitReady, ModifyWaitList, Refusal;
    var victim := QueueingIs(s, req, now);
  }

  lemma FailedStaysScheduled(s: State, req: Request, now: int, id: JobId)
    requires Consistent(s) && DefsUsable(s.defs) && req.id !in s.jobs && FailedToBuild(s, id)
    ensures FailedToBuild(ScheduleAsync(s, req, now), id)
  {
    hide ConsistentBut, StartJob, Enqueue, ScheduleAsync, Refusal, Takes, LimitReady, FailedToBuild, NotCutOff;
    ScheduleIs(s, req, now);
    FailedKnown(s, id);
    if Refusal(s, req.pipeline).None? {
      DirectSpares(s, req, now, id);
      FailedStaysQueued(s, req, now, id);
    }
  }

  lemma FailedKnown(s: State, id: JobId)
    requires FailedToBuild(s, id)
    ensures id in s.jobs
  {
  }

  // A job that was not started is never completed, so its error stays.
  lemma FailedStays(s: State, e: Event, id: JobId)
    requires Consistent(s) && DefsUsable(s.defs) && Enabled(s, e) && FailedToBuild(s, id)
    ensures FailedToBuild(Next(s, e), id)
  {
    hide ConsistentBut, ScheduleAsync, RankingsFor, JobCompleted, StartDelayedJob, HandleTaskChange, NotCutOff;
    match e
    case Schedule(req, now) => FailedStaysScheduled(s, req, now, id);
    case Complete(x, err, ctxCanceled, now) => CompleteSpares(s, x, err, ctxCanceled, now, id);
    case TimerFired(x, now) => TimerSpares(s, x, now, id);
    case TaskChange(x, name, report) => FailedStaysReported(s, x, name, report, id);
    case _ =>
  }

  lemma FailedStaysReported(s: State, x: JobId, name: string, r: TaskReport, id: JobId)
    requires FailedToBuild(s, id)
    ensures FailedToBuild(HandleTaskChange(s, x, name, r), id)
  {
    hide ReportedJob, TaskErrored, FailFast;
    if TaskKnown(s, x, name) {
      ReportKeeps(s.jobs[x], name, r);
    }
  }

  lemma {:induction false} FailedForever(s: State, events: seq<Event>, s': State, id: JobId)
    requires Consistent(s) && AnyRun(s, events, s') && FailedToBuild(s, id)
    ensures FailedToBuild(s', id)
    decreases |events|
  {
    hide Consistent, FailedToBuild;
    if events != [] {
      FailedStays(s, events[0], id);
      StepKeepsConsistent(s, events[0]);
      FailedForever(Next(s, events[0]), events[1..], s', id);
    }
  }

  /**
   * A job of an append queue, and one that stands before the last slot of its replace queue, can never be
   * canceled or pushed back by later arrivals: short of a cancel request or a shutdown it waits until its turn.
   */
  lemma {:induction false} SecureForGood(s: State, events: seq<Event>, s': State, p: string, id: JobId)
    requires Consistent(s) && StableRun(s, events, s', p) && Secure(s, p, id)
    requires forall e | e in events :: !OnRequest(e, id)
    ensures
      || id in s'.spawned
      || (Secure(s', p, id) && QueueRank(s', p, id) <= QueueRank(s, p, id))
      || FailedToBuild(s', id)
    decreases |events|
  {
    hide ConsistentBut, Secure, QueueRank, FailedToBuild;
    if events != [] {
      var e := events[0];
      SecureStep(s, e, p, id);
      StepKeepsConsistent(s, e);
      var s1 := Next(s, e);
      ConsistentOwn(s1);
      StableIsAny(s1, events[1..], s', p);
      if id in s1.spawned {
        ConsistentTidy(s1, {}, p);
        EndedForever(s1, events[1..], s', id);
      } else if FailedToBuild(s1, id) {
        FailedForever(s1, events[1..], s', id);
      } else {
        SecureForGood(s1, events[1..], s', p, id);
      }
    }
  }
}
