// Why a replace queue never gives up a started job, although failed starts leave such jobs on the wait list.
module RunnerLanes {
  import opened Basics
  import opened Definitions
  import opened WaitList
  import opened RunnerState
  import opened Dispatch
  import opened Promotion
  import opened RunnerEvents
  import opened RunnerLifecycle
  import opened RunnerIndexes

  // ---------------------------------------------------------------------------------------------
  // Queues
  // ---------------------------------------------------------------------------------------------

  /** The number of slots of a replace queue. */
  function Slots(def: PipelineDef): int {
    match def.queueStrategy
    case Append => 0
    case Replace => if def.queueLimit.Some? then def.queueLimit.value else 0
    case PartitionedReplace => if def.queuePartitionLimit.Some? then def.queuePartitionLimit.value else 0
  }

  /** The queue in which a job competes for slots: where the list is partitioned, what its partition sees. */
  function Lane(def: PipelineDef, part: JobId -> string, list: seq<JobId>, q: string): seq<JobId> {
    if def.queueStrategy.PartitionedReplace? then Project(part, list, q) else list
  }

  function LaneOf(s: State, p: string, q: string): seq<JobId>
    requires p in s.defs
  {
    Lane(s.defs[p], PartOf(s.jobs), ListOf(s.wait, p), q)
  }

  /** A queue within its limit, whose last slot holds no job that was started. */
  ghost predicate Roomy(jobs: JobTable, lane: seq<JobId>, limit: int) {
    |lane| <= limit && forall i | 0 <= i < |lane| && lane[i] in jobs && jobs[lane[i]].start.Some? :: i + 1 < limit
  }

  /** On a partitioned list, jobs that do not build wait with building ones of the same partition only. */
  ghost predicate Compatible(s: State, p: string) {
    p in s.defs && s.defs[p].queueStrategy.PartitionedReplace? ==>
      var w := ListOf(s.wait, p);
      forall x, y | x in w && y in w && x in s.jobs && y in s.jobs && !s.jobs[x].builds && s.jobs[y].builds ::
        s.jobs[x].partition == s.jobs[y].partition
  }

  /** A replace queue never gives up a job that was started. */
  ghost predicate Lanes(s: State, p: string) {
    && Compatible(s, p)
    && (p in s.defs && !s.defs[p].queueStrategy.Append? ==>
          forall q :: Roomy(s.jobs, LaneOf(s, p, q), Slots(s.defs[p])))
  }

  /** A request that may join the jobs waiting for its pipeline. */
  ghost predicate MayJoin(s: State, req: Request) {
    req.pipeline in s.defs && s.defs[req.pipeline].queueStrategy.PartitionedReplace? ==>
      forall id | id in ListOf(s.wait, req.pipeline) && id in s.jobs && s.jobs[id].builds != req.builds ::
        s.jobs[id].partition == req.partition
  }

  // The same list, and no listed job newly started.
  lemma SameLanes(s: State, s': State, p: string)
    requires SameDef(s, s', p) && ListOf(s'.wait, p) == ListOf(s.wait, p) && Lanes(s, p)
    requires forall id | id in ListOf(s.wait, p) :: id in s.jobs && id in s'.jobs && SameLane(s.jobs[id], s'.jobs[id])
    ensures Lanes(s', p)
  {
    hide Filter;
    if p in s.defs && !s.defs[p].queueStrategy.Append? {
      var w := ListOf(s.wait, p);
      forall q ensures Roomy(s'.jobs, LaneOf(s', p, q), Slots(s.defs[p])) {
        assert Roomy(s.jobs, LaneOf(s, p, q), Slots(s.defs[p]));
        FilterAgrees(w, InPartition(PartOf(s'.jobs), q), InPartition(PartOf(s.jobs), q));
        FilterElems(w, InPartition(PartOf(s.jobs), q));
        LaneElems(s.defs[p], PartOf(s.jobs), w, q);
      }
    }
  }

  ghost predicate SameLane(j: Job, j': Job) {
    j'.partition == j.partition && j'.builds == j.builds && (j'.start.Some? ==> j.start.Some?)
  }

  lemma LaneElems(def: PipelineDef, part: JobId -> string, list: seq<JobId>, q: string)
    ensures forall id | id in Lane(def, part, list, q) :: id in list
    ensures forall i | 0 <= i < |Lane(def, part, list, q)| :: Lane(def, part, list, q)[i] in list
  {
    hide Filter;
    FilterElems(list, InPartition(part, q));
    assert forall i | 0 <= i < |Lane(def, part, list, q)| :: Lane(def, part, list, q)[i] in Lane(def, part, list, q);
  }

  lemma NoLanes(s: State, p: string)
    requires ListOf(s.wait, p) == [] && DefsUsable(s.defs)
    ensures Lanes(s, p)
  {
  }

  // ---------------------------------------------------------------------------------------------
  // One queue
  // ---------------------------------------------------------------------------------------------

  // An entry leaves the middle, and one of the others may have been started.
  lemma RoomyDrop(jobs: JobTable, jobs': JobTable, a: seq<JobId>, x: seq<JobId>, b: seq<JobId>, limit: int,
                  c: Option<JobId>)
    requires Roomy(jobs, a + x + b, limit) && |x| <= 1
    requires forall id | id in a + b && id in jobs' && jobs'[id].start.Some? ::
      c == Some(id) || (id in jobs && jobs[id].start.Some?)
    requires c.Some? ==> c.value !in a
    requires c.Some? && x == [] ==> forall i | 0 <= i < |a + b| && (a + b)[i] == c.value :: i + 1 < limit
    ensures Roomy(jobs', a + b, limit)
  {
    var lane, lane' := a + x + b, a + b;
    forall i | 0 <= i < |lane'| && lane'[i] in jobs' && jobs'[lane'[i]].start.Some? ensures i + 1 < limit {
      var j := if i < |a| then i else i + |x|;
      assert lane[j] == lane'[i] && lane'[i] in lane';
    }
  }

  lemma RoomyReplace(jobs: JobTable, jobs': JobTable, lane: seq<JobId>, limit: int, id: JobId)
    requires Roomy(jobs, lane, limit) && limit > 0
    requires forall x | x in lane && x in jobs' && jobs'[x].start.Some? :: x in jobs && jobs[x].start.Some?
    requires id in jobs' && jobs'[id].start.None?
    ensures Roomy(jobs', ReplaceIn(lane, limit, id).list, limit)
  {
    var r := ReplaceIn(lane, limit, id).list;
    forall i | 0 <= i < |r| && r[i] in jobs' && jobs'[r[i]].start.Some? ensures i + 1 < limit {
      assert r[i] == lane[i] && lane[i] in lane;
    }
  }

  lemma RoomyStays(jobs: JobTable, jobs': JobTable, lane: seq<JobId>, limit: int)
    requires Roomy(jobs, lane, limit)
    requires forall x | x in jobs' && jobs'[x].start.Some? :: x in jobs && jobs[x].start.Some?
    ensures Roomy(jobs', lane, limit)
  {
  }

  lemma LaneSplit(def: PipelineDef, part: JobId -> string, a: seq<JobId>, x: JobId, b: seq<JobId>, q: string)
    ensures var one := if def.queueStrategy.PartitionedReplace? && part(x) != q then [] else [x];
      && Lane(def, part, a + [x] + b, q) == Lane(def, part, a, q) + one + Lane(def, part, b, q)
      && Lane(def, part, a + b, q) == Lane(def, part, a, q) + Lane(def, part, b, q)
  {
    hide Filter;
    var keep := InPartition(part, q);
    FilterAppend(a + [x], b, keep);
    FilterAppend(a, [x], keep);
    FilterAppend(a, b, keep);
    FilterOne(x, keep);
  }

  lemma LaneAgrees(def: PipelineDef, jobs: JobTable, jobs': JobTable, list: seq<JobId>, q: string)
    requires forall id | id in list :: id in jobs && id in jobs' && jobs'[id].partition == jobs[id].partition
    ensures Lane(def, PartOf(jobs'), list, q) == Lane(def, PartOf(jobs), list, q)
  {
    FilterAgrees(list, InPartition(PartOf(jobs'), q), InPartition(PartOf(jobs), q));
  }

  // ---------------------------------------------------------------------------------------------
  // A promotion
  // ---------------------------------------------------------------------------------------------

  /** All queues of a pipeline keep their last slots for jobs that wait. */
  ghost predicate AllRoomy(s: State, p: string) {
    p in s.defs && forall q :: Roomy(s.jobs, LaneOf(s, p, q), Slots(s.defs[p]))
  }

  /** The chosen job stands in the last slot of its queue, while the entry that leaves is of another partition. */
  ghost predicate Strands(s: State, p: string) {
    var w := ListOf(s.wait, p);
    var k, c := FirstStartable(s.jobs, w), Chosen(s.jobs, w);
    && p in s.defs && s.defs[p].queueStrategy.PartitionedReplace? && k < |w| && c.Some?
    && PartOf(s.jobs)(w[k]) != PartOf(s.jobs)(c.value)
    && var lane := LaneOf(s, p, PartOf(s.jobs)(c.value));
       lane != [] && |lane| == Slots(s.defs[p]) && lane[|lane| - 1] == c.value
  }

  // The list around its first startable entry.
  lemma SplitAtFirst(jobs: JobTable, w: seq<JobId>)
    requires NoDup(w) && FirstStartable(jobs, w) < |w|
    ensures var k := FirstStartable(jobs, w);
      && w == w[..k] + [w[k]] + w[k + 1..] && w == w[..k] + ([w[k]] + w[k + 1..])
      && WithoutFirst(jobs, w) == w[..k] + w[k + 1..]
      && w[k] !in w[..k] && w[k] !in w[k + 1..] && Startable(jobs, w[k]) && NoneStartable(jobs, w[..k])
  {
    hide FirstStartable;
    FirstStartableIs(jobs, w);
  }

  // The entry that is chosen is the first startable one, or stands behind it.
  lemma AroundFirst(jobs: JobTable, w: seq<JobId>)
    requires NoDup(w) && FirstStartable(jobs, w) < |w|
    ensures var k, c := FirstStartable(jobs, w), Chosen(jobs, w);
      && w[k] in jobs
      && (c.Some? ==> c.value !in w[..k] && c.value in w && c.value in jobs && jobs[c.value].builds)
      && (c.Some? && c.value != w[k] ==> !jobs[w[k]].builds && c.value in w[k + 1..])
  {
    hide Chosen, PassedOver, FirstStartable, NoDup;
    var k := FirstStartable(jobs, w);
    SplitAtFirst(jobs, w);
    ChosenIs(jobs, w);
    SkipPrefix(jobs, w[..k], [w[k]] + w[k + 1..]);
    if jobs[w[k]].builds {
      FirstChosen(jobs, w[k], w[k + 1..]);
    }
    if Chosen(jobs, w).Some? {
      InThree(w[..k], w[k], w[k + 1..], Chosen(jobs, w).value);
    }
  }

  lemma InThree(a: seq<JobId>, x: JobId, b: seq<JobId>, y: JobId)
    requires y in a + [x] + b
    ensures y in a || y == x || y in b
  {
  }

  lemma FirstChosen(jobs: JobTable, x: JobId, rest: seq<JobId>)
    requires Startable(jobs, x) && jobs[x].builds
    ensures Chosen(jobs, [x] + rest) == Some(x)
  {
  }

  // One queue before and after: the entry that leaves is on it, or the queue stays as it is.
  lemma PromotedLane(s: State, p: string, now: int, q: string) returns (a: seq<JobId>, one: seq<JobId>, b: seq<JobId>)
    requires FreeSlots(s, p) > 0 && p in s.defs && Ordered(s, p)
    requires FirstStartable(s.jobs, ListOf(s.wait, p)) < |ListOf(s.wait, p)|
    ensures Promote(s, p, now).defs == s.defs
    ensures LaneOf(s, p, q) == a + one + b && LaneOf(Promote(s, p, now), p, q) == a + b && |one| <= 1
    ensures one == [] <==>
      s.defs[p].queueStrategy.PartitionedReplace? &&
      PartOf(s.jobs)(ListOf(s.wait, p)[FirstStartable(s.jobs, ListOf(s.wait, p))]) != q
    ensures Chosen(s.jobs, ListOf(s.wait, p)).Some? ==> Chosen(s.jobs, ListOf(s.wait, p)).value !in a
  {
    hide FreeSlots, FirstStartable, Chosen, PassedOver, Lane, Promote, WithoutFirst, NoDup;
    var w := ListOf(s.wait, p);
    var k := FirstStartable(s.jobs, w);
    OrderedOnce(s, p);
    SplitAtFirst(s.jobs, w);
    AroundFirst(s.jobs, w);
    PromotedList(s, p, now, q);
    LaneSplit(s.defs[p], PartOf(s.jobs), w[..k], w[k], w[k + 1..], q);
    LaneElems(s.defs[p], PartOf(s.jobs), w[..k], q);
    a, b := Lane(s.defs[p], PartOf(s.jobs), w[..k], q), Lane(s.defs[p], PartOf(s.jobs), w[k + 1..], q);
    one := if s.defs[p].queueStrategy.PartitionedReplace? && PartOf(s.jobs)(w[k]) != q then [] else [w[k]];
  }

  lemma OrderedOnce(s: State, p: string)
    requires Ordered(s, p)
    ensures NoDup(ListOf(s.wait, p))
  {
  }

  lemma PromotedList(s: State, p: string, now: int, q: string)
    requires FreeSlots(s, p) > 0 && p in s.defs && Ordered(s, p)
    ensures Promote(s, p, now).defs == s.defs
    ensures LaneOf(Promote(s, p, now), p, q) ==
      Lane(s.defs[p], PartOf(s.jobs), WithoutFirst(s.jobs, ListOf(s.wait, p)), q)
  {
    hide FreeSlots, FirstStartable, Chosen, PassedOver, Lane;
    var s', w := Promote(s, p, now), ListOf(s.wait, p);
    assert forall id | id in WithoutFirst(s.jobs, w) :: id in w;
    LaneAgrees(s.defs[p], s.jobs, s'.jobs, WithoutFirst(s.jobs, w), q);
  }

  // The started job, if it stays on its queue, has moved up, or did not hold the last slot.
  lemma PromotedLaneRoomy(s: State, p: string, now: int, q: string)
    requires FreeSlots(s, p) > 0 && Ordered(s, p) && p in s.defs && !Strands(s, p)
    requires FirstStartable(s.jobs, ListOf(s.wait, p)) < |ListOf(s.wait, p)|
    requires Roomy(s.jobs, LaneOf(s, p, q), Slots(s.defs[p]))
    ensures Roomy(Promote(s, p, now).jobs, LaneOf(Promote(s, p, now), p, q), Slots(s.defs[p]))
  {
    hide FreeSlots, FirstStartable, Chosen, LaneOf, Promote, Roomy, Ordered, Strands;
    var a, one, b := PromotedLane(s, p, now, q);
    PromotedStarts(s, p, now);
    var c := Chosen(s.jobs, ListOf(s.wait, p));
    if c.Some? && one == [] {
      assert a + one + b == a + b;
      forall i | 0 <= i < |a + b| && (a + b)[i] == c.value ensures i + 1 < Slots(s.defs[p]) {
        NotStranded(s, p, q, i);
      }
    }
    RoomyDrop(s.jobs, Promote(s, p, now).jobs, a, one, b, Slots(s.defs[p]), c);
  }

  lemma PromotedStarts(s: State, p: string, now: int)
    requires FreeSlots(s, p) > 0
    ensures var s', c := Promote(s, p, now), Chosen(s.jobs, ListOf(s.wait, p));
      forall id | id in s'.jobs ::
        id in s.jobs && (s'.jobs[id].start.Some? <==> c == Some(id) || s.jobs[id].start.Some?)
  {
    hide FreeSlots, Chosen, PassedOver, FirstStartable, WithoutFirst;
  }

  // Where the entry that leaves is of another partition, the chosen job does not hold the last slot.
  lemma NotStranded(s: State, p: string, q: string, i: nat)
    requires p in s.defs && s.defs[p].queueStrategy.PartitionedReplace? && !Strands(s, p)
    requires Roomy(s.jobs, LaneOf(s, p, q), Slots(s.defs[p])) && i < |LaneOf(s, p, q)|
    requires var w := ListOf(s.wait, p); var k, c := FirstStartable(s.jobs, w), Chosen(s.jobs, w);
      k < |w| && c.Some? && PartOf(s.jobs)(w[k]) != q && LaneOf(s, p, q)[i] == c.value
    ensures i + 1 < Slots(s.defs[p])
  {
    hide FirstStartable, Chosen, Filter;
    FilterElems(ListOf(s.wait, p), InPartition(PartOf(s.jobs), q));
    assert LaneOf(s, p, q)[i] in LaneOf(s, p, q);
  }

  /**
   * Starting the next job costs a replace queue its last slot exactly when the job started holds it and the
   * entry that leaves the list, one that did not build, is of another partition.
   */
  lemma PromoteRoomyIff(s: State, p: string, now: int)
    requires FreeSlots(s, p) > 0 && Ordered(s, p) && AllRoomy(s, p)
    ensures AllRoomy(Promote(s, p, now), p) <==> !Strands(s, p)
  {
    hide FreeSlots, FirstStartable, Chosen, PassedOver, Lane, LaneOf, Promote, Roomy, WithoutFirst, Ordered;
    var w, s' := ListOf(s.wait, p), Promote(s, p, now);
    if FirstStartable(s.jobs, w) == |w| {
      IdleRoomy(s, p, now);
    } else if !Strands(s, p) {
      PromotedDefs(s, p, now);
      FirstInList(s.jobs, w);
      forall q ensures Roomy(s'.jobs, LaneOf(s', p, q), Slots(s.defs[p])) {
        PromotedLaneRoomy(s, p, now, q);
      }
    } else {
      StrandedLane(s, p, now);
    }
  }

  lemma FirstInList(jobs: JobTable, w: seq<JobId>)
    ensures FirstStartable(jobs, w) <= |w|
  {
    FirstStartableIs(jobs, w);
  }

  lemma PromotedDefs(s: State, p: string, now: int)
    ensures Promote(s, p, now).defs == s.defs
  {
  }

  lemma IdleRoomy(s: State, p: string, now: int)
    requires FreeSlots(s, p) > 0 && AllRoomy(s, p) && FirstStartable(s.jobs, ListOf(s.wait, p)) == |ListOf(s.wait, p)|
    ensures AllRoomy(Promote(s, p, now), p) && !Strands(s, p)
  {
    hide FreeSlots, Promote, LaneOf, Roomy;
    var w, s' := ListOf(s.wait, p), Promote(s, p, now);
    FirstStartableIs(s.jobs, w);
    assert w[..|w|] == w;
    PromoteNone(s, p, now);
    forall q ensures LaneOf(s', p, q) == LaneOf(s, p, q) {
      SameLaneOf(s, p, q);
    }
  }

  lemma SameLaneOf(s: State, p: string, q: string)
    requires p in s.defs
    ensures LaneOf(s.(wait := s.wait[p := ListOf(s.wait, p)]), p, q) == LaneOf(s, p, q)
  {
  }

  lemma StrandedLane(s: State, p: string, now: int)
    requires FreeSlots(s, p) > 0 && Ordered(s, p) && p in s.defs && Strands(s, p)
    ensures !AllRoomy(Promote(s, p, now), p)
  {
    hide FreeSlots, FirstStartable, Chosen, LaneOf, Promote, Ordered;
    var w, s' := ListOf(s.wait, p), Promote(s, p, now);
    var c := Chosen(s.jobs, w).value;
    var q := PartOf(s.jobs)(c);
    var a, one, b := PromotedLane(s, p, now, q);
    assert a + one + b == a + b;
    ChosenIs(s.jobs, w);
    PromotedStarts(s, p, now);
    PromotedKeys(s, p, now);
    var lane := LaneOf(s', p, q);
    assert lane[|lane| - 1] == c && c in s'.jobs;
    assert !Roomy(s'.jobs, lane, Slots(s.defs[p]));
  }

  lemma PromotedKeys(s: State, p: string, now: int)
    ensures Promote(s, p, now).jobs.Keys == s.jobs.Keys
  {
  }

  lemma CompatibleNeverStrands(s: State, p: string)
    requires Ordered(s, p) && Compatible(s, p)
    ensures !Strands(s, p)
  {
    hide FirstStartable, Chosen, LaneOf;
    var w := ListOf(s.wait, p);
    if FirstStartable(s.jobs, w) < |w| {
      AroundFirst(s.jobs, w);
    }
  }

  /** Starting the next job keeps the queues of a pipeline whose jobs may wait together. */
  lemma PromoteLanes(s: State, p: string, now: int)
    requires FreeSlots(s, p) > 0 && Ordered(s, p) && Lanes(s, p)
    ensures Lanes(Promote(s, p, now), p)
  {
    hide FreeSlots, FirstStartable, Chosen, PassedOver, Promote, LaneOf, Roomy, Strands;
    CompatibleNeverStrands(s, p);
    PromotedDefs(s, p, now);
    if p in s.defs && !s.defs[p].queueStrategy.Append? {
      PromoteRoomyIff(s, p, now);
    }
    PromotedCompatible(s, p, now);
  }

  lemma PromotedCompatible(s: State, p: string, now: int)
    requires FreeSlots(s, p) > 0 && Ordered(s, p) && Compatible(s, p)
    ensures Compatible(Promote(s, p, now), p)
  {
    hide FreeSlots, FirstStartable, Chosen, PassedOver;
    var w, s' := ListOf(s.wait, p), Promote(s, p, now);
    assert forall id | id in ListOf(s'.wait, p) :: id in w;
    assert forall id | id in s'.jobs ::
      s'.jobs[id].builds == s.jobs[id].builds && s'.jobs[id].partition == s.jobs[id].partition;
  }

  // ---------------------------------------------------------------------------------------------
  // An arrival
  // ---------------------------------------------------------------------------------------------

  /** The last entry of a full queue: the job that an arrival replaces. */
  function LastOf(lane: seq<JobId>, limit: int): Option<JobId> {
    if lane != [] && |lane| >= limit then Some(lane[|lane| - 1]) else None
  }

  // An arrival, queue by queue.
  lemma ArrivalLanes(def: PipelineDef, part: JobId -> string, w: seq<JobId>, id: JobId, q: string)
    requires LimitReady(def) && !def.queueStrategy.Append? && NoDup(w)
    ensures var r := ModifyWaitList(def, part, w, id); var lane := Lane(def, part, w, part(id));
      && r.victim == LastOf(lane, Slots(def)) && Slots(def) > 0
      && Lane(def, part, r.list, q) ==
        if def.queueStrategy.PartitionedReplace? && q != part(id) then Lane(def, part, w, q)
        else ReplaceIn(lane, Slots(def), id).list
  {
    hide Filter;
    if def.queueStrategy.PartitionedReplace? {
      PartitionedIsReplace(part, w, Slots(def), id, q);
    }
  }

  // The victim of an arrival waits: it holds the last slot of a full queue.
  lemma VictimWaits(jobs: JobTable, lane: seq<JobId>, limit: int)
    requires Roomy(jobs, lane, limit)
    ensures var v := LastOf(lane, limit); v.Some? && v.value in jobs ==> jobs[v.value].start.None?
  {
  }

  lemma FreshLane(s: State, req: Request, now: int, q: string)
    requires Consistent(s) && req.pipeline in s.defs && req.id !in s.jobs
    ensures var p, s1 := req.pipeline, Fresh(s, req, now);
      Lane(s.defs[p], PartOf(s1.jobs), ListOf(s.wait, p), q) == LaneOf(s, p, q)
  {
    hide Lane;
    ConsistentTidy(s, {}, req.pipeline);
    LaneAgrees(s.defs[req.pipeline], s.jobs, Fresh(s, req, now).jobs, ListOf(s.wait, req.pipeline), q);
  }

  /** The queues after an arrival: that of its partition sees a replacement, the others see nothing. */
  lemma EnqueuedLane(s: State, req: Request, now: int, q: string) returns (victim: Option<JobId>)
    requires Consistent(s) && DefsUsable(s.defs) && Takes(s, req) && !s.defs[req.pipeline].queueStrategy.Append?
    ensures req.pipeline in s.defs && LimitReady(s.defs[req.pipeline]) && Slots(s.defs[req.pipeline]) > 0
    ensures var p, s2 := req.pipeline, Enqueue(Fresh(s, req, now), req.pipeline, req.id);
      var lane := LaneOf(s, p, req.partition);
      && s2.defs == s.defs && victim == LastOf(lane, Slots(s.defs[p]))
      && LaneOf(s2, p, q) == (if s.defs[p].queueStrategy.PartitionedReplace? && q != req.partition then LaneOf(s, p, q)
                              else ReplaceIn(lane, Slots(s.defs[p]), req.id).list)
      && (forall x | x in s.jobs ::
            x in s2.jobs &&
            s2.jobs[x] == if victim == Some(x) then s.jobs[x].(canceled := true, timer := false) else s.jobs[x])
  {
    hide ModifyWaitList, Lane, ConsistentBut, Enqueue;
    var p, s1 := req.pipeline, Fresh(s, req, now);
    victim := QueueingIs(s, req, now);
    ConsistentTidy(s, {}, p);
    FreshLane(s, req, now, q);
    FreshLane(s, req, now, req.partition);
    ArrivalLanes(s.defs[p], PartOf(s1.jobs), ListOf(s.wait, p), req.id, q);
    ArrivedList(s1, p, req.id, q);
  }

  lemma ArrivedList(s: State, p: string, id: JobId, q: string)
    requires p in s.defs && LimitReady(s.defs[p]) && id in s.jobs && forall x | x in ListOf(s.wait, p) :: x in s.jobs
    ensures LaneOf(Enqueue(s, p, id), p, q) ==
      Lane(s.defs[p], PartOf(s.jobs), ModifyWaitList(s.defs[p], PartOf(s.jobs), ListOf(s.wait, p), id).list, q)
  {
    hide ModifyWaitList, Lane;
    var list := ModifyWaitList(s.defs[p], PartOf(s.jobs), ListOf(s.wait, p), id).list;
    QueuedElems(s.defs[p], PartOf(s.jobs), ListOf(s.wait, p), id);
    LaneAgrees(s.defs[p], s.jobs, Enqueue(s, p, id).jobs, list, q);
  }
}
