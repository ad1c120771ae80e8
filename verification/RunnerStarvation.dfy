// When a replace queue can starve its jobs although it has two slots or more: exactly when the slots before its
// last one are held by jobs that have been canceled or started, which never leave them.
module RunnerStarvation {
  import opened Basics
  import opened Definitions
  import opened WaitList
  import opened RunnerState
  import opened Dispatch
  import opened Retention
  import opened RunnerEvents
  import opened RunnerLifecycle
  import opened RunnerIndexes
  import opened RunnerLanes
  import opened RunnerArrivals
  import opened RunnerQueues
  import opened RunnerLeftovers

  /** The slots before the last one of a queue are held by entries that will never start. */
  ghost predicate Clogged(s: State, p: string, q: string) {
    && p in s.defs && !s.defs[p].queueStrategy.Append?
    && var lane, n := LaneOf(s, p, q), Slots(s.defs[p]) - 1;
       n <= |lane| && forall i | 0 <= i < n :: lane[i] in s.jobs && !Live(s.jobs[lane[i]])
  }

  /** The slots before the last one, as far as they are taken. */
  ghost function Front(s: State, p: string, q: string): seq<JobId>
    requires p in s.defs
  {
    var lane, n := LaneOf(s, p, q), Slots(s.defs[p]) - 1;
    if 0 <= n <= |lane| then lane[..n] else []
  }

  // ---------------------------------------------------------------------------------------------
  // One step
  // ---------------------------------------------------------------------------------------------

  // What keeps its first entries when it loses others keeps them in their places.
  lemma {:induction false} SubseqPrefix(v: seq<JobId>, w: seq<JobId>, n: nat)
    requires Subseq(v, w) && NoDup(w) && n <= |w| && forall i | 0 <= i < n :: w[i] in v
    ensures n <= |v| && v[..n] == w[..n]
    decreases |w|
  {
    if n > 0 {
      assert w == [w[0]] + w[1..] && v == [v[0]] + v[1..];
      if !(v[0] == w[0] && Subseq(v[1..], w[1..])) {
        SubseqElems(v, w[1..]);
        assert w[0] in w[1..];
      }
      forall i | 0 <= i < n - 1 ensures w[1..][i] in v[1..] {
        assert w[1..][i] == w[i + 1] && w[i + 1] != w[0];
      }
      SubseqPrefix(v[1..], w[1..], n - 1);
      assert v[..n] == [v[0]] + v[1..][..n - 1] && w[..n] == [w[0]] + w[1..][..n - 1];
    }
  }

  // A list that shrank, seen from one queue.
  lemma ShrunkLane(s: State, s': State, p: string, q: string)
    requires Consistent(s) && Shrunk(s, s', p) && SameDef(s, s', p) && Grows(s, s') && p in s.defs
    ensures Subseq(LaneOf(s', p, q), LaneOf(s, p, q)) && NoDup(LaneOf(s, p, q))
  {
    hide ConsistentBut, Subseq, Filter, Grows;
    ConsistentTidy(s, {}, p);
    var w, w' := ListOf(s.wait, p), ListOf(s'.wait, p);
    SubseqElems(w', w);
    SamePartitions(s, s', w', q);
    SubseqFilter(w', w, InPartition(PartOf(s.jobs), q));
    FilterNoDup(w, InPartition(PartOf(s.jobs), q));
  }

  // An entry of a queue is on the list, in the partition of the queue.
  lemma InLane(s: State, p: string, q: string, x: JobId)
    requires p in s.defs
    ensures x in LaneOf(s, p, q) <==>
      x in ListOf(s.wait, p) && (s.defs[p].queueStrategy.PartitionedReplace? ==> PartOf(s.jobs)(x) == q)
  {
    hide Filter;
    FilterElems(ListOf(s.wait, p), InPartition(PartOf(s.jobs), q));
  }

  lemma StaysInLane(s: State, s': State, p: string, q: string, x: JobId)
    requires p in s.defs && SameDef(s, s', p) && Grows(s, s') && x in s.jobs && x in LaneOf(s, p, q)
    requires x in ListOf(s'.wait, p)
    ensures x in LaneOf(s', p, q)
  {
    hide LaneOf;
    InLane(s, p, q, x);
    InLane(s', p, q, x);
    assert Later(s.jobs[x], s'.jobs[x]);
  }

  lemma ShrunkFront(s: State, e: Event, p: string, q: string)
    requires Consistent(s) && DefsUsable(s.defs) && RunnerEvents.Enabled(s, e) && !e.StopAll? && Clogged(s, p, q)
    requires var s' := Next(s, e); Shrunk(s, s', p) && SameDef(s, s', p) && Grows(s, s') && !QueuedOnto(s, s', p, e)
    ensures var n := Slots(s.defs[p]) - 1;
      n >= 0 ==> n <= |LaneOf(Next(s, e), p, q)| && LaneOf(Next(s, e), p, q)[..n] == LaneOf(s, p, q)[..n]
  {
    hide ConsistentBut, Next, LaneOf, QueuedOnto, Shrunk, Grows;
    var s', lane, n := Next(s, e), LaneOf(s, p, q), Slots(s.defs[p]) - 1;
    ShrunkLane(s, s', p, q);
    if n >= 0 {
      forall i | 0 <= i < n ensures lane[i] in LaneOf(s', p, q) {
        InLane(s, p, q, lane[i]);
        LeftoverStep(s, e, p, lane[i]);
        StaysInLane(s, s', p, q, lane[i]);
      }
      SubseqPrefix(LaneOf(s', p, q), lane, n);
    }
  }

  lemma QueuedFront(s: State, s': State, p: string, e: Event, q: string)
    requires Consistent(s) && DefsUsable(s.defs) && QueuedOnto(s, s', p, e) && Clogged(s, p, q)
    ensures s'.defs == s.defs
    ensures var n := Slots(s.defs[p]) - 1;
      n >= 0 ==> n <= |LaneOf(s', p, q)| && LaneOf(s', p, q)[..n] == LaneOf(s, p, q)[..n]
  {
    hide ConsistentBut, Enqueue, LaneOf, Takes;
    var _ := EnqueuedLane(s, e.req, e.now, q);
    SameLaneForAll(s, p, q, e.req.partition);
  }

  lemma SameLaneForAll(s: State, p: string, q: string, r: string)
    requires p in s.defs
    ensures !s.defs[p].queueStrategy.PartitionedReplace? || q == r ==> LaneOf(s, p, q) == LaneOf(s, p, r)
  {
  }

  lemma StillClogged(s: State, s': State, p: string, q: string)
    requires Clogged(s, p, q) && SameDef(s, s', p) && Grows(s, s')
    requires var n := Slots(s.defs[p]) - 1;
      n >= 0 ==> n <= |LaneOf(s', p, q)| && LaneOf(s', p, q)[..n] == LaneOf(s, p, q)[..n]
    ensures Clogged(s', p, q) && Front(s', p, q) == Front(s, p, q)
  {
    hide LaneOf, Grows;
    var lane, lane', n := LaneOf(s, p, q), LaneOf(s', p, q), Slots(s.defs[p]) - 1;
    forall i | 0 <= i < n ensures lane'[i] in s'.jobs && !Live(s'.jobs[lane'[i]]) {
      assert lane'[i] == lane'[..n][i] == lane[..n][i] == lane[i];
      GrownJob(s, s', lane[i]);
    }
  }

  lemma CloggedStep(s: State, e: Event, p: string, q: string)
    requires Consistent(s) && DefsUsable(s.defs) && RunnerEvents.Enabled(s, e) && KeepsDef(s, e, p) && !e.StopAll?
    requires Clogged(s, p, q)
    ensures var s' := Next(s, e); SameDef(s, s', p) && Clogged(s', p, q) && Front(s', p, q) == Front(s, p, q)
  {
    hide ConsistentBut, Next, Clogged, QueuedOnto, Shrunk, Grows, LaneOf, Front, ListsOwn;
    var s' := Next(s, e);
    ConsistentOwn(s);
    StepGrows(s, e);
    StepKeepsDef(s, e, p);
    WaitStep(s, e, p);
    CloggedDef(s, p, q);
    if QueuedOnto(s, s', p, e) {
      QueuedFront(s, s', p, e, q);
    } else {
      ShrunkFront(s, e, p, q);
    }
    StillClogged(s, s', p, q);
  }

  lemma CloggedDef(s: State, p: string, q: string)
    requires Clogged(s, p, q)
    ensures p in s.defs && !s.defs[p].queueStrategy.Append?
  {
  }

  // ---------------------------------------------------------------------------------------------
  // Whole runs
  // ---------------------------------------------------------------------------------------------

  // The queue of a job is the one it is found on.
  lemma ViewIsLane(s: State, p: string, q: string, id: JobId)
    requires p in s.defs && id in LaneOf(s, p, q)
    ensures View(s, p, id) == LaneOf(s, p, q)
  {
    InLane(s, p, q, id);
    SameLaneForAll(s, p, q, PartOf(s.jobs)(id));
  }

  lemma NobodySecure(s: State, p: string, q: string, id: JobId)
    requires Clogged(s, p, q) && id in LaneOf(s, p, q)
    ensures !Secure(s, p, id)
  {
    hide LaneOf, View;
    ViewIsLane(s, p, q, id);
  }

  /** Some job of the queue stands where no arrival can displace it. */
  ghost predicate HasSecure(s: State, p: string, q: string) {
    p in s.defs && exists id | id in LaneOf(s, p, q) :: Secure(s, p, id)
  }

  /**
   * Once the slots before the last one are held by leftovers, they are held by the same ones for good, and no
   * job of this queue ever stands where arrivals cannot displace it.
   */
  lemma {:induction false} CloggedForGood(s: State, events: seq<Event>, s': State, p: string, q: string)
    requires Consistent(s) && StableRun(s, events, s', p) && NoShutdown(events) && Clogged(s, p, q)
    ensures Clogged(s', p, q) && Front(s', p, q) == Front(s, p, q) && !HasSecure(s', p, q)
    decreases |events|
  {
    hide Consistent, Clogged, Front, KeepsDef, Secure, LaneOf;
    CloggedDef(s, p, q);
    if events == [] {
      forall id | id in LaneOf(s, p, q) ensures !Secure(s, p, id) {
        NobodySecure(s, p, q, id);
      }
    } else {
      var e := events[0];
      CloggedStep(s, e, p, q);
      StepKeepsConsistent(s, e);
      CloggedDef(Next(s, e), p, q);
      CloggedForGood(Next(s, e), events[1..], s', p, q);
    }
  }

  // ---------------------------------------------------------------------------------------------
  // One arrival
  // ---------------------------------------------------------------------------------------------

  // The queue after an arrival of its own: the newcomer is last.
  lemma ArrivedLast(s: State, s': State, p: string, e: Event)
    requires Consistent(s) && DefsUsable(s.defs) && QueuedOnto(s, s', p, e) && !s.defs[p].queueStrategy.Append?
    ensures s'.defs == s.defs && Consistent(s') && Slots(s.defs[p]) > 0
    ensures var lane, id := LaneOf(s, p, e.req.partition), e.req.id;
      && LaneOf(s', p, e.req.partition) == ReplaceIn(lane, Slots(s.defs[p]), id).list
      && id in s'.jobs && Live(s'.jobs[id]) && s'.jobs[id].pipeline == p && id !in lane && NoDup(lane)
  {
    hide ConsistentBut, Enqueue, LaneOf, NewJob;
    var req, now := e.req, e.now;
    var _ := EnqueuedLane(s, req, now, req.partition);
    var victim := QueueingIs(s, req, now);
    CreatedConsistent(s, req, now);
    NewestTicket(s, req, now);
    FreshIsLive(s, req, now);
    EnqueueSettles(Fresh(s, req, now), p, req.id);
    InLane(s, p, req.partition, req.id);
    LaneNoDup(s, p, req.partition);
  }

  lemma LaneNoDup(s: State, p: string, q: string)
    requires Consistent(s) && p in s.defs
    ensures NoDup(LaneOf(s, p, q))
  {
    hide ConsistentBut, Filter;
    ConsistentTidy(s, {}, p);
    FilterNoDup(ListOf(s.wait, p), InPartition(PartOf(s.jobs), q));
  }

  lemma {:induction false} IndexOfLast(v: seq<JobId>, id: JobId)
    requires v != [] && v[|v| - 1] == id && id !in v[..|v| - 1]
    ensures IndexOf(v, id) == |v| - 1
    decreases |v|
  {
    if |v| > 1 {
      assert v[0] in v[..|v| - 1];
      assert v[1..][..|v| - 2] == v[1..|v| - 1];
      IndexOfLast(v[1..], id);
    }
  }

  /** The job that arrives can never be displaced exactly when fewer than limit - 1 entries were before it. */
  lemma NewcomerSecureIff(s: State, s': State, p: string, e: Event)
    requires Consistent(s) && DefsUsable(s.defs) && QueuedOnto(s, s', p, e) && !s.defs[p].queueStrategy.Append?
    ensures Secure(s', p, e.req.id) <==> |LaneOf(s, p, e.req.partition)| < Slots(s.defs[p]) - 1
  {
    hide ConsistentBut, Enqueue, LaneOf, View, IndexOf, Fresh;
    ArrivedLast(s, s', p, e);
    var lane, v := LaneOf(s, p, e.req.partition), LaneOf(s', p, e.req.partition);
    assert v[..|v| - 1] <= lane;
    ViewIsLane(s', p, e.req.partition, e.req.id);
    IndexOfLast(v, e.req.id);
  }

  /**
   * The first live job of a replace queue is displaced by an arrival exactly when the queue is full and every
   * entry before the last one is a leftover: the limit alone does not protect it.
   */
  lemma FirstLiveDisplacedIff(s: State, s': State, p: string, e: Event, id: JobId)
    requires Consistent(s) && DefsUsable(s.defs) && QueuedOnto(s, s', p, e) && !s.defs[p].queueStrategy.Append?
    requires var lane := LaneOf(s, p, e.req.partition);
      && id in lane && id in s.jobs && Live(s.jobs[id])
      && forall x | x in lane[..IndexOf(lane, id)] && x in s.jobs :: !Live(s.jobs[x])
    ensures var lane := LaneOf(s, p, e.req.partition);
      id in s'.jobs && (s'.jobs[id].canceled <==>
        |lane| >= Slots(s.defs[p]) && forall x | x in lane[..|lane| - 1] && x in s.jobs :: !Live(s.jobs[x]))
  {
    hide ConsistentBut, Enqueue, LaneOf, Fresh;
    var lane := LaneOf(s, p, e.req.partition);
    var victim := EnqueuedLane(s, e.req, e.now, e.req.partition);
    LaneNoDup(s, p, e.req.partition);
    var k := IndexOf(lane, id);
    if k < |lane| - 1 {
      assert lane[..|lane| - 1][k] == id;
    }
  }

  // ---------------------------------------------------------------------------------------------
  // Exactly when a queue starves
  // ---------------------------------------------------------------------------------------------

  lemma {:induction false} Beyond(ids: set<JobId>) returns (n: JobId)
    ensures forall x | x in ids :: x < n
    decreases ids
  {
    if ids == {} {
      n := 0;
    } else {
      var x :| x in ids;
      var m := Beyond(ids - {x});
      n := if x < m then m else x + 1;
      assert forall y | y in ids :: y == x || y in ids - {x};
    }
  }

  // A live entry before the last slot is secure; otherwise there is room for one.
  lemma NotClogged(s: State, p: string, q: string)
    requires Consistent(s) && p in s.defs && !s.defs[p].queueStrategy.Append? && !Clogged(s, p, q)
    ensures HasSecure(s, p, q) || |LaneOf(s, p, q)| < Slots(s.defs[p]) - 1
  {
    hide ConsistentBut, LaneOf, View;
    var lane, n := LaneOf(s, p, q), Slots(s.defs[p]) - 1;
    ConsistentTidy(s, {}, p);
    if n <= |lane| {
      var i :| 0 <= i < n && !(lane[i] in s.jobs && !Live(s.jobs[lane[i]]));
      InLane(s, p, q, lane[i]);
      ViewIsLane(s, p, q, lane[i]);
      LaneNoDup(s, p, q);
      assert Secure(s, p, lane[i]);
    }
  }

  lemma QueueAccepts(s: State, p: string)
    requires p in s.defs && !s.defs[p].queueStrategy.Append? && Slots(s.defs[p]) > 0 && !s.shutting
    ensures Refusal(s, p).None?
  {
  }

  lemma ArrivesSecure(s: State, p: string, e: Event)
    requires Consistent(s) && DefsUsable(s.defs) && e.Schedule? && e.req.pipeline == p && MustWait(s, e.req)
    requires p in s.defs && !s.defs[p].queueStrategy.Append?
    requires |LaneOf(s, p, e.req.partition)| < Slots(s.defs[p]) - 1
    ensures HasSecure(ScheduleAsync(s, e.req, e.now), p, e.req.partition)
  {
    hide ConsistentBut, Enqueue, LaneOf, Secure, Fresh, ScheduleAsync, FreeSlots, LimitReady;
    Queues(s, e.req, e.now);
    var s' := ScheduleAsync(s, e.req, e.now);
    ArrivedLast(s, s', p, e);
    NewcomerSecureIff(s, s', p, e);
    var lane := LaneOf(s', p, e.req.partition);
    assert lane[|lane| - 1] == e.req.id && e.req.id in lane;
  }

  lemma StartKeepsLane(s: State, p: string, q: string, req: Request, now: int)
    requires Consistent(s) && p in s.defs && req.pipeline in s.defs && req.id !in s.jobs
    ensures LaneOf(Started(Fresh(s, req, now), req.id, now), p, q) == LaneOf(s, p, q)
  {
    hide ConsistentBut, Lane;
    ConsistentTidy(s, {}, p);
    LaneAgrees(s.defs[p], s.jobs, Started(Fresh(s, req, now), req.id, now).jobs, ListOf(s.wait, p), q);
  }

  // Requests fill the free slots, and the one after that waits, with a slot behind it.
  lemma {:induction false} BecomesSecure(s: State, p: string, q: string) returns (events: seq<Event>, s': State)
    requires Consistent(s) && DefsUsable(s.defs) && !s.shutting && p in s.defs && !s.defs[p].queueStrategy.Append?
    requires |LaneOf(s, p, q)| < Slots(s.defs[p]) - 1
    ensures StableRun(s, events, s', p) && NoShutdown(events) && HasSecure(s', p, q)
    decreases FreeSlots(s, p)
  {
    hide ConsistentBut, LaneOf, HasSecure, FreeSlots, ScheduleAsync, Fresh, Usable;
    var id := Beyond(s.jobs.Keys);
    var req := Request(id, p, q, map[], "", true, []);
    var e := Schedule(req, 0);
    QueueAccepts(s, p);
    OneStep(s, e, p);
    if MustWait(s, req) {
      ArrivesSecure(s, p, e);
      events, s' := [e], Next(s, e);
    } else {
      StartsNow(s, req, 0);
      StepKeepsConsistent(s, e);
      StartKeepsLane(s, p, q, req, 0);
      FreshDefs(s, req, 0);
      var rest, s2 := BecomesSecure(Next(s, e), p, q);
      events, s' := [e] + rest, s2;
      assert ([e] + rest)[1..] == rest;
    }
  }

  lemma FreshDefs(s: State, req: Request, now: int)
    requires req.pipeline in s.defs
    ensures var s1 := Fresh(s, req, now); req.id in s1.jobs && s1.defs == s.defs && s1.shutting == s.shutting
  {
  }

  /**
   * No job of a replace queue will ever stand where arrivals cannot displace it, until a shutdown, exactly when
   * the slots before its last one are held by jobs that have been canceled or started. With a limit of one
   * there are no such slots, and it is always so.
   */
  lemma NeverSecureIff(s: State, p: string, q: string)
    requires Consistent(s) && DefsUsable(s.defs) && !s.shutting && p in s.defs && !s.defs[p].queueStrategy.Append?
    ensures (forall events, s' | StableRun(s, events, s', p) && NoShutdown(events) :: !HasSecure(s', p, q)) <==>
      Clogged(s, p, q)
  {
    hide StableRun, NoShutdown, Consistent, Clogged, HasSecure, LaneOf, Front;
    if Clogged(s, p, q) {
      forall events, s' | StableRun(s, events, s', p) && NoShutdown(events) ensures !HasSecure(s', p, q) {
        CloggedForGood(s, events, s', p, q);
      }
    } else {
      NotClogged(s, p, q);
      EmptyRun(s, p);
      if !HasSecure(s, p, q) {
        var events, s' := BecomesSecure(s, p, q);
      }
    }
  }

  // ---------------------------------------------------------------------------------------------
  // Arrivals and nothing else
  // ---------------------------------------------------------------------------------------------

  /** A request for one queue that has to wait, because the pipeline is full or its jobs are delayed. */
  ghost predicate Waits(s: State, e: Event, p: string, q: string) {
    && DefsUsable(s.defs) && RunnerEvents.Enabled(s, e) && e.Schedule? && e.req.pipeline == p && p in s.defs
    && (s.defs[p].queueStrategy.PartitionedReplace? ==> e.req.partition == q) && MustWait(s, e.req)
  }

  /** Such requests and nothing else. */
  ghost predicate Flood(s: State, events: seq<Event>, s': State, p: string, q: string)
    decreases |events|
  {
    if events == [] then s == s'
    else Waits(s, events[0], p, q) && Flood(Next(s, events[0]), events[1..], s', p, q)
  }

  // One more arrival at a full queue takes its last slot.
  lemma FloodStep(s: State, e: Event, p: string, q: string)
    requires Consistent(s) && Waits(s, e, p, q)
    requires !s.defs[p].queueStrategy.Append? && |LaneOf(s, p, q)| == Slots(s.defs[p])
    ensures var s', lane, n := Next(s, e), LaneOf(s, p, q), Slots(s.defs[p]) - 1;
      && Consistent(s') && s'.defs == s.defs && n >= 0 && LaneOf(s', p, q) == lane[..n] + [e.req.id]
      && e.req.id in s'.jobs && Live(s'.jobs[e.req.id])
  {
    hide ConsistentBut, Enqueue, LaneOf, Fresh, ScheduleAsync, FreeSlots, LimitReady;
    Queues(s, e.req, e.now);
    SameLaneForAll(s, p, q, e.req.partition);
    ArrivedLast(s, Next(s, e), p, e);
    SameLaneForAll(Next(s, e), p, q, e.req.partition);
  }

  lemma FloodVictim(s: State, e: Event, p: string, q: string)
    requires Consistent(s) && Waits(s, e, p, q)
    requires !s.defs[p].queueStrategy.Append? && |LaneOf(s, p, q)| == Slots(s.defs[p]) > 0
    ensures var s', x := Next(s, e), LaneOf(s, p, q)[Slots(s.defs[p]) - 1];
      x in s.jobs && x in s'.jobs && s'.jobs[x].canceled && s'.jobs[x].start == s.jobs[x].start
  {
    hide ConsistentBut, Enqueue, LaneOf, Fresh, ScheduleAsync, FreeSlots, LimitReady;
    Queues(s, e.req, e.now);
    SameLaneForAll(s, p, q, e.req.partition);
    ConsistentTidy(s, {}, p);
    InLane(s, p, q, LaneOf(s, p, q)[Slots(s.defs[p]) - 1]);
    var victim := EnqueuedLane(s, e.req, e.now, q);
  }

  lemma {:induction false} FloodIsAny(s: State, events: seq<Event>, s': State, p: string, q: string)
    requires Flood(s, events, s', p, q)
    ensures AnyRun(s, events, s')
    decreases |events|
  {
    if events != [] {
      FloodIsAny(Next(s, events[0]), events[1..], s', p, q);
    }
  }

  // The job of the first of two arrivals is gone after the second, and never comes back.
  lemma FirstOfTwo(s: State, events: seq<Event>, s': State, p: string, q: string, x: JobId)
    requires Consistent(s) && Flood(s, events, s', p, q) && events != [] && p in s.defs
    requires !s.defs[p].queueStrategy.Append? && |LaneOf(s, p, q)| == Slots(s.defs[p]) > 0
    requires LaneOf(s, p, q)[Slots(s.defs[p]) - 1] == x && x in s.jobs && s.jobs[x].start.None?
    ensures x in s'.jobs && s'.jobs[x].canceled && s'.jobs[x].start.None?
  {
    hide Consistent, LaneOf, Next, ListsOwn, Waits, Flood;
    var e := events[0];
    FloodHead(s, events, s', p, q);
    FloodStep(s, e, p, q);
    FloodVictim(s, e, p, q);
    ConsistentOwn(Next(s, e));
    FloodIsAny(Next(s, e), events[1..], s', p, q);
    EndedForever(Next(s, e), events[1..], s', x);
  }

  lemma FloodHead(s: State, events: seq<Event>, s': State, p: string, q: string)
    requires Flood(s, events, s', p, q) && events != []
    ensures Waits(s, events[0], p, q) && DefsUsable(s.defs) && RunnerEvents.Enabled(s, events[0])
    ensures p in s.defs && events[0].Schedule? && Flood(Next(s, events[0]), events[1..], s', p, q)
  {
  }

  /**
   * Of any number of arrivals at a full queue only the last one is left, whatever the limit: the others have
   * been canceled without a start, and the entries before the last slot have not moved.
   */
  lemma {:induction false} FloodLeavesLast(s: State, events: seq<Event>, s': State, p: string, q: string)
    requires Consistent(s) && Flood(s, events, s', p, q) && events != [] && forall e | e in events :: e.Schedule?
    requires p in s.defs && !s.defs[p].queueStrategy.Append? && |LaneOf(s, p, q)| == Slots(s.defs[p])
    ensures p in s'.defs && Slots(s.defs[p]) > 0
    ensures LaneOf(s', p, q) == LaneOf(s, p, q)[..Slots(s.defs[p]) - 1] + [events[|events| - 1].req.id]
    ensures forall i | 0 <= i < |events| - 1 ::
      var id := events[i].req.id; id in s'.jobs && s'.jobs[id].canceled && s'.jobs[id].start.None?
    decreases |events|
  {
    hide Consistent, LaneOf, Next, ListsOwn, Waits, Flood;
    FloodHead(s, events, s', p, q);
    var e, s1, n := events[0], Next(s, events[0]), Slots(s.defs[p]) - 1;
    FloodStep(s, e, p, q);
    if |events| == 1 {
      NoFlood(s1, events[1..], s', p, q);
    } else {
      FirstOfTwo(s1, events[1..], s', p, q, e.req.id);
      FloodLeavesLast(s1, events[1..], s', p, q);
      assert LaneOf(s1, p, q)[..n] == LaneOf(s, p, q)[..n];
      assert events[1..][|events| - 2] == events[|events| - 1];
      assert forall i | 0 < i < |events| - 1 :: events[i] == events[1..][i - 1];
    }
  }

  lemma NoFlood(s: State, events: seq<Event>, s': State, p: string, q: string)
    requires Flood(s, events, s', p, q) && events == []
    ensures s == s'
  {
  }
}
