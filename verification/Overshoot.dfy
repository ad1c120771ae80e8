// What an attempt that fails costs: more starts than free slots, and started jobs that stay on the wait list.
module Overshoot {
  import opened WaitList
  import opened RunnerState
  import opened Dispatch
  import opened Promotion
  import opened Attempts

  // ---------------------------------------------------------------------------------------------
  // More starts than free slots
  // ---------------------------------------------------------------------------------------------

  /** Some entry builds among those that are attempted after the free slots have been taken. */
  ghost predicate Overshoots(bs: seq<bool>, free: int) {
    exists i :: Reach(bs, free) <= i < |bs| && i < Reach(bs, free) + Extra(bs, free) && bs[i]
  }

  lemma OvershootCount(bs: seq<bool>, free: int)
    requires free > 0
    ensures 0 <= LoopCount(bs, free, free) <= |bs|
    ensures Builders(bs[..LoopCount(bs, free, free)]) > free <==> Overshoots(bs, free)
  {
    var n, m := Reach(bs, free), LoopCount(bs, free, free);
    ReachIs(bs, free);
    assert bs[..m] == bs[..n] + bs[n..m];
    BuildersAppend(bs[..n], bs[n..m]);
    SomeBuilds(bs[n..m]);
    if i :| 0 <= i < |bs[n..m]| && bs[n..m][i] {
      assert bs[n + i];
    }
    if i :| n <= i < m && bs[i] {
      assert bs[n..m][i - n];
    }
  }

  /**
   * A dispatch runs more jobs than the concurrency allows exactly when a startable job that builds comes after
   * those that take the free slots, within as many entries as the failed attempts before it left behind.
   */
  lemma OvershootIff(s: State, p: string, now: int)
    requires Orderly(s, p, ListOf(s.wait, p)) && FreeSlots(s, p) > 0
    ensures var s', bs := StartJobsOnWaitList(s, p, now), Flags(s.jobs, DueIn(s.jobs, ListOf(s.wait, p)));
      && 0 <= DispatchCount(s, p) <= |bs| && FreeSlots(s', p) == FreeSlots(s, p) - Builders(bs[..DispatchCount(s, p)])
      && (FreeSlots(s', p) < 0 <==> Overshoots(bs, FreeSlots(s, p)))
  {
    hide FreeSlots, StartJobsOnWaitList, DueIn, LoopCount;
    var due := DueIn(s.jobs, ListOf(s.wait, p));
    DispatchAttempts(s, p, now);
    OvershootCount(Flags(s.jobs, due), FreeSlots(s, p));
    assert Flags(s.jobs, due[..DispatchCount(s, p)]) == Flags(s.jobs, due)[..DispatchCount(s, p)];
  }

  /** Whichever entry fails before the free slots are taken fails on the last one. */
  ghost predicate FailsOnLastSlot(bs: seq<bool>, free: int) {
    forall i | 0 <= i < |bs| && i < Reach(bs, free) && !bs[i] :: free - Builders(bs[..i]) <= 1
  }

  lemma FailsOnLastSlotStep(bs: seq<bool>, free: int)
    requires bs != [] && free > 0
    ensures FailsOnLastSlot(bs, free) <==> (bs[0] || free <= 1) && FailsOnLastSlot(bs[1..], free - One(bs[0]))
  {
    var rest, left := bs[1..], free - One(bs[0]);
    assert Builders(bs[..0]) == 0;
    forall i | 0 <= i < |rest|
      ensures Builders(bs[..i + 1]) == One(bs[0]) + Builders(rest[..i]) && bs[i + 1] == rest[i]
    {
      assert bs[..i + 1][1..] == rest[..i];
    }
    assert forall i | 0 < i < |bs| :: bs[i] == rest[i - 1] && Builders(bs[..i]) == One(bs[0]) + Builders(rest[..i - 1]);
  }

  /** Failed attempts leave nothing behind exactly when each of them is made on the last free slot. */
  lemma {:induction false} ExtraNoneIff(bs: seq<bool>, free: int)
    ensures Extra(bs, free) == 0 <==> FailsOnLastSlot(bs, free)
    decreases |bs|
  {
    if free > 0 && bs != [] {
      FailsOnLastSlotStep(bs, free);
      ExtraNoneIff(bs[1..], free - One(bs[0]));
    }
  }

  ghost predicate AllTrue(bs: seq<bool>) {
    forall i | 0 <= i < |bs| :: bs[i]
  }

  lemma {:induction false} ReachBuilding(bs: seq<bool>, free: int)
    requires AllTrue(bs) && free >= 0
    ensures Reach(bs, free) == Least(free, |bs|) && Extra(bs, free) == 0
    decreases |bs|
  {
    if free > 0 && bs != [] {
      ReachBuilding(bs[1..], free - 1);
    }
  }

  lemma {:induction false} ReachBehind(a: seq<bool>, bs: seq<bool>, free: int)
    requires AllTrue(a) && |a| <= free
    ensures Reach(a + bs, free) == |a| + Reach(bs, free - |a|) && Extra(a + bs, free) == Extra(bs, free - |a|)
    decreases |a|
  {
    if a == [] {
      assert a + bs == bs;
    } else {
      assert (a + bs)[1..] == a[1..] + bs;
      ReachBehind(a[1..], bs, free - 1);
    }
  }

  /**
   * With one job that cannot be built, `a` building ones before it and `n` behind it, the concurrency is
   * exceeded exactly when the failed attempt meets two free slots or more and more jobs wait behind it.
   */
  lemma OneFailingEntry(before: seq<bool>, behind: seq<bool>, free: int)
    requires AllTrue(before) && AllTrue(behind) && |before| < free
    ensures Overshoots(before + [false] + behind, free) <==> free - |before| >= 2 && |behind| > free - |before|
  {
    var bs, g := before + [false] + behind, free - |before|;
    var tail := [false] + behind;
    assert bs == before + tail && tail[1..] == behind;
    ReachBehind(before, tail, free);
    ReachBuilding(behind, g);
    assert Reach(tail, g) == 1 + Reach(behind, g) && Extra(tail, g) == g - 1;
    if g >= 2 && |behind| > g {
      assert bs[|before| + 1 + g];
    }
  }

  // ---------------------------------------------------------------------------------------------
  // A started job left on the wait list
  // ---------------------------------------------------------------------------------------------

  /** A job was started between the two states and is on the wait list all the same. */
  ghost predicate LeavesStarted(s: State, s': State, p: string) {
    exists id | id in ListOf(s'.wait, p) ::
      id in s.jobs && id in s'.jobs && s.jobs[id].start.None? && s'.jobs[id].start.Some?
  }

  /** Among the first `free` entries one does not build, and an entry behind it does. */
  ghost predicate FailsBefore(bs: seq<bool>, free: int) {
    exists i, j :: 0 <= i < j < |bs| && i < free && !bs[i] && bs[j]
  }

  lemma FailsLater(bs: seq<bool>, free: int)
    requires bs != [] && bs[0]
    ensures FailsBefore(bs, free) <==> FailsBefore(bs[1..], free - 1)
  {
    var rest := bs[1..];
    if i, j :| 0 <= i < j < |bs| && i < free && !bs[i] && bs[j] {
      assert !rest[i - 1] && rest[j - 1];
    }
    if i, j :| 0 <= i < j < |rest| && i < free - 1 && !rest[i] && rest[j] {
      assert !bs[i + 1] && bs[j + 1];
    }
  }

  lemma FailsHere(bs: seq<bool>, free: int)
    requires bs != [] && !bs[0] && free > 0
    ensures FailsBefore(bs, free) <==> Builders(bs[1..]) > 0
  {
    var rest := bs[1..];
    SomeBuilds(rest);
    if i, j :| 0 <= i < j < |bs| && i < free && !bs[i] && bs[j] {
      assert rest[j - 1];
    }
    if j :| 0 <= j < |rest| && rest[j] {
      assert !bs[0] && bs[j + 1];
    }
  }

  lemma {:induction false} LoopLeavesIff(s: State, p: string, rest: seq<JobId>, free: int, kept: seq<JobId>, now: int)
    requires InLoop(s, p, rest, free) && free == FreeSlots(s, p) >= 0 && forall x | x in kept :: x !in rest
    ensures LeavesStarted(s, StartFrom(s, p, rest, free, kept, now), p) <==>
      FailsBefore(Flags(s.jobs, DueIn(s.jobs, rest)), free)
    decreases |rest|
  {
    hide FreeSlots, Filter, Counted, Flags, StartJob, LoopCount, InLoop, DueIn, FailsBefore, LeavesStarted;
    var r := StartFrom(s, p, rest, free, kept, now);
    if free == 0 {
      LoopIdle(s, p, rest, free, kept, now);
      NoneLeft(s, r, p);
      NoneWithin(Flags(s.jobs, DueIn(s.jobs, rest)), free);
    } else if rest == [] {
      NoneLeft(s, r, p);
      DueOfNone(s.jobs, free);
    } else {
      var id, tail := rest[0], rest[1..];
      assert rest == [id] + tail;
      assert id in rest && forall x | x in tail :: x in rest;
      LoopTail(s, p, id, tail, free);
      if !Startable(s.jobs, id) {
        LoopSkipsOne(s, p, id, tail, free);
        LoopLeavesIff(s, p, tail, free, kept + [id], now);
      } else if s.jobs[id].builds {
        LeavesBuilding(s, r, p, id, tail, free, kept, now);
        LoopLeavesIff(Started(s, id, now), p, tail, free - 1, kept, now);
      } else {
        LeavesFailing(s, p, id, tail, free, kept, now);
      }
    }
  }

  lemma NoneLeft(s: State, s': State, p: string)
    requires s'.jobs == s.jobs
    ensures !LeavesStarted(s, s', p)
  {
  }

  lemma NoneWithin(bs: seq<bool>, free: int)
    requires free <= 0 || bs == []
    ensures !FailsBefore(bs, free)
  {
  }

  lemma DueOfNone(jobs: JobTable, free: int)
    ensures !FailsBefore(Flags(jobs, DueIn(jobs, [])), free)
  {
    DueElems(jobs, []);
    assert DueIn(jobs, []) == [];
  }

  lemma LoopTail(s: State, p: string, id: JobId, tail: seq<JobId>, free: int)
    requires InLoop(s, p, [id] + tail, free)
    ensures id !in tail && id in s.jobs && Own(s, p, [id] + tail) && Own(s, p, ListOf(s.wait, p))
  {
    OrderlyTail(s, p, id, tail);
    CountedOwn(s, p, [id] + tail);
    CountedOwn(s, p, ListOf(s.wait, p));
  }

  // The job that starts leaves the list, and the others are left to the rest of the loop.
  lemma LeavesBuilding(s: State, r: State, p: string, id: JobId, tail: seq<JobId>, free: int, kept: seq<JobId>,
                       now: int)
    requires InLoop(s, p, [id] + tail, free) && free == FreeSlots(s, p) > 0 && forall x | x in kept :: x !in [id] + tail
    requires Startable(s.jobs, id) && s.jobs[id].builds
    requires r == StartFrom(s, p, [id] + tail, free, kept, now)
    ensures var s1 := Started(s, id, now);
      && InLoop(s1, p, tail, free - 1) && FreeSlots(s1, p) == free - 1
      && r == StartFrom(s1, p, tail, free - 1, kept, now)
      && (LeavesStarted(s, r, p) <==> LeavesStarted(s1, r, p))
      && (FailsBefore(Flags(s.jobs, DueIn(s.jobs, [id] + tail)), free) <==>
          FailsBefore(Flags(s1.jobs, DueIn(s1.jobs, tail)), free - 1))
  {
    hide FreeSlots, Filter, Counted, Flags, DueIn, FailsBefore, Moves, Orderly, Attempted, StartFrom;
    var s1 := Started(s, id, now);
    LoopStep(s, p, id, tail, free, kept, now);
    AfterAttempt(s, s1, p, id, tail, free, now);
    BudgetFalls(s, s1, p, id, tail, free, now);
    var due := DueIn(s1.jobs, tail);
    FlagsStay(s, s1, p, [id], now, due);
    FlagsHead(s.jobs, id, due);
    FailsLater(Flags(s.jobs, [id] + due), free);
    LoopTail(s, p, id, tail, free);
    CountedOwnTail(s1, p, tail);
    var k := LoopMoves(s1, p, tail, free - 1, kept, now);
    SubseqElems(k, tail);
    assert id in [id] + tail && id !in ListOf(r.wait, p);
  }

  lemma CountedOwnTail(s: State, p: string, tail: seq<JobId>)
    requires Orderly(s, p, tail) && Orderly(s, p, ListOf(s.wait, p))
    ensures Own(s, p, tail) && Own(s, p, ListOf(s.wait, p))
  {
    CountedOwn(s, p, tail);
    CountedOwn(s, p, ListOf(s.wait, p));
  }

  lemma LeavesFailing(s: State, p: string, id: JobId, tail: seq<JobId>, free: int, kept: seq<JobId>, now: int)
    requires InLoop(s, p, [id] + tail, free) && free == FreeSlots(s, p) > 0
    requires Startable(s.jobs, id) && !s.jobs[id].builds
    ensures LeavesStarted(s, StartFrom(s, p, [id] + tail, free, kept, now), p) <==>
      FailsBefore(Flags(s.jobs, DueIn(s.jobs, [id] + tail)), free)
  {
    hide FreeSlots, Filter, Counted, Flags, DueIn, FailsBefore, Moves, Orderly, Attempted, StartFrom,
      StartJobsOnWaitList, LoopCount,
      LeavesStarted, LoopDone;
    var u := Unbuildable(s, id);
    AfterAttempt(s, u, p, id, tail, free, now);
    var due := DueIn(u.jobs, tail);
    FlagsStay(s, u, p, [id], now, due);
    FlagsHead(s.jobs, id, due);
    FailsHere(Flags(s.jobs, [id] + due), free);
    if Builders(Flags(u.jobs, due)) > 0 {
      InnerStarts(s, u, p, id, tail, free, kept, now);
    } else {
      LoopAttempts(s, p, [id] + tail, free, kept, now);
      var m := LoopCount(Flags(s.jobs, [id] + due), free, free);
      OnlyCancels(s, StartFrom(s, p, [id] + tail, free, kept, now), p, [id] + tail, free, now);
    }
  }

  // Nothing that is due builds, so nothing is started.
  lemma OnlyCancels(s: State, r: State, p: string, list: seq<JobId>, free: int, now: int)
    requires LoopDone(s, r, p, list, free, now) && Builders(Flags(s.jobs, DueIn(s.jobs, list))) == 0
    ensures !LeavesStarted(s, r, p)
  {
    hide FreeSlots, DueIn, LoopCount;
    var due := DueIn(s.jobs, list);
    SomeBuilds(Flags(s.jobs, due));
    forall id | id in due && id in s.jobs ensures !s.jobs[id].builds {
      var i :| 0 <= i < |due| && due[i] == id;
      assert !Flags(s.jobs, due)[i];
    }
    assert forall m: nat | m <= |due| :: forall id | id in due[..m] :: id in due;
  }

  // The dispatch inside the failed attempt starts a job that its caller finds started, and writes back.
  lemma InnerStarts(s: State, u: State, p: string, id: JobId, tail: seq<JobId>, free: int, kept: seq<JobId>, now: int)
    requires InLoop(s, p, [id] + tail, free) && free == FreeSlots(s, p) > 0
    requires Startable(s.jobs, id) && !s.jobs[id].builds && u == Unbuildable(s, id)
    requires Builders(Flags(u.jobs, DueIn(u.jobs, tail))) > 0
    ensures LeavesStarted(s, StartFrom(s, p, [id] + tail, free, kept, now), p)
  {
    hide FreeSlots, Filter, Counted, Flags, DueIn, Moves, Orderly, Attempted, StartFrom, StartJobsOnWaitList,
      LoopCount, KeepsLive;
    AfterAttempt(s, u, p, id, tail, free, now);
    LoopStep(s, p, id, tail, free, kept, now);
    LoopTail(s, p, id, tail, free);
    var r, s1 := StartFrom(s, p, [id] + tail, free, kept, now), StartJobsOnWaitList(u, p, now);
    assert id in [id] + tail;
    assert StartJob(s, id, now) == s1;
    DispatchAttempts(u, p, now);
    var x := InnerChoice(u, s1, p, tail, DispatchCount(u, p), now);
    CountedOwnTail(u, p, tail);
    WaitListMoves(u, p, now);
    KeepsOwn(u, s1, p, now);
    OwnStays(u, s1, p, tail, now);
    LoopKeepsLeftover(s1, p, tail, free - 1, kept, now, x);
    var k := LoopMoves(s1, p, tail, free - 1, kept, now);
    StaysLeftover(s1, r, p, now, x);
    WasLive(s, u, id, tail, x);
  }

  lemma WasLive(s: State, u: State, id: JobId, tail: seq<JobId>, x: JobId)
    requires id in s.jobs && u == Unbuildable(s, id) && x in DueIn(u.jobs, tail)
    ensures x in s.jobs && s.jobs[x].start.None?
  {
    hide Filter;
    DueElems(u.jobs, tail);
  }

  lemma InnerChoice(u: State, s1: State, p: string, tail: seq<JobId>, k: nat, now: int) returns (x: JobId)
    requires DueIn(u.jobs, ListOf(u.wait, p)) == DueIn(u.jobs, tail) && FreeSlots(u, p) > 0
    requires Builders(Flags(u.jobs, DueIn(u.jobs, tail))) > 0
    requires k == DispatchCount(u, p) && Dispatched(u, s1, p, k, now)
    ensures x in DueIn(u.jobs, tail) && x in tail && x in s1.jobs && s1.jobs[x].start.Some?
  {
    hide FreeSlots, DueIn, Counted;
    var due := DueIn(u.jobs, tail);
    var bs, free := Flags(u.jobs, due), FreeSlots(u, p);
    ReachIs(bs, free);
    var n := Reach(bs, free);
    assert bs[..k] == bs[..n] + bs[n..k];
    BuildersAppend(bs[..n], bs[n..k]);
    assert k == |bs| ==> bs[..k] == bs;
    assert Builders(bs[..k]) > 0;
    SomeBuilds(bs[..k]);
    var i :| 0 <= i < k && bs[..k][i];
    x := due[i];
    assert x == due[..k][i];
    DueElems(u.jobs, tail);
  }

  /**
   * A dispatch leaves a job that it started on the wait list exactly when one of the first startable jobs, as
   * many as there are free slots, cannot be built and a startable job behind it can: the inner dispatch
   * starts it, the outer one writes its stale list back.
   */
  lemma StaleEntryIff(s: State, p: string, now: int)
    requires Orderly(s, p, ListOf(s.wait, p))
    ensures LeavesStarted(s, StartJobsOnWaitList(s, p, now), p) <==>
      FailsBefore(Flags(s.jobs, DueIn(s.jobs, ListOf(s.wait, p))), FreeSlots(s, p))
  {
    hide FreeSlots, Flags, DueIn, FailsBefore, Counted, StartFrom;
    if FreeSlots(s, p) <= 0 {
      NoneWithin(Flags(s.jobs, DueIn(s.jobs, ListOf(s.wait, p))), FreeSlots(s, p));
    } else {
      LoopLeavesIff(s, p, ListOf(s.wait, p), FreeSlots(s, p), [], now);
    }
  }
}
