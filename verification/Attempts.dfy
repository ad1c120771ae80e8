// What a dispatch does for any number of free slots and any mix of jobs that can and cannot be built: which
// entries it attempts to start, how many slots that takes, and which started jobs it leaves on the wait list.
module Attempts {
  import opened Basics
  import opened WaitList
  import opened RunnerState
  import opened Dispatch
  import opened Promotion

  // ---------------------------------------------------------------------------------------------
  // Counting attempts on the flags of the startable entries: true where the graph builds
  // ---------------------------------------------------------------------------------------------

  function Least(a: int, b: int): int {
    if a < b then a else b
  }

  function Builders(bs: seq<bool>): nat {
    if bs == [] then 0 else One(bs[0]) + Builders(bs[1..])
  }

  /** The entries that are looked at until the free slots are taken. */
  function Reach(bs: seq<bool>, free: int): nat {
    if free <= 0 || bs == [] then 0 else 1 + Reach(bs[1..], free - One(bs[0]))
  }

  /**
   * The attempts that are left when the free slots are taken. Each entry that does not build while `free`
   * slots are open leaves free - 1 behind: its caller still counts on them.
   */
  function Extra(bs: seq<bool>, free: int): nat {
    if free <= 0 || bs == [] then 0 else (if bs[0] then 0 else free - 1) + Extra(bs[1..], free - One(bs[0]))
  }

  /** The attempts of a loop with `budget` starts to go while `free` slots are open. */
  function LoopCount(bs: seq<bool>, free: int, budget: int): int {
    if free > 0 then Least(|bs|, Reach(bs, free) + Extra(bs, free))
    else if budget > 0 then Least(|bs|, budget)
    else 0
  }

  lemma {:induction false} ReachIs(bs: seq<bool>, free: int)
    ensures var n := Reach(bs, free);
      && n <= |bs| && (free > 0 ==> Builders(bs[..n]) <= free) && (free > 0 && n < |bs| ==> Builders(bs[..n]) == free)
    decreases |bs|
  {
    if free > 0 && bs != [] {
      ReachIs(bs[1..], free - One(bs[0]));
      var n := Reach(bs, free);
      assert bs[..n][1..] == bs[1..][..n - 1];
      if free - One(bs[0]) == 0 {
        assert bs[..n][1..] == [];
      }
    }
  }

  lemma {:induction false} BuildersAppend(a: seq<bool>, b: seq<bool>)
    ensures Builders(a + b) == Builders(a) + Builders(b)
    decreases |a|
  {
    if a == [] {
      assert a + b == b;
    } else {
      assert (a + b)[1..] == a[1..] + b;
      BuildersAppend(a[1..], b);
    }
  }

  lemma {:induction false} SomeBuilds(bs: seq<bool>)
    ensures Builders(bs) > 0 <==> exists i :: 0 <= i < |bs| && bs[i]
    decreases |bs|
  {
    if bs != [] {
      SomeBuilds(bs[1..]);
      if i :| 0 <= i < |bs| && bs[i] && !bs[0] {
        assert bs[1..][i - 1];
      }
      if j :| 0 <= j < |bs| - 1 && bs[1..][j] {
        assert bs[j + 1];
      }
    }
  }

  // An entry that builds takes a slot and an attempt.
  lemma CountBuilding(bs: seq<bool>, free: int, budget: int)
    requires bs != [] && bs[0] && budget > 0 && (free > 0 ==> budget == free)
    ensures LoopCount(bs, free, budget) == 1 + LoopCount(bs[1..], free - 1, budget - 1)
  {
  }

  // An entry that does not build: the dispatch inside it, then what its caller had left.
  lemma CountFailing(bs: seq<bool>, free: int, budget: int)
    requires bs != [] && !bs[0] && budget > 0 && (free > 0 ==> budget == free)
    ensures var k := LoopCount(bs[1..], free, free);
      && 0 <= k < |bs| && LoopCount(bs, free, budget) == 1 + k + Least(budget - 1, |bs| - 1 - k)
      && (free > 0 && k < |bs| - 1 ==> Builders(bs[1..][..k]) >= free)
  {
    var rest := bs[1..];
    if free > 0 {
      ReachIs(rest, free);
      var n, k := Reach(rest, free), LoopCount(rest, free, free);
      if k < |rest| {
        assert rest[..k] == rest[..n] + rest[n..k];
        BuildersAppend(rest[..n], rest[n..k]);
      }
    }
  }

  // ---------------------------------------------------------------------------------------------
  // Attempts on the state
  // ---------------------------------------------------------------------------------------------

  function CanStart(jobs: JobTable): JobId -> bool {
    (id: JobId) => Startable(jobs, id)
  }

  function Builds(jobs: JobTable): JobId -> bool {
    (id: JobId) => id in jobs && jobs[id].builds
  }

  /** The startable entries, in order. */
  function DueIn(jobs: JobTable, list: seq<JobId>): seq<JobId> {
    Filter(list, CanStart(jobs))
  }

  function Flags(jobs: JobTable, ids: seq<JobId>): seq<bool> {
    seq(|ids|, i requires 0 <= i < |ids| => Builds(jobs)(ids[i]))
  }

  /** An attempt starts a job that builds and cancels one that does not. */
  function AttemptOn(j: Job, now: int): Job {
    if j.builds then Launched(j, now) else FailedStart(j)
  }

  /** `ids` have been attempted in this order, and nothing else happened outside the wait lists. */
  ghost predicate Attempted(s: State, r: State, p: string, ids: seq<JobId>, now: int) {
    && r.jobs == (map id | id in s.jobs :: if id in ids then AttemptOn(s.jobs[id], now) else s.jobs[id])
    && r == s.(jobs := r.jobs, spawned := s.spawned + Filter(ids, Builds(s.jobs)), token := s.token || ids != [],
               wait := r.wait)
    && FreeSlots(r, p) == FreeSlots(s, p) - Builders(Flags(s.jobs, ids))
  }

  lemma NoneAttempted(s: State, p: string, wait: map<string, seq<JobId>>, now: int)
    ensures Attempted(s, s.(wait := wait), p, [], now)
  {
    assert s.spawned + [] == s.spawned;
  }

  lemma OneAttempted(s: State, p: string, id: JobId, now: int)
    requires Listed(s, p, id) && CanBeStarted(s.jobs[id]) && NoDup(ListOf(s.byPipeline, p))
    ensures Attempted(s, if s.jobs[id].builds then Started(s, id, now) else Unbuildable(s, id), p, [id], now)
  {
    hide FreeSlots;
    FreeAfterStart(s, p, id, now);
    FilterOne(id, Builds(s.jobs));
    assert Flags(s.jobs, [id]) == [s.jobs[id].builds];
    assert Builders([s.jobs[id].builds]) == One(s.jobs[id].builds);
    assert s.spawned + [] == s.spawned;
  }

  lemma FlagsStay(s: State, r: State, p: string, ids: seq<JobId>, now: int, others: seq<JobId>)
    requires Attempted(s, r, p, ids, now)
    ensures Flags(r.jobs, others) == Flags(s.jobs, others)
    ensures Filter(others, Builds(r.jobs)) == Filter(others, Builds(s.jobs))
  {
    hide FreeSlots;
    FilterAgrees(others, Builds(r.jobs), Builds(s.jobs));
  }

  lemma AttemptedTransitive(s: State, s1: State, r: State, p: string, a: seq<JobId>, b: seq<JobId>, now: int)
    requires Attempted(s, s1, p, a, now) && Attempted(s1, r, p, b, now) && forall id | id in b :: id !in a
    ensures Attempted(s, r, p, a + b, now)
  {
    hide FreeSlots, Builds;
    FlagsStay(s, s1, p, a, now, b);
    FilterAppend(a, b, Builds(s.jobs));
    assert Flags(s.jobs, a + b) == Flags(s.jobs, a) + Flags(s.jobs, b);
    BuildersAppend(Flags(s.jobs, a), Flags(s.jobs, b));
    hide Filter, Flags, Builders;
    assert s.spawned + (Filter(a, Builds(s.jobs)) + Filter(b, Builds(s.jobs))) == r.spawned;
    AttemptedTables(s, s1, r, p, a, b, now);
  }

  lemma AttemptedTables(s: State, s1: State, r: State, p: string, a: seq<JobId>, b: seq<JobId>, now: int)
    requires Attempted(s, s1, p, a, now) && Attempted(s1, r, p, b, now) && forall id | id in b :: id !in a
    ensures r.jobs == (map id | id in s.jobs :: if id in a + b then AttemptOn(s.jobs[id], now) else s.jobs[id])
  {
    hide FreeSlots, AttemptOn;
  }

  // ---------------------------------------------------------------------------------------------
  // The startable entries after some attempts
  // ---------------------------------------------------------------------------------------------

  function Beside(ids: seq<JobId>): JobId -> bool {
    (id: JobId) => id !in ids
  }

  lemma {:induction false} FilterBoth(s: seq<JobId>, keep: JobId -> bool, also: JobId -> bool, both: JobId -> bool)
    requires forall id | id in s :: both(id) <==> keep(id) && also(id)
    ensures Filter(Filter(s, keep), also) == Filter(s, both)
    decreases |s|
  {
    if s != [] {
      var n := |s| - 1;
      assert s == s[..n] + [s[n]];
      FilterBoth(s[..n], keep, also, both);
      FilterTwice(s[..n], s[n], keep, also);
    }
  }

  lemma DueAfter(s: State, r: State, p: string, list: seq<JobId>, ids: seq<JobId>, rest: seq<JobId>, now: int)
    requires Attempted(s, r, p, ids, now) && NoDup(list) && DueIn(s.jobs, list) == ids + rest
    ensures DueIn(r.jobs, list) == rest
  {
    hide FreeSlots, Filter;
    FilterNoDup(list, CanStart(s.jobs));
    FilterElems(list, CanStart(s.jobs));
    var all := ids + rest;
    assert forall i | 0 <= i < |ids| :: all[i] == ids[i];
    assert forall i | 0 <= i < |rest| :: all[|ids| + i] == rest[i];
    assert forall id | id in ids :: id in all;
    FilterBoth(list, CanStart(s.jobs), Beside(ids), CanStart(r.jobs));
    FilterAppend(ids, rest, Beside(ids));
    FilterNone(ids, Beside(ids));
    FilterAll(rest, Beside(ids));
  }

  // A list that lost only entries which cannot be started.
  lemma {:induction false} DueKept(jobs: JobTable, w': seq<JobId>, w: seq<JobId>)
    requires Subseq(w', w) && NoDup(w) && forall id | id in w && Startable(jobs, id) :: id in w'
    ensures DueIn(jobs, w') == DueIn(jobs, w)
    decreases |w|
  {
    hide Filter, Startable;
    var keep := CanStart(jobs);
    if w' == [] {
      FilterNone(w', keep);
      FilterNone(w, keep);
    } else {
      assert w == [w[0]] + w[1..] && w' == [w'[0]] + w'[1..];
      assert NoDup(w[1..]) && w[0] !in w[1..];
      FilterAppend([w[0]], w[1..], keep);
      if w'[0] == w[0] && Subseq(w'[1..], w[1..]) {
        FilterAppend([w'[0]], w'[1..], keep);
        assert forall id | id in w[1..] :: id in w;
        DueKept(jobs, w'[1..], w[1..]);
      } else {
        SubseqElems(w', w[1..]);
        FilterOne(w[0], keep);
        DueKept(jobs, w', w[1..]);
      }
    }
  }

  lemma DueHead(jobs: JobTable, id: JobId, tail: seq<JobId>)
    ensures DueIn(jobs, [id] + tail) == (if Startable(jobs, id) then [id] else []) + DueIn(jobs, tail)
  {
    hide Filter;
    FilterAppend([id], tail, CanStart(jobs));
    FilterOne(id, CanStart(jobs));
  }

  // ---------------------------------------------------------------------------------------------
  // The recursion
  // ---------------------------------------------------------------------------------------------

  ghost predicate Orderly(s: State, p: string, list: seq<JobId>) {
    Counted(s, p, list) && NoDup(list)
  }

  /** Between two entries the loop has exactly its budget of free slots, or nothing can go right any more. */
  ghost predicate InLoop(s: State, p: string, rest: seq<JobId>, budget: int) {
    && Orderly(s, p, ListOf(s.wait, p)) && Orderly(s, p, rest)
    && DueIn(s.jobs, rest) == DueIn(s.jobs, ListOf(s.wait, p))
    && (budget == FreeSlots(s, p) || FreeSlots(s, p) <= 0 || DueIn(s.jobs, rest) == [])
  }

  ghost function DispatchCount(s: State, p: string): int {
    LoopCount(Flags(s.jobs, DueIn(s.jobs, ListOf(s.wait, p))), FreeSlots(s, p), FreeSlots(s, p))
  }

  lemma CountInRange(bs: seq<bool>, free: int, budget: int)
    ensures 0 <= LoopCount(bs, free, budget) <= |bs|
  {
  }

  /** The state after a dispatch: its first entries have been attempted, the others can still be started. */
  ghost predicate Dispatched(s: State, r: State, p: string, m: nat, now: int) {
    var due := DueIn(s.jobs, ListOf(s.wait, p));
    && m <= |due| && Attempted(s, r, p, due[..m], now)
    && DueIn(r.jobs, ListOf(r.wait, p)) == due[m..] && Orderly(r, p, ListOf(r.wait, p))
  }

  /**
   * A dispatch attempts the startable entries in order: until the free slots are taken, and then as many more
   * as its failed attempts left behind.
   */
  lemma {:induction false} DispatchAttempts(s: State, p: string, now: int)
    requires Orderly(s, p, ListOf(s.wait, p))
    ensures 0 <= DispatchCount(s, p) && Dispatched(s, StartJobsOnWaitList(s, p, now), p, DispatchCount(s, p), now)
    decreases LiveSet(s.jobs), 2, 0
  {
    hide FreeSlots, StartFrom, Filter, Attempted, Counted, Flags, LoopCount;
    var w := ListOf(s.wait, p);
    var due, r := DueIn(s.jobs, w), StartJobsOnWaitList(s, p, now);
    CountInRange(Flags(s.jobs, due), FreeSlots(s, p), FreeSlots(s, p));
    if FreeSlots(s, p) <= 0 {
      NoFreeSlot(s, p);
      NoneAttempted(s, p, s.wait, now);
      assert due[..0] == [] && due[0..] == due;
    } else {
      LoopAttempts(s, p, w, FreeSlots(s, p), [], now);
      var m := DispatchCount(s, p);
      assert due == due[..m] + due[m..];
      AfterDispatch(s, r, p, due[..m], due[m..], now);
    }
  }

  lemma NoFreeSlot(s: State, p: string)
    requires FreeSlots(s, p) <= 0
    ensures DispatchCount(s, p) == 0
  {
  }

  // What is left on the wait list.
  lemma AfterDispatch(s: State, r: State, p: string, ids: seq<JobId>, rest: seq<JobId>, now: int)
    requires Orderly(s, p, ListOf(s.wait, p)) && r == StartJobsOnWaitList(s, p, now)
    requires Attempted(s, r, p, ids, now) && DueIn(s.jobs, ListOf(s.wait, p)) == ids + rest
    ensures DueIn(r.jobs, ListOf(r.wait, p)) == rest && Orderly(r, p, ListOf(r.wait, p))
  {
    hide FreeSlots, StartJobsOnWaitList, DueIn, Attempted, Moves, Subseq;
    var w, w' := ListOf(s.wait, p), ListOf(r.wait, p);
    CountedOwn(s, p, w);
    WaitListMoves(s, p, now);
    CountedStays(s, r, p, w, now);
    SubseqElems(w', w);
    SubseqNoDup(w', w);
    DueAfter(s, r, p, w, ids, rest, now);
    DueKept(r.jobs, w', w);
  }

  lemma CountedOwn(s: State, p: string, ids: seq<JobId>)
    requires Counted(s, p, ids)
    ensures Own(s, p, ids)
  {
  }

  lemma {:induction false} SubseqNoDup(s: seq<JobId>, t: seq<JobId>)
    requires Subseq(s, t) && NoDup(t)
    ensures NoDup(s)
    decreases |t|
  {
    if s != [] {
      assert t == [t[0]] + t[1..] && s == [s[0]] + s[1..];
      if s[0] == t[0] && Subseq(s[1..], t[1..]) {
        SubseqNoDup(s[1..], t[1..]);
        SubseqElems(s[1..], t[1..]);
        assert s[0] !in t[1..];
        NoDupCons(s[0], s[1..]);
      } else {
        SubseqNoDup(s, t[1..]);
      }
    }
  }

  ghost predicate LoopDone(s: State, r: State, p: string, rest: seq<JobId>, budget: int, now: int) {
    var due := DueIn(s.jobs, rest);
    var m := LoopCount(Flags(s.jobs, due), FreeSlots(s, p), budget);
    0 <= m <= |due| && Attempted(s, r, p, due[..m], now)
  }

  lemma {:induction false} LoopAttempts(s: State, p: string, rest: seq<JobId>, budget: int, kept: seq<JobId>, now: int)
    requires InLoop(s, p, rest, budget)
    ensures LoopDone(s, StartFrom(s, p, rest, budget, kept, now), p, rest, budget, now)
    decreases LiveSet(s.jobs), 1, |rest|
  {
    hide FreeSlots, Filter, Attempted, Counted, Flags, StartJob, LoopCount, InLoop, LoopDone, LiveSet, DueIn;
    if budget <= 0 {
      LoopIdle(s, p, rest, budget, kept, now);
      LoopDoneIdle(s, p, rest, budget, s.wait[p := kept + rest], now);
    } else if rest == [] {
      LoopDoneIdle(s, p, rest, budget, s.wait[p := kept], now);
    } else {
      var id, tail := rest[0], rest[1..];
      assert rest == [id] + tail;
      DueHead(s.jobs, id, tail);
      if !Startable(s.jobs, id) {
        LoopSkipsOne(s, p, id, tail, budget);
        LoopAttempts(s, p, tail, budget, kept + [id], now);
        SameDone(s, p, rest, tail, budget);
        assert LoopDone(s, StartFrom(s, p, rest, budget, kept, now), p, rest, budget, now);
      } else if s.jobs[id].builds {
        LoopBuilding(s, p, id, tail, budget, kept, now);
      } else {
        LoopFailing(s, p, id, tail, budget, kept, now);
      }
    }
  }

  lemma SameDone(s: State, p: string, rest: seq<JobId>, tail: seq<JobId>, budget: int)
    requires DueIn(s.jobs, rest) == DueIn(s.jobs, tail)
    ensures forall r, now :: LoopDone(s, r, p, tail, budget, now) ==> LoopDone(s, r, p, rest, budget, now)
  {
    hide FreeSlots, Filter, Attempted, LoopCount;
  }

  // The loop stops attempting: no start is left in the budget, or no entry in the list.
  lemma LoopDoneIdle(s: State, p: string, rest: seq<JobId>, budget: int, wait: map<string, seq<JobId>>, now: int)
    requires InLoop(s, p, rest, budget) && (budget <= 0 || rest == [])
    ensures LoopDone(s, s.(wait := wait), p, rest, budget, now)
  {
    hide FreeSlots, Attempted;
    NoneAttempted(s, p, wait, now);
    assert DueIn(s.jobs, rest)[..0] == [];
  }

  lemma OrderlyTail(s: State, p: string, id: JobId, tail: seq<JobId>)
    requires Orderly(s, p, [id] + tail)
    ensures Orderly(s, p, tail) && Listed(s, p, id) && id !in tail && NoDup(ListOf(s.byPipeline, p))
  {
    var all := [id] + tail;
    assert all[0] == id && all[1..] == tail;
    assert forall x | x in tail :: x in all;
    assert id in all;
  }

  lemma LoopSkipsOne(s: State, p: string, id: JobId, tail: seq<JobId>, budget: int)
    requires InLoop(s, p, [id] + tail, budget) && !Startable(s.jobs, id)
    ensures InLoop(s, p, tail, budget) && DueIn(s.jobs, tail) == DueIn(s.jobs, [id] + tail)
  {
    hide FreeSlots, Filter, Counted;
    DueHead(s.jobs, id, tail);
    OrderlyTail(s, p, id, tail);
    assert [] + DueIn(s.jobs, tail) == DueIn(s.jobs, tail);
  }

  // One attempt, before whatever its own dispatch does.
  lemma AfterAttempt(s: State, s1: State, p: string, id: JobId, tail: seq<JobId>, budget: int, now: int)
    requires InLoop(s, p, [id] + tail, budget) && Startable(s.jobs, id)
    requires s1 == if s.jobs[id].builds then Started(s, id, now) else Unbuildable(s, id)
    ensures Attempted(s, s1, p, [id], now) && FreeSlots(s1, p) == FreeSlots(s, p) - One(s.jobs[id].builds)
    ensures Orderly(s1, p, ListOf(s1.wait, p)) && Orderly(s1, p, tail) && s1.wait == s.wait
    ensures DueIn(s.jobs, [id] + tail) == [id] + DueIn(s1.jobs, tail)
    ensures DueIn(s1.jobs, ListOf(s1.wait, p)) == DueIn(s1.jobs, tail)
    ensures id !in DueIn(s1.jobs, tail)
    ensures Moves(s, s1, p, now)
  {
    hide FreeSlots, Filter, Attempted, Counted, Moves, Flags, DueIn;
    OrderlyTail(s, p, id, tail);
    OneAttempted(s, p, id, now);
    FreeAfterStart(s, p, id, now);
    DueHead(s.jobs, id, tail);
    if s.jobs[id].builds {
      StartedMoves(s, id, p, now);
    } else {
      UnbuildableMoves(s, id, p, now);
    }
    CountedStays(s, s1, p, ListOf(s.wait, p), now);
    CountedStays(s, s1, p, tail, now);
    var rest := DueIn(s.jobs, tail);
    DueAfter(s, s1, p, ListOf(s.wait, p), [id], rest, now);
    DueAfter(s, s1, p, [id] + tail, [id], rest, now);
    DueHead(s1.jobs, id, tail);
    assert [] + DueIn(s1.jobs, tail) == DueIn(s1.jobs, tail);
    DueElems(s.jobs, tail);
  }

  lemma DueElems(jobs: JobTable, list: seq<JobId>)
    ensures forall id :: id in DueIn(jobs, list) <==> id in list && Startable(jobs, id)
  {
    hide Filter;
    FilterElems(list, CanStart(jobs));
  }

  lemma DueNoDup(jobs: JobTable, list: seq<JobId>)
    requires NoDup(list)
    ensures NoDup(DueIn(jobs, list))
  {
    hide Filter;
    FilterNoDup(list, CanStart(jobs));
  }

  lemma LoopStep(s: State, p: string, id: JobId, tail: seq<JobId>, budget: int, kept: seq<JobId>, now: int)
    requires budget > 0 && Startable(s.jobs, id)
    ensures StartFrom(s, p, [id] + tail, budget, kept, now) ==
      StartFrom(StartJob(s, id, now), p, tail, budget - 1, kept, now)
  {
    hide StartJob;
    var list := [id] + tail;
    assert list[0] == id && list[1..] == tail;
  }

  // A start uses up one slot and one of the budget.
  lemma LoopBuilding(s: State, p: string, id: JobId, tail: seq<JobId>, budget: int, kept: seq<JobId>, now: int)
    requires InLoop(s, p, [id] + tail, budget) && budget > 0 && Startable(s.jobs, id) && s.jobs[id].builds
    ensures LoopDone(s, StartFrom(s, p, [id] + tail, budget, kept, now), p, [id] + tail, budget, now)
    decreases LiveSet(s.jobs), 0, 0
  {
    hide FreeSlots, Filter, Attempted, Counted, Flags, LoopCount, DueIn, Moves, Orderly;
    var s1, list := Started(s, id, now), [id] + tail;
    var r := StartFrom(s, p, list, budget, kept, now);
    LoopStep(s, p, id, tail, budget, kept, now);
    AfterAttempt(s, s1, p, id, tail, budget, now);
    BudgetFalls(s, s1, p, id, tail, budget, now);
    assert r == StartFrom(s1, p, tail, budget - 1, kept, now);
    assert id in LiveSet(s.jobs) && id !in LiveSet(s1.jobs);
    LoopAttempts(s1, p, tail, budget - 1, kept, now);
    BuildingDone(s, s1, r, p, id, tail, budget, now);
  }

  lemma BuildingDone(s: State, s1: State, r: State, p: string, id: JobId, tail: seq<JobId>, budget: int, now: int)
    requires id in s.jobs && s.jobs[id].builds && FreeSlots(s1, p) == FreeSlots(s, p) - 1 && budget > 0
    requires FreeSlots(s, p) > 0 ==> budget == FreeSlots(s, p)
    requires Attempted(s, s1, p, [id], now) && DueIn(s.jobs, [id] + tail) == [id] + DueIn(s1.jobs, tail)
    requires id !in DueIn(s1.jobs, tail) && LoopDone(s1, r, p, tail, budget - 1, now)
    ensures LoopDone(s, r, p, [id] + tail, budget, now)
  {
    hide FreeSlots, Filter, Attempted, Flags, LoopCount, DueIn;
    var rest := DueIn(s1.jobs, tail);
    FlagsStay(s, s1, p, [id], now, rest);
    FlagsHead(s.jobs, id, rest);
    CountBuilding(Flags(s.jobs, [id] + rest), FreeSlots(s, p), budget);
    var m := LoopCount(Flags(s1.jobs, rest), FreeSlots(s1, p), budget - 1);
    AttemptedTransitive(s, s1, r, p, [id], rest[..m], now);
    assert ([id] + rest)[..1 + m] == [id] + rest[..m];
  }

  lemma BudgetFalls(s: State, s1: State, p: string, id: JobId, tail: seq<JobId>, budget: int, now: int)
    requires InLoop(s, p, [id] + tail, budget) && FreeSlots(s1, p) == FreeSlots(s, p) - 1
    requires Orderly(s1, p, ListOf(s1.wait, p)) && Orderly(s1, p, tail)
    requires DueIn(s1.jobs, ListOf(s1.wait, p)) == DueIn(s1.jobs, tail)
    requires DueIn(s.jobs, [id] + tail) == [id] + DueIn(s1.jobs, tail)
    ensures InLoop(s1, p, tail, budget - 1)
    ensures FreeSlots(s, p) > 0 ==> budget == FreeSlots(s, p)
  {
    hide FreeSlots, Filter, Counted, Moves, DueIn;
  }

  lemma FlagsHead(jobs: JobTable, id: JobId, rest: seq<JobId>)
    ensures var bs := Flags(jobs, [id] + rest);
      |bs| == 1 + |rest| && bs[0] == Builds(jobs)(id) && bs[1..] == Flags(jobs, rest)
  {
  }

  // A failed attempt: the dispatch inside it, and the loop that goes on with its own budget.
  lemma {:induction false} LoopFailing(s: State, p: string, id: JobId, tail: seq<JobId>, budget: int, kept: seq<JobId>,
                                       now: int)
    requires InLoop(s, p, [id] + tail, budget) && budget > 0 && Startable(s.jobs, id) && !s.jobs[id].builds
    ensures LoopDone(s, StartFrom(s, p, [id] + tail, budget, kept, now), p, [id] + tail, budget, now)
    decreases LiveSet(s.jobs), 0, 0
  {
    hide FreeSlots, Filter, Attempted, Counted, Flags, LoopCount, DueIn, Moves, StartJobsOnWaitList, Orderly;
    var u, list := Unbuildable(s, id), [id] + tail;
    LoopStep(s, p, id, tail, budget, kept, now);
    AfterAttempt(s, u, p, id, tail, budget, now);
    InLoopBudget(s, p, list, budget, id);
    assert id in LiveSet(s.jobs) && id !in LiveSet(u.jobs);
    DispatchAttempts(u, p, now);
    var s1, k := StartJobsOnWaitList(u, p, now), DispatchCount(u, p);
    var r := StartFrom(s, p, list, budget, kept, now);
    assert s.jobs[id].pipeline == p by { OrderlyTail(s, p, id, tail); }
    assert r == StartFrom(s1, p, tail, budget - 1, kept, now);
    FailedKeepsLoop(s, u, s1, p, id, tail, budget, k, now);
    LoopAttempts(s1, p, tail, budget - 1, kept, now);
    DueNoDup(u.jobs, tail) by { OrderlyList(u, p, tail); }
    FailedDone(s, u, s1, r, p, id, tail, budget, k, now);
  }

  lemma OrderlyList(s: State, p: string, list: seq<JobId>)
    requires Orderly(s, p, list)
    ensures NoDup(list)
  {
  }

  lemma InLoopBudget(s: State, p: string, list: seq<JobId>, budget: int, id: JobId)
    requires InLoop(s, p, list, budget) && id in list && Startable(s.jobs, id)
    ensures FreeSlots(s, p) > 0 ==> budget == FreeSlots(s, p)
  {
    hide FreeSlots, Counted, DueIn;
    DueElems(s.jobs, list);
  }

  lemma FailedKeepsLoop(s: State, u: State, s1: State, p: string, id: JobId, tail: seq<JobId>, budget: int, k: nat,
                        now: int)
    requires id in s.jobs && !s.jobs[id].builds && FreeSlots(u, p) == FreeSlots(s, p) && Orderly(u, p, tail)
    requires Orderly(u, p, ListOf(u.wait, p))
    requires FreeSlots(s, p) > 0 ==> budget == FreeSlots(s, p)
    requires budget > 0
    requires s1 == StartJobsOnWaitList(u, p, now) && k == DispatchCount(u, p) && Dispatched(u, s1, p, k, now)
    requires DueIn(u.jobs, ListOf(u.wait, p)) == DueIn(u.jobs, tail)
    ensures InLoop(s1, p, tail, budget - 1) && DueIn(s1.jobs, tail) == DueIn(u.jobs, tail)[k..]
    ensures FreeSlots(s1, p) <= 0 || DueIn(s1.jobs, tail) == []
  {
    hide FreeSlots, Filter, Counted, Flags, LoopCount, DueIn, Moves, StartJobsOnWaitList, LiveSet, Subseq, Attempted;
    var due := DueIn(u.jobs, tail);
    assert due == due[..k] + due[k..];
    DueAfter(u, s1, p, tail, due[..k], due[k..], now);
    CountedOwn(u, p, ListOf(u.wait, p));
    WaitListMoves(u, p, now);
    CountedStays(u, s1, p, tail, now);
    FreeIsTaken(u, s1, p, due, k, now);
  }

  // Where a dispatch leaves an entry that could be started, the slots are taken.
  lemma FreeIsTaken(u: State, s1: State, p: string, due: seq<JobId>, k: nat, now: int)
    requires k <= |due| && k == LoopCount(Flags(u.jobs, due), FreeSlots(u, p), FreeSlots(u, p))
    requires Attempted(u, s1, p, due[..k], now)
    ensures FreeSlots(s1, p) <= 0 || k == |due|
  {
    hide FreeSlots, Filter;
    var bs, free := Flags(u.jobs, due), FreeSlots(u, p);
    assert Flags(u.jobs, due[..k]) == bs[..k];
    if free > 0 && k < |bs| {
      ReachIs(bs, free);
      var n := Reach(bs, free);
      assert bs[..k] == bs[..n] + bs[n..k];
      BuildersAppend(bs[..n], bs[n..k]);
    }
  }

  lemma FailedDone(s: State, u: State, s1: State, r: State, p: string, id: JobId, tail: seq<JobId>, budget: int, k: nat,
                   now: int)
    requires id in s.jobs && !s.jobs[id].builds && FreeSlots(u, p) == FreeSlots(s, p) && budget > 0
    requires FreeSlots(s, p) > 0 ==> budget == FreeSlots(s, p)
    requires Attempted(s, u, p, [id], now) && DueIn(s.jobs, [id] + tail) == [id] + DueIn(u.jobs, tail)
    requires id !in DueIn(u.jobs, tail) && NoDup(DueIn(u.jobs, tail))
    requires k <= |DueIn(u.jobs, tail)| && Attempted(u, s1, p, DueIn(u.jobs, tail)[..k], now)
    requires k == LoopCount(Flags(u.jobs, DueIn(u.jobs, tail)), FreeSlots(u, p), FreeSlots(u, p))
    requires DueIn(s1.jobs, tail) == DueIn(u.jobs, tail)[k..] && (FreeSlots(s1, p) <= 0 || DueIn(s1.jobs, tail) == [])
    requires LoopDone(s1, r, p, tail, budget - 1, now)
    ensures LoopDone(s, r, p, [id] + tail, budget, now)
  {
    hide FreeSlots, Filter, Attempted, Flags, LoopCount, DueIn;
    var due := DueIn(u.jobs, tail);
    var bs := Flags(s.jobs, [id] + due);
    FlagsStay(s, u, p, [id], now, due);
    FlagsHead(s.jobs, id, due);
    CountFailing(bs, FreeSlots(s, p), budget);
    FlagsLength(s1.jobs, due[k..]);
    LastCount(Flags(s1.jobs, due[k..]), FreeSlots(s1, p), budget - 1);
    var l := LoopCount(Flags(s1.jobs, due[k..]), FreeSlots(s1, p), budget - 1);
    AttemptedTransitive(s, u, s1, p, [id], due[..k], now);
    assert forall x | x in due[k..][..l] :: x !in [id] + due[..k];
    AttemptedTransitive(s, s1, r, p, [id] + due[..k], due[k..][..l], now);
    assert ([id] + due)[..1 + k + l] == [id] + due[..k] + due[k..][..l];
  }

  lemma FlagsLength(jobs: JobTable, ids: seq<JobId>)
    ensures |Flags(jobs, ids)| == |ids|
  {
  }

  lemma LastCount(bs: seq<bool>, free: int, budget: int)
    requires budget >= 0 && (free <= 0 || bs == [])
    ensures LoopCount(bs, free, budget) == Least(budget, |bs|)
  {
  }
}
