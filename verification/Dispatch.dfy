// The mutual recursion of startJob and startJobsOnWaitList: what it keeps for any mix of jobs that can
// and cannot be built. Promotion has its one-step form, Attempts its exact effect.
module Dispatch {
  import opened Basics
  import opened WaitList
  import opened RunnerState

  // ---------------------------------------------------------------------------------------------
  // Any mix of jobs
  // ---------------------------------------------------------------------------------------------

  /** A live job is started if it builds and canceled if it does not; every other job is left alone. */
  ghost predicate JobMove(j: Job, j': Job, now: int) {
    || j' == j
    || (Live(j) && j.builds && j' == Launched(j, now))
    || (Live(j) && !j.builds && j' == FailedStart(j))
  }

  /** `ids` are exactly the jobs started between the two tables, each once. */
  ghost predicate StartsExactly(jobs: JobTable, jobs': JobTable, ids: seq<JobId>) {
    NoDup(ids) && forall id :: id in ids <==> id in jobs && id in jobs' && jobs[id].start.None? && jobs'[id].start.Some?
  }

  ghost predicate Moves(s: State, s': State, p: string, now: int) {
    && s'.jobs.Keys == s.jobs.Keys
    && (forall id | id in s.jobs :: JobMove(s.jobs[id], s'.jobs[id], now))
    && (forall id | id in s.jobs && s.jobs[id].pipeline != p :: s'.jobs[id] == s.jobs[id])
    && s.spawned <= s'.spawned
    && StartsExactly(s.jobs, s'.jobs, s'.spawned[|s.spawned|..])
    && (s.token ==> s'.token)
    && (s'.jobs != s.jobs ==> s'.token)
    && s' == s.(jobs := s'.jobs, spawned := s'.spawned, token := s'.token, wait := s'.wait)
    && (s'.wait == s.wait || (p in s'.wait && s'.wait == s.wait[p := s'.wait[p]]))
  }

  lemma JobMovesTransitive(j: Job, j1: Job, j2: Job, now: int)
    requires JobMove(j, j1, now) && JobMove(j1, j2, now)
    ensures JobMove(j, j2, now) && j2.pipeline == j.pipeline
    ensures j.start.None? && j2.start.Some? <==> (j.start.None? && j1.start.Some?) || (j1.start.None? && j2.start.Some?)
    ensures j1.start.None? ==> j.start.None?
  {
  }

  lemma StartsTransitive(jobs: JobTable, jobs1: JobTable, jobs2: JobTable, now: int, new1: seq<JobId>, new2: seq<JobId>)
    requires jobs1.Keys == jobs.Keys && jobs2.Keys == jobs.Keys
    requires forall id | id in jobs :: JobMove(jobs[id], jobs1[id], now) && JobMove(jobs1[id], jobs2[id], now)
    requires StartsExactly(jobs, jobs1, new1) && StartsExactly(jobs1, jobs2, new2)
    ensures StartsExactly(jobs, jobs2, new1 + new2)
  {
    hide JobMove;
    forall id | id in jobs
      ensures jobs[id].start.None? && jobs2[id].start.Some? <==>
        (jobs[id].start.None? && jobs1[id].start.Some?) || (jobs1[id].start.None? && jobs2[id].start.Some?)
      ensures jobs1[id].start.None? ==> jobs[id].start.None?
    {
      JobMovesTransitive(jobs[id], jobs1[id], jobs2[id], now);
    }
    NoDupConcat(new1, new2);
  }

  lemma MovesTransitive(s: State, s1: State, s2: State, p: string, now: int)
    requires Moves(s, s1, p, now) && Moves(s1, s2, p, now)
    ensures Moves(s, s2, p, now)
  {
    hide JobMove, StartsExactly;
    var new1, new2 := s1.spawned[|s.spawned|..], s2.spawned[|s1.spawned|..];
    assert s2.spawned[|s.spawned|..] == new1 + new2;
    forall id | id in s.jobs ensures JobMove(s.jobs[id], s2.jobs[id], now) {
      JobMovesTransitive(s.jobs[id], s1.jobs[id], s2.jobs[id], now);
    }
    StartsTransitive(s.jobs, s1.jobs, s2.jobs, now, new1, new2);
  }

  lemma StartedMoves(s: State, id: JobId, p: string, now: int)
    requires id in s.jobs && Live(s.jobs[id]) && s.jobs[id].builds && s.jobs[id].pipeline == p
    ensures Moves(s, Started(s, id, now), p, now)
  {
  }

  lemma UnbuildableMoves(s: State, id: JobId, p: string, now: int)
    requires id in s.jobs && Live(s.jobs[id]) && !s.jobs[id].builds && s.jobs[id].pipeline == p
    ensures Moves(s, Unbuildable(s, id), p, now)
  {
  }

  lemma NothingMoves(s: State, p: string, now: int, wait: map<string, seq<JobId>>)
    requires wait == s.wait || (p in wait && wait == s.wait[p := wait[p]])
    ensures Moves(s, s.(wait := wait), p, now)
  {
  }

  /** `s` is what remains of `t` after some entries were dropped. */
  predicate Subseq(s: seq<JobId>, t: seq<JobId>)
    decreases |t|
  {
    s == [] || (t != [] && ((s[0] == t[0] && Subseq(s[1..], t[1..])) || Subseq(s, t[1..])))
  }

  lemma {:induction false} SubseqElems(s: seq<JobId>, t: seq<JobId>)
    requires Subseq(s, t)
    ensures forall id | id in s :: id in t
    decreases |t|
  {
    if s != [] {
      assert s == [s[0]] + s[1..];
      if s[0] == t[0] && Subseq(s[1..], t[1..]) {
        SubseqElems(s[1..], t[1..]);
      } else {
        SubseqElems(s, t[1..]);
      }
    }
  }

  lemma {:induction false} SubseqSelf(s: seq<JobId>)
    ensures Subseq(s, s)
    decreases |s|
  {
    if s != [] {
      SubseqSelf(s[1..]);
    }
  }

  ghost predicate Own(s: State, p: string, ids: seq<JobId>) {
    forall id | id in ids :: id in s.jobs && s.jobs[id].pipeline == p
  }

  /** The wait list loses entries but no live job, and the survivors keep their order. */
  ghost predicate KeepsLive(s: State, s': State, p: string) {
    && Subseq(ListOf(s'.wait, p), ListOf(s.wait, p))
    && forall id | id in ListOf(s.wait, p) && id in s'.jobs && Live(s'.jobs[id]) :: id in ListOf(s'.wait, p)
  }

  lemma KeepsOwn(s: State, s': State, p: string, now: int)
    requires Own(s, p, ListOf(s.wait, p)) && Moves(s, s', p, now) && KeepsLive(s, s', p)
    ensures Own(s', p, ListOf(s'.wait, p))
  {
    SubseqElems(ListOf(s'.wait, p), ListOf(s.wait, p));
    forall id | id in s.jobs ensures s'.jobs[id].pipeline == s.jobs[id].pipeline {
      assert JobMove(s.jobs[id], s'.jobs[id], now);
    }
  }

  lemma OwnStays(s: State, s': State, p: string, ids: seq<JobId>, now: int)
    requires Own(s, p, ids) && Moves(s, s', p, now)
    ensures Own(s', p, ids)
  {
  }

  lemma {:induction false} StartJobMoves(s: State, id: JobId, p: string, now: int)
    requires id in s.jobs && s.jobs[id].start.None? && s.jobs[id].pipeline == p
    requires Own(s, p, ListOf(s.wait, p))
    ensures Moves(s, StartJob(s, id, now), p, now) && KeepsLive(s, StartJob(s, id, now), p)
    decreases LiveSet(s.jobs), 0, 0
  {
    hide Moves, StartJobsOnWaitList, StartFrom, Subseq;
    SubseqSelf(ListOf(s.wait, p));
    if s.jobs[id].canceled {
      NothingMoves(s, p, now, s.wait);
    } else if s.jobs[id].builds {
      StartedMoves(s, id, p, now);
    } else {
      var s1 := Unbuildable(s, id);
      assert id in LiveSet(s.jobs) && id !in LiveSet(s1.jobs);
      UnbuildableMoves(s, id, p, now);
      WaitListMoves(s1, p, now);
      MovesTransitive(s, s1, StartJob(s, id, now), p, now);
    }
  }

  /**
   * Re-entrancy: whatever can and cannot be built, the recursion ends, each live job is started at most once
   * or canceled, jobs of other pipelines are left alone, and the wait list keeps every job that is still
   * live, in order.
   */
  lemma {:induction false} WaitListMoves(s: State, p: string, now: int)
    requires Own(s, p, ListOf(s.wait, p))
    ensures Moves(s, StartJobsOnWaitList(s, p, now), p, now) && KeepsLive(s, StartJobsOnWaitList(s, p, now), p)
    decreases LiveSet(s.jobs), 2, 0
  {
    hide Moves, StartFrom, Subseq;
    SubseqSelf(ListOf(s.wait, p));
    if FreeSlots(s, p) <= 0 {
      NothingMoves(s, p, now, s.wait);
    } else {
      var k := LoopMoves(s, p, ListOf(s.wait, p), FreeSlots(s, p), [], now);
      assert [] + k == k;
    }
  }

  lemma {:induction false} LoopMoves(s: State, p: string, rest: seq<JobId>, free: int, kept: seq<JobId>, now: int)
    returns (k: seq<JobId>)
    requires Own(s, p, ListOf(s.wait, p)) && Own(s, p, rest)
    ensures var r := StartFrom(s, p, rest, free, kept, now);
      && Moves(s, r, p, now)
      && ListOf(r.wait, p) == kept + k && Subseq(k, rest)
      && forall id | id in rest && id in r.jobs && Live(r.jobs[id]) :: id in k
    decreases LiveSet(s.jobs), 1, |rest|
  {
    hide Moves, StartJob;
    if rest == [] {
      k := [];
      assert kept + k == kept;
      NothingMoves(s, p, now, s.wait[p := kept]);
    } else {
      var id := rest[0];
      assert forall x | x in rest[1..] :: x in rest;
      assert forall x | x in rest :: x == id || x in rest[1..];
      var r := StartFrom(s, p, rest, free, kept, now);
      if id in s.jobs && CanBeStarted(s.jobs[id]) && free > 0 {
        assert id in LiveSet(s.jobs);
        var s1 := StartJob(s, id, now);
        StartJobMoves(s, id, p, now);
        KeepsOwn(s, s1, p, now);
        OwnStays(s, s1, p, rest[1..], now);
        k := LoopMoves(s1, p, rest[1..], free - 1, kept, now);
        MovesTransitive(s, s1, r, p, now);
        assert id !in LiveSet(r.jobs);
      } else {
        var k1 := LoopMoves(s, p, rest[1..], free, kept + [id], now);
        k := [id] + k1;
        assert kept + [id] + k1 == kept + k;
        assert k[1..] == k1;
      }
    }
  }

  /** An entry that no dispatch will ever start: its job has been started or canceled. */
  ghost predicate Leftover(s: State, p: string, x: JobId) {
    x in ListOf(s.wait, p) && x in s.jobs && !Live(s.jobs[x])
  }

  lemma StaysLeftover(s: State, s1: State, p: string, now: int, x: JobId)
    requires Moves(s, s1, p, now)
    ensures x in s.jobs && !Live(s.jobs[x]) ==> x in s1.jobs && s1.jobs[x] == s.jobs[x]
  {
    assert x in s.jobs ==> JobMove(s.jobs[x], s1.jobs[x], now);
  }

  // What is not live when the loop comes to it is not startable, so the loop writes it back.
  lemma {:induction false} LoopKeepsLeftover(s: State, p: string, rest: seq<JobId>, free: int, kept: seq<JobId>,
                                             now: int, x: JobId)
    requires Own(s, p, ListOf(s.wait, p)) && Own(s, p, rest)
    requires x in kept || (x in rest && x in s.jobs && !Live(s.jobs[x]))
    ensures x in ListOf(StartFrom(s, p, rest, free, kept, now).wait, p)
    decreases |rest|
  {
    hide Moves, StartJob, KeepsLive;
    if rest != [] {
      var id := rest[0];
      assert rest == [id] + rest[1..];
      assert forall y | y in rest[1..] :: y in rest;
      if id in s.jobs && CanBeStarted(s.jobs[id]) && free > 0 {
        var s1 := StartJob(s, id, now);
        StartJobMoves(s, id, p, now);
        KeepsOwn(s, s1, p, now);
        OwnStays(s, s1, p, rest[1..], now);
        StaysLeftover(s, s1, p, now, x);
        LoopKeepsLeftover(s1, p, rest[1..], free - 1, kept, now, x);
      } else {
        LoopKeepsLeftover(s, p, rest[1..], free, kept + [id], now, x);
      }
    }
  }

  /** No dispatch takes such an entry off the list. */
  lemma DispatchKeepsLeftover(s: State, p: string, now: int, x: JobId)
    requires Own(s, p, ListOf(s.wait, p)) && Leftover(s, p, x)
    ensures Leftover(StartJobsOnWaitList(s, p, now), p, x)
  {
    hide Moves, StartFrom, KeepsLive;
    WaitListMoves(s, p, now);
    StaysLeftover(s, StartJobsOnWaitList(s, p, now), p, now, x);
    if FreeSlots(s, p) > 0 {
      LoopKeepsLeftover(s, p, ListOf(s.wait, p), FreeSlots(s, p), [], now, x);
    }
  }

  // ---------------------------------------------------------------------------------------------
  // What a dispatch passes over
  // ---------------------------------------------------------------------------------------------

  lemma {:induction false} StartSkips(s: State, id: JobId, now: int, x: JobId)
    requires id in s.jobs && s.jobs[id].start.None? && x in s.jobs && x != id && !CanBeStarted(s.jobs[x])
    ensures x in StartJob(s, id, now).jobs && StartJob(s, id, now).jobs[x] == s.jobs[x]
    decreases LiveSet(s.jobs), 0, 0
  {
    hide StartJobsOnWaitList, CanBeStarted;
    if !s.jobs[id].canceled && !s.jobs[id].builds {
      assert id in LiveSet(s.jobs) && id !in LiveSet(Unbuildable(s, id).jobs);
      DispatchSkips(Unbuildable(s, id), s.jobs[id].pipeline, now, x);
    }
  }

  /** No dispatch touches a job that cannot be started: its delay still runs, or it has started or been canceled. */
  lemma {:induction false} DispatchSkips(s: State, p: string, now: int, x: JobId)
    requires x in s.jobs && !CanBeStarted(s.jobs[x])
    ensures var r := StartJobsOnWaitList(s, p, now); x in r.jobs && r.jobs[x] == s.jobs[x]
    decreases LiveSet(s.jobs), 2, 0
  {
    hide StartFrom, CanBeStarted, FreeSlots;
    if FreeSlots(s, p) > 0 {
      LoopSkips(s, p, ListOf(s.wait, p), FreeSlots(s, p), [], now, x);
    }
  }

  lemma {:induction false} LoopSkips(s: State, p: string, rest: seq<JobId>, free: int, kept: seq<JobId>, now: int,
                                     x: JobId)
    requires x in s.jobs && !CanBeStarted(s.jobs[x])
    ensures var r := StartFrom(s, p, rest, free, kept, now); x in r.jobs && r.jobs[x] == s.jobs[x]
    decreases LiveSet(s.jobs), 1, |rest|
  {
    hide StartJob;
    if rest != [] {
      var id := rest[0];
      if id in s.jobs && CanBeStarted(s.jobs[id]) && free > 0 {
        assert id in LiveSet(s.jobs);
        StartSkips(s, id, now, x);
        LoopSkips(StartJob(s, id, now), p, rest[1..], free - 1, kept, now, x);
      } else {
        LoopSkips(s, p, rest[1..], free, kept + [id], now, x);
      }
    }
  }

  // ---------------------------------------------------------------------------------------------
  // Counting running jobs
  // ---------------------------------------------------------------------------------------------

  function One(b: bool): int {
    if b then 1 else 0
  }

  lemma {:induction false} CountUpdate(jobs: JobTable, ids: seq<JobId>, id: JobId, j: Job)
    requires NoDup(ids) && id in jobs
    ensures CountRunning(jobs[id := j], ids) ==
      CountRunning(jobs, ids) + if id in ids then One(IsRunning(j)) - One(IsRunning(jobs[id])) else 0
    decreases |ids|
  {
    if ids != [] {
      var n := |ids| - 1;
      assert ids == ids[..n] + [ids[n]];
      CountUpdate(jobs, ids[..n], id, j);
    }
  }

  /** A job that a dispatch may start is listed for its pipeline, where runningJobsCount looks. */
  ghost predicate Listed(s: State, p: string, id: JobId) {
    id in s.jobs && s.jobs[id].pipeline == p &&
    (Live(s.jobs[id]) ==> id in ListOf(s.byPipeline, p) && !s.jobs[id].completed)
  }

  ghost predicate Counted(s: State, p: string, ids: seq<JobId>) {
    NoDup(ListOf(s.byPipeline, p)) && forall id | id in ids :: Listed(s, p, id)
  }

  lemma CountedStays(s: State, s': State, p: string, ids: seq<JobId>, now: int)
    requires Counted(s, p, ids) && Moves(s, s', p, now)
    ensures Counted(s', p, ids)
  {
  }

  lemma FreeAfterStart(s: State, p: string, id: JobId, now: int)
    requires Listed(s, p, id) && Live(s.jobs[id]) && NoDup(ListOf(s.byPipeline, p))
    ensures FreeSlots(Started(s, id, now), p) == FreeSlots(s, p) - 1
    ensures FreeSlots(Unbuildable(s, id), p) == FreeSlots(s, p)
  {
    CountUpdate(s.jobs, ListOf(s.byPipeline, p), id, Started(s, id, now).jobs[id]);
    CountUpdate(s.jobs, ListOf(s.byPipeline, p), id, Unbuildable(s, id).jobs[id]);
  }

  ghost predicate NoneStartable(jobs: JobTable, ids: seq<JobId>) {
    forall id | id in ids && id in jobs :: !CanBeStarted(jobs[id])
  }

  ghost predicate AllBuild(jobs: JobTable, ids: seq<JobId>) {
    forall id | id in ids && id in jobs && CanBeStarted(jobs[id]) :: jobs[id].builds
  }

  lemma {:induction false} LoopIdle(s: State, p: string, rest: seq<JobId>, free: int, kept: seq<JobId>, now: int)
    requires free <= 0 || NoneStartable(s.jobs, rest)
    ensures StartFrom(s, p, rest, free, kept, now) == s.(wait := s.wait[p := kept + rest])
    decreases |rest|
  {
    if rest == [] {
      assert kept + rest == kept;
    } else {
      assert kept + [rest[0]] + rest[1..] == kept + rest;
      assert rest[0] in rest && forall x | x in rest[1..] :: x in rest;
      LoopIdle(s, p, rest[1..], free, kept + [rest[0]], now);
    }
  }

  /**
   * Work conservation: after a dispatch the pipeline is full, or no job of its wait list can be started.
   * If every startable job builds, the pipeline is not overfull either.
   */
  lemma {:induction false} WaitListConserves(s: State, p: string, now: int)
    requires Counted(s, p, ListOf(s.wait, p))
    ensures var r := StartJobsOnWaitList(s, p, now);
      && (FreeSlots(r, p) <= 0 || NoneStartable(r.jobs, ListOf(s.wait, p)))
      && (AllBuild(s.jobs, ListOf(s.wait, p)) && FreeSlots(s, p) >= 0 ==> FreeSlots(r, p) >= 0)
    decreases LiveSet(s.jobs), 2, 0
  {
    hide FreeSlots, StartFrom, NoneStartable, AllBuild, Counted;
    if FreeSlots(s, p) > 0 {
      LoopConserves(s, p, ListOf(s.wait, p), FreeSlots(s, p), [], now);
    }
  }

  /** The rest of a wait list, as far as it matters, is on the wait list. */
  ghost predicate StillWaiting(s: State, p: string, rest: seq<JobId>) {
    forall id | id in rest && id in s.jobs && Live(s.jobs[id]) :: id in ListOf(s.wait, p)
  }

  /** What the loop relies on between two entries: its own count is right, or nothing is left to start. */
  ghost predicate LoopReady(s: State, p: string, rest: seq<JobId>, free: int) {
    && Counted(s, p, ListOf(s.wait, p)) && Counted(s, p, rest) && StillWaiting(s, p, rest)
    && (free == FreeSlots(s, p) || FreeSlots(s, p) <= 0 || NoneStartable(s.jobs, rest))
  }

  ghost predicate Exact(s: State, p: string, rest: seq<JobId>, free: int) {
    AllBuild(s.jobs, rest) && free == FreeSlots(s, p) >= 0
  }

  lemma {:induction false} LoopConserves(s: State, p: string, rest: seq<JobId>, free: int, kept: seq<JobId>, now: int)
    requires LoopReady(s, p, rest, free)
    ensures var r := StartFrom(s, p, rest, free, kept, now);
      && (FreeSlots(r, p) <= 0 || NoneStartable(r.jobs, rest))
      && (Exact(s, p, rest, free) ==> FreeSlots(r, p) >= 0)
    decreases LiveSet(s.jobs), 1, |rest|
  {
    hide FreeSlots, Moves, StartJobsOnWaitList, StartJob, LiveSet, LoopReady, Exact, NoneStartable, Own;
    var r := StartFrom(s, p, rest, free, kept, now);
    if free <= 0 {
      LoopIdle(s, p, rest, free, kept, now);
      LoopStops(s, p, rest, free, s.wait[p := kept + rest]);
    } else if rest == [] {
      LoopStops(s, p, rest, free, s.wait[p := kept]);
    } else {
      var id, tail := rest[0], rest[1..];
      assert rest == [id] + tail;
      ReadyOwn(s, p, rest, free);
      if CanBeStarted(s.jobs[id]) {
        AttemptKeepsReady(s, p, rest, free, now);
        StartableIsLive(s.jobs, id);
        LoopConserves(StartJob(s, id, now), p, tail, free - 1, kept, now);
        StartableIsLive(r.jobs, id);
      } else {
        SkipKeepsReady(s, p, id, tail, free);
        LoopConserves(s, p, tail, free, kept + [id], now);
        var _ := LoopMoves(s, p, rest, free, kept, now);
        NotStartableStays(s, r, p, id, now);
      }
      NoneMore(r.jobs, id, tail);
    }
  }

  lemma LoopStops(s: State, p: string, rest: seq<JobId>, free: int, wait: map<string, seq<JobId>>)
    requires LoopReady(s, p, rest, free) && (free <= 0 || rest == [])
    ensures var r := s.(wait := wait);
      && (FreeSlots(r, p) <= 0 || NoneStartable(r.jobs, rest))
      && (Exact(s, p, rest, free) ==> FreeSlots(r, p) >= 0)
  {
    hide FreeSlots;
    FreeIgnoresWait(s, p, wait);
  }

  lemma ReadyOwn(s: State, p: string, rest: seq<JobId>, free: int)
    requires LoopReady(s, p, rest, free)
    ensures Own(s, p, ListOf(s.wait, p)) && Own(s, p, rest) && forall id | id in rest :: id in s.jobs
  {
    hide FreeSlots;
  }

  lemma NotStartableStays(s: State, r: State, p: string, id: JobId, now: int)
    requires Moves(s, r, p, now) && id in s.jobs && !CanBeStarted(s.jobs[id])
    ensures id in r.jobs && !CanBeStarted(r.jobs[id])
  {
    assert JobMove(s.jobs[id], r.jobs[id], now);
  }

  lemma StartableIsLive(jobs: JobTable, id: JobId)
    ensures id in jobs && CanBeStarted(jobs[id]) ==> id in LiveSet(jobs)
  {
  }

  lemma NoneMore(jobs: JobTable, id: JobId, tail: seq<JobId>)
    ensures NoneStartable(jobs, tail) && (id in jobs ==> !CanBeStarted(jobs[id])) ==> NoneStartable(jobs, [id] + tail)
  {
  }

  lemma SkipKeepsReady(s: State, p: string, id: JobId, tail: seq<JobId>, free: int)
    requires LoopReady(s, p, [id] + tail, free)
    ensures LoopReady(s, p, tail, free) && (Exact(s, p, [id] + tail, free) ==> Exact(s, p, tail, free))
  {
    hide FreeSlots;
    assert forall x | x in tail :: x in [id] + tail;
  }

  // A start, or a failed start with the dispatch inside it.
  lemma AttemptKeepsReady(s: State, p: string, rest: seq<JobId>, free: int, now: int)
    requires LoopReady(s, p, rest, free) && free > 0
    requires rest != [] && rest[0] in s.jobs && CanBeStarted(s.jobs[rest[0]])
    ensures LoopReady(StartJob(s, rest[0], now), p, rest[1..], free - 1)
    ensures Exact(s, p, rest, free) ==> Exact(StartJob(s, rest[0], now), p, rest[1..], free - 1)
    decreases LiveSet(s.jobs), 0, 0
  {
    hide FreeSlots, Moves, StartJobsOnWaitList;
    var id, tail := rest[0], rest[1..];
    assert id in rest && forall x | x in tail :: x in rest;
    assert Listed(s, p, id) && id in LiveSet(s.jobs);
    FreeAfterStart(s, p, id, now);
    StartJobMoves(s, id, p, now);
    var s1 := StartJob(s, id, now);
    CountedStays(s, s1, p, tail, now);
    CountedStays(s, s1, p, ListOf(s.wait, p), now);
    TailAfterStart(s, p, id, tail, now);
    if s.jobs[id].builds {
      assert forall x | x in s.jobs && x != id :: s1.jobs[x] == s.jobs[x];
    } else {
      assert id !in LiveSet(Unbuildable(s, id).jobs);
      CountedStaysUnbuildable(s, p, id, now);
      WaitListConserves(Unbuildable(s, id), p, now);
      NoneInTail(s, s1, p, tail, now);
    }
  }

  lemma FreeIgnoresWait(s: State, p: string, wait: map<string, seq<JobId>>)
    ensures FreeSlots(s.(wait := wait), p) == FreeSlots(s, p)
  {
  }

  lemma CountedStaysUnbuildable(s: State, p: string, id: JobId, now: int)
    requires id in s.jobs && Live(s.jobs[id]) && !s.jobs[id].builds && s.jobs[id].pipeline == p
    requires Counted(s, p, ListOf(s.wait, p))
    ensures Counted(Unbuildable(s, id), p, ListOf(s.wait, p))
  {
  }

  lemma TailAfterStart(s: State, p: string, id: JobId, tail: seq<JobId>, now: int)
    requires id in s.jobs && s.jobs[id].start.None?
    requires StillWaiting(s, p, tail) && Counted(s, p, ListOf(s.wait, p)) && Counted(s, p, tail)
    requires var s1 := StartJob(s, id, now); Moves(s, s1, p, now) && KeepsLive(s, s1, p)
    requires Counted(StartJob(s, id, now), p, ListOf(s.wait, p))
    ensures var s1 := StartJob(s, id, now); StillWaiting(s1, p, tail) && Counted(s1, p, ListOf(s1.wait, p))
  {
    hide StartJob;
    var s1 := StartJob(s, id, now);
    SubseqElems(ListOf(s1.wait, p), ListOf(s.wait, p));
    forall x | x in tail && x in s1.jobs && Live(s1.jobs[x]) ensures x in ListOf(s1.wait, p) {
      assert JobMove(s.jobs[x], s1.jobs[x], now);
    }
  }

  lemma NoneInTail(s: State, s1: State, p: string, tail: seq<JobId>, now: int)
    requires Moves(s, s1, p, now) && StillWaiting(s, p, tail)
    requires FreeSlots(s1, p) <= 0 || NoneStartable(s1.jobs, ListOf(s.wait, p))
    ensures FreeSlots(s1, p) <= 0 || NoneStartable(s1.jobs, tail)
  {
  }
}
