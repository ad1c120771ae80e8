// What a dispatch amounts to when at most one slot is free or at most one waiting job can start, which is
// always so in the runs of RunnerRuns: the first startable jobs that do not build are canceled, and the
// first one that does is started.
module Promotion {
  import opened Basics
  import opened WaitList
  import opened RunnerState
  import opened Dispatch

  predicate Startable(jobs: JobTable, id: JobId) {
    id in jobs && CanBeStarted(jobs[id])
  }

  /** The first startable entry, or the length. */
  function FirstStartable(jobs: JobTable, list: seq<JobId>): nat
    decreases |list|
  {
    if list == [] || Startable(jobs, list[0]) then 0 else 1 + FirstStartable(jobs, list[1..])
  }

  /** The first startable entry whose graph builds. */
  function Chosen(jobs: JobTable, list: seq<JobId>): Option<JobId>
    decreases |list|
  {
    if list == [] then None
    else if Startable(jobs, list[0]) && jobs[list[0]].builds then Some(list[0])
    else Chosen(jobs, list[1..])
  }

  /** The startable entries before it. */
  function PassedOver(jobs: JobTable, list: seq<JobId>): set<JobId>
    decreases |list|
  {
    if list == [] || (Startable(jobs, list[0]) && jobs[list[0]].builds) then {}
    else (if Startable(jobs, list[0]) then {list[0]} else {}) + PassedOver(jobs, list[1..])
  }

  function PromotedJobs(jobs: JobTable, list: seq<JobId>, now: int): JobTable {
    map id | id in jobs ::
      if Chosen(jobs, list) == Some(id) then Launched(jobs[id], now)
      else if id in PassedOver(jobs, list)
      then FailedStart(jobs[id])
      else jobs[id]
  }

  function WithoutFirst(jobs: JobTable, list: seq<JobId>): seq<JobId> {
    var k := FirstStartable(jobs, list);
    if k < |list| then list[..k] + list[k + 1..] else list
  }

  function Promote(s: State, p: string, now: int): State {
    var list := ListOf(s.wait, p);
    if FreeSlots(s, p) <= 0 then s
    else s.(jobs := PromotedJobs(s.jobs, list, now),
            wait := s.wait[p := WithoutFirst(s.jobs, list)],
            token := s.token || FirstStartable(s.jobs, list) < |list|,
            spawned := s.spawned + if Chosen(s.jobs, list).Some? then [Chosen(s.jobs, list).value] else [])
  }

  ghost predicate AtMostOneStartable(jobs: JobTable, list: seq<JobId>) {
    forall i, j | 0 <= i < j < |list| :: !(Startable(jobs, list[i]) && Startable(jobs, list[j]))
  }

  // ---------------------------------------------------------------------------------------------
  // The closed form on lists
  // ---------------------------------------------------------------------------------------------

  lemma {:induction false} SkipPrefix(jobs: JobTable, pre: seq<JobId>, rest: seq<JobId>)
    requires NoneStartable(jobs, pre)
    ensures Chosen(jobs, pre + rest) == Chosen(jobs, rest) && PassedOver(jobs, pre + rest) == PassedOver(jobs, rest)
    ensures FirstStartable(jobs, pre + rest) == |pre| + FirstStartable(jobs, rest)
    decreases |pre|
  {
    if pre == [] {
      assert pre + rest == rest;
    } else {
      assert (pre + rest)[1..] == pre[1..] + rest;
      assert pre[0] in pre && forall x | x in pre[1..] :: x in pre;
      SkipPrefix(jobs, pre[1..], rest);
    }
  }

  lemma {:induction false} FirstStartableIs(jobs: JobTable, list: seq<JobId>)
    ensures var k := FirstStartable(jobs, list);
      k <= |list| && (k < |list| ==> Startable(jobs, list[k])) && NoneStartable(jobs, list[..k])
    decreases |list|
  {
    if list != [] && !Startable(jobs, list[0]) {
      FirstStartableIs(jobs, list[1..]);
      var k := FirstStartable(jobs, list);
      assert list[..k] == [list[0]] + list[1..][..k - 1];
    }
  }

  lemma {:induction false} ChosenIs(jobs: JobTable, list: seq<JobId>)
    ensures var c := Chosen(jobs, list);
      && (c.Some? ==>
            c.value in list && Startable(jobs, c.value) && jobs[c.value].builds && c.value !in PassedOver(jobs, list))
      && (forall id | id in PassedOver(jobs, list) :: id in list && Startable(jobs, id) && !jobs[id].builds)
      && (c.None? ==> forall id | id in list && Startable(jobs, id) :: id in PassedOver(jobs, list))
    decreases |list|
  {
    if list != [] {
      assert list == [list[0]] + list[1..];
      ChosenIs(jobs, list[1..]);
    }
  }

  // Canceling the job at the head of the startable ones leaves the rest of the decision alone.
  lemma {:induction false} AfterCancel(jobs: JobTable, list: seq<JobId>, id: JobId, j: Job)
    requires id in jobs && CanBeStarted(jobs[id]) && !jobs[id].builds && !CanBeStarted(j)
    requires id in list && FirstStartable(jobs, list) < |list| && list[FirstStartable(jobs, list)] == id
    ensures Chosen(jobs[id := j], list) == Chosen(jobs, list)
    ensures PassedOver(jobs, list) == PassedOver(jobs[id := j], list) + {id}
    decreases |list|
  {
    var jobs' := jobs[id := j];
    if list[0] == id {
      AfterCancelTail(jobs, list[1..], id, j);
    } else if !Startable(jobs, list[0]) {
      AfterCancel(jobs, list[1..], id, j);
    }
  }

  lemma {:induction false} AfterCancelTail(jobs: JobTable, list: seq<JobId>, id: JobId, j: Job)
    requires id in jobs && CanBeStarted(jobs[id]) && !jobs[id].builds && !CanBeStarted(j)
    ensures Chosen(jobs[id := j], list) == Chosen(jobs, list)
    ensures PassedOver(jobs, list) + {id} == PassedOver(jobs[id := j], list) + {id}
    ensures id !in PassedOver(jobs[id := j], list)
    decreases |list|
  {
    if list != [] {
      AfterCancelTail(jobs, list[1..], id, j);
    }
  }

  // ---------------------------------------------------------------------------------------------
  // The recursion refines to it
  // ---------------------------------------------------------------------------------------------

  ghost predicate Slack(s: State, p: string, rest: seq<JobId>, free: int) {
    free == FreeSlots(s, p) > 0 && (free == 1 || AtMostOneStartable(s.jobs, rest))
  }

  /** With one free slot, or one job to start, the re-entrant dispatch is a single promotion. */
  lemma {:induction false} DispatchIsPromotion(s: State, p: string, now: int)
    requires Counted(s, p, ListOf(s.wait, p)) && NoDup(ListOf(s.wait, p))
    requires FreeSlots(s, p) <= 1 || AtMostOneStartable(s.jobs, ListOf(s.wait, p))
    ensures StartJobsOnWaitList(s, p, now) == Promote(s, p, now)
    decreases LiveSet(s.jobs), 2, 0
  {
    hide FreeSlots, StartFrom, Promote, Counted;
    if FreeSlots(s, p) > 0 {
      var list := ListOf(s.wait, p);
      assert [] + list == list;
      LoopIsPromotion(s, p, [], list, FreeSlots(s, p), now);
    } else {
      PromoteFull(s, p, now);
    }
  }

  lemma PromoteFull(s: State, p: string, now: int)
    requires FreeSlots(s, p) <= 0
    ensures Promote(s, p, now) == s
  {
  }

  lemma {:induction false} LoopIsPromotion(s: State, p: string, pre: seq<JobId>, rest: seq<JobId>, free: int, now: int)
    requires ListOf(s.wait, p) == pre + rest && NoDup(pre + rest) && NoneStartable(s.jobs, pre)
    requires Counted(s, p, pre + rest) && Slack(s, p, rest, free)
    ensures StartFrom(s, p, rest, free, pre, now) == Promote(s, p, now)
    decreases LiveSet(s.jobs), 1, |rest|
  {
    hide FreeSlots, StartJob, Promote;
    if rest == [] {
      assert pre + rest == pre;
      PromoteNone(s, p, now);
      assert s.wait[p := pre] == Promote(s, p, now).wait;
    } else {
      var id, tail := rest[0], rest[1..];
      assert rest == [id] + tail && pre + rest == (pre + [id]) + tail;
      if !Startable(s.jobs, id) {
        assert AtMostOneStartable(s.jobs, rest) ==> AtMostOneStartable(s.jobs, tail);
        LoopIsPromotion(s, p, pre + [id], tail, free, now);
      } else if s.jobs[id].builds {
        PromoteBuilding(s, p, pre, id, tail, free, now);
      } else {
        PromoteFailing(s, p, pre, id, tail, free, now);
      }
    }
  }

  lemma PromoteNone(s: State, p: string, now: int)
    requires FreeSlots(s, p) > 0 && NoneStartable(s.jobs, ListOf(s.wait, p))
    ensures Promote(s, p, now) == s.(wait := s.wait[p := ListOf(s.wait, p)])
  {
    var list := ListOf(s.wait, p);
    assert list + [] == list;
    SkipPrefix(s.jobs, list, []);
    assert PromotedJobs(s.jobs, list, now) == s.jobs;
    assert s.spawned + [] == s.spawned;
  }

  // The remaining entries are left alone: no slot is left, or nothing else can be started.
  lemma TailIdle(s: State, jobs: JobTable, p: string, rest: seq<JobId>, free: int)
    requires Slack(s, p, rest, free) && rest != [] && Startable(s.jobs, rest[0])
    requires forall x | x in rest[1..] && x in jobs :: CanBeStarted(jobs[x]) ==> Startable(s.jobs, x)
    ensures free - 1 <= 0 || NoneStartable(jobs, rest[1..])
  {
  }

  lemma PromoteBuilding(s: State, p: string, pre: seq<JobId>, id: JobId, tail: seq<JobId>, free: int, now: int)
    requires var rest := [id] + tail;
      && ListOf(s.wait, p) == pre + rest && NoDup(pre + rest) && NoneStartable(s.jobs, pre)
      && Slack(s, p, rest, free) && Startable(s.jobs, id) && s.jobs[id].builds
    ensures StartFrom(s, p, [id] + tail, free, pre, now) == Promote(s, p, now)
  {
    var rest := [id] + tail;
    assert rest[0] == id && rest[1..] == tail;
    var s1 := Started(s, id, now);
    TailIdle(s, s1.jobs, p, rest, free);
    LoopIdle(s1, p, tail, free - 1, pre, now);
    SkipPrefix(s.jobs, pre, rest);
    assert PromotedJobs(s.jobs, pre + rest, now) == s1.jobs;
    assert WithoutFirst(s.jobs, pre + rest) == pre + tail;
  }

  lemma {:induction false} PromoteFailing(s: State, p: string, pre: seq<JobId>, id: JobId, tail: seq<JobId>, free: int,
                                          now: int)
    requires var rest := [id] + tail;
      && ListOf(s.wait, p) == pre + rest && NoDup(pre + rest) && NoneStartable(s.jobs, pre)
      && Counted(s, p, pre + rest)
      && Slack(s, p, rest, free) && Startable(s.jobs, id) && !s.jobs[id].builds
    ensures StartFrom(s, p, [id] + tail, free, pre, now) == Promote(s, p, now)
    decreases LiveSet(s.jobs), 0, 0
  {
    hide FreeSlots, Promote, StartJobsOnWaitList, Moves;
    var rest, list := [id] + tail, pre + ([id] + tail);
    assert rest[0] == id && rest[1..] == tail && id in list;
    assert Listed(s, p, id) && id in LiveSet(s.jobs);
    var s1 := Unbuildable(s, id);
    assert id !in LiveSet(s1.jobs);
    FreeAfterStart(s, p, id, now);
    UnbuildableMoves(s, id, p, now);
    CountedStays(s, s1, p, list, now);
    SlackAfterCancel(s, s1, p, pre, rest, free);
    DispatchIsPromotion(s1, p, now);
    assert StartJob(s, id, now) == Promote(s1, p, now);
    FailThenPromote(s, p, pre, id, tail, free, now);
    var s2 := Promote(s1, p, now);
    PromoteStartsNoOther(s1, p, now);
    TailIdle(s, s2.jobs, p, rest, free);
    LoopIdle(s2, p, tail, free - 1, pre, now);
  }

  lemma PromoteStartsNoOther(s: State, p: string, now: int)
    ensures var s2 := Promote(s, p, now);
      forall x | x in s2.jobs :: x in s.jobs && (CanBeStarted(s2.jobs[x]) ==> CanBeStarted(s.jobs[x]))
  {
    hide FreeSlots, PromotedJobs, FirstStartable, Chosen, CanBeStarted;
    PromotedStartsNoOther(s.jobs, ListOf(s.wait, p), now);
  }

  lemma PromotedStartsNoOther(jobs: JobTable, list: seq<JobId>, now: int)
    ensures var jobs' := PromotedJobs(jobs, list, now);
      forall x | x in jobs' :: x in jobs && (CanBeStarted(jobs'[x]) ==> CanBeStarted(jobs[x]))
  {
    hide Chosen, PassedOver;
  }

  // The failed job first, then what the dispatch inside it did, then the stale list of the outer loop.
  lemma FailThenPromote(s: State, p: string, pre: seq<JobId>, id: JobId, tail: seq<JobId>, free: int, now: int)
    requires var rest := [id] + tail;
      && ListOf(s.wait, p) == pre + rest && NoneStartable(s.jobs, pre)
      && Slack(s, p, rest, free) && Startable(s.jobs, id) && !s.jobs[id].builds
    requires FreeSlots(Unbuildable(s, id), p) == FreeSlots(s, p)
    ensures var s2 := Promote(Unbuildable(s, id), p, now);
      s2.(wait := s2.wait[p := pre + tail]) == Promote(s, p, now)
  {
    hide FreeSlots, PromotedJobs;
    var rest := [id] + tail;
    var list := pre + rest;
    assert rest[0] == id && rest[1..] == tail && list[|pre|] == id;
    var s1 := Unbuildable(s, id);
    var s2 := Promote(s1, p, now);
    SkipPrefix(s.jobs, pre, rest);
    AfterCancel(s.jobs, list, id, s1.jobs[id]);
    hide Chosen, PassedOver, FirstStartable, Slack, AtMostOneStartable, NoneStartable;
    assert WithoutFirst(s.jobs, list) == pre + tail;
    PromotedAfterCancel(s.jobs, s1.jobs, list, id, now);
    assert s2.wait[p := pre + tail] == s.wait[p := pre + tail];
  }

  lemma PromotedAfterCancel(jobs: JobTable, jobs': JobTable, list: seq<JobId>, id: JobId, now: int)
    requires id in jobs && !jobs[id].builds && id in PassedOver(jobs, list)
    requires jobs' == jobs[id := FailedStart(jobs[id])]
    requires Chosen(jobs', list) == Chosen(jobs, list) && PassedOver(jobs, list) == PassedOver(jobs', list) + {id}
    ensures PromotedJobs(jobs', list, now) == PromotedJobs(jobs, list, now)
  {
    hide Chosen, PassedOver;
    ChosenIs(jobs, list);
    var a, b := PromotedJobs(jobs', list, now), PromotedJobs(jobs, list, now);
    forall x | x in jobs ensures a[x] == b[x] {
    }
  }

  lemma SlackAfterCancel(s: State, s1: State, p: string, pre: seq<JobId>, rest: seq<JobId>, free: int)
    requires Slack(s, p, rest, free) && FreeSlots(s1, p) == FreeSlots(s, p) && NoneStartable(s.jobs, pre)
    requires s1.jobs.Keys == s.jobs.Keys
    requires forall x | x in s.jobs && CanBeStarted(s1.jobs[x]) :: CanBeStarted(s.jobs[x])
    ensures FreeSlots(s1, p) <= 1 || AtMostOneStartable(s1.jobs, pre + rest)
  {
  }
}
