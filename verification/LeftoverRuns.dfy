// Runs in which a canceled job stays on the wait list: an idle append pipeline that refuses every job, and a
// replace queue with two slots that gives up its first live job.
module LeftoverRuns {
  import opened Basics
  import opened Definitions
  import opened RunnerState
  import opened Dispatch
  import opened Attempts
  import opened RunnerEvents
  import opened RunnerLifecycle
  import opened RunnerIndexes
  import opened RunnerLanes
  import opened RunnerArrivals
  import opened RunnerInvariants
  import opened RunnerLeftovers
  import opened RunnerStarvation
  import opened Counterexamples
  import opened CounterexampleRuns

  /** Job 0 runs, job 1 waits and is canceled. */
  ghost function Canceling(): seq<Event> {
    Opening()[..1] + [Schedule(Ask(1, "a", true), 1)] + [CancelRequest(1)]
  }

  lemma WaiterCanceled(def: PipelineDef) returns (s: State)
    requires Example(def)
    ensures Got(Runner(def), Canceling(), s) && s.defs == map["p" := def]
    ensures s.known == s.jobs.Keys == {0, 1} && s.wait == map["p" := [1]] && !s.shutting && s.spawned == [0]
    ensures FreeSlots(s, "p") == 0
    ensures s.jobs[0] == Launched(New(def, 0, "a", true), 0) && s.jobs[1] == MarkAsCanceled(New(def, 1, "a", true))
  {
    hide FreeSlots, Consistent, AnyRun, MarkAsCanceled;
    var s2 := SecondWaits(def, true);
    var e := CancelRequest(1);
    OneEvent(Runner(def), Opening()[..1] + [Schedule(Ask(1, "a", true), 1)], s2, e);
    s := Next(s2, e);
    CancelIs(s2);
    CanceledSlots(s2);
  }

  lemma CancelIs(s: State)
    requires 1 in s.known && 1 in s.jobs && Live(s.jobs[1]) && !s.jobs[1].completed
    ensures CancelJob(s, 1) == s.(jobs := s.jobs[1 := MarkAsCanceled(s.jobs[1])], token := true)
  {
  }

  lemma CanceledSlots(s: State)
    requires Consistent(s) && 1 in s.jobs && Live(s.jobs[1])
    ensures FreeSlots(s.(jobs := s.jobs[1 := MarkAsCanceled(s.jobs[1])], token := true), "p") == FreeSlots(s, "p")
  {
    hide ConsistentBut;
    ConsistentTidy(s, {}, "p");
    CountUpdate(s.jobs, ListOf(s.byPipeline, "p"), 1, MarkAsCanceled(s.jobs[1]));
  }

  // Nothing on the list can be started, so the dispatch writes it back as it was.
  lemma NothingStarts(s: State, p: string, now: int)
    requires NoneStartable(s.jobs, ListOf(s.wait, p))
    ensures var r := StartJobsOnWaitList(s, p, now);
      r == s.(wait := r.wait) && ListOf(r.wait, p) == ListOf(s.wait, p)
  {
    hide FreeSlots, StartFrom, NoneStartable;
    if FreeSlots(s, p) > 0 {
      LoopIdle(s, p, ListOf(s.wait, p), FreeSlots(s, p), [], now);
      assert [] + ListOf(s.wait, p) == ListOf(s.wait, p);
    }
  }

  /**
   * Append, one slot, queue_limit 1: after a cancellation and a completion nothing runs and nothing live waits,
   * and from then on every job is refused, whatever else happens short of a shutdown.
   */
  lemma BlockedRun() returns (s: State)
    ensures AnyRun(Runner(ONE_PLACE), Canceling() + [Complete(0, None, false, 3)], s)
    ensures AllOver(s, "p") && ListOf(s.wait, "p") == [1] && s.defs == map["p" := ONE_PLACE]
    ensures Refusal(s, "p") == Some(QueueFull)
    ensures forall events, s' | StableRun(s, events, s', "p") && NoShutdown(events) :: Refusal(s', "p").Some?
  {
    hide FreeSlots, Consistent, AnyRun, StartJobsOnWaitList, Orderly, StableRun, NoShutdown, MarkAsCanceled;
    var s3 := WaiterCanceled(ONE_PLACE);
    var e := Complete(0, None, false, 3);
    OneEvent(Runner(ONE_PLACE), Canceling(), s3, e);
    s := Next(s3, e);
    Ends(s3, "p", 0, 3);
    var s4 := s3.(jobs := s3.jobs[0 := CompletedJob(s3.jobs[0], None, false, 3)]);
    CanceledIsOver(s3.jobs[1], New(ONE_PLACE, 1, "a", true));
    NothingStarts(s4, "p", 3);
    IdlePipelineRefuses(s, "p");
  }

  lemma CanceledIsOver(j: Job, j0: Job)
    requires j == MarkAsCanceled(j0)
    ensures j.canceled && j.pipeline == j0.pipeline && j.start == j0.start
  {
  }

  /** With two more requests behind the canceled job. */
  ghost function Starving(): seq<Event> {
    Canceling() + [Schedule(Ask(2, "a", true), 3)] + [Schedule(Ask(3, "a", true), 4)]
  }

  lemma BehindTheCanceled() returns (s: State)
    ensures Got(Runner(TWO_PLACES), Starving()[..4], s) && s.defs == map["p" := TWO_PLACES]
    ensures s.jobs.Keys == {0, 1, 2} && ListOf(s.wait, "p") == [1, 2] && !s.shutting && FreeSlots(s, "p") == 0
    ensures s.jobs[1].canceled && Live(s.jobs[2])
  {
    hide FreeSlots, Consistent, AnyRun, ScheduleAsync, Displaces, MarkAsCanceled;
    var s3 := WaiterCanceled(TWO_PLACES);
    var e := Schedule(Ask(2, "a", true), 3);
    NobodyInPartition(s3, TWO_PLACES, e.req);
    OneEvent(Runner(TWO_PLACES), Canceling(), s3, e);
    HasToWait(s3, e.req, e.now);
    CanceledIsOver(s3.jobs[1], New(TWO_PLACES, 1, "a", true));
    assert Starving()[..4] == Canceling() + [e];
    assert [1] + [2] == [1, 2];
    s := Next(s3, e);
  }

  /**
   * Replace, one slot, queue_limit 2: behind the canceled job 1 the first live job 2 is displaced by the next
   * arrival, and no later job of this queue will ever stand before its last slot.
   */
  lemma StarvingRun() returns (s: State)
    ensures AnyRun(Runner(TWO_PLACES), Starving(), s) && s.defs == map["p" := TWO_PLACES]
    ensures ListOf(s.wait, "p") == [1, 3] && 2 in s.jobs && s.jobs[2].canceled && s.jobs[2].start.None?
    ensures forall events, s' | StableRun(s, events, s', "p") && NoShutdown(events) :: !HasSecure(s', "p", "")
  {
    hide FreeSlots, Consistent, AnyRun, ScheduleAsync, StableRun, NoShutdown, HasSecure, Fresh, Enqueue;
    var s4 := BehindTheCanceled();
    var e := Schedule(Ask(3, "a", true), 4);
    assert Starving()[..4] + [e] == Starving();
    OneEvent(Runner(TWO_PLACES), Starving()[..4], s4, e);
    s := Next(s4, e);
    Queues(s4, e.req, e.now);
    var victim := EnqueuedLane(s4, e.req, e.now, "");
    assert [1, 2][..1] + [3] == [1, 3];
    NeverSecureIff(s, "p", "");
  }
}
