// A dispatch and an edit of one job keep the invariant of a pipeline.
module RunnerSteps {
  import opened Basics
  import opened WaitList
  import opened RunnerState
  import opened Dispatch
  import opened Promotion
  import opened RunnerEvents
  import opened RunnerLifecycle
  import opened RunnerIndexes
  import opened RunnerInvariants

  // ---------------------------------------------------------------------------------------------
  // Changing one job in place
  // ---------------------------------------------------------------------------------------------

  /** What completion, cancellation, timers and task callbacks leave alone. */
  ghost predicate Edit(j: Job, j': Job) {
    && j'.pipeline == j.pipeline && j'.ticket == j.ticket && j'.startDelay == j.startDelay && j'.builds == j.builds
    && j'.partition == j.partition && j'.start == j.start && (j.canceled ==> j'.canceled)
    && (j.completed ==> j'.completed) && (Live(j') ==> j'.completed == j.completed)
    && (Staffed(j) ==> Staffed(j'))
  }

  function Edited(s: State, id: JobId, j: Job, token: bool): State {
    s.(jobs := s.jobs[id := j], token := token)
  }

  lemma EditedConsistent(s: State, id: JobId, j: Job, token: bool)
    requires Consistent(s) && id in s.jobs && Edit(s.jobs[id], j)
    ensures Consistent(Edited(s, id, j, token))
  {
    hide ConsistentBut;
    OneEdit(s, id, j, token);
    EditsKeep(s, Edited(s, id, j, token));
  }

  lemma EditedGlobal(s: State, id: JobId, j: Job, token: bool)
    requires Global(s) && id in s.jobs && Edit(s.jobs[id], j)
    ensures Global(Edited(s, id, j, token))
  {
    hide Consistent;
    EditedConsistent(s, id, j, token);
  }

  lemma EditedCount(s: State, id: JobId, j: Job, token: bool)
    requires Consistent(s) && id in s.jobs && Edit(s.jobs[id], j)
    ensures FreeSlots(Edited(s, id, j, token), j.pipeline) == FreeSlots(s, j.pipeline) +
      if id in s.known && IsRunning(s.jobs[id]) && !IsRunning(j) then 1 else 0
  {
    hide ConsistentBut;
    ConsistentTidy(s, {}, j.pipeline);
    CountUpdate(s.jobs, ListOf(s.byPipeline, j.pipeline), id, j);
  }

  lemma EditedFifo(s: State, id: JobId, j: Job, token: bool)
    requires Recorded(s) && id in s.jobs && Edit(s.jobs[id], j) && Fifo(s, j.pipeline)
    ensures Fifo(Edited(s, id, j, token), j.pipeline)
  {
    var s', p := Edited(s, id, j, token), j.pipeline;
    forall i, a | 0 <= i < |s'.spawned| && Earlier(s', p, a, s'.spawned[i]) ensures NotOvertaken(s', a, i) {
      assert Earlier(s, p, a, s.spawned[i]) && NotOvertaken(s, a, i);
    }
  }

  lemma EditedBase(s: State, id: JobId, j: Job, token: bool)
    requires Consistent(s) && id in s.jobs && Edit(s.jobs[id], j) && PipelineBase(s, j.pipeline)
    ensures PipelineBase(Edited(s, id, j, token), j.pipeline)
  {
    hide FreeSlots, Fifo, ConsistentBut;
    ConsistentTidy(s, {}, j.pipeline);
    EditedFifo(s, id, j, token);
    EditedCount(s, id, j, token);
    EditedBuilt(s, id, j, token);
  }

  lemma EditedBuilt(s: State, id: JobId, j: Job, token: bool)
    requires id in s.jobs && Edit(s.jobs[id], j)
    ensures AllBuilt(Edited(s, id, j, token), j.pipeline) <==> AllBuilt(s, j.pipeline)
  {
    var s' := Edited(s, id, j, token);
    forall x | x in s.jobs ensures Edit(s.jobs[x], s'.jobs[x]) {
    }
    forall x | x in s'.jobs ensures x in s.jobs && Edit(s.jobs[x], s'.jobs[x]) {
    }
  }

  /** An edit that neither stops a running job nor makes one startable. */
  lemma EditKeepsInv(s: State, id: JobId, j: Job, token: bool, p: string)
    requires Inv(s, p) && id in s.jobs && Edit(s.jobs[id], j)
    requires IsRunning(j) == IsRunning(s.jobs[id]) && (CanBeStarted(j) ==> CanBeStarted(s.jobs[id]))
    ensures Inv(Edited(s, id, j, token), p)
  {
    hide FreeSlots, PipelineBase, Consistent, Edit;
    var s' := Edited(s, id, j, token);
    EditPipeline(s.jobs[id], j);
    EditedGlobal(s, id, j, token);
    if j.pipeline == p {
      EditedBase(s, id, j, token);
      EditedCount(s, id, j, token);
    } else {
      EditUntouched(s, id, j, token, p);
      UntouchedInv(s, s', p);
    }
  }

  lemma EditPipeline(j: Job, j': Job)
    requires Edit(j, j')
    ensures j'.pipeline == j.pipeline
  {
  }

  // ---------------------------------------------------------------------------------------------
  // A dispatch restores work conservation
  // ---------------------------------------------------------------------------------------------

  lemma ConsistentOrdered(s: State, p: string)
    requires Consistent(s)
    ensures Ordered(s, p) && Recorded(s)
    ensures forall id | id in s.jobs && s.jobs[id].pipeline == p && Live(s.jobs[id]) :: id in ListOf(s.wait, p)
  {
    assert Tidy(s, p, {});
  }

  lemma BaseCounted(s: State, p: string)
    requires Consistent(s) && Registered(s, p)
    ensures Counted(s, p, ListOf(s.wait, p)) && NoDup(ListOf(s.wait, p))
  {
    hide ConsistentBut;
    ConsistentTidy(s, {}, p);
  }

  lemma MovesRegistered(s: State, s': State, q: string, now: int, p: string)
    requires Moves(s, s', q, now) && Registered(s, p)
    ensures Registered(s', p)
  {
    forall id | id in s.jobs ensures JobMove(s.jobs[id], s'.jobs[id], now) {
    }
  }

  lemma OrderedNoDup(s: State, p: string)
    requires Ordered(s, p)
    ensures NoDup(ListOf(s.wait, p))
  {
  }

  /** The table after a promotion, job by job. */
  lemma PromotedJob(s: State, p: string, now: int, id: JobId)
    requires id in s.jobs && FreeSlots(s, p) > 0
    ensures var s', list := Promote(s, p, now), ListOf(s.wait, p);
      && id in s'.jobs
      && (Chosen(s.jobs, list) == Some(id) ==> s'.jobs[id] == Launched(s.jobs[id], now))
      && (id in PassedOver(s.jobs, list) ==> !Live(s'.jobs[id]) && s'.jobs[id].start.None? && s'.jobs[id].canceled)
      && (Chosen(s.jobs, list) != Some(id) && id !in PassedOver(s.jobs, list) ==> s'.jobs[id] == s.jobs[id])
      && JobMove(s.jobs[id], s'.jobs[id], now)
  {
    hide FreeSlots, FirstStartable, Chosen, PassedOver;
    ChosenIs(s.jobs, ListOf(s.wait, p));
  }

  // Among entries in schedule order, the ones before the chosen job are skipped or cannot start.
  lemma {:induction false} BeforeChosen(jobs: JobTable, list: seq<JobId>, i: nat)
    requires i < |list| && Startable(jobs, list[i])
    requires Chosen(jobs, list).Some? ==> Chosen(jobs, list).value != list[i]
    requires Chosen(jobs, list).Some? ==> exists k | i < k < |list| :: list[k] == Chosen(jobs, list).value
    requires NoDup(list)
    ensures list[i] in PassedOver(jobs, list)
    decreases |list|
  {
    if i > 0 && !(Startable(jobs, list[0]) && jobs[list[0]].builds) {
      var tail := list[1..];
      if Chosen(jobs, list).Some? {
        var k :| i < k < |list| && list[k] == Chosen(jobs, list).value;
        assert tail[k - 1] == list[k];
      }
      assert tail[i - 1] == list[i];
      BeforeChosen(jobs, tail, i - 1);
    }
  }

  lemma PromoteMoves(s: State, p: string, now: int)
    requires FreeSlots(s, p) > 0
    ensures var s', w := Promote(s, p, now), ListOf(s.wait, p);
      forall id | id in s.jobs :: id in s'.jobs && JobMove(s.jobs[id], s'.jobs[id], now)
        && (s'.jobs[id].start.Some? <==> s.jobs[id].start.Some? || Chosen(s.jobs, w) == Some(id))
        && (id !in w ==> s'.jobs[id] == s.jobs[id])
  {
    hide FreeSlots, Promote, Chosen, PassedOver;
    ChosenIs(s.jobs, ListOf(s.wait, p));
    forall id | id in s.jobs
      ensures var s', w := Promote(s, p, now), ListOf(s.wait, p);
        && id in s'.jobs && JobMove(s.jobs[id], s'.jobs[id], now)
        && (s'.jobs[id].start.Some? <==> s.jobs[id].start.Some? || Chosen(s.jobs, w) == Some(id))
        && (id !in w ==> s'.jobs[id] == s.jobs[id])
    {
      PromotedJob(s, p, now, id);
    }
  }

  lemma PromoteShape(s: State, p: string, now: int)
    requires FreeSlots(s, p) > 0
    ensures var s' := Promote(s, p, now);
      && s'.jobs.Keys == s.jobs.Keys && s'.defs == s.defs && s'.known == s.known && s'.byPipeline == s.byPipeline
      && s'.shutting == s.shutting && s'.tickets == s.tickets
      && s'.wait == s.wait[p := WithoutFirst(s.jobs, ListOf(s.wait, p))]
      && s'.spawned ==
        s.spawned + (if Chosen(s.jobs, ListOf(s.wait, p)).Some? then [Chosen(s.jobs, ListOf(s.wait, p)).value] else [])
  {
  }

  lemma DropAt(w: seq<JobId>, k: nat)
    requires k < |w| && NoDup(w)
    ensures var r := w[..k] + w[k + 1..];
      && (forall id :: id in r <==> id in w && id != w[k])
      && (forall i | 0 <= i < |r| :: r[i] == w[if i < k then i else i + 1])
  {
  }

  // The first startable entry is the one chosen, if it builds.
  lemma FirstIsChosen(jobs: JobTable, w: seq<JobId>)
    requires FirstStartable(jobs, w) < |w|
    ensures var id := w[FirstStartable(jobs, w)];
      Startable(jobs, id) && (if jobs[id].builds then Chosen(jobs, w) == Some(id) else id in PassedOver(jobs, w))
  {
  }

  lemma NoFirstNoChoice(jobs: JobTable, w: seq<JobId>)
    requires FirstStartable(jobs, w) == |w|
    ensures Chosen(jobs, w).None?
  {
  }

  // What is left of the wait list, in the same order.
  lemma WithoutFirstOrdered(s: State, p: string)
    requires Ordered(s, p)
    ensures var w, w' := ListOf(s.wait, p), WithoutFirst(s.jobs, ListOf(s.wait, p));
      && (forall id | id in w' :: id in w) && |w'| <= |w|
      && (forall i, j | 0 <= i < j < |w'| :: s.jobs[w'[i]].ticket < s.jobs[w'[j]].ticket)
  {
    hide FirstStartable;
    var w := ListOf(s.wait, p);
    OrderedNoDup(s, p);
    if FirstStartable(s.jobs, w) < |w| {
      DropAt(w, FirstStartable(s.jobs, w));
    }
  }

  // The entry that leaves the list is no longer live, and a started job leaves it unless one was passed over.
  lemma WithoutFirstIs(s: State, p: string, now: int)
    requires Ordered(s, p) && FreeSlots(s, p) > 0
    ensures var s', w, w' := Promote(s, p, now), ListOf(s.wait, p), WithoutFirst(s.jobs, ListOf(s.wait, p));
      && (forall id | id in w && id in s'.jobs && Live(s'.jobs[id]) :: id in w')
      && (AllBuilt(s, p) ==> forall id | id in w' && id in s'.jobs && s.jobs[id].start.None? :: s'.jobs[id].start.None?)
  {
    hide FreeSlots, Promote, Chosen, PassedOver, FirstStartable;
    var s', w := Promote(s, p, now), ListOf(s.wait, p);
    var k := FirstStartable(s.jobs, w);
    FirstStartableIs(s.jobs, w);
    forall id | id in w
      ensures id in s'.jobs && (s.jobs[id].start.None? && Chosen(s.jobs, w) != Some(id) ==> s'.jobs[id].start.None?)
    {
      PromotedJob(s, p, now, id);
    }
    if k < |w| {
      OrderedNoDup(s, p);
      DropAt(w, k);
      FirstIsChosen(s.jobs, w);
      PromotedJob(s, p, now, w[k]);
    } else {
      NoFirstNoChoice(s.jobs, w);
    }
  }

  lemma PromoteBuilt(s: State, p: string, now: int)
    requires FreeSlots(s, p) > 0
    ensures AllBuilt(Promote(s, p, now), p) <==> AllBuilt(s, p)
  {
    hide FreeSlots, Promote, Chosen, PassedOver, WithoutFirst, FirstStartable;
    PromoteShape(s, p, now);
    PromoteMoves(s, p, now);
  }

  // Those that were started before the promotion.
  lemma PromoteFifoBefore(s: State, p: string, now: int, a: JobId, j: nat)
    requires Recorded(s) && Fifo(s, p) && FreeSlots(s, p) > 0 && j < |s.spawned|
    requires Earlier(Promote(s, p, now), p, a, s.spawned[j])
    ensures NotOvertaken(Promote(s, p, now), a, j)
  {
    hide FreeSlots, Promote, Chosen, PassedOver, Fifo;
    var s', w := Promote(s, p, now), ListOf(s.wait, p);
    PromoteShape(s, p, now);
    PromotedJob(s, p, now, a);
    PromotedJob(s, p, now, s.spawned[j]);
    ChosenIs(s.jobs, w);
    assert s'.spawned[..j] == s.spawned[..j];
    FifoSays(s, p, a, j);
  }

  lemma FifoSays(s: State, p: string, a: JobId, j: nat)
    requires Fifo(s, p) && j < |s.spawned| && Earlier(s, p, a, s.spawned[j])
    ensures NotOvertaken(s, a, j)
  {
  }

  lemma PromoteFifo(s: State, p: string, now: int)
    requires Consistent(s) && PipelineBase(s, p) && FreeSlots(s, p) > 0
    ensures Fifo(Promote(s, p, now), p)
  {
    hide FreeSlots, Promote, Chosen, PassedOver, Registered, Separate, Bounded, Tidy;
    var s', w := Promote(s, p, now), ListOf(s.wait, p);
    PromoteShape(s, p, now);
    forall j, a | 0 <= j < |s'.spawned| && Earlier(s', p, a, s'.spawned[j]) ensures NotOvertaken(s', a, j) {
      if j < |s.spawned| {
        PromoteFifoBefore(s, p, now, a, j);
      } else {
        assert s'.spawned[..j] == s.spawned;
        PromotedKeepsEarlier(s, p, now, a);
        PassedOverBefore(s, p, now, a);
      }
    }
  }

  lemma PromotedKeepsEarlier(s: State, p: string, now: int, a: JobId)
    requires FreeSlots(s, p) > 0 && Chosen(s.jobs, ListOf(s.wait, p)).Some?
    requires Earlier(Promote(s, p, now), p, a, Chosen(s.jobs, ListOf(s.wait, p)).value)
    ensures Earlier(s, p, a, Chosen(s.jobs, ListOf(s.wait, p)).value)
  {
    hide FreeSlots, Promote, Chosen, PassedOver;
    PromoteShape(s, p, now);
    PromotedJob(s, p, now, a);
    PromotedJob(s, p, now, Chosen(s.jobs, ListOf(s.wait, p)).value);
  }

  // A startable entry that was scheduled before the chosen one stands before it.
  lemma EarlierPassedOver(s: State, p: string, a: JobId)
    requires Ordered(s, p) && a in ListOf(s.wait, p) && CanBeStarted(s.jobs[a])
    requires Chosen(s.jobs, ListOf(s.wait, p)).Some?
    requires var b := Chosen(s.jobs, ListOf(s.wait, p)).value; b in s.jobs && s.jobs[a].ticket < s.jobs[b].ticket
    ensures a in PassedOver(s.jobs, ListOf(s.wait, p))
  {
    hide Chosen, PassedOver;
    var w := ListOf(s.wait, p);
    ChosenIs(s.jobs, w);
    var i :| 0 <= i < |w| && w[i] == a;
    var k :| 0 <= k < |w| && w[k] == Chosen(s.jobs, w).value;
    assert i < k;
    OrderedNoDup(s, p);
    BeforeChosen(s.jobs, w, i);
  }

  // An earlier undelayed job that is still live stands before the chosen one and has been passed over.
  lemma PassedOverBefore(s: State, p: string, now: int, a: JobId)
    requires Consistent(s) && PipelineBase(s, p) && FreeSlots(s, p) > 0
    requires Chosen(s.jobs, ListOf(s.wait, p)).Some?
    requires Earlier(s, p, a, Chosen(s.jobs, ListOf(s.wait, p)).value)
    ensures var s' := Promote(s, p, now); a in s'.jobs && (a in s.spawned || (a !in s'.spawned && s'.jobs[a].canceled))
  {
    hide FreeSlots, Promote, Chosen, PassedOver, Fifo, Separate, Bounded, ConsistentBut;
    ConsistentTidy(s, {}, p);
    ConsistentOrdered(s, p);
    PromoteShape(s, p, now);
    PromotedJob(s, p, now, a);
    if a !in s.spawned && !s.jobs[a].canceled {
      assert Live(s.jobs[a]) && CanBeStarted(s.jobs[a]);
      EarlierPassedOver(s, p, a);
      ChosenIs(s.jobs, ListOf(s.wait, p));
    }
  }

  lemma PromoteFree(s: State, p: string, now: int)
    requires Consistent(s) && PipelineBase(s, p) && FreeSlots(s, p) > 0
    ensures FreeSlots(Promote(s, p, now), p) ==
      FreeSlots(s, p) - if Chosen(s.jobs, ListOf(s.wait, p)).Some? then 1 else 0
  {
    hide Promote, Chosen, PassedOver, Fifo, ConsistentBut;
    ConsistentTidy(s, {}, p);
    var s', w := Promote(s, p, now), ListOf(s.wait, p);
    PromoteShape(s, p, now);
    ChosenIs(s.jobs, w);
    forall id | id in s.jobs ensures id in s'.jobs && JobMove(s.jobs[id], s'.jobs[id], now) {
      PromotedJob(s, p, now, id);
    }
    var ids := ListOf(s.byPipeline, p);
    if Chosen(s.jobs, w).Some? {
      var c := Chosen(s.jobs, w).value;
      PromotedJob(s, p, now, c);
      CountUpdate(s.jobs, ids, c, s'.jobs[c]);
      forall id | id in ids ensures IsRunning(s.jobs[c := s'.jobs[c]][id]) <==> IsRunning(s'.jobs[id]) {
        PromotedJob(s, p, now, id);
      }
      CountAgrees(s.jobs[c := s'.jobs[c]], s'.jobs, ids);
    } else {
      forall id | id in ids ensures IsRunning(s.jobs[id]) <==> IsRunning(s'.jobs[id]) {
        PromotedJob(s, p, now, id);
      }
      CountAgrees(s.jobs, s'.jobs, ids);
    }
  }

  lemma PromoteConserves(s: State, p: string, now: int)
    requires Consistent(s) && PipelineBase(s, p) && FreeSlots(s, p) > 0
    requires FreeSlots(s, p) <= 1 || AtMostOneStartable(s.jobs, ListOf(s.wait, p))
    ensures Conserving(Promote(s, p, now), p)
  {
    hide FreeSlots, Promote, Chosen, PassedOver, Fifo, ConsistentBut;
    ConsistentOrdered(s, p);
    var s', w := Promote(s, p, now), ListOf(s.wait, p);
    PromoteFree(s, p, now);
    PromoteShape(s, p, now);
    WithoutFirstIs(s, p, now);
    ChosenIs(s.jobs, w);
    if FreeSlots(s', p) > 0 {
      forall id | id in w && id in s'.jobs ensures !CanBeStarted(s'.jobs[id]) {
        PromotedJob(s, p, now, id);
        if Startable(s.jobs, id) && Chosen(s.jobs, w).Some? {
          var i :| 0 <= i < |w| && w[i] == id;
          var k :| 0 <= k < |w| && w[k] == Chosen(s.jobs, w).value;
          assert i == k;
        }
      }
    }
  }

  lemma PromoteSeparate(s: State, p: string, now: int)
    requires Consistent(s) && PipelineBase(s, p) && FreeSlots(s, p) > 0
    ensures Separate(Promote(s, p, now), p)
  {
    hide FreeSlots, Fifo, Promote, Chosen, PassedOver, WithoutFirst, FirstStartable, AllBuilt, Registered, Bounded,
      ConsistentBut;
    ConsistentOrdered(s, p);
    PromoteBuilt(s, p, now);
    PromoteShape(s, p, now);
    PromoteMoves(s, p, now);
    WithoutFirstOrdered(s, p);
    WithoutFirstIs(s, p, now);
  }

  /** A dispatch with one slot or one job to start turns the base invariant into the whole. */
  lemma DispatchRestores(s: State, p: string, now: int)
    requires Consistent(s) && PipelineBase(s, p)
    requires FreeSlots(s, p) <= 1 || AtMostOneStartable(s.jobs, ListOf(s.wait, p))
    ensures StartJobsOnWaitList(s, p, now) == Promote(s, p, now) && PipelineInv(StartJobsOnWaitList(s, p, now), p)
  {
    hide FreeSlots, Promote, StartJobsOnWaitList, ConsistentBut, Registered, Fifo, Separate, Moves, KeepsLive;
    BaseCounted(s, p);
    ConsistentTidy(s, {}, p);
    DispatchIsPromotion(s, p, now);
    if FreeSlots(s, p) <= 0 {
      PromoteFull(s, p, now);
    } else {
      WaitListMoves(s, p, now);
      MovesRegistered(s, StartJobsOnWaitList(s, p, now), p, now, p);
      PromoteSeparate(s, p, now);
      PromoteFifo(s, p, now);
      PromoteFree(s, p, now);
      PromoteConserves(s, p, now);
    }
  }

  // ---------------------------------------------------------------------------------------------
  // What every step keeps
  // ---------------------------------------------------------------------------------------------

  lemma StepKeepsGlobal(s: State, e: Event)
    requires Global(s) && RunnerEvents.Enabled(s, e)
    ensures Global(Next(s, e))
  {
    hide Consistent, Quiet, ListsOwn;
    ConsistentOwn(s);
    StepKeepsConsistent(s, e);
    if !e.Redefine? {
      StepKeepsDefs(s, e);
    }
    if s.shutting {
      StillStopping(s, e);
    }
  }

  lemma StillStopping(s: State, e: Event)
    requires Stopping(s) && RunnerEvents.Enabled(s, e)
    ensures forall p :: ListOf(Next(s, e).wait, p) == []
  {
    StoppingStep(s, e);
  }
}
