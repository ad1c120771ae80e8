// The retention sweep of SaveToStore: jobs ranked by creation time, newest first, and removed from the
// pipeline's list by overwriting them with its last entry.
module Retention {
  import opened Basics
  import opened Definitions
  import opened WaitList
  import opened RunnerState

  /** removeJobFromList: the first occurrence is overwritten by the last entry, which is then dropped. */
  function RemoveJob(list: seq<JobId>, id: JobId): seq<JobId> {
    var k := IndexOf(list, id);
    if k < |list| then list[k := list[|list| - 1]][..|list| - 1] else list
  }

  function IndexOf(list: seq<JobId>, id: JobId): (k: nat)
    ensures k <= |list|
    ensures k < |list| ==> list[k] == id
    ensures id !in list[..k]
    decreases |list|
  {
    if list == [] || list[0] == id then 0
    else
      var k := 1 + IndexOf(list[1..], id);
      assert list[..k] == [list[0]] + list[1..][..k - 1];
      k
  }

  function RemoveAll(list: seq<JobId>, ids: seq<JobId>): seq<JobId>
    decreases |ids|
  {
    if ids == [] then list else RemoveAll(RemoveJob(list, ids[0]), ids[1..])
  }

  /** Past the first two guards of determineIfJobShouldBeRemoved. */
  predicate Finished(j: Job) {
    !(j.start.None? && !j.canceled) && !(!j.completed && !j.canceled)
  }

  predicate Expired(def: PipelineDef, j: Job, now: int) {
    def.retentionPeriod > 0 && now - j.created > def.retentionPeriod
  }

  predicate ShouldBeRemoved(defs: PipelinesMap, j: Job, index: nat, now: int) {
    if j.pipeline !in defs then true
    else if !Finished(j) then false
    else
      var def := defs[j.pipeline];
      Expired(def, j, now) || (def.retentionCount > 0 && index >= def.retentionCount)
  }

  /** `ranked` is `list` sorted by byCreationTimeDesc; the sort is not stable, so ties come in any order. */
  ghost predicate IsRanking(jobs: JobTable, list: seq<JobId>, ranked: seq<JobId>) {
    && multiset(ranked) == multiset(list)
    && (forall id | id in list :: id in jobs)
    && (forall id | id in ranked :: id in jobs)
    && forall i, j | 0 <= i < j < |ranked| :: jobs[ranked[i]].created >= jobs[ranked[j]].created
  }

  /** The jobs a sweep removes from one pipeline, in the order it meets them. */
  function ToRemove(defs: PipelinesMap, jobs: JobTable, ranked: seq<JobId>, now: int): seq<JobId>
    decreases |ranked|
  {
    if ranked == [] then []
    else
      var n := |ranked| - 1;
      ToRemove(defs, jobs, ranked[..n], now) +
        if ranked[n] in jobs && ShouldBeRemoved(defs, jobs[ranked[n]], n, now) then [ranked[n]] else []
  }

  function SweepList(defs: PipelinesMap, jobs: JobTable, list: seq<JobId>, ranked: seq<JobId>, now: int): seq<JobId> {
    RemoveAll(list, ToRemove(defs, jobs, ranked, now))
  }

  ghost predicate RankingsFor(s: State, rankings: map<string, seq<JobId>>) {
    rankings.Keys == s.byPipeline.Keys && forall p | p in s.byPipeline ::
      IsRanking(s.jobs, s.byPipeline[p], rankings[p])
  }

  ghost function RemovedIds(s: State, rankings: map<string, seq<JobId>>, now: int): set<JobId> {
    set id | id in s.known && exists p | p in rankings :: id in ToRemove(s.defs, s.jobs, rankings[p], now)
  }

  /** The state after the sweep of SaveToStore. */
  ghost function Sweep(s: State, rankings: map<string, seq<JobId>>, now: int): State
    requires rankings.Keys == s.byPipeline.Keys
  {
    s.(known := s.known - RemovedIds(s, rankings, now),
       byPipeline := map p | p in s.byPipeline :: SweepList(s.defs, s.jobs, s.byPipeline[p], rankings[p], now))
  }

  // ---------------------------------------------------------------------------------------------
  // Swap removal is removal
  // ---------------------------------------------------------------------------------------------

  lemma RemoveJobElems(list: seq<JobId>, id: JobId)
    requires NoDup(list)
    ensures NoDup(RemoveJob(list, id)) && Elems(RemoveJob(list, id)) == Elems(list) - {id}
  {
    var k := IndexOf(list, id);
    var r := RemoveJob(list, id);
    if k < |list| {
      var n := |list| - 1;
      forall i | 0 <= i < n ensures r[i] == if i == k then list[n] else list[i] {
      }
      forall x | x in list && x != id ensures x in r {
        var i :| 0 <= i < |list| && list[i] == x;
        assert r[if i == n then k else i] == x;
      }
    } else {
      assert list[..k] == list;
    }
  }

  lemma {:induction false} RemoveAllElems(list: seq<JobId>, ids: seq<JobId>)
    requires NoDup(list)
    ensures NoDup(RemoveAll(list, ids)) && Elems(RemoveAll(list, ids)) == Elems(list) - Elems(ids)
    decreases |ids|
  {
    if ids == [] {
    } else {
      RemoveJobElems(list, ids[0]);
      RemoveAllElems(RemoveJob(list, ids[0]), ids[1..]);
      assert Elems(ids) == {ids[0]} + Elems(ids[1..]) by {
        assert ids == [ids[0]] + ids[1..];
      }
    }
  }

  lemma {:induction false} ToRemoveIs(defs: PipelinesMap, jobs: JobTable, ranked: seq<JobId>, now: int, id: JobId)
    ensures id in ToRemove(defs, jobs, ranked, now) <==>
      exists i | 0 <= i < |ranked| :: ranked[i] == id && id in jobs && ShouldBeRemoved(defs, jobs[id], i, now)
    decreases |ranked|
  {
    if ranked != [] {
      var n := |ranked| - 1;
      ToRemoveIs(defs, jobs, ranked[..n], now, id);
      if id in ToRemove(defs, jobs, ranked[..n], now) {
        var i :| 0 <= i < n && ranked[..n][i] == id && ShouldBeRemoved(defs, jobs[id], i, now);
        assert ranked[i] == id;
      }
      if i :| 0 <= i < n && ranked[i] == id && id in jobs && ShouldBeRemoved(defs, jobs[id], i, now) {
        assert ranked[..n][i] == id;
      }
    }
  }

  lemma RankingFacts(jobs: JobTable, list: seq<JobId>, ranked: seq<JobId>)
    requires IsRanking(jobs, list, ranked) && NoDup(list)
    ensures NoDup(ranked) && Elems(ranked) == Elems(list) && |ranked| == |list|
  {
    assert |ranked| == |multiset(ranked)| == |multiset(list)|;
    forall id ensures id in ranked <==> id in list {
      assert id in multiset(ranked) <==> id in multiset(list);
    }
    MultisetNoDup(list, ranked);
  }

  // ---------------------------------------------------------------------------------------------
  // What a sweep of one pipeline keeps and removes
  // ---------------------------------------------------------------------------------------------

  /** One pipeline as the sweep finds it. */
  ghost predicate PipelineList(defs: PipelinesMap, jobs: JobTable, p: string, list: seq<JobId>) {
    p in defs && NoDup(list) && forall id | id in list :: id in jobs && jobs[id].pipeline == p
  }

  lemma SurvivesIff(defs: PipelinesMap, jobs: JobTable, p: string, list: seq<JobId>, ranked: seq<JobId>, now: int,
                    i: nat)
    requires PipelineList(defs, jobs, p, list) && IsRanking(jobs, list, ranked) && i < |ranked|
    ensures ranked[i] in SweepList(defs, jobs, list, ranked, now) <==> !ShouldBeRemoved(defs, jobs[ranked[i]], i, now)
    ensures forall id | id in SweepList(defs, jobs, list, ranked, now) :: id in ranked && id in list
    ensures NoDup(SweepList(defs, jobs, list, ranked, now))
  {
    RankingFacts(jobs, list, ranked);
    RemoveAllElems(list, ToRemove(defs, jobs, ranked, now));
    ToRemoveIs(defs, jobs, ranked, now, ranked[i]);
    var r := SweepList(defs, jobs, list, ranked, now);
    assert forall id :: id in r <==> id in Elems(r);
    assert ranked[i] in Elems(ranked);
    assert forall id :: id in list <==> id in Elems(list);
    assert forall id :: id in ranked <==> id in Elems(ranked);
  }

  /**
   * The rule of a sweep for the job of rank `i`: it has neither ended nor been canceled, or it is no older than the
   * retention period, where one is set, and ranks within the retention count, where one is set.
   */
  predicate Retained(d: PipelineDef, j: Job, i: nat, now: int) {
    || (!j.canceled && (j.start.None? || !j.completed))
    || (&& (d.retentionPeriod > 0 ==> now <= j.created + d.retentionPeriod)
        && (d.retentionCount > 0 ==> i < d.retentionCount))
  }

  /** A job survives a sweep of its pipeline exactly by that rule. */
  lemma SweepRule(defs: PipelinesMap, jobs: JobTable, p: string, list: seq<JobId>, ranked: seq<JobId>, now: int,
                  i: nat)
    requires PipelineList(defs, jobs, p, list) && IsRanking(jobs, list, ranked) && i < |ranked|
    ensures ranked[i] in SweepList(defs, jobs, list, ranked, now) <==> Retained(defs[p], jobs[ranked[i]], i, now)
  {
    hide SweepList;
    RankingFacts(jobs, list, ranked);
    assert ranked[i] in Elems(ranked) && ranked[i] in Elems(list);
    SurvivesIff(defs, jobs, p, list, ranked, now, i);
  }

  /** Once a job is too old, every sweep from then on removes it, whatever else is on the list. */
  lemma TooOldForGood(defs: PipelinesMap, jobs: JobTable, p: string, list: seq<JobId>, ranked: seq<JobId>, now: int,
                      id: JobId, since: int)
    requires PipelineList(defs, jobs, p, list) && IsRanking(jobs, list, ranked) && id in jobs
    requires jobs[id].canceled || (jobs[id].start.Some? && jobs[id].completed)
    requires defs[p].retentionPeriod > 0 && jobs[id].created + defs[p].retentionPeriod < since <= now
    ensures id !in SweepList(defs, jobs, list, ranked, now)
  {
    hide SweepList;
    RankingFacts(jobs, list, ranked);
    if id in list {
      assert id in Elems(list) && id in Elems(ranked);
      var i :| 0 <= i < |ranked| && ranked[i] == id;
      SweepRule(defs, jobs, p, list, ranked, now, i);
    } else {
      SweepNoDup(defs, jobs, list, ranked, now);
    }
  }

  lemma SweepNoDup(defs: PipelinesMap, jobs: JobTable, list: seq<JobId>, ranked: seq<JobId>, now: int)
    requires NoDup(list)
    ensures var r := SweepList(defs, jobs, list, ranked, now);
      NoDup(r) && forall id :: id in r <==> id in list && id !in ToRemove(defs, jobs, ranked, now)
  {
    RemoveAllElems(list, ToRemove(defs, jobs, ranked, now));
    var r := SweepList(defs, jobs, list, ranked, now);
    assert forall id :: id in r <==> id in Elems(r);
  }

  /** Unfinished jobs of a defined pipeline survive every sweep. */
  lemma UnfinishedSurvive(defs: PipelinesMap, jobs: JobTable, p: string, list: seq<JobId>, ranked: seq<JobId>, now: int,
                          id: JobId)
    requires PipelineList(defs, jobs, p, list) && IsRanking(jobs, list, ranked)
    requires id in list && !Finished(jobs[id])
    ensures id in SweepList(defs, jobs, list, ranked, now)
  {
    RankingFacts(jobs, list, ranked);
    assert id in Elems(ranked);
    var i :| 0 <= i < |ranked| && ranked[i] == id;
    SurvivesIff(defs, jobs, p, list, ranked, now, i);
  }

  /** A pipeline without definition loses all its jobs, also the running ones. */
  lemma UndefinedIsEmptied(defs: PipelinesMap, jobs: JobTable, p: string, list: seq<JobId>, ranked: seq<JobId>,
                           now: int)
    requires p !in defs && NoDup(list) && (forall id | id in list :: id in jobs && jobs[id].pipeline == p)
    requires IsRanking(jobs, list, ranked)
    ensures SweepList(defs, jobs, list, ranked, now) == []
  {
    var r := SweepList(defs, jobs, list, ranked, now);
    RankingFacts(jobs, list, ranked);
    SweepNoDup(defs, jobs, list, ranked, now);
    forall id | id in list ensures id in ToRemove(defs, jobs, ranked, now) {
      assert id in Elems(list) && id in Elems(ranked);
      var i :| 0 <= i < |ranked| && ranked[i] == id;
      ToRemoveIs(defs, jobs, ranked, now, id);
      assert ShouldBeRemoved(defs, jobs[id], i, now);
    }
    assert Elems(r) == {};
    NoDupSize(r);
  }

  ghost function FinishedIn(jobs: JobTable, list: seq<JobId>): set<JobId> {
    set id | id in list && id in jobs && Finished(jobs[id])
  }

  /** With a retention count, at most that many finished jobs remain. */
  lemma RetentionCountHolds(defs: PipelinesMap, jobs: JobTable, p: string, list: seq<JobId>, ranked: seq<JobId>,
                            now: int)
    requires PipelineList(defs, jobs, p, list) && IsRanking(jobs, list, ranked) && defs[p].retentionCount > 0
    ensures |FinishedIn(jobs, SweepList(defs, jobs, list, ranked, now))| <= defs[p].retentionCount
  {
    var c := defs[p].retentionCount;
    var k := if c < |ranked| then c else |ranked|;
    var r := SweepList(defs, jobs, list, ranked, now);
    RankingFacts(jobs, list, ranked);
    SweepNoDup(defs, jobs, list, ranked, now);
    forall id | id in FinishedIn(jobs, r) ensures id in Elems(ranked[..k]) {
      assert id in Elems(list) && id in Elems(ranked);
      var i :| 0 <= i < |ranked| && ranked[i] == id;
      SurvivesIff(defs, jobs, p, list, ranked, now, i);
      assert i < k && ranked[..k][i] == id;
    }
    NoDupSize(ranked[..k]);
    SubsetSize(FinishedIn(jobs, r), Elems(ranked[..k]));
  }

  /** A finished job that had to go for its rank is no newer than any finished job that stayed. */
  lemma OldestGoFirst(defs: PipelinesMap, jobs: JobTable, p: string, list: seq<JobId>, ranked: seq<JobId>, now: int,
                      gone: JobId, kept: JobId)
    requires PipelineList(defs, jobs, p, list) && IsRanking(jobs, list, ranked)
    requires gone in list && gone !in SweepList(defs, jobs, list, ranked, now) && !Expired(defs[p], jobs[gone], now)
    requires kept in SweepList(defs, jobs, list, ranked, now) && kept in jobs && Finished(jobs[kept])
    ensures Finished(jobs[gone]) && jobs[gone].created <= jobs[kept].created
    ensures !Expired(defs[p], jobs[kept], now)
  {
    RankingFacts(jobs, list, ranked);
    SweepNoDup(defs, jobs, list, ranked, now);
    assert gone in Elems(ranked) && kept in Elems(list) && kept in Elems(ranked);
    var i :| 0 <= i < |ranked| && ranked[i] == gone;
    var k :| 0 <= k < |ranked| && ranked[k] == kept;
    SurvivesIff(defs, jobs, p, list, ranked, now, i);
    SurvivesIff(defs, jobs, p, list, ranked, now, k);
  }

  lemma {:induction false} CountElems(jobs: JobTable, list: seq<JobId>)
    requires NoDup(list)
    ensures CountRunning(jobs, list) == |RunningSet(jobs, list)|
    decreases |list|
  {
    if list != [] {
      var n := |list| - 1;
      assert list == list[..n] + [list[n]];
      CountElems(jobs, list[..n]);
      if list[n] in jobs && IsRunning(jobs[list[n]]) {
        assert RunningSet(jobs, list) == RunningSet(jobs, list[..n]) + {list[n]};
      } else {
        assert RunningSet(jobs, list) == RunningSet(jobs, list[..n]);
      }
    }
  }

  ghost function RunningSet(jobs: JobTable, list: seq<JobId>): set<JobId> {
    set id | id in list && id in jobs && IsRunning(jobs[id])
  }

  /** A sweep does not change the number of running jobs of a defined pipeline. */
  lemma SweepKeepsCount(defs: PipelinesMap, jobs: JobTable, p: string, list: seq<JobId>, ranked: seq<JobId>, now: int)
    requires PipelineList(defs, jobs, p, list) && IsRanking(jobs, list, ranked)
    ensures CountRunning(jobs, SweepList(defs, jobs, list, ranked, now)) == CountRunning(jobs, list)
  {
    var r := SweepList(defs, jobs, list, ranked, now);
    SweepNoDup(defs, jobs, list, ranked, now);
    forall id | id in list && IsRunning(jobs[id]) ensures id in r {
      UnfinishedSurvive(defs, jobs, p, list, ranked, now, id);
    }
    assert RunningSet(jobs, r) == RunningSet(jobs, list);
    CountElems(jobs, list);
    CountElems(jobs, r);
  }

  // ---------------------------------------------------------------------------------------------
  // Sweeping twice at the same time
  // ---------------------------------------------------------------------------------------------

  /** The other jobs that an unstable sort may put before `id`. */
  ghost function NotOlder(jobs: JobTable, list: seq<JobId>, id: JobId): set<JobId>
    requires id in jobs
  {
    set x | x in list && x != id && x in jobs && jobs[x].created >= jobs[id].created
  }

  /** Whatever the sort does with ties, every finished job ranks within the retention count. */
  ghost predicate RanksWithin(def: PipelineDef, jobs: JobTable, list: seq<JobId>) {
    def.retentionCount > 0 ==>
      forall id | id in list && id in jobs && Finished(jobs[id]) :: |NotOlder(jobs, list, id)| < def.retentionCount
  }

  lemma RankBound(jobs: JobTable, list: seq<JobId>, ranked: seq<JobId>, i: nat)
    requires NoDup(list) && IsRanking(jobs, list, ranked) && i < |ranked|
    ensures i <= |NotOlder(jobs, list, ranked[i])|
  {
    RankingFacts(jobs, list, ranked);
    NoDupSize(ranked[..i]);
    forall x | x in Elems(ranked[..i]) ensures x in NotOlder(jobs, list, ranked[i]) {
      var k :| 0 <= k < i && ranked[..i][k] == x;
      assert ranked[k] == x && x in Elems(ranked) && x in Elems(list);
    }
    SubsetSize(Elems(ranked[..i]), NotOlder(jobs, list, ranked[i]));
  }

  function InsertRanked(jobs: JobTable, id: JobId, ranked: seq<JobId>): seq<JobId>
    requires id in jobs && forall x | x in ranked :: x in jobs
    decreases |ranked|
  {
    if ranked == [] then [id]
    else if jobs[ranked[0]].created >= jobs[id].created then [ranked[0]] + InsertRanked(jobs, id, ranked[1..])
    else [id] + ranked
  }

  function SortRanked(jobs: JobTable, list: seq<JobId>): (r: seq<JobId>)
    requires forall x | x in list :: x in jobs
    ensures multiset(r) == multiset(list) && forall x | x in r :: x in jobs
    decreases |list|
  {
    if list == [] then []
    else
      var n := |list| - 1;
      var r := SortRanked(jobs, list[..n]);
      assert list == list[..n] + [list[n]];
      InsertRankedElems(jobs, list[n], r);
      InsertRanked(jobs, list[n], r)
  }

  lemma {:induction false} InsertRankedElems(jobs: JobTable, id: JobId, ranked: seq<JobId>)
    requires id in jobs && forall x | x in ranked :: x in jobs
    ensures multiset(InsertRanked(jobs, id, ranked)) == multiset(ranked) + multiset{id}
    ensures forall x | x in InsertRanked(jobs, id, ranked) :: x == id || x in ranked
    decreases |ranked|
  {
    if ranked != [] {
      assert ranked == [ranked[0]] + ranked[1..];
      InsertRankedElems(jobs, id, ranked[1..]);
    }
  }

  ghost predicate Descending(jobs: JobTable, ranked: seq<JobId>)
    requires forall x | x in ranked :: x in jobs
  {
    forall i, j | 0 <= i < j < |ranked| :: jobs[ranked[i]].created >= jobs[ranked[j]].created
  }

  // Insertion puts the job behind everything that is not older, and keeps the order.
  lemma {:induction false} InsertRankedAt(jobs: JobTable, id: JobId, ranked: seq<JobId>) returns (k: nat)
    requires id in jobs && (forall x | x in ranked :: x in jobs) && Descending(jobs, ranked)
    ensures k <= |ranked| && InsertRanked(jobs, id, ranked) == ranked[..k] + [id] + ranked[k..]
    ensures forall i | 0 <= i < |ranked| :: i < k <==> jobs[ranked[i]].created >= jobs[id].created
    decreases |ranked|
  {
    if ranked == [] || jobs[ranked[0]].created < jobs[id].created {
      k := 0;
    } else {
      var k' := InsertRankedAt(jobs, id, ranked[1..]);
      k := k' + 1;
      assert ranked[..k] == [ranked[0]] + ranked[1..][..k'] && ranked[k..] == ranked[1..][k'..];
      forall i | 0 <= i < |ranked| ensures i < k <==> jobs[ranked[i]].created >= jobs[id].created {
        if i > 0 {
          assert ranked[i] == ranked[1..][i - 1];
        }
      }
    }
  }

  lemma DescendingCons(jobs: JobTable, id: JobId, rest: seq<JobId>)
    requires id in jobs && (forall x | x in rest :: x in jobs) && Descending(jobs, rest)
    requires forall x | x in rest :: jobs[id].created >= jobs[x].created
    ensures (forall x | x in [id] + rest :: x in jobs) && Descending(jobs, [id] + rest)
  {
  }

  lemma {:induction false} InsertRankedDescending(jobs: JobTable, id: JobId, ranked: seq<JobId>)
    requires id in jobs && (forall x | x in ranked :: x in jobs) && Descending(jobs, ranked)
    ensures (forall x | x in InsertRanked(jobs, id, ranked) :: x in jobs)
    ensures Descending(jobs, InsertRanked(jobs, id, ranked))
    decreases |ranked|
  {
    if ranked != [] && jobs[ranked[0]].created >= jobs[id].created {
      InsertRankedElems(jobs, id, ranked[1..]);
      InsertRankedDescending(jobs, id, ranked[1..]);
      DescendingCons(jobs, ranked[0], InsertRanked(jobs, id, ranked[1..]));
    } else {
      DescendingCons(jobs, id, ranked);
    }
  }

  lemma {:induction false} SortRankedDescending(jobs: JobTable, list: seq<JobId>)
    requires forall x | x in list :: x in jobs
    ensures Descending(jobs, SortRanked(jobs, list))
    decreases |list|
  {
    if list != [] {
      SortRankedDescending(jobs, list[..|list| - 1]);
      InsertRankedDescending(jobs, list[|list| - 1], SortRanked(jobs, list[..|list| - 1]));
    }
  }

  lemma OthersOf(list: seq<JobId>, id: JobId) returns (others: seq<JobId>)
    requires NoDup(list) && id in list
    ensures NoDup(others) && multiset(list) == multiset(others) + multiset{id}
    ensures forall x :: x in others <==> x in list && x != id
  {
    hide Filter;
    others := Without(list, id);
    FilterElems(list, Other(id));
    FilterNoDup(list, Other(id));
    NoDupMultiset(list, others + [id]);
  }

  // Some sort ranks `id` behind all its ties.
  lemma WorstRanking(jobs: JobTable, list: seq<JobId>, id: JobId) returns (ranked: seq<JobId>, k: nat)
    requires NoDup(list) && id in list && forall x | x in list :: x in jobs
    ensures IsRanking(jobs, list, ranked) && k < |ranked| && ranked[k] == id && k == |NotOlder(jobs, list, id)|
  {
    var others := OthersOf(list, id);
    var sorted := SortRanked(jobs, others);
    SortRankedDescending(jobs, others);
    k := InsertRankedAt(jobs, id, sorted);
    InsertRankedElems(jobs, id, sorted);
    InsertRankedDescending(jobs, id, sorted);
    ranked := InsertRanked(jobs, id, sorted);
    assert multiset(ranked) == multiset(list);
    MultisetNoDup(others, sorted);
    NoDupSize(sorted[..k]);
    forall x ensures x in sorted <==> x in list && x != id {
      assert x in multiset(sorted) <==> x in multiset(others);
    }
    PrefixIsNotOlder(jobs, list, id, sorted, k);
  }

  lemma PrefixIsNotOlder(jobs: JobTable, list: seq<JobId>, id: JobId, sorted: seq<JobId>, k: nat)
    requires id in jobs && k <= |sorted| && forall x | x in sorted :: x in jobs
    requires forall x :: x in sorted <==> x in list && x != id
    requires forall i | 0 <= i < |sorted| :: i < k <==> jobs[sorted[i]].created >= jobs[id].created
    ensures Elems(sorted[..k]) == NotOlder(jobs, list, id)
  {
    forall x | x in Elems(sorted[..k]) ensures x in NotOlder(jobs, list, id) {
      var m :| 0 <= m < k && sorted[..k][m] == x;
      assert sorted[m] == x && x in sorted;
    }
    forall x | x in NotOlder(jobs, list, id) ensures x in Elems(sorted[..k]) {
      assert x in sorted;
      var m :| 0 <= m < |sorted| && sorted[m] == x;
      assert sorted[..k][m] == x;
    }
  }

  /**
   * A second sweep at the same time removes nothing, however the sort orders ties, exactly when every
   * finished survivor ranks within the count even behind all its ties.
   */
  lemma SecondSweepIdle(defs: PipelinesMap, jobs: JobTable, p: string, list: seq<JobId>, ranked: seq<JobId>, now: int)
    requires PipelineList(defs, jobs, p, list) && IsRanking(jobs, list, ranked)
    ensures var r := SweepList(defs, jobs, list, ranked, now);
      (forall again | IsRanking(jobs, r, again) :: ToRemove(defs, jobs, again, now) == []) <==>
        RanksWithin(defs[p], jobs, r)
  {
    var r := SweepList(defs, jobs, list, ranked, now);
    SweepNoDup(defs, jobs, list, ranked, now);
    if RanksWithin(defs[p], jobs, r) {
      forall again | IsRanking(jobs, r, again) ensures ToRemove(defs, jobs, again, now) == [] {
        NothingToRemove(defs, jobs, p, list, ranked, again, now);
      }
    } else {
      var id :| id in r && id in jobs && Finished(jobs[id]) && |NotOlder(jobs, r, id)| >= defs[p].retentionCount;
      var again, k := WorstRanking(jobs, r, id);
      ToRemoveIs(defs, jobs, again, now, id);
      assert ShouldBeRemoved(defs, jobs[id], k, now);
    }
  }

  lemma ToRemoveTwo(defs: PipelinesMap, jobs: JobTable, x: JobId, y: JobId, now: int)
    requires x in jobs && y in jobs
    ensures ToRemove(defs, jobs, [x, y], now) ==
      (if ShouldBeRemoved(defs, jobs[x], 0, now) then [x] else []) +
      (if ShouldBeRemoved(defs, jobs[y], 1, now) then [y] else [])
  {
    assert [x, y][..1] == [x] && [x][..0] == [];
    assert ToRemove(defs, jobs, [x][..0], now) == [];
    assert ToRemove(defs, jobs, [x], now) == if ShouldBeRemoved(defs, jobs[x], 0, now) then [x] else [];
  }

  const KEEP_ONE := PipelineDef(1, None, None, Append, 0, false, 0, 1, map[], map[])

  function Sample(start: Option<int>): Job {
    Job("p", "", map[], map[], "", 0, true, 0, 5, start.Some?, false, start, start, [], None, None, false, false)
  }

  function SampleDefs(): PipelinesMap {
    map["p" := KEEP_ONE]
  }

  function SampleJobs(): JobTable {
    map[0 := Sample(Some(6)), 1 := Sample(None)]
  }

  lemma SampleRankings(x: JobId, y: JobId)
    requires (x == 0 && y == 1) || (x == 1 && y == 0)
    ensures IsRanking(SampleJobs(), [0, 1], [x, y])
  {
    assert [0, 1] == [0] + [1] && multiset([0, 1]) == multiset{0, 1} == multiset([x, y]);
  }

  lemma RemoveNothing(list: seq<JobId>)
    ensures RemoveAll(list, []) == list
  {
  }

  /** With retention_count 1, a finished and a waiting job of the same age: the second sweep may rank the other way. */
  lemma SecondSweepRemoves()
    ensures PipelineList(SampleDefs(), SampleJobs(), "p", [0, 1])
    ensures IsRanking(SampleJobs(), [0, 1], [0, 1])
    ensures SweepList(SampleDefs(), SampleJobs(), [0, 1], [0, 1], 7) == [0, 1]
    ensures IsRanking(SampleJobs(), [0, 1], [1, 0]) && ToRemove(SampleDefs(), SampleJobs(), [1, 0], 7) == [0]
  {
    hide ToRemove, IsRanking;
    SampleRankings(0, 1);
    SampleRankings(1, 0);
    ToRemoveTwo(SampleDefs(), SampleJobs(), 0, 1, 7);
    assert !ShouldBeRemoved(SampleDefs(), SampleJobs()[0], 0, 7) &&
      !ShouldBeRemoved(SampleDefs(), SampleJobs()[1], 1, 7);
    RemoveNothing([0, 1]);
    ToRemoveTwo(SampleDefs(), SampleJobs(), 1, 0, 7);
  }

  lemma NothingToRemove(defs: PipelinesMap, jobs: JobTable, p: string, list: seq<JobId>, ranked: seq<JobId>,
                        again: seq<JobId>, now: int)
    requires PipelineList(defs, jobs, p, list) && IsRanking(jobs, list, ranked)
    requires var r := SweepList(defs, jobs, list, ranked, now);
      IsRanking(jobs, r, again) && RanksWithin(defs[p], jobs, r)
    ensures ToRemove(defs, jobs, again, now) == []
  {
    var r := SweepList(defs, jobs, list, ranked, now);
    SweepNoDup(defs, jobs, list, ranked, now);
    RankingFacts(jobs, r, again);
    RankingFacts(jobs, list, ranked);
    var gone := ToRemove(defs, jobs, again, now);
    forall i | 0 <= i < |again| ensures !ShouldBeRemoved(defs, jobs[again[i]], i, now) {
      var id := again[i];
      assert id in Elems(again) && id in Elems(r) && id in Elems(list) && id in Elems(ranked);
      RankBound(jobs, r, again, i);
      var k :| 0 <= k < |ranked| && ranked[k] == id;
      SurvivesIff(defs, jobs, p, list, ranked, now, k);
    }
    if gone != [] {
      ToRemoveIs(defs, jobs, again, now, gone[0]);
    }
  }

  /** In particular when no two jobs of the pipeline were created at the same time. */
  lemma DistinctTimesIdle(defs: PipelinesMap, jobs: JobTable, p: string, list: seq<JobId>, ranked: seq<JobId>, now: int)
    requires PipelineList(defs, jobs, p, list) && IsRanking(jobs, list, ranked)
    requires forall x, y | x in list && y in list && x != y :: jobs[x].created != jobs[y].created
    ensures RanksWithin(defs[p], jobs, SweepList(defs, jobs, list, ranked, now))
  {
    var r := SweepList(defs, jobs, list, ranked, now);
    SweepNoDup(defs, jobs, list, ranked, now);
    RankingFacts(jobs, list, ranked);
    forall id | id in r && Finished(jobs[id]) && defs[p].retentionCount > 0
      ensures |NotOlder(jobs, r, id)| < defs[p].retentionCount
    {
      assert id in Elems(list) && id in Elems(ranked);
      var i :| 0 <= i < |ranked| && ranked[i] == id;
      SurvivesIff(defs, jobs, p, list, ranked, now, i);
      forall x | x in NotOlder(jobs, r, id) ensures x in Elems(ranked[..i]) {
        assert x in Elems(list) && x in Elems(ranked);
        var k :| 0 <= k < |ranked| && ranked[k] == x;
        assert jobs[x].created > jobs[id].created;
        assert ranked[..i][k] == x;
      }
      NoDupSize(ranked[..i]);
      SubsetSize(NotOlder(jobs, r, id), Elems(ranked[..i]));
    }
  }
}
