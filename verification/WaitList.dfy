// The three queue strategies of prunner.go on the list of waiting jobs, and what partitioning means.
module WaitList {
  import opened Basics

  type JobId = nat

  /** slice_utils.Filter */
  function Filter<T>(list: seq<T>, keep: T -> bool): seq<T>
    decreases |list|
  {
    if list == [] then []
    else
      var n := |list| - 1;
      Filter(list[..n], keep) + if keep(list[n]) then [list[n]] else []
  }

  lemma {:induction false} FilterElems<T>(list: seq<T>, keep: T -> bool)
    ensures forall id :: id in Filter(list, keep) <==> id in list && keep(id)
    decreases |list|
  {
    if list != [] {
      var n := |list| - 1;
      assert list == list[..n] + [list[n]];
      FilterElems(list[..n], keep);
    }
  }

  method FilterLoop<T>(list: seq<T>, keep: T -> bool) returns (r: seq<T>)
    ensures r == Filter(list, keep)
  {
    r := [];
    for i := 0 to |list|
      invariant r == Filter(list[..i], keep)
    {
      assert list[..i + 1][..i] == list[..i];
      if keep(list[i]) {
        r := r + [list[i]];
      }
    }
    assert list[..|list|] == list;
  }

  function InPartition(part: JobId -> string, q: string): JobId -> bool {
    (id: JobId) => part(id) == q
  }

  function OutsidePartition(part: JobId -> string, q: string): JobId -> bool {
    (id: JobId) => part(id) != q
  }

  function Other(id: JobId): JobId -> bool {
    (x: JobId) => x != id
  }

  /** The part of the list that one partition sees. */
  function Project(part: JobId -> string, list: seq<JobId>, q: string): seq<JobId> {
    Filter(list, InPartition(part, q))
  }

  function Without(list: seq<JobId>, id: JobId): seq<JobId> {
    Filter(list, Other(id))
  }

  /** A new list and the job that lost its place in it. */
  datatype Queued = Queued(list: seq<JobId>, victim: Option<JobId>)

  function AppendTo(list: seq<JobId>, id: JobId): Queued {
    Queued(list + [id], None)
  }

  function ReplaceIn(list: seq<JobId>, limit: int, id: JobId): Queued
    requires limit > 0
  {
    if |list| < limit then Queued(list + [id], None)
    else Queued(list[..|list| - 1] + [id], Some(list[|list| - 1]))
  }

  function PartitionedReplaceIn(part: JobId -> string, list: seq<JobId>, limit: int, id: JobId): Queued
    requires limit > 0
  {
    var mine := Project(part, list, part(id));
    if |mine| < limit then Queued(list + [id], None)
    else
      var victim := mine[|mine| - 1];
      Queued(Without(list, victim) + [id], Some(victim))
  }

  // ---------------------------------------------------------------------------------------------
  // Filtering
  // ---------------------------------------------------------------------------------------------

  lemma {:induction false} FilterLength(list: seq<JobId>, keep: JobId -> bool)
    ensures |Filter(list, keep)| <= |list|
    decreases |list|
  {
    if list != [] {
      FilterLength(list[..|list| - 1], keep);
    }
  }

  lemma {:induction false} FilterAppend(s: seq<JobId>, t: seq<JobId>, keep: JobId -> bool)
    ensures Filter(s + t, keep) == Filter(s, keep) + Filter(t, keep)
    decreases |t|
  {
    if t == [] {
      assert s + t == s;
    } else {
      var n := |t| - 1;
      assert (s + t)[..|s + t| - 1] == s + t[..n];
      FilterAppend(s, t[..n], keep);
    }
  }

  lemma FilterOne(id: JobId, keep: JobId -> bool)
    ensures Filter([id], keep) == if keep(id) then [id] else []
  {
  }

  lemma {:induction false} FilterAll(s: seq<JobId>, keep: JobId -> bool)
    requires forall id | id in s :: keep(id)
    ensures Filter(s, keep) == s
    decreases |s|
  {
    if s != [] {
      var n := |s| - 1;
      assert s == s[..n] + [s[n]];
      FilterAll(s[..n], keep);
    }
  }

  lemma {:induction false} FilterAgrees(list: seq<JobId>, keep: JobId -> bool, also: JobId -> bool)
    requires forall id | id in list :: keep(id) == also(id)
    ensures Filter(list, keep) == Filter(list, also)
    decreases |list|
  {
    if list != [] {
      assert list[|list| - 1] in list;
      FilterAgrees(list[..|list| - 1], keep, also);
    }
  }

  lemma {:induction false} FilterNone(s: seq<JobId>, keep: JobId -> bool)
    requires forall id | id in s :: !keep(id)
    ensures Filter(s, keep) == []
    decreases |s|
  {
    if s != [] {
      FilterNone(s[..|s| - 1], keep);
    }
  }

  // Both filters on a list and one more entry.
  lemma FilterTwice(t: seq<JobId>, x: JobId, keep: JobId -> bool, also: JobId -> bool)
    ensures Filter(Filter(t + [x], keep), also) ==
      Filter(Filter(t, keep), also) + if keep(x) && also(x) then [x] else []
  {
    FilterAppend(t, [x], keep);
    FilterOne(x, keep);
    FilterOne(x, also);
    hide Filter;
    var a := Filter(t, keep);
    if keep(x) {
      FilterAppend(a, [x], also);
    } else {
      assert a + [] == a && Filter(a, also) + [] == Filter(a, also);
    }
  }

  lemma {:induction false} FilterCommutes(s: seq<JobId>, keep: JobId -> bool, also: JobId -> bool)
    ensures Filter(Filter(s, keep), also) == Filter(Filter(s, also), keep)
    decreases |s|
  {
    if s != [] {
      hide Filter;
      var n := |s| - 1;
      assert s == s[..n] + [s[n]];
      FilterCommutes(s[..n], keep, also);
      FilterTwice(s[..n], s[n], keep, also);
      FilterTwice(s[..n], s[n], also, keep);
    }
  }

  lemma {:induction false} FilterNoDup(s: seq<JobId>, keep: JobId -> bool)
    requires NoDup(s)
    ensures NoDup(Filter(s, keep))
    decreases |s|
  {
    if s != [] {
      FilterNoDup(s[..|s| - 1], keep);
      FilterElems(s[..|s| - 1], keep);
    }
  }

  ghost predicate Increasing(list: seq<JobId>, key: JobId -> int) {
    forall i, j | 0 <= i < j < |list| :: key(list[i]) < key(list[j])
  }

  lemma {:induction false} FilterIncreasing(list: seq<JobId>, keep: JobId -> bool, key: JobId -> int)
    requires Increasing(list, key)
    ensures Increasing(Filter(list, keep), key)
    decreases |list|
  {
    if list != [] {
      var n := |list| - 1;
      FilterIncreasing(list[..n], keep, key);
      FilterElems(list[..n], keep);
      forall id | id in list[..n] ensures key(id) < key(list[n]) {
        var i :| 0 <= i < n && list[..n][i] == id;
        assert list[i] == id;
      }
    }
  }

  lemma WithoutLast(s: seq<JobId>)
    requires s != [] && NoDup(s)
    ensures Without(s, s[|s| - 1]) == s[..|s| - 1]
  {
    FilterAll(s[..|s| - 1], Other(s[|s| - 1]));
  }

  // ---------------------------------------------------------------------------------------------
  // One shared list stands for one replace list per partition
  // ---------------------------------------------------------------------------------------------

  /** One arrival: the job's own partition sees a replace, every other partition sees nothing. */
  lemma PartitionedIsReplace(part: JobId -> string, list: seq<JobId>, limit: int, id: JobId, q: string)
    requires limit > 0 && NoDup(list)
    ensures var r := PartitionedReplaceIn(part, list, limit, id);
      var mine := ReplaceIn(Project(part, list, part(id)), limit, id);
      && Project(part, r.list, q) == (if q == part(id) then mine.list else Project(part, list, q))
      && r.victim == mine.victim
      && (r.victim.Some? ==> r.victim.value in list && part(r.victim.value) == part(id))
  {
    hide Filter;
    var keep := InPartition(part, q);
    var mine := Project(part, list, part(id));
    FilterOne(id, keep);
    if |mine| < limit {
      FilterAppend(list, [id], keep);
    } else {
      var victim := mine[|mine| - 1];
      FilterElems(list, InPartition(part, part(id)));
      assert victim in mine;
      FilterAppend(Without(list, victim), [id], keep);
      FilterCommutes(list, Other(victim), keep);
      if q == part(id) {
        FilterNoDup(list, keep);
        WithoutLast(mine);
      } else {
        FilterElems(list, keep);
        FilterAll(Project(part, list, q), Other(victim));
      }
    }
  }

  /** A history of a wait list: jobs arrive, and jobs leave it to run. */
  datatype Op = Arrive(id: JobId) | Leave(id: JobId)

  /** The list, with everything that was ever replaced. */
  datatype History = History(list: seq<JobId>, replaced: seq<JobId>)

  function Replaced(h: History, q: Queued): History {
    History(q.list, if q.victim.Some? then h.replaced + [q.victim.value] else h.replaced)
  }

  function Shared(part: JobId -> string, limit: int, ops: seq<Op>): History
    requires limit > 0
  {
    if ops == [] then History([], [])
    else
      var h := Shared(part, limit, ops[..|ops| - 1]);
      match ops[|ops| - 1]
      case Arrive(id) => Replaced(h, PartitionedReplaceIn(part, h.list, limit, id))
      case Leave(id) => h.(list := Without(h.list, id))
  }

  function Single(limit: int, ops: seq<Op>): History
    requires limit > 0
  {
    if ops == [] then History([], [])
    else
      var h := Single(limit, ops[..|ops| - 1]);
      match ops[|ops| - 1]
      case Arrive(id) => Replaced(h, ReplaceIn(h.list, limit, id))
      case Leave(id) => h.(list := Without(h.list, id))
  }

  function OpsOf(part: JobId -> string, ops: seq<Op>, q: string): seq<Op> {
    if ops == [] then []
    else OpsOf(part, ops[..|ops| - 1], q) + if part(ops[|ops| - 1].id) == q then [ops[|ops| - 1]] else []
  }

  ghost predicate FreshArrivals(ops: seq<Op>) {
    forall i, j | 0 <= i < j < |ops| && ops[i].Arrive? && ops[j].Arrive? :: ops[i].id != ops[j].id
  }

  lemma {:induction false} SharedNoDup(part: JobId -> string, limit: int, ops: seq<Op>)
    requires limit > 0 && FreshArrivals(ops)
    ensures var h := Shared(part, limit, ops);
      NoDup(h.list) && forall id | id in h.list :: Arrive(id) in ops
    decreases |ops|
  {
    hide Filter;
    if ops != [] {
      var n := |ops| - 1;
      SharedNoDup(part, limit, ops[..n]);
      var h := Shared(part, limit, ops[..n]);
      var id := ops[n].id;
      assert ops == ops[..n] + [ops[n]];
      if ops[n].Arrive? {
        var mine := Project(part, h.list, part(id));
        if |mine| >= limit {
          FilterNoDup(h.list, Other(mine[|mine| - 1]));
          FilterElems(h.list, Other(mine[|mine| - 1]));
        }
      } else {
        FilterNoDup(h.list, Other(id));
        FilterElems(h.list, Other(id));
      }
    }
  }

  /**
   * Over any history, the shared list seen from one partition is the list, and the replacements are the
   * replacements, of a replace queue that only ever heard of that partition.
   */
  lemma {:induction false} SharedSimulatesSingle(part: JobId -> string, limit: int, ops: seq<Op>, q: string)
    requires limit > 0 && FreshArrivals(ops)
    ensures var h, mine := Shared(part, limit, ops), Single(limit, OpsOf(part, ops, q));
      Project(part, h.list, q) == mine.list && Project(part, h.replaced, q) == mine.replaced
    decreases |ops|
  {
    hide Filter, PartitionedReplaceIn;
    if ops == [] {
      FilterNone([], InPartition(part, q));
    } else {
      var n := |ops| - 1;
      var before, op := ops[..n], ops[n];
      SharedSimulatesSingle(part, limit, before, q);
      SharedNoDup(part, limit, before);
      var h := Shared(part, limit, before);
      var keep := InPartition(part, q);
      OpsOfLast(part, ops, q);
      if op.Arrive? {
        var r := PartitionedReplaceIn(part, h.list, limit, op.id);
        PartitionedIsReplace(part, h.list, limit, op.id, q);
        if r.victim.Some? {
          FilterAppend(h.replaced, [r.victim.value], keep);
          FilterOne(r.victim.value, keep);
        }
      } else {
        FilterCommutes(h.list, Other(op.id), keep);
        if part(op.id) != q {
          FilterElems(h.list, keep);
          FilterAll(Project(part, h.list, q), Other(op.id));
        }
      }
    }
  }

  lemma OpsOfLast(part: JobId -> string, ops: seq<Op>, q: string)
    requires ops != []
    ensures var n := |ops| - 1; var mine := OpsOf(part, ops, q);
      if part(ops[n].id) == q
      then mine != [] && mine[|mine| - 1] == ops[n] && mine[..|mine| - 1] == OpsOf(part, ops[..n], q)
      else mine == OpsOf(part, ops[..n], q)
  {
  }

  lemma {:induction false} SingleBounded(limit: int, ops: seq<Op>)
    requires limit > 0
    ensures |Single(limit, ops).list| <= limit
    decreases |ops|
  {
    if ops != [] {
      var before, op := ops[..|ops| - 1], ops[|ops| - 1];
      SingleBounded(limit, before);
      FilterLength(Single(limit, before).list, Other(op.id));
    }
  }

  function Partitions(part: JobId -> string, list: seq<JobId>): set<string> {
    set id | id in list :: part(id)
  }

  // A list whose partitions all fit in `limit` is no longer than `limit` per partition.
  lemma {:induction false} LengthByPartitions(part: JobId -> string, list: seq<JobId>, limit: int, qs: set<string>)
    requires limit > 0
    requires forall id | id in list :: part(id) in qs
    requires forall q | q in qs :: |Project(part, list, q)| <= limit
    ensures |list| <= limit * |qs|
    decreases |qs|
  {
    hide Filter;
    if list == [] {
      AtLeastZero(limit, |qs|);
    } else {
      var q := part(list[0]);
      var rest := Filter(list, OutsidePartition(part, q));
      SplitLength(part, list, q);
      FilterElems(list, OutsidePartition(part, q));
      forall r | r in qs - {q} ensures |Project(part, rest, r)| <= limit {
        FilterCommutes(list, OutsidePartition(part, q), InPartition(part, r));
        FilterElems(list, InPartition(part, r));
        FilterAll(Project(part, list, r), OutsidePartition(part, q));
      }
      LengthByPartitions(part, rest, limit, qs - {q});
      OneMore(limit, |qs|);
    }
  }

  lemma AtLeastZero(limit: int, n: nat)
    requires limit > 0
    ensures 0 <= limit * n
  {
  }

  lemma OneMore(limit: int, n: int)
    ensures limit * n == limit * (n - 1) + limit
  {
  }

  lemma {:induction false} SplitLength(part: JobId -> string, list: seq<JobId>, q: string)
    ensures |Filter(list, OutsidePartition(part, q))| + |Project(part, list, q)| == |list|
    decreases |list|
  {
    if list != [] {
      SplitLength(part, list[..|list| - 1], q);
    }
  }

  /** The wait list grows up to the limit times the number of partitions on it. */
  lemma SharedBounded(part: JobId -> string, limit: int, ops: seq<Op>)
    requires limit > 0 && FreshArrivals(ops)
    ensures |Shared(part, limit, ops).list| <= limit * |Partitions(part, Shared(part, limit, ops).list)|
  {
    var list := Shared(part, limit, ops).list;
    forall q ensures |Project(part, list, q)| <= limit {
      SharedSimulatesSingle(part, limit, ops, q);
      SingleBounded(limit, OpsOf(part, ops, q));
    }
    LengthByPartitions(part, list, limit, Partitions(part, list));
  }
}
