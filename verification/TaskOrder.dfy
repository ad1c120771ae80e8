// sortTasksByDependencies of prunner.go: Kahn's algorithm with a queue that is kept sorted.
module TaskOrder {
  import opened Basics
  import opened Definitions
  import opened Jobs

  // ---------------------------------------------------------------------------------------------
  // Orders on names
  // ---------------------------------------------------------------------------------------------

  predicate Less(a: string, b: string) {
    b != [] && (a == [] || a[0] < b[0] || (a[0] == b[0] && Less(a[1..], b[1..])))
  }

  lemma {:induction false} LessTrichotomy(a: string, b: string)
    ensures Less(a, b) || Less(b, a) || a == b
    ensures !(Less(a, b) && Less(b, a)) && !Less(a, a)
    decreases |a|
  {
    if a != [] && b != [] && a[0] == b[0] {
      LessTrichotomy(a[1..], b[1..]);
      assert a == [a[0]] + a[1..] && b == [b[0]] + b[1..];
    }
    if a != [] {
      LessTrichotomy(a[1..], a[1..]);
    }
  }

  lemma {:induction false} LessTransitive(a: string, b: string, c: string)
    requires Less(a, b) && Less(b, c)
    ensures Less(a, c)
    decreases |a|
  {
    if a != [] && a[0] == b[0] && b[0] == c[0] {
      LessTransitive(a[1..], b[1..], c[1..]);
    }
  }

  /** The position of `n` in `t`, and 0 (the zero value of an int field) for a name outside it. */
  function Rank(t: seq<string>, n: string): nat {
    if n !in t then 0 else if t[0] == n then 0 else 1 + RankIn(t[1..], n)
  }

  function RankIn(t: seq<string>, n: string): (k: nat)
    requires n in t
    ensures k < |t| && t[k] == n && n !in t[..k]
  {
    if t[0] == n then 0 else
      var k := 1 + RankIn(t[1..], n);
      assert t[..k] == [t[0]] + t[1..][..k - 1];
      k
  }

  /** The order handed to sort.Slice: by rank, then by name. With t == [] it is the order on names. */
  predicate Before(t: seq<string>, a: string, b: string) {
    Rank(t, a) < Rank(t, b) || (Rank(t, a) == Rank(t, b) && Less(a, b))
  }

  lemma BeforeTotal(t: seq<string>, a: string, b: string)
    ensures Before(t, a, b) || Before(t, b, a) || a == b
    ensures !(Before(t, a, b) && Before(t, b, a)) && !Before(t, a, a)
  {
    LessTrichotomy(a, b);
    LessTrichotomy(a, a);
  }

  lemma BeforeTransitive(t: seq<string>, a: string, b: string, c: string)
    requires Before(t, a, b) && Before(t, b, c)
    ensures Before(t, a, c)
  {
    if Rank(t, a) == Rank(t, b) == Rank(t, c) {
      LessTransitive(a, b, c);
    }
  }

  // ---------------------------------------------------------------------------------------------
  // Sorting, as the standard library's sort package promises it
  // ---------------------------------------------------------------------------------------------

  ghost predicate Sorted<T>(key: T -> string, t: seq<string>, s: seq<T>) {
    forall i, j | 0 <= i < j < |s| :: Before(t, key(s[i]), key(s[j]))
  }

  ghost predicate DistinctKeys<T>(key: T -> string, s: seq<T>) {
    forall i, j | 0 <= i < j < |s| :: key(s[i]) != key(s[j])
  }

  function Insert<T>(key: T -> string, t: seq<string>, x: T, s: seq<T>): (r: seq<T>)
    ensures multiset(r) == multiset{x} + multiset(s)
    decreases |s|
  {
    if s == [] then [x]
    else if Before(t, key(x), key(s[0])) then [x] + s
    else
      assert s == [s[0]] + s[1..];
      [s[0]] + Insert(key, t, x, s[1..])
  }

  function Sort<T>(key: T -> string, t: seq<string>, s: seq<T>): (r: seq<T>)
    ensures multiset(r) == multiset(s)
    decreases |s|
  {
    if s == [] then []
    else
      assert s == [s[0]] + s[1..];
      Insert(key, t, s[0], Sort(key, t, s[1..]))
  }

  lemma {:induction false} InsertSorted<T>(key: T -> string, t: seq<string>, x: T, s: seq<T>)
    requires Sorted(key, t, s)
    requires forall y | y in s :: key(y) != key(x)
    ensures Sorted(key, t, Insert(key, t, x, s))
    decreases |s|
  {
    var r := Insert(key, t, x, s);
    if s == [] {
    } else if Before(t, key(x), key(s[0])) {
      forall j | 0 < j < |s| ensures Before(t, key(x), key(s[j])) {
        BeforeTransitive(t, key(x), key(s[0]), key(s[j]));
      }
    } else {
      BeforeTotal(t, key(x), key(s[0]));
      InsertSorted(key, t, x, s[1..]);
      var rest := Insert(key, t, x, s[1..]);
      forall j | 0 <= j < |rest| ensures Before(t, key(s[0]), key(rest[j])) {
        assert rest[j] in multiset(rest);
        assert rest[j] == x || rest[j] in s[1..];
      }
    }
  }

  lemma {:induction false} SortSorted<T>(key: T -> string, t: seq<string>, s: seq<T>)
    requires DistinctKeys(key, s)
    ensures Sorted(key, t, Sort(key, t, s))
    decreases |s|
  {
    if s != [] {
      SortSorted(key, t, s[1..]);
      var rest := Sort(key, t, s[1..]);
      forall y | y in rest ensures key(y) != key(s[0]) {
        assert y in multiset(rest);
        assert y in s[1..];
      }
      InsertSorted(key, t, s[0], rest);
    }
  }

  lemma SameHead<T>(key: T -> string, t: seq<string>, r: seq<T>, s: seq<T>)
    requires Sorted(key, t, r) && Sorted(key, t, s) && r != [] && s != []
    requires r[0] in s && s[0] in r
    ensures r[0] == s[0]
  {
    var j :| 0 <= j < |s| && s[j] == r[0];
    var i :| 0 <= i < |r| && r[i] == s[0];
    BeforeTotal(t, key(r[0]), key(s[0]));
  }

  // A sorted sequence is determined by its elements.
  lemma {:induction false} SortedUnique<T>(key: T -> string, t: seq<string>, r: seq<T>, s: seq<T>)
    requires Sorted(key, t, r) && Sorted(key, t, s) && multiset(r) == multiset(s)
    ensures r == s
    decreases |r|
  {
    hide Sorted;
    assert |r| == |multiset(r)| == |multiset(s)| == |s|;
    if r != [] {
      assert r[0] in multiset(r) && s[0] in multiset(s);
      SameHead(key, t, r, s);
      HeadAndTail(key, t, r);
      HeadAndTail(key, t, s);
      SortedUnique(key, t, r[1..], s[1..]);
    }
  }

  lemma HeadAndTail<T>(key: T -> string, t: seq<string>, s: seq<T>)
    requires Sorted(key, t, s) && s != []
    ensures s == [s[0]] + s[1..] && multiset(s[1..]) == multiset(s) - multiset{s[0]} && Sorted(key, t, s[1..])
  {
    hide Before;
    assert s == [s[0]] + s[1..];
  }

  // ---------------------------------------------------------------------------------------------
  // Topological orders
  // ---------------------------------------------------------------------------------------------

  /** Task names with the set of names each one waits for. */
  type Graph = map<string, set<string>>

  ghost predicate IsTopological(g: Graph, t: seq<string>) {
    NoDup(t) && Elems(t) == g.Keys && forall k | 0 <= k < |t| :: g[t[k]] <= Elems(t[..k])
  }

  ghost function Available(g: Graph, done: seq<string>): set<string> {
    set n | n in g.Keys && n !in done && g[n] <= Elems(done)
  }

  /** Every element of `t` is the least name available at its turn. */
  ghost predicate Greedy(g: Graph, t: seq<string>) {
    forall k | 0 <= k < |t| :: LeastAvailable(g, t[..k], t[k])
  }

  ghost predicate LeastAvailable(g: Graph, done: seq<string>, n: string) {
    n in Available(g, done) && forall m | m in Available(g, done) :: m == n || Less(n, m)
  }

  /** The order in which the loop takes names from its queue until the queue is empty. */
  ghost predicate KahnOrder(g: Graph, t: seq<string>) {
    Greedy(g, t) && Available(g, t) == {}
  }

  ghost predicate LexLess(t: seq<string>, u: seq<string>) {
    exists k | 0 <= k < |t| && k < |u| :: t[..k] == u[..k] && Less(t[k], u[k])
  }

  lemma GreedyNoDup(g: Graph, t: seq<string>)
    requires Greedy(g, t)
    ensures NoDup(t) && Elems(t) <= g.Keys && |t| <= |g.Keys|
  {
    forall i, j | 0 <= i < j < |t| ensures t[i] != t[j] {
      assert LeastAvailable(g, t[..j], t[j]);
      assert t[..j][i] == t[i];
    }
    NoDupSize(t);
    forall n | n in t ensures n in g.Keys {
      var k :| 0 <= k < |t| && t[k] == n;
      assert LeastAvailable(g, t[..k], t[k]);
    }
    SubsetSize(Elems(t), g.Keys);
  }

  // If any topological order exists, Kahn's order takes every name.
  lemma {:induction false} KahnComplete(g: Graph, t: seq<string>, u: seq<string>, k: nat)
    requires KahnOrder(g, t) && IsTopological(g, u) && k <= |u|
    ensures Elems(u[..k]) <= Elems(t)
  {
    if k > 0 {
      KahnComplete(g, t, u, k - 1);
      var n := u[k - 1];
      assert u[..k] == u[..k - 1] + [n];
      assert n in Elems(u) && g[n] <= Elems(u[..k - 1]);
      assert n !in t ==> n in Available(g, t);
    }
  }

  lemma KahnTopological(g: Graph, t: seq<string>, u: seq<string>)
    requires KahnOrder(g, t) && IsTopological(g, u)
    ensures IsTopological(g, t) && |t| == |u|
  {
    KahnComplete(g, t, u, |u|);
    assert u[..|u|] == u;
    GreedyNoDup(g, t);
    assert Elems(t) == g.Keys;
    forall k | 0 <= k < |t| ensures g[t[k]] <= Elems(t[..k]) {
      assert LeastAvailable(g, t[..k], t[k]);
    }
    NoDupSize(t);
    NoDupSize(u);
  }

  /** Kahn's order is the lexicographically least of all topological orders. */
  lemma {:induction false} KahnLeast(g: Graph, t: seq<string>, u: seq<string>, k: nat)
    requires KahnOrder(g, t) && IsTopological(g, u) && |t| == |u|
    requires k <= |t| && t[..k] == u[..k]
    ensures t == u || LexLess(t, u)
    decreases |t| - k
  {
    if k < |t| {
      hide KahnOrder, IsTopological, LeastAvailable, Less;
      NextInOrder(g, u, k);
      NextTaken(g, t, k);
      if t[k] == u[k] {
        assert t[..k + 1] == t[..k] + [t[k]] && u[..k + 1] == u[..k] + [u[k]];
        KahnLeast(g, t, u, k + 1);
      } else {
        LeastIsLess(g, t[..k], t[k], u[k]);
      }
    } else {
      assert t == t[..k] && u == u[..k];
    }
  }

  lemma {:induction false} KahnUnique(g: Graph, t: seq<string>, u: seq<string>, k: nat)
    requires KahnOrder(g, t) && KahnOrder(g, u)
    requires k <= |t| && k <= |u| && t[..k] == u[..k]
    ensures t == u
    decreases |t| - k
  {
    hide KahnOrder, LeastAvailable, Less;
    NextTaken(g, t, k);
    NextTaken(g, u, k);
    if k < |t| {
      LeastIsOne(g, t[..k], t[k], u[k]);
      assert t[..k + 1] == t[..k] + [t[k]] && u[..k + 1] == u[..k] + [u[k]];
      KahnUnique(g, t, u, k + 1);
    } else {
      assert t[..k] == t && u[..k] == u;
    }
  }

  lemma NextTaken(g: Graph, t: seq<string>, k: nat)
    requires KahnOrder(g, t) && k <= |t|
    ensures k < |t| <==> Available(g, t[..k]) != {}
    ensures k < |t| ==> LeastAvailable(g, t[..k], t[k])
  {
    assert t[..|t|] == t;
    assert k < |t| ==> LeastAvailable(g, t[..k], t[k]);
  }

  // In a topological order each name is available at its turn.
  lemma NextInOrder(g: Graph, u: seq<string>, k: nat)
    requires IsTopological(g, u) && k < |u|
    ensures u[k] in Available(g, u[..k])
  {
    forall i | 0 <= i < k ensures u[..k][i] != u[k] {
      assert u[i] != u[k];
    }
    assert u[k] in Elems(u);
  }

  lemma LeastIsLess(g: Graph, done: seq<string>, n: string, m: string)
    requires LeastAvailable(g, done, n) && m in Available(g, done) && m != n
    ensures Less(n, m)
  {
  }

  lemma LeastIsOne(g: Graph, done: seq<string>, n: string, m: string)
    requires LeastAvailable(g, done, n) && LeastAvailable(g, done, m)
    ensures n == m
  {
    LessTrichotomy(n, m);
  }

  // ---------------------------------------------------------------------------------------------
  // The task list
  // ---------------------------------------------------------------------------------------------

  function Name(task: JobTask): string {
    task.name
  }

  function Names(tasks: seq<JobTask>): seq<string> {
    seq(|tasks|, i requires 0 <= i < |tasks| => tasks[i].name)
  }

  ghost predicate UniqueNames(tasks: seq<JobTask>) {
    DistinctKeys(Name, tasks)
  }

  function Incoming(task: JobTask): set<string> {
    set d | d in task.def.dependsOn
  }

  function GraphOf(tasks: seq<JobTask>): Graph
    decreases |tasks|
  {
    if tasks == [] then map[]
    else
      var n := |tasks| - 1;
      GraphOf(tasks[..n])[tasks[n].name := Incoming(tasks[n])]
  }

  /** What sortTasksByDependencies leaves in its slice. */
  ghost predicate IsTaskOrder(tasks: seq<JobTask>, sorted: seq<JobTask>) {
    multiset(sorted) == multiset(tasks) &&
    exists t :: KahnOrder(GraphOf(tasks), t) && Sorted(Name, t, sorted)
  }

  lemma {:induction false} GraphKeys(tasks: seq<JobTask>)
    ensures forall n :: n in GraphOf(tasks) <==> n in Names(tasks)
    decreases |tasks|
  {
    if tasks != [] {
      var n := |tasks| - 1;
      GraphKeys(tasks[..n]);
      assert Names(tasks) == Names(tasks[..n]) + [tasks[n].name];
    }
  }

  lemma {:induction false} GraphAt(tasks: seq<JobTask>, i: nat)
    requires UniqueNames(tasks) && i < |tasks|
    ensures tasks[i].name in GraphOf(tasks) && GraphOf(tasks)[tasks[i].name] == Incoming(tasks[i])
    decreases |tasks|
  {
    var n := |tasks| - 1;
    if i < n {
      GraphAt(tasks[..n], i);
      assert Name(tasks[i]) != Name(tasks[n]);
    }
  }

  lemma SameElements(tasks: seq<JobTask>, others: seq<JobTask>)
    requires multiset(tasks) == multiset(others)
    ensures forall x :: x in tasks <==> x in others
  {
    forall x ensures x in tasks <==> x in others {
      assert x in multiset(tasks) <==> x in multiset(others);
    }
  }

  lemma SameGraph(tasks: seq<JobTask>, others: seq<JobTask>)
    requires UniqueNames(tasks) && UniqueNames(others) && multiset(tasks) == multiset(others)
    ensures GraphOf(tasks) == GraphOf(others)
  {
    SameElements(tasks, others);
    GraphKeys(tasks);
    GraphKeys(others);
    forall n | n in GraphOf(tasks)
      ensures n in GraphOf(others) && GraphOf(tasks)[n] == GraphOf(others)[n]
    {
      var i :| 0 <= i < |tasks| && Names(tasks)[i] == n;
      assert tasks[i] in others;
      var j :| 0 <= j < |others| && others[j] == tasks[i];
      GraphAt(tasks, i);
      GraphAt(others, j);
    }
    forall n | n in GraphOf(others) ensures n in GraphOf(tasks) {
      var j :| 0 <= j < |others| && Names(others)[j] == n;
      assert others[j] in tasks;
      var i :| 0 <= i < |tasks| && tasks[i] == others[j];
      assert Names(tasks)[i] == n;
    }
  }

  /** The result does not depend on the order in which the task map was iterated, cyclic or not. */
  lemma TaskOrderUnique(tasks: seq<JobTask>, others: seq<JobTask>, r: seq<JobTask>, s: seq<JobTask>)
    requires UniqueNames(tasks) && UniqueNames(others) && multiset(tasks) == multiset(others)
    requires IsTaskOrder(tasks, r) && IsTaskOrder(others, s)
    ensures r == s
  {
    SameGraph(tasks, others);
    var t :| KahnOrder(GraphOf(tasks), t) && Sorted(Name, t, r);
    var u :| KahnOrder(GraphOf(others), u) && Sorted(Name, u, s);
    KahnUnique(GraphOf(tasks), t, u, 0);
    SortedUnique(Name, t, r, s);
  }

  /** Whenever the tasks can be ordered at all, the result is the least topological order of their names. */
  lemma TaskOrderLeast(tasks: seq<JobTask>, sorted: seq<JobTask>, u: seq<string>)
    requires UniqueNames(tasks) && IsTaskOrder(tasks, sorted)
    requires IsTopological(GraphOf(tasks), u)
    ensures IsTopological(GraphOf(tasks), Names(sorted))
    ensures Names(sorted) == u || LexLess(Names(sorted), u)
  {
    var g := GraphOf(tasks);
    var t :| KahnOrder(g, t) && Sorted(Name, t, sorted);
    KahnTopological(g, t, u);
    KahnLeast(g, t, u, 0);
    SortedByRank(tasks, sorted, t);
  }

  // With all names ranked, sorting by rank reproduces the ranking.
  lemma SortedByRank(tasks: seq<JobTask>, sorted: seq<JobTask>, t: seq<string>)
    requires UniqueNames(tasks) && multiset(sorted) == multiset(tasks)
    requires IsTopological(GraphOf(tasks), t) && Sorted(Name, t, sorted)
    ensures Names(sorted) == t
  {
    SameElements(tasks, sorted);
    GraphKeys(tasks);
    var names := Names(sorted);
    var id := (n: string) => n;
    forall i, j | 0 <= i < j < |names| ensures Before(t, id(names[i]), id(names[j])) {
      assert Before(t, Name(sorted[i]), Name(sorted[j]));
    }
    forall i, j | 0 <= i < j < |t| ensures Before(t, id(t[i]), id(t[j])) {
      RankAt(t, i);
      RankAt(t, j);
    }
    assert NoDup(names) by {
      forall i, j | 0 <= i < j < |names| ensures names[i] != names[j] {
        assert Before(t, id(names[i]), id(names[j]));
        BeforeTotal(t, names[i], names[j]);
      }
    }
    forall n ensures n in names <==> n in t {
      if n in names {
        var i :| 0 <= i < |sorted| && names[i] == n;
        assert sorted[i] in tasks;
        var j :| 0 <= j < |tasks| && tasks[j] == sorted[i];
        assert Names(tasks)[j] == n;
        assert n in GraphOf(tasks) && n in Elems(t);
      }
      if n in t {
        assert n in Elems(t) && n in GraphOf(tasks);
        var i :| 0 <= i < |tasks| && Names(tasks)[i] == n;
        assert tasks[i] in sorted;
        var j :| 0 <= j < |sorted| && sorted[j] == tasks[i];
        assert names[j] == n;
      }
    }
    NoDupMultiset(names, t);
    SortedUnique(id, t, names, t);
  }

  lemma RankAt(t: seq<string>, k: nat)
    requires NoDup(t) && k < |t|
    ensures Rank(t, t[k]) == k
  {
  }

  // ---------------------------------------------------------------------------------------------
  // The algorithm
  // ---------------------------------------------------------------------------------------------

  /** `incoming` and `queue` while `done` has been taken from the queue. */
  ghost predicate KahnState(g: Graph, incoming: Graph, queue: seq<string>, done: seq<string>) {
    && Greedy(g, done)
    && incoming.Keys == g.Keys
    && (forall n | n in g.Keys :: incoming[n] == g[n] - Elems(done))
    && NoDup(queue) && Elems(queue) == Available(g, done)
  }

  function SortNames(names: seq<string>): seq<string> {
    Sort((n: string) => n, [], names)
  }

  lemma SortNamesOk(names: seq<string>)
    requires NoDup(names)
    ensures var r := SortNames(names);
      NoDup(r) && Elems(r) == Elems(names) && (forall j | 0 < j < |r| :: Less(r[0], r[j]))
  {
    var id := (n: string) => n;
    var r := SortNames(names);
    SortSorted(id, [], names);
    assert r == Sort(id, [], names);
    forall i, j | 0 <= i < j < |r| ensures r[i] != r[j] && Less(r[i], r[j]) {
      assert Before([], id(r[i]), id(r[j]));
      LessTrichotomy(r[i], r[j]);
      LessTrichotomy(r[i], r[i]);
    }
    forall n ensures n in r <==> n in names {
      assert n in multiset(r) <==> n in multiset(names);
    }
  }

  // Taking the head of the sorted queue is the greedy choice.
  lemma TakeHead(g: Graph, done: seq<string>, n: string)
    requires Greedy(g, done) && LeastAvailable(g, done, n)
    ensures Greedy(g, done + [n])
    ensures Elems(done + [n]) == Elems(done) + {n}
    ensures forall m | m in g.Keys :: m in Available(g, done + [n]) <==>
      (m in Available(g, done) && m != n) || (n in g[m] && g[m] - Elems(done) - {n} == {} )
  {
    var t := done + [n];
    assert Elems(t) == Elems(done) + {n};
    forall k | 0 <= k < |t| ensures LeastAvailable(g, t[..k], t[k]) {
      if k < |done| {
        assert t[..k] == done[..k];
      } else {
        assert t[..k] == done;
      }
    }
    forall m | m in t ensures m in g.Keys ==> n !in g[m] {
      var k :| 0 <= k < |t| && t[k] == m;
      assert LeastAvailable(g, t[..k], m);
      assert g[m] <= Elems(t[..k]) <= Elems(done);
    }
  }

  method BuildGraph(tasks: seq<JobTask>) returns (incoming: Graph, queue: seq<string>)
    requires UniqueNames(tasks)
    ensures incoming == GraphOf(tasks)
    ensures KahnState(GraphOf(tasks), incoming, queue, [])
  {
    incoming, queue := map[], [];
    for i := 0 to |tasks|
      invariant incoming == GraphOf(tasks[..i])
      invariant NoDup(queue)
      invariant forall n :: n in queue <==> n in incoming && incoming[n] == {}
    {
      var inc := set d | d in tasks[i].def.dependsOn;
      assert tasks[..i + 1][..i] == tasks[..i];
      assert tasks[i].name !in incoming by {
        GraphKeys(tasks[..i]);
        forall j | 0 <= j < i ensures Names(tasks[..i])[j] != tasks[i].name {
          assert Name(tasks[j]) != Name(tasks[i]);
        }
      }
      incoming := incoming[tasks[i].name := inc];
      if inc == {} {
        queue := queue + [tasks[i].name];
      }
    }
    assert tasks[..|tasks|] == tasks;
    var g := GraphOf(tasks);
    forall n | n in g.Keys ensures g[n] - Elems([]) == g[n] {
    }
    assert Elems(queue) == Available(g, []);
  }

  method RemoveEdges(n: string, incoming: Graph, queue: seq<string>) returns (incoming': Graph, queue': seq<string>)
    requires NoDup(queue)
    requires forall m | m in incoming && n in incoming[m] :: m !in queue
    ensures incoming' == map m | m in incoming :: incoming[m] - {n}
    ensures NoDup(queue')
    ensures forall m :: m in queue' <==> m in queue || (m in incoming && n in incoming[m] && incoming[m] - {n} == {})
  {
    incoming', queue' := incoming, queue;
    var todo := incoming.Keys;
    while todo != {}
      invariant todo <= incoming.Keys == incoming'.Keys
      invariant forall m | m in incoming :: incoming'[m] == if m in todo then incoming[m] else incoming[m] - {n}
      invariant NoDup(queue')
      invariant forall m :: m in queue' <==>
        m in queue || (m in incoming && m !in todo && n in incoming[m] && incoming[m] - {n} == {})
    {
      var m :| m in todo;
      todo := todo - {m};
      if n in incoming'[m] {
        incoming' := incoming'[m := incoming'[m] - {n}];
        if incoming'[m] == {} {
          queue' := queue' + [m];
        }
      } else {
        assert incoming[m] - {n} == incoming[m];
      }
    }
  }

  lemma HeadIsLeast(g: Graph, done: seq<string>, queue: seq<string>)
    requires queue != [] && Elems(queue) == Available(g, done)
    requires forall j | 0 < j < |queue| :: Less(queue[0], queue[j])
    ensures LeastAvailable(g, done, queue[0])
  {
  }

  lemma TailElems(queue: seq<string>)
    requires queue != [] && NoDup(queue)
    ensures NoDup(queue[1..]) && Elems(queue[1..]) == Elems(queue) - {queue[0]}
  {
  }

  // A name is queued now if it was queued, or has just lost its last edge.
  lemma NextAvailable(g: Graph, done: seq<string>, n: string, rest: seq<string>, next: seq<string>)
    requires Greedy(g, done) && LeastAvailable(g, done, n) && Elems(rest) == Available(g, done) - {n}
    requires forall m :: m in next <==> m in rest || (m in g && n in g[m] && g[m] - Elems(done) - {n} == {})
    ensures Elems(next) == Available(g, done + [n])
  {
    hide Greedy, LeastAvailable;
    TakeHead(g, done, n);
    hide Available;
    forall m ensures m in Elems(next) <==> m in Available(g, done + [n]) {
      assert m in Elems(rest) <==> m in Available(g, done) && m != n;
      AvailableIn(g, done + [n], m);
      AvailableIn(g, done, m);
    }
  }

  lemma AvailableIn(g: Graph, done: seq<string>, n: string)
    ensures n in Available(g, done) ==> n in g.Keys
  {
  }

  // The edges that are left after removing those from `n`.
  lemma NextIncoming(g: Graph, incoming: Graph, done: seq<string>, n: string)
    requires incoming.Keys == g.Keys && n !in done
    requires forall m | m in g.Keys :: incoming[m] == g[m] - Elems(done)
    ensures forall m | m in g.Keys :: incoming[m] - {n} == g[m] - Elems(done + [n])
    ensures forall m | m in g.Keys :: n in incoming[m] <==> n in g[m]
  {
    assert Elems(done + [n]) == Elems(done) + {n};
  }

  lemma KahnStep(g: Graph, incoming: Graph, rest: seq<string>, done: seq<string>, n: string, next: seq<string>)
    requires Greedy(g, done) && LeastAvailable(g, done, n)
    requires incoming.Keys == g.Keys
    requires forall m | m in g.Keys :: incoming[m] == g[m] - Elems(done)
    requires Elems(rest) == Available(g, done) - {n}
    requires NoDup(next)
    requires forall m :: m in next <==> m in rest || (m in incoming && n in incoming[m] && incoming[m] - {n} == {})
    ensures KahnState(g, map m | m in incoming :: incoming[m] - {n}, next, done + [n])
    ensures |done + [n]| <= |g.Keys|
  {
    NotDone(g, done, n);
    hide Greedy, Available, LeastAvailable, NoDup;
    TakeHead(g, done, n);
    GreedyNoDup(g, done + [n]);
    NextIncoming(g, incoming, done, n);
    hide Elems;
    NextAvailable(g, done, n, rest, next);
  }

  lemma NotDone(g: Graph, done: seq<string>, n: string)
    requires LeastAvailable(g, done, n)
    ensures n !in done
  {
  }

  lemma WaitsForNext(g: Graph, done: seq<string>, n: string)
    requires LeastAvailable(g, done, n)
    ensures forall m | m in g.Keys && n in g[m] :: m !in Available(g, done)
  {
  }

  /** Takes the least queued name, as long as there is one, and gives it the next rank. */
  method Ranks(tasks: seq<JobTask>) returns (order: map<string, nat>)
    requires UniqueNames(tasks)
    ensures exists t :: KahnOrder(GraphOf(tasks), t) && RanksAre(order, t)
  {
    ghost var g := GraphOf(tasks);
    ghost var done;
    var incoming, queue := BuildGraph(tasks);
    SortNamesOk(queue);
    queue := SortNames(queue);
    order, done := map[], [];
    var i := 0;
    while queue != []
      invariant KahnState(g, incoming, queue, done)
      invariant forall j | 0 < j < |queue| :: Less(queue[0], queue[j])
      invariant i == |done| && Assigned(order, done)
      invariant |done| <= |g.Keys|
      decreases |g.Keys| - |done|
    {
      var n := queue[0];
      HeadIsLeast(g, done, queue);
      WaitsForNext(g, done, n);
      TailElems(queue);
      Assign(order, done, n);
      order := order[n := i];
      i := i + 1;
      ghost var rest, before := queue[1..], incoming;
      incoming, queue := RemoveEdges(n, incoming, queue[1..]);
      KahnStep(g, before, rest, done, n, queue);
      done := done + [n];
      SortNamesOk(queue);
      queue := SortNames(queue);
    }
    GreedyNoDup(g, done);
    AssignedRanks(order, done);
    assert RanksAre(order, done);
  }

  /** The rank of each name is its position. */
  ghost predicate RanksAre(order: map<string, nat>, t: seq<string>) {
    forall n :: RankOf(order, n) == Rank(t, n)
  }

  ghost predicate Assigned(order: map<string, nat>, done: seq<string>) {
    order.Keys == Elems(done) && forall k | 0 <= k < |done| :: order[done[k]] == k
  }

  lemma Assign(order: map<string, nat>, done: seq<string>, n: string)
    requires Assigned(order, done) && n !in done
    ensures Assigned(order[n := |done|], done + [n])
  {
  }

  lemma AssignedRanks(order: map<string, nat>, done: seq<string>)
    requires Assigned(order, done) && NoDup(done)
    ensures forall n :: RankOf(order, n) == Rank(done, n)
  {
  }

  /** tmpNodes[n].order, whose zero value stands for a name that never left the queue. */
  function RankOf(order: map<string, nat>, n: string): nat {
    if n in order then order[n] else 0
  }

  method SortTasksByDependencies(jt: array<JobTask>)
    requires UniqueNames(jt[..])
    modifies jt
    ensures IsTaskOrder(old(jt[..]), jt[..])
  {
    var order := Ranks(jt[..]);
    ghost var done :| KahnOrder(GraphOf(jt[..]), done) && RanksAre(order, done);
    var sorted := SortByRank(jt[..], order, done);
    assert |sorted| == |multiset(sorted)| == |multiset(jt[..])| == jt.Length;
    forall i | 0 <= i < jt.Length {
      jt[i] := sorted[i];
    }
    assert jt[..] == sorted;
  }

  predicate RanksBefore(order: map<string, nat>, a: string, b: string) {
    if RankOf(order, a) == RankOf(order, b) then Less(a, b) else RankOf(order, a) < RankOf(order, b)
  }

  lemma RanksBeforeIsBefore(order: map<string, nat>, done: seq<string>, a: string, b: string)
    requires forall n :: RankOf(order, n) == Rank(done, n)
    ensures RanksBefore(order, a, b) == Before(done, a, b)
  {
  }

  // Putting x between the smaller and the larger elements, for any order `lt`.
  lemma InsertAtBy<T>(lt: (T, T) -> bool, s: seq<T>, x: T, k: nat)
    requires k <= |s|
    requires forall i, j | 0 <= i < j < |s| :: lt(s[i], s[j])
    requires forall j | 0 <= j < k :: lt(s[j], x)
    requires forall j | k <= j < |s| :: lt(x, s[j])
    ensures var r := s[..k] + [x] + s[k..]; forall i, j | 0 <= i < j < |r| :: lt(r[i], r[j])
    ensures multiset(s[..k] + [x] + s[k..]) == multiset(s) + multiset{x}
  {
    assert s == s[..k] + s[k..];
    var r := s[..k] + [x] + s[k..];
    forall i, j | 0 <= i < j < |r| ensures lt(r[i], r[j]) {
      assert i < k ==> r[i] == s[i];
      assert i > k ==> r[i] == s[i - 1];
      assert j < k ==> r[j] == s[j];
      assert j > k ==> r[j] == s[j - 1];
    }
  }

  lemma InsertAt(t: seq<string>, s: seq<JobTask>, x: JobTask, k: nat)
    requires k <= |s| && Sorted(Name, t, s)
    requires forall j | k <= j < |s| :: Before(t, Name(x), Name(s[j]))
    requires k > 0 ==> Before(t, Name(s[k - 1]), Name(x))
    ensures var r := s[..k] + [x] + s[k..]; Sorted(Name, t, r) && multiset(r) == multiset(s) + multiset{x}
  {
    hide Before;
    var lt := (a: JobTask, b: JobTask) => Before(t, Name(a), Name(b));
    forall j | 0 <= j < k ensures Before(t, Name(s[j]), Name(x)) {
      if j < k - 1 {
        BeforeTransitive(t, Name(s[j]), Name(s[k - 1]), Name(x));
      }
    }
    InsertAtBy(lt, s, x, k);
    var r := s[..k] + [x] + s[k..];
    forall i, j | 0 <= i < j < |r| ensures Before(t, Name(r[i]), Name(r[j])) {
      assert lt(r[i], r[j]);
    }
  }

  lemma OtherName(tasks: seq<JobTask>, i: nat, s: seq<JobTask>, k: nat)
    requires UniqueNames(tasks) && i < |tasks| && multiset(s) == multiset(tasks[..i]) && k < |s|
    ensures Name(s[k]) != Name(tasks[i])
  {
    assert s[k] in multiset(tasks[..i]);
    var m :| 0 <= m < i && tasks[..i][m] == s[k];
    assert Name(tasks[m]) != Name(tasks[i]);
  }

  // sort.Slice with the comparison on ranks, as an insertion sort.
  method SortByRank(tasks: seq<JobTask>, order: map<string, nat>, ghost done: seq<string>)
    returns (sorted: seq<JobTask>)
    requires UniqueNames(tasks)
    requires forall n :: RankOf(order, n) == Rank(done, n)
    ensures multiset(sorted) == multiset(tasks)
    ensures Sorted(Name, done, sorted)
  {
    hide Before, RanksBefore, Rank, RankOf, Less, Sorted;
    sorted := [];
    assert Sorted(Name, done, sorted) by { NoneSorted(done); }
    for i := 0 to |tasks|
      invariant multiset(sorted) == multiset(tasks[..i])
      invariant Sorted(Name, done, sorted)
    {
      assert tasks[..i + 1] == tasks[..i] + [tasks[i]];
      sorted := InsertByRank(tasks, i, order, done, sorted);
    }
    assert tasks[..|tasks|] == tasks;
  }

  lemma NoneSorted(t: seq<string>)
    ensures Sorted(Name, t, [])
  {
  }

  method InsertByRank(tasks: seq<JobTask>, i: nat, order: map<string, nat>, ghost done: seq<string>, s: seq<JobTask>)
    returns (r: seq<JobTask>)
    requires UniqueNames(tasks) && i < |tasks| && multiset(s) == multiset(tasks[..i])
    requires forall n :: RankOf(order, n) == Rank(done, n)
    requires Sorted(Name, done, s)
    ensures Sorted(Name, done, r) && multiset(r) == multiset(s) + multiset{tasks[i]}
  {
    hide Before, RanksBefore;
    var x, k := tasks[i], |s|;
    while k > 0 && RanksBefore(order, x.name, s[k - 1].name)
      invariant 0 <= k <= |s|
      invariant forall j | k <= j < |s| :: Before(done, Name(x), Name(s[j]))
    {
      RanksBeforeIsBefore(order, done, x.name, s[k - 1].name);
      k := k - 1;
    }
    if k > 0 {
      RanksBeforeIsBefore(order, done, x.name, s[k - 1].name);
      OtherName(tasks, i, s, k - 1);
      BeforeTotal(done, Name(s[k - 1]), Name(x));
    }
    InsertAt(done, s, x, k);
    r := s[..k] + [x] + s[k..];
  }

  // ---------------------------------------------------------------------------------------------
  // The tasks of a new job
  // ---------------------------------------------------------------------------------------------

  /** One waiting record for each task of the definition. */
  ghost predicate TaskRecords(tasks: map<string, TaskDef>, jt: seq<JobTask>) {
    UniqueNames(jt) && forall t :: t in jt <==> t.name in tasks && t == NewTask(t.name, tasks[t.name])
  }

  lemma UniqueNamesNoDup(jt: seq<JobTask>)
    requires UniqueNames(jt)
    ensures NoDup(jt)
  {
  }

  lemma UniqueNamesStay(jt: seq<JobTask>, sorted: seq<JobTask>)
    requires UniqueNames(jt) && multiset(sorted) == multiset(jt)
    ensures UniqueNames(sorted)
  {
    UniqueNamesNoDup(jt);
    MultisetNoDup(jt, sorted);
    SameElements(sorted, jt);
    forall i, j | 0 <= i < j < |sorted| ensures Name(sorted[i]) != Name(sorted[j]) {
      assert sorted[i] in jt && sorted[j] in jt;
      var k :| 0 <= k < |jt| && jt[k] == sorted[i];
      var m :| 0 <= m < |jt| && jt[m] == sorted[j];
      assert k < m ==> Name(jt[k]) != Name(jt[m]);
      assert m < k ==> Name(jt[m]) != Name(jt[k]);
    }
  }

  /** buildJobTasks: the task map is iterated in any order. */
  method BuildJobTasks(tasks: map<string, TaskDef>) returns (result: seq<JobTask>)
    ensures TaskRecords(tasks, result) && IsTaskOrder(result, result)
  {
    var todo, list := tasks.Keys, [];
    while todo != {}
      invariant todo <= tasks.Keys
      invariant UniqueNames(list)
      invariant forall t :: t in list <==> t.name in tasks && t.name !in todo && t == NewTask(t.name, tasks[t.name])
    {
      var name :| name in todo;
      AppendUnique(list, NewTask(name, tasks[name]));
      list := list + [NewTask(name, tasks[name])];
      todo := todo - {name};
    }
    var jt := new JobTask[|list|](i requires 0 <= i < |list| => list[i]);
    assert jt[..] == list;
    SortTasksByDependencies(jt);
    result := jt[..];
    UniqueNamesStay(list, result);
    SameElements(list, result);
    SameGraph(list, result);
  }

  lemma AppendUnique(list: seq<JobTask>, t: JobTask)
    requires UniqueNames(list) && forall u | u in list :: u.name != t.name
    ensures UniqueNames(list + [t])
  {
  }

  /** Two schedulings of the same definition order its tasks in the same way. */
  lemma SameTaskList(tasks: map<string, TaskDef>, r: seq<JobTask>, s: seq<JobTask>)
    requires TaskRecords(tasks, r) && IsTaskOrder(r, r) && TaskRecords(tasks, s) && IsTaskOrder(s, s)
    ensures r == s
  {
    UniqueNamesNoDup(r);
    UniqueNamesNoDup(s);
    NoDupMultiset(r, s);
    TaskOrderUnique(r, s, r, s);
  }
}
