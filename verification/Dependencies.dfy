/**
  wt_manifest_validate_dependencies: every dependency names a service of another
  partition, and the dependency graph has no cycle.
  */
module Dependencies {
  import opened Handles
  import opened Manifest

  /** Partition i declares a dependency on a service of partition j. */
  predicate Edge(ps: seq<PartitionDesc>, i: nat, j: nat)
    requires i < |ps|
  {
    exists d :: 0 <= d < |ps[i].dependencies| && Owner(ps, ps[i].dependencies[d]) == Some(j)
  }

  predicate ResolvesAt(ps: seq<PartitionDesc>, i: nat, d: nat)
    requires i < |ps| && d < |ps[i].dependencies|
  {
    Owner(ps, ps[i].dependencies[d]).Some? && Owner(ps, ps[i].dependencies[d]) != Some(i)
  }

  ghost predicate Resolves(ps: seq<PartitionDesc>) {
    forall i, d :: 0 <= i < |ps| && 0 <= d < |ps[i].dependencies| ==> ResolvesAt(ps, i, d)
  }

  /** A rank that falls along every edge. */
  ghost predicate Ranks(ps: seq<PartitionDesc>, rank: seq<nat>) {
    |rank| == |ps| && forall i, j :: 0 <= i < |ps| && 0 <= j < |ps| && Edge(ps, i, j) ==> rank[j] < rank[i]
  }

  ghost predicate Walk(ps: seq<PartitionDesc>, w: seq<nat>) {
    && (forall n :: 0 <= n < |w| ==> w[n] < |ps|)
    && (forall n :: 0 <= n < |w| - 1 ==> Edge(ps, w[n], w[n + 1]))
  }

  ghost predicate Cycle(ps: seq<PartitionDesc>, w: seq<nat>) {
    Walk(ps, w) && |w| >= 2 && w[0] == w[|w| - 1]
  }

  lemma {:induction false} RankFalls(ps: seq<PartitionDesc>, rank: seq<nat>, w: seq<nat>)
    requires Ranks(ps, rank) && Walk(ps, w) && |w| >= 2
    ensures rank[w[|w| - 1]] < rank[w[0]]
  {
    var w' := w[..|w| - 1];
    assert Edge(ps, w[|w| - 2], w[|w| - 1]);
    if |w| > 2 {
      assert Walk(ps, w') by {
        forall n | 0 <= n < |w'| - 1 ensures Edge(ps, w'[n], w'[n + 1]) {
          assert Edge(ps, w[n], w[n + 1]);
        }
      }
      RankFalls(ps, rank, w');
    }
  }

  /** Ranked graphs have no cycle. */
  lemma RankExcludesCycle(ps: seq<PartitionDesc>, rank: seq<nat>, w: seq<nat>)
    requires Ranks(ps, rank)
    ensures !Cycle(ps, w)
  {
    if Cycle(ps, w) {
      RankFalls(ps, rank, w);
    }
  }

  // ---------------------------------------------------------------- a stuck set contains a cycle

  /** Partition i depends on a partition that is not gone. */
  ghost predicate Waits(ps: seq<PartitionDesc>, gone: set<nat>, i: nat)
    requires i < |ps|
  {
    exists j :: 0 <= j < |ps| && j !in gone && Edge(ps, i, j)
  }

  /** Every partition that is left still waits for one that is left. */
  ghost predicate Stuck(ps: seq<PartitionDesc>, gone: set<nat>, n: nat)
    requires n <= |ps|
  {
    forall i {:trigger Waits(ps, gone, i)} :: 0 <= i < n && i !in gone ==> Waits(ps, gone, i)
  }

  /** A walk of n edges that never meets a removed partition. */
  lemma {:induction false} StuckWalk(ps: seq<PartitionDesc>, gone: set<nat>, start: nat, n: nat) returns (w: seq<nat>)
    requires Stuck(ps, gone, |ps|) && start < |ps| && start !in gone
    ensures |w| == n + 1 && Walk(ps, w) && w[n] !in gone
  {
    if n == 0 {
      w := [start];
    } else {
      var w' := StuckWalk(ps, gone, start, n - 1);
      assert Waits(ps, gone, w'[n - 1]);
      var j :| 0 <= j < |ps| && j !in gone && Edge(ps, w'[n - 1], j);
      w := w' + [j];
      forall k | 0 <= k < |w| - 1 ensures Edge(ps, w[k], w[k + 1]) {
        if k < n - 1 {
          assert Edge(ps, w'[k], w'[k + 1]);
        }
      }
    }
  }

  /** More positions than values: some value repeats. */
  lemma {:induction false} Pigeonhole(w: seq<nat>, values: set<nat>) returns (a: nat, b: nat)
    requires |w| > |values| && forall k :: 0 <= k < |w| ==> w[k] in values
    ensures a < b < |w| && w[a] == w[b]
    decreases |w|
  {
    var last := |w| - 1;
    if k :| 0 <= k < last && w[k] == w[last] {
      a, b := k, last;
    } else {
      a, b := Pigeonhole(w[..last], values - {w[last]});
    }
  }

  lemma StuckHasCycle(ps: seq<PartitionDesc>, gone: set<nat>, start: nat) returns (w: seq<nat>)
    requires Stuck(ps, gone, |ps|) && start < |ps| && start !in gone
    ensures Cycle(ps, w)
  {
    var walk := StuckWalk(ps, gone, start, |ps|);
    var values := set x | x in walk;
    BelowCount(values, |ps|);
    var a, b := Pigeonhole(walk, values);
    w := walk[a..b + 1];
    forall n | 0 <= n < |w| - 1 ensures Edge(ps, w[n], w[n + 1]) {
      assert Edge(ps, walk[a + n], walk[a + n + 1]);
    }
  }

  // ---------------------------------------------------------------- the validator

  /** Edges into removed partitions are gone; the others are the declared ones. */
  ghost predicate EdgesLeft(ps: seq<PartitionDesc>, edges: array2<bool>, gone: set<nat>)
    requires edges.Length0 == edges.Length1 == MAX_PARTITIONS && |ps| <= MAX_PARTITIONS
    reads edges
  {
    forall a, b :: 0 <= a < |ps| && 0 <= b < |ps| ==> (edges[a, b] <==> Edge(ps, a, b) && b !in gone)
  }

  /** order lists the removed partitions; each depends only on partitions listed before it. */
  ghost predicate Ordered(ps: seq<PartitionDesc>, order: seq<nat>) {
    && (forall n :: 0 <= n < |order| ==> order[n] < |ps|)
    && (forall n, n' :: 0 <= n < n' < |order| ==> order[n] != order[n'])
    && (forall n, j :: 0 <= n < |order| && 0 <= j < |ps| && Edge(ps, order[n], j) ==> j in order[..n])
  }

  ghost function RankOf(order: seq<nat>, i: nat): (r: nat)
    ensures i in order ==> r < |order| && order[r] == i
  {
    if i in order then var n :| 0 <= n < |order| && order[n] == i; n else 0
  }

  lemma OrderRanks(ps: seq<PartitionDesc>, order: seq<nat>)
    requires Ordered(ps, order) && forall i :: 0 <= i < |ps| ==> i in order
    ensures exists rank :: Ranks(ps, rank)
  {
    var rank := seq(|ps|, i requires 0 <= i < |ps| => RankOf(order, i));
    forall i, j | 0 <= i < |ps| && 0 <= j < |ps| && Edge(ps, i, j) ensures rank[j] < rank[i] {
      var n := RankOf(order, i);
      assert j in order[..n];
      var m :| 0 <= m < n && order[m] == j;
      assert order[RankOf(order, j)] == order[m];
    }
    assert Ranks(ps, rank);
  }

  /** A partition whose remaining dependencies are all listed may be listed next. */
  lemma Extend(ps: seq<PartitionDesc>, order: seq<nat>, i: nat)
    requires Ordered(ps, order) && i < |ps| && i !in order
    requires forall j :: 0 <= j < |ps| && Edge(ps, i, j) ==> j in order
    ensures Ordered(ps, order + [i])
  {
    var order' := order + [i];
    forall n, j | 0 <= n < |order'| && 0 <= j < |ps| && Edge(ps, order'[n], j) ensures j in order'[..n] {
      if n < |order| {
        assert j in order[..n];
        assert order'[..n] == order[..n];
      } else {
        assert order'[..n] == order;
      }
    }
  }

  /** A set of numbers below n has n elements exactly when it is all of them. */
  lemma {:induction false} BelowCount(s: set<nat>, n: nat)
    requires forall a :: a in s ==> a < n
    ensures |s| <= n
    ensures |s| == n <==> forall a :: 0 <= a < n ==> a in s
  {
    if n > 0 {
      var s' := s - {n - 1};
      BelowCount(s', n - 1);
      assert s == if n - 1 in s then s' + {n - 1} else s';
    }
  }

  method CollectEdges(ps: seq<PartitionDesc>, edges: array2<bool>) returns (ok: bool)
    requires |ps| <= MAX_PARTITIONS && edges.Length0 == edges.Length1 == MAX_PARTITIONS
    requires forall a, b :: 0 <= a < MAX_PARTITIONS && 0 <= b < MAX_PARTITIONS ==> !edges[a, b]
    modifies edges
    ensures ok <==> Resolves(ps)
    ensures ok ==> EdgesLeft(ps, edges, {})
  {
    var i := 0;
    while i < |ps|
      invariant 0 <= i <= |ps|
      invariant forall a, d :: 0 <= a < i && 0 <= d < |ps[a].dependencies| ==> ResolvesAt(ps, a, d)
      invariant forall a, b :: 0 <= a < |ps| && 0 <= b < |ps| ==> (edges[a, b] <==> a < i && Edge(ps, a, b))
    {
      var d := 0;
      while d < |ps[i].dependencies|
        invariant 0 <= d <= |ps[i].dependencies|
        invariant forall e :: 0 <= e < d ==> ResolvesAt(ps, i, e)
        invariant forall a, b :: 0 <= a < |ps| && 0 <= b < |ps| && a != i ==> (edges[a, b] <==> a < i && Edge(ps, a, b))
        invariant forall b :: 0 <= b < |ps| ==>
          (edges[i, b] <==> exists e :: 0 <= e < d && Owner(ps, ps[i].dependencies[e]) == Some(b))
      {
        var target := Owner(ps, ps[i].dependencies[d]);
        if target == None || target == Some(i) {
          assert !ResolvesAt(ps, i, d);
          return false;
        }
        edges[i, target.value] := true;
        d := d + 1;
      }
      i := i + 1;
    }
    return true;
  }

  /** One partition of the elimination pass: does i still depend on a partition that is left? */
  method HasEdge(ps: seq<PartitionDesc>, edges: array2<bool>, removed: array<bool>, i: nat, ghost gone: set<nat>)
    returns (found: bool)
    requires |ps| <= MAX_PARTITIONS && i < |ps| && removed.Length == MAX_PARTITIONS
    requires edges.Length0 == edges.Length1 == MAX_PARTITIONS && EdgesLeft(ps, edges, gone)
    requires forall a :: 0 <= a < |ps| ==> (removed[a] <==> a in gone)
    ensures found <==> Waits(ps, gone, i)
  {
    var j := 0;
    while j < |ps|
      invariant 0 <= j <= |ps|
      invariant forall b :: 0 <= b < j ==> b in gone || !Edge(ps, i, b)
    {
      if !removed[j] && edges[i, j] {
        return true;
      }
      j := j + 1;
    }
    return false;
  }

  /** Partition i is removed: nothing depends on it any more. */
  method ClearColumn(ps: seq<PartitionDesc>, edges: array2<bool>, i: nat, ghost gone: set<nat>)
    requires |ps| <= MAX_PARTITIONS && i < |ps|
    requires edges.Length0 == edges.Length1 == MAX_PARTITIONS && EdgesLeft(ps, edges, gone)
    modifies edges
    ensures EdgesLeft(ps, edges, gone + {i})
  {
    var k := 0;
    while k < |ps|
      invariant 0 <= k <= |ps|
      invariant forall a, b :: 0 <= a < |ps| && 0 <= b < |ps| ==>
        (edges[a, b] <==> Edge(ps, a, b) && b !in gone && (b == i ==> a >= k))
    {
      edges[k, i] := false;
      k := k + 1;
    }
  }

  /** The state of the elimination: order lists the removed partitions, gone is their set. */
  ghost predicate Eliminating(ps: seq<PartitionDesc>, edges: array2<bool>, removed: array<bool>, order: seq<nat>, gone: set<nat>)
    requires |ps| <= MAX_PARTITIONS && edges.Length0 == edges.Length1 == removed.Length == MAX_PARTITIONS
    reads edges, removed
  {
    && Ordered(ps, order) && (forall a :: a in gone <==> a in order)
    && EdgesLeft(ps, edges, gone)
    && (forall a :: 0 <= a < |ps| ==> (removed[a] <==> a in gone))
  }

  /** Removes partition i if it waits for nothing that is left. */
  method TryRemove(ps: seq<PartitionDesc>, edges: array2<bool>, removed: array<bool>, i: nat,
                   ghost order: seq<nat>, ghost gone: set<nat>)
    returns (hit: bool, ghost order': seq<nat>, ghost gone': set<nat>)
    requires |ps| <= MAX_PARTITIONS && edges.Length0 == edges.Length1 == removed.Length == MAX_PARTITIONS
    requires Eliminating(ps, edges, removed, order, gone) && i < |ps|
    modifies edges, removed
    ensures Eliminating(ps, edges, removed, order', gone')
    ensures hit ==> i !in gone && gone' == gone + {i} && |gone'| == |gone| + 1 <= |ps|
    ensures !hit ==> gone' == gone && (i in gone || Waits(ps, gone, i))
  {
    hit, order', gone' := false, order, gone;
    if !removed[i] {
      var hasEdge := HasEdge(ps, edges, removed, i, gone);
      if !hasEdge {
        hit := true;
        removed[i] := true;
        Extend(ps, order, i);
        order' := order + [i];
        ClearColumn(ps, edges, i, gone);
        gone' := gone + {i};
        BelowCount(gone', |ps|);
      }
    }
  }

  /** Passes over the partitions until a pass removes none. */
  method Eliminate(ps: seq<PartitionDesc>, edges: array2<bool>)
    returns (removedCount: nat, ghost order: seq<nat>, ghost gone: set<nat>)
    requires |ps| <= MAX_PARTITIONS
    requires edges.Length0 == edges.Length1 == MAX_PARTITIONS && EdgesLeft(ps, edges, {})
    modifies edges
    ensures removedCount == |gone| && Ordered(ps, order) && forall a :: a in gone <==> a in order
    ensures Stuck(ps, gone, |ps|)
  {
    var removed := new bool[MAX_PARTITIONS](_ => false);
    removedCount, order, gone := 0, [], {};
    var progress := true;
    while progress
      invariant removedCount == |gone| <= |ps| && Eliminating(ps, edges, removed, order, gone)
      invariant !progress ==> Stuck(ps, gone, |ps|)
      decreases |ps| - removedCount, progress
    {
      progress := false;
      ghost var before := removedCount;
      var i := 0;
      while i < |ps|
        invariant 0 <= i <= |ps|
        invariant removedCount == |gone| <= |ps| && Eliminating(ps, edges, removed, order, gone)
        invariant before <= removedCount && (progress ==> before < removedCount)
        invariant !progress ==> Stuck(ps, gone, i)
      {
        var hit;
        hit, order, gone := TryRemove(ps, edges, removed, i, order, gone);
        if hit {
          removedCount := removedCount + 1;
          progress := true;
        }
        i := i + 1;
      }
    }
  }

  /** VALID exactly for an acyclic graph of dependencies on other partitions, and the two errors tell the rest apart. */
  method ValidateDependencies(ps: seq<PartitionDesc>) returns (code: int)
    requires |ps| <= MAX_PARTITIONS
    ensures code in {VALID, ERROR_DEPENDENCY, ERROR_DEPENDENCY_CYCLE}
    ensures code == ERROR_DEPENDENCY <==> !Resolves(ps)
    ensures code == VALID <==> Resolves(ps) && exists rank :: Ranks(ps, rank)
    ensures code == ERROR_DEPENDENCY_CYCLE <==> Resolves(ps) && exists w :: Cycle(ps, w)
  {
    var edges := new bool[MAX_PARTITIONS, MAX_PARTITIONS]((_, _) => false);
    var ok := CollectEdges(ps, edges);
    if !ok {
      return ERROR_DEPENDENCY;
    }
    var removedCount, order, gone := Eliminate(ps, edges);
    BelowCount(gone, |ps|);
    if removedCount != |ps| {
      ghost var start :| 0 <= start < |ps| && start !in gone;
      ghost var w := StuckHasCycle(ps, gone, start);
      if rank :| Ranks(ps, rank) {
        RankExcludesCycle(ps, rank, w);
      }
      return ERROR_DEPENDENCY_CYCLE;
    }
    OrderRanks(ps, order);
    ghost var rank :| Ranks(ps, rank);
    forall w ensures !Cycle(ps, w) {
      RankExcludesCycle(ps, rank, w);
    }
    return VALID;
  }
}
