/** What a run of the sort must deliver, and the loop invariants of the algorithm that delivers it.

    The algorithm pops a FIFO queue of ready nodes. Every time it relaxes an edge it overwrites the
    target's depth with "popped depth + 1", with no maximum taken. The queue discipline makes the
    last write the largest one; `Fifo` is the invariant that says so. */
module KahnSort {
  import opened Seqs
  import opened DependencyGraph

  /** Dependencies come first. */
  ghost predicate Ordered(g: Nodes, order: seq<Id>) {
    forall i, d | 0 <= i < |order| && DependsOn(g, order[i], d) :: d in order[..i]
  }

  /** A repeat-free, dependency-first list of exactly the nodes whose chains are all finite. */
  ghost predicate KahnOrder(g: Nodes, order: seq<Id>) {
    && NoDup(order)
    && Ordered(g, order)
    && (forall n :: n in order <==> Finite(g, n))
  }

  /** The depth written for `n`: one more than the deepest sorted dependency, or nothing at all
      when no dependency was sorted. */
  ghost predicate DepthWritten(g: Nodes, order: seq<Id>, n: Id, before: nat, after: nat) {
    if exists d :: DependsOn(g, n, d) && d in order then
      && (forall d, k: nat | DependsOn(g, n, d) && d in order && LongestChain(g, d, k) :: k < after)
      && (exists d :: DependsOn(g, n, d) && d in order && after > 0 && LongestChain(g, d, after - 1))
    else
      after == before
  }

  /** `h` is `g` with the depths rewritten by a sort that returned `order`. */
  ghost predicate Redepthed(g: Nodes, order: seq<Id>, h: Nodes) {
    && h.Keys == g.Keys
    && (forall n | n in g :: h[n] == g[n].(depth := h[n].depth))
    && (forall n | n in g :: DepthWritten(g, order, n, g[n].depth, h[n].depth))
  }

  // ----- loop invariants -----

  ghost function Index(order: seq<Id>, n: Id): (i: nat)
    requires n in order
    ensures i < |order| && order[i] == n
  {
    var i :| 0 <= i < |order| && order[i] == n;
    i
  }

  /** Entries of a dependency list that are not yet done, with multiplicity. */
  function Pending(deps: seq<Id>, done: set<Id>): nat {
    if deps == [] then 0 else
      Pending(deps[..|deps| - 1], done) + (if deps[|deps| - 1] in done then 0 else 1)
  }

  lemma {:induction false} PendingNone(deps: seq<Id>)
    ensures Pending(deps, {}) == |deps|
  {
    if deps == [] {
    } else {
      PendingNone(deps[..|deps| - 1]);
    }
  }

  lemma {:induction false} PendingDone(deps: seq<Id>, done: set<Id>)
    ensures Pending(deps, done) == 0 <==> forall d | d in deps :: d in done
  {
    if deps == [] {
    } else {
      var init, last := deps[..|deps| - 1], deps[|deps| - 1];
      PendingDone(init, done);
      assert deps == init + [last];
    }
  }

  lemma {:induction false} PendingDrop(deps: seq<Id>, done: set<Id>, x: Id)
    requires x !in done
    ensures Pending(deps, done) == Pending(deps, done + {x}) + multiset(deps)[x]
  {
    if deps == [] {
    } else {
      PendingDrop(deps[..|deps| - 1], done, x);
      assert deps == deps[..|deps| - 1] + [deps[|deps| - 1]];
    }
  }

  function Adjacent(graph: map<Id, seq<Id>>, d: Id): seq<Id> {
    if d in graph then graph[d] else []
  }

  function Level(depth: map<Id, nat>, n: Id): nat {
    if n in depth then depth[n] else 0
  }

  /** The adjacency lists hold one entry per dependency entry. */
  ghost predicate EdgesOf(g: Nodes, graph: map<Id, seq<Id>>) {
    && (forall d, n | n in g :: multiset(Adjacent(graph, d))[n] == multiset(g[n].dependencies)[d])
    && (forall d, n | n in Adjacent(graph, d) :: n in g)
  }

  ghost predicate Degrees(g: Nodes, inDegree: map<Id, nat>, done: set<Id>) {
    && inDegree.Keys == g.Keys
    && (forall n | n in g :: inDegree[n] == Pending(g[n].dependencies, done))
  }

  /** Popped and queued nodes together are exactly those whose dependencies have all been popped. */
  ghost predicate Frontier(g: Nodes, result: seq<Id>, queue: seq<Id>) {
    && NoDup(result + queue)
    && (forall n :: n in result + queue <==> n in g && forall d | d in g[n].dependencies :: d in result)
    && Ordered(g, result)
  }

  /** Each written depth is one more than the deepest popped dependency. */
  ghost predicate Depths(g: Nodes, result: seq<Id>, depth: map<Id, nat>) {
    && (forall n :: n in depth <==> exists d :: DependsOn(g, n, d) && d in result)
    && (forall n, d | n in depth && DependsOn(g, n, d) && d in result :: Level(depth, d) < depth[n])
    && (forall n {:trigger Tight(g, result, depth, n)} | n in depth :: Tight(g, result, depth, n))
  }

  ghost predicate Tight(g: Nodes, result: seq<Id>, depth: map<Id, nat>, n: Id)
    requires n in depth
  {
    exists d :: DependsOn(g, n, d) && d in result && depth[n] == Level(depth, d) + 1
  }

  ghost predicate Monotone(s: seq<Id>, depth: map<Id, nat>) {
    forall i, j | 0 <= i <= j < |s| :: Level(depth, s[i]) <= Level(depth, s[j])
  }

  /** Levels never decrease along popped-then-queued order, and the queue spans at most one level. */
  ghost predicate Fifo(result: seq<Id>, queue: seq<Id>, depth: map<Id, nat>) {
    && Monotone(result + queue, depth)
    && (forall q | q in queue ::
          Level(depth, q) <= if result == [] then 0 else Level(depth, result[|result| - 1]) + 1)
  }

  ghost predicate KahnInv(g: Nodes, inDegree: map<Id, nat>, queue: seq<Id>, result: seq<Id>, depth: map<Id, nat>) {
    && Degrees(g, inDegree, ToSet(result))
    && Frontier(g, result, queue)
    && Depths(g, result, depth)
    && Fifo(result, queue, depth)
  }

  ghost predicate DegreesRelaxed(dependents: seq<Id>, inDegree: map<Id, nat>, inDegree': map<Id, nat>) {
    && inDegree'.Keys == inDegree.Keys
    && (forall n | n in inDegree :: inDegree[n] == inDegree'[n] + multiset(dependents)[n])
  }

  ghost predicate DepthsRelaxed(dependents: seq<Id>, level: nat, depth: map<Id, nat>, depth': map<Id, nat>) {
    && depth'.Keys == depth.Keys + ToSet(dependents)
    && (forall n | n in depth' :: depth'[n] == if n in dependents then level + 1 else depth[n])
  }

  ghost predicate ReadyList(dependents: seq<Id>, inDegree': map<Id, nat>, ready: seq<Id>) {
    && NoDup(ready)
    && (forall n :: n in ready <==> n in dependents && n in inDegree' && inDegree'[n] == 0)
  }

  /** What relaxing all edges out of one popped node does. */
  ghost predicate Relaxed(dependents: seq<Id>, level: nat,
                          inDegree: map<Id, nat>, depth: map<Id, nat>,
                          inDegree': map<Id, nat>, depth': map<Id, nat>, ready: seq<Id>) {
    && DegreesRelaxed(dependents, inDegree, inDegree')
    && DepthsRelaxed(dependents, level, depth, depth')
    && ReadyList(dependents, inDegree', ready)
  }

  lemma DegreeDown(prefix: seq<Id>, dep: Id, inDegree0: map<Id, nat>, inDegree: map<Id, nat>)
    requires DegreesRelaxed(prefix, inDegree0, inDegree) && dep in inDegree && inDegree[dep] > 0
    ensures DegreesRelaxed(prefix + [dep], inDegree0, inDegree[dep := inDegree[dep] - 1])
  {
    assert forall n :: multiset(prefix + [dep])[n] == multiset(prefix)[n] + if n == dep then 1 else 0;
  }

  lemma DepthSet(prefix: seq<Id>, dep: Id, level: nat, depth0: map<Id, nat>, depth: map<Id, nat>)
    requires DepthsRelaxed(prefix, level, depth0, depth)
    ensures DepthsRelaxed(prefix + [dep], level, depth0, depth[dep := level + 1])
  {
    assert ToSet(prefix + [dep]) == ToSet(prefix) + {dep};
  }

  lemma ReadyGrows(prefix: seq<Id>, dep: Id, inDegree: map<Id, nat>, ready: seq<Id>)
    requires ReadyList(prefix, inDegree, ready) && dep in inDegree && inDegree[dep] > 0
    ensures ReadyList(prefix + [dep], inDegree[dep := inDegree[dep] - 1],
                      if inDegree[dep] == 1 then ready + [dep] else ready)
  {
    assert dep !in ready;
    assert forall n :: n in prefix + [dep] <==> n in prefix || n == dep;
  }

  ghost predicate EdgesAddedAt(graph0: map<Id, seq<Id>>, id: Id, deps: seq<Id>, graph: map<Id, seq<Id>>, d: Id, n: Id) {
    multiset(Adjacent(graph, d))[n] == multiset(Adjacent(graph0, d))[n] + if n == id then multiset(deps)[d] else 0
  }

  /** `graph` is `graph0` with one more entry of `id` per entry of `deps`. */
  ghost predicate EdgesAdded(graph0: map<Id, seq<Id>>, id: Id, deps: seq<Id>, graph: map<Id, seq<Id>>) {
    forall d, n :: EdgesAddedAt(graph0, id, deps, graph, d, n)
  }

  lemma EdgesAddedNone(graph0: map<Id, seq<Id>>, id: Id)
    ensures EdgesAdded(graph0, id, [], graph0[id := Adjacent(graph0, id)])
  {
    var graph := graph0[id := Adjacent(graph0, id)];
    assert forall d, n :: EdgesAddedAt(graph0, id, [], graph, d, n);
  }

  lemma EdgesAddedOne(graph0: map<Id, seq<Id>>, id: Id, deps: seq<Id>, graph: map<Id, seq<Id>>, dep: Id)
    requires EdgesAdded(graph0, id, deps, graph)
    ensures EdgesAdded(graph0, id, deps + [dep], graph[dep := Adjacent(graph, dep) + [id]])
  {
    var graph' := graph[dep := Adjacent(graph, dep) + [id]];
    forall d, n
      ensures EdgesAddedAt(graph0, id, deps + [dep], graph', d, n)
    {
      assert EdgesAddedAt(graph0, id, deps, graph, d, n);
      assert multiset(deps + [dep])[d] == multiset(deps)[d] + if d == dep then 1 else 0;
      assert multiset(Adjacent(graph', d))[n] ==
             multiset(Adjacent(graph, d))[n] + if d == dep && n == id then 1 else 0;
    }
  }

  /** The adjacency lists once the nodes outside `todo` have been entered. */
  ghost predicate EdgesSoFar(g: Nodes, todo: set<Id>, graph: map<Id, seq<Id>>) {
    forall d, n :: multiset(Adjacent(graph, d))[n] ==
                   if n in g && n !in todo then multiset(g[n].dependencies)[d] else 0
  }

  lemma EdgesOneNode(g: Nodes, todo: set<Id>, graph0: map<Id, seq<Id>>, k: Id, graph: map<Id, seq<Id>>)
    requires k in g && k in todo && EdgesSoFar(g, todo, graph0)
    requires EdgesAdded(graph0, k, g[k].dependencies, graph)
    ensures EdgesSoFar(g, todo - {k}, graph)
  {
    forall d, n
      ensures multiset(Adjacent(graph, d))[n] == if n in g && n !in todo - {k} then multiset(g[n].dependencies)[d] else 0
    {
      assert EdgesAddedAt(graph0, k, g[k].dependencies, graph, d, n);
    }
  }

  lemma EdgesComplete(g: Nodes, graph: map<Id, seq<Id>>)
    requires EdgesSoFar(g, {}, graph)
    ensures EdgesOf(g, graph)
  {
    forall d, n | n in Adjacent(graph, d)
      ensures n in g
    {
      assert n in multiset(Adjacent(graph, d));
    }
  }

  lemma KahnInit(g: Nodes, inDegree: map<Id, nat>, queue: seq<Id>)
    requires Degrees(g, inDegree, {})
    requires NoDup(queue) && forall n :: n in queue <==> n in inDegree && inDegree[n] == 0
    ensures KahnInv(g, inDegree, queue, [], map[])
  {
    assert [] + queue == queue;
    forall n | n in g
      ensures n in queue <==> forall d | d in g[n].dependencies :: d in []
    {
      PendingDone(g[n].dependencies, {});
      if g[n].dependencies != [] {
        assert g[n].dependencies[0] in g[n].dependencies;
      }
    }
    assert ToSet<Id>([]) == {};
  }

  /** Before relaxing: no in-degree can underflow, duplicate dependencies included. */
  lemma NoUnderflow(g: Nodes, graph: map<Id, seq<Id>>, inDegree: map<Id, nat>, queue: seq<Id>, result: seq<Id>)
    requires EdgesOf(g, graph) && queue != []
    requires Degrees(g, inDegree, ToSet(result)) && Frontier(g, result, queue)
    ensures forall n | n in Adjacent(graph, queue[0]) ::
              n in inDegree && multiset(Adjacent(graph, queue[0]))[n] <= inDegree[n]
  {
    var cur, done := queue[0], ToSet(result);
    NoDupConcat(result, queue);
    assert cur in queue;
    forall n | n in Adjacent(graph, cur)
      ensures n in inDegree && multiset(Adjacent(graph, cur))[n] <= inDegree[n]
    {
      PendingDrop(g[n].dependencies, done, cur);
    }
  }

  lemma AdjacentMeaning(g: Nodes, graph: map<Id, seq<Id>>, d: Id, n: Id)
    requires EdgesOf(g, graph)
    ensures n in Adjacent(graph, d) <==> DependsOn(g, n, d)
  {
    if n in g {
      assert n in multiset(Adjacent(graph, d)) <==> d in multiset(g[n].dependencies);
    }
  }

  lemma StepDegrees(g: Nodes, graph: map<Id, seq<Id>>, inDegree: map<Id, nat>, queue: seq<Id>, result: seq<Id>,
                    depth: map<Id, nat>, inDegree': map<Id, nat>, depth': map<Id, nat>, ready: seq<Id>)
    requires EdgesOf(g, graph) && queue != []
    requires Degrees(g, inDegree, ToSet(result)) && queue[0] !in result
    requires Relaxed(Adjacent(graph, queue[0]), Level(depth, queue[0]), inDegree, depth, inDegree', depth', ready)
    ensures Degrees(g, inDegree', ToSet(result + [queue[0]]))
    ensures forall n :: n in ready <==> DependsOn(g, n, queue[0]) && ReadyAfter(g, n, result + [queue[0]])
  {
    var cur := queue[0];
    var done, done' := ToSet(result), ToSet(result + [cur]);
    assert done' == done + {cur};
    forall n | n in g
      ensures inDegree'[n] == Pending(g[n].dependencies, done')
      ensures n in ready <==> DependsOn(g, n, cur) && ReadyAfter(g, n, result + [cur])
    {
      PendingDrop(g[n].dependencies, done, cur);
      PendingDone(g[n].dependencies, done');
      AdjacentMeaning(g, graph, cur, n);
    }
  }

  ghost predicate ReadyAfter(g: Nodes, n: Id, result: seq<Id>) {
    n in g && forall d | d in g[n].dependencies :: d in result
  }

  lemma StepFrontier(g: Nodes, queue: seq<Id>, result: seq<Id>, ready: seq<Id>)
    requires queue != [] && Frontier(g, result, queue)
    requires NoDup(ready)
    requires forall n :: n in ready <==> DependsOn(g, n, queue[0]) && ReadyAfter(g, n, result + [queue[0]])
    ensures Frontier(g, result + [queue[0]], queue[1..] + ready)
  {
    var cur := queue[0];
    var before, result' := result + queue, result + [cur];
    var after := result' + (queue[1..] + ready);
    assert after == before + ready;
    NoDupConcat(result, queue);
    NoDupConcat(before, ready);
    assert cur in queue && cur in before;
    forall n
      ensures n in after <==> ReadyAfter(g, n, result')
    {
      assert n in before <==> ReadyAfter(g, n, result);
      assert ReadyAfter(g, n, result') && !DependsOn(g, n, cur) ==> ReadyAfter(g, n, result);
    }
    forall i, d | 0 <= i < |result'| && DependsOn(g, result'[i], d)
      ensures d in result'[..i]
    {
      assert result'[..i] == if i < |result| then result[..i] else result;
    }
  }

  /** Relaxing leaves the level of every popped or queued node alone. */
  lemma LevelsStable(g: Nodes, graph: map<Id, seq<Id>>, inDegree: map<Id, nat>, queue: seq<Id>, result: seq<Id>,
                     depth: map<Id, nat>, inDegree': map<Id, nat>, depth': map<Id, nat>, ready: seq<Id>, n: Id)
    requires EdgesOf(g, graph) && queue != [] && Frontier(g, result, queue)
    requires Relaxed(Adjacent(graph, queue[0]), Level(depth, queue[0]), inDegree, depth, inDegree', depth', ready)
    requires n in result + queue
    ensures Level(depth', n) == Level(depth, n)
  {
    NoDupConcat(result, queue);
    assert queue[0] in queue;
    AdjacentMeaning(g, graph, queue[0], n);
  }

  lemma StepDepths(g: Nodes, graph: map<Id, seq<Id>>, inDegree: map<Id, nat>, queue: seq<Id>, result: seq<Id>,
                   depth: map<Id, nat>, inDegree': map<Id, nat>, depth': map<Id, nat>, ready: seq<Id>)
    requires EdgesOf(g, graph) && queue != []
    requires Frontier(g, result, queue) && Depths(g, result, depth) && Fifo(result, queue, depth)
    requires Relaxed(Adjacent(graph, queue[0]), Level(depth, queue[0]), inDegree, depth, inDegree', depth', ready)
    ensures Depths(g, result + [queue[0]], depth')
  {
    var cur := queue[0];
    var result' := result + [cur];
    assert cur in queue;
    QueueWindow(g, queue, result, depth);
    forall d | d in result'
      ensures Level(depth', d) == Level(depth, d) <= Level(depth, cur)
    {
      LevelsStable(g, graph, inDegree, queue, result, depth, inDegree', depth', ready, d);
    }
    forall n
      ensures n in depth' <==> exists d :: DependsOn(g, n, d) && d in result'
    {
      AdjacentMeaning(g, graph, cur, n);
      assert cur in result';
    }
    forall n, d | n in depth' && DependsOn(g, n, d) && d in result'
      ensures Level(depth', d) < depth'[n]
    {
      AdjacentMeaning(g, graph, cur, n);
    }
    forall n | n in depth'
      ensures Tight(g, result', depth', n)
    {
      AdjacentMeaning(g, graph, cur, n);
      if n in Adjacent(graph, cur) {
        assert DependsOn(g, n, cur) && cur in result';
      } else {
        assert Tight(g, result, depth, n);
        var d :| DependsOn(g, n, d) && d in result && depth[n] == Level(depth, d) + 1;
        assert d in result';
      }
    }
  }

  lemma MonotoneAppend(s: seq<Id>, t: seq<Id>, depth: map<Id, nat>, depth': map<Id, nat>, top: nat)
    requires Monotone(s, depth)
    requires forall n | n in s :: Level(depth', n) == Level(depth, n) <= top
    requires forall n | n in t :: Level(depth', n) == top
    ensures Monotone(s + t, depth')
  {
    var u := s + t;
    forall i, j | 0 <= i <= j < |u|
      ensures Level(depth', u[i]) <= Level(depth', u[j])
    {
      assert u[i] == if i < |s| then s[i] else t[i - |s|];
      assert u[j] == if j < |s| then s[j] else t[j - |s|];
    }
  }

  /** The queue spans at most one level: nothing waiting is more than one below the node being popped. */
  lemma QueueWindow(g: Nodes, queue: seq<Id>, result: seq<Id>, depth: map<Id, nat>)
    requires queue != [] && Fifo(result, queue, depth)
    ensures forall n | n in result + queue :: Level(depth, n) <= Level(depth, queue[0]) + 1
    ensures forall n | n in result :: Level(depth, n) <= Level(depth, queue[0])
  {
    var s := result + queue;
    assert s[|result|] == queue[0];
    forall i | 0 <= i < |s|
      ensures Level(depth, s[i]) <= Level(depth, queue[0]) + if i < |result| then 0 else 1
    {
      if i >= |result| && result != [] {
        assert s[|result| - 1] == result[|result| - 1];
        assert s[i] == queue[i - |result|];
      }
    }
    forall n | n in result
      ensures Level(depth, n) <= Level(depth, queue[0])
    {
      var i :| 0 <= i < |result| && result[i] == n;
      assert s[i] == n;
    }
  }

  lemma StepFifo(g: Nodes, graph: map<Id, seq<Id>>, inDegree: map<Id, nat>, queue: seq<Id>, result: seq<Id>,
                 depth: map<Id, nat>, inDegree': map<Id, nat>, depth': map<Id, nat>, ready: seq<Id>)
    requires EdgesOf(g, graph) && queue != []
    requires Frontier(g, result, queue) && Fifo(result, queue, depth)
    requires Relaxed(Adjacent(graph, queue[0]), Level(depth, queue[0]), inDegree, depth, inDegree', depth', ready)
    ensures Fifo(result + [queue[0]], queue[1..] + ready, depth')
  {
    var cur := queue[0];
    var before, result', queue' := result + queue, result + [cur], queue[1..] + ready;
    assert result' + queue' == before + ready;
    QueueWindow(g, queue, result, depth);
    forall n | n in before
      ensures Level(depth', n) == Level(depth, n)
    {
      LevelsStable(g, graph, inDegree, queue, result, depth, inDegree', depth', ready, n);
    }
    MonotoneAppend(before, ready, depth, depth', Level(depth, cur) + 1);
    assert cur in before && result'[|result'| - 1] == cur;
    forall q | q in queue'
      ensures Level(depth', q) <= Level(depth', cur) + 1
    {
      assert q in before || q in ready;
    }
  }

  lemma Step(g: Nodes, graph: map<Id, seq<Id>>, inDegree: map<Id, nat>, queue: seq<Id>, result: seq<Id>,
             depth: map<Id, nat>, inDegree': map<Id, nat>, depth': map<Id, nat>, ready: seq<Id>)
    requires EdgesOf(g, graph) && queue != [] && KahnInv(g, inDegree, queue, result, depth)
    requires Relaxed(Adjacent(graph, queue[0]), Level(depth, queue[0]), inDegree, depth, inDegree', depth', ready)
    ensures KahnInv(g, inDegree', queue[1..] + ready, result + [queue[0]], depth')
    ensures |result + [queue[0]]| <= |g|
  {
    NoDupConcat(result, queue);
    assert queue[0] in queue;
    StepDegrees(g, graph, inDegree, queue, result, depth, inDegree', depth', ready);
    StepFrontier(g, queue, result, ready);
    StepDepths(g, graph, inDegree, queue, result, depth, inDegree', depth', ready);
    StepFifo(g, graph, inDegree, queue, result, depth, inDegree', depth', ready);
    PoppedWithinNodes(g, result + [queue[0]], queue[1..] + ready);
  }

  lemma PoppedWithinNodes(g: Nodes, result: seq<Id>, queue: seq<Id>)
    requires Frontier(g, result, queue)
    ensures |result| <= |g|
  {
    NoDupConcat(result, queue);
    assert forall n | n in result :: n in result + queue;
    NoDupWithin(result, g.Keys);
    assert |g.Keys| == |g|;
  }

  // ----- what the finished loop has computed -----

  /** With the queue empty, everything unsorted is stuck behind something unsorted. */
  lemma FinishedOrder(g: Nodes, result: seq<Id>)
    requires Closed(g) && Frontier(g, result, [])
    ensures KahnOrder(g, result)
  {
    assert result + [] == result;
    var stuck := g.Keys - ToSet(result);
    forall n
      ensures n in result <==> Finite(g, n)
    {
      if n in result {
        var i :| 0 <= i < |result| && result[i] == n;
        OrderedBounded(g, result, i);
      } else if n in g {
        assert Stuck(g, stuck);
        EndlessNotFinite(g, stuck, n);
      }
    }
  }

  lemma {:induction false} OrderedBounded(g: Nodes, order: seq<Id>, i: nat)
    requires Ordered(g, order) && i < |order|
    ensures ChainsBounded(g, order[i], i)
  {
    forall c | ChainTo(g, c, order[i])
      ensures |c| <= i + 1
    {
      if |c| >= 2 {
        ChainInit(g, c);
        var d := c[|c| - 2];
        var j :| 0 <= j < i && order[j] == d;
        OrderedBounded(g, order, j);
      }
    }
  }

  /** The recurrence kept by the loop is the longest-chain length. */
  lemma {:induction false} DepthIsLongest(g: Nodes, order: seq<Id>, depth: map<Id, nat>, i: nat)
    requires Ordered(g, order) && Depths(g, order, depth)
    requires forall n | n in order :: n in g
    requires i < |order|
    ensures LongestChain(g, order[i], Level(depth, order[i]))
  {
    var n := order[i];
    var k := Level(depth, n);
    forall c | ChainTo(g, c, n)
      ensures |c| <= k + 1
    {
      if |c| >= 2 {
        ChainInit(g, c);
        var d := c[|c| - 2];
        var j :| 0 <= j < i && order[j] == d;
        DepthIsLongest(g, order, depth, j);
      }
    }
    if n in depth {
      assert Tight(g, order, depth, n);
      var d :| DependsOn(g, n, d) && d in order && depth[n] == Level(depth, d) + 1;
      assert d in order[..i];
      var j :| 0 <= j < i && order[j] == d;
      DepthIsLongest(g, order, depth, j);
      var c :| ChainTo(g, c, d) && |c| == Level(depth, d) + 1;
      ChainSnoc(g, c, n);
      assert ChainTo(g, c + [n], n) && |c + [n]| == k + 1;
    } else {
      assert ChainTo(g, [n], n) && |[n]| == k + 1;
    }
  }

  lemma FinishedDepth(g: Nodes, order: seq<Id>, depth: map<Id, nat>, n: Id, before: nat)
    requires Ordered(g, order) && Depths(g, order, depth)
    requires forall n | n in order :: n in g
    requires n in g
    ensures DepthWritten(g, order, n, before, if n in depth then depth[n] else before)
  {
    if n in depth {
      assert Tight(g, order, depth, n);
      var e :| DependsOn(g, n, e) && e in order && depth[n] == Level(depth, e) + 1;
      DepthIsLongest(g, order, depth, Index(order, e));
      forall d, k: nat | DependsOn(g, n, d) && d in order && LongestChain(g, d, k)
        ensures k < depth[n]
      {
        DepthIsLongest(g, order, depth, Index(order, d));
        LongestChainUnique(g, d, k, Level(depth, d));
      }
    }
  }

  // ----- consequences for callers -----

  /** On a sorted node with dependencies, the written depth is its longest dependency chain. */
  lemma WrittenDepthIsLongestChain(g: Nodes, order: seq<Id>, n: Id, before: nat, after: nat)
    requires KahnOrder(g, order) && n in order && g[n].dependencies != []
    requires DepthWritten(g, order, n, before, after)
    ensures LongestChain(g, n, after)
  {
    var first := g[n].dependencies[0];
    assert DependsOn(g, n, first) && first in order[..Index(order, n)];
    var d :| DependsOn(g, n, d) && d in order && after > 0 && LongestChain(g, d, after - 1);
    LongestViaDependency(g, order, n, d, after);
  }

  lemma LongestViaDependency(g: Nodes, order: seq<Id>, n: Id, d: Id, after: nat)
    requires KahnOrder(g, order) && n in order && after > 0
    requires DependsOn(g, n, d) && LongestChain(g, d, after - 1)
    requires forall d, k: nat | DependsOn(g, n, d) && d in order && LongestChain(g, d, k) :: k < after
    ensures LongestChain(g, n, after)
  {
    var c :| ChainTo(g, c, d) && |c| == after;
    ChainSnoc(g, c, n);
    assert ChainTo(g, c + [n], n) && |c + [n]| == after + 1;
    forall c | ChainTo(g, c, n)
      ensures |c| <= after + 1
    {
      if |c| >= 2 {
        ChainInit(g, c);
        var e := c[|c| - 2];
        assert e in order[..Index(order, n)];
        var k := LongestExists(g, e);
        assert ChainTo(g, c[..|c| - 1], e);
      }
    }
  }

  lemma LongestExists(g: Nodes, n: Id) returns (k: nat)
    requires Finite(g, n)
    ensures LongestChain(g, n, k)
  {
    assert ChainTo(g, [n], n);
    var bound: nat :| ChainsBounded(g, n, bound);
    k := bound;
    while !exists c :: ChainTo(g, c, n) && |c| == k + 1
      invariant ChainsBounded(g, n, k)
      decreases k
    {
      assert |[n]| <= k + 1;
      assert k > 0;
      k := k - 1;
    }
  }

  /** A closed graph is acyclic exactly when the sort returns all of it. */
  lemma AcyclicIffSorted(g: Nodes, order: seq<Id>)
    requires Closed(g) && KahnOrder(g, order)
    ensures Acyclic(g) <==> ToSet(order) == g.Keys
    ensures ToSet(order) <= g.Keys
    ensures ToSet(order) == g.Keys <==> |order| == |g|
  {
    assert ToSet(order) <= g.Keys;
    NoDupWithin(order, g.Keys);
    NoDupSize(order);
    assert |g.Keys| == |g|;
    var stuck := g.Keys - ToSet(order);
    if stuck != {} {
      var n :| n in stuck;
      forall m | m in stuck
        ensures StuckAt(g, stuck, m)
      {
        UnsortedHasUnsortedDep(g, order, m);
      }
      EndlessHasCycle(g, stuck, n);
    } else {
      assert g.Keys <= ToSet(order) + stuck;
      forall n | n in g
        ensures !Reaches(g, n, n)
      {
        if Reaches(g, n, n) {
          var c :| ChainBetween(g, c, n, n);
          ChainClimbs(g, order, c);
        }
      }
    }
  }

  lemma UnsortedHasUnsortedDep(g: Nodes, order: seq<Id>, m: Id)
    requires Closed(g) && KahnOrder(g, order) && m in g && m !in order
    ensures exists d :: d in g[m].dependencies && d in g && d !in order
  {
    if forall d | d in g[m].dependencies :: d in order {
      SortedDepsFinite(g, order, m);
    }
  }

  lemma SortedDepsFinite(g: Nodes, order: seq<Id>, m: Id)
    requires KahnOrder(g, order) && m in g
    requires forall d | d in g[m].dependencies :: d in order
    ensures Finite(g, m)
  {
    var order' := order + [m];
    forall i, d | 0 <= i < |order'| && DependsOn(g, order'[i], d)
      ensures d in order'[..i]
    {
      assert order'[..i] == if i < |order| then order[..i] else order;
    }
    OrderedBounded(g, order', |order|);
  }

  /** Positions strictly increase along a chain. */
  lemma {:induction false} ChainClimbs(g: Nodes, order: seq<Id>, c: seq<Id>)
    requires NoDup(order) && Ordered(g, order) && Chain(g, c) && |c| >= 2
    requires c[|c| - 1] in order
    ensures c[0] in order && Index(order, c[0]) < Index(order, c[|c| - 1])
  {
    ChainInit(g, c);
    var n, d := c[|c| - 1], c[|c| - 2];
    var i := Index(order, n);
    assert d in order[..i];
    var j :| 0 <= j < i && order[j] == d;
    assert Index(order, d) == j;
    if |c| <= 2 {
    } else {
      ChainClimbs(g, order, c[..|c| - 1]);
    }
  }
}
