/** The factor DAG manager: a mutable graph with forward and backward edges, a cached
    topological order, and the queries built on it. */
module DagManager {
  import opened Common
  import opened Seqs
  import opened DependencyGraph
  import opened KahnSort

  datatype DagError =
    | NodeExists(id: Id)
    | NodeNotFound(id: Id)
    | DependencyNotFound(node: Id, dependency: Id)

  datatype DagResult = Ok | Err(error: DagError)

  /** The three fields of the manager as one value. */
  datatype DagState = DagState(nodes: Nodes, topoOrder: seq<Id>, dirty: bool)

  const EMPTY: DagState := DagState(map[], [], true)

  datatype DagOp = AddOp(node: FactorNode) | RemoveOp(id: Id) | SortOp | ClearOp

  // ----- the graph after each edit -----

  ghost predicate CanAdd(g: Nodes, node: FactorNode) {
    node.id !in g && forall d | d in node.dependencies :: d in g
  }

  function Without(s: seq<Id>, id: Id): seq<Id> {
    Filter(s, x => x != id)
  }

  function AddedNodes(g: Nodes, node: FactorNode): Nodes {
    map k | k in g.Keys + {node.id} ::
      if k == node.id then node
      else Linked(g[k], node.id, multiset(node.dependencies)[k])
  }

  /** `node` with `n` more entries of `id` among its dependents. */
  function Linked(node: FactorNode, id: Id, n: nat): FactorNode {
    node.(dependents := node.dependents + Repeat(id, n))
  }

  lemma LinkedOnce(node: FactorNode, id: Id, n: nat)
    ensures Linked(node, id, n + 1) == node.(dependents := Linked(node, id, n).dependents + [id])
  {
    assert Repeat(id, n + 1) == Repeat(id, n) + [id];
    assert node.dependents + Repeat(id, n + 1) == (node.dependents + Repeat(id, n)) + [id];
  }

  /** `g` is `g0` with one more entry of `id` among the dependents of a node per entry in `deps`. */
  ghost predicate LinkedTo(g0: Nodes, g: Nodes, id: Id, deps: seq<Id>) {
    g.Keys == g0.Keys && forall k | k in g :: g[k] == Linked(g0[k], id, multiset(deps)[k])
  }

  lemma LinkedToNone(g: Nodes, id: Id)
    ensures LinkedTo(g, g, id, [])
  {
    forall k | k in g
      ensures g[k] == Linked(g[k], id, 0)
    {
      assert g[k].dependents + Repeat(id, 0) == g[k].dependents;
    }
  }

  lemma LinkedToOne(g0: Nodes, g: Nodes, id: Id, deps: seq<Id>, dep: Id)
    requires LinkedTo(g0, g, id, deps)
    ensures LinkedTo(g0, if dep in g then g[dep := g[dep].(dependents := g[dep].dependents + [id])] else g, id, deps + [dep])
  {
    forall k
      ensures multiset(deps + [dep])[k] == multiset(deps)[k] + if k == dep then 1 else 0
    {
    }
    if dep in g {
      LinkedOnce(g0[dep], id, multiset(deps)[dep]);
    }
  }

  function RemovedNodes(g: Nodes, id: Id): Nodes
    requires id in g
  {
    map k | k in g.Keys - {id} ::
      g[k].(dependents := if k in g[id].dependencies then Without(g[k].dependents, id) else g[k].dependents,
            dependencies := if k in g[id].dependents then Without(g[k].dependencies, id) else g[k].dependencies)
  }

  /** Adding stores the node as given and removing drops it; of the other nodes both touch the edge lists alone. */
  lemma EditsOnlyEdges(g: Nodes, node: FactorNode, id: Id, k: Id)
    requires CanAdd(g, node) && id in g && k in g
    ensures AddedNodes(g, node).Keys == g.Keys + {node.id} && AddedNodes(g, node)[node.id] == node
    ensures AddedNodes(g, node)[k] == g[k].(dependents := AddedNodes(g, node)[k].dependents)
    ensures RemovedNodes(g, id).Keys == g.Keys - {id}
    ensures k != id ==>
              RemovedNodes(g, id)[k] ==
              g[k].(dependents := RemovedNodes(g, id)[k].dependents, dependencies := RemovedNodes(g, id)[k].dependencies)
  {
  }

  /** One public operation, as a relation on states. `SortOp` is a relation because the order of the
      initial queue is the iteration order of a hash map. */
  ghost predicate DagStep(s: DagState, op: DagOp, s': DagState) {
    match op
    case AddOp(node) =>
      s' == if CanAdd(s.nodes, node) then s.(nodes := AddedNodes(s.nodes, node), dirty := true) else s
    case RemoveOp(id) =>
      s' == if id in s.nodes then s.(nodes := RemovedNodes(s.nodes, id), dirty := true) else s
    case SortOp =>
      if s.dirty then
        && !s'.dirty
        && KahnOrder(s.nodes, s'.topoOrder)
        && Redepthed(s.nodes, s'.topoOrder, s'.nodes)
      else
        s' == s
    case ClearOp => s' == EMPTY
  }

  // ----- invariants -----

  /** Sorted nodes that have dependencies carry their longest-chain length. */
  ghost predicate Settled(g: Nodes, order: seq<Id>) {
    forall n | n in order && n in g && g[n].dependencies != [] :: LongestChain(g, n, g[n].depth)
  }

  ghost predicate Inv(s: DagState) {
    && Keyed(s.nodes)
    && Closed(s.nodes)
    && Covered(s.nodes)
    && (!s.dirty ==> KahnOrder(s.nodes, s.topoOrder) && Settled(s.nodes, s.topoOrder))
  }

  /** Same nodes and same dependency lists. */
  ghost predicate SameEdges(g: Nodes, h: Nodes) {
    g.Keys == h.Keys && forall n | n in g :: g[n].dependencies == h[n].dependencies
  }

  lemma SameEdgesSameChains(g: Nodes, h: Nodes)
    requires SameEdges(g, h)
    ensures forall c :: Chain(g, c) <==> Chain(h, c)
    ensures forall n, k: nat :: LongestChain(g, n, k) <==> LongestChain(h, n, k)
    ensures forall n :: Finite(g, n) <==> Finite(h, n)
    ensures forall a, b :: Reaches(g, a, b) <==> Reaches(h, a, b)
  {
    assert forall c, n :: ChainTo(g, c, n) <==> ChainTo(h, c, n);
    assert forall n, k: nat :: ChainsBounded(g, n, k) <==> ChainsBounded(h, n, k);
    assert forall c, a, b :: ChainBetween(g, c, a, b) <==> ChainBetween(h, c, a, b);
    forall n, k: nat | LongestChain(g, n, k)
      ensures LongestChain(h, n, k)
    {
      var c :| ChainTo(g, c, n) && |c| == k + 1;
      assert ChainTo(h, c, n);
    }
    forall n, k: nat | LongestChain(h, n, k)
      ensures LongestChain(g, n, k)
    {
      var c :| ChainTo(h, c, n) && |c| == k + 1;
      assert ChainTo(g, c, n);
    }
  }

  lemma SortKeepsInv(s: DagState, s': DagState)
    requires Inv(s) && DagStep(s, SortOp, s')
    ensures Inv(s') && !s'.dirty && SameEdges(s.nodes, s'.nodes)
  {
    if s.dirty {
      var g, h, order := s.nodes, s'.nodes, s'.topoOrder;
      SameEdgesSameChains(g, h);
      assert Ordered(h, order) by {
        assert forall n, d :: DependsOn(g, n, d) <==> DependsOn(h, n, d);
      }
      forall n | n in order && n in h && h[n].dependencies != []
        ensures LongestChain(h, n, h[n].depth)
      {
        WrittenDepthIsLongestChain(g, order, n, g[n].depth, h[n].depth);
      }
    }
  }

  lemma AddKeepsInv(s: DagState, node: FactorNode, s': DagState)
    requires Inv(s) && DagStep(s, AddOp(node), s')
    ensures Inv(s')
  {
    if CanAdd(s.nodes, node) {
      var h := s'.nodes;
      forall n, d | n in h && d in h[n].dependencies
        ensures d in h && n in h[d].dependents
      {
        AddCovers(s.nodes, node, n, d);
      }
    }
  }

  lemma AddCovers(g: Nodes, node: FactorNode, n: Id, d: Id)
    requires Covered(g) && Closed(g) && CanAdd(g, node)
    requires n in AddedNodes(g, node) && d in AddedNodes(g, node)[n].dependencies
    ensures d in AddedNodes(g, node) && n in AddedNodes(g, node)[d].dependents
  {
    if n == node.id {
      var k := multiset(node.dependencies)[d];
      assert d in multiset(node.dependencies);
      assert Repeat(node.id, k)[0] == node.id;
    }
  }

  lemma RemoveKeepsInv(s: DagState, id: Id, s': DagState)
    requires Inv(s) && DagStep(s, RemoveOp(id), s')
    ensures Inv(s')
  {
  }

  /** The members of `keep`, in list order. */
  function InSet(order: seq<Id>, keep: set<Id>): seq<Id> {
    Filter(order, n => n in keep)
  }

  // ----- the transposed graph, for the forward closure -----

  /** The graph whose dependency lists are the `dependents` lists. */
  function Flip(g: Nodes): Nodes {
    map n | n in g :: g[n].(dependencies := g[n].dependents)
  }

  /** All direct and indirect dependencies of `id`. */
  ghost function Upstream(g: Nodes, id: Id): set<Id> {
    set n | n in g && Reaches(g, n, id)
  }

  /** Everything reachable from `id` over `dependents` edges. */
  ghost function Downstream(g: Nodes, id: Id): set<Id> {
    Upstream(Flip(g), id)
  }

  lemma SortKeepsDownstream(s: DagState, s': DagState, id: Id)
    requires DagStep(s, SortOp, s')
    ensures Downstream(s'.nodes, id) == Downstream(s.nodes, id)
  {
    SameEdgesSameChains(Flip(s.nodes), Flip(s'.nodes));
  }

  /** A set that holds a node's dependencies and is closed under dependency holds everything upstream. */
  lemma {:induction false} ClosedSetHoldsChain(g: Nodes, s: set<Id>, id: Id, c: seq<Id>)
    requires id in g && Chain(g, c) && |c| >= 2 && c[|c| - 1] == id
    requires forall d | d in g[id].dependencies :: d in s
    requires forall x, d | x in s && DependsOn(g, x, d) :: d in s
    ensures c[0] in s
    decreases |c|
  {
    ChainInit(g, c);
    var d := c[|c| - 2];
    if |c| <= 2 {
    } else {
      assert forall e | e in g[d].dependencies :: DependsOn(g, d, e);
      ClosedSetHoldsChain(g, s, d, c[..|c| - 1]);
    }
  }

  ghost predicate Explored(g: Nodes, id: Id, seen: set<Id>, queue: seq<Id>)
    requires id in g
  {
    && (forall x | x in seen && x in g :: Reaches(g, x, id))
    && (forall x | x in queue && x in g :: Reaches(g, x, id))
    && (forall d | d in g[id].dependencies :: d in seen || d in queue)
    && (forall x, d | x in seen && DependsOn(g, x, d) :: d in seen || d in queue)
  }

  lemma ExploredAll(g: Nodes, id: Id, seen: set<Id>)
    requires id in g && Explored(g, id, seen, [])
    ensures seen * g.Keys == Upstream(g, id)
  {
    forall x | x in Upstream(g, id)
      ensures x in seen
    {
      var c :| ChainBetween(g, c, x, id);
      ClosedSetHoldsChain(g, seen, id, c);
    }
  }

  lemma ExploreStart(g: Nodes, id: Id)
    requires id in g
    ensures Explored(g, id, {}, g[id].dependencies)
    ensures ToSet(g[id].dependencies) <= Mentioned(g)
  {
    forall x | x in g[id].dependencies && x in g
      ensures Reaches(g, x, id)
    {
      ReachesStep(g, x, id);
    }
  }

  lemma ExploreStep(g: Nodes, id: Id, seen: set<Id>, queue: seq<Id>)
    requires id in g && queue != [] && Explored(g, id, seen, queue) && ToSet(queue) <= Mentioned(g)
    ensures queue[0] in Mentioned(g) && ToSet(queue[1..]) <= Mentioned(g)
    ensures queue[0] in seen ==> Explored(g, id, seen, queue[1..])
    ensures queue[0] !in seen ==>
              var queue' := queue[1..] + if queue[0] in g then g[queue[0]].dependencies else [];
              Explored(g, id, seen + {queue[0]}, queue') && ToSet(queue') <= Mentioned(g)
  {
    var x := queue[0];
    assert queue == [x] + queue[1..];
    assert x in ToSet(queue);
    if x !in seen && x in g {
      forall d | d in g[x].dependencies && d in g
        ensures Reaches(g, d, id)
      {
        ReachesStep(g, d, x);
        ReachesTrans(g, d, x, id);
      }
    }
  }

  ghost function Mentioned(g: Nodes): set<Id> {
    g.Keys + set n, d | n in g && d in g[n].dependencies :: d
  }

  // ----- what the levels are -----

  /** Depths occurring among the listed nodes. */
  ghost function DepthsOf(g: Nodes, order: seq<Id>): set<nat> {
    set n | n in order && n in g :: g[n].depth
  }

  function AtDepth(g: Nodes, order: seq<Id>, k: nat): seq<Id> {
    Filter(order, n => n in g && g[n].depth == k)
  }

  lemma AtDepthSnoc(g: Nodes, order: seq<Id>, id: Id, k: nat)
    ensures AtDepth(g, order + [id], k) == if id in g && g[id].depth == k then AtDepth(g, order, k) + [id] else AtDepth(g, order, k)
  {
    FilterSnoc(order, id, n => n in g && g[n].depth == k);
  }

  /** One level per occurring depth, shallowest first, each in the order of the sort. */
  ghost function LevelsOf(g: Nodes, order: seq<Id>): seq<seq<Id>> {
    var ds := Sorted(DepthsOf(g, order));
    seq(|ds|, i requires 0 <= i < |ds| => AtDepth(g, order, ds[i]))
  }

  // ----- the manager -----

  class FactorDag {
    var nodes: Nodes
    var topoOrder: seq<Id>
    var dirty: bool

    ghost function State(): DagState
      reads this
    {
      DagState(nodes, topoOrder, dirty)
    }

    ghost predicate Valid()
      reads this
    {
      Inv(State())
    }

    constructor ()
      ensures State() == EMPTY && Valid()
    {
      nodes, topoOrder, dirty := map[], [], true;
    }

    method AddNode(node: FactorNode) returns (r: DagResult)
      requires Valid()
      modifies this
      ensures Valid() && DagStep(old(State()), AddOp(node), State())
      ensures r == Ok <==> CanAdd(old(nodes), node)
      ensures r == Err(NodeExists(node.id)) <==> node.id in old(nodes)
      ensures r.Err? && node.id !in old(nodes) ==>
                exists i | 0 <= i < |node.dependencies| ::
                  && r == Err(DependencyNotFound(node.id, node.dependencies[i]))
                  && node.dependencies[i] !in old(nodes)
                  && forall j | 0 <= j < i :: node.dependencies[j] in old(nodes)
    {
      var id := node.id;
      if id in nodes {
        return Err(NodeExists(id));
      }
      for i := 0 to |node.dependencies|
        invariant forall j | 0 <= j < i :: node.dependencies[j] in nodes
      {
        if node.dependencies[i] !in nodes {
          return Err(DependencyNotFound(id, node.dependencies[i]));
        }
      }
      LinkDependents(node);
      nodes := nodes[id := node];
      dirty := true;
      assert nodes == AddedNodes(old(nodes), node);
      AddKeepsInv(old(State()), node, State());
      return Ok;
    }

    /** Enters the new node in the `dependents` list of each of its dependencies, once per entry. */
    method LinkDependents(node: FactorNode)
      modifies this`nodes
      ensures LinkedTo(old(nodes), nodes, node.id, node.dependencies)
    {
      LinkedToNone(nodes, node.id);
      for i := 0 to |node.dependencies|
        invariant LinkedTo(old(nodes), nodes, node.id, node.dependencies[..i])
      {
        var dep := node.dependencies[i];
        assert node.dependencies[..i + 1] == node.dependencies[..i] + [dep];
        LinkedToOne(old(nodes), nodes, node.id, node.dependencies[..i], dep);
        if dep in nodes {
          nodes := nodes[dep := nodes[dep].(dependents := nodes[dep].dependents + [node.id])];
        }
      }
      assert node.dependencies[..|node.dependencies|] == node.dependencies;
    }

    method RemoveNode(id: Id) returns (r: DagResult)
      requires Valid()
      modifies this
      ensures Valid() && DagStep(old(State()), RemoveOp(id), State())
      ensures r == if id in old(nodes) then Ok else Err(NodeNotFound(id))
    {
      if id !in nodes {
        return Err(NodeNotFound(id));
      }
      var node := nodes[id];
      nodes := nodes - {id};
      UnlinkDependents(node);
      UnlinkDependencies(node);
      dirty := true;
      assert nodes == RemovedNodes(old(nodes), id);
      RemoveKeepsInv(old(State()), id, State());
      return Ok;
    }

    /** Drops the removed node from the `dependents` lists of its dependencies. */
    method UnlinkDependents(node: FactorNode)
      modifies this`nodes
      ensures nodes.Keys == old(nodes).Keys
      ensures forall k | k in nodes ::
                nodes[k] == if k in node.dependencies
                            then old(nodes)[k].(dependents := Without(old(nodes)[k].dependents, node.id))
                            else old(nodes)[k]
    {
      for i := 0 to |node.dependencies|
        invariant nodes.Keys == old(nodes).Keys
        invariant forall k | k in nodes ::
            nodes[k] == if k in node.dependencies[..i]
                        then old(nodes)[k].(dependents := Without(old(nodes)[k].dependents, node.id))
                        else old(nodes)[k]
      {
        var dep := node.dependencies[i];
        assert node.dependencies[..i + 1] == node.dependencies[..i] + [dep];
        if dep in nodes {
          WithoutTwice(old(nodes)[dep].dependents, node.id);
          nodes := nodes[dep := nodes[dep].(dependents := Without(nodes[dep].dependents, node.id))];
        }
      }
      assert node.dependencies[..|node.dependencies|] == node.dependencies;
    }

    /** Drops the removed node from the `dependencies` lists of its dependents. */
    method UnlinkDependencies(node: FactorNode)
      modifies this`nodes
      ensures nodes.Keys == old(nodes).Keys
      ensures forall k | k in nodes ::
                nodes[k] == if k in node.dependents
                            then old(nodes)[k].(dependencies := Without(old(nodes)[k].dependencies, node.id))
                            else old(nodes)[k]
    {
      for i := 0 to |node.dependents|
        invariant nodes.Keys == old(nodes).Keys
        invariant forall k | k in nodes ::
            nodes[k] == if k in node.dependents[..i]
                        then old(nodes)[k].(dependencies := Without(old(nodes)[k].dependencies, node.id))
                        else old(nodes)[k]
      {
        var dependent := node.dependents[i];
        assert node.dependents[..i + 1] == node.dependents[..i] + [dependent];
        if dependent in nodes {
          WithoutTwice(old(nodes)[dependent].dependencies, node.id);
          nodes := nodes[dependent := nodes[dependent].(dependencies := Without(nodes[dependent].dependencies, node.id))];
        }
      }
      assert node.dependents[..|node.dependents|] == node.dependents;
    }

    method Clear()
      modifies this
      ensures Valid() && DagStep(old(State()), ClearOp, State())
    {
      nodes, topoOrder, dirty := map[], [], true;
    }

    /** The cached order, or a fresh sort. Works on any dependency-closed graph, cyclic or not. */
    method TopologicalSort() returns (order: seq<Id>)
      requires Valid()
      modifies this
      ensures Valid() && DagStep(old(State()), SortOp, State())
      ensures order == topoOrder && !dirty && KahnOrder(nodes, order)
      ensures SameEdges(old(nodes), nodes)
    {
      if !dirty {
        return topoOrder;
      }
      var result, depth := Kahn(nodes);
      ghost var g := nodes;
      WriteDepths(depth);
      assert Redepthed(g, result, nodes) by {
        forall n | n in g
          ensures DepthWritten(g, result, n, g[n].depth, nodes[n].depth)
        {
          FinishedDepth(g, result, depth, n, g[n].depth);
        }
      }
      topoOrder := result;
      dirty := false;
      SortKeepsInv(old(State()), State());
      return result;
    }

    /** Writes the computed depths back; nodes absent from `depth` keep the depth they had. */
    method WriteDepths(depth: map<Id, nat>)
      modifies this`nodes
      ensures nodes.Keys == old(nodes).Keys
      ensures forall n | n in nodes ::
                nodes[n] == if n in depth then old(nodes)[n].(depth := depth[n]) else old(nodes)[n]
    {
      var todo := depth.Keys;
      while todo != {}
        invariant todo <= depth.Keys && nodes.Keys == old(nodes).Keys
        invariant forall n | n in nodes ::
            nodes[n] == if n in depth.Keys - todo then old(nodes)[n].(depth := depth[n]) else old(nodes)[n]
      {
        var id :| id in todo;
        if id in nodes {
          nodes := nodes[id := nodes[id].(depth := depth[id])];
        }
        todo := todo - {id};
      }
    }

    /** `None` exactly on acyclic graphs; otherwise the nodes with an infinite dependency chain. */
    method DetectCycle() returns (cycle: Option<seq<Id>>)
      requires Valid()
      modifies this
      ensures Valid() && DagStep(old(State()), SortOp, State())
      ensures cycle == None <==> Acyclic(nodes)
      ensures cycle.Some? ==> NoDup(cycle.value) && forall n :: n in cycle.value <==> n in nodes && !Finite(nodes, n)
    {
      var topo := TopologicalSort();
      AcyclicIffSorted(nodes, topo);
      if |topo| != |nodes| {
        var topoSet := ToSet(topo);
        assert exists n :: n in nodes && n !in topoSet;
        var cycleNodes: seq<Id> := [];
        var todo := nodes.Keys;
        while todo != {}
          invariant todo <= nodes.Keys && NoDup(cycleNodes)
          invariant forall n :: n in cycleNodes <==> n in nodes.Keys - todo && n !in topoSet
        {
          var id :| id in todo;
          if id !in topoSet {
            cycleNodes := cycleNodes + [id];
          }
          todo := todo - {id};
        }
        if cycleNodes != [] {
          return Some(cycleNodes);
        }
      }
      return None;
    }

    method GetAllDependencies(id: Id) returns (r: Option<set<Id>>)
      requires Valid()
      ensures r == if id in nodes then Some(Upstream(nodes, id)) else None
    {
      if id !in nodes {
        return None;
      }
      var deps := Worklist(nodes, id);
      UpstreamIsClosed(nodes, id, deps);
      return Some(deps);
    }

    /** What an update of `sourceId` makes stale, in an order safe to recompute. */
    method GetAffectedNodes(sourceId: Id) returns (r: seq<Id>)
      requires Valid()
      modifies this
      ensures Valid() && DagStep(old(State()), SortOp, State())
      ensures r == InSet(topoOrder, Downstream(nodes, sourceId))
    {
      ghost var down := Downstream(nodes, sourceId);
      ghost var g := nodes;
      var affected: set<Id> := {};
      if sourceId in nodes {
        affected := Worklist(Flip(nodes), sourceId);
      } else {
        NothingDownstream(nodes, sourceId);
      }
      assert affected * g.Keys == down;
      var topo := TopologicalSort();
      AcyclicIffSorted(nodes, topo);
      SortKeepsDownstream(old(State()), State(), sourceId);
      r := InSet(topo, affected);
      forall n | n in topo
        ensures n in affected <==> n in down
      {
        assert n in ToSet(topo) && n in g;
        assert n in affected * g.Keys <==> n in down;
      }
      FilterAgree(topo, n => n in affected, n => n in down);
    }

    /** Groups the sort by stored depth, shallowest group first. */
    method GetParallelLevels() returns (levels: seq<seq<Id>>)
      requires Valid()
      modifies this
      ensures Valid() && DagStep(old(State()), SortOp, State())
      ensures levels == LevelsOf(nodes, topoOrder)
    {
      var topo := TopologicalSort();
      levels := GroupIntoLevels(nodes, topo);
    }
  }

  // ----- parallel levels -----

  method GroupIntoLevels(nodes: Nodes, topo: seq<Id>) returns (levels: seq<seq<Id>>)
    ensures levels == LevelsOf(nodes, topo)
  {
    var grouped := GroupByDepth(nodes, topo);
    GroupedKeys(nodes, topo, grouped);
    var ds := SortKeys(grouped.Keys);
    assert forall i | 0 <= i < |ds| :: ds[i] in ds;
    levels := InKeyOrder(grouped, ds);
  }

  ghost predicate Grouped(g: Nodes, order: seq<Id>, grouped: map<nat, seq<Id>>) {
    && (forall k: nat :: k in grouped <==> AtDepth(g, order, k) != [])
    && (forall k | k in grouped :: grouped[k] == AtDepth(g, order, k))
  }

  lemma GroupOne(g: Nodes, order: seq<Id>, grouped: map<nat, seq<Id>>, id: Id)
    requires Grouped(g, order, grouped)
    ensures id !in g ==> Grouped(g, order + [id], grouped)
    ensures id in g ==>
              var k := g[id].depth;
              Grouped(g, order + [id], grouped[k := (if k in grouped then grouped[k] else []) + [id]])
  {
    forall j: nat
      ensures AtDepth(g, order + [id], j) == if id in g && g[id].depth == j then AtDepth(g, order, j) + [id] else AtDepth(g, order, j)
    {
      AtDepthSnoc(g, order, id, j);
    }
  }

  lemma GroupedKeys(g: Nodes, order: seq<Id>, grouped: map<nat, seq<Id>>)
    requires Grouped(g, order, grouped)
    ensures grouped.Keys == DepthsOf(g, order)
  {
    forall k | k in grouped
      ensures k in DepthsOf(g, order)
    {
      var n := AtDepth(g, order, k)[0];
      assert n in AtDepth(g, order, k);
      assert g[n].depth in DepthsOf(g, order);
    }
    forall k | k in DepthsOf(g, order)
      ensures k in grouped
    {
      var n :| n in order && n in g && g[n].depth == k;
      assert n in AtDepth(g, order, k);
    }
  }

  method GroupByDepth(nodes: Nodes, topo: seq<Id>) returns (grouped: map<nat, seq<Id>>)
    ensures Grouped(nodes, topo, grouped)
  {
    grouped := map[];
    for i := 0 to |topo|
      invariant Grouped(nodes, topo[..i], grouped)
    {
      var id := topo[i];
      assert topo[..i + 1] == topo[..i] + [id];
      GroupOne(nodes, topo[..i], grouped, id);
      if id in nodes {
        var k := nodes[id].depth;
        grouped := grouped[k := (if k in grouped then grouped[k] else []) + [id]];
      }
    }
    assert topo[..|topo|] == topo;
  }

  /** The groups in the order of `ds`. */
  method InKeyOrder(grouped: map<nat, seq<Id>>, ds: seq<nat>) returns (levels: seq<seq<Id>>)
    requires forall i | 0 <= i < |ds| :: ds[i] in grouped
    ensures |levels| == |ds|
    ensures forall i | 0 <= i < |ds| :: levels[i] == grouped[ds[i]]
  {
    levels := [];
    for i := 0 to |ds|
      invariant |levels| == i
      invariant forall j | 0 <= j < i :: levels[j] == grouped[ds[j]]
    {
      levels := levels + [grouped[ds[i]]];
    }
  }

  // ----- the worklist closure -----

  /** The worklist loop of both closure queries; ids that are not nodes may be collected but are
      not expanded. The forward query runs it on the flipped graph. */
  method Worklist(g: Nodes, id: Id) returns (seen: set<Id>)
    requires id in g
    ensures seen * g.Keys == Upstream(g, id) && seen <= Mentioned(g)
  {
    seen := {};
    var queue := g[id].dependencies;
    ExploreStart(g, id);
    while queue != []
      invariant Explored(g, id, seen, queue)
      invariant seen <= Mentioned(g) && ToSet(queue) <= Mentioned(g)
      decreases |Mentioned(g) - seen|, |queue|
    {
      var next := queue[0];
      ExploreStep(g, id, seen, queue);
      queue := queue[1..];
      if next !in seen {
        Shrinks(Mentioned(g), seen, next);
        seen := seen + {next};
        queue := queue + if next in g then g[next].dependencies else [];
      }
    }
    ExploredAll(g, id, seen);
  }

  lemma UpstreamIsClosed(g: Nodes, id: Id, deps: set<Id>)
    requires Closed(g) && id in g && deps * g.Keys == Upstream(g, id) && deps <= Mentioned(g)
    ensures deps == Upstream(g, id)
  {
    assert Mentioned(g) == g.Keys;
  }

  lemma Shrinks(universe: set<Id>, seen: set<Id>, x: Id)
    requires x in universe && x !in seen
    ensures |universe - (seen + {x})| < |universe - seen|
  {
    assert universe - seen == (universe - (seen + {x})) + {x};
  }

  lemma WithoutTwice(s: seq<Id>, id: Id)
    ensures Without(Without(s, id), id) == Without(s, id)
  {
    FilterAll(Without(s, id), x => x != id);
  }

  lemma NothingDownstream(g: Nodes, id: Id)
    requires id !in g
    ensures Downstream(g, id) == {}
  {
    forall n | n in g
      ensures !Reaches(Flip(g), n, id)
    {
      if Reaches(Flip(g), n, id) {
        ReachesSplit(Flip(g), n, id);
      }
    }
  }

  // ----- the pieces of the sort -----

  /** Kahn's algorithm with a FIFO queue and an overwritten depth per relaxed edge. */
  method Kahn(nodes: Nodes) returns (result: seq<Id>, depth: map<Id, nat>)
    requires Keyed(nodes) && Closed(nodes)
    ensures KahnOrder(nodes, result) && Depths(nodes, result, depth)
    ensures forall n | n in result :: n in nodes
  {
    var inDegree, graph := BuildGraph(nodes);
    var queue := ZeroDegree(inDegree);
    result, depth := [], map[];
    KahnInit(nodes, inDegree, queue);
    while queue != []
      invariant KahnInv(nodes, inDegree, queue, result, depth)
      decreases |nodes| - |result|
    {
      var id := queue[0];
      NoUnderflow(nodes, graph, inDegree, queue, result);
      var inDegree', depth', ready := Relax(Adjacent(graph, id), Level(depth, id), inDegree, depth);
      Step(nodes, graph, inDegree, queue, result, depth, inDegree', depth', ready);
      queue, result := queue[1..] + ready, result + [id];
      inDegree, depth := inDegree', depth';
    }
    FinishedOrder(nodes, result);
  }

  /** In-degrees and adjacency lists, visiting the nodes in arbitrary order. */
  method BuildGraph(nodes: Nodes) returns (inDegree: map<Id, nat>, graph: map<Id, seq<Id>>)
    requires Keyed(nodes)
    ensures Degrees(nodes, inDegree, {}) && EdgesOf(nodes, graph)
  {
    inDegree, graph := map[], map[];
    assert forall d :: Adjacent(graph, d) == [];
    var todo := nodes.Keys;
    while todo != {}
      invariant todo <= nodes.Keys
      invariant inDegree.Keys == nodes.Keys - todo
      invariant forall n | n in inDegree :: inDegree[n] == |nodes[n].dependencies|
      invariant EdgesSoFar(nodes, todo, graph)
    {
      var k :| k in todo;
      ghost var graph0 := graph;
      inDegree, graph := AddEdges(nodes[k], inDegree, graph);
      EdgesOneNode(nodes, todo, graph0, k, graph);
      todo := todo - {k};
    }
    EdgesComplete(nodes, graph);
    forall n | n in nodes
      ensures inDegree[n] == Pending(nodes[n].dependencies, {})
    {
      PendingNone(nodes[n].dependencies);
    }
  }

  /** The edges into one node: one in-degree unit and one adjacency entry per dependency entry. */
  method AddEdges(node: FactorNode, inDegree0: map<Id, nat>, graph0: map<Id, seq<Id>>)
    returns (inDegree: map<Id, nat>, graph: map<Id, seq<Id>>)
    requires node.id !in inDegree0
    ensures inDegree == inDegree0[node.id := |node.dependencies|]
    ensures EdgesAdded(graph0, node.id, node.dependencies, graph)
  {
    inDegree := inDegree0[node.id := 0];
    graph := graph0[node.id := Adjacent(graph0, node.id)];
    EdgesAddedNone(graph0, node.id);
    for i := 0 to |node.dependencies|
      invariant inDegree == inDegree0[node.id := i]
      invariant EdgesAdded(graph0, node.id, node.dependencies[..i], graph)
    {
      var dep := node.dependencies[i];
      assert node.dependencies[..i + 1] == node.dependencies[..i] + [dep];
      EdgesAddedOne(graph0, node.id, node.dependencies[..i], graph, dep);
      inDegree := inDegree[node.id := (if node.id in inDegree then inDegree[node.id] else 0) + 1];
      graph := graph[dep := Adjacent(graph, dep) + [node.id]];
    }
    assert node.dependencies[..|node.dependencies|] == node.dependencies;
  }

  /** The initial queue, in arbitrary order. */
  method ZeroDegree(inDegree: map<Id, nat>) returns (queue: seq<Id>)
    ensures NoDup(queue)
    ensures forall n :: n in queue <==> n in inDegree && inDegree[n] == 0
  {
    queue := [];
    var todo := inDegree.Keys;
    while todo != {}
      invariant todo <= inDegree.Keys && NoDup(queue)
      invariant forall n :: n in queue <==> n in inDegree.Keys - todo && inDegree[n] == 0
    {
      var id :| id in todo;
      if inDegree[id] == 0 {
        queue := queue + [id];
      }
      todo := todo - {id};
    }
  }

  /** Relaxes every edge out of one popped node; `ready` lists the nodes whose in-degree reached zero. */
  method Relax(dependents: seq<Id>, level: nat, inDegree0: map<Id, nat>, depth0: map<Id, nat>)
    returns (inDegree: map<Id, nat>, depth: map<Id, nat>, ready: seq<Id>)
    requires forall n | n in dependents :: n in inDegree0 && multiset(dependents)[n] <= inDegree0[n]
    ensures Relaxed(dependents, level, inDegree0, depth0, inDegree, depth, ready)
  {
    inDegree, depth, ready := inDegree0, depth0, [];
    for i := 0 to |dependents|
      invariant Relaxed(dependents[..i], level, inDegree0, depth0, inDegree, depth, ready)
    {
      var dep := dependents[i];
      assert dependents == dependents[..i] + [dep] + dependents[i + 1..];
      assert dependents[..i + 1] == dependents[..i] + [dep];
      assert multiset(dependents)[dep] >= multiset(dependents[..i])[dep] + 1;
      if dep in inDegree {
        DegreeDown(dependents[..i], dep, inDegree0, inDegree);
        DepthSet(dependents[..i], dep, level, depth0, depth);
        ReadyGrows(dependents[..i], dep, inDegree, ready);
        inDegree := inDegree[dep := inDegree[dep] - 1];
        depth := depth[dep := level + 1];
        if inDegree[dep] == 0 {
          ready := ready + [dep];
        }
      }
    }
    assert dependents[..|dependents|] == dependents;
  }
}
