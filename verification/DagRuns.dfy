/** Whole runs of the DAG manager: what every reachable state satisfies, when the parallel levels are
    strict, and how the two closure queries mirror each other. */
module DagRuns {
  import opened Seqs
  import opened DependencyGraph
  import opened KahnSort
  import opened DagManager

  /** States visited by performing `ops` one after the other from the empty manager. */
  ghost predicate Run(states: seq<DagState>, ops: seq<DagOp>) {
    && |states| == |ops| + 1
    && states[0] == EMPTY
    && forall i | 0 <= i < |ops| :: DagStep(states[i], ops[i], states[i + 1])
  }

  // ----- safety of every run -----

  lemma AddKeepsAcyclic(g: Nodes, node: FactorNode)
    requires Closed(g) && Acyclic(g) && CanAdd(g, node)
    ensures Acyclic(AddedNodes(g, node))
  {
    var h := AddedNodes(g, node);
    forall n | n in h
      ensures !Reaches(h, n, n)
    {
      if Reaches(h, n, n) {
        var c :| ChainBetween(h, c, n, n);
        var last := |c| - 1;
        forall i | 0 <= i < |c|
          ensures c[i] in g
        {
          if i < last {
            assert c[i] in h[c[i + 1]].dependencies;
          } else {
            assert c[0] in h[c[1]].dependencies;
          }
        }
        assert ChainBetween(g, c, n, n);
      }
    }
  }

  lemma RemoveKeepsAcyclic(g: Nodes, id: Id)
    requires Acyclic(g) && id in g
    ensures Acyclic(RemovedNodes(g, id))
  {
    var h := RemovedNodes(g, id);
    forall n | n in h
      ensures !Reaches(h, n, n)
    {
      if Reaches(h, n, n) {
        var c :| ChainBetween(h, c, n, n);
        assert ChainBetween(g, c, n, n);
      }
    }
  }

  lemma StepSafe(s: DagState, op: DagOp, s': DagState)
    requires DagStep(s, op, s') && Inv(s) && Acyclic(s.nodes)
    ensures Inv(s') && Acyclic(s'.nodes)
  {
    match op
    case AddOp(node) =>
      AddKeepsInv(s, node, s');
      if CanAdd(s.nodes, node) {
        AddKeepsAcyclic(s.nodes, node);
      }
    case RemoveOp(id) =>
      RemoveKeepsInv(s, id, s');
      if id in s.nodes {
        RemoveKeepsAcyclic(s.nodes, id);
      }
    case SortOp =>
      SortKeepsInv(s, s');
      SameEdgesSameChains(s.nodes, s'.nodes);
    case ClearOp =>
  }

  /** Every reachable graph is dependency-closed and acyclic, and a clean cache is a valid order of the
      current graph, with longest-chain depths. Holds for arbitrary nodes, pre-filled fields included. */
  lemma {:induction false} RunSafe(states: seq<DagState>, ops: seq<DagOp>, i: nat)
    requires Run(states, ops) && i < |states|
    ensures Inv(states[i]) && Acyclic(states[i].nodes)
  {
    if i == 0 {
    } else {
      RunSafe(states, ops, i - 1);
      assert DagStep(states[i - 1], ops[i - 1], states[i]);
      StepSafe(states[i - 1], ops[i - 1], states[i]);
    }
  }

  /** So in a reachable clean state the cached order lists every node. */
  lemma RunCacheComplete(states: seq<DagState>, ops: seq<DagOp>, i: nat)
    requires Run(states, ops) && i < |states| && !states[i].dirty
    ensures ToSet(states[i].topoOrder) == states[i].nodes.Keys && |states[i].topoOrder| == |states[i].nodes|
  {
    RunSafe(states, ops, i);
    AcyclicIffSorted(states[i].nodes, states[i].topoOrder);
  }

  // ----- the exact inverse -----

  /** How often `n` is listed among the dependents of `d` after adding a node. */
  lemma LinkedCount(g: Nodes, node: FactorNode, d: Id, n: Id)
    requires d in g && d != node.id
    ensures var k := multiset(node.dependencies)[d];
            multiset(AddedNodes(g, node)[d].dependents)[n] == multiset(g[d].dependents)[n] + if n == node.id then k else 0
  {
    RepeatCount(node.id, multiset(node.dependencies)[d], n);
  }

  lemma AddKeepsMirrorAt(g: Nodes, node: FactorNode, d: Id, n: Id)
    requires Mirrored(g) && Closed(g) && CanAdd(g, node) && node.dependents == []
    requires d in AddedNodes(g, node) && n in AddedNodes(g, node)
    ensures var h := AddedNodes(g, node); multiset(h[d].dependents)[n] == multiset(h[n].dependencies)[d]
  {
    if d == node.id {
      assert d !in AddedNodes(g, node)[n].dependencies;
    } else {
      LinkedCount(g, node, d, n);
      assert n == node.id ==> n !in g[d].dependents;
    }
  }

  lemma AddKeepsMirror(g: Nodes, node: FactorNode)
    requires Mirrored(g) && Closed(g) && CanAdd(g, node) && node.dependents == []
    ensures Mirrored(AddedNodes(g, node))
  {
    var h := AddedNodes(g, node);
    forall d, n | d in h && n in h
      ensures multiset(h[d].dependents)[n] == multiset(h[n].dependencies)[d]
    {
      AddKeepsMirrorAt(g, node, d, n);
    }
    forall d, n | d in h && n in h[d].dependents
      ensures n in h
    {
      if d != node.id {
        LinkedCount(g, node, d, n);
        assert n in multiset(h[d].dependents);
      }
    }
  }

  lemma RemoveKeepsMirror(g: Nodes, id: Id)
    requires Mirrored(g) && id in g
    ensures Mirrored(RemovedNodes(g, id))
  {
    var h := RemovedNodes(g, id);
    forall d, n | d in h && n in h
      ensures multiset(h[d].dependents)[n] == multiset(h[n].dependencies)[d]
    {
      FilterCount(g[d].dependents, x => x != id, n);
      FilterCount(g[n].dependencies, x => x != id, d);
    }
    forall d, n | d in h && n in h[d].dependents
      ensures n in h
    {
      MirrorMeaning(g, d, id);
      assert n in g[d].dependents && n in g;
    }
  }

  lemma StepKeepsMirror(s: DagState, op: DagOp, s': DagState)
    requires DagStep(s, op, s') && Inv(s) && Mirrored(s.nodes)
    requires op.AddOp? ==> op.node.dependents == []
    ensures Mirrored(s'.nodes)
  {
    match op
    case AddOp(node) =>
      if CanAdd(s.nodes, node) {
        AddKeepsMirror(s.nodes, node);
      }
    case RemoveOp(id) =>
      if id in s.nodes {
        RemoveKeepsMirror(s.nodes, id);
      }
    case SortOp =>
    case ClearOp =>
  }

  /** With nodes from the public constructors, which start with no dependents, the forward edges are
      the exact multiset inverse of the backward ones in every reachable state. */
  lemma {:induction false} RunMirrored(states: seq<DagState>, ops: seq<DagOp>, i: nat)
    requires Run(states, ops) && i < |states|
    requires forall j | 0 <= j < |ops| && ops[j].AddOp? :: ops[j].node.dependents == []
    ensures Mirrored(states[i].nodes)
  {
    if i == 0 {
    } else {
      RunMirrored(states, ops, i - 1);
      RunSafe(states, ops, i - 1);
      assert DagStep(states[i - 1], ops[i - 1], states[i]);
      StepKeepsMirror(states[i - 1], ops[i - 1], states[i]);
    }
  }

  // ----- closure duality -----

  function Reversed(c: seq<Id>): seq<Id> {
    seq(|c|, i requires 0 <= i < |c| => c[|c| - 1 - i])
  }

  lemma MirrorMeaning(g: Nodes, d: Id, n: Id)
    requires Mirrored(g) && d in g
    ensures n in g[d].dependents <==> DependsOn(g, n, d)
  {
    if n in g {
      assert n in multiset(g[d].dependents) <==> d in multiset(g[n].dependencies);
    }
  }

  /** Reversing a chain of `g` gives a chain of any graph with the opposite edges. */
  lemma ReverseChain(g: Nodes, f: Nodes, a: Id, b: Id)
    requires f.Keys == g.Keys && Reaches(g, a, b)
    requires forall n, d | DependsOn(g, n, d) && d in g :: DependsOn(f, d, n)
    ensures Reaches(f, b, a)
  {
    var c :| ChainBetween(g, c, a, b);
    var r := Reversed(c);
    forall i, j | 0 <= i < j < |r| && j == i + 1
      ensures r[i] in f[r[j]].dependencies
    {
      var k := |c| - 1 - j;
      assert c[k] in g[c[k + 1]].dependencies;
      assert DependsOn(g, c[k + 1], c[k]);
    }
    assert ChainBetween(f, r, b, a);
  }

  lemma FlipReaches(g: Nodes, a: Id, b: Id)
    requires Mirrored(g)
    ensures Reaches(g, a, b) <==> Reaches(Flip(g), b, a)
  {
    var f := Flip(g);
    forall n, d | d in g
      ensures DependsOn(f, d, n) <==> DependsOn(g, n, d)
    {
      MirrorMeaning(g, d, n);
    }
    if Reaches(g, a, b) {
      ReverseChain(g, f, a, b);
    }
    if Reaches(f, b, a) {
      ReverseChain(f, g, b, a);
    }
  }

  /** `get_affected_nodes(s)` lists, without repeats and dependencies first, exactly the nodes that have
      `s` among all their dependencies. */
  lemma ClosureDuality(g: Nodes, order: seq<Id>, s: Id)
    requires Mirrored(g) && Closed(g) && Acyclic(g) && KahnOrder(g, order)
    ensures var affected := InSet(order, Downstream(g, s));
      && NoDup(affected)
      && (forall n :: n in affected <==> n in g && s in Upstream(g, n))
      && (forall i, j | 0 <= i < j < |affected| :: affected[j] !in Upstream(g, affected[i]))
  {
    var down := Downstream(g, s);
    var affected := InSet(order, down);
    AcyclicIffSorted(g, order);
    FilterNoDup(order, n => n in down);
    forall n
      ensures n in affected <==> n in g && s in Upstream(g, n)
    {
      FlipReaches(g, s, n);
      assert n in order <==> n in ToSet(order);
      if Reaches(g, s, n) {
        ReachesSplit(g, s, n);
      }
    }
    forall i, j | 0 <= i < j < |affected|
      ensures affected[j] !in Upstream(g, affected[i])
    {
      FilterOrder(order, n => n in down, i, j);
      if Reaches(g, affected[j], affected[i]) {
        var c :| ChainBetween(g, c, affected[j], affected[i]);
        ChainClimbs(g, order, c);
      }
    }
  }

  // ----- strict levels -----

  /** Every stored depth exceeds the stored depths of the node's dependencies. */
  ghost predicate StrictLevels(g: Nodes) {
    forall n, d | DependsOn(g, n, d) && d in g :: g[d].depth < g[n].depth
  }

  /** Nodes without dependencies are stored at depth zero. */
  ghost predicate ZeroRoots(g: Nodes) {
    forall n | n in g && g[n].dependencies == [] :: g[n].depth == 0
  }

  lemma LongestGrows(g: Nodes, n: Id, d: Id, j: nat, k: nat)
    requires DependsOn(g, n, d) && LongestChain(g, d, j) && LongestChain(g, n, k)
    ensures j < k
  {
    var c :| ChainTo(g, c, d) && |c| == j + 1;
    ChainSnoc(g, c, n);
    assert ChainTo(g, c + [n], n) && |c + [n]| == j + 2;
  }

  lemma SortDepths(s: DagState, s': DagState, n: Id)
    requires Inv(s) && s.dirty && Acyclic(s.nodes) && DagStep(s, SortOp, s') && n in s.nodes
    ensures s'.nodes[n].dependencies == s.nodes[n].dependencies
    ensures s.nodes[n].dependencies != [] ==> LongestChain(s.nodes, n, s'.nodes[n].depth)
    ensures s.nodes[n].dependencies == [] ==> s'.nodes[n].depth == s.nodes[n].depth
  {
    var g, h := s.nodes, s'.nodes;
    AcyclicIffSorted(g, s'.topoOrder);
    assert n in ToSet(s'.topoOrder);
    assert DepthWritten(g, s'.topoOrder, n, g[n].depth, h[n].depth);
    if g[n].dependencies != [] {
      WrittenDepthIsLongestChain(g, s'.topoOrder, n, g[n].depth, h[n].depth);
    }
  }

  /** The condition under which a sort leaves strict levels, read off the graph before the sort. */
  ghost predicate ShallowRoots(g: Nodes) {
    forall n, d, k: nat | DependsOn(g, n, d) && d in g && g[d].dependencies == [] && LongestChain(g, n, k) ::
      g[d].depth < k
  }

  /** When a sort leaves strict levels: exactly when the depth already stored on each node without
      dependencies, which the sort never rewrites, is below the longest chain of its dependents. */
  lemma SortStrictIff(s: DagState, s': DagState)
    requires Inv(s) && s.dirty && Acyclic(s.nodes) && DagStep(s, SortOp, s')
    ensures StrictLevels(s'.nodes) <==> ShallowRoots(s.nodes)
  {
    var g, h := s.nodes, s'.nodes;
    forall n, d | DependsOn(g, n, d) && d in g
      ensures LongestChain(g, n, h[n].depth) && DependsOn(h, n, d)
      ensures g[d].dependencies == [] ==> h[d].depth == g[d].depth
      ensures g[d].dependencies != [] ==> h[d].depth < h[n].depth
    {
      SortDepths(s, s', n);
      SortDepths(s, s', d);
      if g[d].dependencies != [] {
        LongestGrows(g, n, d, h[d].depth, h[n].depth);
      }
    }
    if StrictLevels(h) {
      forall n, d, k: nat | DependsOn(g, n, d) && d in g && g[d].dependencies == [] && LongestChain(g, n, k)
        ensures g[d].depth < k
      {
        LongestChainUnique(g, n, k, h[n].depth);
      }
    }
    if ShallowRoots(g) {
      forall n, d | DependsOn(h, n, d) && d in h
        ensures h[d].depth < h[n].depth
      {
        SortDepths(s, s', n);
        assert DependsOn(g, n, d);
      }
    }
  }

  /** A removal keeps the roots at depth zero exactly when every node that loses its last dependency is
      itself still at depth zero. */
  lemma RemoveZeroRootsIff(s: DagState, id: Id, s': DagState)
    requires Inv(s) && ZeroRoots(s.nodes) && id in s.nodes && DagStep(s, RemoveOp(id), s')
    ensures ZeroRoots(s'.nodes) <==> Harmless(s.nodes, id)
  {
    var g, h := s.nodes, s'.nodes;
    forall n | n in h
      ensures h[n].depth == g[n].depth
      ensures h[n].dependencies == [] <==> forall d | d in g[n].dependencies :: d == id
    {
      if forall d | d in g[n].dependencies :: d == id {
        if g[n].dependencies != [] {
          assert g[n].dependencies[0] in g[n].dependencies;
        }
        if h[n].dependencies != [] {
          var e := h[n].dependencies[0];
          assert e in h[n].dependencies;
        }
      } else {
        var d :| d in g[n].dependencies && d != id;
        assert d in h[n].dependencies;
      }
    }
    forall n | n in h
      ensures Orphaned(g, id, n) <==> h[n].dependencies == [] && g[n].dependencies != []
    {
    }
  }

  /** `n` depends on `id` and on nothing else. */
  ghost predicate Orphaned(g: Nodes, id: Id, n: Id) {
    n in g && n != id && g[n].dependencies != [] && forall d | d in g[n].dependencies :: d == id
  }

  ghost predicate Harmless(g: Nodes, id: Id) {
    forall n | Orphaned(g, id, n) :: g[n].depth == 0
  }

  lemma StepKeepsZeroRoots(s: DagState, op: DagOp, s': DagState)
    requires DagStep(s, op, s') && Inv(s) && Acyclic(s.nodes) && ZeroRoots(s.nodes)
    requires op.AddOp? ==> op.node.depth == 0
    requires op.RemoveOp? ==> Harmless(s.nodes, op.id)
    ensures ZeroRoots(s'.nodes)
  {
    match op
    case AddOp(node) =>
    case RemoveOp(id) =>
      if id in s.nodes {
        RemoveZeroRootsIff(s, id, s');
      }
    case SortOp =>
      if s.dirty {
        forall n | n in s'.nodes && s'.nodes[n].dependencies == []
          ensures s'.nodes[n].depth == 0
        {
          assert DepthWritten(s.nodes, s'.topoOrder, n, s.nodes[n].depth, s'.nodes[n].depth);
        }
      }
    case ClearOp =>
  }

  lemma {:induction false} RunZeroRoots(states: seq<DagState>, ops: seq<DagOp>, i: nat)
    requires Run(states, ops) && i < |states|
    requires forall j | 0 <= j < |ops| && ops[j].AddOp? :: ops[j].node.depth == 0
    requires forall j | 0 <= j < |ops| && ops[j].RemoveOp? :: Harmless(states[j].nodes, ops[j].id)
    ensures ZeroRoots(states[i].nodes)
  {
    if i == 0 {
    } else {
      RunZeroRoots(states, ops, i - 1);
      RunSafe(states, ops, i - 1);
      assert DagStep(states[i - 1], ops[i - 1], states[i]);
      StepKeepsZeroRoots(states[i - 1], ops[i - 1], states[i]);
    }
  }

  /** In every run whose removals are harmless (add-only runs included), each clean state has strict levels. */
  lemma RunStrict(states: seq<DagState>, ops: seq<DagOp>, i: nat)
    requires Run(states, ops) && i < |states| && !states[i].dirty
    requires forall j | 0 <= j < |ops| && ops[j].AddOp? :: ops[j].node.depth == 0
    requires forall j | 0 <= j < |ops| && ops[j].RemoveOp? :: Harmless(states[j].nodes, ops[j].id)
    ensures StrictLevels(states[i].nodes)
  {
    RunZeroRoots(states, ops, i);
    RunSafe(states, ops, i);
    CleanZeroRootsStrict(states[i]);
  }

  lemma CleanZeroRootsStrict(s: DagState)
    requires Inv(s) && Acyclic(s.nodes) && !s.dirty && ZeroRoots(s.nodes)
    ensures StrictLevels(s.nodes)
  {
    var g := s.nodes;
    AcyclicIffSorted(g, s.topoOrder);
    forall n, d | DependsOn(g, n, d) && d in g
      ensures g[d].depth < g[n].depth
    {
      assert n in ToSet(s.topoOrder) && d in ToSet(s.topoOrder);
      if g[d].dependencies == [] {
        assert ChainTo(g, [d], d);
        ChainSnoc(g, [d], n);
        assert ChainTo(g, [d] + [n], n);
      } else {
        LongestGrows(g, n, d, g[d].depth, g[n].depth);
      }
    }
  }

  lemma LevelMembers(g: Nodes, order: seq<Id>, i: nat)
    requires NoDup(order) && i < |LevelsOf(g, order)|
    ensures var k, level := Sorted(DepthsOf(g, order))[i], LevelsOf(g, order)[i];
      && level != [] && NoDup(level)
      && forall n :: n in level <==> n in order && n in g && g[n].depth == k
  {
    var ds := Sorted(DepthsOf(g, order));
    FilterNoDup(order, n => n in g && g[n].depth == ds[i]);
    assert ds[i] in ds;
    var n :| n in order && n in g && g[n].depth == ds[i];
    assert n in AtDepth(g, order, ds[i]);
  }

  lemma LevelOfNode(g: Nodes, order: seq<Id>, n: Id) returns (i: nat)
    requires NoDup(order) && n in order && n in g
    ensures i < |LevelsOf(g, order)| && n in LevelsOf(g, order)[i]
  {
    var ds := Sorted(DepthsOf(g, order));
    assert g[n].depth in DepthsOf(g, order);
    assert g[n].depth in ds;
    i :| 0 <= i < |ds| && ds[i] == g[n].depth;
    LevelMembers(g, order, i);
  }

  ghost predicate DepthIncreasing(g: Nodes, levels: seq<seq<Id>>) {
    forall i, j | 0 <= i < j < |levels| :: Shallower(g, levels[i], levels[j])
  }

  ghost predicate Shallower(g: Nodes, s: seq<Id>, t: seq<Id>) {
    forall a, b | a in s && b in t :: a in g && b in g && g[a].depth < g[b].depth
  }

  /** Each listed node is in a level, no level repeats a node, and depth grows with the level,
      so no node is in two levels. */
  lemma LevelsPartition(g: Nodes, order: seq<Id>)
    requires NoDup(order) && forall n | n in order :: n in g
    ensures forall i | 0 <= i < |LevelsOf(g, order)| :: LevelsOf(g, order)[i] != [] && NoDup(LevelsOf(g, order)[i])
    ensures forall n :: n in order <==> exists i :: 0 <= i < |LevelsOf(g, order)| && n in LevelsOf(g, order)[i]
    ensures DepthIncreasing(g, LevelsOf(g, order))
  {
    var ds, levels := Sorted(DepthsOf(g, order)), LevelsOf(g, order);
    forall i | 0 <= i < |levels|
      ensures levels[i] != [] && NoDup(levels[i])
      ensures forall n | n in levels[i] :: n in order && n in g && g[n].depth == ds[i]
    {
      LevelMembers(g, order, i);
    }
    forall n | n in order
      ensures exists i :: 0 <= i < |levels| && n in levels[i]
    {
      var i := LevelOfNode(g, order, n);
    }
  }

  /** With strict levels a dependency always sits in an earlier level than its dependent. */
  lemma DependencyInEarlierLevel(g: Nodes, order: seq<Id>, n: Id, d: Id, i: nat, j: nat)
    requires NoDup(order) && (forall n | n in order :: n in g) && StrictLevels(g)
    requires DependsOn(g, n, d) && i < |LevelsOf(g, order)| && j < |LevelsOf(g, order)|
    requires d in LevelsOf(g, order)[i] && n in LevelsOf(g, order)[j]
    ensures i < j
  {
    LevelMembers(g, order, i);
    LevelMembers(g, order, j);
    assert g[d].depth < g[n].depth;
  }

  // ----- the run that breaks strictness -----

  function Fresh(id: Id, deps: seq<Id>): FactorNode {
    FactorNode(id, "", if deps == [] then Source else Derived, deps, [], "", map[], 0)
  }

  const A: Id := Id("A")
  const B: Id := Id("B")
  const C: Id := Id("C")

  lemma Distinct()
    ensures A != B && B != C && A != C
  {
    assert A.text[0] == 'A' && B.text[0] == 'B' && C.text[0] == 'C';
  }

  const ONE: Nodes := map[A := Fresh(A, [])]
  const TWO: Nodes := map[A := Fresh(A, []).(dependents := [B]), B := Fresh(B, [A])]
  const THREE: Nodes :=
    map[A := Fresh(A, []).(dependents := [B]), B := Fresh(B, [A]).(dependents := [C]), C := Fresh(C, [B])]

  lemma AddSecond()
    ensures CanAdd(ONE, Fresh(B, [A])) && AddedNodes(ONE, Fresh(B, [A])) == TWO
  {
    Distinct();
    var h := AddedNodes(ONE, Fresh(B, [A]));
    assert multiset([A])[A] == 1 && [] + Repeat(B, 1) == [B];
    assert h.Keys == TWO.Keys && h[A] == TWO[A] && h[B] == TWO[B];
  }

  lemma AddThird()
    ensures CanAdd(TWO, Fresh(C, [B])) && AddedNodes(TWO, Fresh(C, [B])) == THREE
  {
    Distinct();
    var h := AddedNodes(TWO, Fresh(C, [B]));
    assert multiset([B])[B] == 1 && multiset([B])[A] == 0;
    assert [] + Repeat(C, 1) == [C] && [B] + Repeat(C, 0) == [B];
    assert h.Keys == THREE.Keys && h[A] == THREE[A] && h[B] == THREE[B] && h[C] == THREE[C];
  }

  /** A, then B on A, then C on B. */
  method ThreeInARow() returns (dag: FactorDag)
    ensures dag.Valid() && fresh(dag) && dag.dirty && dag.nodes == THREE
  {
    dag := new FactorDag();
    var _ := dag.AddNode(Fresh(A, []));
    assert dag.nodes == ONE;
    AddSecond();
    var _ := dag.AddNode(Fresh(B, [A]));
    AddThird();
    var _ := dag.AddNode(Fresh(C, [B]));
  }

  lemma DropFirst(f: Nodes)
    requires f.Keys == {A, B, C} && f[A].dependents == [B]
    requires f[B].dependencies == [A] && f[C].dependencies == [B]
    ensures var h := RemovedNodes(f, A);
      h.Keys == {B, C} && h[B].dependencies == [] && h[C].dependencies == [B] && h[B].depth == f[B].depth
  {
    assert Without([A], A) == [];
  }

  /** add A; add B on A; add C on B; sort; remove A. */
  method SortThenDrop() returns (dag: FactorDag)
    ensures dag.Valid() && fresh(dag) && dag.dirty
    ensures B in dag.nodes && C in dag.nodes && dag.nodes[B].depth == 1
    ensures dag.nodes[B].dependencies == [] && dag.nodes[C].dependencies == [B]
  {
    dag := ThreeInARow();
    Distinct();
    ghost var f := dag.nodes;
    var _ := dag.TopologicalSort();
    SortedThree(f, dag.nodes);
    SecondOfTwo(dag.nodes, A, B, dag.topoOrder);
    DropFirst(dag.nodes);
    var _ := dag.RemoveNode(A);
  }

  lemma SortedThree(f: Nodes, g: Nodes)
    requires f == THREE && g.Keys == f.Keys && forall n | n in f :: g[n] == f[n].(depth := g[n].depth)
    ensures g.Keys == {A, B, C} && g[A].dependents == [B] && g[A].dependencies == []
    ensures g[B].dependencies == [A] && g[C].dependencies == [B]
  {
    Distinct();
  }

  /** ... and sort again: C still depends on B, yet both carry depth 1, because B lost its only
      dependency after it had been sorted and the sort does not rewrite it. */
  method StaleDepthScenario() returns (dag: FactorDag)
    ensures dag.Valid() && fresh(dag) && !dag.dirty
    ensures DependsOn(dag.nodes, C, B) && B in dag.nodes
    ensures dag.nodes[B].depth == dag.nodes[C].depth == 1
    ensures !StrictLevels(dag.nodes) && C in dag.topoOrder
  {
    dag := SortThenDrop();
    ghost var h := dag.nodes;
    var _ := dag.TopologicalSort();
    assert DepthWritten(h, dag.topoOrder, B, 1, dag.nodes[B].depth);
    SecondOfTwo(dag.nodes, B, C, dag.topoOrder);
    assert DependsOn(dag.nodes, C, B);
  }

  /** A node whose only dependency is a root has longest chain 1. */
  lemma SecondOfTwo(g: Nodes, d: Id, n: Id, order: seq<Id>)
    requires d in g && n in g && g[d].dependencies == [] && g[n].dependencies == [d]
    requires Closed(g) && KahnOrder(g, order) && Settled(g, order)
    ensures n in order && g[n].depth == 1
  {
    forall c | ChainTo(g, c, n)
      ensures |c| <= 2
    {
      if |c| > 2 {
        ChainInit(g, c);
        ChainInit(g, c[..|c| - 1]);
      }
    }
    assert ChainTo(g, [d], d) && DependsOn(g, n, d);
    ChainSnoc(g, [d], n);
    assert ChainsBounded(g, n, 1);
    assert LongestChain(g, n, 1) by {
      assert ChainTo(g, [d] + [n], n);
    }
    LongestChainUnique(g, n, 1, g[n].depth);
  }
}
