/** The parallel DAG executor: level by level, or incrementally from one source. */
module Executor {
  import opened Seqs
  import opened DependencyGraph
  import opened KahnSort
  import opened DagManager
  import opened DagRuns
  import opened Factors

  /** Registered factors read only their DAG dependencies. */
  ghost predicate Agrees<V>(reg: Registry<V>, g: Nodes) {
    forall id, r | id in reg && id in g && r in Reads(reg[id].def) :: r in g[id].dependencies
  }

  // ----- level-parallel equals sequential -----

  lemma OrderReadsEarlier<V>(reg: Registry<V>, g: Nodes, order: seq<Id>)
    requires Agrees(reg, g) && Ordered(g, order) && forall n | n in order :: n in g
    ensures ReadsEarlier(reg, order)
  {
    forall i, r | 0 <= i < |order| && order[i] in reg && r in Reads(reg[order[i]].def) && r in order
      ensures r in order[..i]
    {
      assert DependsOn(g, order[i], r);
    }
  }

  lemma LevelsAllOf(g: Nodes, order: seq<Id>)
    requires NoDup(order) && forall n | n in order :: n in g
    ensures AllOf(LevelsOf(g, order)) == ToSet(order)
    ensures LevelsDisjoint(LevelsOf(g, order))
  {
    LevelsPartition(g, order);
    PartitionAllOf(g, order, LevelsOf(g, order));
  }

  lemma PartitionAllOf(g: Nodes, order: seq<Id>, levels: seq<seq<Id>>)
    requires forall n :: n in order <==> exists i :: 0 <= i < |levels| && n in levels[i]
    requires DepthIncreasing(g, levels)
    ensures AllOf(levels) == ToSet(order) && LevelsDisjoint(levels)
  {
    forall i, j, id | 0 <= i < j < |levels| && id in levels[i]
      ensures id !in levels[j]
    {
      assert Shallower(g, levels[i], levels[j]);
    }
  }

  lemma StrictLevelsSeparate<V>(reg: Registry<V>, g: Nodes, order: seq<Id>)
    requires Agrees(reg, g) && StrictLevels(g)
    requires NoDup(order) && forall n | n in order :: n in g
    ensures LevelsSeparate(reg, LevelsOf(g, order))
  {
    var levels := LevelsOf(g, order);
    forall i, j, id, r | 0 <= i <= j < |levels| && id in levels[i] && id in reg && r in Reads(reg[id].def)
      ensures r !in levels[j]
    {
      LevelMembers(g, order, i);
      LevelMembers(g, order, j);
      assert DependsOn(g, id, r);
      if r in levels[j] {
        DependencyInEarlierLevel(g, order, id, r, j, i);
      }
    }
  }

  /** What `execute` does to the store. */
  ghost function ExecuteStore<V, S>(a: Arith<V, S>, reg: Registry<V>, g: Nodes, order: seq<Id>, st: Store<V, S>): Store<V, S> {
    RunLevels(a, reg, LevelsOf(g, order), st)
  }

  lemma ExecuteSolves<V(!new), S(!new)>(a: Arith<V, S>, reg: Registry<V>, g: Nodes, order: seq<Id>, st: Store<V, S>)
    requires WellRegistered(reg) && Agrees(reg, g) && StrictLevels(g)
    requires NoDup(order) && forall n | n in order :: n in g
    ensures Solves(a, reg, ToSet(order), st, ExecuteStore(a, reg, g, order, st))
  {
    LevelsAllOf(g, order);
    StrictLevelsSeparate(reg, g, order);
    LevelsSolve(a, reg, LevelsOf(g, order), st);
  }

  /** With strict levels, executing level by level leaves the same values and the same operator states
      as evaluating the factors one at a time in any topological order. */
  lemma ParallelEqualsSequential<V(!new), S(!new)>(a: Arith<V, S>, reg: Registry<V>, g: Nodes,
                                                   order: seq<Id>, other: seq<Id>, st: Store<V, S>)
    requires WellRegistered(reg) && Agrees(reg, g) && StrictLevels(g)
    requires KahnOrder(g, order) && KahnOrder(g, other)
    ensures ExecuteStore(a, reg, g, order, st) == RunSequence(a, reg, other, st)
  {
    ExecuteSolves(a, reg, g, order, st);
    OrderReadsEarlier(reg, g, other);
    SequenceSolves(a, reg, other, st);
    assert ToSet(order) == ToSet(other);
    SolutionUnique(a, reg, other, st, ExecuteStore(a, reg, g, order, st), RunSequence(a, reg, other, st));
  }

  /** Level-parallel execution agrees with every one-at-a-time execution, for all registries that agree with
      the graph and all stores. */
  ghost predicate ParallelSound<V(!new), S(!new)>(a: Arith<V, S>, g: Nodes, order: seq<Id>) {
    forall reg: Registry<V>, st: Store<V, S>, other: seq<Id> |
      WellRegistered(reg) && Agrees(reg, g) && KahnOrder(g, other) ::
      ExecuteStore(a, reg, g, order, st) == RunSequence(a, reg, other, st)
  }

  /** Two factors: `d` is recomputed to zero, and `n` copies `d`. */
  function CopyRegistry<V>(d: Id, n: Id): Registry<V> {
    map[d := RegisteredFactor(d, PolarsExpr("")), n := RegisteredFactor(n, Ref(d))]
  }

  lemma CopyAgrees<V>(g: Nodes, d: Id, n: Id)
    requires DependsOn(g, n, d) && d != n
    ensures WellRegistered<V>(CopyRegistry(d, n)) && Agrees<V>(CopyRegistry(d, n), g)
  {
    assert Reads<V>(Ref(d)) == {d} && Reads<V>(PolarsExpr("")) == {};
  }

  lemma CopyLevel<V(!new), S(!new)>(a: Arith<V, S>, level: seq<Id>, d: Id, n: Id, st: Store<V, S>)
    requires d != n && d in st.values
    ensures var st' := RunLevel(a, CopyRegistry(d, n), level, st);
      && (d !in level ==> d in st'.values && st'.values[d] == st.values[d])
      && (n !in level && n in st.values ==> n in st'.values && st'.values[n] == st.values[n])
      && (n in level ==> n in st'.values && st'.values[n] == st.values[d])
  {
  }

  lemma CopyKeeps<V(!new), S(!new)>(a: Arith<V, S>, level: seq<Id>, d: Id, n: Id, st: Store<V, S>)
    requires d != n && n !in level && n in st.values
    ensures var st' := RunLevel(a, CopyRegistry(d, n), level, st); n in st'.values && st'.values[n] == st.values[n]
  {
  }

  /** While the level of `d` has not been stored, `d` holds its old value, and so does `n` once its own level,
      which comes no later, has been stored. */
  ghost predicate StaleAfter<V, S>(st: Store<V, S>, d: Id, n: Id, v: V, i: nat, j: nat, k: nat) {
    && (k <= j ==> d in st.values && st.values[d] == v)
    && (k > i ==> n in st.values && st.values[n] == v)
  }

  lemma CopyStep<V(!new), S(!new)>(a: Arith<V, S>, level: seq<Id>, d: Id, n: Id, v: V, i: nat, j: nat, k: nat, st: Store<V, S>)
    requires d != n && i <= j && (k == i <==> n in level) && (k == j <==> d in level)
    requires StaleAfter(st, d, n, v, i, j, k)
    ensures StaleAfter(RunLevel(a, CopyRegistry(d, n), level, st), d, n, v, i, j, k + 1)
  {
    if k <= j {
      CopyLevel(a, level, d, n, st);
    } else {
      CopyKeeps(a, level, d, n, st);
    }
  }

  /** `n` is in level `i` and in no other. */
  ghost predicate OnlyIn(levels: seq<seq<Id>>, i: nat, n: Id) {
    i < |levels| && forall m | 0 <= m < |levels| :: m == i <==> n in levels[m]
  }

  lemma {:induction false} CopyIsStale<V(!new), S(!new)>(a: Arith<V, S>, levels: seq<seq<Id>>, d: Id, n: Id,
                                                         st: Store<V, S>, i: nat, j: nat, k: nat)
    requires d != n && i <= j && OnlyIn(levels, i, n) && OnlyIn(levels, j, d) && k <= |levels| && d in st.values
    ensures StaleAfter(RunLevels(a, CopyRegistry(d, n), levels[..k], st), d, n, st.values[d], i, j, k)
  {
    if k == 0 {
      assert levels[..0] == [];
    } else {
      CopyIsStale(a, levels, d, n, st, i, j, k - 1);
      CopyOneLevel(a, levels, d, n, st, i, j, k - 1);
    }
  }

  lemma CopyOneLevel<V(!new), S(!new)>(a: Arith<V, S>, levels: seq<seq<Id>>, d: Id, n: Id,
                                       st: Store<V, S>, i: nat, j: nat, k: nat)
    requires d != n && i <= j && OnlyIn(levels, i, n) && OnlyIn(levels, j, d) && k < |levels| && d in st.values
    requires StaleAfter(RunLevels(a, CopyRegistry(d, n), levels[..k], st), d, n, st.values[d], i, j, k)
    ensures StaleAfter(RunLevels(a, CopyRegistry(d, n), levels[..k + 1], st), d, n, st.values[d], i, j, k + 1)
  {
    RunLevelsSnoc(a, CopyRegistry(d, n), levels, k, st);
    CopyStep(a, levels[k], d, n, st.values[d], i, j, k, RunLevels(a, CopyRegistry(d, n), levels[..k], st));
  }

  lemma RunLevelsSnoc<V, S>(a: Arith<V, S>, reg: Registry<V>, levels: seq<seq<Id>>, i: nat, st: Store<V, S>)
    requires i < |levels|
    ensures RunLevels(a, reg, levels[..i + 1], st) == RunLevel(a, reg, levels[i], RunLevels(a, reg, levels[..i], st))
  {
    assert levels[..i + 1][..i] == levels[..i];
  }

  lemma SortedBefore(g: Nodes, order: seq<Id>, n: Id, d: Id)
    requires KahnOrder(g, order) && n in order && DependsOn(g, n, d)
    ensures d in order && d != n
  {
    assert d in order[..Index(order, n)];
  }

  /** A node in the same level as its dependency, or in an earlier one, ends with the dependency's old value. */
  lemma ParallelCopy<V(!new), S(!new)>(a: Arith<V, S>, g: Nodes, order: seq<Id>, n: Id, d: Id, st: Store<V, S>)
    requires Closed(g) && KahnOrder(g, order) && n in order && DependsOn(g, n, d) && g[n].depth <= g[d].depth
    requires d in st.values
    ensures var st' := ExecuteStore(a, CopyRegistry(d, n), g, order, st); n in st'.values && st'.values[n] == st.values[d]
  {
    var levels := LevelsOf(g, order);
    SortedBefore(g, order, n, d);
    SortedAreNodes(g, order);
    LevelsAllOf(g, order);
    var i := LevelOfNode(g, order, n);
    var j := LevelOfNode(g, order, d);
    DeeperIsLater(g, order, n, d, i, j);
    OneLevelOnly(levels, i, n);
    OneLevelOnly(levels, j, d);
    CopyIsStale(a, levels, d, n, st, i, j, |levels|);
    assert levels[..|levels|] == levels;
  }

  lemma SortedAreNodes(g: Nodes, order: seq<Id>)
    requires KahnOrder(g, order)
    ensures forall n | n in order :: n in g
  {
    forall n | n in order
      ensures n in g
    {
      assert Finite(g, n);
    }
  }

  lemma OneLevelOnly(levels: seq<seq<Id>>, i: nat, n: Id)
    requires LevelsDisjoint(levels) && i < |levels| && n in levels[i]
    ensures OnlyIn(levels, i, n)
  {
  }

  lemma DeeperIsLater(g: Nodes, order: seq<Id>, n: Id, d: Id, i: nat, j: nat)
    requires NoDup(order) && i < |LevelsOf(g, order)| && j < |LevelsOf(g, order)|
    requires n in LevelsOf(g, order)[i] && d in LevelsOf(g, order)[j] && n in g && d in g && g[n].depth <= g[d].depth
    ensures i <= j
  {
    LevelMembers(g, order, i);
    LevelMembers(g, order, j);
  }

  /** Evaluated one at a time, dependencies first, it ends with the dependency's new value. */
  lemma SequentialCopy<V(!new), S(!new)>(a: Arith<V, S>, g: Nodes, order: seq<Id>, n: Id, d: Id, st: Store<V, S>)
    requires KahnOrder(g, order) && n in order && DependsOn(g, n, d)
    ensures var st' := RunSequence(a, CopyRegistry(d, n), order, st); n in st'.values && st'.values[n] == a.zero
  {
    SortedBefore(g, order, n, d);
    SortedAreNodes(g, order);
    CopyAgrees<V>(g, d, n);
    OrderReadsEarlier<V>(CopyRegistry(d, n), g, order);
    SequenceSolves(a, CopyRegistry(d, n), order, st);
    CopySolved(a, d, n, ToSet(order), st, RunSequence(a, CopyRegistry(d, n), order, st));
  }

  lemma CopySolved<V(!new), S(!new)>(a: Arith<V, S>, d: Id, n: Id, todo: set<Id>, st: Store<V, S>, st': Store<V, S>)
    requires d != n && d in todo && n in todo && Solves(a, CopyRegistry(d, n), todo, st, st')
    ensures n in st'.values && st'.values[n] == a.zero
  {
  }

  lemma CopyDiffers<V(!new), S(!new)>(a: Arith<V, S>, g: Nodes, order: seq<Id>, n: Id, d: Id, v: V)
    requires Closed(g) && KahnOrder(g, order) && n in order && DependsOn(g, n, d) && g[n].depth <= g[d].depth
    ensures var reg: Registry<V>, st: Store<V, S> := CopyRegistry(d, n), Store(map[d := v], map[]);
      var parallel, sequential := ExecuteStore(a, reg, g, order, st), RunSequence(a, reg, order, st);
      && WellRegistered(reg) && Agrees(reg, g)
      && n in parallel.values && parallel.values[n] == v
      && n in sequential.values && sequential.values[n] == a.zero
  {
    var st: Store<V, S> := Store(map[d := v], map[]);
    SortedBefore(g, order, n, d);
    CopyAgrees<V>(g, d, n);
    ParallelCopy(a, g, order, n, d, st);
    SequentialCopy(a, g, order, n, d, st);
  }

  lemma Unsound<V(!new), S(!new)>(a: Arith<V, S>, g: Nodes, order: seq<Id>, n: Id, d: Id, v: V)
    requires Closed(g) && KahnOrder(g, order) && n in order && DependsOn(g, n, d) && g[n].depth <= g[d].depth
    requires v != a.zero
    ensures !ParallelSound(a, g, order)
  {
    var reg: Registry<V>, st: Store<V, S> := CopyRegistry(d, n), Store(map[d := v], map[]);
    CopyDiffers<V, S>(a, g, order, n, d, v);
    assert ExecuteStore(a, reg, g, order, st) != RunSequence(a, reg, order, st);
  }

  lemma StrictIsSound<V(!new), S(!new)>(a: Arith<V, S>, g: Nodes, order: seq<Id>)
    requires KahnOrder(g, order) && StrictLevels(g)
    ensures ParallelSound(a, g, order)
  {
    forall reg: Registry<V>, st: Store<V, S>, other: seq<Id> |
      WellRegistered(reg) && Agrees(reg, g) && KahnOrder(g, other)
      ensures ExecuteStore(a, reg, g, order, st) == RunSequence(a, reg, other, st)
    {
      ParallelEqualsSequential(a, reg, g, order, other, st);
    }
  }

  /** When level-parallel execution equals sequential execution: exactly when every stored depth exceeds the
      stored depths of the node's dependencies. */
  lemma ParallelSoundIff<V(!new), S(!new)>(a: Arith<V, S>, g: Nodes, order: seq<Id>, v: V)
    requires Closed(g) && Acyclic(g) && KahnOrder(g, order) && v != a.zero
    ensures ParallelSound(a, g, order) <==> StrictLevels(g)
  {
    if StrictLevels(g) {
      StrictIsSound(a, g, order);
    } else {
      var n, d :| DependsOn(g, n, d) && d in g && g[d].depth >= g[n].depth;
      AcyclicIffSorted(g, order);
      assert n in ToSet(order);
      Unsound(a, g, order, n, d, v);
    }
  }

  /** The same condition read off the graph before the sort that an execution starts with. */
  lemma ExecuteSoundIff<V(!new), S(!new)>(a: Arith<V, S>, s: DagState, s': DagState, v: V)
    requires Inv(s) && s.dirty && Acyclic(s.nodes) && DagStep(s, SortOp, s') && v != a.zero
    ensures ParallelSound(a, s'.nodes, s'.topoOrder) <==> ShallowRoots(s.nodes)
  {
    SortKeepsInv(s, s');
    SameEdgesSameChains(s.nodes, s'.nodes);
    ParallelSoundIff(a, s'.nodes, s'.topoOrder, v);
    SortStrictIff(s, s');
  }

  // ----- incremental refines full -----

  /** The factor's stored value already is what evaluating it would give, and evaluating it would not
      advance an operator. */
  ghost predicate UpToDate<V, S>(a: Arith<V, S>, reg: Registry<V>, st: Store<V, S>, id: Id)
    requires id in reg
  {
    && id in st.values
    && st.values[id] == ComputeValue(a, st.values, st.operators, reg[id])
    && !(Stateful(reg[id].def) && id in st.operators)
  }

  /** What `incremental_update(source, v)` does to the store. */
  ghost function IncrementalStore<V, S>(a: Arith<V, S>, reg: Registry<V>, g: Nodes, order: seq<Id>,
                                        st: Store<V, S>, source: Id, v: V): Store<V, S> {
    RunSequence(a, reg, InSet(order, Downstream(g, source)), st.(values := st.values[source := v]))
  }

  lemma UnaffectedReadsUnaffected<V>(reg: Registry<V>, g: Nodes, order: seq<Id>, source: Id, id: Id, r: Id)
    requires Mirrored(g) && Closed(g) && Acyclic(g) && KahnOrder(g, order) && Agrees(reg, g)
    requires id in order && id in reg && r in Reads(reg[id].def)
    requires id !in InSet(order, Downstream(g, source))
    ensures r != source && r !in InSet(order, Downstream(g, source))
  {
    ClosureDuality(g, order, source);
    assert DependsOn(g, id, r) && r in g;
    if r == source || Reaches(g, source, r) {
      ReachesThrough(g, source, r, id);
    }
  }

  lemma SubOrderIndex(order: seq<Id>, keep: set<Id>, i: nat, j: nat)
    requires NoDup(order) && i < j < |InSet(order, keep)|
    ensures InSet(order, keep)[i] in order && InSet(order, keep)[j] in order
    ensures Index(order, InSet(order, keep)[i]) < Index(order, InSet(order, keep)[j])
  {
    FilterOrder(order, n => n in keep, i, j);
  }

  lemma SubOrderReadsEarlier<V>(reg: Registry<V>, g: Nodes, order: seq<Id>, keep: set<Id>)
    requires Agrees(reg, g) && NoDup(order) && Ordered(g, order) && forall n | n in order :: n in g
    ensures NoDup(InSet(order, keep)) && ReadsEarlier(reg, InSet(order, keep))
  {
    var sub := InSet(order, keep);
    FilterNoDup(order, n => n in keep);
    forall i, r | 0 <= i < |sub| && sub[i] in reg && r in Reads(reg[sub[i]].def) && r in sub
      ensures r in sub[..i]
    {
      assert sub[i] in sub && sub[i] in order && r in order;
      assert DependsOn(g, sub[i], r);
      assert r in order[..Index(order, sub[i])];
      assert Index(order, r) < Index(order, sub[i]);
      var j := Index(sub, r);
      if i < j {
        SubOrderIndex(order, keep, i, j);
      }
    }
  }

  /** A factor that is not recomputed, and reads nothing that is, still is up to date. */
  lemma UnaffectedStays<V(!new), S(!new)>(a: Arith<V, S>, reg: Registry<V>, affected: set<Id>,
                                          st: Store<V, S>, st': Store<V, S>, source: Id, v: V, id: Id)
    requires id in reg && id !in affected && id != source && reg[id].id == id
    requires Solves(a, reg, affected, st.(values := st.values[source := v]), st')
    requires forall r | r in Reads(reg[id].def) :: r != source && r !in affected
    requires UpToDate(a, reg, st, id)
    ensures st'.values[id] == ComputeValue(a, st'.values, st.operators, reg[id])
    ensures id in st.operators ==> ComputeState(a, st'.values, st.operators[id], reg[id]) == st.operators[id]
  {
    FactorLocal(a, st.values, st'.values, st.operators, st.operators, reg[id]);
  }

  /** Recomputing only what is downstream of an unregistered source gives exactly the store that setting
      the source and executing everything gives, provided the factors that are not downstream are up to
      date. Factors downstream may be stale or stateful. */
  lemma IncrementalEqualsFull<V(!new), S(!new)>(a: Arith<V, S>, reg: Registry<V>, g: Nodes, order: seq<Id>,
                                                st: Store<V, S>, source: Id, v: V)
    requires WellRegistered(reg) && Agrees(reg, g) && StrictLevels(g)
    requires Mirrored(g) && Closed(g) && Acyclic(g) && KahnOrder(g, order)
    requires source !in reg
    requires forall id | id in order && id in reg && source !in Upstream(g, id) :: UpToDate(a, reg, st, id)
    ensures IncrementalStore(a, reg, g, order, st, source, v) ==
            ExecuteStore(a, reg, g, order, st.(values := st.values[source := v]))
  {
    var st0 := st.(values := st.values[source := v]);
    var affected := InSet(order, Downstream(g, source));
    var st' := RunSequence(a, reg, affected, st0);
    ClosureDuality(g, order, source);
    SubOrderReadsEarlier(reg, g, order, Downstream(g, source));
    SequenceSolves(a, reg, affected, st0);
    forall id | id in order && id in reg && id !in affected
      ensures id in st0.values && st'.values[id] == ComputeValue(a, st'.values, st0.operators, reg[id])
      ensures id in st0.operators ==> ComputeState(a, st'.values, st0.operators[id], reg[id]) == st0.operators[id]
    {
      forall r | r in Reads(reg[id].def)
        ensures r != source && r !in ToSet(affected)
      {
        UnaffectedReadsUnaffected(reg, g, order, source, id, r);
      }
      UnaffectedStays(a, reg, ToSet(affected), st, st', source, v, id);
    }
    assert ToSet(affected) <= ToSet(order);
    WidenSolution(a, reg, ToSet(affected), ToSet(order), st0, st');
    ExecuteSolves(a, reg, g, order, st0);
    OrderReadsEarlier(reg, g, order);
    SolutionUnique(a, reg, order, st0, st', ExecuteStore(a, reg, g, order, st0));
  }

  lemma WidenSolution<V(!new), S(!new)>(a: Arith<V, S>, reg: Registry<V>, few: set<Id>, many: set<Id>,
                                        st: Store<V, S>, st': Store<V, S>)
    requires WellRegistered(reg) && few <= many && Solves(a, reg, few, st, st')
    requires forall id | id in many && id in reg && id !in few ::
      && id in st.values
      && st'.values[id] == ComputeValue(a, st'.values, st.operators, reg[id])
      && (id in st.operators ==> ComputeState(a, st'.values, st.operators[id], reg[id]) == st.operators[id])
    ensures Solves(a, reg, many, st, st')
  {
  }

  /** No registered factor passes through an operator. */
  ghost predicate Stateless<V, S>(reg: Registry<V>, st: Store<V, S>) {
    forall id | id in reg && Stateful(reg[id].def) :: id !in st.operators
  }

  /** Every computed factor satisfies its defining equation on the stored values. */
  ghost predicate Consistent<V, S>(a: Arith<V, S>, reg: Registry<V>, order: seq<Id>, st: Store<V, S>) {
    forall id | id in order && id in reg :: UpToDate(a, reg, st, id)
  }

  /** A full execution of stateless factors leaves a consistent store, whatever it started from. */
  lemma ExecuteConsistent<V(!new), S(!new)>(a: Arith<V, S>, reg: Registry<V>, g: Nodes, order: seq<Id>, st: Store<V, S>)
    requires WellRegistered(reg) && Agrees(reg, g) && StrictLevels(g) && Stateless(reg, st)
    requires NoDup(order) && forall n | n in order :: n in g
    ensures var st' := ExecuteStore(a, reg, g, order, st);
            Stateless(reg, st') && Consistent(a, reg, order, st')
  {
    ExecuteSolves(a, reg, g, order, st);
    SolutionConsistent(a, reg, order, st, ExecuteStore(a, reg, g, order, st));
  }

  lemma SolutionConsistent<V(!new), S(!new)>(a: Arith<V, S>, reg: Registry<V>, order: seq<Id>, st: Store<V, S>, st': Store<V, S>)
    requires WellRegistered(reg) && Stateless(reg, st) && Solves(a, reg, ToSet(order), st, st')
    ensures Stateless(reg, st') && Consistent(a, reg, order, st')
  {
    forall id | id in order && id in reg
      ensures UpToDate(a, reg, st', id)
    {
      assert id in ToSet(order);
      if !Stateful(reg[id].def) {
        StatelessValue(a, st'.values, st.operators, st'.operators, reg[id]);
      }
    }
  }

  lemma StatelessValue<V, S>(a: Arith<V, S>, values: map<Id, V>, p: map<Id, S>, q: map<Id, S>, f: RegisteredFactor<V>)
    requires !Stateful(f.def)
    ensures ComputeValue(a, values, p, f) == ComputeValue(a, values, q, f)
  {
  }

  // ----- whole runs of updates -----

  ghost function IncrementalRun<V, S>(a: Arith<V, S>, reg: Registry<V>, g: Nodes, order: seq<Id>,
                                      st: Store<V, S>, updates: seq<(Id, V)>): Store<V, S> {
    if updates == [] then st else
      var u := updates[|updates| - 1];
      IncrementalStore(a, reg, g, order, IncrementalRun(a, reg, g, order, st, updates[..|updates| - 1]), u.0, u.1)
  }

  ghost function FullRun<V, S>(a: Arith<V, S>, reg: Registry<V>, g: Nodes, order: seq<Id>,
                               st: Store<V, S>, updates: seq<(Id, V)>): Store<V, S> {
    if updates == [] then st else
      var u := updates[|updates| - 1];
      var before := FullRun(a, reg, g, order, st, updates[..|updates| - 1]);
      ExecuteStore(a, reg, g, order, before.(values := before.values[u.0 := u.1]))
  }

  /** From a consistent store, any sequence of incremental updates of unregistered sources leaves the same
      consistent store as recomputing everything after each of them. */
  lemma {:induction false} IncrementalRunEqualsFullRun<V(!new), S(!new)>(
    a: Arith<V, S>, reg: Registry<V>, g: Nodes, order: seq<Id>, st: Store<V, S>, updates: seq<(Id, V)>)
    requires WellRegistered(reg) && Agrees(reg, g) && StrictLevels(g) && Stateless(reg, st)
    requires Mirrored(g) && Closed(g) && Acyclic(g) && KahnOrder(g, order)
    requires Consistent(a, reg, order, st)
    requires forall i | 0 <= i < |updates| :: updates[i].0 !in reg
    ensures IncrementalRun(a, reg, g, order, st, updates) == FullRun(a, reg, g, order, st, updates)
    ensures Stateless(reg, FullRun(a, reg, g, order, st, updates))
    ensures Consistent(a, reg, order, FullRun(a, reg, g, order, st, updates))
  {
    if updates == [] {
    } else {
      var init, u := updates[..|updates| - 1], updates[|updates| - 1];
      IncrementalRunEqualsFullRun(a, reg, g, order, st, init);
      var before := FullRun(a, reg, g, order, st, init);
      assert u.0 !in reg;
      IncrementalEqualsFull(a, reg, g, order, before, u.0, u.1);
      ExecuteConsistent(a, reg, g, order, before.(values := before.values[u.0 := u.1]));
    }
  }

  // ----- what a stale depth does to an execution -----

  /** On the graph that the stale-depth run leaves behind, with B recomputed to zero and C a copy of B, the
      executor stores the value B had before in C; evaluated one at a time, C is zero like B. */
  method StaleExecution<V(!new), S(!new)>(a: Arith<V, S>, before: V) returns (r: ExecutionResult<V>, dag: FactorDag)
    ensures dag.Valid() && !dag.dirty && !StrictLevels(dag.nodes)
    ensures var reg: Registry<V>, st: Store<V, S> := CopyRegistry(B, C), Store(map[B := before], map[]);
      && Agrees(reg, dag.nodes)
      && r.values == ExecuteStore(a, reg, dag.nodes, dag.topoOrder, st).values
      && C in r.values && r.values[C] == before
      && C in RunSequence(a, reg, dag.topoOrder, st).values
      && RunSequence(a, reg, dag.topoOrder, st).values[C] == a.zero
  {
    dag := StaleDepthScenario();
    CopyDiffers<V, S>(a, dag.nodes, dag.topoOrder, C, B, before);
    r := ExecuteOnce(a, CopyRegistry(B, C), dag, B, before);
  }

  /** A new executor on a sorted graph, one value set, one execution. */
  method ExecuteOnce<V(!new), S(!new)>(a: Arith<V, S>, reg: Registry<V>, dag: FactorDag, source: Id, v: V)
    returns (r: ExecutionResult<V>)
    requires dag.Valid() && !dag.dirty && WellRegistered(reg)
    modifies dag
    ensures dag.State() == old(dag.State())
    ensures var st: Store<V, S> := Store(map[source := v], map[]);
            r.values == ExecuteStore(a, reg, dag.nodes, dag.topoOrder, st).values
  {
    var executor := new ParallelDagExecutor<V, S>(a, reg, dag);
    executor.SetSource(source, v);
    assert executor.Current() == Store(map[source := v], map[]);
    r := executor.Execute();
  }

  // ----- the executor object -----

  /** Factors counted level by level. */
  function Counted(registered: set<Id>, levels: seq<seq<Id>>): nat {
    if levels == [] then 0 else
      Counted(registered, levels[..|levels| - 1]) + |ToSet(levels[|levels| - 1]) * registered|
  }

  lemma LevelsSnoc<V, S>(a: Arith<V, S>, reg: Registry<V>, levels: seq<seq<Id>>, i: nat, st: Store<V, S>)
    requires i < |levels|
    ensures RunLevels(a, reg, levels[..i + 1], st) == RunLevel(a, reg, levels[i], RunLevels(a, reg, levels[..i], st))
    ensures Counted(reg.Keys, levels[..i + 1]) == Counted(reg.Keys, levels[..i]) + |ToSet(levels[i]) * reg.Keys|
  {
    RunLevelsSnoc(a, reg, levels, i, st);
    assert levels[..i + 1][..i] == levels[..i];
  }

  lemma {:induction false} CountedIsAll(registered: set<Id>, levels: seq<seq<Id>>)
    requires LevelsDisjoint(levels)
    ensures Counted(registered, levels) == |AllOf(levels) * registered|
  {
    if levels == [] {
      assert AllOf(levels) * registered == {};
    } else {
      var init, last := levels[..|levels| - 1], levels[|levels| - 1];
      assert levels == init + [last];
      CountedIsAll(registered, init);
      AllOfSnoc(init, last);
      LastIsApart(levels);
      DisjointCount(AllOf(init), ToSet(last), registered);
    }
  }

  lemma LastIsApart(levels: seq<seq<Id>>)
    requires LevelsDisjoint(levels) && levels != []
    ensures AllOf(levels[..|levels| - 1]) !! ToSet(levels[|levels| - 1])
  {
    var n := |levels| - 1;
    forall id | id in AllOf(levels[..n])
      ensures id !in levels[n]
    {
      var i :| 0 <= i < n && id in levels[..n][i];
      assert id in levels[i];
    }
  }

  lemma DisjointCount(a: set<Id>, b: set<Id>, registered: set<Id>)
    requires a !! b
    ensures |(a + b) * registered| == |a * registered| + |b * registered|
  {
    assert (a + b) * registered == a * registered + b * registered;
  }

  /** A level of which the members in `done` have been evaluated. */
  ghost predicate PartOfLevel<V, S>(a: Arith<V, S>, reg: Registry<V>, st: Store<V, S>, done: set<Id>,
                                    results: map<Id, V>, operators: map<Id, S>)
    requires done <= reg.Keys
  {
    && results.Keys == done
    && (forall id | id in done :: results[id] == ComputeValue(a, st.values, st.operators, reg[id]))
    && operators.Keys == st.operators.Keys
    && (forall id | id in operators ::
          operators[id] == if id in done then ComputeState(a, st.values, st.operators[id], reg[id])
                           else st.operators[id])
  }

  lemma OneMoreOfLevel<V, S>(a: Arith<V, S>, reg: Registry<V>, st: Store<V, S>, done: set<Id>,
                             results: map<Id, V>, operators: map<Id, S>, id: Id)
    requires WellRegistered(reg) && done <= reg.Keys && PartOfLevel(a, reg, st, done, results, operators)
    requires id in reg && id !in done
    ensures PartOfLevel(a, reg, st, done + {id},
                        results[id := ComputeValue(a, st.values, operators, reg[id])],
                        if id in operators then operators[id := ComputeState(a, st.values, operators[id], reg[id])]
                        else operators)
  {
    var f := reg[id];
    assert id in operators ==> operators[id] == st.operators[id];
    assert ComputeValue(a, st.values, operators, f) == ComputeValue(a, st.values, st.operators, f);
  }

  lemma WholeLevel<V, S>(a: Arith<V, S>, reg: Registry<V>, st: Store<V, S>, level: seq<Id>,
                         results: map<Id, V>, operators: map<Id, S>)
    requires PartOfLevel(a, reg, st, ToSet(level) * reg.Keys, results, operators)
    ensures Store(st.values + results, operators) == RunLevel(a, reg, level, st)
  {
    var st' := RunLevel(a, reg, level, st);
    assert (st.values + results).Keys == st'.values.Keys;
    assert st.values + results == st'.values;
    assert operators == st'.operators;
  }

  datatype ExecutionResult<V> = ExecutionResult(values: map<Id, V>, levelsExecuted: nat, factorsComputed: nat)

  class ParallelDagExecutor<V(!new), S(!new)> {
    const arith: Arith<V, S>
    const registry: Registry<V>
    const dag: FactorDag
    var operators: map<Id, S>
    var values: map<Id, V>

    ghost function Current(): Store<V, S>
      reads this
    {
      Store(values, operators)
    }

    ghost predicate Valid()
      reads this, dag
    {
      dag.Valid() && WellRegistered(registry)
    }

    constructor (arith: Arith<V, S>, registry: Registry<V>, dag: FactorDag)
      requires dag.Valid() && WellRegistered(registry)
      ensures Valid() && Current() == Store(map[], map[])
      ensures this.arith == arith && this.registry == registry && this.dag == dag
    {
      this.arith, this.registry, this.dag := arith, registry, dag;
      operators, values := map[], map[];
    }

    method SetSource(sourceId: Id, value: V)
      requires Valid()
      modifies this`values
      ensures Valid() && Current() == old(Current()).(values := old(values)[sourceId := value])
    {
      values := values[sourceId := value];
    }

    /** Several sources, in arbitrary order. */
    method SetSources(sources: map<Id, V>)
      requires Valid()
      modifies this`values
      ensures Valid() && Current() == old(Current()).(values := old(values) + sources)
    {
      var todo := sources.Keys;
      while todo != {}
        invariant todo <= sources.Keys
        invariant values == old(values) + (map id | id in sources.Keys - todo :: sources[id])
      {
        var id :| id in todo;
        values := values[id := sources[id]];
        todo := todo - {id};
      }
      assert (map id | id in sources.Keys - todo :: sources[id]) == sources;
    }

    /** Evaluates one registered factor, advancing its operator in place. */
    method ComputeFactor(factor: RegisteredFactor<V>) returns (value: V)
      modifies this`operators
      ensures value == ComputeValue(arith, values, old(operators), factor)
      ensures operators == if factor.id in old(operators)
                           then old(operators)[factor.id := ComputeState(arith, values, old(operators)[factor.id], factor)]
                           else old(operators)
      ensures (factor.def.Rolling? || factor.def.EMA? || factor.def.RSI? || factor.def.MACD?) && factor.id in old(operators) ==>
                (operators[factor.id], value) ==
                arith.update(old(operators)[factor.id], if factor.def.source in values then values[factor.def.source] else arith.zero)
    {
      if Stateful(factor.def) {
        var sourceValue := Get(arith, values, factor.def.source);
        if factor.id in operators {
          var (state, out) := arith.update(operators[factor.id], sourceValue);
          operators := operators[factor.id := state];
          return out;
        }
        return sourceValue;
      }
      value := ComputeValue(arith, values, operators, factor);
      assert factor.id in operators ==> operators[factor.id := operators[factor.id]] == operators;
    }

    /** The members of a level, evaluated in an arbitrary order on the same values. */
    method EvaluateLevel(members: set<Id>) returns (results: map<Id, V>)
      requires WellRegistered(registry) && members <= registry.Keys
      modifies this`operators
      ensures PartOfLevel(arith, registry, old(Current()), members, results, operators)
    {
      results := map[];
      var todo := members;
      ghost var done: set<Id> := {};
      while todo != {}
        invariant done == members - todo && todo <= members
        invariant PartOfLevel(arith, registry, old(Current()), done, results, operators)
      {
        var factorId :| factorId in todo;
        OneMoreOfLevel(arith, registry, old(Current()), done, results, operators, factorId);
        var value := ComputeFactor(registry[factorId]);
        results := results[factorId := value];
        todo, done := todo - {factorId}, done + {factorId};
      }
    }

    /** One level: all members are evaluated on the values from before the level, then stored. */
    method ExecuteLevel(level: seq<Id>) returns (computed: nat)
      requires WellRegistered(registry)
      modifies this`operators, this`values
      ensures Current() == RunLevel(arith, registry, level, old(Current()))
      ensures computed == |ToSet(level) * registry.Keys|
    {
      var results := EvaluateLevel(ToSet(level) * registry.Keys);
      WholeLevel(arith, registry, old(Current()), level, results, operators);
      values := values + results;
      return |results.Keys|;
    }

    /** Level-parallel execution of the whole DAG. */
    method Execute() returns (r: ExecutionResult<V>)
      requires Valid()
      modifies this`operators, this`values, dag
      ensures Valid() && DagStep(old(dag.State()), SortOp, dag.State())
      ensures Current() == ExecuteStore(arith, registry, dag.nodes, dag.topoOrder, old(Current()))
      ensures r.values == values && r.levelsExecuted == |LevelsOf(dag.nodes, dag.topoOrder)|
      ensures r.factorsComputed == |ToSet(dag.topoOrder) * registry.Keys|
    {
      var levels := dag.GetParallelLevels();
      var factorsComputed := ExecuteLevels(levels);
      AcyclicIffSorted(dag.nodes, dag.topoOrder);
      assert forall n | n in dag.topoOrder :: n in ToSet(dag.topoOrder);
      LevelsAllOf(dag.nodes, dag.topoOrder);
      CountedIsAll(registry.Keys, levels);
      return ExecutionResult(values, |levels|, factorsComputed);
    }

    /** The levels one after the other. */
    method ExecuteLevels(levels: seq<seq<Id>>) returns (factorsComputed: nat)
      requires WellRegistered(registry)
      modifies this`operators, this`values
      ensures Current() == RunLevels(arith, registry, levels, old(Current()))
      ensures factorsComputed == Counted(registry.Keys, levels)
    {
      factorsComputed := 0;
      for i := 0 to |levels|
        invariant factorsComputed == Counted(registry.Keys, levels[..i])
        invariant Current() == RunLevels(arith, registry, levels[..i], old(Current()))
      {
        LevelsSnoc(arith, registry, levels, i, old(Current()));
        var computed := ExecuteLevel(levels[i]);
        factorsComputed := factorsComputed + computed;
      }
      assert levels[..|levels|] == levels;
    }

    /** Recomputes only what an update of `sourceId` makes stale. */
    method IncrementalUpdate(sourceId: Id, value: V) returns (r: ExecutionResult<V>)
      requires Valid()
      modifies this`operators, this`values, dag
      ensures Valid() && DagStep(old(dag.State()), SortOp, dag.State())
      ensures Current() == IncrementalStore(arith, registry, dag.nodes, dag.topoOrder, old(Current()), sourceId, value)
      ensures r.values == values && r.levelsExecuted == 1
      ensures r.factorsComputed == |InSet(dag.topoOrder, Downstream(dag.nodes, sourceId))|
    {
      values := values[sourceId := value];
      ghost var st := Current();
      var affected := dag.GetAffectedNodes(sourceId);
      label Sorted:
      for i := 0 to |affected|
        invariant unchanged@Sorted(dag)
        invariant Current() == RunSequence(arith, registry, affected[..i], st)
      {
        var factorId := affected[i];
        assert affected[..i + 1][..i] == affected[..i];
        if factorId in registry {
          var newValue := ComputeFactor(registry[factorId]);
          values := values[factorId := newValue];
        }
      }
      assert affected[..|affected|] == affected;
      return ExecutionResult(values, 1, |affected|);
    }
  }
}
