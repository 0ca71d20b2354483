/** Factor nodes and the mathematics of their dependency graph: chains, finite depth, cycles.
    Nothing here mentions the sorting algorithm; `KahnSort` and `FactorDag` are proved against it. */
module DependencyGraph {
  import opened Seqs

  /** Factor ids, wrapped so that an id is never mistaken for a sequence of anything. */
  datatype Id = Id(text: string)

  datatype NodeType = Source | Derived | Composite

  /** `name`, `computeFn` and `params` are carried along and never inspected. */
  datatype FactorNode = FactorNode(
    id: Id,
    name: string,
    nodeType: NodeType,
    dependencies: seq<Id>,
    dependents: seq<Id>,
    computeFn: string,
    params: map<string, string>,
    depth: nat)

  type Nodes = map<Id, FactorNode>

  /** Every node is stored under its own id. */
  ghost predicate Keyed(g: Nodes) {
    forall n | n in g :: g[n].id == n
  }

  /** Every dependency named by a node is itself a node. */
  ghost predicate Closed(g: Nodes) {
    forall n, d | n in g && d in g[n].dependencies :: d in g
  }

  /** Forward edges cover the backward ones: what `remove_node` relies on. */
  ghost predicate Covered(g: Nodes) {
    forall n, d | n in g && d in g[n].dependencies :: d in g && n in g[d].dependents
  }

  /** Forward edges are the exact multiset inverse of the backward ones. */
  ghost predicate Mirrored(g: Nodes) {
    && (forall d, n | d in g && n in g[d].dependents :: n in g)
    && (forall d, n | d in g && n in g :: multiset(g[d].dependents)[n] == multiset(g[n].dependencies)[d])
  }

  ghost predicate DependsOn(g: Nodes, n: Id, d: Id) {
    n in g && d in g[n].dependencies
  }

  /** A dependency chain: each element is a direct dependency of the next one. */
  ghost predicate Chain(g: Nodes, c: seq<Id>) {
    && c != []
    && (forall i | 0 <= i < |c| :: c[i] in g)
    && (forall i, j | 0 <= i < j < |c| && j == i + 1 :: c[i] in g[c[j]].dependencies)
  }

  ghost predicate ChainTo(g: Nodes, c: seq<Id>, n: Id) {
    Chain(g, c) && c[|c| - 1] == n
  }

  ghost predicate ChainBetween(g: Nodes, c: seq<Id>, a: Id, b: Id) {
    Chain(g, c) && |c| >= 2 && c[0] == a && c[|c| - 1] == b
  }

  /** `a` is a direct or indirect dependency of `b`. */
  ghost predicate Reaches(g: Nodes, a: Id, b: Id) {
    exists c :: ChainBetween(g, c, a, b)
  }

  ghost predicate ChainsBounded(g: Nodes, n: Id, k: nat) {
    forall c | ChainTo(g, c, n) :: |c| <= k + 1
  }

  /** All dependency chains below `n` are finite. */
  ghost predicate Finite(g: Nodes, n: Id) {
    n in g && exists k: nat :: ChainsBounded(g, n, k)
  }

  /** `k` edges is the length of the longest dependency chain ending in `n`. */
  ghost predicate LongestChain(g: Nodes, n: Id, k: nat) {
    ChainsBounded(g, n, k) && exists c :: ChainTo(g, c, n) && |c| == k + 1
  }

  ghost predicate Acyclic(g: Nodes) {
    forall n | n in g :: !Reaches(g, n, n)
  }

  lemma LongestChainUnique(g: Nodes, n: Id, j: nat, k: nat)
    requires LongestChain(g, n, j) && LongestChain(g, n, k)
    ensures j == k
  {
  }

  lemma ChainSnoc(g: Nodes, c: seq<Id>, n: Id)
    requires Chain(g, c) && DependsOn(g, n, c[|c| - 1])
    ensures ChainTo(g, c + [n], n)
  {
  }

  lemma ChainInit(g: Nodes, c: seq<Id>)
    requires Chain(g, c) && |c| >= 2
    ensures ChainTo(g, c[..|c| - 1], c[|c| - 2])
    ensures DependsOn(g, c[|c| - 1], c[|c| - 2])
  {
  }

  lemma Segment(g: Nodes, c: seq<Id>, i: nat, j: nat)
    requires Chain(g, c) && i < j < |c|
    ensures Reaches(g, c[i], c[j])
  {
    var s := c[i..j + 1];
    assert forall k | 0 <= k < |s| :: s[k] == c[i + k];
    forall k, l | 0 <= k < l < |s| && l == k + 1
      ensures s[k] in g[s[l]].dependencies
    {
      assert c[i + k] in g[c[i + l]].dependencies;
    }
    assert ChainBetween(g, s, c[i], c[j]);
  }

  lemma ReachesStep(g: Nodes, d: Id, n: Id)
    requires DependsOn(g, n, d) && d in g
    ensures Reaches(g, d, n)
  {
    assert ChainBetween(g, [d, n], d, n);
  }

  lemma ReachesTrans(g: Nodes, a: Id, b: Id, c: Id)
    requires Reaches(g, a, b) && Reaches(g, b, c)
    ensures Reaches(g, a, c)
  {
    var p :| ChainBetween(g, p, a, b);
    var q :| ChainBetween(g, q, b, c);
    var r := p + q[1..];
    forall i, j | 0 <= i < j < |r| && j == i + 1
      ensures r[i] in g[r[j]].dependencies
    {
      if j >= |p| {
        assert r[j] == q[j - |p| + 1];
        assert r[i] == q[j - |p|];
      }
    }
    assert ChainBetween(g, r, a, c);
  }

  lemma ReachesThrough(g: Nodes, a: Id, d: Id, n: Id)
    requires DependsOn(g, n, d) && d in g && (d == a || Reaches(g, a, d))
    ensures Reaches(g, a, n)
  {
    ReachesStep(g, d, n);
    if d != a {
      ReachesTrans(g, a, d, n);
    }
  }

  /** A chain of two or more elements splits off its last edge. */
  lemma ReachesSplit(g: Nodes, a: Id, b: Id)
    requires Reaches(g, a, b)
    ensures b in g && a in g
    ensures exists d :: DependsOn(g, b, d) && (d == a || Reaches(g, a, d))
  {
    var c :| ChainBetween(g, c, a, b);
    ChainInit(g, c);
    var d := c[|c| - 2];
    if |c| > 2 {
      assert ChainBetween(g, c[..|c| - 1], a, d);
    }
    assert DependsOn(g, b, d) && (d == a || Reaches(g, a, d));
  }

  ghost predicate StuckAt(g: Nodes, stuck: set<Id>, n: Id) {
    n in g && exists d :: d in g[n].dependencies && d in stuck
  }

  /** Every member waits for another member. */
  ghost predicate Stuck(g: Nodes, stuck: set<Id>) {
    forall n {:trigger StuckAt(g, stuck, n)} | n in stuck :: StuckAt(g, stuck, n)
  }

  /** If every member of a non-empty set depends on a member, chains inside it grow without bound. */
  lemma {:induction false} EndlessChain(g: Nodes, stuck: set<Id>, n: Id, k: nat) returns (c: seq<Id>)
    requires n in stuck && Stuck(g, stuck)
    ensures ChainTo(g, c, n) && |c| == k + 1
    ensures forall x | x in c :: x in stuck
    decreases k
  {
    assert StuckAt(g, stuck, n);
    if k == 0 {
      c := [n];
    } else {
      var d :| d in g[n].dependencies && d in stuck;
      var p := EndlessChain(g, stuck, d, k - 1);
      ChainSnoc(g, p, n);
      c := p + [n];
    }
  }

  lemma EndlessNotFinite(g: Nodes, stuck: set<Id>, n: Id)
    requires n in stuck && Stuck(g, stuck)
    ensures !Finite(g, n)
  {
    forall k: nat
      ensures !ChainsBounded(g, n, k)
    {
      var c := EndlessChain(g, stuck, n, k + 1);
    }
  }

  lemma EndlessHasCycle(g: Nodes, stuck: set<Id>, n: Id)
    requires n in stuck && Stuck(g, stuck)
    ensures !Acyclic(g)
  {
    var c := EndlessChain(g, stuck, n, |stuck|);
    var i, j := Pigeonhole(c, stuck);
    Segment(g, c, i, j);
    assert c[i] in g;
  }
}
