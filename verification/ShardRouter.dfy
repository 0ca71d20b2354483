/** The ring and the caching shard router as objects, and the transparency of the route cache. */
module ShardRouting {
  import opened Common
  import opened Seqs
  import opened HashRing

  datatype RingState = RingState(ring: Ring, nodes: NodeTable)

  const EMPTY_RING: RingState := RingState(map[], map[])

  /** Every virtual node belongs to a registered node stored under its own id. */
  ghost predicate RingInv(s: RingState) {
    && (forall k | k in s.ring :: s.ring[k].physicalNode in s.nodes)
    && (forall id | id in s.nodes :: s.nodes[id].id == id)
  }

  // ----- what each ring operation does -----

  function RingAdd(hash: HashFn, base: nat, s: RingState, node: PhysicalNode): RingState {
    RingState(Inserted(hash, s.ring, node.id, VnodeCount(base, node.weight)), s.nodes[node.id := node])
  }

  function RingRemove(s: RingState, id: NodeId): RingState {
    RingState(Dropped(s.ring, id), s.nodes - {id})
  }

  function RingStatus(s: RingState, id: NodeId, active: bool): RingState {
    if id in s.nodes then s.(nodes := s.nodes[id := s.nodes[id].(isActive := active)]) else s
  }

  function RingLoad(s: RingState, id: NodeId, load: real): RingState {
    if id in s.nodes then s.(nodes := s.nodes[id := s.nodes[id].(load := load)]) else s
  }

  function Lookup(hash: HashFn, s: RingState, key: string): Option<PhysicalNode> {
    if s.ring == map[] then None else
      var id := OwnerId(s.ring, hash(key));
      if id in s.nodes then Some(s.nodes[id]) else None
  }

  /** The clockwise replica list of a key, cut to the primary and `replicaCount` more. */
  ghost function Replicas(hash: HashFn, s: RingState, key: string, replicaCount: nat): seq<PhysicalNode> {
    var prefs := Preference(s.ring, s.nodes, hash(key));
    var n := Min(replicaCount + 1, |prefs|);
    seq(n, i requires 0 <= i < n => assert prefs[i] in prefs; s.nodes[prefs[i]])
  }

  lemma InsertedKeepsRingInv(hash: HashFn, base: nat, s: RingState, node: PhysicalNode)
    requires RingInv(s)
    ensures RingInv(RingAdd(hash, base, s, node))
  {
    InsertedMeaning(hash, s.ring, node.id, VnodeCount(base, node.weight));
  }

  class ConsistentHashRing {
    var ring: Ring
    var nodes: NodeTable
    const virtualNodeCount: nat
    const hash: HashFn

    ghost function State(): RingState
      reads this
    {
      RingState(ring, nodes)
    }

    ghost predicate Valid()
      reads this
    {
      RingInv(State())
    }

    constructor (virtualNodeCount: nat, hash: HashFn)
      ensures Valid() && State() == EMPTY_RING
      ensures this.virtualNodeCount == virtualNodeCount && this.hash == hash
    {
      this.virtualNodeCount, this.hash := virtualNodeCount, hash;
      ring, nodes := map[], map[];
    }

    method AddNode(node: PhysicalNode)
      requires Valid()
      modifies this
      ensures Valid() && State() == RingAdd(hash, virtualNodeCount, old(State()), node)
    {
      nodes := nodes[node.id := node];
      var vnodeCount := VnodeCount(virtualNodeCount, node.weight);
      for i := 0 to vnodeCount
        invariant nodes == old(nodes)[node.id := node]
        invariant ring == Inserted(hash, old(ring), node.id, i)
      {
        var h := VnodeHash(hash, node.id, i);
        ring := ring[h := VirtualNode(node.id, i, h)];
      }
      InsertedKeepsRingInv(hash, virtualNodeCount, old(State()), node);
    }

    method RemoveNode(id: NodeId)
      requires Valid()
      modifies this
      ensures Valid() && State() == RingRemove(old(State()), id)
    {
      nodes := nodes - {id};
      ring := map k | k in ring && ring[k].physicalNode != id :: ring[k];
    }

    method UpdateNodeStatus(id: NodeId, isActive: bool)
      requires Valid()
      modifies this
      ensures Valid() && State() == RingStatus(old(State()), id, isActive)
    {
      if id in nodes {
        nodes := nodes[id := nodes[id].(isActive := isActive)];
      }
    }

    method UpdateNodeLoad(id: NodeId, load: real)
      requires Valid()
      modifies this
      ensures Valid() && State() == RingLoad(old(State()), id, load)
    {
      if id in nodes {
        nodes := nodes[id := nodes[id].(load := load)];
      }
    }

    function GetNode(key: string): Option<PhysicalNode>
      reads this
    {
      Lookup(hash, RingState(ring, nodes), key)
    }

    /** Walks one full rotation from the key's hash, collecting distinct active nodes, and stops once the
        primary and `replicaCount` replicas are found. */
    method GetNodesWithReplicas(key: string, replicaCount: nat) returns (result: seq<PhysicalNode>)
      requires Valid()
      ensures result == Replicas(hash, State(), key, replicaCount)
    {
      var ids := ReplicaIds(ring, nodes, hash(key), replicaCount);
      result := seq(|ids|, i requires 0 <= i < |ids| && ids[i] in nodes reads this => nodes[ids[i]]);
    }
  }

  /** The ids of the replicas: one full rotation from `h`, cut once enough have been found. */
  method ReplicaIds(ring: Ring, nodes: NodeTable, h: nat, replicaCount: nat) returns (ids: seq<NodeId>)
    ensures ids == Cut(Preference(ring, nodes, h), replicaCount + 1)
    ensures forall i | 0 <= i < |ids| :: ids[i] in nodes
  {
    var high := SortKeys(From(ring.Keys, h));
    var all := SortKeys(ring.Keys);
    ChainTakeIsWalk(ring.Keys, h);
    WalkVisitsAll(ring.Keys, h);
    var walk := (high + all)[..|ring.Keys|];
    var owners := Owners(ring, walk);
    ids := CollectReplicas(nodes, owners, replicaCount);
    CollectedIsPreference(nodes, owners);
    forall i | 0 <= i < |ids|
      ensures ids[i] in nodes
    {
      assert ids[i] == Preference(ring, nodes, h)[i];
      assert ids[i] in Preference(ring, nodes, h);
    }
  }

  /** The collecting loop over the physical nodes met along the rotation. */
  method CollectReplicas(nodes: NodeTable, owners: seq<NodeId>, replicaCount: nat) returns (result: seq<NodeId>)
    ensures result == Cut(Collected(nodes, owners), replicaCount + 1)
  {
    result := [];
    var seenNodes: set<NodeId> := {};
    for i := 0 to |owners|
      invariant seenNodes == ToSet(owners[..i])
      invariant result == Collected(nodes, owners[..i])
      invariant |result| <= replicaCount
    {
      var id := owners[i];
      StepCollect(nodes, owners, i);
      if id !in seenNodes {
        seenNodes := seenNodes + {id};
        if id in nodes {
          if nodes[id].isActive {
            result := result + [id];
            if |result| > replicaCount {
              PrefixIsCut(nodes, owners, i + 1);
              return;
            }
          }
        }
      }
    }
    assert owners[..|owners|] == owners;
  }

  /** What the loop has gathered after passing `owners`. */
  function Collected(nodes: NodeTable, owners: seq<NodeId>): seq<NodeId> {
    if owners == [] then [] else
      var init, last := owners[..|owners| - 1], owners[|owners| - 1];
      if last !in init && Active(nodes, last) then Collected(nodes, init) + [last] else Collected(nodes, init)
  }

  lemma {:induction false} CollectedIsPreference(nodes: NodeTable, owners: seq<NodeId>)
    ensures Collected(nodes, owners) == ActiveOnly(nodes, Distinct(owners))
  {
    if owners == [] {
    } else {
      var init, last := owners[..|owners| - 1], owners[|owners| - 1];
      CollectedIsPreference(nodes, init);
      if last !in init {
        ActiveSnoc(nodes, Distinct(init), last);
      }
    }
  }

  function Cut<T>(s: seq<T>, n: nat): seq<T> {
    s[..Min(n, |s|)]
  }

  lemma StepCollect(nodes: NodeTable, owners: seq<NodeId>, i: nat)
    requires i < |owners|
    ensures ToSet(owners[..i + 1]) == ToSet(owners[..i]) + {owners[i]}
    ensures Collected(nodes, owners[..i + 1]) ==
            if owners[i] !in owners[..i] && Active(nodes, owners[i])
            then Collected(nodes, owners[..i]) + [owners[i]]
            else Collected(nodes, owners[..i])
  {
    assert owners[..i + 1] == owners[..i] + [owners[i]];
    assert owners[..i + 1][..i] == owners[..i];
  }

  /** What has been collected after `i` virtual nodes is a prefix of the whole preference list. */
  lemma {:induction false} CollectedIsPrefix(nodes: NodeTable, owners: seq<NodeId>, i: nat)
    requires i <= |owners|
    ensures Collected(nodes, owners[..i]) <= Collected(nodes, owners)
    decreases |owners| - i
  {
    if i == |owners| {
      assert owners[..i] == owners;
    } else {
      StepCollect(nodes, owners, i);
      CollectedIsPrefix(nodes, owners, i + 1);
    }
  }

  lemma PrefixIsCut(nodes: NodeTable, owners: seq<NodeId>, i: nat)
    requires i <= |owners|
    ensures Collected(nodes, owners[..i]) == Cut(Collected(nodes, owners), |Collected(nodes, owners[..i])|)
  {
    CollectedIsPrefix(nodes, owners, i);
  }

  // ----- promises of the replica list -----

  /** Distinct active nodes, exactly min(replicaCount + 1, active owners) of them. */
  lemma ReplicasExact(hash: HashFn, s: RingState, key: string, replicaCount: nat)
    requires RingInv(s)
    ensures var r := Replicas(hash, s, key, replicaCount);
      && |r| == Min(replicaCount + 1, |ActiveOwners(s.ring, s.nodes)|)
      && (forall i | 0 <= i < |r| :: r[i].isActive && r[i].id in s.nodes && s.nodes[r[i].id] == r[i])
      && (forall i, j | 0 <= i < j < |r| :: r[i].id != r[j].id)
  {
    PreferenceExact(s.ring, s.nodes, hash(key));
    var prefs := Preference(s.ring, s.nodes, hash(key));
    assert forall i | 0 <= i < |prefs| :: prefs[i] in prefs;
  }

  /** Asking for more replicas only appends. */
  lemma ReplicasPrefix(hash: HashFn, s: RingState, key: string, few: nat, many: nat)
    requires few <= many
    ensures Replicas(hash, s, key, few) <= Replicas(hash, s, key, many)
  {
  }

  /** The first replica is what `get_node` returns, whenever that node is active. */
  lemma ReplicasStartWithOwner(hash: HashFn, s: RingState, key: string, replicaCount: nat)
    requires RingInv(s) && Lookup(hash, s, key).Some? && Lookup(hash, s, key).value.isActive
    ensures Replicas(hash, s, key, replicaCount) != []
    ensures Replicas(hash, s, key, replicaCount)[0] == Lookup(hash, s, key).value
  {
    PreferenceStartsWithOwner(s.ring, s.nodes, hash(key));
  }

  /** After a removal, each key's unbounded replica list is the old one without the removed node. */
  lemma ReplicasAfterRemoval(hash: HashFn, s: RingState, key: string, id: NodeId)
    requires RingInv(s)
    ensures Preference(RingRemove(s, id).ring, RingRemove(s, id).nodes, hash(key)) ==
            Excluding(Preference(s.ring, s.nodes, hash(key)), id)
    ensures RingInv(RingRemove(s, id))
  {
    RemovalKeepsPreferences(s.ring, s.nodes, id, hash(key));
  }

  /** A node that is switched off is in no replica list, and every other active owner still is. */
  lemma SwitchedOffIsSkipped(hash: HashFn, s: RingState, id: NodeId, key: string, n: nat)
    requires RingInv(s)
    ensures var off := RingStatus(s, id, false);
      && (forall i | 0 <= i < |Replicas(hash, off, key, n)| :: Replicas(hash, off, key, n)[i].id != id)
      && ActiveOwners(off.ring, off.nodes) == ActiveOwners(s.ring, s.nodes) - {id}
  {
    var off := RingStatus(s, id, false);
    assert RingInv(off);
    ReplicasExact(hash, off, key, n);
  }

  /** Switching an active node off and on again changes nothing. */
  lemma SwitchedOnAgain(s: RingState, id: NodeId)
    requires Active(s.nodes, id)
    ensures RingStatus(RingStatus(s, id, false), id, true) == s
  {
    var node := s.nodes[id];
    assert node.(isActive := false).(isActive := true) == node;
    assert s.nodes[id := node.(isActive := false)][id := node] == s.nodes;
  }

  /** A load report sets that node's load and moves no key. */
  lemma LoadMovesNothing(hash: HashFn, s: RingState, id: NodeId, load: real, key: string, n: nat)
    requires RingInv(s)
    ensures var t := RingLoad(s, id, load);
      && (id in s.nodes ==> id in t.nodes && t.nodes[id] == s.nodes[id].(load := load))
      && (forall k | k in s.nodes && k != id :: k in t.nodes && t.nodes[k] == s.nodes[k])
      && (Lookup(hash, s, key).Some? <==> Lookup(hash, t, key).Some?)
      && (Lookup(hash, s, key).Some? ==> Lookup(hash, t, key).value.id == Lookup(hash, s, key).value.id)
  {
  }

  // ----- the router -----

  datatype ShardKeyType = AccountId | InstrumentId | OrderId | Custom

  datatype ShardConfig = ShardConfig(keyType: ShardKeyType, replicaCount: nat, loadBalance: bool, loadThreshold: real)

  /** The part before the first dot. */
  function BeforeDot(key: string): (r: string)
    ensures '.' !in r && r <= key
    ensures r == key || (|r| < |key| && key[|r|] == '.')
  {
    if key == [] then [] else if key[0] == '.' then [] else [key[0]] + BeforeDot(key[1..])
  }

  function ShardKey(config: ShardConfig, key: string): string {
    match config.keyType
    case InstrumentId => BeforeDot(key)
    case _ => key
  }

  /** The fold behind `min_by`: an equally loaded later node does not replace an earlier one. */
  function LeastLoaded(candidates: seq<PhysicalNode>): Option<PhysicalNode> {
    if candidates == [] then None else
      var last := candidates[|candidates| - 1];
      match LeastLoaded(candidates[..|candidates| - 1])
      case None => Some(last)
      case Some(best) => if last.load < best.load then Some(last) else Some(best)
  }

  ghost predicate FirstMinimal(candidates: seq<PhysicalNode>, i: nat)
    requires i < |candidates|
  {
    && (forall j | 0 <= j < i :: candidates[i].load < candidates[j].load)
    && (forall j | i <= j < |candidates| :: candidates[i].load <= candidates[j].load)
  }

  /** The fold picks the first node of minimal load. */
  lemma {:induction false} LeastLoadedIsFirstMinimal(candidates: seq<PhysicalNode>) returns (i: nat)
    requires candidates != []
    ensures i < |candidates| && FirstMinimal(candidates, i) && LeastLoaded(candidates) == Some(candidates[i])
  {
    var init, last := candidates[..|candidates| - 1], candidates[|candidates| - 1];
    if init == [] {
      i := 0;
    } else {
      i := LeastLoadedIsFirstMinimal(init);
      assert forall j | 0 <= j < |init| :: candidates[j] == init[j];
      if last.load < init[i].load {
        i := |init|;
      }
    }
  }

  function Eligible(config: ShardConfig, candidates: seq<PhysicalNode>): seq<PhysicalNode> {
    Filter(candidates, (n: PhysicalNode) => n.isActive && n.load < config.loadThreshold)
  }

  ghost function Balanced(hash: HashFn, config: ShardConfig, s: RingState, shardKey: string): Option<PhysicalNode> {
    var best := LeastLoaded(Eligible(config, Replicas(hash, s, shardKey, config.replicaCount)));
    if best.Some? then best else Lookup(hash, s, shardKey)
  }

  /** What routing would answer without a cache. */
  ghost function Uncached(hash: HashFn, config: ShardConfig, s: RingState, key: string): Option<PhysicalNode> {
    var shardKey := ShardKey(config, key);
    if config.loadBalance then Balanced(hash, config, s, shardKey) else Lookup(hash, s, shardKey)
  }

  datatype RouterState = RouterState(ring: RingState, cache: map<string, NodeId>)

  ghost predicate CacheHit(config: ShardConfig, s: RouterState, key: string) {
    var shardKey := ShardKey(config, key);
    shardKey in s.cache && Active(s.ring.nodes, s.cache[shardKey])
  }

  /** Answer and new cache of one `route` call. */
  ghost function Route(hash: HashFn, config: ShardConfig, s: RouterState, key: string): (RouterState, Option<PhysicalNode>) {
    var shardKey := ShardKey(config, key);
    if CacheHit(config, s, key) then
      (s, Some(s.ring.nodes[s.cache[shardKey]]))
    else
      var answer := Uncached(hash, config, s.ring, key);
      var cache := s.cache - {shardKey};
      (s.(cache := if answer.Some? then cache[shardKey := answer.value.id] else cache), answer)
  }

  datatype RouterOp =
    | RouteOp(key: string)
    | AddNodeOp(node: PhysicalNode)
    | RemoveNodeOp(id: NodeId)
    | StatusOp(id: NodeId, active: bool)
    | LoadOp(id: NodeId, load: real)

  ghost function Perform(hash: HashFn, base: nat, config: ShardConfig, s: RouterState, op: RouterOp): RouterState {
    match op
    case RouteOp(key) => Route(hash, config, s, key).0
    case AddNodeOp(node) => RouterState(RingAdd(hash, base, s.ring, node), map[])
    case RemoveNodeOp(id) => RouterState(RingRemove(s.ring, id), map k | k in s.cache && s.cache[k] != id :: s.cache[k])
    case StatusOp(id, active) => s.(ring := RingStatus(s.ring, id, active))
    case LoadOp(id, load) => s.(ring := RingLoad(s.ring, id, load))
  }

  ghost function PerformAll(hash: HashFn, base: nat, config: ShardConfig, ops: seq<RouterOp>): RouterState {
    if ops == [] then RouterState(EMPTY_RING, map[]) else
      Perform(hash, base, config, PerformAll(hash, base, config, ops[..|ops| - 1]), ops[|ops| - 1])
  }

  /** Every cached entry names the current owner of its shard key. */
  ghost predicate CacheExact(hash: HashFn, s: RouterState) {
    forall k | k in s.cache :: s.ring.ring != map[] && s.cache[k] == OwnerId(s.ring.ring, hash(k))
  }

  lemma PerformKeepsCacheExact(hash: HashFn, base: nat, config: ShardConfig, s: RouterState, op: RouterOp)
    requires !config.loadBalance && RingInv(s.ring) && CacheExact(hash, s)
    ensures RingInv(Perform(hash, base, config, s, op).ring) && CacheExact(hash, Perform(hash, base, config, s, op))
  {
    match op
    case RouteOp(key) =>
    case AddNodeOp(node) => InsertedKeepsRingInv(hash, base, s.ring, node);
    case RemoveNodeOp(id) =>
      var s' := Perform(hash, base, config, s, op);
      forall k | k in s'.cache
        ensures s'.ring.ring != map[] && s'.cache[k] == OwnerId(s'.ring.ring, hash(k))
      {
        RemoveMovesOnlyOwned(s.ring.ring, id, hash(k));
      }
    case StatusOp(_, _) =>
    case LoadOp(_, _) =>
  }

  lemma {:induction false} RunKeepsCacheExact(hash: HashFn, base: nat, config: ShardConfig, ops: seq<RouterOp>)
    requires !config.loadBalance
    ensures RingInv(PerformAll(hash, base, config, ops).ring) && CacheExact(hash, PerformAll(hash, base, config, ops))
  {
    if ops == [] {
    } else {
      RunKeepsCacheExact(hash, base, config, ops[..|ops| - 1]);
      PerformKeepsCacheExact(hash, base, config, PerformAll(hash, base, config, ops[..|ops| - 1]), ops[|ops| - 1]);
    }
  }

  /** Without load balancing, after any run of routing, additions, removals, status and load changes,
      routing through the cache answers exactly what the ring alone would answer. */
  lemma CacheTransparent(hash: HashFn, base: nat, config: ShardConfig, ops: seq<RouterOp>, key: string)
    requires !config.loadBalance
    ensures var s := PerformAll(hash, base, config, ops);
            Route(hash, config, s, key).1 == Lookup(hash, s.ring, ShardKey(config, key))
  {
    RunKeepsCacheExact(hash, base, config, ops);
  }

  /** What the cache holds after an operation: routing keeps the answer, adding a node forgets everything, removing
      one forgets exactly its own entries, and nothing else touches it. */
  lemma CacheAfter(hash: HashFn, base: nat, config: ShardConfig, s: RouterState, op: RouterOp)
    requires config.keyType in {AccountId, OrderId, Custom}
    ensures var s' := Perform(hash, base, config, s, op);
      && (op.RouteOp? && Route(hash, config, s, op.key).1.Some? && RingInv(s.ring) ==>
            op.key in s'.cache && s'.cache[op.key] in s.ring.nodes
            && Route(hash, config, s, op.key).1 == Some(s.ring.nodes[s'.cache[op.key]]))
      && (op.AddNodeOp? ==> s'.cache == map[])
      && (op.RemoveNodeOp? ==> forall k :: k in s'.cache <==> k in s.cache && s.cache[k] != op.id)
      && (op.RemoveNodeOp? ==> forall k | k in s'.cache :: s'.cache[k] == s.cache[k])
      && (op.StatusOp? || op.LoadOp? ==> s'.cache == s.cache)
  {
    if op.RouteOp? && RingInv(s.ring) {
      var i := BestEligible(config, Replicas(hash, s.ring, op.key, config.replicaCount));
      PreferenceExact(s.ring.ring, s.ring.nodes, hash(op.key));
      ReplicasExact(hash, s.ring, op.key, config.replicaCount);
    }
  }

  // ----- which part of a key is routed -----

  lemma {:induction false} BeforeFirstDot(p: string, q: string)
    requires '.' !in p
    ensures BeforeDot(p + "." + q) == p && BeforeDot(p) == p
  {
    if p == [] {
    } else {
      BeforeFirstDot(p[1..], q);
      assert (p + "." + q)[1..] == p[1..] + "." + q;
    }
  }

  /** By instrument, all contracts of an exchange go where the bare exchange code goes. */
  lemma RouteByExchange(hash: HashFn, base: nat, config: ShardConfig, ops: seq<RouterOp>, p: string, q: string)
    requires !config.loadBalance && config.keyType == InstrumentId && '.' !in p
    ensures var s := PerformAll(hash, base, config, ops);
            Route(hash, config, s, p + "." + q).1 == Lookup(hash, s.ring, p) == Route(hash, config, s, p).1
  {
    BeforeFirstDot(p, q);
    CacheTransparent(hash, base, config, ops, p + "." + q);
    CacheTransparent(hash, base, config, ops, p);
  }

  /** By account, order or custom key, the whole key is looked up. */
  lemma RouteByWholeKey(hash: HashFn, base: nat, config: ShardConfig, ops: seq<RouterOp>, key: string)
    requires !config.loadBalance && config.keyType in {AccountId, OrderId, Custom}
    ensures var s := PerformAll(hash, base, config, ops);
            Route(hash, config, s, key).1 == Lookup(hash, s.ring, key)
  {
    CacheTransparent(hash, base, config, ops, key);
  }

  /** A key is looked up at the first virtual node clockwise from its hash; an empty ring answers nothing. */
  lemma LookupIsFirstClockwise(hash: HashFn, s: RingState, key: string, k: nat)
    requires RingInv(s)
    ensures s.ring == map[] <==> Lookup(hash, s, key) == None
    ensures k in s.ring && Clockwise(s.ring.Keys, hash(key), k) ==> Lookup(hash, s, key) == Some(s.nodes[s.ring[k].physicalNode])
  {
    if k in s.ring {
      SuccessorIff(s.ring.Keys, hash(key), k);
    }
  }

  // ----- load balancing -----

  predicate HasRoom(config: ShardConfig, n: PhysicalNode) {
    n.isActive && n.load < config.loadThreshold
  }

  /** `i` is the least loaded of the nodes with room, the first one among equals. */
  ghost predicate Best(config: ShardConfig, nodes: seq<PhysicalNode>, i: nat) {
    && i < |nodes| && HasRoom(config, nodes[i])
    && (forall j | 0 <= j < |nodes| && HasRoom(config, nodes[j]) ::
          nodes[i].load <= nodes[j].load && (j < i ==> nodes[i].load < nodes[j].load))
  }

  lemma BestKept(config: ShardConfig, init: seq<PhysicalNode>, last: PhysicalNode, i: nat)
    requires Best(config, init, i) && (HasRoom(config, last) ==> init[i].load <= last.load)
    ensures Best(config, init + [last], i)
  {
  }

  lemma BestReplaced(config: ShardConfig, init: seq<PhysicalNode>, last: PhysicalNode)
    requires HasRoom(config, last)
    requires forall j | 0 <= j < |init| && HasRoom(config, init[j]) :: last.load < init[j].load
    ensures Best(config, init + [last], |init|)
  {
  }

  lemma LeastLoadedSnoc(c: seq<PhysicalNode>, last: PhysicalNode)
    ensures LeastLoaded(c + [last]) ==
            if LeastLoaded(c) == None || last.load < LeastLoaded(c).value.load then Some(last) else LeastLoaded(c)
  {
    assert (c + [last])[..|c|] == c;
  }

  lemma {:induction false} BestEligible(config: ShardConfig, nodes: seq<PhysicalNode>) returns (i: nat)
    ensures LeastLoaded(Eligible(config, nodes)) == None ==> forall j | 0 <= j < |nodes| :: !HasRoom(config, nodes[j])
    ensures LeastLoaded(Eligible(config, nodes)) != None ==>
              Best(config, nodes, i) && LeastLoaded(Eligible(config, nodes)) == Some(nodes[i])
  {
    i := 0;
    if nodes == [] {
    } else {
      var init, last := nodes[..|nodes| - 1], nodes[|nodes| - 1];
      var before := Eligible(config, init);
      assert nodes == init + [last];
      i := BestEligible(config, init);
      FilterSnoc(init, last, (n: PhysicalNode) => n.isActive && n.load < config.loadThreshold);
      LeastLoadedSnoc(before, last);
      if LeastLoaded(before) != None && (!HasRoom(config, last) || init[i].load <= last.load) {
        BestKept(config, init, last, i);
      } else if HasRoom(config, last) {
        BestReplaced(config, init, last);
        i := |init|;
      }
    }
  }

  /** With load balancing, a key without a usable cache entry goes to the least loaded replica with room, and to
      the plain owner when no replica has room; a usable cache entry is kept whatever the loads are. */
  lemma BalancedRoute(hash: HashFn, config: ShardConfig, s: RouterState, key: string) returns (i: nat)
    requires config.loadBalance && config.keyType in {AccountId, OrderId, Custom}
    ensures var usable := key in s.cache && s.cache[key] in s.ring.nodes && s.ring.nodes[s.cache[key]].isActive;
            var replicas := Replicas(hash, s.ring, key, config.replicaCount);
            var answer := Route(hash, config, s, key).1;
      && (usable ==> answer == Some(s.ring.nodes[s.cache[key]]))
      && (!usable && (exists j :: 0 <= j < |replicas| && HasRoom(config, replicas[j])) ==>
            Best(config, replicas, i) && answer == Some(replicas[i]))
      && (!usable && (forall j | 0 <= j < |replicas| :: !HasRoom(config, replicas[j])) ==>
            answer == Lookup(hash, s.ring, key))
  {
    i := BestEligible(config, Replicas(hash, s.ring, key, config.replicaCount));
  }

  class ShardRouter {
    const ring: ConsistentHashRing
    const config: ShardConfig
    var cache: map<string, NodeId>

    ghost function State(): RouterState
      reads this, ring
    {
      RouterState(ring.State(), cache)
    }

    ghost predicate Valid()
      reads this, ring
    {
      ring.Valid()
    }

    /** The router owns a ring with 150 virtual nodes per unit of weight. */
    constructor (config: ShardConfig, hash: HashFn)
      ensures Valid() && State() == RouterState(EMPTY_RING, map[])
      ensures this.config == config && ring.hash == hash && ring.virtualNodeCount == 150 && fresh(ring)
    {
      ring := new ConsistentHashRing(150, hash);
      this.config := config;
      cache := map[];
    }

    method RouteTo(key: string) returns (r: Option<PhysicalNode>)
      requires Valid()
      modifies this
      ensures Valid() && (State(), r) == Route(ring.hash, config, old(State()), key)
    {
      var shardKey := ShardKey(config, key);
      if shardKey in cache {
        var nodeId := cache[shardKey];
        if nodeId in ring.nodes {
          if ring.nodes[nodeId].isActive {
            return Some(ring.nodes[nodeId]);
          }
        }
        cache := cache - {shardKey};
      }
      if config.loadBalance {
        r := RouteWithLoadBalance(shardKey);
      } else {
        r := ring.GetNode(shardKey);
      }
      assert old(cache) - {shardKey} == cache;
      if r.Some? {
        cache := cache[shardKey := r.value.id];
      }
    }

    /** The least loaded eligible replica, or the key's own node when none is eligible. */
    method RouteWithLoadBalance(shardKey: string) returns (r: Option<PhysicalNode>)
      requires Valid()
      ensures r == Balanced(ring.hash, config, ring.State(), shardKey)
    {
      var nodes := ring.GetNodesWithReplicas(shardKey, config.replicaCount);
      r := LeastLoaded(Eligible(config, nodes));
      if r == None {
        r := ring.GetNode(shardKey);
      }
    }

    method AddNode(node: PhysicalNode)
      requires Valid()
      modifies this, ring
      ensures Valid() && State() == Perform(ring.hash, ring.virtualNodeCount, config, old(State()), AddNodeOp(node))
    {
      ring.AddNode(node);
      cache := map[];
    }

    method RemoveNode(id: NodeId)
      requires Valid()
      modifies this, ring
      ensures Valid() && State() == Perform(ring.hash, ring.virtualNodeCount, config, old(State()), RemoveNodeOp(id))
    {
      ring.RemoveNode(id);
      cache := map k | k in cache && cache[k] != id :: cache[k];
    }
  }
}
