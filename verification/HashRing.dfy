/** The consistent-hash ring: a sorted map from hash values to virtual nodes, walked clockwise. The hash
    is an arbitrary function, so collisions between virtual nodes are allowed everywhere. */
module HashRing {
  import opened Common
  import opened Seqs

  datatype NodeId = NodeId(text: string)

  type U32 = x: nat | x < 0x1_0000_0000

  datatype PhysicalNode = PhysicalNode(id: NodeId, addr: string, weight: U32, isActive: bool, load: real)

  datatype VirtualNode = VirtualNode(physicalNode: NodeId, index: nat, hash: nat)

  type Ring = map<nat, VirtualNode>
  type NodeTable = map<NodeId, PhysicalNode>
  type HashFn = string -> nat

  // ----- construction -----

  function VnodeHash(hash: HashFn, id: NodeId, i: nat): nat {
    hash(id.text + "#" + Decimal(i))
  }

  /** 32-bit arithmetic: the base is truncated and the product wraps around. */
  function VnodeCount(base: nat, weight: U32): nat {
    (base % 0x1_0000_0000) * weight % 0x1_0000_0000 / 100
  }

  /** The ring after inserting the first `n` virtual nodes of `id`; a hash already present is overwritten. */
  function Inserted(hash: HashFn, ring: Ring, id: NodeId, n: nat): Ring {
    if n == 0 then ring else
      var h := VnodeHash(hash, id, n - 1);
      Inserted(hash, ring, id, n - 1)[h := VirtualNode(id, n - 1, h)]
  }

  /** The hash values at which `id` places its first `n` virtual nodes. */
  ghost function Places(hash: HashFn, id: NodeId, n: nat): set<nat> {
    set i | 0 <= i < n :: VnodeHash(hash, id, i)
  }

  function Dropped(ring: Ring, id: NodeId): Ring {
    map k | k in ring && ring[k].physicalNode != id :: ring[k]
  }

  lemma {:induction false} InsertedMeaning(hash: HashFn, ring: Ring, id: NodeId, n: nat)
    ensures Inserted(hash, ring, id, n).Keys == ring.Keys + Places(hash, id, n)
    ensures forall k | k in Places(hash, id, n) :: Inserted(hash, ring, id, n)[k].physicalNode == id
    ensures forall k | k in ring && k !in Places(hash, id, n) :: Inserted(hash, ring, id, n)[k] == ring[k]
  {
    if n == 0 {
    } else {
      InsertedMeaning(hash, ring, id, n - 1);
      assert Places(hash, id, n) == Places(hash, id, n - 1) + {VnodeHash(hash, id, n - 1)};
    }
  }

  // ----- walking clockwise -----

  function From(keys: set<nat>, h: nat): set<nat> {
    set k | k in keys && h <= k
  }

  function Before(keys: set<nat>, h: nat): set<nat> {
    set k | k in keys && k < h
  }

  /** One full rotation: the keys from `h` upwards, then the keys below `h`. */
  ghost function Walk(keys: set<nat>, h: nat): seq<nat> {
    Sorted(From(keys, h)) + Sorted(Before(keys, h))
  }

  /** The rotation visits every virtual node exactly once. */
  lemma WalkVisitsAll(keys: set<nat>, h: nat)
    ensures NoDup(Walk(keys, h))
    ensures forall k :: k in Walk(keys, h) <==> k in keys
    ensures |Walk(keys, h)| == |keys|
  {
    NoDupConcat(Sorted(From(keys, h)), Sorted(Before(keys, h)));
    NoDupSize(Walk(keys, h));
    assert ToSet(Walk(keys, h)) == keys;
  }

  /** `range(hash..)` chained with the whole map and cut to the map's length is that rotation. */
  lemma ChainTakeIsWalk(keys: set<nat>, h: nat)
    ensures |Sorted(keys)| == |keys|
    ensures (Sorted(From(keys, h)) + Sorted(keys))[..|keys|] == Walk(keys, h)
  {
    var high, low := Sorted(From(keys, h)), Sorted(Before(keys, h));
    WalkVisitsAll(keys, h);
    SortedSize(keys);
    AscendingConcat(low, high);
    AscendingUnique(low + high, Sorted(keys));
    assert (high + (low + high))[..|high| + |low|] == high + low;
  }

  lemma AscendingConcat(s: seq<nat>, t: seq<nat>)
    requires Ascending(s) && Ascending(t) && forall x, y | x in s && y in t :: x < y
    ensures Ascending(s + t)
  {
    var u := s + t;
    forall i, j | 0 <= i < j < |u|
      ensures u[i] < u[j]
    {
      if i < |s| <= j {
        assert s[i] in s && t[j - |s|] in t;
      }
    }
  }

  /** The virtual node responsible for hash `h`: the first at or above it, wrapping to the lowest. */
  function Successor(keys: set<nat>, h: nat): (k: nat)
    requires keys != {}
    ensures k in keys
  {
    if From(keys, h) != {} then Least(From(keys, h)) else Least(keys)
  }

  lemma SuccessorIsFirst(keys: set<nat>, h: nat)
    requires keys != {}
    ensures Walk(keys, h) != [] && Walk(keys, h)[0] == Successor(keys, h)
  {
    if From(keys, h) == {} {
      assert Before(keys, h) == keys by {
        assert keys == From(keys, h) + Before(keys, h);
      }
      SortedHead(keys);
      assert Sorted(From(keys, h)) == [] by {
        SortedSize(From(keys, h));
      }
    } else {
      SortedHead(From(keys, h));
    }
  }

  lemma SortedHead(s: set<nat>)
    requires s != {}
    ensures Sorted(s) != [] && Sorted(s)[0] == Least(s)
  {
    assert Least(s) in Sorted(s);
    assert Sorted(s)[0] in Sorted(s);
  }

  /** `k` is between `h` and every other key, clockwise: the condition that makes it the successor. */
  ghost predicate Clockwise(keys: set<nat>, h: nat, k: nat) {
    && k in keys
    && (forall j | j in keys :: if h <= k then j < h || k <= j else j < h && k <= j)
  }

  lemma SuccessorIff(keys: set<nat>, h: nat, k: nat)
    requires keys != {}
    ensures k == Successor(keys, h) <==> Clockwise(keys, h, k)
  {
    var s := Successor(keys, h);
    if From(keys, h) == {} {
      assert forall j | j in keys :: j < h by {
        forall j | j in keys
          ensures j < h
        {
          assert j in From(keys, h) <==> h <= j;
        }
      }
    } else {
      assert s in From(keys, h);
      assert forall j | j in keys && h <= j :: j in From(keys, h);
    }
  }

  function OwnerId(ring: Ring, h: nat): NodeId
    requires ring != map[]
  {
    ring[Successor(ring.Keys, h)].physicalNode
  }

  // ----- minimal disruption -----

  /** Adding a node moves a key only to the new node, hash collisions included. */
  lemma AddMovesOnlyToNew(hash: HashFn, ring: Ring, id: NodeId, n: nat, h: nat)
    requires ring != map[]
    ensures var ring' := Inserted(hash, ring, id, n);
            ring' != map[] && (OwnerId(ring', h) == OwnerId(ring, h) || OwnerId(ring', h) == id)
  {
    var ring' := Inserted(hash, ring, id, n);
    InsertedMeaning(hash, ring, id, n);
    assert ring.Keys != {} && ring'.Keys != {};
    var k := Successor(ring'.Keys, h);
    SuccessorIff(ring'.Keys, h, k);
    if k !in Places(hash, id, n) {
      SuccessorIff(ring.Keys, h, k);
    }
  }

  /** Removing a node moves only the keys it owned. */
  lemma RemoveMovesOnlyOwned(ring: Ring, id: NodeId, h: nat)
    requires ring != map[] && OwnerId(ring, h) != id
    ensures Dropped(ring, id) != map[] && OwnerId(Dropped(ring, id), h) == OwnerId(ring, h)
  {
    var k := Successor(ring.Keys, h);
    assert k in Dropped(ring, id);
    SuccessorIff(ring.Keys, h, k);
    SuccessorIff(Dropped(ring, id).Keys, h, k);
  }

  /** Removing a node that was just added restores the ring exactly when none of its virtual nodes landed
      on an occupied hash. Otherwise another node's virtual node is lost for good. */
  lemma AddThenRemoveIff(hash: HashFn, ring: Ring, id: NodeId, n: nat)
    requires forall k | k in ring :: ring[k].physicalNode != id
    ensures Dropped(Inserted(hash, ring, id, n), id) == ring <==> Places(hash, id, n) !! ring.Keys
  {
    InsertedMeaning(hash, ring, id, n);
    var back := Dropped(Inserted(hash, ring, id, n), id);
    assert back.Keys == ring.Keys - Places(hash, id, n);
    assert forall k | k in back :: back[k] == ring[k];
  }

  /** The hash values of a node's virtual nodes. */
  ghost function Owned(ring: Ring, id: NodeId): set<nat> {
    set h | h in ring && ring[h].physicalNode == id
  }

  /** Adding an id again leaves it with exactly the virtual nodes of its new weight precisely when it had no
      others before. */
  lemma ReAddExactIff(hash: HashFn, ring: Ring, id: NodeId, n: nat)
    ensures Owned(Inserted(hash, ring, id, n), id) == Places(hash, id, n) + Owned(ring, id)
    ensures Owned(Inserted(hash, ring, id, n), id) == Places(hash, id, n) <==> Owned(ring, id) <= Places(hash, id, n)
  {
    InsertedMeaning(hash, ring, id, n);
  }

  /** Re-adding an id never frees a virtual node it already has, even when the new weight asks for fewer. */
  lemma ReAddKeepsOldVnodes(hash: HashFn, ring: Ring, id: NodeId, n: nat, k: nat)
    requires k in ring && ring[k].physicalNode == id
    ensures k in Inserted(hash, ring, id, n) && Inserted(hash, ring, id, n)[k].physicalNode == id
  {
    InsertedMeaning(hash, ring, id, n);
  }

  // ----- how many virtual nodes -----

  /** A node gets its weight's percentage of the base, rounded down, as long as the product fits 32 bits; beyond
      that, the percentage of what is left of the product modulo 2 to the 32. */
  lemma VnodeCountIs(base: nat, weight: U32)
    requires base < 0x1_0000_0000
    ensures var c := VnodeCount(base, weight);
      && (base * weight < 0x1_0000_0000 ==> 100 * c <= base * weight < 100 * c + 100)
      && (exists wraps: nat :: 100 * c <= base * weight - wraps * 0x1_0000_0000 < 100 * c + 100)
  {
    var product: nat := base * weight;
    var wraps, left := product / 0x1_0000_0000, product % 0x1_0000_0000;
    assert product == wraps * 0x1_0000_0000 + left;
    assert base % 0x1_0000_0000 == base;
    assert 100 * (left / 100) <= left < 100 * (left / 100) + 100;
  }

  /** The name under which a node's `i`-th virtual node is hashed. */
  function VnodeName(id: NodeId, i: nat): string {
    id.text + ("#" + Decimal(i))
  }

  lemma NamedPlace(hash: HashFn, id: NodeId, i: nat)
    ensures VnodeHash(hash, id, i) == hash(VnodeName(id, i))
  {
    Associate(id.text, "#", Decimal(i));
  }

  lemma {:induction false} PlacesSize(hash: HashFn, id: NodeId, n: nat)
    requires forall i, j | 0 <= i < j < n :: VnodeHash(hash, id, i) != VnodeHash(hash, id, j)
    ensures |Places(hash, id, n)| == n
  {
    if n == 0 {
    } else {
      PlacesSize(hash, id, n - 1);
      assert Places(hash, id, n) == Places(hash, id, n - 1) + {VnodeHash(hash, id, n - 1)};
      assert VnodeHash(hash, id, n - 1) !in Places(hash, id, n - 1);
    }
  }

  /** The virtual nodes of a new node are named by its id and their index, and there is one for each of the first
      `n` indices when the hashes of these names do not collide. */
  lemma VnodesAre(hash: HashFn, ring: Ring, id: NodeId, n: nat)
    requires Owned(ring, id) == {}
    ensures Owned(Inserted(hash, ring, id, n), id) == set i | 0 <= i < n :: hash(VnodeName(id, i))
    ensures (forall i, j | 0 <= i < j < n :: hash(VnodeName(id, i)) != hash(VnodeName(id, j))) ==>
              |Owned(Inserted(hash, ring, id, n), id)| == n
  {
    forall i | 0 <= i < n
      ensures VnodeHash(hash, id, i) == hash(VnodeName(id, i))
    {
      NamedPlace(hash, id, i);
    }
    ReAddExactIff(hash, ring, id, n);
    assert Places(hash, id, n) == set i | 0 <= i < n :: hash(VnodeName(id, i));
    if forall i, j | 0 <= i < j < n :: hash(VnodeName(id, i)) != hash(VnodeName(id, j)) {
      PlacesSize(hash, id, n);
    }
  }

  // ----- preference lists -----

  function Owners(ring: Ring, keys: seq<nat>): seq<NodeId>
    requires forall k | k in keys :: k in ring
  {
    seq(|keys|, i requires 0 <= i < |keys| => ring[keys[i]].physicalNode)
  }

  /** First occurrences, in order. */
  function Distinct<T(!new,==)>(s: seq<T>): (r: seq<T>)
    ensures forall x :: x in r <==> x in s
  {
    if s == [] then [] else
      var init, last := s[..|s| - 1], s[|s| - 1];
      if last in init then Distinct(init) else Distinct(init) + [last]
  }

  lemma DistinctSnoc<T(!new)>(s: seq<T>, x: T)
    ensures Distinct(s + [x]) == if x in s then Distinct(s) else Distinct(s) + [x]
  {
    assert (s + [x])[..|s|] == s;
  }

  lemma {:induction false} DistinctNoDup<T(!new)>(s: seq<T>)
    ensures NoDup(Distinct(s))
  {
    if s == [] {
    } else {
      DistinctNoDup(s[..|s| - 1]);
    }
  }

  lemma {:induction false} DistinctFilter<T(!new)>(s: seq<T>, p: T -> bool)
    ensures Distinct(Filter(s, p)) == Filter(Distinct(s), p)
  {
    if s == [] {
    } else {
      var init, last := s[..|s| - 1], s[|s| - 1];
      DistinctFilter(init, p);
      if last !in init {
        FilterSnoc(Distinct(init), last, p);
      }
      if p(last) {
        DistinctSnoc(Filter(init, p), last);
        assert Filter(s, p) == Filter(init, p) + [last];
      }
    }
  }

  function Active(nodes: NodeTable, id: NodeId): bool {
    id in nodes && nodes[id].isActive
  }

  function ActiveOnly(nodes: NodeTable, ids: seq<NodeId>): seq<NodeId> {
    Filter(ids, id => Active(nodes, id))
  }

  ghost function WalkOwners(ring: Ring, h: nat): seq<NodeId> {
    WalkVisitsAll(ring.Keys, h);
    Owners(ring, Walk(ring.Keys, h))
  }

  /** Every active node that owns a virtual node, in clockwise order of first appearance from `h`. */
  ghost function Preference(ring: Ring, nodes: NodeTable, h: nat): seq<NodeId> {
    ActiveOnly(nodes, Distinct(WalkOwners(ring, h)))
  }

  ghost function ActiveOwners(ring: Ring, nodes: NodeTable): set<NodeId> {
    set k | k in ring && Active(nodes, ring[k].physicalNode) :: ring[k].physicalNode
  }

  lemma WalkOwnersMeaning(ring: Ring, h: nat)
    ensures forall id :: id in WalkOwners(ring, h) <==> exists k :: k in ring && ring[k].physicalNode == id
  {
    var keys := Walk(ring.Keys, h);
    var owners := WalkOwners(ring, h);
    WalkVisitsAll(ring.Keys, h);
    forall k | k in ring
      ensures ring[k].physicalNode in owners
    {
      assert k in keys;
      var i :| 0 <= i < |keys| && keys[i] == k;
      assert owners[i] == ring[k].physicalNode;
    }
    forall id | id in owners
      ensures exists k :: k in ring && ring[k].physicalNode == id
    {
      var i :| 0 <= i < |owners| && owners[i] == id;
      assert keys[i] in ring.Keys;
    }
  }

  /** The preference list holds each active owner of a virtual node exactly once. */
  lemma PreferenceExact(ring: Ring, nodes: NodeTable, h: nat)
    ensures NoDup(Preference(ring, nodes, h))
    ensures ToSet(Preference(ring, nodes, h)) == ActiveOwners(ring, nodes)
    ensures |Preference(ring, nodes, h)| == |ActiveOwners(ring, nodes)|
  {
    DistinctNoDup(WalkOwners(ring, h));
    FilterNoDup(Distinct(WalkOwners(ring, h)), id => Active(nodes, id));
    WalkOwnersMeaning(ring, h);
    NoDupSize(Preference(ring, nodes, h));
  }

  /** The first preference is the key's own node, when that node is active. */
  lemma PreferenceStartsWithOwner(ring: Ring, nodes: NodeTable, h: nat)
    requires ring != map[] && Active(nodes, OwnerId(ring, h))
    ensures Preference(ring, nodes, h) != [] && Preference(ring, nodes, h)[0] == OwnerId(ring, h)
  {
    var owners := WalkOwners(ring, h);
    SuccessorIsFirst(ring.Keys, h);
    assert owners[0] == OwnerId(ring, h);
    assert owners == [owners[0]] + owners[1..];
    DistinctHead(owners);
    var d := Distinct(owners);
    assert d == [d[0]] + d[1..];
    FilterConcat([d[0]], d[1..], id => Active(nodes, id));
    FilterAll([d[0]], id => Active(nodes, id));
  }

  lemma {:induction false} DistinctHead<T(!new)>(s: seq<T>)
    requires s != []
    ensures Distinct(s) != [] && Distinct(s)[0] == s[0]
  {
    if |s| <= 1 {
    } else {
      DistinctHead(s[..|s| - 1]);
    }
  }

  function Among(s: seq<nat>, keep: set<nat>): seq<nat> {
    Filter(s, k => k in keep)
  }

  function Excluding(ids: seq<NodeId>, id: NodeId): seq<NodeId> {
    Filter(ids, x => x != id)
  }

  lemma {:induction false} AmongAscending(s: seq<nat>, keep: set<nat>)
    requires Ascending(s)
    ensures Ascending(Among(s, keep))
  {
    if s == [] {
    } else {
      var init, last := s[..|s| - 1], s[|s| - 1];
      AmongAscending(init, keep);
      forall i | 0 <= i < |Among(init, keep)|
        ensures Among(init, keep)[i] < last
      {
        assert Among(init, keep)[i] in Among(init, keep);
      }
    }
  }

  lemma SortedFilter(keys: set<nat>, keep: set<nat>)
    ensures Sorted(keys * keep) == Among(Sorted(keys), keep)
  {
    AmongAscending(Sorted(keys), keep);
    AscendingUnique(Sorted(keys * keep), Among(Sorted(keys), keep));
  }

  lemma WalkFilter(keys: set<nat>, keep: set<nat>, h: nat)
    ensures Walk(keys * keep, h) == Among(Walk(keys, h), keep)
  {
    SortedFilter(From(keys, h), keep);
    SortedFilter(Before(keys, h), keep);
    assert From(keys * keep, h) == From(keys, h) * keep;
    assert Before(keys * keep, h) == Before(keys, h) * keep;
    FilterConcat(Sorted(From(keys, h)), Sorted(Before(keys, h)), k => k in keep);
  }

  lemma {:induction false} OwnersFilter(ring: Ring, keys: seq<nat>, id: NodeId)
    requires forall k | k in keys :: k in ring
    ensures Owners(Dropped(ring, id), Among(keys, Dropped(ring, id).Keys)) == Excluding(Owners(ring, keys), id)
  {
    if keys == [] {
    } else {
      var init, last := keys[..|keys| - 1], keys[|keys| - 1];
      assert last in keys && forall k | k in init :: k in keys;
      OwnersFilter(ring, init, id);
      assert Owners(ring, keys) == Owners(ring, init) + [ring[last].physicalNode];
      FilterSnoc(Owners(ring, init), ring[last].physicalNode, x => x != id);
    }
  }

  lemma WalkOwnersFilter(ring: Ring, id: NodeId, h: nat)
    ensures WalkOwners(Dropped(ring, id), h) == Excluding(WalkOwners(ring, h), id)
  {
    var keep := Dropped(ring, id).Keys;
    WalkVisitsAll(ring.Keys, h);
    assert ring.Keys * keep == keep;
    WalkFilter(ring.Keys, keep, h);
    OwnersFilter(ring, Walk(ring.Keys, h), id);
  }

  lemma {:induction false} ActiveExcluding(nodes: NodeTable, ids: seq<NodeId>, id: NodeId)
    ensures ActiveOnly(nodes - {id}, Excluding(ids, id)) == Excluding(ActiveOnly(nodes, ids), id)
  {
    if ids == [] {
    } else {
      var init, last := ids[..|ids| - 1], ids[|ids| - 1];
      ActiveExcluding(nodes, init, id);
      assert ids == init + [last];
      ActiveExcludingSnoc(nodes, init, last, id);
    }
  }

  lemma ActiveExcludingSnoc(nodes: NodeTable, init: seq<NodeId>, last: NodeId, id: NodeId)
    requires ActiveOnly(nodes - {id}, Excluding(init, id)) == Excluding(ActiveOnly(nodes, init), id)
    ensures ActiveOnly(nodes - {id}, Excluding(init + [last], id)) == Excluding(ActiveOnly(nodes, init + [last]), id)
  {
    ExcludingSnoc(init, last, id);
    if last == id {
      ExcludedSnoc(nodes, init, id);
    } else {
      StillActive(nodes, last, id);
      ActiveSnoc(nodes - {id}, Excluding(init, id), last);
      KeptSnoc(nodes, init, last, id);
    }
  }

  lemma StillActive(nodes: NodeTable, last: NodeId, id: NodeId)
    requires last != id
    ensures Active(nodes - {id}, last) == Active(nodes, last)
  {
  }

  lemma ExcludedSnoc(nodes: NodeTable, init: seq<NodeId>, id: NodeId)
    ensures Excluding(ActiveOnly(nodes, init + [id]), id) == Excluding(ActiveOnly(nodes, init), id)
  {
    ActiveSnoc(nodes, init, id);
    ExcludingSnoc(ActiveOnly(nodes, init), id, id);
  }

  lemma KeptSnoc(nodes: NodeTable, init: seq<NodeId>, last: NodeId, id: NodeId)
    requires last != id
    ensures Excluding(ActiveOnly(nodes, init + [last]), id) ==
            if Active(nodes, last) then Excluding(ActiveOnly(nodes, init), id) + [last]
            else Excluding(ActiveOnly(nodes, init), id)
  {
    ActiveSnoc(nodes, init, last);
    ExcludingSnoc(ActiveOnly(nodes, init), last, id);
  }

  lemma ExcludingSnoc(ids: seq<NodeId>, last: NodeId, id: NodeId)
    ensures Excluding(ids + [last], id) == if last != id then Excluding(ids, id) + [last] else Excluding(ids, id)
  {
    FilterSnoc(ids, last, x => x != id);
  }

  lemma ActiveSnoc(nodes: NodeTable, ids: seq<NodeId>, last: NodeId)
    ensures ActiveOnly(nodes, ids + [last]) ==
            if Active(nodes, last) then ActiveOnly(nodes, ids) + [last] else ActiveOnly(nodes, ids)
  {
    FilterSnoc(ids, last, id => Active(nodes, id));
  }

  /** After removing a node, every key's whole preference list is the old one with that node deleted. */
  lemma RemovalKeepsPreferences(ring: Ring, nodes: NodeTable, id: NodeId, h: nat)
    ensures Preference(Dropped(ring, id), nodes - {id}, h) == Excluding(Preference(ring, nodes, h), id)
  {
    var owners := WalkOwners(ring, h);
    WalkOwnersFilter(ring, id, h);
    DistinctFilter(owners, x => x != id);
    assert Distinct(Excluding(owners, id)) == Excluding(Distinct(owners), id);
    ActiveExcluding(nodes, Distinct(owners), id);
  }

  /** Adding a node that lands on no occupied hash inserts it somewhere into each preference list and
      leaves the rest of the list in order. */
  lemma AdditionKeepsPreferences(hash: HashFn, ring: Ring, nodes: NodeTable, node: PhysicalNode, n: nat, h: nat)
    requires forall k | k in ring :: ring[k].physicalNode != node.id
    requires Places(hash, node.id, n) !! ring.Keys && node.id !in nodes
    ensures Excluding(Preference(Inserted(hash, ring, node.id, n), nodes[node.id := node], h), node.id) ==
            Preference(ring, nodes, h)
  {
    var ring', nodes' := Inserted(hash, ring, node.id, n), nodes[node.id := node];
    AddThenRemoveIff(hash, ring, node.id, n);
    AddThenDropNode(nodes, node);
    RemovalKeepsPreferences(ring', nodes', node.id, h);
  }

  lemma AddThenDropNode(nodes: NodeTable, node: PhysicalNode)
    requires node.id !in nodes
    ensures nodes[node.id := node] - {node.id} == nodes
  {
  }
}
