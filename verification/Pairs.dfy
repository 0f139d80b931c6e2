/**
 The smallest cluster on which shards can disagree: shard 0 belongs to `a` and shard 1 to `b`, which
 may be the same node.
 */
module Pairs {
  import opened RevisionProtocol

  function Pair(a: Node, b: Node): Cluster {
    Cluster({a, b}, 2, 1, (ring, shard, replica) => if shard == 0 then a else b)
  }

  function Store(a: Node, b: Node, first: Slot, second: Slot): map<Loc, Slot> {
    map[Loc(a, 0) := first, Loc(b, 1) := second]
  }

  lemma PairKeys(a: Node, b: Node)
    ensures ReplicaKeys(Pair(a, b)) == [(0, 0), (1, 0)]
  {
    var c := Pair(a, b);
    assert KeysUpto(c, 0) == [] && RowKeys(0, 0) == [] && RowKeys(1, 0) == [];
    assert RowKeys(0, 1) == [(0, 0)] && RowKeys(1, 1) == [(1, 0)];
    assert KeysUpto(c, 1) == [(0, 0)] && KeysUpto(c, 2) == [(0, 0)] + [(1, 0)];
  }

  lemma PairOwners(a: Node, b: Node, ring: set<Node>)
    requires ring != {}
    ensures Owners(Pair(a, b), ring) == {a, b} && Found(Pair(a, b), [ring, ring]) == {a, b}
  {
    var c := Pair(a, b);
    PairKeys(a, b);
    assert c.owner(ring, 0, 0) == a && c.owner(ring, 1, 0) == b;
    assert a in Owners(c, ring) && b in Owners(c, ring);
    FoundIsOwners(c, [ring, ring], ring);
  }

  lemma StoreChanges(a: Node, b: Node, first: Slot, second: Slot, x: Slot)
    ensures Store(a, b, first, second)[Loc(a, 0) := x] == Store(a, b, x, second)
    ensures Store(a, b, first, second)[Loc(b, 1) := x] == Store(a, b, first, x)
  {
  }
}
