/**
 The placement that the reload protocol relies on is the one that Rebalance establishes: when every
 node of the ring holds what it owns, the nodes on which the commit waits are the nodes with shards.
 */
module PlacedByRebalance {
  import opened HashRings
  import opened ShardKeys
  import opened RevisionProtocol
  import opened ProtocolRefinement
  import opened Quiescence
  import opened Signals
  import AllOrNothing
  import LateJoin
  import Placement
  import PlacementLaws

  /** The stores of all nodes, and the shards of the index `m` in the protocol state. */
  ghost predicate SameHoldings(stores: map<Node, Placement.Store>, m: Manifest, store: map<Loc, Slot>) {
    forall n, i: nat {:trigger Loc(n, i)} ::
      Loc(n, i) in store <==> n in stores && i < m.shards && Placement.Key(m.name, i) in stores[n]
  }

  ghost predicate EverybodyHoldsOwned(ring: Ring, ms: Placement.Manifests, stores: map<Node, Placement.Store>) {
    && stores.Keys == ring.nodes
    && forall n :: n in stores ==> PlacementLaws.HoldsOwned(PlacementLaws.ViewOf(ring, n), ms, stores[n])
  }

  ghost predicate RealRing(ring: Ring) {
    ring.nodes != {} && "" !in ring.nodes && PlacesOnMembers(ring.place)
  }

  lemma RebalancedIsPlaced(nodes: set<Node>, m: Manifest, ring: Ring, ms: Placement.Manifests,
                           stores: map<Node, Placement.Store>, s: State)
    requires RealRing(ring) && ring.nodes <= nodes && EverybodyHoldsOwned(ring, ms, stores)
    requires Placement.ManifestsOk(ms) && m.name in ms && ms[m.name] == m
    requires SameHoldings(stores, m, s.store) && forall n :: n in s.rings ==> s.rings[n] == ring.nodes
    ensures Placed(ClusterOf(nodes, m, ring.place), s, ring.nodes)
  {
    var owners := Owners(ClusterOf(nodes, m, ring.place), ring.nodes);
    forall n ensures n in owners <==>
          n in stores && exists i :: 0 <= i < m.shards && Placement.Key(m.name, i) in stores[n] {
      OwnersAgree(nodes, m, ring, n);
      PlacementLaws.OwnersAreHolders(ring, ms, stores, m.name, n);
    }
    forall loc | loc in s.store ensures loc.node in owners {
      assert loc == Loc(loc.node, loc.shard);
      assert Placement.Key(m.name, loc.shard) in stores[loc.node];
    }
    forall n | n in owners ensures n in nodes && exists loc :: loc in s.store && loc.node == n {
      var i :| 0 <= i < m.shards && Placement.Key(m.name, i) in stores[n];
      assert Loc(n, i) in s.store;
    }
  }

  /** From Rebalance to the end of a reload: on a cluster where every node holds what it owns, a
      lossless cycle that has come to rest has switched every shard if and only if, at its start,
      no shard or every shard served the new revision already. */
  lemma RebalancedClusterSwitchesIff(nodes: set<Node>, m: Manifest, ring: Ring, ms: Placement.Manifests,
                                     stores: map<Node, Placement.Store>, s: State, r0: int, r: int, early: set<Loc>,
                                     steps: seq<Step>)
    requires RealRing(ring) && ring.nodes <= nodes && EverybodyHoldsOwned(ring, ms, stores)
    requires Placement.ManifestsOk(ms) && m.name in ms && ms[m.name] == m
    requires SameHoldings(stores, m, s.store) && forall n :: n in s.rings ==> s.rings[n] == ring.nodes
    requires var c := ClusterOf(nodes, m, ring.place);
      && AllOrNothing.Start(c, s, r0, r, early) && Run(c, s, steps, LosslessSteps(r))
      && Quiescent(After(c, s, steps, LosslessSteps(r)), r)
    ensures var t := After(ClusterOf(nodes, m, ring.place), s, steps, LosslessSteps(r));
      (forall loc :: loc in t.store ==> t.store[loc].serving == r) <==> (early == {} || early == s.store.Keys)
  {
    RebalancedIsPlaced(nodes, m, ring, ms, stores, s);
    LateJoin.WholeClusterSwitchesIff(ClusterOf(nodes, m, ring.place), s, ring.nodes, r0, r, early, steps);
  }
}
