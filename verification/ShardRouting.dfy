/**
 ResolveUniqueShard of internal/engine/manager.go: the nodes a shard search is sent to, against the
 nodes that placement puts the shard on.
 */
module ShardRouting {
  import opened Options
  import opened HashRings
  import opened NodeStatuses
  import opened ShardKeys
  import opened Placement
  import opened ClusterNodes

  datatype Resolved = Unresolvable | Nodes(nodes: seq<NodeMeta>)

  /** The routings of the replica keys below `upto` that succeed, in replica order. */
  function Routed(c: Members, place: (set<Node>, string) -> Node, s: Shard, upto: nat): seq<NodeMeta> {
    if upto == 0 then []
    else
      var r := RouteOf(c, place, ShardKey(s.(replicaId := upto - 1)));
      Routed(c, place, s, upto - 1) + (if r.Ok? then [r.value] else [])
  }

  /** A node that has not seen the cluster yet routes nothing, and that is no error. */
  function RoutedNow(ring: Option<set<Node>>, metas: map<Node, NodeMeta>, place: (set<Node>, string) -> Node,
                     s: Shard, upto: nat): seq<NodeMeta> {
    if ring.None? then [] else Routed(Members(ring.value, metas), place, s, upto)
  }

  method ResolveUniqueShard(manager: EtcdManager, manifests: Manifests, u: Shard) returns (r: Resolved)
    requires ManifestsOk(manifests)
    ensures r == Unresolvable <==> u.indexName !in manifests || u.shardId >= manifests[u.indexName].shards
    ensures r.Nodes? ==>
              r.nodes == if u.indexName == "" then []
                         else RoutedNow(manager.clusterHashRing, manager.nodeMetaMap, manager.place, u,
                                        manifests[u.indexName].replicas)
  {
    if u.indexName !in manifests {
      return Unresolvable;
    }
    var manifest := manifests[u.indexName];
    if u.shardId >= manifest.shards {
      return Unresolvable;
    }
    var replicas := GenerateReplicaKeys(u, manifest.replicas);
    var nodes := [];
    var i := 0;
    while i < |replicas|
      invariant 0 <= i <= |replicas|
                && nodes == RoutedNow(manager.clusterHashRing, manager.nodeMetaMap, manager.place, u, i)
    {
      var routing := manager.Route(replicas[i]);
      if routing.Ok? {
        nodes := nodes + [routing.value];
      }
      i := i + 1;
    }
    return Nodes(nodes);
  }

  /** Replica `r` of the shard routes to the node `m`. */
  ghost predicate RoutesTo(c: Members, place: (set<Node>, string) -> Node, s: Shard, r: int, m: NodeMeta) {
    RouteOf(c, place, ShardKey(s.(replicaId := r))) == Ok(m)
  }

  ghost predicate RoutesBelow(c: Members, place: (set<Node>, string) -> Node, s: Shard, upto: nat, m: NodeMeta) {
    exists r :: 0 <= r < upto && RoutesTo(c, place, s, r, m)
  }

  lemma RoutesBelowNext(c: Members, place: (set<Node>, string) -> Node, s: Shard, last: nat, m: NodeMeta)
    ensures RoutesBelow(c, place, s, last + 1, m) <==>
              RoutesBelow(c, place, s, last, m) || RoutesTo(c, place, s, last, m)
  {
  }

  lemma {:induction false} RoutedMembers(c: Members, place: (set<Node>, string) -> Node, s: Shard, upto: nat,
                                         m: NodeMeta)
    ensures m in Routed(c, place, s, upto) <==> RoutesBelow(c, place, s, upto, m)
  {
    if upto > 0 {
      RoutedMembers(c, place, s, upto - 1, m);
      RoutedLast(c, place, s, upto - 1, m);
      RoutesBelowNext(c, place, s, upto - 1, m);
    }
  }

  lemma RoutedLast(c: Members, place: (set<Node>, string) -> Node, s: Shard, last: nat, m: NodeMeta)
    ensures m in Routed(c, place, s, last + 1) <==> m in Routed(c, place, s, last) || RoutesTo(c, place, s, last, m)
  {
    var here := RouteOf(c, place, ShardKey(s.(replicaId := last)));
    assert Routed(c, place, s, last + 1) == Routed(c, place, s, last) + (if here.Ok? then [here.value] else []);
  }

  predicate Routes(c: Members, place: (set<Node>, string) -> Node, s: Shard, r: int) {
    RouteOf(c, place, ShardKey(s.(replicaId := r))).Ok?
  }

  function Passing(test: int -> bool, upto: nat): set<int> {
    set r | 0 <= r < upto && test(r)
  }

  lemma PassingNext(test: int -> bool, last: nat)
    ensures |Passing(test, last + 1)| == |Passing(test, last)| + (if test(last) then 1 else 0)
  {
    var before := Passing(test, last);
    assert Passing(test, last + 1) == if test(last) then before + {last} else before;
  }

  function RouteTest(c: Members, place: (set<Node>, string) -> Node, s: Shard): int -> bool {
    (r: int) => Routes(c, place, s, r)
  }

  /** Those of the first `upto` replicas that route. */
  function RoutingBelow(c: Members, place: (set<Node>, string) -> Node, s: Shard, upto: nat): set<int> {
    Passing(RouteTest(c, place, s), upto)
  }

  /** The next replica adds an entry at the end if it routes, and none otherwise. */
  lemma RoutedNext(c: Members, place: (set<Node>, string) -> Node, s: Shard, last: nat) returns (more: seq<NodeMeta>)
    ensures Routed(c, place, s, last + 1) == Routed(c, place, s, last) + more
    ensures |more| == if Routes(c, place, s, last) then 1 else 0
    ensures Routes(c, place, s, last) ==> RoutesTo(c, place, s, last, more[0])
  {
    var here := RouteOf(c, place, ShardKey(s.(replicaId := last)));
    more := if here.Ok? then [here.value] else [];
  }

  lemma {:induction false} RoutedSize(c: Members, place: (set<Node>, string) -> Node, s: Shard, upto: nat)
    ensures |Routed(c, place, s, upto)| == |RoutingBelow(c, place, s, upto)|
  {
    if upto > 0 {
      RoutedSize(c, place, s, upto - 1);
      PassingNext(RouteTest(c, place, s), upto - 1);
      RoutedSizeNext(c, place, s, upto - 1);
    }
  }

  lemma RoutedSizeNext(c: Members, place: (set<Node>, string) -> Node, s: Shard, last: nat)
    ensures |Routed(c, place, s, last + 1)|
         == |Routed(c, place, s, last)| + (if Routes(c, place, s, last) then 1 else 0)
  {
    var more := RoutedNext(c, place, s, last);
  }

  /** The answer has one entry for each replica that routes, in replica order: replica `r` comes after exactly
      the replicas below it that route. */
  lemma RoutedInOrder(c: Members, place: (set<Node>, string) -> Node, s: Shard, upto: nat, r: nat)
    requires r < upto && Routes(c, place, s, r)
    ensures var answer, p := Routed(c, place, s, upto), |RoutingBelow(c, place, s, r)|;
      |answer| == |RoutingBelow(c, place, s, upto)| && p < |answer| && RoutesTo(c, place, s, r, answer[p])
  {
    RoutedSize(c, place, s, upto);
    RoutedSize(c, place, s, r);
    RoutedAt(c, place, s, upto, r);
  }

  lemma {:induction false} RoutedAt(c: Members, place: (set<Node>, string) -> Node, s: Shard, upto: nat, r: nat)
    requires r < upto && Routes(c, place, s, r)
    ensures var answer, p := Routed(c, place, s, upto), |Routed(c, place, s, r)|;
      p < |answer| && RoutesTo(c, place, s, r, answer[p])
  {
    var more := RoutedNext(c, place, s, upto - 1);
    if r < upto - 1 {
      RoutedAt(c, place, s, upto - 1, r);
    }
  }

  /** After any events, a search for a shard that exists is sent to exactly the nodes that take
      requests, by what was announced of them last, among those on which Rebalance, with the same ring,
      places the shard. */
  lemma RouterAgreesWithPlacer(start: Members, events: seq<Event>, place: (set<Node>, string) -> Node, m: Manifest,
                               i: int, meta: NodeMeta)
    requires MembersKnown(start) && PlacesOnMembers(place) && ApplyAll(start, events).ring != {}
    requires ValidManifest(m) && 0 <= i < m.shards
    ensures var c := ApplyAll(start, events);
      meta in Routed(c, place, Shard(m.name, i, 0), m.replicas) <==>
        && AnnouncedLast(start, events, meta.nodeId, meta) && Routable(meta.status)
        && Owned(View(true, meta.nodeId, Ring(c.ring, place)), m, i)
  {
    var c := ApplyAll(start, events);
    MembersStayKnown(start, events);
    MetaIff(start, events, meta.nodeId, meta);
    RoutedMembers(c, place, Shard(m.name, i, 0), m.replicas, meta);
    forall r | 0 <= r < m.replicas
      ensures RoutesTo(c, place, Shard(m.name, i, 0), r, meta) <==>
                && meta.nodeId in c.metas && c.metas[meta.nodeId] == meta && Routable(meta.status)
                && NeedLoad(Ring(c.ring, place), meta.nodeId, ShardKey(Shard(m.name, i, r)))
    {
      assert Shard(m.name, i, 0).(replicaId := r) == Shard(m.name, i, r);
      RouteFailsIff(c, place, ShardKey(Shard(m.name, i, r)));
    }
  }
}
