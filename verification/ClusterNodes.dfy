/**
 The cluster view of one node (internal/cluster/node.go): the ring and the meta map as SyncCluster
 updates them event by event, and the routing of keys to nodes.
 */
module ClusterNodes {
  import opened Options
  import opened HashRings
  import opened NodeStatuses

  datatype NodeMeta = NodeMeta(nodeId: Node, addr: string, status: NodeStatus)

  datatype Error = NotInitialised | NodeNotAvailable | UnknownStatus

  datatype Result<+T> = Ok(value: T) | Err(error: Error)

  datatype Event = Create(meta: NodeMeta) | Modify(meta: NodeMeta) | Delete(meta: NodeMeta)

  datatype Kind = Created | Modified | Deleted

  /** A watch event as it comes from etcd, with the meta its value decodes to, if it does. */
  datatype WatchEvent = WatchEvent(kind: Kind, value: Option<NodeMeta>)

  const ZERO_META := NodeMeta("", "", Unknown(""))

  /** A value that cannot be decoded is logged and then taken for the zero meta. */
  function Decode(w: WatchEvent): (e: Event)
    ensures e.meta == if w.value.Some? then w.value.value else ZERO_META
    ensures e.Create? <==> w.kind == Created
    ensures e.Modify? <==> w.kind == Modified
    ensures e.Delete? <==> w.kind == Deleted
  {
    var meta := if w.value.Some? then w.value.value else ZERO_META;
    match w.kind
    case Created => Create(meta)
    case Modified => Modify(meta)
    case Deleted => Delete(meta)
  }

  /** Ring members and node metas. */
  datatype Members = Members(ring: set<Node>, metas: map<Node, NodeMeta>)

  function Apply(c: Members, e: Event): Members {
    match e
    case Create(m) => Members(c.ring + {m.nodeId}, c.metas[m.nodeId := m])
    case Modify(m) =>
      Members(if m.status == Inactive then c.ring - {m.nodeId} else c.ring, c.metas[m.nodeId := m])
    case Delete(m) => Members(c.ring - {m.nodeId}, c.metas - {m.nodeId})
  }

  function ApplyAll(c: Members, events: seq<Event>): Members
    decreases |events|
  {
    if events == [] then c else ApplyAll(Apply(c, events[0]), events[1..])
  }

  /** So a deletion takes a node off if and only if its event still carries the meta: without a value
      nobody leaves, as long as nobody has the empty id. */
  lemma DeletionTakesOffIff(c: Members, value: Option<NodeMeta>, n: Node)
    requires n in c.ring && n != ""
    ensures n !in Apply(c, Decode(WatchEvent(Deleted, value))).ring <==> value.Some? && value.value.nodeId == n
  {
  }

  /** Every ring member has a meta, filed under its own id. */
  ghost predicate MembersKnown(c: Members) {
    && (forall n :: n in c.ring ==> n in c.metas)
    && (forall n :: n in c.metas ==> c.metas[n].nodeId == n)
  }

  lemma {:induction false} MembersStayKnown(c: Members, events: seq<Event>)
    requires MembersKnown(c)
    ensures MembersKnown(ApplyAll(c, events))
    decreases |events|
  {
    if events != [] {
      MembersStayKnown(Apply(c, events[0]), events[1..]);
    }
  }

  /** The event puts the node on the ring, or takes it off. */
  predicate Joins(e: Event, n: Node) {
    e.Create? && e.meta.nodeId == n
  }

  predicate Leaves(e: Event, n: Node) {
    e.meta.nodeId == n && (e.Delete? || (e.Modify? && e.meta.status == Inactive))
  }

  ghost predicate NeverLeaves(events: seq<Event>, n: Node) {
    forall k :: 0 <= k < |events| ==> !Leaves(events[k], n)
  }

  ghost predicate JoinsForGood(events: seq<Event>, n: Node, j: int) {
    0 <= j < |events| && Joins(events[j], n) && NeverLeaves(events[j..], n)
  }

  /** Who is on the ring after any events: whoever joined and has not left since.  Becoming active
      again, without being created again, brings nobody back. */
  lemma {:induction false} OnTheRingIff(c: Members, events: seq<Event>, n: Node)
    ensures n in ApplyAll(c, events).ring <==>
              (n in c.ring && NeverLeaves(events, n)) || exists j :: JoinsForGood(events, n, j)
    decreases |events|
  {
    if events != [] {
      var first, rest := events[0], events[1..];
      OnTheRingIff(Apply(c, first), rest, n);
      assert NeverLeaves(events, n) <==> !Leaves(first, n) && NeverLeaves(rest, n) by {
        assert forall k :: 0 <= k < |rest| ==> rest[k] == events[k + 1];
        assert forall k :: 0 < k < |events| ==> events[k] == rest[k - 1];
      }
      if j :| JoinsForGood(rest, n, j) {
        assert events[j + 1..] == rest[j..] && JoinsForGood(events, n, j + 1);
      }
      if j :| JoinsForGood(events, n, j) {
        if j > 0 {
          assert rest[j - 1..] == events[j..] && JoinsForGood(rest, n, j - 1);
        } else {
          assert events[0..] == events;
        }
      }
      if Joins(first, n) && NeverLeaves(rest, n) {
        assert events[0..] == events && JoinsForGood(events, n, 0);
      }
    }
  }

  // ---------- which meta a node has

  /** The last event that names `n`. */
  ghost predicate LastNaming(events: seq<Event>, n: Node, j: int) {
    && 0 <= j < |events| && events[j].meta.nodeId == n
    && forall k :: j < k < |events| ==> events[k].meta.nodeId != n
  }

  ghost predicate NeverNamed(events: seq<Event>, n: Node) {
    forall k :: 0 <= k < |events| ==> events[k].meta.nodeId != n
  }

  /** `x` is what was announced of `n` last, by an event or before them all, and `n` was not deleted since. */
  ghost predicate AnnouncedLast(c: Members, events: seq<Event>, n: Node, x: NodeMeta) {
    || (exists j :: LastNaming(events, n, j) && !events[j].Delete? && events[j].meta == x)
    || (NeverNamed(events, n) && n in c.metas && c.metas[n] == x)
  }

  /** After any events a node has the meta that was announced last. */
  lemma {:induction false} MetaIff(c: Members, events: seq<Event>, n: Node, x: NodeMeta)
    ensures var t := ApplyAll(c, events); n in t.metas && t.metas[n] == x <==> AnnouncedLast(c, events, n, x)
    decreases |events|
  {
    if events != [] {
      var first, rest := events[0], events[1..];
      MetaIff(Apply(c, first), rest, n, x);
      AnnouncedNext(c, events, n, x);
    }
  }

  lemma AnnouncedNext(c: Members, events: seq<Event>, n: Node, x: NodeMeta)
    requires events != []
    ensures AnnouncedLast(Apply(c, events[0]), events[1..], n, x) <==> AnnouncedLast(c, events, n, x)
  {
    var first, rest := events[0], events[1..];
    assert forall k :: 0 <= k < |rest| ==> rest[k] == events[k + 1];
    assert forall k :: 0 < k < |events| ==> events[k] == rest[k - 1];
    forall j ensures LastNaming(rest, n, j) <==> j >= 0 && LastNaming(events, n, j + 1) {
      if LastNaming(rest, n, j) {
        forall k | j + 1 < k < |events| ensures events[k].meta.nodeId != n { assert events[k] == rest[k - 1]; }
      }
      if j >= 0 && LastNaming(events, n, j + 1) {
        forall k | j < k < |rest| ensures rest[k].meta.nodeId != n { assert rest[k] == events[k + 1]; }
      }
    }
    if j :| LastNaming(events, n, j) && !events[j].Delete? && events[j].meta == x {
      if j > 0 { assert LastNaming(rest, n, j - 1); } else { assert NeverNamed(rest, n); }
    }
    if j :| LastNaming(rest, n, j) && !rest[j].Delete? && rest[j].meta == x {
      assert LastNaming(events, n, j + 1);
    }
    if NeverNamed(rest, n) && first.meta.nodeId == n {
      assert LastNaming(events, n, 0);
    }
  }

  /** Entry `i` of the registered nodes is `n`, and it is not inactive. */
  predicate ListsMember(listed: seq<Option<NodeMeta>>, i: int, n: Node) {
    0 <= i < |listed| && listed[i].Some? && listed[i].value.nodeId == n && listed[i].value.status != Inactive
  }

  /** The meta map after storing all entries in turn. */
  function LatestMetas(metas: map<Node, NodeMeta>, listed: seq<Option<NodeMeta>>): map<Node, NodeMeta>
    decreases |listed|
  {
    if listed == [] then metas
    else
      var front, last := LatestMetas(metas, listed[..|listed| - 1]), listed[|listed| - 1];
      if last.Some? then front[last.value.nodeId := last.value] else front
  }

  /** The last entry of the listing that names `n`. */
  ghost predicate LastListed(listed: seq<Option<NodeMeta>>, n: Node, j: int) {
    && 0 <= j < |listed| && listed[j].Some? && listed[j].value.nodeId == n
    && forall k :: j < k < |listed| && listed[k].Some? ==> listed[k].value.nodeId != n
  }

  ghost predicate NeverListed(listed: seq<Option<NodeMeta>>, n: Node) {
    forall k :: 0 <= k < |listed| && listed[k].Some? ==> listed[k].value.nodeId != n
  }

  /** A node has the meta of its last entry, or the one known before. */
  lemma {:induction false} LatestMetaIff(metas: map<Node, NodeMeta>, listed: seq<Option<NodeMeta>>, n: Node,
                                         x: NodeMeta)
    ensures n in LatestMetas(metas, listed) && LatestMetas(metas, listed)[n] == x <==>
              || (exists j :: LastListed(listed, n, j) && listed[j].value == x)
              || (NeverListed(listed, n) && n in metas && metas[n] == x)
    decreases |listed|
  {
    if listed != [] {
      var front, last := listed[..|listed| - 1], listed[|listed| - 1];
      LatestMetaIff(metas, front, n, x);
      if last.Some? && last.value.nodeId == n {
        assert LastListed(listed, n, |listed| - 1);
      } else {
        assert forall j :: LastListed(front, n, j) <==> LastListed(listed, n, j);
      }
    }
  }

  class EtcdManager {
    const nodeId: Node
    const place: (set<Node>, string) -> Node
    var clusterHashRing: Option<set<Node>>
    var nodeMetaMap: map<Node, NodeMeta>

    constructor (nodeId: Node, place: (set<Node>, string) -> Node)
      ensures this.nodeId == nodeId && this.place == place && clusterHashRing == None && nodeMetaMap == map[]
    {
      this.nodeId, this.place := nodeId, place;
      clusterHashRing, nodeMetaMap := None, map[];
    }

    function TheMembers(): Members
      requires clusterHashRing.Some?
      reads this
    {
      Members(clusterHashRing.value, nodeMetaMap)
    }

    /** The first part of SyncCluster: everybody who is registered, the inactive ones without a place
        on the ring.  An entry that cannot be decoded ends it before there is a ring. */
    method Discover(listed: seq<Option<NodeMeta>>) returns (ok: bool)
      modifies this
      ensures ok <==> None !in listed
      ensures !ok ==> clusterHashRing == old(clusterHashRing)
      ensures ok ==> clusterHashRing.Some? && forall n :: n in clusterHashRing.value <==>
                exists i :: ListsMember(listed, i, n)
      ensures ok ==> nodeMetaMap == LatestMetas(old(nodeMetaMap), listed)
      ensures ok && MembersKnown(Members({}, old(nodeMetaMap))) ==> MembersKnown(TheMembers())
    {
      var nodes: set<Node> := {};
      var i := 0;
      while i < |listed|
        invariant 0 <= i <= |listed| && clusterHashRing == old(clusterHashRing) && None !in listed[..i]
        invariant forall n :: n in nodes <==> exists j :: j < i && ListsMember(listed, j, n)
        invariant nodeMetaMap == LatestMetas(old(nodeMetaMap), listed[..i])
        invariant MembersKnown(Members({}, old(nodeMetaMap))) ==> MembersKnown(Members(nodes, nodeMetaMap))
      {
        if listed[i].None? {
          return false;
        }
        var meta := listed[i].value;
        assert listed[..i + 1][..i] == listed[..i];
        nodeMetaMap := nodeMetaMap[meta.nodeId := meta];
        if meta.status != Inactive {
          assert ListsMember(listed, i, meta.nodeId);
          nodes := nodes + {meta.nodeId};
        }
        i := i + 1;
      }
      assert listed[..i] == listed;
      clusterHashRing := Some(nodes);
      return true;
    }

    /** The watch loop of SyncCluster for one event, up to the rebalance hook. */
    method HandleEvent(w: WatchEvent)
      requires clusterHashRing.Some?
      modifies this
      ensures clusterHashRing.Some? && TheMembers() == Apply(old(TheMembers()), Decode(w))
      ensures old(MembersKnown(TheMembers())) ==> MembersKnown(TheMembers())
    {
      var meta := if w.value.Some? then w.value.value else ZERO_META;
      if w.kind == Created {
        clusterHashRing := Some(clusterHashRing.value + {meta.nodeId});
        nodeMetaMap := nodeMetaMap[meta.nodeId := meta];
      }
      if w.kind == Deleted {
        nodeMetaMap := nodeMetaMap - {meta.nodeId};
        clusterHashRing := Some(clusterHashRing.value - {meta.nodeId});
      }
      if w.kind == Modified {
        nodeMetaMap := nodeMetaMap[meta.nodeId := meta];
        if meta.status == Inactive {
          clusterHashRing := Some(clusterHashRing.value - {meta.nodeId});
        }
      }
    }

    /** getNode: the owner of the key on the ring, if it is known and takes requests; an owner that is
        known but takes none comes with the error. */
    method GetNode(key: string) returns (node: Option<NodeMeta>, error: Option<Error>)
      ensures clusterHashRing.None? ==> node == None && error == Some(NotInitialised)
      ensures clusterHashRing.Some? ==> Answer(node, error) == AnswerOf(TheMembers(), place, key)
    {
      if clusterHashRing.None? {
        return None, Some(NotInitialised);
      }
      var owner := HashRings.GetNode(Ring(clusterHashRing.value, place), key);
      if owner.None? || owner.value !in nodeMetaMap {
        return None, Some(NodeNotAvailable);
      }
      var meta := nodeMetaMap[owner.value];
      match meta.status
      case Init => return Some(meta), Some(NodeNotAvailable);
      case Start => return Some(meta), Some(NodeNotAvailable);
      case Inactive => return Some(meta), Some(NodeNotAvailable);
      case Healthy => return Some(meta), None;
      case Rebalancing => return Some(meta), None;
      case Unhealthy => return Some(meta), None;
      case Unknown(_) => return None, Some(UnknownStatus);
    }

    /** Route without load reporting. */
    method Route(key: string) returns (r: Result<NodeMeta>)
      ensures clusterHashRing.None? ==> r == Err(NotInitialised)
      ensures clusterHashRing.Some? ==> r == RouteOf(TheMembers(), place, key)
    {
      var node, error := GetNode(key);
      if error.Some? {
        return Err(error.value);
      }
      return Ok(node.value);
    }
  }

  datatype Answer = Answer(node: Option<NodeMeta>, error: Option<Error>)

  /** What getNode answers, as a function of the members. */
  function AnswerOf(c: Members, place: (set<Node>, string) -> Node, key: string): (a: Answer)
    ensures a.error.None? ==> a.node.Some? && Routable(a.node.value.status)
    ensures a.node.Some? && a.error.Some? ==> a.error.value == NodeNotAvailable && !Routable(a.node.value.status)
  {
    var owner := HashRings.GetNode(Ring(c.ring, place), key);
    if owner.None? || owner.value !in c.metas then Answer(None, Some(NodeNotAvailable))
    else
      var meta := c.metas[owner.value];
      if Routable(meta.status) then Answer(Some(meta), None)
      else if meta.status.Unknown? then Answer(None, Some(UnknownStatus))
        else Answer(Some(meta), Some(NodeNotAvailable))
  }

  /** Where a key goes, as a function of the members. */
  function RouteOf(c: Members, place: (set<Node>, string) -> Node, key: string): Result<NodeMeta> {
    var a := AnswerOf(c, place, key);
    if a.error.Some? then Err(a.error.value) else Ok(a.node.value)
  }

  /** What goes with an answer and what with an error. */
  lemma AnswerErrors(c: Members, place: (set<Node>, string) -> Node, key: string)
    requires c.ring != {}
    ensures var owner, a := place(c.ring, key), AnswerOf(c, place, key);
      && (a.node.Some? <==> owner in c.metas && !c.metas[owner].status.Unknown?)
      && (a.node.Some? ==> a.node.value == c.metas[owner])
      && (a.error == Some(UnknownStatus) <==> owner in c.metas && c.metas[owner].status.Unknown?)
      && (a.error == Some(NodeNotAvailable) <==>
          owner !in c.metas || c.metas[owner].status in {Start, Init, Inactive})
  {
  }

  /** After any events a key goes to its owner on the ring if and only if the meta announced last for the
      owner has a status under which it takes requests. */
  lemma RoutesByLastStatus(start: Members, events: seq<Event>, place: (set<Node>, string) -> Node, key: string,
                           x: NodeMeta)
    requires MembersKnown(start) && PlacesOnMembers(place) && ApplyAll(start, events).ring != {}
    ensures var c := ApplyAll(start, events);
      RouteOf(c, place, key) == Ok(x) <==>
        AnnouncedLast(start, events, place(c.ring, key), x) && x.status in {Healthy, Unhealthy, Rebalancing}
  {
    var c := ApplyAll(start, events);
    MembersStayKnown(start, events);
    MetaIff(start, events, place(c.ring, key), x);
  }

  /** At event boundaries a key on a nonempty ring fails to route only because its owner does not
      take requests. */
  lemma RouteFailsIff(c: Members, place: (set<Node>, string) -> Node, key: string)
    requires MembersKnown(c) && c.ring != {} && PlacesOnMembers(place)
    ensures var owner := place(c.ring, key);
      && owner in c.metas
      && (RouteOf(c, place, key).Ok? <==> Routable(c.metas[owner].status))
      && (RouteOf(c, place, key).Ok? ==> RouteOf(c, place, key).value.nodeId == owner)
  {
  }
}
