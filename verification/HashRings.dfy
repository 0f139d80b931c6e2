/**
 The consistent hash ring as the rest of the code sees it (GetNode of the ring library and
 NeedLoad and GetOwnerNode of internal/cluster/node.go): a set of node ids and some placement of
 keys on them.  How keys are hashed is not part of this model.
 */
module HashRings {
  import opened Options

  type Node = string

  /** `place` is only asked about nonempty rings, and answers with a member. */
  datatype Ring = Ring(nodes: set<Node>, place: (set<Node>, string) -> Node)

  ghost predicate PlacesOnMembers(place: (set<Node>, string) -> Node) {
    forall nodes: set<Node>, key: string :: nodes != {} ==> place(nodes, key) in nodes
  }

  function GetNode(ring: Ring, key: string): Option<Node> {
    if ring.nodes == {} then None else Some(ring.place(ring.nodes, key))
  }

  predicate NeedLoad(ring: Ring, me: Node, key: string) {
    GetNode(ring, key) == Some(me)
  }

  /** The empty string means that there is no owner. */
  function GetOwnerNode(ring: Ring, key: string): Node {
    var node := GetNode(ring, key);
    if node.Some? then node.value else ""
  }
}
