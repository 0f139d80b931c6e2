/** The status that a node reports; etcd may hold names that nobody knows. */
module NodeStatuses {
  datatype NodeStatus = Start | Init | Healthy | Unhealthy | Rebalancing | Inactive | Unknown(name: string)

  /** Statuses under which a node takes requests. */
  predicate Routable(s: NodeStatus) {
    s == Healthy || s == Unhealthy || s == Rebalancing
  }
}
