/**
 The cluster-wide two-phase reload of one index as a step relation
 (internal/engine/manager.go, internal/engine/faiss.go, docs/cluster-revision-consistency.md).

 A state holds what every node has loaded, the etcd ready keys, the commit events that the
 watches still have to handle, and one program counter for each reload callback or commit
 handler in flight.  Every etcd call, every lookup in the ring, every visit of one shard and
 every critical section of `stagedMu` is a step of its own, so steps of different nodes interleave freely.
 */
module RevisionProtocol {
  import opened Options

  type Node = string

  /** `owner(ring, shard, replica)` is the hash ring lookup of that replica key. */
  datatype Cluster = Cluster(nodes: set<Node>, shards: nat, replicas: nat, owner: (set<Node>, nat, nat) -> Node)

  /** Where a shard object sits: a node and a unique shard id. */
  datatype Loc = Loc(node: Node, shard: nat)

  /** One FaissIndex in a node's store.  `obj` is its identity, `lockedBy` the holder of `stagedMu`
      while a StageReload is downloading. */
  datatype Slot = Slot(obj: nat, loadedAt: int, serving: int, staged: Option<int>, lockedBy: Option<nat>)

  datatype Pc =
    | Gated(node: Node, shard: nat, obj: nat, low: int)  // StageReload read `low` and passed the gate
    | Checking(node: Node, rev: int, next: nat)          // signalReady, about to look at shard `next`
    | Owning(node: Node, rev: int, seen: seq<set<Node>>) // ready key put, in the loop of nodesOwningIndex
    | Collecting(node: Node, rev: int, seen: seq<set<Node>>)  // about to read the ready keys
    | Deciding(node: Node, rev: int, seen: seq<set<Node>>, snapshot: map<Node, int>)
    | Committing(node: Node, rev: int, next: nat)        // commitIndex, about to visit shard `next`

  /** A put of the commit key, with what its writer had read: the ring at each of the lookups that
      gave it the owners, and the ready keys. */
  datatype Commit = Commit(rev: int, writer: Node, seen: seq<set<Node>>, snapshot: map<Node, int>)

  /** A put of a ready key. */
  datatype Put = Put(node: Node, rev: int)

  /** A commit event waiting in a node's watch channel. */
  datatype Event = Event(node: Node, rev: int)

  datatype State = State(
    published: int,                // what the revision file says now
    history: set<int>,             // everything it ever said
    rings: map<Node, set<Node>>,   // the ring as each node sees it
    store: map<Loc, Slot>,
    ready: map<Node, int>,
    puts: set<Put>,                // every ready key ever put
    commits: set<Commit>,          // every commit key ever put
    pending: multiset<Event>,
    procs: map<nat, Pc>,
    reloaded: map<Loc, int>,       // last revision read by a finished StageReload of the shard
    nextObj: nat)

  datatype Step =
    | Publish(rev: int)
    | Reload(pid: nat, node: Node, shard: nat)
    | Stage(pid: nat, rev: int)
    | StageFail(pid: nat)
    | Check(pid: nat)
    | PutReady(pid: nat)
    | LookUp(pid: nat)
    | HaveOwners(pid: nat)
    | ReadReady(pid: nat)
    | Decide(pid: nat)
    | EtcdFail(pid: nat)
    | Deliver(pid: nat, node: Node, rev: int)
    | Redeliver(node: Node, rev: int)
    | CommitShard(pid: nat)
    | ClearReady(pid: nat)
    | ClearReadyFail(pid: nat)
    | LeaseExpire(node: Node)
    | RingChange(node: Node, ring: set<Node>)
    | Load(node: Node, shard: nat, rev: int)
    | Unload(node: Node, shard: nat)
    | OrphanSignal(pid: nat, node: Node, rev: int)

  /** Steps that change who holds what. */
  predicate PlacementStep(step: Step) {
    step.RingChange? || step.Load? || step.Unload? || step.OrphanSignal?
  }

  // ---------- the pieces of the Go functions

  /** nodesOwningIndex under a given ring. */
  function Owners(c: Cluster, ring: set<Node>): set<Node> {
    if ring == {} then {} else set i, k | 0 <= i < c.shards && 0 <= k < c.replicas :: c.owner(ring, i, k)
  }

  function RowKeys(i: nat, upto: nat): seq<(nat, nat)> {
    if upto == 0 then [] else RowKeys(i, upto - 1) + [(i, upto - 1)]
  }

  /** The replica keys in the order of GenerateShards: all replicas of shard 0, then of shard 1, and so on. */
  function KeysUpto(c: Cluster, upto: nat): seq<(nat, nat)> {
    if upto == 0 then [] else KeysUpto(c, upto - 1) + RowKeys(upto - 1, c.replicas)
  }

  function ReplicaKeys(c: Cluster): seq<(nat, nat)> {
    KeysUpto(c, c.shards)
  }

  /** The set that nodesOwningIndex has collected when its `j`-th lookup found the ring to be `seen[j]`:
      every lookup locks the ring for itself, so the ring may change in between. */
  function Found(c: Cluster, seen: seq<set<Node>>): set<Node> {
    set j | 0 <= j < |seen| && j < |ReplicaKeys(c)|
    && seen[j] != {} :: c.owner(seen[j], ReplicaKeys(c)[j].0, ReplicaKeys(c)[j].1)
  }

  /** FaissIndex.StagedRevision. */
  function StagedRevision(slot: Slot): int {
    if slot.staged.Some? then slot.staged.value else 0
  }

  /** The newest revision the shard has in memory, served or staged. */
  function Level(slot: Slot): int {
    if slot.staged.Some? && slot.staged.value > slot.serving then slot.staged.value else slot.serving
  }

  /** FaissIndex.CommitStaged. */
  function CommitStaged(slot: Slot, rev: int): Slot {
    if slot.staged == Some(rev) then slot.(serving := rev, staged := None) else slot
  }

  predicate AllReady(owners: set<Node>, snapshot: map<Node, int>, rev: int) {
    forall n :: n in owners ==> n in snapshot && snapshot[n] == rev
  }

  function EventsFor(nodes: set<Node>, rev: int): multiset<Event> {
    multiset(set n | n in nodes :: Event(n, rev))
  }

  function CommittedRevs(s: State): set<int> {
    set cm | cm in s.commits :: cm.rev
  }

  function Advance(s: State, pid: nat, pc: Pc): State {
    s.(procs := s.procs[pid := pc])
  }

  function Finish(s: State, pid: nat): State {
    s.(procs := s.procs - {pid})
  }

  // ---------- the steps

  /** Cron fires: take stagedMu, read the revision, compare with the serving one. */
  function DoReload(s: State, pid: nat, node: Node, shard: nat): State
    requires Loc(node, shard) in s.store
  {
    var loc := Loc(node, shard);
    var slot := s.store[loc];
    if s.published <= slot.serving then
      s.(reloaded := s.reloaded[loc := s.published])
    else
      Advance(s.(store := s.store[loc := slot.(lockedBy := Some(pid))]), pid,
              Gated(node, shard, slot.obj, s.published))
  }

  predicate HoldsSlot(s: State, pc: Pc) {
    pc.Gated? && Loc(pc.node, pc.shard) in s.store && s.store[Loc(pc.node, pc.shard)].obj == pc.obj
  }

  /** The download finished at `rev`: replace the staged index, release stagedMu, go on to signalReady. */
  function DoStage(s: State, pid: nat, rev: int): State
    requires pid in s.procs && s.procs[pid].Gated?
  {
    var pc := s.procs[pid];
    var loc := Loc(pc.node, pc.shard);
    var next := Checking(pc.node, rev, 0);
    if HoldsSlot(s, pc) then
      Advance(s.(store := s.store[loc := s.store[loc].(staged := Some(rev), lockedBy := None)],
                 reloaded := s.reloaded[loc := rev]), pid, next)
    else
      Advance(s, pid, next)
  }

  function DoStageFail(s: State, pid: nat): State
    requires pid in s.procs && s.procs[pid].Gated?
  {
    var pc := s.procs[pid];
    var loc := Loc(pc.node, pc.shard);
    if HoldsSlot(s, pc) then
      Finish(s.(store := s.store[loc := s.store[loc].(lockedBy := None)]), pid)
    else
      Finish(s, pid)
  }

  /** One round of the loop of signalReady. */
  function DoCheck(s: State, pid: nat): State
    requires pid in s.procs && s.procs[pid].Checking?
  {
    var pc := s.procs[pid];
    var loc := Loc(pc.node, pc.next);
    if loc in s.store && StagedRevision(s.store[loc]) != pc.rev then Finish(s, pid)
    else Advance(s, pid, Checking(pc.node, pc.rev, pc.next + 1))
  }

  function DoPutReady(s: State, pid: nat): State
    requires pid in s.procs && s.procs[pid].Checking?
  {
    var pc := s.procs[pid];
    Advance(s.(ready := s.ready[pc.node := pc.rev], puts := s.puts + {Put(pc.node, pc.rev)}),
            pid, Owning(pc.node, pc.rev, []))
  }

  /** GetOwnerNode for the next replica key. */
  function DoLookUp(s: State, pid: nat): State
    requires pid in s.procs && s.procs[pid].Owning? && s.procs[pid].node in s.rings
  {
    var pc := s.procs[pid];
    Advance(s, pid, Owning(pc.node, pc.rev, pc.seen + [s.rings[pc.node]]))
  }

  /** The loop is over; without owners there is nothing to commit. */
  function DoHaveOwners(c: Cluster, s: State, pid: nat): State
    requires pid in s.procs && s.procs[pid].Owning?
  {
    var pc := s.procs[pid];
    if Found(c, pc.seen) == {} then Finish(s, pid) else Advance(s, pid, Collecting(pc.node, pc.rev, pc.seen))
  }

  function DoReadReady(s: State, pid: nat): State
    requires pid in s.procs && s.procs[pid].Collecting?
  {
    var pc := s.procs[pid];
    Advance(s, pid, Deciding(pc.node, pc.rev, pc.seen, s.ready))
  }

  /** Compare the snapshot with the owners and put the commit key, which every watch will see. */
  function DoDecide(c: Cluster, s: State, pid: nat): State
    requires pid in s.procs && s.procs[pid].Deciding?
  {
    var pc := s.procs[pid];
    if AllReady(Found(c, pc.seen), pc.snapshot, pc.rev) then
      Finish(s.(commits := s.commits + {Commit(pc.rev, pc.node, pc.seen, pc.snapshot)},
                pending := s.pending + EventsFor(c.nodes, pc.rev)), pid)
    else
      Finish(s, pid)
  }

  function DoDeliver(s: State, pid: nat, node: Node, rev: int): State {
    Advance(s.(pending := s.pending - multiset{Event(node, rev)}), pid, Committing(node, rev, 0))
  }

  /** One round of the loop of commitIndex. */
  function DoCommitShard(s: State, pid: nat): State
    requires pid in s.procs && s.procs[pid].Committing?
  {
    var pc := s.procs[pid];
    var loc := Loc(pc.node, pc.next);
    var s1 := if loc in s.store then s.(store := s.store[loc := CommitStaged(s.store[loc], pc.rev)]) else s;
    Advance(s1, pid, Committing(pc.node, pc.rev, pc.next + 1))
  }

  function DoClearReady(s: State, pid: nat): State
    requires pid in s.procs && s.procs[pid].Committing?
  {
    Finish(s.(ready := s.ready - {s.procs[pid].node}), pid)
  }

  function DoLoad(s: State, node: Node, shard: nat, rev: int): State {
    s.(store := s.store[Loc(node, shard) := Slot(s.nextObj, rev, rev, None, None)], nextObj := s.nextObj + 1)
  }

  /** A step that must find `stagedMu` of the shard free; an absent shard is skipped. */
  predicate Unlocked(s: State, loc: Loc) {
    loc in s.store ==> s.store[loc].lockedBy.None?
  }

  predicate Enabled(c: Cluster, s: State, step: Step) {
    match step
    case Publish(rev) => rev >= s.published
    case Reload(pid, node, shard) =>
      pid !in s.procs && Loc(node, shard) in s.store && Unlocked(s, Loc(node, shard))
    case Stage(pid, rev) =>
      pid in s.procs && s.procs[pid].Gated? && rev in s.history && s.procs[pid].low <= rev <= s.published
    case StageFail(pid) => pid in s.procs && s.procs[pid].Gated?
    case Check(pid) =>
      && pid in s.procs && s.procs[pid].Checking? && s.procs[pid].next < c.shards
      && Unlocked(s, Loc(s.procs[pid].node, s.procs[pid].next))
    case PutReady(pid) => pid in s.procs && s.procs[pid].Checking? && s.procs[pid].next >= c.shards
    case LookUp(pid) =>
      && pid in s.procs && s.procs[pid].Owning? && s.procs[pid].node in s.rings
      && |s.procs[pid].seen| < |ReplicaKeys(c)|
    case HaveOwners(pid) => pid in s.procs && s.procs[pid].Owning? && |s.procs[pid].seen| >= |ReplicaKeys(c)|
    case ReadReady(pid) => pid in s.procs && s.procs[pid].Collecting?
    case Decide(pid) => pid in s.procs && s.procs[pid].Deciding?
    case EtcdFail(pid) =>
      && pid in s.procs
      && (s.procs[pid].Collecting? || s.procs[pid].Deciding?
          || (s.procs[pid].Checking? && s.procs[pid].next >= c.shards))
    case Deliver(pid, node, rev) => pid !in s.procs && Event(node, rev) in s.pending
    case Redeliver(node, rev) => node in c.nodes && rev in CommittedRevs(s)
    case CommitShard(pid) =>
      && pid in s.procs && s.procs[pid].Committing? && s.procs[pid].next < c.shards
      && Unlocked(s, Loc(s.procs[pid].node, s.procs[pid].next))
    case ClearReady(pid) => pid in s.procs && s.procs[pid].Committing? && s.procs[pid].next >= c.shards
    case ClearReadyFail(pid) => pid in s.procs && s.procs[pid].Committing? && s.procs[pid].next >= c.shards
    case LeaseExpire(node) => true
    case RingChange(node, ring) => node in c.nodes
    case Load(node, shard, rev) =>
      node in c.nodes && shard < c.shards && Loc(node, shard) !in s.store && rev in s.history
    case Unload(node, shard) => true
    case OrphanSignal(pid, node, rev) => pid !in s.procs && node in c.nodes
  }

  function Apply(c: Cluster, s: State, step: Step): State
    requires Enabled(c, s, step)
  {
    match step
    case Publish(rev) => s.(published := rev, history := s.history + {rev})
    case Reload(pid, node, shard) => DoReload(s, pid, node, shard)
    case Stage(pid, rev) => DoStage(s, pid, rev)
    case StageFail(pid) => DoStageFail(s, pid)
    case Check(pid) => DoCheck(s, pid)
    case PutReady(pid) => DoPutReady(s, pid)
    case LookUp(pid) => DoLookUp(s, pid)
    case HaveOwners(pid) => DoHaveOwners(c, s, pid)
    case ReadReady(pid) => DoReadReady(s, pid)
    case Decide(pid) => DoDecide(c, s, pid)
    case EtcdFail(pid) => Finish(s, pid)
    case Deliver(pid, node, rev) => DoDeliver(s, pid, node, rev)
    case Redeliver(node, rev) => s.(pending := s.pending + multiset{Event(node, rev)})
    case CommitShard(pid) => DoCommitShard(s, pid)
    case ClearReady(pid) => DoClearReady(s, pid)
    case ClearReadyFail(pid) => Finish(s, pid)
    case LeaseExpire(node) => s.(ready := s.ready - {node})
    case RingChange(node, ring) => s.(rings := s.rings[node := ring])
    case Load(node, shard, rev) => DoLoad(s, node, shard, rev)
    case Unload(node, shard) => s.(store := s.store - {Loc(node, shard)})
    case OrphanSignal(pid, node, rev) => Advance(s, pid, Checking(node, rev, 0))
  }

  // ---------- the owners by lookups and by a ring

  lemma {:induction false} RowKeysAre(i: nat, upto: nat)
    ensures |RowKeys(i, upto)| == upto && forall k :: 0 <= k < upto ==> RowKeys(i, upto)[k] == (i, k)
  {
    if upto > 0 { RowKeysAre(i, upto - 1); }
  }

  lemma {:induction false} KeysUptoMembers(c: Cluster, upto: nat)
    ensures forall key :: key in KeysUpto(c, upto) <==> key.0 < upto && key.1 < c.replicas
  {
    if upto > 0 {
      KeysUptoMembers(c, upto - 1);
      RowKeysAre(upto - 1, c.replicas);
      forall key ensures key in KeysUpto(c, upto) <==> key.0 < upto && key.1 < c.replicas {
        if key.0 == upto - 1 && key.1 < c.replicas { assert RowKeys(upto - 1, c.replicas)[key.1] == key; }
      }
    }
  }

  /** All lookups have found the ring to be `ring`. */
  ghost predicate AllSaw(seen: seq<set<Node>>, ring: set<Node>) {
    forall j :: 0 <= j < |seen| ==> seen[j] == ring
  }

  /** A loop over an unchanged ring collects its owners. */
  lemma FoundIsOwners(c: Cluster, seen: seq<set<Node>>, ring: set<Node>)
    requires AllSaw(seen, ring) && |seen| >= |ReplicaKeys(c)|
    ensures Found(c, seen) == Owners(c, ring)
  {
    KeysUptoMembers(c, c.shards);
    forall n ensures n in Found(c, seen) <==> n in Owners(c, ring) {
      if n in Found(c, seen) {
        var j :| 0 <= j < |seen| && j < |ReplicaKeys(c)| && seen[j] != {}
            && c.owner(seen[j], ReplicaKeys(c)[j].0, ReplicaKeys(c)[j].1) == n;
        assert ReplicaKeys(c)[j] in ReplicaKeys(c);
      }
      if n in Owners(c, ring) {
        var i, k :| 0 <= i < c.shards && 0 <= k < c.replicas && c.owner(ring, i, k) == n;
        assert (i, k) in ReplicaKeys(c);
        var j :| 0 <= j < |ReplicaKeys(c)| && ReplicaKeys(c)[j] == (i, k);
        assert seen[j] == ring;
      }
    }
  }

  // ---------- runs

  /** `steps` can be taken one after another from `s`, each satisfying `allowed`. */
  predicate Run(c: Cluster, s: State, steps: seq<Step>, allowed: Step -> bool)
    decreases |steps|
  {
    steps == [] || (Enabled(c, s, steps[0]) && allowed(steps[0]) && Run(c, Apply(c, s, steps[0]), steps[1..], allowed))
  }

  function After(c: Cluster, s: State, steps: seq<Step>, allowed: Step -> bool): State
    requires Run(c, s, steps, allowed)
    decreases |steps|
  {
    if steps == [] then s else After(c, Apply(c, s, steps[0]), steps[1..], allowed)
  }
}
