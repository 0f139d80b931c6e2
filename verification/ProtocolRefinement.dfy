/**
 The methods of Coordination and FaissIndexes, run without interruption, are runs of the step
 relation of RevisionProtocol: what is proved about all interleavings of steps holds of them.
 */
module ProtocolRefinement {
  import opened Options
  import opened HashRings
  import opened ShardKeys
  import opened RevisionPaths
  import opened EtcdKeys
  import opened Coordination
  import opened RevisionProtocol
  import opened Traces
  import F = FaissIndexes
  import Placement

  /** The protocol of the index `m` on `nodes`. */
  function ClusterOf(nodes: set<Node>, m: Manifest, place: (set<Node>, string) -> Node): Cluster
    requires ValidManifest(m)
  {
    Cluster(nodes, m.shards, m.replicas, (ring: set<Node>, i: nat, k: nat) =>
            place(ring, ShardKey(Shard(m.name, i, k))))
  }

  /** A shard of the protocol is the FaissIndex stored under its key on that node. */
  ghost predicate SeesShard(store: map<Loc, Slot>, node: Node, m: Manifest, i: nat, states: States) {
    var loc, k := Loc(node, i), Placement.Key(m.name, i);
    && (loc in store <==> k in states)
    && (k in states ==> F.Ordered(states[k]) && store[loc] == F.SlotOf(states[k], store[loc].obj, store[loc].loadedAt))
  }

  ghost predicate SeesStore(store: map<Loc, Slot>, node: Node, m: Manifest, states: States) {
    forall i: nat {:trigger Loc(node, i)} :: i < m.shards ==> SeesShard(store, node, m, i, states)
  }

  /** The ready map of the protocol is what the ready keys in etcd say. */
  ghost predicate SeesReady(root: string, ready: map<Node, int>, m: Manifest, values: Values) {
    forall n, rev {:trigger ReadyAt(root, m.name, values, n, rev)} ::
      n in ready && ready[n] == rev <==> ReadyAt(root, m.name, values, n, rev)
  }

  function Anything(): Step -> bool {
    (step: Step) => true
  }

  // ---------- the shard check

  ghost predicate PassesFrom(c: Cluster, store: map<Loc, Slot>, node: Node, rev: int, next: nat) {
    forall i: nat {:trigger Loc(node, i)} :: next <= i < c.shards && Loc(node, i) in store ==>
      StagedRevision(store[Loc(node, i)]) == rev
  }

  ghost predicate AllUnlocked(c: Cluster, s: State, node: Node) {
    forall i: nat {:trigger Loc(node, i)} :: i < c.shards ==> Unlocked(s, Loc(node, i))
  }

  /** The loop of signalReady, run to its end. */
  lemma {:induction false} CheckLoop(c: Cluster, s: State, pid: nat, node: Node, rev: int, next: nat)
    returns (steps: seq<Step>)
    requires pid in s.procs && s.procs[pid] == Checking(node, rev, next) && next <= c.shards && AllUnlocked(c, s, node)
    ensures Run(c, s, steps, Anything())
    ensures After(c, s, steps, Anything()) ==
            if PassesFrom(c, s.store, node, rev, next) then Advance(s, pid, Checking(node, rev, c.shards))
              else Finish(s, pid)
    decreases c.shards - next
  {
    if next == c.shards {
      steps := [];
      assert s.procs[pid := s.procs[pid]] == s.procs;
    } else {
      var here := Loc(node, next);
      assert Unlocked(s, here);
      var t := DoCheck(s, pid);
      if here in s.store && StagedRevision(s.store[here]) != rev {
        RunOne(c, s, Check(pid), Anything());
        steps := [Check(pid)];
      } else {
        var rest := CheckLoop(c, t, pid, node, rev, next + 1);
        RunCons(c, s, Check(pid), t, rest, Anything());
        steps := [Check(pid)] + rest;
        assert PassesFrom(c, s.store, node, rev, next) <==> PassesFrom(c, s.store, node, rev, next + 1);
      }
    }
  }

  lemma CheckAgrees(c: Cluster, store: map<Loc, Slot>, node: Node, m: Manifest, states: States, rev: int)
    requires SeesStore(store, node, m, states) && 0 <= m.shards == c.shards
    ensures PassesFrom(c, store, node, rev, 0) <==> AllStagedAt(states, m, m.shards, rev)
  {
    forall i: nat | i < m.shards
      ensures (Loc(node, i) in store <==> Placement.Key(m.name, i) in states)
      ensures Loc(node, i) in store ==>
                StagedRevision(store[Loc(node, i)]) == states[Placement.Key(m.name, i)].stagedRevision
    {
      assert SeesShard(store, node, m, i, states);
    }
  }

  // ---------- the owners and the ready keys

  lemma OwnersAgree(nodes: set<Node>, m: Manifest, ring: Ring, n: Node)
    requires ValidManifest(m) && PlacesOnMembers(ring.place) && "" !in ring.nodes
    ensures n in Owners(ClusterOf(nodes, m, ring.place), ring.nodes) <==> IsOwner(ring, m, n)
  {
    var c := ClusterOf(nodes, m, ring.place);
    if n in Owners(c, ring.nodes) {
      var i, k :| 0 <= i < c.shards && 0 <= k < c.replicas && c.owner(ring.nodes, i, k) == n;
      assert IsShardOf(m, Shard(m.name, i, k)) && GetOwnerNode(ring, ShardKey(Shard(m.name, i, k))) == n;
    }
    if IsOwner(ring, m, n) {
      var x :| IsShardOf(m, x) && GetOwnerNode(ring, ShardKey(x)) == n;
      assert x == Shard(m.name, x.shardId, x.replicaId);
      assert c.owner(ring.nodes, x.shardId, x.replicaId) == n;
    }
  }

  lemma DecisionAgrees(nodes: set<Node>, m: Manifest, ring: Ring, ready: map<Node, int>, rev: int)
    requires ValidManifest(m) && PlacesOnMembers(ring.place) && "" !in ring.nodes
    ensures var owners := Owners(ClusterOf(nodes, m, ring.place), ring.nodes);
      Agreed(ring, m, rev, ready) <==> owners != {} && AllReady(owners, ready, rev)
  {
    var owners := Owners(ClusterOf(nodes, m, ring.place), ring.nodes);
    forall n ensures n in owners <==> IsOwner(ring, m, n) { OwnersAgree(nodes, m, ring, n); }
  }

  /** What is collected from the keys is the ready map of the protocol. */
  lemma CollectedSeen(root: string, ready: map<Node, int>, m: Manifest, values: Values, kvs: seq<Kv>)
    requires SeesReady(root, ready, m, values) && WellKeyed(root, values) && SlashFree(m.name)
    requires Lists(kvs, ReadyPathPrefix(root, m.name), values)
    ensures Collected(kvs) == ready
  {
    var got := Collected(kvs);
    forall n ensures (n in got <==> n in ready) && (n in ready ==> got[n] == ready[n]) {
      if n in got {
        CollectedIsReady(root, m.name, values, kvs, n, got[n]);
        assert ReadyAt(root, m.name, values, n, got[n]);
      }
      if n in ready {
        assert ReadyAt(root, m.name, values, n, ready[n]);
        CollectedIsReady(root, m.name, values, kvs, n, ready[n]);
      }
    }
  }

  lemma PutSeen(root: string, ready: map<Node, int>, m: Manifest, values: Values, node: Node, rev: int)
    requires SeesReady(root, ready, m, values) && SlashFree(m.name)
    ensures SeesReady(root, ready[node := rev], m, values[ReadyPath(root, m.name, node) := Some(rev)])
    ensures SeesReady(root, ready - {node}, m, values - {ReadyPath(root, m.name, node)})
  {
    var put, gone := values[ReadyPath(root, m.name, node) := Some(rev)], values - {ReadyPath(root, m.name, node)};
    forall n, r
      ensures n in ready[node := rev] && ready[node := rev][n] == r <==> ReadyAt(root, m.name, put, n, r)
      ensures n in (ready - {node}) && (ready - {node})[n] == r <==> ReadyAt(root, m.name, gone, n, r)
    {
      assert n in ready && ready[n] == r <==> ReadyAt(root, m.name, values, n, r);
      if n != node && ReadyPath(root, m.name, n) == ReadyPath(root, m.name, node) {
        ReadyPathInjective(root, m.name, n, m.name, node);
      }
    }
  }

  lemma CommitPutSeen(root: string, ready: map<Node, int>, m: Manifest, values: Values, rev: int)
    requires SeesReady(root, ready, m, values) && SlashFree(m.name)
    ensures SeesReady(root, ready, m, values[CommitPath(root, m.name) := Some(rev)])
  {
    var put := values[CommitPath(root, m.name) := Some(rev)];
    forall n, r ensures n in ready && ready[n] == r <==> ReadyAt(root, m.name, put, n, r) {
      assert n in ready && ready[n] == r <==> ReadyAt(root, m.name, values, n, r);
      PrefixSkipsCommit(root, m.name, m.name);
      assert ReadyPath(root, m.name, n) == ReadyPathPrefix(root, m.name) + ("/" + n);
    }
  }

  // ---------- the replica keys

  lemma {:induction false} RowKeysAreRow(m: Manifest, i: nat, upto: nat)
    ensures |RowKeys(i, upto)| == |Row(m, i, upto)|
    ensures forall j :: 0 <= j < |RowKeys(i, upto)| ==>
                          Row(m, i, upto)[j] == Shard(m.name, RowKeys(i, upto)[j].0, RowKeys(i, upto)[j].1)
  {
    if upto > 0 { RowKeysAreRow(m, i, upto - 1); }
  }

  lemma {:induction false} KeysAreRows(c: Cluster, m: Manifest, upto: nat)
    requires 0 <= m.replicas == c.replicas
    ensures |KeysUpto(c, upto)| == |Rows(m, upto)|
    ensures forall j :: 0 <= j < |KeysUpto(c, upto)| ==>
                          Rows(m, upto)[j] == Shard(m.name, KeysUpto(c, upto)[j].0, KeysUpto(c, upto)[j].1)
  {
    if upto > 0 {
      KeysAreRows(c, m, upto - 1);
      RowKeysAreRow(m, upto - 1, m.replicas);
    }
  }

  /** The lookups of the protocol go through the replica keys in the order of GenerateShards. */
  lemma LooksUpInOrder(nodes: set<Node>, m: Manifest, ring: Ring, j: nat)
    requires ValidManifest(m) && j < |ReplicaKeys(ClusterOf(nodes, m, ring.place))|
    ensures var c := ClusterOf(nodes, m, ring.place);
      && |ReplicaKeys(c)| == |Rows(m, m.shards)|
      && c.owner(ring.nodes, ReplicaKeys(c)[j].0, ReplicaKeys(c)[j].1)
         == ring.place(ring.nodes, ShardKey(Rows(m, m.shards)[j]))
  {
    KeysAreRows(ClusterOf(nodes, m, ring.place), m, m.shards);
  }

  // ---------- signalReady

  /** The effect of putting the commit key. */
  function WithCommit(s: State, nodes: set<Node>, commit: Commit): State {
    s.(commits := s.commits + {commit}, pending := s.pending + EventsFor(nodes, commit.rev))
  }

  /** What the lookups see of a ring that does not change. */
  function Same(ring: set<Node>, n: nat): seq<set<Node>> {
    seq(n, i => ring)
  }

  function Looked(c: Cluster, ring: set<Node>): seq<set<Node>> {
    Same(ring, |ReplicaKeys(c)|)
  }

  /** The loop of nodesOwningIndex, run to its end. */
  lemma {:induction false} LookUpLoop(c: Cluster, s: State, pid: nat, node: Node, rev: int, ring: set<Node>, done: nat)
    returns (steps: seq<Step>)
    requires pid in s.procs && s.procs[pid] == Owning(node, rev, Same(ring, done)) && done <= |ReplicaKeys(c)|
    requires node in s.rings && s.rings[node] == ring
    ensures Run(c, s, steps, Anything())
    ensures After(c, s, steps, Anything()) == Advance(s, pid, Owning(node, rev, Looked(c, ring)))
    decreases |ReplicaKeys(c)| - done
  {
    if done == |ReplicaKeys(c)| {
      steps := [];
      assert s.procs[pid := s.procs[pid]] == s.procs;
    } else {
      var t := DoLookUp(s, pid);
      assert Same(ring, done) + [ring] == Same(ring, done + 1);
      var rest := LookUpLoop(c, t, pid, node, rev, ring, done + 1);
      RunCons(c, s, LookUp(pid), t, rest, Anything());
      steps := [LookUp(pid)] + rest;
    }
  }

  /** nodesOwningIndex, run to its end. */
  lemma OwnersRun(c: Cluster, s: State, pid: nat, node: Node, rev: int, ring: set<Node>) returns (steps: seq<Step>)
    requires pid in s.procs && s.procs[pid] == Owning(node, rev, []) && node in s.rings && s.rings[node] == ring
    ensures Run(c, s, steps, Anything())
    ensures Found(c, Looked(c, ring)) == Owners(c, ring)
    ensures After(c, s, steps, Anything()) ==
            if Owners(c, ring) == {} then Finish(s, pid) else Advance(s, pid, Collecting(node, rev, Looked(c, ring)))
  {
    assert [] == Same(ring, 0);
    steps := LookUpLoop(c, s, pid, node, rev, ring, 0);
    FoundIsOwners(c, Looked(c, ring), ring);
    var s1 := Advance(s, pid, Owning(node, rev, Looked(c, ring)));
    RunOne(c, s1, HaveOwners(pid), Anything());
    RunAppend(c, s, steps, [HaveOwners(pid)], Anything());
    steps := steps + [HaveOwners(pid)];
    assert Finish(s1, pid) == Finish(s, pid);
  }

  /** The rest of checkAndCommit, run to its end. */
  lemma CompareRun(root: string, nodes: set<Node>, m: Manifest, ring: Ring, s: State, pid: nat, node: Node, rev: int,
                   faults: Faults, seen: seq<set<Node>>) returns (steps: seq<Step>)
    requires ValidManifest(m) && PlacesOnMembers(ring.place) && "" !in ring.nodes
    requires var c := ClusterOf(nodes, m, ring.place);
             seen == Looked(c, ring.nodes) && Found(c, seen) == Owners(c, ring.nodes) != {}
    requires pid in s.procs && s.procs[pid] == Collecting(node, rev, seen)
    ensures var c := ClusterOf(nodes, m, ring.place);
      && Run(c, s, steps, Anything())
      && After(c, s, steps, Anything()) ==
         Finish(if CommitPuts(root, ring, m, rev, faults, s.ready) == [] then s
                else WithCommit(s, nodes, Commit(rev, node, seen, s.ready)), pid)
  {
    var c := ClusterOf(nodes, m, ring.place);
    DecisionAgrees(nodes, m, ring, s.ready, rev);
    if faults.readyRead {
      RunOne(c, s, EtcdFail(pid), Anything());
      steps := [EtcdFail(pid)];
    } else {
      steps := PutOrNot(c, s, pid, node, rev, seen, faults.commitPut);
    }
  }

  lemma PutOrNot(c: Cluster, s: State, pid: nat, node: Node, rev: int, seen: seq<set<Node>>, fails: bool)
    returns (steps: seq<Step>)
    requires pid in s.procs && s.procs[pid] == Collecting(node, rev, seen)
    ensures Run(c, s, steps, Anything())
    ensures var commits := AllReady(Found(c, seen), s.ready, rev) && !fails;
      After(c, s, steps, Anything())
        == Finish(if commits then WithCommit(s, c.nodes, Commit(rev, node, seen, s.ready)) else s, pid)
  {
    var s2 := DoReadReady(s, pid);
    var last := if AllReady(Found(c, seen), s.ready, rev) && fails then EtcdFail(pid) else Decide(pid);
    LastStep(c, s, pid, node, rev, seen, fails);
    RunOne(c, s2, last, Anything());
    assert Leads(c, s, ReadReady(pid), s2);
    RunCons(c, s, ReadReady(pid), s2, [last], Anything());
    steps := [ReadReady(pid)] + [last];
  }

  /** The put of the commit key: not tried, tried in vain, or done. */
  lemma LastStep(c: Cluster, s: State, pid: nat, node: Node, rev: int, seen: seq<set<Node>>, fails: bool)
    requires pid in s.procs && s.procs[pid] == Collecting(node, rev, seen)
    ensures var s2 := DoReadReady(s, pid);
      var ready := AllReady(Found(c, seen), s.ready, rev);
      Leads(c, s2, if ready && fails then EtcdFail(pid) else Decide(pid),
            Finish(if ready && !fails then WithCommit(s, c.nodes, Commit(rev, node, seen, s.ready)) else s, pid))
  {
    FinishForgets(s, DoReadReady(s, pid), pid, c.nodes, Commit(rev, node, seen, s.ready));
  }

  /** checkAndCommit, run to its end. */
  lemma DecideRun(root: string, nodes: set<Node>, m: Manifest, ring: Ring, s: State, pid: nat, node: Node, rev: int,
                  faults: Faults) returns (steps: seq<Step>)
    requires ValidManifest(m) && PlacesOnMembers(ring.place) && "" !in ring.nodes
    requires pid in s.procs && s.procs[pid] == Owning(node, rev, []) && node in s.rings && s.rings[node] == ring.nodes
    ensures var c := ClusterOf(nodes, m, ring.place);
      && Run(c, s, steps, Anything())
      && After(c, s, steps, Anything()) ==
         Finish(if CommitPuts(root, ring, m, rev, faults, s.ready) == [] then s
                else WithCommit(s, nodes, Commit(rev, node, Looked(c, ring.nodes), s.ready)), pid)
  {
    var c := ClusterOf(nodes, m, ring.place);
    DecisionAgrees(nodes, m, ring, s.ready, rev);
    steps := OwnersRun(c, s, pid, node, rev, ring.nodes);
    if Owners(c, ring.nodes) != {} {
      var seen := Looked(c, ring.nodes);
      var s1 := Advance(s, pid, Collecting(node, rev, seen));
      var rest := CompareRun(root, nodes, m, ring, s1, pid, node, rev, faults, seen);
      RunAppend(c, s, steps, rest, Anything());
      steps := steps + rest;
      FinishForgets(s, s1, pid, nodes, Commit(rev, node, seen, s.ready));
    }
  }

  lemma FinishForgets(s: State, t: State, pid: nat, nodes: set<Node>, commit: Commit)
    requires pid in t.procs && t == s.(procs := s.procs[pid := t.procs[pid]])
    ensures Finish(t, pid) == Finish(s, pid)
    ensures Finish(WithCommit(t, nodes, commit), pid) == Finish(WithCommit(s, nodes, commit), pid)
  {
    assert t.procs - {pid} == s.procs - {pid};
  }

  /** What an uninterrupted signalReady that found all shards staged leaves behind. */
  function SignalledState(c: Cluster, s: State, ring: Ring, node: Node, rev: int, commits: bool): State {
    var t := s.(ready := s.ready[node := rev], puts := s.puts + {Put(node, rev)});
    if commits then WithCommit(t, c.nodes, Commit(rev, node, Looked(c, ring.nodes), t.ready)) else t
  }

  /** The writes of signalReady keep protocol state and etcd in step. */
  lemma SignalSeen(root: string, c: Cluster, m: Manifest, ring: Ring, s: State, node: Node, rev: int,
                   states: States, values: Values, faults: Faults, readyNodes: map<Node, int>)
    requires SeesReady(root, s.ready, m, values) && SlashFree(m.name)
    requires AllStagedAt(states, m, m.shards, rev) && !faults.readyPut
    ensures var commits := CommitPuts(root, ring, m, rev, faults, readyNodes) != [];
      SeesReady(root, SignalledState(c, s, ring, node, rev, commits).ready, m,
                Written(values, SignalPuts(root, ring, m, node, rev, faults, states, readyNodes)))
  {
    var ready, commit := Kv(ReadyPath(root, m.name, node), Some(rev)), Kv(CommitPath(root, m.name), Some(rev));
    var signalled := values[ready.key := ready.value];
    PutSeen(root, s.ready, m, values, node, rev);
    CommitPutSeen(root, s.ready[node := rev], m, signalled, rev);
    WrittenOnce(values, ready);
    WrittenTwice(values, ready, commit);
  }

  /** The part of signalReady after the check, when the ready key is put. */
  lemma PutRun(root: string, nodes: set<Node>, m: Manifest, ring: Ring, s: State, s1: State, pid: nat, node: Node,
               rev: int, faults: Faults)
    returns (steps: seq<Step>)
    requires ValidManifest(m) && PlacesOnMembers(ring.place) && "" !in ring.nodes && !faults.readyPut
    requires s1 == Advance(s, pid, Checking(node, rev, m.shards)) && node in s.rings && s.rings[node] == ring.nodes
    ensures var c := ClusterOf(nodes, m, ring.place);
      var commits := CommitPuts(root, ring, m, rev, faults, s.ready[node := rev]) != [];
      && Run(c, s1, steps, Anything())
      && After(c, s1, steps, Anything()) == Finish(SignalledState(c, s, ring, node, rev, commits), pid)
  {
    var c := ClusterOf(nodes, m, ring.place);
    var s2 := DoPutReady(s1, pid);
    var rest := DecideRun(root, nodes, m, ring, s2, pid, node, rev, faults);
    RunCons(c, s1, PutReady(pid), s2, rest, Anything());
    steps := [PutReady(pid)] + rest;
    FinishForgets(s.(ready := s2.ready, puts := s2.puts), s2, pid, nodes,
                  Commit(rev, node, Looked(c, ring.nodes), s2.ready));
  }

  /** The events that the commits of `revs` send to the nodes. */
  function EventsOf(nodes: set<Node>, revs: seq<int>): multiset<Event> {
    if revs == [] then multiset{} else EventsFor(nodes, revs[0]) + EventsOf(nodes, revs[1..])
  }

  /** signalReady without interruption is a run of protocol steps of its callback: both go through
      with the check for the same shards, put the same ready key, and put a commit key in the same
      cases, whichever etcd calls fail.  What the watches read out of the puts are the events of the run. */
  lemma SignalReadyRefines(root: string, nodes: set<Node>, m: Manifest, ring: Ring, s: State, pid: nat, node: Node,
                           rev: int,
                           states: States, values: Values, faults: Faults, kvs: seq<Kv>) returns (steps: seq<Step>)
    requires ValidManifest(m) && SlashFree(m.name) && SlashFree(node) && PlacesOnMembers(ring.place)
             && "" !in ring.nodes
    requires pid in s.procs && s.procs[pid] == Checking(node, rev, 0) && node in s.rings && s.rings[node] == ring.nodes
    requires SeesStore(s.store, node, m, states) && SeesReady(root, s.ready, m, values) && WellKeyed(root, values)
    requires Lists(kvs, ReadyPathPrefix(root, m.name), values[ReadyPath(root, m.name, node) := Some(rev)])
    ensures var c := ClusterOf(nodes, m, ring.place);
      var puts := SignalPuts(root, ring, m, node, rev, faults, states, Collected(kvs));
      && Run(c, s, steps, Anything())
      && var t := After(c, s, steps, Anything());
         && t == Finish(if puts == [] then s else SignalledState(c, s, ring, node, rev, |puts| == 2), pid)
         && SeesStore(t.store, node, m, states) && SeesReady(root, t.ready, m, Written(values, puts))
         && (m.name != "" ==> t.pending == s.pending + EventsOf(nodes, Commits(root, m.name, puts)))
  {
    var c := ClusterOf(nodes, m, ring.place);
    NodeUnlocked(c, s, node, m, states);
    steps := CheckLoop(c, s, pid, node, rev, 0);
    CheckAgrees(c, s.store, node, m, states, rev);
    var s1 := Advance(s, pid, Checking(node, rev, c.shards));
    assert Finish(s1, pid) == Finish(s, pid);
    if AllStagedAt(states, m, m.shards, rev) && faults.readyPut {
      RunOne(c, s1, EtcdFail(pid), Anything());
      RunAppend(c, s, steps, [EtcdFail(pid)], Anything());
      steps := steps + [EtcdFail(pid)];
    } else if AllStagedAt(states, m, m.shards, rev) {
      PutSeen(root, s.ready, m, values, node, rev);
      WritesStayWellKeyed(root, values, m.name, node, Some(rev));
      CollectedSeen(root, s.ready[node := rev], m, values[ReadyPath(root, m.name, node) := Some(rev)], kvs);
      var rest := PutRun(root, nodes, m, ring, s, s1, pid, node, rev, faults);
      RunAppend(c, s, steps, rest, Anything());
      steps := steps + rest;
      SignalSeen(root, c, m, ring, s, node, rev, states, values, faults, Collected(kvs));
    }
    if m.name != "" {
      EventsOfSignal(root, nodes, m, ring, node, rev, faults, states, Collected(kvs));
    }
  }

  lemma EventsOfSignal(root: string, nodes: set<Node>, m: Manifest, ring: Ring, node: Node, rev: int, faults: Faults,
                       states: States, readyNodes: map<Node, int>)
    requires SlashFree(m.name) && m.name != ""
    ensures var puts := SignalPuts(root, ring, m, node, rev, faults, states, readyNodes);
      EventsOf(nodes, Commits(root, m.name, puts)) == if |puts| == 2 then EventsFor(nodes, rev) else multiset{}
  {
    CommitsOfSignal(root, ring, m, node, rev, faults, states, readyNodes, m.name);
    assert [rev][1..] == [];
  }

  lemma NodeUnlocked(c: Cluster, s: State, node: Node, m: Manifest, states: States)
    requires SeesStore(s.store, node, m, states) && 0 <= m.shards == c.shards
    ensures AllUnlocked(c, s, node)
  {
    forall i: nat | i < c.shards ensures Unlocked(s, Loc(node, i)) {
      assert SeesShard(s.store, node, m, i, states);
    }
  }
}
