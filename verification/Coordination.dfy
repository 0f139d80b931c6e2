/**
 The reload protocol as one node runs it (internal/engine/manager.go): signalReady, checkAndCommit,
 commitIndex and the watch on commit keys, over the string keys of etcd and the FaissIndex objects
 of the store.  Nothing else runs meanwhile; for what happens when it does, see RevisionProtocol.
 */
module Coordination {
  import opened Options
  import opened ShardKeys
  import opened HashRings
  import opened RevisionPaths
  import opened EtcdKeys
  import opened FaissIndexes
  import Placement

  type States = map<string, State>

  /** The store key is that of some shard of the index. */
  predicate InIndex(m: Manifest, k: string) {
    exists i :: 0 <= i < m.shards && k == Placement.Key(m.name, i)
  }

  /** The shards of the index that are here are all staged at `rev`. */
  ghost predicate AllStagedAt(states: States, m: Manifest, upto: int, rev: int) {
    forall i {:trigger Placement.Key(m.name, i)} ::
      0 <= i < upto && Placement.Key(m.name, i) in states ==> states[Placement.Key(m.name, i)].stagedRevision == rev
  }

  lemma AllStagedNext(states: States, m: Manifest, i: int, rev: int)
    requires 0 <= i < m.shards
    ensures var k := Placement.Key(m.name, i);
      AllStagedAt(states, m, i + 1, rev) <==>
        AllStagedAt(states, m, i, rev) && (k !in states || states[k].stagedRevision == rev)
    ensures !AllStagedAt(states, m, i + 1, rev) ==> !AllStagedAt(states, m, m.shards, rev)
  {
  }

  /** What a commit event does to the shards of a node. */
  function CommitAll(states: States, m: Manifest, rev: int): States {
    map k | k in states :: if InIndex(m, k) then Committed(states[k], rev) else states[k]
  }

  function CommitAt(states: States, k: string, rev: int): States {
    if k in states then states[k := Committed(states[k], rev)] else states
  }

  function CommitBelow(states: States, m: Manifest, upto: int, rev: int): States {
    CommitAll(states, m.(shards := upto), rev)
  }

  lemma CommitBelowNext(states: States, m: Manifest, i: nat, rev: int)
    ensures CommitBelow(states, m, i + 1, rev)
         == CommitAt(CommitBelow(states, m, i, rev), Placement.Key(m.name, i), rev)
  {
    var here := Placement.Key(m.name, i);
    forall k | k in states
      ensures InIndex(m.(shards := i + 1), k) <==> InIndex(m.(shards := i), k) || k == here
    {
      if InIndex(m.(shards := i + 1), k) {
        var j :| 0 <= j < i + 1 && k == Placement.Key(m.name, j);
        assert j < i ==> InIndex(m.(shards := i), k);
      }
    }
    if InIndex(m.(shards := i), here) {
      var j :| 0 <= j < i && here == Placement.Key(m.name, j);
      Placement.KeyDiffers(m.name, i, m.name, j);
    }
  }

  lemma CommitBelowAll(states: States, m: Manifest, rev: int)
    requires 0 <= m.shards
    ensures CommitBelow(states, m, m.shards, rev) == CommitAll(states, m, rev)
    ensures CommitBelow(states, m, 0, rev) == states
  {
  }

  datatype Outcome = Done | UnknownIndex | PutFailed | ReadFailed

  /** Which etcd calls of a signalReady fail. */
  datatype Faults = Faults(readyPut: bool, readyRead: bool, commitPut: bool)

  ghost predicate IsOwner(ring: Ring, m: Manifest, n: Node) {
    n != "" && Placement.Owns(ring, m, n)
  }

  /** There are owners, and each of them was read to be ready at the revision. */
  ghost predicate Agreed(ring: Ring, m: Manifest, revision: int, readyNodes: map<Node, int>) {
    && (exists n :: IsOwner(ring, m, n))
    && (forall n :: IsOwner(ring, m, n) ==> n in readyNodes && readyNodes[n] == revision)
  }

  /** What checkAndCommit writes: the commit key or nothing. */
  ghost function CommitPuts(root: string, ring: Ring, m: Manifest, revision: int, faults: Faults,
                            readyNodes: map<Node, int>): seq<Kv> {
    if Agreed(ring, m, revision, readyNodes) && !faults.readyRead && !faults.commitPut
    then [Kv(CommitPath(root, m.name), Some(revision))] else []
  }

  /** What signalReady writes: nothing, or its ready key and perhaps the commit key. */
  ghost function SignalPuts(root: string, ring: Ring, m: Manifest, me: Node, revision: int, faults: Faults,
                            states: States, readyNodes: map<Node, int>): seq<Kv> {
    if AllStagedAt(states, m, m.shards, revision) && !faults.readyPut
    then [Kv(ReadyPath(root, m.name, me), Some(revision))] + CommitPuts(root, ring, m, revision, faults, readyNodes)
    else []
  }

  /** With names that have no slash, the nodes agree if and only if the ready key of every owner holds
      the revision. */
  lemma AgreedIff(root: string, ring: Ring, m: Manifest, revision: int, values: Values, kvs: seq<Kv>)
    requires WellKeyed(root, values) && SlashFree(m.name) && Lists(kvs, ReadyPathPrefix(root, m.name), values)
    ensures Agreed(ring, m, revision, Collected(kvs)) <==>
              && (exists n :: IsOwner(ring, m, n))
              && (forall n :: IsOwner(ring, m, n) ==> ReadyAt(root, m.name, values, n, revision))
  {
    forall n ensures n in Collected(kvs) && Collected(kvs)[n] == revision <==>
          ReadyAt(root, m.name, values, n, revision) {
      CollectedIsReady(root, m.name, values, kvs, n, revision);
    }
  }

  /** What signalReady writes keeps the watched prefix in order. */
  lemma SignalStaysWellKeyed(root: string, ring: Ring, m: Manifest, me: Node, revision: int, faults: Faults,
                             states: States, readyNodes: map<Node, int>, values: Values)
    requires WellKeyed(root, values) && SlashFree(m.name) && SlashFree(me)
    ensures WellKeyed(root, Written(values, SignalPuts(root, ring, m, me, revision, faults, states, readyNodes)))
  {
    var ready, commit := Kv(ReadyPath(root, m.name, me), Some(revision)), Kv(CommitPath(root, m.name), Some(revision));
    WrittenOnce(values, ready);
    WrittenTwice(values, ready, commit);
    WritesStayWellKeyed(root, values, m.name, me, Some(revision));
    WritesStayWellKeyed(root, values[ready.key := ready.value], m.name, me, Some(revision));
  }

  // ---------- what the watches make of it

  datatype Signal = Signal(indexName: string, revision: int)

  /** What watchCommits reads out of an event, if it is a commit. */
  function ReadCommit(root: string, kv: Kv): Option<Signal> {
    var indexName := ParseIndexName(root, kv.key);
    if indexName == "" || kv.value.None? then None else Some(Signal(indexName, kv.value.value))
  }

  /** It reads a commit out of commit keys with a revision, and out of nothing else. */
  lemma ReadCommitIff(root: string, kv: Kv, c: Signal)
    ensures ReadCommit(root, kv) == Some(c) <==>
              && c.indexName != "" && SlashFree(c.indexName)
              && kv == Kv(CommitPath(root, c.indexName), Some(c.revision))
  {
    if c.indexName != "" {
      ParsesIff(root, kv.key, c.indexName);
    }
  }

  /** The shards of a node after it has handled an event. */
  function HandledStates(root: string, ms: Placement.Manifests, deletion: bool, kv: Kv, states: States): States {
    var c := ReadCommit(root, kv);
    if !deletion && c.Some? && c.value.indexName in ms then CommitAll(states, ms[c.value.indexName], c.value.revision)
    else states
  }

  /** The commits of the index `name` among some puts. */
  function Commits(root: string, name: string, puts: seq<Kv>): seq<int> {
    if puts == [] then []
    else
      var c := ReadCommit(root, puts[0]);
      (if c.Some? && c.value.indexName == name then [c.value.revision] else []) + Commits(root, name, puts[1..])
  }

  /** A watch reads out of the puts of signalReady the signalled revision of this index, if the commit key was
      put and the name has no slash and is not empty, and nothing else. */
  lemma CommitsOfSignal(root: string, ring: Ring, m: Manifest, me: Node, revision: int, faults: Faults,
                        states: States, readyNodes: map<Node, int>, name: string)
    ensures var puts := SignalPuts(root, ring, m, me, revision, faults, states, readyNodes);
      Commits(root, name, puts) ==
      if |puts| == 2 && name == m.name && name != "" && SlashFree(name) then [revision] else []
  {
    var ready, commit := Kv(ReadyPath(root, m.name, me), Some(revision)), Kv(CommitPath(root, m.name), Some(revision));
    ReadyIsNoCommit(root, m.name, me, revision);
    CommitsOf(root, name, ready, commit);
    if name == m.name { ReadCommitIff(root, commit, Signal(name, revision)); }
    ParseCommitIff(root, m.name);
  }

  lemma ReadyIsNoCommit(root: string, index: string, me: Node, revision: int)
    ensures ReadCommit(root, Kv(ReadyPath(root, index, me), Some(revision))) == None
  {
    ParseReadyIsEmpty(root, index, me);
  }

  lemma CommitsOf(root: string, name: string, a: Kv, b: Kv)
    requires ReadCommit(root, a) == None
    ensures Commits(root, name, [a]) == [] && Commits(root, name, []) == []
    ensures var c := ReadCommit(root, b);
      Commits(root, name, [a] + [b]) == if c.Some? && c.value.indexName == name then [c.value.revision] else []
  {
    assert [a][1..] == [] && [b][1..] == [] && ([a] + [b])[1..] == [b];
  }

  /** Handling what signalReady has put: at the commit key every shard of the index that has the signalled
      revision staged serves it, others stay as they are, and a ready key changes nothing. */
  lemma SignalSwitches(root: string, ring: Ring, m: Manifest, me: Node, revision: int, faults: Faults,
                       states: States, readyNodes: map<Node, int>, ms: Placement.Manifests, kv: Kv, here: States)
    requires m.name != "" && SlashFree(m.name) && m.name in ms && ms[m.name] == m
    requires kv in SignalPuts(root, ring, m, me, revision, faults, states, readyNodes)
    ensures var after := HandledStates(root, ms, false, kv, here);
      && after.Keys == here.Keys
      && (kv.key == ReadyPath(root, m.name, me) ==> after == here)
      && (kv.key == CommitPath(root, m.name) ==> forall k :: k in here ==>
            if InIndex(m, k) && here[k].stagedIndex.Some? && here[k].stagedRevision == revision
            then here[k].stagedIndex == Some(after[k].index) && after[k].revision == revision
            && after[k].stagedIndex == None
            else after[k] == here[k])
  {
    ParseReadyIsEmpty(root, m.name, me);
    if kv.key == CommitPath(root, m.name) {
      assert kv.value == Some(revision);
      ReadCommitIff(root, kv, Signal(m.name, revision));
    }
  }

  function Written(values: Values, puts: seq<Kv>): Values {
    if puts == [] then values else Written(values, puts[..|puts| - 1])[puts[|puts| - 1].key := puts[|puts| - 1].value]
  }

  lemma WrittenOnce(values: Values, kv: Kv)
    ensures Written(values, [kv]) == values[kv.key := kv.value]
  {
    assert [kv][..0] == [];
  }

  lemma WrittenTwice(values: Values, a: Kv, b: Kv)
    ensures Written(values, [a, b]) == values[a.key := a.value][b.key := b.value]
    ensures Written(values, [a] + [b]) == values[a.key := a.value][b.key := b.value]
  {
    assert [a, b][..1] == [a] && [a] + [b] == [a, b];
    WrittenOnce(values, a);
  }

  /** The last loop of checkAndCommit. */
  method AllAt(owners: set<Node>, readyNodes: map<Node, int>, revision: int) returns (agreed: bool)
    ensures agreed <==> forall n :: n in owners ==> n in readyNodes && readyNodes[n] == revision
  {
    var todo := owners;
    while todo != {}
      invariant todo <= owners
      invariant forall n :: n in owners - todo ==> n in readyNodes && readyNodes[n] == revision
      decreases todo
    {
      var n :| n in todo;
      if n !in readyNodes || readyNodes[n] != revision {
        return false;
      }
      todo := todo - {n};
    }
    return true;
  }

  class Coordinator {
    const root: string
    const nodeId: Node
    const etcd: Etcd
    const placement: Placement.IndexManager
    var shards: map<string, FaissIndex>     // the objects of the engine store

    constructor (root: string, nodeId: Node, etcd: Etcd, placement: Placement.IndexManager)
      ensures this.root == root && this.nodeId == nodeId && this.etcd == etcd && this.placement == placement
      ensures shards == map[] && Valid()
    {
      this.root, this.nodeId, this.etcd, this.placement := root, nodeId, etcd, placement;
      shards := map[];
    }

    /** No object is stored under two keys. */
    ghost predicate Valid()
      reads this
    {
      forall k, k' :: k in shards && k' in shards && shards[k] == shards[k'] ==> k == k'
    }

    /** `states` is what the objects of the store hold. */
    ghost predicate StatesAre(states: States)
      reads this, shards.Values
    {
      shards.Keys == states.Keys && forall k :: k in shards ==> shards[k].TheState() == states[k]
    }

    /** One round of the loop of signalReady; a shard that is not here is skipped. */
    method ShardStaged(k: string, revision: int, ghost states: States) returns (staged: bool)
      requires StatesAre(states)
      ensures staged <==> k !in states || states[k].stagedRevision == revision
    {
      if k !in shards {
        return true;
      }
      var r := shards[k].StagedRevision();
      assert r == shards[k].TheState().stagedRevision;
      return r == revision;
    }

    /** The first loop of signalReady. */
    method LocalShardsStaged(m: Manifest, revision: int, ghost states: States) returns (staged: bool)
      requires ValidManifest(m) && StatesAre(states)
      ensures staged <==> AllStagedAt(states, m, m.shards, revision)
    {
      var uniqueShards := GenerateUniqueShards(m);
      var i := 0;
      while i < |uniqueShards|
        invariant 0 <= i <= |uniqueShards| && AllStagedAt(states, m, i, revision)
      {
        var k := UniqueShardKey(uniqueShards[i]);
        assert k == Placement.Key(m.name, i);
        var here := ShardStaged(k, revision, states);
        AllStagedNext(states, m, i, revision);
        if !here {
          return false;
        }
        i := i + 1;
      }
      return true;
    }

    /** `kvs` is what the ready keys are read to be after this node has put its own. */
    method SignalReady(indexName: string, revision: int, faults: Faults, ghost states: States)
      returns (r: Outcome, ghost kvs: seq<Kv>)
      requires StatesAre(states) && Placement.ManifestsOk(placement.indexManifests)
      modifies etcd
      ensures r == UnknownIndex <==> indexName !in placement.indexManifests
      ensures r != UnknownIndex ==>
                var m := placement.indexManifests[indexName];
                var staged, agreed := AllStagedAt(states, m, m.shards, revision),
                                      Agreed(placement.ring, m, revision, Collected(kvs));
                && (r == PutFailed <==>
                    staged && (faults.readyPut || (agreed && !faults.readyRead && faults.commitPut)))
                && (r == Outcome.ReadFailed <==>
                    staged && !faults.readyPut && faults.readyRead && exists n :: IsOwner(placement.ring, m, n))
      ensures Lists(kvs, ReadyPathPrefix(root, indexName),
                    old(etcd.values)[ReadyPath(root, indexName, nodeId) := Some(revision)])
      ensures var puts := if r == UnknownIndex then [] else
                            SignalPuts(root, placement.ring, placement.indexManifests[indexName], nodeId, revision,
                                       faults, states, Collected(kvs));
        etcd.puts == old(etcd.puts) + puts && etcd.values == Written(old(etcd.values), puts)
    {
      ghost var ready := Kv(ReadyPath(root, indexName, nodeId), Some(revision));
      kvs := SomeListing(ReadyPathPrefix(root, indexName), etcd.values[ready.key := ready.value]);
      if indexName !in placement.indexManifests {
        return UnknownIndex, kvs;
      }
      var staged := LocalShardsStaged(placement.indexManifests[indexName], revision, states);
      if !staged {
        return Done, kvs;
      }
      var ok := etcd.Put(ReadyPath(root, indexName, nodeId), revision, faults.readyPut);
      if !ok {
        return PutFailed, kvs;
      }
      WrittenOnce(old(etcd.values), ready);
      WrittenTwice(old(etcd.values), ready, Kv(CommitPath(root, indexName), Some(revision)));
      WrittenOnce(etcd.values, Kv(CommitPath(root, indexName), Some(revision)));
      r, kvs := CheckAndCommit(indexName, revision, faults);
    }

    /** The middle of checkAndCommit: read the ready keys and compare. */
    method OwnersAgree(m: Manifest, revision: int, owners: set<Node>) returns (agreed: bool, ghost kvs: seq<Kv>)
      requires owners != {} && forall n :: n in owners <==> IsOwner(placement.ring, m, n)
      ensures Lists(kvs, ReadyPathPrefix(root, m.name), etcd.values)
      ensures agreed <==> Agreed(placement.ring, m, revision, Collected(kvs))
    {
      var answer := etcd.GetPrefix(ReadyPathPrefix(root, m.name));
      kvs := answer;
      var readyNodes := CollectReady(answer);
      agreed := AllAt(owners, readyNodes, revision);
      var someone :| someone in owners;
      assert IsOwner(placement.ring, m, someone);
    }

    /** `kvs` is what the ready keys are read to be. */
    method CheckAndCommit(indexName: string, revision: int, faults: Faults) returns (r: Outcome, ghost kvs: seq<Kv>)
      requires Placement.ManifestsOk(placement.indexManifests) && indexName in placement.indexManifests
      modifies etcd
      ensures r != UnknownIndex && Lists(kvs, ReadyPathPrefix(root, indexName), old(etcd.values))
      ensures etcd.puts != old(etcd.puts) ==>
                etcd.puts == old(etcd.puts) + [Kv(CommitPath(root, indexName), Some(revision))]
      ensures r == Outcome.ReadFailed <==>
                faults.readyRead && exists n :: IsOwner(placement.ring, placement.indexManifests[indexName], n)
      ensures var m := placement.indexManifests[indexName];
        var puts := CommitPuts(root, placement.ring, m, revision, faults, Collected(kvs));
        && etcd.puts == old(etcd.puts) + puts && etcd.values == Written(old(etcd.values), puts)
        && (r == PutFailed <==>
            Agreed(placement.ring, m, revision, Collected(kvs)) && !faults.readyRead && faults.commitPut)
    {
      kvs := SomeListing(ReadyPathPrefix(root, indexName), etcd.values);
      var owners := placement.NodesOwningIndex(indexName);
      if owners.None? || owners.value == {} {
        assert forall n :: !IsOwner(placement.ring, placement.indexManifests[indexName], n);
        return Done, kvs;
      }
      ghost var someone :| someone in owners.value;
      assert IsOwner(placement.ring, placement.indexManifests[indexName], someone);
      if faults.readyRead {
        return Outcome.ReadFailed, kvs;
      }
      var agreed;
      agreed, kvs := OwnersAgree(placement.indexManifests[indexName], revision, owners.value);
      if !agreed {
        return Done, kvs;
      }
      WrittenOnce(etcd.values, Kv(CommitPath(root, indexName), Some(revision)));
      var ok := etcd.Put(CommitPath(root, indexName), revision, faults.commitPut);
      return if ok then Done else PutFailed, kvs;
    }

    /** The callback that setClusterReloadCallback installs on the shard stored under `k`. */
    method ReloadCallback(k: string, indexName: string, a: Attempt, faults: Faults, ghost before: States)
      returns (staged: Result<int>, r: Outcome, ghost kvs: seq<Kv>)
      requires Valid() && StatesAre(before) && k in shards && Placement.ManifestsOk(placement.indexManifests)
      modifies shards.Values, etcd
      ensures staged == if old(shards[k].reloading) then Err(AlreadyReloading) else Staging(before[k].revision, a)
      ensures staged.Err? ==> StatesAre(before) && etcd.puts == old(etcd.puts) && etcd.values == old(etcd.values)
      ensures staged.Ok? ==>
                && StatesAre(before[k := Staged(before[k], a)])
                && Lists(kvs, ReadyPathPrefix(root, indexName),
                         old(etcd.values)[ReadyPath(root, indexName, nodeId) := Some(staged.value)])
      ensures staged.Ok? ==>
        var puts := if indexName !in placement.indexManifests then [] else
                      SignalPuts(root, placement.ring, placement.indexManifests[indexName], nodeId, staged.value,
                                 faults, before[k := Staged(before[k], a)], Collected(kvs));
        etcd.puts == old(etcd.puts) + puts && etcd.values == Written(old(etcd.values), puts)
    {
      staged := StageOneShard(k, a, before);
      if staged.Err? {
        return staged, Done, [];
      }
      r, kvs := SignalReady(indexName, staged.value, faults, before[k := Staged(before[k], a)]);
    }

    /** StageReload of one of the objects; the others stay as they are. */
    method StageOneShard(k: string, a: Attempt, ghost before: States) returns (r: Result<int>)
      requires Valid() && StatesAre(before) && k in shards
      modifies shards.Values
      ensures r == if old(shards[k].reloading) then Err(AlreadyReloading) else Staging(before[k].revision, a)
      ensures r.Ok? ==> StatesAre(before[k := Staged(before[k], a)])
      ensures r.Err? ==> StatesAre(before)
    {
      if shards[k].reloading {
        r := StageBusyShard(k, a, before);
      } else {
        r := StageShard(k, a, before);
        assert before[k := before[k]] == before;
      }
    }

    method StageShard(k: string, a: Attempt, ghost before: States) returns (r: Result<int>)
      requires Valid() && StatesAre(before) && k in shards && !shards[k].reloading
      modifies shards.Values
      ensures r == Staging(before[k].revision, a) && StatesAre(before[k := Staged(before[k], a)])
    {
      r := shards[k].StageReload(a);
      forall j | j in shards && j != k ensures shards[j].TheState() == before[j] {
        assert shards[j] != shards[k];
      }
    }

    method StageBusyShard(k: string, a: Attempt, ghost before: States) returns (r: Result<int>)
      requires Valid() && StatesAre(before) && k in shards && shards[k].reloading
      modifies shards.Values
      ensures r == Err(AlreadyReloading) && StatesAre(before)
    {
      r := shards[k].StageReload(a);
      forall j | j in shards && j != k ensures shards[j].TheState() == before[j] {
        assert shards[j] != shards[k];
      }
    }

    /** One round of the loop of commitIndex. */
    method CommitShard(k: string, revision: int, ghost before: States)
      requires Valid() && StatesAre(before)
      modifies shards.Values
      ensures StatesAre(CommitAt(before, k, revision))
    {
      if k in shards {
        var r := shards[k].CommitStaged(revision);
        forall j | j in shards && j != k ensures shards[j].TheState() == before[j] {
          assert shards[j] != shards[k];
        }
      }
    }

    /** The loop of commitIndex. */
    method CommitShards(m: Manifest, revision: int, ghost before: States)
      requires Valid() && ValidManifest(m) && StatesAre(before)
      modifies shards.Values
      ensures StatesAre(CommitAll(before, m, revision))
    {
      var uniqueShards := GenerateUniqueShards(m);
      CommitBelowAll(before, m, revision);
      var i := 0;
      while i < |uniqueShards|
        invariant 0 <= i <= |uniqueShards| == m.shards
        invariant StatesAre(CommitBelow(before, m, i, revision))
      {
        CommitBelowNext(before, m, i, revision);
        CommitShard(UniqueShardKey(uniqueShards[i]), revision, CommitBelow(before, m, i, revision));
        i := i + 1;
      }
    }

    method CommitIndex(indexName: string, revision: int, deleteFails: bool, ghost before: States)
      requires Valid() && StatesAre(before) && Placement.ManifestsOk(placement.indexManifests)
      modifies shards.Values, etcd
      ensures etcd.puts == old(etcd.puts)
      ensures var ms := placement.indexManifests;
        if indexName in ms then
          && StatesAre(CommitAll(before, ms[indexName], revision))
          && etcd.values == if deleteFails then old(etcd.values)
             else old(etcd.values) - {ReadyPath(root, indexName, nodeId)}
        else
          StatesAre(before) && etcd.values == old(etcd.values)
    {
      if indexName !in placement.indexManifests {
        return;
      }
      CommitShards(placement.indexManifests[indexName], revision, before);
      etcd.Delete(ReadyPath(root, indexName, nodeId), deleteFails);
    }

    /** What watchCommits does with one event. */
    method HandleWatchEvent(deletion: bool, kv: Kv, deleteFails: bool, ghost before: States)
      requires Valid() && StatesAre(before) && Placement.ManifestsOk(placement.indexManifests)
      modifies shards.Values, etcd
      ensures etcd.puts == old(etcd.puts)
      ensures StatesAre(HandledStates(root, placement.indexManifests, deletion, kv, before))
      ensures var ms := placement.indexManifests;
        var indexName := ParseIndexName(root, kv.key);
        if !deletion && indexName != "" && kv.value.Some? && indexName in ms then
          && StatesAre(CommitAll(before, ms[indexName], kv.value.value))
          && etcd.values == if deleteFails then old(etcd.values)
             else old(etcd.values) - {ReadyPath(root, indexName, nodeId)}
        else
          StatesAre(before) && etcd.values == old(etcd.values)
    {
      if deletion {
        return;
      }
      var indexName := ParseIndexName(root, kv.key);
      if indexName == "" || kv.value.None? {
        return;
      }
      CommitIndex(indexName, kv.value.value, deleteFails, before);
    }
  }
}
