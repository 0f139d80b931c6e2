/**
 Which shards a node holds: loadIndex, deleteIndex, Rebalance and nodesOwningIndex of
 internal/engine/manager.go.  The maps of the manager are fields that the methods update, as they
 are in the source; the index objects themselves are known by identity.
 */
module Placement {
  import opened Options
  import opened HashRings
  import opened NodeStatuses
  import opened ShardKeys

  /** An index object in the store: its identity and the shard it was created for. */
  datatype Loaded = Loaded(id: nat, shard: Shard)

  type Store = map<string, Loaded>

  /** How a node decides about replica keys: in single mode everything is loaded. */
  datatype View = View(clustered: bool, me: Node, ring: Ring)

  predicate Wants(v: View, s: Shard) {
    v.clustered ==> NeedLoad(v.ring, v.me, ShardKey(s))
  }

  /** The store key of shard `i` of the index named `name`. */
  function Key(name: string, i: int): string {
    UniqueShardKey(Shard(name, i, 0))
  }

  lemma KeyDiffers(n: string, i: int, n': string, i': int)
    requires n != n' || i != i'
    ensures Key(n, i) != Key(n', i')
  {
    if Key(n, i) == Key(n', i') {
      UniqueShardKeyInjective(Shard(n, i, 0), Shard(n', i', 0));
    }
  }

  /** Some replica key of shard `i` hashes to this node. */
  ghost predicate Owned(v: View, m: Manifest, i: int) {
    exists r :: 0 <= r < m.replicas && NeedLoad(v.ring, v.me, ShardKey(Shard(m.name, i, r)))
  }

  /** The first such replica. */
  ghost predicate IsAssigned(v: View, m: Manifest, i: int, s: Shard) {
    && s.indexName == m.name && s.shardId == i && 0 <= s.replicaId < m.replicas
    && NeedLoad(v.ring, v.me, ShardKey(s))
    && forall r :: 0 <= r < s.replicaId ==> !NeedLoad(v.ring, v.me, ShardKey(Shard(m.name, i, r)))
  }

  // ---------- what a rebalance does, on values

  ghost predicate SameAt(a: Store, b: Store, k: string) {
    (k in b <==> k in a) && (k in a ==> b[k] == a[k])
  }

  /** One unique shard: dropped if not owned, kept as it is if owned and there, loaded if owned and missing. */
  ghost predicate Settled(v: View, loads: Shard -> bool, m: Manifest, i: int, before: Store, after: Store, base: nat) {
    var k := Key(m.name, i);
    && (!Owned(v, m, i) ==> k !in after)
    && (Owned(v, m, i) && k in before ==> k in after && after[k] == before[k])
    && (Owned(v, m, i) && k !in before ==>
          exists s ::
            && IsAssigned(v, m, i, s) && (k in after <==> loads(s))
            && (k in after ==> after[k].shard == s && after[k].id >= base))
  }

  /** A load that this run tried and that failed. */
  ghost predicate LoadFailed(v: View, loads: Shard -> bool, m: Manifest, i: int, before: Store) {
    Owned(v, m, i) && Key(m.name, i) !in before && exists s :: IsAssigned(v, m, i, s) && !loads(s)
  }

  type Manifests = map<string, Manifest>

  ghost predicate ManifestsOk(ms: Manifests) {
    forall n :: n in ms ==> ms[n].name == n && ValidManifest(ms[n])
  }

  /** A shard of a manifest this node knows. */
  predicate Known(ms: Manifests, n: string, i: int) {
    n in ms && 0 <= i < ms[n].shards
  }

  /** The store after the indexes named in `done` have been rebalanced: their shards are settled,
      everything else is as before. */
  ghost predicate StoreSettled(v: View, loads: Shard -> bool, ms: Manifests, done: set<string>, before: Store,
                               after: Store, base: nat) {
    && (forall n, i {:trigger Key(n, i)} :: n in done && Known(ms, n, i) ==>
        Settled(v, loads, ms[n], i, before, after, base))
    && (forall k :: (forall n, i :: n in done && Known(ms, n, i) ==> k != Key(n, i)) ==> SameAt(before, after, k))
  }

  /** The pending records after that: those kept, and replica 0 of every load that failed. */
  ghost predicate PendingSettled(v: View, loads: Shard -> bool, ms: Manifests, done: set<string>, before: Store,
                                 kept: set<Shard>, now: set<Shard>) {
    forall s :: s in now <==>
                  || s in kept
                  || (s.replicaId == 0 && s.indexName in done && Known(ms, s.indexName, s.shardId)
                      && LoadFailed(v, loads, ms[s.indexName], s.shardId, before))
  }

  /** The records whose own replica key still hashes to this node. */
  function StillOwned(v: View, pending: set<Shard>): set<Shard> {
    set s | s in pending && NeedLoad(v.ring, v.me, ShardKey(s))
  }

  /** The whole effect of a rebalance. */
  ghost predicate Rebalanced(v: View, loads: Shard -> bool, ms: Manifests, before: Store, after: Store,
                             pendingBefore: set<Shard>, pendingAfter: set<Shard>, base: nat) {
    && StoreSettled(v, loads, ms, ms.Keys, before, after, base)
    && PendingSettled(v, loads, ms, ms.Keys, before, StillOwned(v, pendingBefore), pendingAfter)
  }

  /** Shards of `m` below `upto` are settled, everything else in the store is as before. */
  ghost predicate IndexSettled(v: View, loads: Shard -> bool, m: Manifest, upto: int, before: Store, after: Store,
                               base: nat) {
    && (forall i {:trigger Key(m.name, i)} :: 0 <= i < upto ==> Settled(v, loads, m, i, before, after, base))
    && (forall k :: (forall i :: 0 <= i < upto ==> k != Key(m.name, i)) ==> SameAt(before, after, k))
  }

  ghost predicate IndexPending(v: View, loads: Shard -> bool, m: Manifest, upto: int, before: Store, was: set<Shard>,
                               now: set<Shard>) {
    forall s :: s in now <==>
                  || s in was
                  || (s.replicaId == 0 && s.indexName == m.name && 0 <= s.shardId < upto
                      && LoadFailed(v, loads, m, s.shardId, before))
  }

  ghost predicate SameExcept(a: Store, b: Store, key: string) {
    forall k :: k != key ==> SameAt(a, b, k)
  }

  /** Settling depends on the two stores at the shard's own key only. */
  lemma SettledAt(v: View, loads: Shard -> bool, m: Manifest, i: int, before: Store, after: Store, base: nat,
                  before': Store, after': Store, base': nat)
    requires Settled(v, loads, m, i, before, after, base) && base' <= base
    requires SameAt(before, before', Key(m.name, i)) && SameAt(after, after', Key(m.name, i))
    ensures Settled(v, loads, m, i, before', after', base')
  {
    var k := Key(m.name, i);
    if Owned(v, m, i) && k !in before {
      var s :| IsAssigned(v, m, i, s) && (k in after <==> loads(s))
          && (k in after ==> after[k].shard == s && after[k].id >= base);
      assert IsAssigned(v, m, i, s) && (k in after' <==> loads(s))
          && (k in after' ==> after'[k].shard == s && after'[k].id >= base');
    }
  }

  lemma SettleNext(v: View, loads: Shard -> bool, m: Manifest, i: nat, before: Store, mid: Store, after: Store,
                   base: nat, base': nat)
    requires IndexSettled(v, loads, m, i, before, mid, base) && base <= base'
    requires Settled(v, loads, m, i, mid, after, base') && SameExcept(mid, after, Key(m.name, i))
    ensures IndexSettled(v, loads, m, i + 1, before, after, base)
    ensures LoadFailed(v, loads, m, i, mid) <==> LoadFailed(v, loads, m, i, before)
  {
    forall j | 0 <= j < i ensures Key(m.name, i) != Key(m.name, j) { KeyDiffers(m.name, i, m.name, j); }
    assert SameAt(before, mid, Key(m.name, i));
    forall j | 0 <= j < i + 1 ensures Settled(v, loads, m, j, before, after, base) {
      if j == i {
        SettledAt(v, loads, m, i, mid, after, base', before, after, base);
      } else {
        assert SameAt(mid, after, Key(m.name, j));
        SettledAt(v, loads, m, j, before, mid, base, before, after, base);
      }
    }
    forall k | forall j :: 0 <= j < i + 1 ==> k != Key(m.name, j) ensures SameAt(before, after, k) {
      assert k != Key(m.name, i) && SameAt(before, mid, k) && SameAt(mid, after, k);
    }
  }

  lemma RecordNext(v: View, loads: Shard -> bool, m: Manifest, i: nat, before: Store, mid: Store, was: set<Shard>,
                   now: set<Shard>, next: set<Shard>)
    requires IndexPending(v, loads, m, i, before, was, now)
    requires LoadFailed(v, loads, m, i, mid) <==> LoadFailed(v, loads, m, i, before)
    requires next == now + (if LoadFailed(v, loads, m, i, mid) then {Shard(m.name, i, 0)} else {})
    ensures IndexPending(v, loads, m, i + 1, before, was, next)
  {
    forall s ensures s in next <==>
                       || s in was
                       || (s.replicaId == 0 && s.indexName == m.name && 0 <= s.shardId < i + 1
                           && LoadFailed(v, loads, m, s.shardId, before))
    {
      assert s == Shard(s.indexName, s.shardId, s.replicaId);
    }
  }

  lemma UntouchedBy(v: View, loads: Shard -> bool, ms: Manifests, done: set<string>, before: Store, mid: Store,
                    base: nat, name: string, i: int)
    requires StoreSettled(v, loads, ms, done, before, mid, base) && name !in done
    ensures SameAt(mid, before, Key(name, i))
  {
    forall n, j | n in done && Known(ms, n, j) ensures Key(name, i) != Key(n, j) { KeyDiffers(name, i, n, j); }
    assert SameAt(before, mid, Key(name, i));
  }

  /** Rebalancing one more index leaves the shards of the others alone. */
  lemma OthersStaySettled(v: View, loads: Shard -> bool, ms: Manifests, done: set<string>, name: string,
                          before: Store, mid: Store, after: Store, base: nat, base': nat, n: string, i: int)
    requires ManifestsOk(ms) && name in ms && name !in done && n in done && Known(ms, n, i)
    requires StoreSettled(v, loads, ms, done, before, mid, base)
    requires IndexSettled(v, loads, ms[name], ms[name].shards, mid, after, base')
    ensures Settled(v, loads, ms[n], i, before, after, base)
  {
    assert ms[n].name == n && ms[name].name == name;
    forall j | 0 <= j < ms[name].shards ensures Key(n, i) != Key(ms[name].name, j) { KeyDiffers(n, i, name, j); }
    assert SameAt(mid, after, Key(n, i));
    SettledAt(v, loads, ms[n], i, before, mid, base, before, after, base);
  }

  lemma SettleIndex(v: View, loads: Shard -> bool, ms: Manifests, done: set<string>, name: string,
                    before: Store, mid: Store, after: Store, base: nat, base': nat)
    requires ManifestsOk(ms) && name in ms && name !in done && base <= base'
    requires StoreSettled(v, loads, ms, done, before, mid, base)
    requires IndexSettled(v, loads, ms[name], ms[name].shards, mid, after, base')
    ensures StoreSettled(v, loads, ms, done + {name}, before, after, base)
    ensures forall i :: 0 <= i < ms[name].shards ==>
                          (LoadFailed(v, loads, ms[name], i, mid) <==> LoadFailed(v, loads, ms[name], i, before))
  {
    assert ms[name].name == name;
    forall i | 0 <= i < ms[name].shards
      ensures SameAt(mid, before, Key(name, i)) && Settled(v, loads, ms[name], i, before, after, base)
    {
      UntouchedBy(v, loads, ms, done, before, mid, base, name, i);
      SettledAt(v, loads, ms[name], i, mid, after, base', before, after, base);
    }
    forall n, i | n in done + {name} && Known(ms, n, i) ensures Settled(v, loads, ms[n], i, before, after, base) {
      if n != name { OthersStaySettled(v, loads, ms, done, name, before, mid, after, base, base', n, i); }
    }
    RestUntouched(v, loads, ms, done, name, before, mid, after, base, base');
  }

  lemma RestUntouched(v: View, loads: Shard -> bool, ms: Manifests, done: set<string>, name: string,
                      before: Store, mid: Store, after: Store, base: nat, base': nat)
    requires ManifestsOk(ms) && name in ms
    requires StoreSettled(v, loads, ms, done, before, mid, base)
    requires IndexSettled(v, loads, ms[name], ms[name].shards, mid, after, base')
    ensures forall k :: (forall n, i :: n in done + {name} && Known(ms, n, i) ==> k != Key(n, i)) ==>
              SameAt(before, after, k)
  {
    assert ms[name].name == name;
    forall k | forall n, i :: n in done + {name} && Known(ms, n, i) ==> k != Key(n, i)
          ensures SameAt(before, after, k) {
      forall i | 0 <= i < ms[name].shards ensures k != Key(ms[name].name, i) {
        assert Known(ms, name, i);
      }
      assert SameAt(before, mid, k) && SameAt(mid, after, k);
    }
  }

  // ---------- what loading an index does, on values

  /** The `p`-th replica key is one of store key `k`, is wanted here, and its load succeeds. */
  ghost predicate Hit(v: View, loads: Shard -> bool, shards: seq<Shard>, k: string, p: int) {
    0 <= p < |shards| && UniqueShardKey(shards[p]) == k && Wants(v, shards[p]) && loads(shards[p])
  }

  ghost predicate IsFirstHit(v: View, loads: Shard -> bool, shards: seq<Shard>, k: string, p: int) {
    Hit(v, loads, shards, k, p) && forall q :: q < p ==> !Hit(v, loads, shards, k, q)
  }

  /** After the first `upto` replica keys: what was there stays, and a missing shard is there if and
      only if some replica key hit; it was created for the first one that did. */
  ghost predicate KeysLoaded(v: View, loads: Shard -> bool, shards: seq<Shard>, upto: int, before: Store, after: Store,
                             base: nat) {
    && (forall k :: k in before ==> SameAt(before, after, k))
    && (forall k :: k in after && k !in before ==>
                      && after[k].id >= base
                      && exists p :: p < upto && IsFirstHit(v, loads, shards, k, p) && after[k].shard == shards[p])
    && (forall k, p :: p < upto && Hit(v, loads, shards, k, p) ==> k in after)
  }

  /** A load that was tried, because nothing had been loaded for this shard before, and failed. */
  ghost predicate Missed(v: View, loads: Shard -> bool, shards: seq<Shard>, before: Store, p: int) {
    && 0 <= p < |shards| && UniqueShardKey(shards[p]) !in before && Wants(v, shards[p]) && !loads(shards[p])
    && forall q :: q < p ==> !Hit(v, loads, shards, UniqueShardKey(shards[p]), q)
  }

  ghost predicate MissesPending(v: View, loads: Shard -> bool, shards: seq<Shard>, upto: int, before: Store,
                                was: set<Shard>, now: set<Shard>) {
    && was <= now
    && (forall s :: s in now && s !in was ==>
        exists p :: p < upto && Missed(v, loads, shards, before, p) && shards[p] == s)
    && (forall p :: p < upto && Missed(v, loads, shards, before, p) ==> shards[p] in now)
  }

  /** The loads that were tried and failed among the first `upto`, by position. */
  ghost function MissedBelow(v: View, loads: Shard -> bool, shards: seq<Shard>, before: Store, upto: nat): set<int> {
    set p | 0 <= p < upto && Missed(v, loads, shards, before, p)
  }

  lemma MissedBelowNext(v: View, loads: Shard -> bool, shards: seq<Shard>, before: Store, j: nat)
    ensures |MissedBelow(v, loads, shards, before, j + 1)|
         == |MissedBelow(v, loads, shards, before, j)| + (if Missed(v, loads, shards, before, j) then 1 else 0)
  {
    var now := MissedBelow(v, loads, shards, before, j);
    assert MissedBelow(v, loads, shards, before, j + 1)
        == if Missed(v, loads, shards, before, j) then now + {j} else now;
  }

  function StoreWith(v: View, loads: Shard -> bool, s: Shard, store: Store, id: nat): Store {
    if UniqueShardKey(s) !in store && Wants(v, s) && loads(s) then store[UniqueShardKey(s) := Loaded(id, s)] else store
  }

  function PendingWith(v: View, loads: Shard -> bool, s: Shard, store: Store, pending: set<Shard>): set<Shard> {
    if UniqueShardKey(s) !in store && Wants(v, s) && !loads(s) then pending + {s} else pending
  }

  lemma LoadedNext(v: View, loads: Shard -> bool, shards: seq<Shard>, j: nat, before: Store, mid: Store, base: nat,
                   id: nat)
    requires j < |shards| && KeysLoaded(v, loads, shards, j, before, mid, base) && base <= id
    ensures KeysLoaded(v, loads, shards, j + 1, before, StoreWith(v, loads, shards[j], mid, id), base)
  {
    var after := StoreWith(v, loads, shards[j], mid, id);
    forall k | k in after && k !in before
      ensures after[k].id >= base
      ensures exists p :: p < j + 1 && IsFirstHit(v, loads, shards, k, p) && after[k].shard == shards[p]
    {
      AddedNext(v, loads, shards, j, before, mid, base, id, k);
    }
    forall k | k in before ensures SameAt(before, after, k) {
      assert SameAt(before, mid, k);
    }
    forall k, p | p < j + 1 && Hit(v, loads, shards, k, p) ensures k in after {
      if p < j { assert k in mid; }
    }
  }

  lemma AddedNext(v: View, loads: Shard -> bool, shards: seq<Shard>, j: nat, before: Store, mid: Store, base: nat,
                  id: nat, k: string)
    requires j < |shards| && KeysLoaded(v, loads, shards, j, before, mid, base) && base <= id
    requires k in StoreWith(v, loads, shards[j], mid, id) && k !in before
    ensures var after := StoreWith(v, loads, shards[j], mid, id);
      after[k].id >= base && exists p :: p < j + 1 && IsFirstHit(v, loads, shards, k, p) && after[k].shard == shards[p]
  {
    var after := StoreWith(v, loads, shards[j], mid, id);
    if k in mid {
      var p :| p < j && IsFirstHit(v, loads, shards, k, p) && mid[k].shard == shards[p];
      assert after[k] == mid[k];
    } else {
      assert k == UniqueShardKey(shards[j]) && IsFirstHit(v, loads, shards, k, j);
    }
  }

  lemma PendingNext(v: View, loads: Shard -> bool, shards: seq<Shard>, j: nat, before: Store, mid: Store, base: nat,
                    was: set<Shard>, now: set<Shard>, next: set<Shard>)
    requires j < |shards| && KeysLoaded(v, loads, shards, j, before, mid, base)
    requires MissesPending(v, loads, shards, j, before, was, now) && next == PendingWith(v, loads, shards[j], mid, now)
    ensures MissesPending(v, loads, shards, j + 1, before, was, next)
  {
    MissedIff(v, loads, shards, j, before, mid, base);
    forall s | s in next && s !in was
          ensures exists p :: p < j + 1 && Missed(v, loads, shards, before, p) && shards[p] == s {
      if s in now {
        var p :| p < j && Missed(v, loads, shards, before, p) && shards[p] == s;
      } else {
        assert s == shards[j] && Missed(v, loads, shards, before, j);
      }
    }
  }

  /** Whether the `j`-th load is tried and fails shows in the store before it. */
  lemma MissedIff(v: View, loads: Shard -> bool, shards: seq<Shard>, j: nat, before: Store, mid: Store, base: nat)
    requires j < |shards| && KeysLoaded(v, loads, shards, j, before, mid, base)
    ensures Missed(v, loads, shards, before, j) <==>
              UniqueShardKey(shards[j]) !in mid && Wants(v, shards[j]) && !loads(shards[j])
  {
    var key := UniqueShardKey(shards[j]);
    assert key in before ==> SameAt(before, mid, key);
    if key in mid && key !in before {
      var p :| p < j && IsFirstHit(v, loads, shards, key, p) && mid[key].shard == shards[p];
    }
  }

  /** Each success has added a shard to the store, and the other loads that were tried are the missed ones. */
  ghost predicate Counted(v: View, loads: Shard -> bool, shards: seq<Shard>, upto: nat, before: Store, now: Store,
                          total: int, success: int) {
    && success == |now.Keys| - |before.Keys|
    && total == success + |MissedBelow(v, loads, shards, before, upto)|
  }

  lemma CountedNext(v: View, loads: Shard -> bool, shards: seq<Shard>, j: nat, before: Store, mid: Store, base: nat,
                    id: nat, total: int, success: int)
    requires j < |shards| && KeysLoaded(v, loads, shards, j, before, mid, base)
    requires Counted(v, loads, shards, j, before, mid, total, success)
    ensures var tried := UniqueShardKey(shards[j]) !in mid && Wants(v, shards[j]);
      Counted(v, loads, shards, j + 1, before, StoreWith(v, loads, shards[j], mid, id),
              total + (if tried then 1 else 0), success + (if tried && loads(shards[j]) then 1 else 0))
  {
    MissedIff(v, loads, shards, j, before, mid, base);
    MissedBelowNext(v, loads, shards, before, j);
    var key := UniqueShardKey(shards[j]);
    assert key !in mid ==> mid[key := Loaded(id, shards[j])].Keys == mid.Keys + {key};
  }

  /** Without misses there are no new records. */
  lemma NoMisses(v: View, loads: Shard -> bool, shards: seq<Shard>, before: Store, was: set<Shard>, now: set<Shard>)
    requires MissesPending(v, loads, shards, |shards|, before, was, now)
    ensures |MissedBelow(v, loads, shards, before, |shards|)| == 0 ==> now == was
  {
    var missed := MissedBelow(v, loads, shards, before, |shards|);
    if s :| s in now && s !in was {
      var p :| p < |shards| && Missed(v, loads, shards, before, p) && shards[p] == s;
      assert p in missed;
    }
  }

  class IndexManager {
    var engineStore: Store
    var indexManifests: Manifests
    var pendingShards: set<Shard>
    var status: NodeStatus
    var nextId: nat
    const me: Node
    const clustered: bool
    var ring: Ring

    constructor (me: Node, clustered: bool, ring: Ring)
      ensures engineStore == map[] && indexManifests == map[] && pendingShards == {} && status == Start
      ensures this.me == me && this.clustered == clustered && this.ring == ring
    {
      engineStore, indexManifests, pendingShards, status, nextId := map[], map[], {}, Start, 0;
      this.me, this.clustered, this.ring := me, clustered, ring;
    }

    function TheView(): View
      reads this
    {
      View(clustered, me, ring)
    }

    method MarkShardPending(s: Shard)
      modifies this`pendingShards, this`status
      ensures pendingShards == old(pendingShards) + {s}
      ensures Routable(old(status)) ==> Routable(status)
      ensures status == if old(status) == Healthy then Unhealthy else old(status)
    {
      pendingShards := pendingShards + {s};
      if status == Healthy {
        status := Unhealthy;
      }
    }

    method UnmarkShardPending(s: Shard)
      modifies this`pendingShards, this`status
      ensures pendingShards == old(pendingShards) - {s}
      ensures Routable(old(status)) ==> Routable(status)
      ensures status == if s in old(pendingShards) && pendingShards == {} && old(status) == Unhealthy then Healthy
              else old(status)
    {
      if s in pendingShards {
        pendingShards := pendingShards - {s};
        if pendingShards == {} && status == Unhealthy {
          status := Healthy;
        }
      }
    }

    /** NewIndex: an object nobody else has, or an error. */
    method NewIndex(s: Shard, loads: Shard -> bool) returns (index: Option<Loaded>)
      modifies this`nextId
      ensures index == (if loads(s) then Some(Loaded(old(nextId), s)) else None) && nextId >= old(nextId)
    {
      if loads(s) {
        index := Some(Loaded(nextId, s));
        nextId := nextId + 1;
      } else {
        index := None;
      }
    }

    /** The loop over the replicas of one unique shard. */
    method AssignedReplica(m: Manifest, i: int) returns (chosen: Option<Shard>)
      requires 0 <= m.replicas
      ensures chosen.None? <==> !Owned(TheView(), m, i)
      ensures chosen.Some? ==> IsAssigned(TheView(), m, i, chosen.value)
    {
      var replicaId := 0;
      while replicaId < m.replicas
        invariant 0 <= replicaId <= m.replicas
        invariant forall r :: 0 <= r < replicaId ==> !NeedLoad(ring, me, ShardKey(Shard(m.name, i, r)))
      {
        var candidate := Shard(m.name, i, replicaId);
        if NeedLoad(ring, me, ShardKey(candidate)) {
          return Some(candidate);
        }
        replicaId := replicaId + 1;
      }
      return None;
    }

    /** One round of the load loop of Rebalance. */
    method RebalanceShard(m: Manifest, i: int, loads: Shard -> bool)
      requires 0 <= m.replicas && status == Rebalancing
      modifies this`engineStore, this`pendingShards, this`nextId, this`status
      ensures Settled(TheView(), loads, m, i, old(engineStore), engineStore, old(nextId)) && nextId >= old(nextId)
      ensures SameExcept(old(engineStore), engineStore, Key(m.name, i))
      ensures pendingShards
           == old(pendingShards)
             + (if LoadFailed(TheView(), loads, m, i, old(engineStore)) then {Shard(m.name, i, 0)} else {})
      ensures status == Rebalancing
    {
      var k := Key(m.name, i);
      var loaded := k in engineStore;
      var chosen := AssignedReplica(m, i);
      if chosen.Some? && !loaded {
        var index := NewIndex(chosen.value, loads);
        if index.None? {
          MarkShardPending(Shard(m.name, i, 0));
        } else {
          AssignedIsUnique(TheView(), m, i, chosen.value);
          engineStore := engineStore[k := index.value];
        }
      }
      if chosen.None? && loaded {
        engineStore := engineStore - {k};
      }
    }

    /** The load loop of Rebalance for one manifest. */
    method RebalanceIndex(m: Manifest, loads: Shard -> bool)
      requires ValidManifest(m) && status == Rebalancing
      modifies this`engineStore, this`pendingShards, this`nextId, this`status
      ensures IndexSettled(TheView(), loads, m, m.shards, old(engineStore), engineStore, old(nextId))
              && nextId >= old(nextId)
      ensures IndexPending(TheView(), loads, m, m.shards, old(engineStore), old(pendingShards), pendingShards)
      ensures status == Rebalancing && Routable(status)
    {
      var uniqueShards := GenerateUniqueShards(m);
      var i := 0;
      while i < |uniqueShards|
        invariant 0 <= i <= m.shards == |uniqueShards| && status == Rebalancing && nextId >= old(nextId)
        invariant IndexSettled(TheView(), loads, m, i, old(engineStore), engineStore, old(nextId))
        invariant IndexPending(TheView(), loads, m, i, old(engineStore), old(pendingShards), pendingShards)
      {
        ghost var mid, base, now := engineStore, nextId, pendingShards;
        RebalanceShard(m, uniqueShards[i].shardId, loads);
        SettleNext(TheView(), loads, m, i, old(engineStore), mid, engineStore, old(nextId), base);
        RecordNext(TheView(), loads, m, i, old(engineStore), mid, old(pendingShards), now, pendingShards);
        i := i + 1;
      }
    }

    /** The first loop of Rebalance: forget records that hash elsewhere now. */
    method ClearPending()
      requires status == Rebalancing
      modifies this`pendingShards, this`status
      ensures pendingShards == StillOwned(TheView(), old(pendingShards)) && status == Rebalancing
    {
      var todo := pendingShards;
      while todo != {}
        invariant status == Rebalancing && todo <= pendingShards
        invariant forall s :: s in pendingShards <==>
                    s in old(pendingShards) && (s in todo || NeedLoad(ring, me, ShardKey(s)))
        decreases todo
      {
        var s :| s in todo;
        todo := todo - {s};
        if !NeedLoad(ring, me, ShardKey(s)) {
          UnmarkShardPending(s);
        }
      }
    }

    /** Rebalance: for any store, any pending records and any pattern of load failures. */
    method Rebalance(loads: Shard -> bool)
      requires ManifestsOk(indexManifests)
      modifies this`engineStore, this`pendingShards, this`nextId, this`status
      ensures Rebalanced(TheView(), loads, indexManifests, old(engineStore), engineStore,
                         old(pendingShards), pendingShards, old(nextId))
      ensures status == (if pendingShards == {} then Healthy else Unhealthy) && Routable(status)
    {
      status := Rebalancing;
      ClearPending();
      ghost var kept := pendingShards;
      ghost var done: set<string> := {};
      var todo := indexManifests.Keys;
      while todo != {}
        invariant todo + done == indexManifests.Keys && todo !! done
        invariant status == Rebalancing && Routable(status) && nextId >= old(nextId)
        invariant StoreSettled(TheView(), loads, indexManifests, done, old(engineStore), engineStore, old(nextId))
        invariant PendingSettled(TheView(), loads, indexManifests, done, old(engineStore), kept, pendingShards)
        decreases todo
      {
        var name :| name in todo;
        todo := todo - {name};
        ghost var mid, base := engineStore, nextId;
        RebalanceIndex(indexManifests[name], loads);
        SettleIndex(TheView(), loads, indexManifests, done, name, old(engineStore), mid, engineStore, old(nextId),
                    base);
        done := done + {name};
      }
      assert done == indexManifests.Keys;
      status := if pendingShards == {} then Healthy else Unhealthy;
    }

    /** One round of the loop of loadIndex. */
    method LoadShard(s: Shard, loads: Shard -> bool) returns (tried: bool, loaded: bool)
      modifies this`engineStore, this`pendingShards, this`nextId, this`status
      ensures engineStore == StoreWith(TheView(), loads, s, old(engineStore), old(nextId)) && nextId >= old(nextId)
      ensures pendingShards == PendingWith(TheView(), loads, s, old(engineStore), old(pendingShards))
      ensures tried <==> UniqueShardKey(s) !in old(engineStore) && Wants(TheView(), s)
      ensures loaded <==> tried && loads(s)
      ensures status == if tried && !loaded && old(status) == Healthy then Unhealthy else old(status)
    {
      var k := UniqueShardKey(s);
      tried, loaded := false, false;
      if k in engineStore {
        return;
      }
      if clustered && !NeedLoad(ring, me, ShardKey(s)) {
        return;
      }
      tried := true;
      var index := NewIndex(s, loads);
      if index.None? {
        MarkShardPending(s);
      } else {
        engineStore := engineStore[k := index.value];
        loaded := true;
      }
    }

    /** One round of the loop of loadIndex with its counts. */
    method LoadNext(shards: seq<Shard>, j: nat, loads: Shard -> bool, total: nat, success: nat,
                    ghost before: Store, ghost base: nat, ghost was: set<Shard>) returns (total': nat, success': nat)
      requires j < |shards| && base <= nextId
      requires KeysLoaded(TheView(), loads, shards, j, before, engineStore, base)
      requires MissesPending(TheView(), loads, shards, j, before, was, pendingShards)
      requires Counted(TheView(), loads, shards, j, before, engineStore, total, success)
      modifies this`engineStore, this`pendingShards, this`nextId, this`status
      ensures base <= nextId
      ensures KeysLoaded(TheView(), loads, shards, j + 1, before, engineStore, base)
      ensures MissesPending(TheView(), loads, shards, j + 1, before, was, pendingShards)
      ensures Counted(TheView(), loads, shards, j + 1, before, engineStore, total', success')
      ensures total' - success' >= total - success
      ensures status == if total' - success' > total - success && old(status) == Healthy then Unhealthy else old(status)
    {
      LoadedNext(TheView(), loads, shards, j, before, engineStore, base, nextId);
      CountedNext(TheView(), loads, shards, j, before, engineStore, base, nextId, total, success);
      ghost var mid, now := engineStore, pendingShards;
      var tried, loaded := LoadShard(shards[j], loads);
      PendingNext(TheView(), loads, shards, j, before, mid, base, was, now, pendingShards);
      total' := total + if tried then 1 else 0;
      success' := success + if loaded then 1 else 0;
    }

    /** loadIndex: go through all replica keys and load every shard that is wanted here once. */
    method LoadIndex(m: Manifest, loads: Shard -> bool) returns (totalShard: nat, successShard: nat)
      requires ValidManifest(m)
      modifies this`engineStore, this`pendingShards, this`nextId, this`status, this`indexManifests
      ensures var shards := Rows(m, m.shards);
        && KeysLoaded(TheView(), loads, shards, |shards|, old(engineStore), engineStore, old(nextId))
        && MissesPending(TheView(), loads, shards, |shards|, old(engineStore), old(pendingShards), pendingShards)
        && Counted(TheView(), loads, shards, |shards|, old(engineStore), engineStore, totalShard, successShard)
      ensures indexManifests == old(indexManifests)[m.name := m]
      ensures status == if successShard < totalShard && old(status) == Healthy then Unhealthy else old(status)
      ensures Routable(old(status)) ==> Routable(status)
      ensures successShard <= totalShard && (successShard == totalShard ==> pendingShards == old(pendingShards))
    {
      var shards := GenerateShards(m);
      totalShard, successShard := 0, 0;
      var j := 0;
      while j < |shards|
        invariant 0 <= j <= |shards| && nextId >= old(nextId)
        invariant KeysLoaded(TheView(), loads, shards, j, old(engineStore), engineStore, old(nextId))
        invariant MissesPending(TheView(), loads, shards, j, old(engineStore), old(pendingShards), pendingShards)
        invariant Counted(TheView(), loads, shards, j, old(engineStore), engineStore, totalShard, successShard)
        invariant indexManifests == old(indexManifests) && successShard <= totalShard
        invariant status == if successShard < totalShard && old(status) == Healthy then Unhealthy else old(status)
      {
        totalShard, successShard := LoadNext(shards, j, loads, totalShard, successShard, old(engineStore), old(nextId),
                                             old(pendingShards));
        j := j + 1;
      }
      NoMisses(TheView(), loads, shards, old(engineStore), old(pendingShards), pendingShards);
      indexManifests := indexManifests[m.name := m];
    }

    /** deleteIndex: drop the manifest and all its shards; pending records stay. */
    method DeleteIndex(name: string)
      requires ManifestsOk(indexManifests)
      modifies this`engineStore, this`indexManifests
      ensures indexManifests == old(indexManifests) - {name}
      ensures engineStore == if name in old(indexManifests)
              then old(engineStore) - KeysBelow(name, old(indexManifests)[name].shards) else old(engineStore)
    {
      if name !in indexManifests {
        assert indexManifests == indexManifests - {name};
        return;
      }
      var m := indexManifests[name];
      indexManifests := indexManifests - {name};
      var shards := GenerateUniqueShards(m);
      var i := 0;
      while i < |shards|
        invariant 0 <= i <= |shards| == m.shards && engineStore == old(engineStore) - KeysBelow(name, i)
        invariant indexManifests == old(indexManifests) - {name}
      {
        assert KeysBelow(name, i + 1) == KeysBelow(name, i) + {Key(name, i)};
        engineStore := engineStore - {UniqueShardKey(shards[i])};
        i := i + 1;
      }
    }

    /** nodesOwningIndex: the owners of all replica keys; nil for an unknown index. */
    method NodesOwningIndex(name: string) returns (owners: Option<set<Node>>)
      requires ManifestsOk(indexManifests)
      ensures owners.None? <==> name !in indexManifests
      ensures owners.Some? ==> forall n :: n in owners.value <==> n != "" && Owns(ring, indexManifests[name], n)
    {
      if name !in indexManifests {
        return None;
      }
      var m := indexManifests[name];
      var shards := GenerateShards(m);
      var nodes: set<Node> := {};
      var j := 0;
      while j < |shards|
        invariant 0 <= j <= |shards| && nodes == OwnerSet(ring, shards[..j])
      {
        OwnerSetNext(ring, shards, j);
        var nodeId := GetOwnerNode(ring, ShardKey(shards[j]));
        if nodeId != "" {
          nodes := nodes + {nodeId};
        }
        j := j + 1;
      }
      assert shards[..j] == shards;
      OwnersAreNodes(ring, m, shards);
      return Some(nodes);
    }
  }

  /** The node owns some replica key of the index. */
  ghost predicate Owns(ring: Ring, m: Manifest, n: Node) {
    exists s :: IsShardOf(m, s) && GetOwnerNode(ring, ShardKey(s)) == n
  }

  function OwnerSet(ring: Ring, shards: seq<Shard>): set<Node> {
    if shards == [] then {}
    else
      var node := GetOwnerNode(ring, ShardKey(shards[|shards| - 1]));
      OwnerSet(ring, shards[..|shards| - 1]) + (if node != "" then {node} else {})
  }

  lemma OwnerSetNext(ring: Ring, shards: seq<Shard>, j: nat)
    requires j < |shards|
    ensures var node := GetOwnerNode(ring, ShardKey(shards[j]));
      OwnerSet(ring, shards[..j + 1]) == OwnerSet(ring, shards[..j]) + (if node != "" then {node} else {})
  {
    assert shards[..j + 1][..j] == shards[..j];
  }

  lemma {:induction false} OwnerSetMembers(ring: Ring, shards: seq<Shard>, n: Node)
    ensures n in OwnerSet(ring, shards) <==> n != "" && exists s :: s in shards && GetOwnerNode(ring, ShardKey(s)) == n
  {
    if shards != [] {
      var front, last := shards[..|shards| - 1], shards[|shards| - 1];
      OwnerSetMembers(ring, front, n);
      assert forall s :: s in shards <==> s in front || s == last;
    }
  }

  lemma OwnersAreNodes(ring: Ring, m: Manifest, shards: seq<Shard>)
    requires forall s :: s in shards <==> IsShardOf(m, s)
    ensures forall n :: n in OwnerSet(ring, shards) <==> n != "" && Owns(ring, m, n)
  {
    forall n ensures n in OwnerSet(ring, shards) <==> n != "" && Owns(ring, m, n) {
      OwnerSetMembers(ring, shards, n);
    }
  }

  /** The store keys of the first `upto` shards of an index. */
  function KeysBelow(name: string, upto: int): set<string> {
    set i | 0 <= i < upto :: Key(name, i)
  }

  lemma AssignedIsUnique(v: View, m: Manifest, i: int, s: Shard)
    requires IsAssigned(v, m, i, s)
    ensures forall t :: IsAssigned(v, m, i, t) ==> t == s
  {
    forall t | IsAssigned(v, m, i, t) ensures t == s {
      assert t == Shard(m.name, i, t.replicaId) && s == Shard(m.name, i, s.replicaId);
    }
  }
}
