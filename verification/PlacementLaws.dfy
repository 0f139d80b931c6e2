/**
 What rebalancing achieves: exactness on one node, agreement with loadIndex, fixed points, undoing
 by deleteIndex, and coverage of all shards by the nodes of a common ring.
 */
module PlacementLaws {
  import opened Options
  import opened Orders
  import opened HashRings
  import opened ShardKeys
  import opened Placement

  /** The store holds exactly the owned shards of the known manifests. */
  ghost predicate HoldsOwned(v: View, ms: Manifests, store: Store) {
    forall n, i {:trigger Key(n, i)} :: Known(ms, n, i) ==> (Key(n, i) in store <==> Owned(v, ms[n], i))
  }

  /** After a rebalance no unowned shard is left, owned shards kept their objects, with whatever
      they have staged, and every owned shard that is missing has a pending record. */
  lemma RebalanceIsExact(v: View, loads: Shard -> bool, ms: Manifests, before: Store, after: Store,
                         was: set<Shard>, now: set<Shard>, base: nat, n: string, i: int)
    requires Rebalanced(v, loads, ms, before, after, was, now, base) && Known(ms, n, i) && ms[n].name == n
    ensures Key(n, i) in after ==> Owned(v, ms[n], i)
    ensures Owned(v, ms[n], i) && Key(n, i) in before ==> Key(n, i) in after && after[Key(n, i)] == before[Key(n, i)]
    ensures Owned(v, ms[n], i) && Key(n, i) !in after ==> Shard(n, i, 0) in now
    ensures Key(n, i) in after && Key(n, i) !in before ==>
              after[Key(n, i)].id >= base && IsAssigned(v, ms[n], i, after[Key(n, i)].shard)
  {
    assert Settled(v, loads, ms[n], i, before, after, base);
    if Owned(v, ms[n], i) && Key(n, i) !in before {
      var s :| IsAssigned(v, ms[n], i, s) && (Key(n, i) in after <==> loads(s))
          && (Key(n, i) in after ==> after[Key(n, i)].shard == s);
      var record := Shard(n, i, 0);
      assert !loads(s) ==> LoadFailed(v, loads, ms[record.indexName], record.shardId, before);
    }
  }

  /** A node that ends up Healthy holds exactly what it owns. */
  lemma HealthyHoldsOwned(v: View, loads: Shard -> bool, ms: Manifests, before: Store, after: Store,
                          was: set<Shard>, now: set<Shard>, base: nat)
    requires Rebalanced(v, loads, ms, before, after, was, now, base) && ManifestsOk(ms) && now == {}
    ensures HoldsOwned(v, ms, after)
  {
    forall n, i {:trigger Key(n, i)} | Known(ms, n, i) ensures Key(n, i) in after <==> Owned(v, ms[n], i) {
      RebalanceIsExact(v, loads, ms, before, after, was, now, base, n, i);
    }
  }

  /** The other direction fails: holding everything does not make a node Healthy.  It is Healthy if
      and only if no load failed this time and no old record hashes here any more; a record whose
      shard was loaded by the retry is not cleared. */
  lemma HealthyIff(v: View, loads: Shard -> bool, ms: Manifests, before: Store, after: Store,
                   was: set<Shard>, now: set<Shard>, base: nat)
    requires Rebalanced(v, loads, ms, before, after, was, now, base) && ManifestsOk(ms)
    ensures now == {} <==>
              StillOwned(v, was) == {} && forall n, i :: Known(ms, n, i) ==> !LoadFailed(v, loads, ms[n], i, before)
  {
    if now == {} {
      forall n, i | Known(ms, n, i) ensures !LoadFailed(v, loads, ms[n], i, before) {
        assert Shard(n, i, 0) !in now;
      }
      assert forall s :: s in StillOwned(v, was) ==> s in now;
    }
  }

  /** Which records there are after a rebalance: the old ones whose own replica key hashes here, and the
      shards whose load was tried this time and failed, as replica 0. */
  lemma RecordsIff(v: View, loads: Shard -> bool, ms: Manifests, before: Store, after: Store,
                   was: set<Shard>, now: set<Shard>, base: nat, s: Shard)
    requires Rebalanced(v, loads, ms, before, after, was, now, base) && ManifestsOk(ms)
    ensures s in now <==>
              || (s in was && GetNode(v.ring, ShardKey(s)) == Some(v.me))
              || (s.replicaId == 0 && Known(ms, s.indexName, s.shardId) && Key(s.indexName, s.shardId) !in before
                  && exists r :: IsAssigned(v, ms[s.indexName], s.shardId, r) && !loads(r))
  {
    if Known(ms, s.indexName, s.shardId) {
      var m := ms[s.indexName];
      forall r | IsAssigned(v, m, s.shardId, r) ensures Owned(v, m, s.shardId) {
        assert r == Shard(m.name, s.shardId, r.replicaId);
      }
    }
  }

  /** A node's store and pending records, and the step a rebalance takes from one to the next. */
  datatype NodeState = NodeState(store: Store, pending: set<Shard>)

  ghost predicate RebalanceStep(v: View, ms: Manifests, a: NodeState, b: NodeState) {
    exists loads, base :: Rebalanced(v, loads, ms, a.store, b.store, a.pending, b.pending, base)
  }

  /** So a shard that once failed and was loaded later keeps its node Unhealthy for as long as its
      record's replica key hashes here, however many rebalances follow and however well they go. */
  lemma {:induction false} RetriedSuccessStaysPending(v: View, ms: Manifests, run: seq<NodeState>, s: Shard)
    requires run != [] && s in run[0].pending && NeedLoad(v.ring, v.me, ShardKey(s))
    requires forall j :: 0 <= j < |run| - 1 ==> RebalanceStep(v, ms, run[j], run[j + 1])
    ensures s in run[|run| - 1].pending
  {
    if |run| > 1 {
      var front := run[..|run| - 1];
      forall j | 0 <= j < |front| - 1 ensures RebalanceStep(v, ms, front[j], front[j + 1]) {
        assert RebalanceStep(v, ms, run[j], run[j + 1]);
      }
      RetriedSuccessStaysPending(v, ms, front, s);
      var last := |run| - 2;
      assert RebalanceStep(v, ms, run[last], run[last + 1]);
      assert s in StillOwned(v, run[last].pending);
    }
  }

  // ---------- fixed points

  lemma SameEverywhere(a: Store, b: Store)
    requires forall k :: SameAt(a, b, k)
    ensures a == b
  {
    forall k ensures k in a.Keys <==> k in b.Keys {
      assert SameAt(a, b, k);
    }
    assert a.Keys == b.Keys;
    forall k | k in a ensures a[k] == b[k] {
      assert SameAt(a, b, k);
    }
  }

  /** A store that holds exactly the owned shards is not changed by a rebalance. */
  lemma OwnedStoreStays(v: View, loads: Shard -> bool, ms: Manifests, before: Store, after: Store,
                        was: set<Shard>, now: set<Shard>, base: nat)
    requires Rebalanced(v, loads, ms, before, after, was, now, base) && ManifestsOk(ms) && HoldsOwned(v, ms, before)
    ensures after == before && now == StillOwned(v, was)
  {
    forall k ensures SameAt(before, after, k) {
      if n, i :| Known(ms, n, i) && k == Key(n, i) {
        RebalanceIsExact(v, loads, ms, before, after, was, now, base, n, i);
      }
    }
    SameEverywhere(before, after);
    forall s ensures s in now <==> s in StillOwned(v, was) {
      if Known(ms, s.indexName, s.shardId) {
        assert !LoadFailed(v, loads, ms[s.indexName], s.shardId, before);
      }
    }
  }

  /** After a rebalance in which every load succeeded, another one changes nothing at all. */
  lemma SecondRebalanceChangesNothing(v: View, loads: Shard -> bool, loads': Shard -> bool, ms: Manifests,
                                      s0: Store, s1: Store, s2: Store, p0: set<Shard>, p1: set<Shard>, p2: set<Shard>,
                                      b: nat, b': nat)
    requires ManifestsOk(ms) && (forall s :: loads(s))
    requires Rebalanced(v, loads, ms, s0, s1, p0, p1, b) && Rebalanced(v, loads', ms, s1, s2, p1, p2, b')
    ensures HoldsOwned(v, ms, s1) && s2 == s1 && p2 == p1
  {
    forall n, i {:trigger Key(n, i)} | Known(ms, n, i) ensures Key(n, i) in s1 <==> Owned(v, ms[n], i) {
      RebalanceIsExact(v, loads, ms, s0, s1, p0, p1, b, n, i);
      assert Settled(v, loads, ms[n], i, s0, s1, b);
    }
    OwnedStoreStays(v, loads', ms, s1, s2, p1, p2, b');
    forall s ensures s in p1 ==> s in StillOwned(v, p1) {
      assert Known(ms, s.indexName, s.shardId) ==> !LoadFailed(v, loads, ms[s.indexName], s.shardId, s0);
    }
  }

  // ---------- loadIndex

  /** What loadIndex adds are keys of that index. */
  lemma AddedKey(v: View, loads: Shard -> bool, m: Manifest, before: Store, after: Store, base: nat, k: string)
    returns (i: int)
    requires ValidManifest(m) && KeysLoaded(v, loads, Rows(m, m.shards), |Rows(m, m.shards)|, before, after, base)
    requires k in after && k !in before
    ensures 0 <= i < m.shards && k == Key(m.name, i)
  {
    var shards := Rows(m, m.shards);
    RowsMembers(m, m.shards);
    var p :| p < |shards| && IsFirstHit(v, loads, shards, k, p);
    assert shards[p] in shards;
    i := shards[p].shardId;
  }

  /** A node that is alone takes every replica key, one in a cluster those that hash to it. */
  predicate TakesKey(v: View, m: Manifest, i: int, r: int) {
    if v.clustered then NeedLoad(v.ring, v.me, ShardKey(Shard(m.name, i, r))) else true
  }

  /** Replica `r` is the first one of shard `i` whose key is taken here and whose load succeeds. */
  ghost predicate FirstLoaded(v: View, loads: Shard -> bool, m: Manifest, i: int, r: int) {
    && 0 <= r < m.replicas && TakesKey(v, m, i, r) && loads(Shard(m.name, i, r))
    && forall q :: 0 <= q < r ==> !(TakesKey(v, m, i, q) && loads(Shard(m.name, i, q)))
  }

  /** A load that is tried and fails: nothing of the shard is here or was loaded before it. */
  ghost predicate TriedInVain(v: View, loads: Shard -> bool, m: Manifest, i: int, r: int, before: Store) {
    && 0 <= r < m.replicas && Key(m.name, i) !in before && TakesKey(v, m, i, r) && !loads(Shard(m.name, i, r))
    && forall q :: 0 <= q < r ==> !(TakesKey(v, m, i, q) && loads(Shard(m.name, i, q)))
  }

  lemma HitAt(v: View, loads: Shard -> bool, m: Manifest, i: int, p: nat)
    requires ValidManifest(m) && 0 <= i < m.shards && p < |Rows(m, m.shards)|
    ensures var s := Rows(m, m.shards)[p];
      Hit(v, loads, Rows(m, m.shards), Key(m.name, i), p) <==>
        s.shardId == i && TakesKey(v, m, i, s.replicaId) && loads(Shard(m.name, i, s.replicaId))
  {
    var s := Rows(m, m.shards)[p];
    RowsInverse(m, m.shards, p);
    assert s == Shard(m.name, s.shardId, s.replicaId);
    if UniqueShardKey(s) == Key(m.name, i) {
      UniqueShardKeyInjective(s, Shard(m.name, i, 0));
    }
  }

  /** No replica key of the shard before that of replica `r` hits, by positions and by replicas. */
  lemma NoHitBefore(v: View, loads: Shard -> bool, m: Manifest, i: nat, r: nat)
    requires ValidManifest(m) && i < m.shards && r < m.replicas
    ensures (forall q :: q < i * m.replicas + r ==> !Hit(v, loads, Rows(m, m.shards), Key(m.name, i), q)) <==>
            (forall q :: 0 <= q < r ==> !(TakesKey(v, m, i, q) && loads(Shard(m.name, i, q))))
  {
    var shards := Rows(m, m.shards);
    RowsAt(m, m.shards, i, r);
    if forall q :: q < i * m.replicas + r ==> !Hit(v, loads, shards, Key(m.name, i), q) {
      forall q | 0 <= q < r ensures !(TakesKey(v, m, i, q) && loads(Shard(m.name, i, q))) {
        RowsAt(m, m.shards, i, q);
        HitAt(v, loads, m, i, i * m.replicas + q);
      }
    }
    if forall q :: 0 <= q < r ==> !(TakesKey(v, m, i, q) && loads(Shard(m.name, i, q))) {
      forall q | q < i * m.replicas + r ensures !Hit(v, loads, shards, Key(m.name, i), q) {
        if 0 <= q {
          RowsInverse(m, m.shards, q);
          HitAt(v, loads, m, i, q);
        }
      }
    }
  }

  lemma FirstHitIff(v: View, loads: Shard -> bool, m: Manifest, i: nat, p: nat)
    requires ValidManifest(m) && i < m.shards && p < |Rows(m, m.shards)|
    ensures var s := Rows(m, m.shards)[p];
      IsFirstHit(v, loads, Rows(m, m.shards), Key(m.name, i), p) <==>
        s == Shard(m.name, i, s.replicaId) && FirstLoaded(v, loads, m, i, s.replicaId)
  {
    var s := Rows(m, m.shards)[p];
    RowsInverse(m, m.shards, p);
    HitAt(v, loads, m, i, p);
    if s.shardId == i {
      NoHitBefore(v, loads, m, i, s.replicaId);
    }
  }

  /** What loadIndex makes of one shard, whatever loads fail: what was there stays, and a missing shard is
      there if and only if some replica could be loaded; it was created for the first one that could. */
  lemma LoadedShard(v: View, loads: Shard -> bool, m: Manifest, before: Store, after: Store, base: nat, i: nat)
    requires ValidManifest(m) && i < m.shards
    requires KeysLoaded(v, loads, Rows(m, m.shards), |Rows(m, m.shards)|, before, after, base)
    ensures var k := Key(m.name, i);
      && (k in before ==> k in after && after[k] == before[k])
      && (k !in before ==> (k in after <==> exists r :: FirstLoaded(v, loads, m, i, r)))
      && (k !in before && k in after ==>
          && after[k].id >= base && after[k].shard == Shard(m.name, i, after[k].shard.replicaId)
          && FirstLoaded(v, loads, m, i, after[k].shard.replicaId))
  {
    var k := Key(m.name, i);
    assert k in before ==> SameAt(before, after, k);
    if k in after && k !in before {
      AddedShard(v, loads, m, before, after, base, i);
    }
    if r :| FirstLoaded(v, loads, m, i, r) {
      FoundShard(v, loads, m, before, after, base, i, r);
    }
  }

  lemma AddedShard(v: View, loads: Shard -> bool, m: Manifest, before: Store, after: Store, base: nat, i: nat)
    requires ValidManifest(m) && i < m.shards && Key(m.name, i) in after && Key(m.name, i) !in before
    requires KeysLoaded(v, loads, Rows(m, m.shards), |Rows(m, m.shards)|, before, after, base)
    ensures var x := after[Key(m.name, i)];
      && x.id >= base && x.shard == Shard(m.name, i, x.shard.replicaId)
      && FirstLoaded(v, loads, m, i, x.shard.replicaId)
  {
    var k, shards := Key(m.name, i), Rows(m, m.shards);
    var p :| p < |shards| && IsFirstHit(v, loads, shards, k, p) && after[k].shard == shards[p];
    FirstHitIff(v, loads, m, i, p);
  }

  lemma FoundShard(v: View, loads: Shard -> bool, m: Manifest, before: Store, after: Store, base: nat, i: nat, r: nat)
    requires ValidManifest(m) && i < m.shards && FirstLoaded(v, loads, m, i, r)
    requires KeysLoaded(v, loads, Rows(m, m.shards), |Rows(m, m.shards)|, before, after, base)
    ensures Key(m.name, i) in after
  {
    var p := PositionOf(m, Shard(m.name, i, r));
    FirstHitIff(v, loads, m, i, p);
    assert Hit(v, loads, Rows(m, m.shards), Key(m.name, i), p);
  }

  /** The records that loadIndex adds: exactly the loads that were tried and failed. */
  lemma LoadRecords(v: View, loads: Shard -> bool, m: Manifest, before: Store, was: set<Shard>, now: set<Shard>,
                    s: Shard)
    requires ValidManifest(m)
    requires MissesPending(v, loads, Rows(m, m.shards), |Rows(m, m.shards)|, before, was, now)
    ensures s in now <==> s in was || (IsShardOf(m, s) && TriedInVain(v, loads, m, s.shardId, s.replicaId, before))
  {
    var shards := Rows(m, m.shards);
    if s in now && s !in was {
      var p :| p < |shards| && Missed(v, loads, shards, before, p) && shards[p] == s;
      RowsInverse(m, m.shards, p);
      MissedIs(v, loads, m, before, p);
    }
    if IsShardOf(m, s) && TriedInVain(v, loads, m, s.shardId, s.replicaId, before) {
      var p := PositionOf(m, s);
      MissedIs(v, loads, m, before, p);
    }
  }

  lemma PositionOf(m: Manifest, s: Shard) returns (p: nat)
    requires ValidManifest(m) && IsShardOf(m, s)
    ensures p < |Rows(m, m.shards)| && Rows(m, m.shards)[p] == s
  {
    RowsAt(m, m.shards, s.shardId, s.replicaId);
    p := s.shardId * m.replicas + s.replicaId;
  }

  lemma MissedIs(v: View, loads: Shard -> bool, m: Manifest, before: Store, p: nat)
    requires ValidManifest(m) && p < |Rows(m, m.shards)|
    ensures var s := Rows(m, m.shards)[p];
      Missed(v, loads, Rows(m, m.shards), before, p) <==> TriedInVain(v, loads, m, s.shardId, s.replicaId, before)
  {
    var s := Rows(m, m.shards)[p];
    RowsInverse(m, m.shards, p);
    assert s == Shard(m.name, s.shardId, s.replicaId) && UniqueShardKey(s) == Key(m.name, s.shardId);
    NoHitBefore(v, loads, m, s.shardId, s.replicaId);
  }

  lemma {:induction false} LeastLoaded(v: View, loads: Shard -> bool, m: Manifest, i: int, r: int)
    requires 0 <= r < m.replicas && TakesKey(v, m, i, r) && loads(Shard(m.name, i, r))
    ensures exists q :: FirstLoaded(v, loads, m, i, q)
    decreases r
  {
    if q :| 0 <= q < r && TakesKey(v, m, i, q) && loads(Shard(m.name, i, q)) {
      LeastLoaded(v, loads, m, i, q);
    } else {
      assert FirstLoaded(v, loads, m, i, r);
    }
  }

  /** A shard belongs on this node: all do on a node that is alone, and else those it owns. */
  ghost predicate BelongsHere(v: View, m: Manifest, i: int) {
    if v.clustered then Owned(v, m, i) else m.replicas > 0
  }

  /** With all loads succeeding, loadIndex finds in a cluster the same shards as the differently shaped loop
      of Rebalance, for the same replicas, and on a node that is alone all shards, as replica 0.  It touches
      no other key. */
  lemma LoadAgrees(v: View, loads: Shard -> bool, m: Manifest, before: Store, after: Store, base: nat)
    requires ValidManifest(m) && forall s :: loads(s)
    requires KeysLoaded(v, loads, Rows(m, m.shards), |Rows(m, m.shards)|, before, after, base)
    ensures forall i :: 0 <= i < m.shards ==>
                          (Key(m.name, i) in after <==> Key(m.name, i) in before || BelongsHere(v, m, i))
    ensures forall i :: 0 <= i < m.shards && Key(m.name, i) in after && Key(m.name, i) !in before ==>
                          var s := after[Key(m.name, i)].shard;
                          if v.clustered then IsAssigned(v, m, i, s) else s == Shard(m.name, i, 0)
    ensures forall k :: (forall i :: 0 <= i < m.shards ==> k != Key(m.name, i)) ==> SameAt(before, after, k)
    ensures forall k :: k in before ==> SameAt(before, after, k)
  {
    forall i | 0 <= i < m.shards
      ensures Key(m.name, i) in after <==> Key(m.name, i) in before || BelongsHere(v, m, i)
      ensures Key(m.name, i) in after && Key(m.name, i) !in before ==>
                var s := after[Key(m.name, i)].shard;
                if v.clustered then IsAssigned(v, m, i, s) else s == Shard(m.name, i, 0)
    {
      LoadedShard(v, loads, m, before, after, base, i);
      FirstLoadedIs(v, loads, m, i);
    }
    forall k | forall i :: 0 <= i < m.shards ==> k != Key(m.name, i) ensures SameAt(before, after, k) {
      if k in after && k !in before {
        var i := AddedKey(v, loads, m, before, after, base, k);
      }
      assert k in before ==> SameAt(before, after, k);
    }
  }

  lemma FirstLoadedIs(v: View, loads: Shard -> bool, m: Manifest, i: int)
    requires forall s :: loads(s)
    ensures (exists r :: FirstLoaded(v, loads, m, i, r)) <==> BelongsHere(v, m, i)
    ensures forall r :: FirstLoaded(v, loads, m, i, r) ==>
                          if v.clustered then IsAssigned(v, m, i, Shard(m.name, i, r)) else r == 0
  {
    assert !v.clustered ==> TakesKey(v, m, i, 0);
    forall r | FirstLoaded(v, loads, m, i, r)
      ensures if v.clustered then IsAssigned(v, m, i, Shard(m.name, i, r)) else r == 0
    {
    }
    if BelongsHere(v, m, i) {
      if v.clustered {
        var r :| 0 <= r < m.replicas && NeedLoad(v.ring, v.me, ShardKey(Shard(m.name, i, r)));
        LeastLoaded(v, loads, m, i, r);
      } else {
        LeastLoaded(v, loads, m, i, 0);
      }
    }
  }

  /** On a store that holds nothing unowned, loading an index leads to a store on which a rebalance,
      of this index and of others that are settled already, changes nothing but forget the records
      that hash elsewhere. */
  lemma LoadThenRebalance(v: View, loads: Shard -> bool, loads': Shard -> bool, m: Manifest, ms: Manifests,
                          s0: Store, s1: Store, s2: Store, p1: set<Shard>, p2: set<Shard>, b: nat, b': nat)
    requires v.clustered && ManifestsOk(ms) && m.name in ms && ms[m.name] == m && forall s :: loads(s)
    requires forall i :: 0 <= i < m.shards && Key(m.name, i) in s0 ==> Owned(v, m, i)
    requires HoldsOwned(v, ms - {m.name}, s0)
    requires KeysLoaded(v, loads, Rows(m, m.shards), |Rows(m, m.shards)|, s0, s1, b)
    requires Rebalanced(v, loads', ms, s1, s2, p1, p2, b')
    ensures HoldsOwned(v, ms, s1) && s2 == s1 && p2 == StillOwned(v, p1)
  {
    LoadAgrees(v, loads, m, s0, s1, b);
    forall n, i {:trigger Key(n, i)} | Known(ms, n, i) ensures Key(n, i) in s1 <==> Owned(v, ms[n], i) {
      if n != m.name {
        assert Known(ms - {m.name}, n, i);
        forall j | 0 <= j < m.shards ensures Key(n, i) != Key(m.name, j) { KeyDiffers(n, i, m.name, j); }
        assert SameAt(s0, s1, Key(n, i));
      }
    }
    OwnedStoreStays(v, loads', ms, s1, s2, p1, p2, b');
  }

  /** Deleting an index undoes its loading on a store that held nothing of it. */
  lemma DeleteUndoesLoad(v: View, loads: Shard -> bool, m: Manifest, before: Store, after: Store, base: nat)
    requires ValidManifest(m) && forall i :: 0 <= i < m.shards ==> Key(m.name, i) !in before
    requires KeysLoaded(v, loads, Rows(m, m.shards), |Rows(m, m.shards)|, before, after, base)
    ensures after - KeysBelow(m.name, m.shards) == before
  {
    var left := after - KeysBelow(m.name, m.shards);
    forall k ensures SameAt(before, left, k) {
      if k in before {
        assert SameAt(before, after, k);
      } else if k in after {
        var i := AddedKey(v, loads, m, before, after, base, k);
      }
    }
    SameEverywhere(before, left);
  }

  // ---------- all nodes together

  /** How node `n` sees a ring that everybody shares. */
  function ViewOf(ring: Ring, n: Node): View {
    View(true, n, ring)
  }

  /** The owners of the first `r` replica keys of a shard. */
  function Owners(ring: Ring, m: Manifest, i: int, r: nat): set<Node> {
    if r == 0 then {} else Owners(ring, m, i, r - 1) + {GetOwnerNode(ring, ShardKey(Shard(m.name, i, r - 1)))}
  }

  lemma {:induction false} OwnersBounded(ring: Ring, m: Manifest, i: int, r: nat)
    requires ring.nodes != {} && PlacesOnMembers(ring.place)
    ensures |Owners(ring, m, i, r)| <= r && Owners(ring, m, i, r) <= ring.nodes
            && (r > 0 ==> Owners(ring, m, i, r) != {})
  {
    if r > 0 {
      OwnersBounded(ring, m, i, r - 1);
      assert GetOwnerNode(ring, ShardKey(Shard(m.name, i, r - 1))) in ring.nodes;
    }
  }

  lemma OwnerIsNeeder(ring: Ring, key: string, n: Node)
    requires ring.nodes != {}
    ensures GetOwnerNode(ring, key) == n <==> NeedLoad(ring, n, key)
  {
  }

  /** One of the first `r` replica keys of the shard hashes to the node. */
  ghost predicate NeedsBelow(ring: Ring, m: Manifest, i: int, r: nat, n: Node) {
    exists k :: 0 <= k < r && NeedLoad(ring, n, ShardKey(Shard(m.name, i, k)))
  }

  lemma NeedsBelowNext(ring: Ring, m: Manifest, i: int, last: nat, n: Node)
    ensures NeedsBelow(ring, m, i, last + 1, n) <==>
              NeedsBelow(ring, m, i, last, n) || NeedLoad(ring, n, ShardKey(Shard(m.name, i, last)))
  {
    if NeedsBelow(ring, m, i, last, n) {
      var k :| 0 <= k < last && NeedLoad(ring, n, ShardKey(Shard(m.name, i, k)));
      assert 0 <= k < last + 1;
    }
  }

  lemma {:induction false} OwnersMembers(ring: Ring, m: Manifest, i: int, r: nat, n: Node)
    requires ring.nodes != {}
    ensures n in Owners(ring, m, i, r) <==> NeedsBelow(ring, m, i, r, n)
  {
    if r > 0 {
      OwnersMembers(ring, m, i, r - 1, n);
      OwnerIsNeeder(ring, ShardKey(Shard(m.name, i, r - 1)), n);
      NeedsBelowNext(ring, m, i, r - 1, n);
    }
  }

  lemma {:induction false} SubsetCard<T>(a: set<T>, b: set<T>)
    requires a <= b
    ensures |a| <= |b|
  {
    if a != {} {
      var x :| x in a;
      SubsetCard(a - {x}, b - {x});
    }
  }

  /** When every node of the ring holds what it owns, every shard of an index with a replica is on at
      least one and at most min(Replicas, ring size) nodes. */
  lemma EveryShardIsCovered(ring: Ring, ms: Manifests, stores: map<Node, Store>, n: string, i: int)
    requires ring.nodes != {} && PlacesOnMembers(ring.place) && stores.Keys == ring.nodes
    requires forall node :: node in stores ==> HoldsOwned(ViewOf(ring, node), ms, stores[node])
    requires ManifestsOk(ms) && Known(ms, n, i) && ms[n].replicas >= 1
    ensures 1 <= |set node | node in stores && Key(n, i) in stores[node]| <= Min(ms[n].replicas, |ring.nodes|)
  {
    var m := ms[n];
    var held := set node | node in stores && Key(n, i) in stores[node];
    OwnersBounded(ring, m, i, m.replicas);
    forall node ensures node in held <==> node in Owners(ring, m, i, m.replicas) {
      OwnersMembers(ring, m, i, m.replicas, node);
      if node in stores {
        assert HoldsOwned(ViewOf(ring, node), ms, stores[node]);
        assert Key(n, i) in stores[node] <==> Owned(ViewOf(ring, node), m, i);
      }
    }
    assert held == Owners(ring, m, i, m.replicas);
    SubsetCard(held, ring.nodes);
    assert held != {};
  }

  /** nodesOwningIndex, on which the commit waits, names exactly the nodes that hold some shard. */
  lemma OwnersAreHolders(ring: Ring, ms: Manifests, stores: map<Node, Store>, n: string, node: Node)
    requires ring.nodes != {} && "" !in ring.nodes && PlacesOnMembers(ring.place) && stores.Keys == ring.nodes
    requires forall x :: x in stores ==> HoldsOwned(ViewOf(ring, x), ms, stores[x])
    requires ManifestsOk(ms) && n in ms
    ensures node != "" && Owns(ring, ms[n], node) <==>
              node in stores && exists i :: 0 <= i < ms[n].shards && Key(n, i) in stores[node]
  {
    var m := ms[n];
    if Owns(ring, m, node) {
      var s :| IsShardOf(m, s) && GetOwnerNode(ring, ShardKey(s)) == node;
      assert s == Shard(m.name, s.shardId, s.replicaId);
      assert NeedLoad(ring, node, ShardKey(Shard(m.name, s.shardId, s.replicaId)));
      assert Owned(ViewOf(ring, node), m, s.shardId) && Known(ms, n, s.shardId);
      assert Key(n, s.shardId) in stores[node];
    }
    if node in stores && exists i :: 0 <= i < m.shards && Key(n, i) in stores[node] {
      var i :| 0 <= i < m.shards && Key(n, i) in stores[node];
      assert Known(ms, n, i) && Owned(ViewOf(ring, node), m, i);
      var r :| 0 <= r < m.replicas && NeedLoad(ring, node, ShardKey(Shard(m.name, i, r)));
      assert IsShardOf(m, Shard(m.name, i, r));
    }
  }
}
