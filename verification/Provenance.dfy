/**
 Where a served revision comes from, over any run whatever: rings that differ from node to node,
 shards loaded and dropped by rebalances, callbacks of dropped shards, failures, repeated events.
 */
module Provenance {
  import opened Options
  import opened RevisionProtocol

  predicate AnyStep(step: Step) {
    true
  }

  /** These owners were in the snapshot that the writer of the commit key had read of the ready keys,
      at exactly the committed revision, and had put those ready keys themselves. */
  ghost predicate ReadyFor(s: State, cm: Commit, owners: set<Node>) {
    forall n :: n in owners ==> n in cm.snapshot && cm.snapshot[n] == cm.rev && Put(n, cm.rev) in s.puts
  }

  /** The writer had looked up every replica key, each in the ring as it was at that moment, there
      were owners, and all of them were ready in the keys it had read. */
  ghost predicate Backed(c: Cluster, s: State, cm: Commit) {
    && |cm.seen| == |ReplicaKeys(c)| && Found(c, cm.seen) != {} && ReadyFor(s, cm, Found(c, cm.seen))
    && Genuine(cm.snapshot, s.puts)
  }

  ghost predicate SlotFrom(slot: Slot, revs: set<int>, history: set<int>) {
    && (slot.serving == slot.loadedAt || slot.serving in revs)
    && slot.serving in history && slot.loadedAt in history
    && (slot.staged.Some? ==> slot.staged.value in history)
  }

  ghost predicate StoreFrom(s: State) {
    forall loc :: loc in s.store ==> SlotFrom(s.store[loc], CommittedRevs(s), s.history)
  }

  ghost predicate CommitsBacked(c: Cluster, s: State) {
    forall cm :: cm in s.commits ==> Backed(c, s, cm)
  }

  ghost predicate EventsFrom(s: State) {
    forall e :: e in s.pending ==> e.rev in CommittedRevs(s)
  }

  /** Ready keys that somebody holds, in etcd or in a snapshot, were put by their nodes. */
  ghost predicate Genuine(ready: map<Node, int>, puts: set<Put>) {
    forall n :: n in ready ==> Put(n, ready[n]) in puts
  }

  ghost predicate PcFrom(c: Cluster, pc: Pc, revs: set<int>, puts: set<Put>) {
    match pc
    case Owning(_, _, seen) => |seen| <= |ReplicaKeys(c)|
    case Collecting(_, _, seen) => |seen| == |ReplicaKeys(c)| && Found(c, seen) != {}
    case Deciding(_, _, seen, snapshot) => |seen| == |ReplicaKeys(c)| && Found(c, seen) != {} && Genuine(snapshot, puts)
    case Committing(_, rev, _) => rev in revs
    case _ => true
  }

  ghost predicate PcsFrom(c: Cluster, s: State) {
    forall pid :: pid in s.procs ==> PcFrom(c, s.procs[pid], CommittedRevs(s), s.puts)
  }

  ghost predicate Origins(c: Cluster, s: State) {
    StoreFrom(s) && CommitsBacked(c, s) && EventsFrom(s) && Genuine(s.ready, s.puts) && PcsFrom(c, s)
    && s.published in s.history
  }

  /** What has come from somewhere still does when the records only grow. */
  lemma OriginsGrow(c: Cluster, s: State, t: State)
    requires Origins(c, s) && t.commits >= s.commits && t.history >= s.history && t.puts >= s.puts
    requires forall loc :: loc in t.store ==>
                             (loc in s.store && t.store[loc] == s.store[loc])
                             || SlotFrom(t.store[loc], CommittedRevs(t), t.history)
    requires forall cm :: cm in t.commits && cm !in s.commits ==> Backed(c, t, cm)
    requires forall e :: e in t.pending ==> e in s.pending || e.rev in CommittedRevs(t)
    requires forall n :: n in t.ready ==> (n in s.ready && t.ready[n] == s.ready[n]) || Put(n, t.ready[n]) in t.puts
    requires forall pid :: pid in t.procs ==>
                             (pid in s.procs && t.procs[pid] == s.procs[pid])
                             || PcFrom(c, t.procs[pid], CommittedRevs(t), t.puts)
    requires t.published in t.history
    ensures Origins(c, t)
  {
    assert CommittedRevs(t) >= CommittedRevs(s);
    forall cm | cm in t.commits ensures Backed(c, t, cm) {
      assert cm in s.commits ==> Backed(c, s, cm);
    }
    forall pid | pid in t.procs ensures PcFrom(c, t.procs[pid], CommittedRevs(t), t.puts) {
      if pid in s.procs { assert PcFrom(c, s.procs[pid], CommittedRevs(s), s.puts); }
    }
  }

  /** A step of `pid` that changes nothing but its own program counter. */
  lemma PcMoves(c: Cluster, s: State, t: State, pid: nat)
    requires Origins(c, s) && t == s.(procs := t.procs)
    requires t.procs - {pid} == s.procs - {pid}
    requires pid in t.procs ==> PcFrom(c, t.procs[pid], CommittedRevs(s), s.puts)
    ensures Origins(c, t)
  {
    assert CommittedRevs(t) == CommittedRevs(s);
    forall p | p in t.procs ensures PcFrom(c, t.procs[p], CommittedRevs(t), t.puts) {
      if p != pid {
        assert p in t.procs - {pid} && (t.procs - {pid})[p] == (s.procs - {pid})[p];
        assert PcFrom(c, s.procs[p], CommittedRevs(s), s.puts);
      }
    }
  }

  lemma FinishFrom(c: Cluster, s: State, pid: nat)
    requires Origins(c, s)
    ensures Origins(c, Finish(s, pid))
  {
    PcMoves(c, s, Finish(s, pid), pid);
  }

  /** A step of `pid` on one shard. */
  lemma SlotMoves(c: Cluster, s: State, t: State, pid: nat, loc: Loc, slot: Slot)
    requires Origins(c, s) && t == s.(procs := t.procs, store := s.store[loc := slot], reloaded := t.reloaded)
    requires t.procs - {pid} == s.procs - {pid}
    requires pid in t.procs ==> PcFrom(c, t.procs[pid], CommittedRevs(s), s.puts)
    requires SlotFrom(slot, CommittedRevs(s), s.history)
    ensures Origins(c, t)
  {
    PcMoves(c, s, s.(procs := t.procs), pid);
    assert CommittedRevs(t) == CommittedRevs(s);
  }

  lemma SwapFrom(c: Cluster, s: State, pid: nat)
    requires Origins(c, s) && Enabled(c, s, CommitShard(pid))
    ensures Origins(c, DoCommitShard(s, pid))
  {
    var t := DoCommitShard(s, pid);
    var pc := s.procs[pid];
    assert PcFrom(c, pc, CommittedRevs(s), s.puts);
    var loc := Loc(pc.node, pc.next);
    if loc in s.store {
      assert SlotFrom(s.store[loc], CommittedRevs(s), s.history);
      SlotMoves(c, s, t, pid, loc, CommitStaged(s.store[loc], pc.rev));
    } else {
      PcMoves(c, s, t, pid);
    }
  }

  lemma ReloadFrom(c: Cluster, s: State, pid: nat, node: Node, shard: nat)
    requires Origins(c, s) && Enabled(c, s, Reload(pid, node, shard))
    ensures Origins(c, DoReload(s, pid, node, shard))
  {
    var t := DoReload(s, pid, node, shard);
    var loc := Loc(node, shard);
    var slot := s.store[loc];
    assert SlotFrom(slot, CommittedRevs(s), s.history);
    if s.published <= slot.serving {
      assert s.store[loc := slot] == s.store;
      SlotMoves(c, s, t, pid, loc, slot);
    } else {
      SlotMoves(c, s, t, pid, loc, slot.(lockedBy := Some(pid)));
    }
  }

  lemma StageFrom(c: Cluster, s: State, pid: nat, rev: int)
    requires Origins(c, s) && Enabled(c, s, Stage(pid, rev))
    ensures Origins(c, DoStage(s, pid, rev))
  {
    var t := DoStage(s, pid, rev);
    var pc := s.procs[pid];
    var loc := Loc(pc.node, pc.shard);
    if HoldsSlot(s, pc) {
      assert SlotFrom(s.store[loc], CommittedRevs(s), s.history);
      SlotMoves(c, s, t, pid, loc, t.store[loc]);
    } else {
      PcMoves(c, s, t, pid);
    }
  }

  lemma StageFailFrom(c: Cluster, s: State, pid: nat)
    requires Origins(c, s) && Enabled(c, s, StageFail(pid))
    ensures Origins(c, DoStageFail(s, pid))
  {
    var t := DoStageFail(s, pid);
    var pc := s.procs[pid];
    var loc := Loc(pc.node, pc.shard);
    if HoldsSlot(s, pc) {
      assert SlotFrom(s.store[loc], CommittedRevs(s), s.history);
      SlotMoves(c, s, t, pid, loc, t.store[loc]);
    } else {
      PcMoves(c, s, t, pid);
    }
  }

  lemma PutReadyFrom(c: Cluster, s: State, pid: nat)
    requires Origins(c, s) && Enabled(c, s, PutReady(pid))
    ensures Origins(c, DoPutReady(s, pid))
  {
    OriginsGrow(c, s, DoPutReady(s, pid));
  }

  lemma CheckFrom(c: Cluster, s: State, pid: nat)
    requires Origins(c, s) && Enabled(c, s, Check(pid))
    ensures Origins(c, DoCheck(s, pid))
  {
    PcMoves(c, s, DoCheck(s, pid), pid);
  }

  lemma LookUpFrom(c: Cluster, s: State, pid: nat)
    requires Origins(c, s) && Enabled(c, s, LookUp(pid))
    ensures Origins(c, DoLookUp(s, pid))
  {
    PcMoves(c, s, DoLookUp(s, pid), pid);
  }

  lemma HaveOwnersFrom(c: Cluster, s: State, pid: nat)
    requires Origins(c, s) && Enabled(c, s, HaveOwners(pid))
    ensures Origins(c, DoHaveOwners(c, s, pid))
  {
    assert PcFrom(c, s.procs[pid], CommittedRevs(s), s.puts);
    PcMoves(c, s, DoHaveOwners(c, s, pid), pid);
  }

  lemma ReadReadyFrom(c: Cluster, s: State, pid: nat)
    requires Origins(c, s) && Enabled(c, s, ReadReady(pid))
    ensures Origins(c, DoReadReady(s, pid))
  {
    assert PcFrom(c, s.procs[pid], CommittedRevs(s), s.puts);
    PcMoves(c, s, DoReadReady(s, pid), pid);
  }

  lemma DecideFrom(c: Cluster, s: State, pid: nat)
    requires Origins(c, s) && Enabled(c, s, Decide(pid))
    ensures Origins(c, DoDecide(c, s, pid))
  {
    var t := DoDecide(c, s, pid);
    var pc := s.procs[pid];
    if AllReady(Found(c, pc.seen), pc.snapshot, pc.rev) {
      assert PcFrom(c, pc, CommittedRevs(s), s.puts);
      CommitFrom(c, s, t, pid, Commit(pc.rev, pc.node, pc.seen, pc.snapshot));
    } else {
      PcMoves(c, s, t, pid);
    }
  }

  /** A complete snapshot of genuine ready keys backs the commit key. */
  lemma CommitFrom(c: Cluster, s: State, t: State, pid: nat, cm: Commit)
    requires Origins(c, s) && AllReady(Found(c, cm.seen), cm.snapshot, cm.rev)
    requires |cm.seen| == |ReplicaKeys(c)| && Found(c, cm.seen) != {} && Genuine(cm.snapshot, s.puts)
    requires t == Finish(s.(commits := s.commits + {cm}, pending := s.pending + EventsFor(c.nodes, cm.rev)), pid)
    ensures Origins(c, t)
  {
    assert Backed(c, t, cm) && cm in t.commits && cm.rev in CommittedRevs(t);
    OriginsGrow(c, s, t);
  }

  lemma DeliverFrom(c: Cluster, s: State, pid: nat, node: Node, rev: int)
    requires Origins(c, s) && Enabled(c, s, Deliver(pid, node, rev))
    ensures Origins(c, DoDeliver(s, pid, node, rev))
  {
    var t := DoDeliver(s, pid, node, rev);
    assert Event(node, rev).rev in CommittedRevs(s) && CommittedRevs(t) == CommittedRevs(s);
    OriginsGrow(c, s, t);
  }

  /** Publications, ring changes, lost leases and repeated events. */
  lemma WorldMoves(c: Cluster, s: State, t: State)
    requires Origins(c, s)
    requires t == s.(published := t.published, history := t.history, rings := t.rings, ready := t.ready,
                     pending := t.pending)
    requires t.history >= s.history && t.published in t.history
    requires forall n :: n in t.ready ==> n in s.ready && t.ready[n] == s.ready[n]
    requires forall e :: e in t.pending ==> e in s.pending || e.rev in CommittedRevs(s)
    ensures Origins(c, t)
  {
    assert CommittedRevs(t) == CommittedRevs(s);
  }

  lemma ClearReadyFrom(c: Cluster, s: State, pid: nat)
    requires Origins(c, s) && Enabled(c, s, ClearReady(pid))
    ensures Origins(c, DoClearReady(s, pid))
  {
    var u := s.(ready := s.ready - {s.procs[pid].node});
    WorldMoves(c, s, u);
    PcMoves(c, u, DoClearReady(s, pid), pid);
  }

  /** A rebalance loads a shard at a revision that was published, or drops one. */
  lemma LoadFrom(c: Cluster, s: State, node: Node, shard: nat, rev: int)
    requires Origins(c, s) && Enabled(c, s, Load(node, shard, rev))
    ensures Origins(c, DoLoad(s, node, shard, rev))
  {
    assert CommittedRevs(DoLoad(s, node, shard, rev)) == CommittedRevs(s);
  }

  lemma UnloadFrom(c: Cluster, s: State, loc: Loc)
    requires Origins(c, s)
    ensures Origins(c, s.(store := s.store - {loc}))
  {
    assert CommittedRevs(s.(store := s.store - {loc})) == CommittedRevs(s);
  }

  lemma SignalFrom(c: Cluster, s: State, step: Step)
    requires Origins(c, s) && Enabled(c, s, step)
    requires step.Check? || step.PutReady? || step.LookUp? || step.HaveOwners? || step.ReadReady? || step.Decide?
             || step.EtcdFail? || step.OrphanSignal?
    ensures Origins(c, Apply(c, s, step))
  {
    match step
    case Check(pid) => CheckFrom(c, s, pid);
    case PutReady(pid) => PutReadyFrom(c, s, pid);
    case LookUp(pid) => LookUpFrom(c, s, pid);
    case HaveOwners(pid) => HaveOwnersFrom(c, s, pid);
    case ReadReady(pid) => ReadReadyFrom(c, s, pid);
    case Decide(pid) => DecideFrom(c, s, pid);
    case EtcdFail(pid) => FinishFrom(c, s, pid);
    case OrphanSignal(pid, node, rev) => PcMoves(c, s, Advance(s, pid, Checking(node, rev, 0)), pid);
  }

  lemma PublishFrom(c: Cluster, s: State, rev: int)
    requires Origins(c, s) && Enabled(c, s, Publish(rev))
    ensures Origins(c, Apply(c, s, Publish(rev)))
  {
    WorldMoves(c, s, Apply(c, s, Publish(rev)));
  }

  lemma RedeliverFrom(c: Cluster, s: State, node: Node, rev: int)
    requires Origins(c, s) && Enabled(c, s, Redeliver(node, rev))
    ensures Origins(c, Apply(c, s, Redeliver(node, rev)))
  {
    WorldMoves(c, s, Apply(c, s, Redeliver(node, rev)));
  }

  lemma LeaseExpireFrom(c: Cluster, s: State, node: Node)
    requires Origins(c, s)
    ensures Origins(c, Apply(c, s, LeaseExpire(node)))
  {
    WorldMoves(c, s, Apply(c, s, LeaseExpire(node)));
  }

  lemma RingChangeFrom(c: Cluster, s: State, node: Node, ring: set<Node>)
    requires Origins(c, s) && Enabled(c, s, RingChange(node, ring))
    ensures Origins(c, Apply(c, s, RingChange(node, ring)))
  {
    WorldMoves(c, s, Apply(c, s, RingChange(node, ring)));
  }

  lemma WorldFrom(c: Cluster, s: State, step: Step)
    requires Origins(c, s) && Enabled(c, s, step)
    requires step.Publish? || step.Redeliver? || step.LeaseExpire? || step.RingChange? || step.Load? || step.Unload?
    ensures Origins(c, Apply(c, s, step))
  {
    match step
    case Publish(rev) => PublishFrom(c, s, rev);
    case Redeliver(node, rev) => RedeliverFrom(c, s, node, rev);
    case LeaseExpire(node) => LeaseExpireFrom(c, s, node);
    case RingChange(node, ring) => RingChangeFrom(c, s, node, ring);
    case Load(node, shard, rev) => LoadFrom(c, s, node, shard, rev);
    case Unload(node, shard) => UnloadFrom(c, s, Loc(node, shard));
  }

  lemma StagingFrom(c: Cluster, s: State, step: Step)
    requires Origins(c, s) && Enabled(c, s, step) && (step.Reload? || step.Stage? || step.StageFail?)
    ensures Origins(c, Apply(c, s, step))
  {
    match step
    case Reload(pid, node, shard) => ReloadFrom(c, s, pid, node, shard);
    case Stage(pid, rev) => StageFrom(c, s, pid, rev);
    case StageFail(pid) => StageFailFrom(c, s, pid);
  }

  lemma CommittingFrom(c: Cluster, s: State, step: Step)
    requires Origins(c, s) && Enabled(c, s, step)
    requires step.Deliver? || step.CommitShard? || step.ClearReady? || step.ClearReadyFail?
    ensures Origins(c, Apply(c, s, step))
  {
    match step
    case Deliver(pid, node, rev) => DeliverFrom(c, s, pid, node, rev);
    case CommitShard(pid) => SwapFrom(c, s, pid);
    case ClearReady(pid) => ClearReadyFrom(c, s, pid);
    case ClearReadyFail(pid) => FinishFrom(c, s, pid);
  }

  /** Every step there is keeps the records straight. */
  lemma StepFrom(c: Cluster, s: State, step: Step)
    requires Origins(c, s) && Enabled(c, s, step)
    ensures Origins(c, Apply(c, s, step))
  {
    if step.Publish? || step.Redeliver? || step.LeaseExpire? || step.RingChange? || step.Load? || step.Unload? {
      WorldFrom(c, s, step);
    } else if step.Reload? || step.Stage? || step.StageFail? {
      StagingFrom(c, s, step);
    } else if step.Deliver? || step.CommitShard? || step.ClearReady? || step.ClearReadyFail? {
      CommittingFrom(c, s, step);
    } else {
      SignalFrom(c, s, step);
    }
  }

  lemma {:induction false} RunFrom(c: Cluster, s: State, steps: seq<Step>)
    requires Origins(c, s) && Run(c, s, steps, AnyStep)
    ensures Origins(c, After(c, s, steps, AnyStep))
    decreases |steps|
  {
    if steps != [] {
      StepFrom(c, s, steps[0]);
      RunFrom(c, Apply(c, s, steps[0]), steps[1..]);
    }
  }

  /** A cluster that has not loaded anything yet. */
  ghost predicate Empty(s: State) {
    && s.store == map[] && s.ready == map[] && s.commits == {} && s.pending == multiset{} && s.procs == map[]
    && s.published in s.history
  }

  /** Every revision a shard ever serves was published, and is the one the shard was loaded at or one
      that some node committed after seeing every owner it had looked up ready at exactly that revision. */
  lemma ServedRevisionsAreBacked(c: Cluster, s: State, steps: seq<Step>, loc: Loc)
    requires Empty(s) && Run(c, s, steps, AnyStep)
    ensures var t := After(c, s, steps, AnyStep);
      loc in t.store ==>
        && t.store[loc].serving in t.history
        && (t.store[loc].serving == t.store[loc].loadedAt
            || exists cm :: cm in t.commits && cm.rev == t.store[loc].serving && Backed(c, t, cm))
  {
    RunFrom(c, s, steps);
    var t := After(c, s, steps, AnyStep);
    if loc in t.store && t.store[loc].serving != t.store[loc].loadedAt {
      assert SlotFrom(t.store[loc], CommittedRevs(t), t.history);
      var cm :| cm in t.commits && cm.rev == t.store[loc].serving;
      assert Backed(c, t, cm);
    }
  }
}
