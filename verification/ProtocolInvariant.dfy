/**
 What every interleaving of the reload protocol keeps while nobody moves shards:
 a ready key or a commit key at `r` means that the shards it speaks for have `r` or something
 newer in memory.  The statement is about the newest revision in memory and not about the staged
 one, because a shard may stage `r + 1` while its node's ready key still says `r`.
 */
module ProtocolInvariant {
  import opened Options
  import opened RevisionProtocol

  /** Every loaded shard of `node` below `upto` has `rev` or newer in memory. */
  ghost predicate AtLeast(store: map<Loc, Slot>, node: Node, rev: int, upto: nat) {
    forall i: nat {:trigger Loc(node, i)} :: i < upto && Loc(node, i) in store ==> Level(store[Loc(node, i)]) >= rev
  }

  ghost predicate SlotOk(s: State, slot: Slot) {
    && 0 <= slot.serving <= s.published
    && (slot.staged.Some? ==> slot.serving < slot.staged.value <= s.published)
  }

  ghost predicate SlotsOk(c: Cluster, s: State) {
    forall loc :: loc in s.store ==> loc.shard < c.shards && SlotOk(s, s.store[loc])
  }

  /** Everyone who holds a shard counts as an owner under `ring`. */
  ghost predicate Covers(c: Cluster, store: map<Loc, Slot>, ring: set<Node>) {
    forall loc :: loc in store ==> loc.shard < c.shards && loc.node in c.nodes && loc.node in Owners(c, ring)
  }

  /** Everyone who holds a shard has been collected. */
  ghost predicate HoldersIn(store: map<Loc, Slot>, owners: set<Node>) {
    forall loc :: loc in store ==> loc.node in owners
  }

  /** A callback inside StageReload holds the lock, passed the gate and read at least what is staged. */
  ghost predicate GatedOk(s: State, pid: nat, pc: Pc)
    requires pc.Gated?
  {
    && 1 <= pc.low <= s.published
    && (HoldsSlot(s, pc) ==>
          var slot := s.store[Loc(pc.node, pc.shard)];
          && slot.lockedBy == Some(pid)
          && slot.serving < pc.low
          && (slot.staged.Some? ==> slot.staged.value <= pc.low))
  }

  /** What each program counter knows about the shards. */
  ghost predicate PcOk(c: Cluster, s: State, pid: nat, pc: Pc) {
    match pc
    case Gated(_, _, _, _) => GatedOk(s, pid, pc)
    case Checking(n, r, i) => i <= c.shards && r >= 1 && AtLeast(s.store, n, r, i)
    case Owning(n, r, seen) =>
      AtLeast(s.store, n, r, c.shards) && (seen != [] ==> n in s.rings && AllSaw(seen, s.rings[n]))
    case Collecting(n, r, seen) => HoldersIn(s.store, Found(c, seen))
    case Deciding(n, r, seen, snapshot) =>
      HoldersIn(s.store, Found(c, seen)) && forall m :: m in snapshot ==> AtLeast(s.store, m, snapshot[m], c.shards)
    case Committing(n, r, i) => i <= c.shards && r in CommittedRevs(s)
  }

  ghost predicate PcsOk(c: Cluster, s: State) {
    forall pid :: pid in s.procs ==> PcOk(c, s, pid, s.procs[pid])
  }

  ghost predicate ReadyOk(c: Cluster, s: State) {
    forall n :: n in s.ready ==> AtLeast(s.store, n, s.ready[n], c.shards)
  }

  ghost predicate CommitsOk(c: Cluster, s: State) {
    forall cm, n :: cm in s.commits ==> AtLeast(s.store, n, cm.rev, c.shards)
  }

  ghost predicate PendingOk(s: State) {
    forall e :: e in s.pending ==> e.rev in CommittedRevs(s)
  }

  ghost predicate RingsOk(c: Cluster, s: State) {
    forall n :: n in s.rings ==> Covers(c, s.store, s.rings[n])
  }

  /** A finished StageReload left the revision it read in memory. */
  ghost predicate ReloadedOk(s: State) {
    forall loc :: loc in s.reloaded && loc in s.store ==> Level(s.store[loc]) >= s.reloaded[loc]
  }

  ghost predicate HistoryOk(s: State) {
    && s.published in s.history
    && forall r :: r in s.history ==> 0 <= r <= s.published
  }

  ghost predicate ClaimsOk(c: Cluster, s: State) {
    ReadyOk(c, s) && CommitsOk(c, s) && PendingOk(s) && RingsOk(c, s) && ReloadedOk(s)
  }

  ghost predicate Inv(c: Cluster, s: State) {
    HistoryOk(s) && SlotsOk(c, s) && PcsOk(c, s) && ClaimsOk(c, s)
  }

  /** Same shards, and each serves and holds in memory at least as new a revision. */
  ghost predicate Grows(s: State, t: State) {
    && t.store.Keys == s.store.Keys
    && t.published >= s.published
    && t.commits >= s.commits
    && (forall loc :: loc in s.store ==>
        Level(t.store[loc]) >= Level(s.store[loc]) && t.store[loc].serving >= s.store[loc].serving)
  }

  // ---------- facts that survive growth

  lemma AtLeastGrows(s: State, t: State, node: Node, rev: int, upto: nat)
    requires Grows(s, t) && AtLeast(s.store, node, rev, upto)
    ensures AtLeast(t.store, node, rev, upto)
  {
    forall i: nat | i < upto && Loc(node, i) in t.store ensures Level(t.store[Loc(node, i)]) >= rev {
      assert Loc(node, i) in s.store.Keys;
      assert Level(s.store[Loc(node, i)]) >= rev;
    }
  }

  lemma CommittedGrows(s: State, t: State)
    requires t.commits >= s.commits
    ensures CommittedRevs(t) >= CommittedRevs(s)
  {
  }

  /** A program counter keeps what it knows when a step of somebody else leaves its slot alone. */
  lemma PcGrows(c: Cluster, s: State, t: State, pid: nat, pc: Pc)
    requires Grows(s, t) && t.rings == s.rings && PcOk(c, s, pid, pc)
    requires pc.Gated? && HoldsSlot(s, pc) ==> t.store[Loc(pc.node, pc.shard)] == s.store[Loc(pc.node, pc.shard)]
    requires pc.Gated? ==> HoldsSlot(s, pc) == HoldsSlot(t, pc)
    ensures PcOk(c, t, pid, pc)
  {
    match pc
    case Gated(_, _, _, _) =>
    case Checking(n, r, i) => AtLeastGrows(s, t, n, r, i);
    case Owning(n, r, _) => AtLeastGrows(s, t, n, r, c.shards);
    case Collecting(n, r, _) =>
    case Deciding(n, r, _, snapshot) =>
      forall m | m in snapshot ensures AtLeast(t.store, m, snapshot[m], c.shards) {
        AtLeastGrows(s, t, m, snapshot[m], c.shards);
      }
    case Committing(n, r, i) => CommittedGrows(s, t);
  }

  /** Old claims survive growth; the new ones have to be shown. */
  lemma ClaimsGrow(c: Cluster, s: State, t: State)
    requires ClaimsOk(c, s) && Grows(s, t) && t.rings == s.rings
    requires forall n :: n in t.ready ==>
               (n in s.ready && t.ready[n] == s.ready[n]) || AtLeast(t.store, n, t.ready[n], c.shards)
    requires forall cm :: cm in t.commits && cm !in s.commits ==> forall n :: AtLeast(t.store, n, cm.rev, c.shards)
    requires forall e :: e in t.pending ==> e in s.pending || e.rev in CommittedRevs(t)
    requires forall loc :: loc in t.reloaded && loc in t.store ==>
                             (loc in s.reloaded && t.reloaded[loc] == s.reloaded[loc])
                             || Level(t.store[loc]) >= t.reloaded[loc]
    ensures ClaimsOk(c, t)
  {
    forall n | n in t.ready ensures AtLeast(t.store, n, t.ready[n], c.shards) {
      if n in s.ready && t.ready[n] == s.ready[n] { AtLeastGrows(s, t, n, s.ready[n], c.shards); }
    }
    forall cm, n | cm in t.commits ensures AtLeast(t.store, n, cm.rev, c.shards) {
      if cm in s.commits { AtLeastGrows(s, t, n, cm.rev, c.shards); }
    }
    CommittedGrows(s, t);
    forall loc | loc in t.reloaded && loc in t.store ensures Level(t.store[loc]) >= t.reloaded[loc] {
      assert loc in s.store.Keys;
    }
  }

  // ---------- one lemma per step that touches a shard or starts a claim

  /** Replacing one slot by one that has at least as new a revision, on behalf of process `pid`. */
  lemma SlotStep(c: Cluster, s: State, t: State, pid: nat, loc: Loc, slot: Slot)
    requires Inv(c, s) && loc in s.store && t.store == s.store[loc := slot]
    requires t.published == s.published && t.history == s.history && t.commits >= s.commits && t.rings == s.rings
    requires Level(slot) >= Level(s.store[loc]) && slot.serving >= s.store[loc].serving && SlotOk(t, slot)
             && slot.obj == s.store[loc].obj
    requires s.store[loc].lockedBy == None || s.store[loc].lockedBy == Some(pid)
    requires t.procs - {pid} == s.procs - {pid}
    requires pid in t.procs ==> PcOk(c, t, pid, t.procs[pid])
    ensures Grows(s, t) && SlotsOk(c, t) && PcsOk(c, t) && HistoryOk(t)
  {
    assert t.store.Keys == s.store.Keys;
    forall p | p in t.procs ensures PcOk(c, t, p, t.procs[p]) {
      if p != pid {
        assert p in t.procs - {pid} && (t.procs - {pid})[p] == (s.procs - {pid})[p];
        PcGrows(c, s, t, p, s.procs[p]);
      }
    }
  }

  /** A step that leaves the shards alone. */
  lemma QuietStep(c: Cluster, s: State, t: State, pid: nat)
    requires Inv(c, s) && t.store == s.store && t.history >= s.history && HistoryOk(t) && t.published >= s.published
    requires t.commits >= s.commits && t.rings == s.rings
    requires t.procs - {pid} == s.procs - {pid}
    requires pid in t.procs ==> PcOk(c, t, pid, t.procs[pid])
    ensures Grows(s, t) && SlotsOk(c, t) && PcsOk(c, t)
  {
    forall p | p in t.procs ensures PcOk(c, t, p, t.procs[p]) {
      if p != pid {
        assert p in t.procs - {pid} && (t.procs - {pid})[p] == (s.procs - {pid})[p];
        PcGrows(c, s, t, p, s.procs[p]);
      }
    }
  }

  /** A step of `pid` that changes nothing but its own program counter. */
  lemma PcStep(c: Cluster, s: State, t: State, pid: nat)
    requires Inv(c, s) && t == s.(procs := t.procs) && t.procs - {pid} == s.procs - {pid}
    requires pid in t.procs ==> PcOk(c, t, pid, t.procs[pid])
    ensures Inv(c, t) && Grows(s, t)
  {
    QuietStep(c, s, t, pid);
    ClaimsGrow(c, s, t);
  }

  lemma ReloadKeeps(c: Cluster, s: State, pid: nat, node: Node, shard: nat)
    requires Inv(c, s) && Enabled(c, s, Reload(pid, node, shard))
    ensures Inv(c, DoReload(s, pid, node, shard)) && Grows(s, DoReload(s, pid, node, shard))
  {
    var t := DoReload(s, pid, node, shard);
    if s.published <= s.store[Loc(node, shard)].serving {
      QuietStep(c, s, t, pid);
      ClaimsGrow(c, s, t);
    } else {
      LockKeeps(c, s, t, pid, Loc(node, shard));
    }
  }

  lemma LockKeeps(c: Cluster, s: State, t: State, pid: nat, loc: Loc)
    requires Inv(c, s) && pid !in s.procs && loc in s.store && Unlocked(s, loc) && s.published > s.store[loc].serving
    requires t == Advance(s.(store := s.store[loc := s.store[loc].(lockedBy := Some(pid))]), pid,
                          Gated(loc.node, loc.shard, s.store[loc].obj, s.published))
    ensures Inv(c, t) && Grows(s, t)
  {
    var slot := s.store[loc].(lockedBy := Some(pid));
    assert SlotOk(s, s.store[loc]);
    assert GatedOk(t, pid, t.procs[pid]);
    SlotStep(c, s, t, pid, loc, slot);
    ClaimsGrow(c, s, t);
  }

  lemma StageKeeps(c: Cluster, s: State, pid: nat, rev: int)
    requires Inv(c, s) && Enabled(c, s, Stage(pid, rev))
    ensures Inv(c, DoStage(s, pid, rev)) && Grows(s, DoStage(s, pid, rev))
  {
    if HoldsSlot(s, s.procs[pid]) {
      StagedSlotKeeps(c, s, DoStage(s, pid, rev), pid, rev);
    } else {
      StagedNothingKeeps(c, s, DoStage(s, pid, rev), pid, rev);
    }
  }

  /** The shard has been dropped or loaded anew meanwhile. */
  lemma StagedNothingKeeps(c: Cluster, s: State, t: State, pid: nat, rev: int)
    requires Inv(c, s) && pid in s.procs && s.procs[pid].Gated? && !HoldsSlot(s, s.procs[pid])
    requires t == DoStage(s, pid, rev) && s.procs[pid].low <= rev
    ensures Inv(c, t) && Grows(s, t)
  {
    assert PcOk(c, s, pid, s.procs[pid]);
    PcStep(c, s, t, pid);
  }

  lemma StagedSlotKeeps(c: Cluster, s: State, t: State, pid: nat, rev: int)
    requires Inv(c, s) && pid in s.procs && s.procs[pid].Gated? && HoldsSlot(s, s.procs[pid])
    requires t == DoStage(s, pid, rev) && rev in s.history && s.procs[pid].low <= rev <= s.published
    ensures Inv(c, t) && Grows(s, t)
  {
    var pc := s.procs[pid];
    assert PcOk(c, s, pid, pc);
    var loc := Loc(pc.node, pc.shard);
    SlotStep(c, s, t, pid, loc, s.store[loc].(staged := Some(rev), lockedBy := None));
    ClaimsGrow(c, s, t);
  }

  lemma StageFailKeeps(c: Cluster, s: State, pid: nat)
    requires Inv(c, s) && Enabled(c, s, StageFail(pid))
    ensures Inv(c, DoStageFail(s, pid)) && Grows(s, DoStageFail(s, pid))
  {
    var t := DoStageFail(s, pid);
    var pc := s.procs[pid];
    assert PcOk(c, s, pid, pc);
    if HoldsSlot(s, pc) {
      var loc := Loc(pc.node, pc.shard);
      assert SlotOk(s, s.store[loc]);
      SlotStep(c, s, t, pid, loc, s.store[loc].(lockedBy := None));
    } else {
      QuietStep(c, s, t, pid);
    }
    ClaimsGrow(c, s, t);
  }

  lemma CheckKeeps(c: Cluster, s: State, pid: nat)
    requires Inv(c, s) && Enabled(c, s, Check(pid))
    ensures Inv(c, DoCheck(s, pid)) && Grows(s, DoCheck(s, pid))
  {
    var t := DoCheck(s, pid);
    var pc := s.procs[pid];
    assert PcOk(c, s, pid, pc);
    if pid in t.procs {
      forall i: nat | i < pc.next + 1 && Loc(pc.node, i) in s.store ensures Level(s.store[Loc(pc.node, i)]) >= pc.rev {
        assert SlotOk(s, s.store[Loc(pc.node, i)]);
      }
      assert PcOk(c, t, pid, t.procs[pid]);
    }
    PcStep(c, s, t, pid);
  }

  lemma PutReadyKeeps(c: Cluster, s: State, pid: nat)
    requires Inv(c, s) && Enabled(c, s, PutReady(pid))
    ensures Inv(c, DoPutReady(s, pid)) && Grows(s, DoPutReady(s, pid))
  {
    var t := DoPutReady(s, pid);
    var pc := s.procs[pid];
    assert PcOk(c, s, pid, pc);
    assert AtLeast(t.store, pc.node, pc.rev, c.shards) by { AtLeastGrows(s, t, pc.node, pc.rev, c.shards); }
    QuietStep(c, s, t, pid);
    ClaimsGrow(c, s, t);
  }

  lemma LookUpKeeps(c: Cluster, s: State, pid: nat)
    requires Inv(c, s) && Enabled(c, s, LookUp(pid))
    ensures Inv(c, DoLookUp(s, pid)) && Grows(s, DoLookUp(s, pid))
  {
    assert PcOk(c, s, pid, s.procs[pid]);
    PcStep(c, s, DoLookUp(s, pid), pid);
  }

  /** The ring has not changed, so the loop has collected everyone who holds a shard. */
  lemma HaveOwnersKeeps(c: Cluster, s: State, pid: nat)
    requires Inv(c, s) && Enabled(c, s, HaveOwners(pid))
    ensures Inv(c, DoHaveOwners(c, s, pid)) && Grows(s, DoHaveOwners(c, s, pid))
  {
    var pc := s.procs[pid];
    assert PcOk(c, s, pid, pc);
    if Found(c, pc.seen) != {} {
      FoundIsOwners(c, pc.seen, s.rings[pc.node]);
      assert Covers(c, s.store, s.rings[pc.node]);
    }
    PcStep(c, s, DoHaveOwners(c, s, pid), pid);
  }

  lemma ReadReadyKeeps(c: Cluster, s: State, pid: nat)
    requires Inv(c, s) && Enabled(c, s, ReadReady(pid))
    ensures Inv(c, DoReadReady(s, pid)) && Grows(s, DoReadReady(s, pid))
  {
    assert PcOk(c, s, pid, s.procs[pid]);
    PcStep(c, s, DoReadReady(s, pid), pid);
  }

  /** A snapshot with every owner in it speaks for every loaded shard of the cluster. */
  lemma SnapshotSpeaks(c: Cluster, s: State, owners: set<Node>, snapshot: map<Node, int>, rev: int)
    requires HoldersIn(s.store, owners) && AllReady(owners, snapshot, rev)
    requires forall m :: m in snapshot ==> AtLeast(s.store, m, snapshot[m], c.shards)
    ensures forall n :: AtLeast(s.store, n, rev, c.shards)
  {
    forall n ensures AtLeast(s.store, n, rev, c.shards) {
      forall i: nat | i < c.shards && Loc(n, i) in s.store ensures Level(s.store[Loc(n, i)]) >= rev {
        assert n in owners;
        assert AtLeast(s.store, n, snapshot[n], c.shards);
      }
    }
  }

  /** The commit key is put only when every holder of a shard is covered by the snapshot. */
  lemma DecideKeeps(c: Cluster, s: State, pid: nat)
    requires Inv(c, s) && Enabled(c, s, Decide(pid))
    ensures Inv(c, DoDecide(c, s, pid)) && Grows(s, DoDecide(c, s, pid))
  {
    var t := DoDecide(c, s, pid);
    var pc := s.procs[pid];
    assert PcOk(c, s, pid, pc);
    QuietStep(c, s, t, pid);
    if AllReady(Found(c, pc.seen), pc.snapshot, pc.rev) {
      CommitPut(c, s, t, pc);
    } else {
      ClaimsGrow(c, s, t);
    }
  }

  lemma CommitPut(c: Cluster, s: State, t: State, pc: Pc)
    requires ClaimsOk(c, s) && Grows(s, t) && pc.Deciding? && AllReady(Found(c, pc.seen), pc.snapshot, pc.rev)
    requires PcOk(c, s, 0, pc)
    requires t.rings == s.rings && t.ready == s.ready && t.reloaded == s.reloaded
    requires t.commits == s.commits + {Commit(pc.rev, pc.node, pc.seen, pc.snapshot)}
    requires t.pending == s.pending + EventsFor(c.nodes, pc.rev)
    ensures ClaimsOk(c, t)
  {
    SnapshotSpeaks(c, s, Found(c, pc.seen), pc.snapshot, pc.rev);
    forall n ensures AtLeast(t.store, n, pc.rev, c.shards) { AtLeastGrows(s, t, n, pc.rev, c.shards); }
    assert Commit(pc.rev, pc.node, pc.seen, pc.snapshot) in t.commits;
    ClaimsGrow(c, s, t);
  }

  lemma DeliverKeeps(c: Cluster, s: State, pid: nat, node: Node, rev: int)
    requires Inv(c, s) && Enabled(c, s, Deliver(pid, node, rev))
    ensures Inv(c, DoDeliver(s, pid, node, rev)) && Grows(s, DoDeliver(s, pid, node, rev))
  {
    var t := DoDeliver(s, pid, node, rev);
    assert Event(node, rev).rev in CommittedRevs(s);
    QuietStep(c, s, t, pid);
    ClaimsGrow(c, s, t);
  }

  lemma CommitShardKeeps(c: Cluster, s: State, pid: nat)
    requires Inv(c, s) && Enabled(c, s, CommitShard(pid))
    ensures Inv(c, DoCommitShard(s, pid)) && Grows(s, DoCommitShard(s, pid))
  {
    var t := DoCommitShard(s, pid);
    var pc := s.procs[pid];
    assert PcOk(c, s, pid, pc);
    var loc := Loc(pc.node, pc.next);
    if loc in s.store {
      assert SlotOk(s, s.store[loc]);
      SlotStep(c, s, t, pid, loc, CommitStaged(s.store[loc], pc.rev));
    } else {
      QuietStep(c, s, t, pid);
    }
    ClaimsGrow(c, s, t);
  }

  lemma EndKeeps(c: Cluster, s: State, t: State, pid: nat)
    requires Inv(c, s) && t == Finish(s.(ready := t.ready), pid) && t.ready.Keys <= s.ready.Keys
    requires forall n :: n in t.ready ==> t.ready[n] == s.ready[n]
    ensures Inv(c, t) && Grows(s, t)
  {
    QuietStep(c, s, t, pid);
    ClaimsGrow(c, s, t);
  }

  /** Expired leases, repeated events and publications touch no shard. */
  lemma OutsideKeeps(c: Cluster, s: State, t: State)
    requires Inv(c, s)
    requires t == s.(ready := t.ready, pending := t.pending, published := t.published, history := t.history)
    requires t.ready.Keys <= s.ready.Keys && forall n :: n in t.ready ==> t.ready[n] == s.ready[n]
    requires forall e :: e in t.pending ==> e in s.pending || e.rev in CommittedRevs(s)
    requires HistoryOk(t) && t.history >= s.history && t.published >= s.published
    ensures Inv(c, t) && Grows(s, t)
  {
    forall p | p in t.procs ensures PcOk(c, t, p, t.procs[p]) { PcGrows(c, s, t, p, s.procs[p]); }
    ClaimsGrow(c, s, t);
  }

  // ---------- the theorem

  lemma CallbackStepKeeps(c: Cluster, s: State, step: Step)
    requires Inv(c, s) && Enabled(c, s, step)
    requires step.Reload? || step.Stage? || step.StageFail? || step.Check? || step.PutReady? || step.LookUp?
             || step.HaveOwners? || step.ReadReady?
    ensures Inv(c, Apply(c, s, step)) && Grows(s, Apply(c, s, step))
  {
    match step
    case Reload(pid, node, shard) => ReloadKeeps(c, s, pid, node, shard);
    case Stage(pid, rev) => StageKeeps(c, s, pid, rev);
    case StageFail(pid) => StageFailKeeps(c, s, pid);
    case Check(pid) => CheckKeeps(c, s, pid);
    case PutReady(pid) => PutReadyKeeps(c, s, pid);
    case LookUp(pid) => LookUpKeeps(c, s, pid);
    case HaveOwners(pid) => HaveOwnersKeeps(c, s, pid);
    case ReadReady(pid) => ReadReadyKeeps(c, s, pid);
  }

  lemma EndStepKeeps(c: Cluster, s: State, step: Step)
    requires Inv(c, s) && Enabled(c, s, step) && (step.EtcdFail? || step.ClearReady? || step.ClearReadyFail?)
    ensures Inv(c, Apply(c, s, step)) && Grows(s, Apply(c, s, step))
  {
    EndKeeps(c, s, Apply(c, s, step), step.pid);
  }

  lemma OutsideStepKeeps(c: Cluster, s: State, step: Step)
    requires Inv(c, s) && Enabled(c, s, step) && (step.Publish? || step.Redeliver? || step.LeaseExpire?)
    ensures Inv(c, Apply(c, s, step)) && Grows(s, Apply(c, s, step))
  {
    OutsideKeeps(c, s, Apply(c, s, step));
  }

  /** Every step that moves no shard keeps the invariant and lets no shard fall back. */
  lemma StepKeeps(c: Cluster, s: State, step: Step)
    requires Inv(c, s) && Enabled(c, s, step) && !PlacementStep(step)
    ensures Inv(c, Apply(c, s, step)) && Grows(s, Apply(c, s, step))
  {
    match step
    case Decide(pid) => DecideKeeps(c, s, pid);
    case Deliver(pid, node, rev) => DeliverKeeps(c, s, pid, node, rev);
    case CommitShard(pid) => CommitShardKeeps(c, s, pid);
    case Reload(_, _, _) => CallbackStepKeeps(c, s, step);
    case Stage(_, _) => CallbackStepKeeps(c, s, step);
    case StageFail(_) => CallbackStepKeeps(c, s, step);
    case Check(_) => CallbackStepKeeps(c, s, step);
    case PutReady(_) => CallbackStepKeeps(c, s, step);
    case LookUp(_) => CallbackStepKeeps(c, s, step);
    case HaveOwners(_) => CallbackStepKeeps(c, s, step);
    case ReadReady(_) => CallbackStepKeeps(c, s, step);
    case EtcdFail(_) => EndStepKeeps(c, s, step);
    case ClearReady(_) => EndStepKeeps(c, s, step);
    case ClearReadyFail(_) => EndStepKeeps(c, s, step);
    case _ => OutsideStepKeeps(c, s, step);
  }

  predicate FixedPlacement(step: Step) {
    !PlacementStep(step)
  }

  /** Over any run that moves no shard, with faults and repeated events anywhere in it. */
  lemma {:induction false} InvariantOverRuns(c: Cluster, s: State, steps: seq<Step>)
    requires Inv(c, s) && Run(c, s, steps, FixedPlacement)
    ensures Inv(c, After(c, s, steps, FixedPlacement)) && Grows(s, After(c, s, steps, FixedPlacement))
    decreases |steps|
  {
    if steps != [] {
      StepKeeps(c, s, steps[0]);
      InvariantOverRuns(c, Apply(c, s, steps[0]), steps[1..]);
    }
  }

  /** A cluster at rest: nothing staged, nothing in flight, no keys. */
  ghost predicate AtRest(c: Cluster, s: State) {
    && HistoryOk(s)
    && s.procs == map[] && s.ready == map[] && s.commits == {} && s.pending == multiset{} && s.reloaded == map[]
    && (forall loc :: loc in s.store ==> loc.shard < c.shards)
    && (forall loc :: loc in s.store ==> 0 <= s.store[loc].serving <= s.published && s.store[loc].staged.None?)
    && RingsOk(c, s)
  }

  /** The claim of the two etcd keys, for every reachable state: a ready key at `r` speaks for
      every loaded shard of its node, a commit key at `r` for every loaded shard of the cluster. */
  lemma KeysTellTheTruth(c: Cluster, s: State, steps: seq<Step>)
    requires AtRest(c, s) && Run(c, s, steps, FixedPlacement)
    ensures var t := After(c, s, steps, FixedPlacement);
      && (forall n, i {:trigger Loc(n, i)} :: n in t.ready && Loc(n, i) in t.store ==>
          Level(t.store[Loc(n, i)]) >= t.ready[n])
      && (forall cm, loc :: cm in t.commits && loc in t.store ==> Level(t.store[loc]) >= cm.rev)
  {
    InvariantOverRuns(c, s, steps);
    var t := After(c, s, steps, FixedPlacement);
    forall cm, loc | cm in t.commits && loc in t.store ensures Level(t.store[loc]) >= cm.rev {
      assert loc in s.store.Keys;
      assert AtLeast(t.store, loc.node, cm.rev, c.shards);
      assert loc == Loc(loc.node, loc.shard);
    }
    forall n, i | n in t.ready && Loc(n, i) in t.store ensures Level(t.store[Loc(n, i)]) >= t.ready[n] {
      assert Loc(n, i) in s.store.Keys;
      assert AtLeast(t.store, n, t.ready[n], c.shards);
    }
  }
}
