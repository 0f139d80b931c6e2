/**
 What a cycle in which no signal is lost keeps before its commit key is put: a node whose shards are all
 staged has put its ready key or is about to, and when every owner has, somebody is about to notice.
 Only shards count whose callbacks are on the record, so it does not matter what was lost before the
 record was begun.
 */
module Signals {
  import opened Options
  import opened RevisionProtocol
  import opened ProtocolInvariant
  import opened AllOrNothing

  /** No call fails between the shard check and the commit key, no lease is lost, and no event of an
      older commit comes back, which would delete a ready key.  LostSignals shows that each of the
      three can leave the cluster unswitched. */
  predicate Lossless(r: int, step: Step) {
    Cycle(r, step) && !step.EtcdFail? && !step.LeaseExpire? && (step.Redeliver? ==> step.rev == r)
  }

  function LosslessSteps(r: int): Step -> bool {
    (step: Step) => Lossless(r, step)
  }

  // ---------- before the commit key is put

  /** What has been looked up of the owners is what `ring` says. */
  ghost predicate LookedUp(c: Cluster, pc: Pc, ring: set<Node>) {
    && (pc.Owning? ==> AllSaw(pc.seen, ring))
    && (pc.Collecting? || pc.Deciding? ==> Found(c, pc.seen) == Owners(c, ring))
  }

  ghost predicate RingsAre(c: Cluster, s: State, ring: set<Node>) {
    && (forall n :: n in s.rings ==> s.rings[n] == ring)
    && (forall pid :: pid in s.procs ==> LookedUp(c, s.procs[pid], ring))
  }

  ghost predicate NoHandlers(s: State) {
    s.pending == multiset{} && forall pid :: pid in s.procs ==> !s.procs[pid].Committing?
  }

  /** Every shard of the node has staged `r` in a callback that is on the record. */
  ghost predicate Due(s: State, n: Node, r: int) {
    forall loc :: loc in s.store && loc.node == n ==>
                    s.store[loc].staged == Some(r) && loc in s.reloaded && s.reloaded[loc] == r
  }

  ghost predicate AllDue(s: State, owners: set<Node>, r: int) {
    forall n :: n in owners ==> Due(s, n, r)
  }

  predicate ChecksFor(pc: Pc, n: Node) {
    pc.Checking? && pc.node == n
  }

  /** The node has put its ready key, or a callback that will put it is checking the shards. */
  ghost predicate Signalled(s: State, n: Node, r: int) {
    || (n in s.ready && s.ready[n] == r)
    || (exists pid :: pid in s.procs && ChecksFor(s.procs[pid], n))
  }

  ghost predicate SignalsOk(s: State, owners: set<Node>, r: int) {
    forall n :: n in owners && Due(s, n, r) ==> Signalled(s, n, r)
  }

  predicate WillCommit(pc: Pc, owners: set<Node>, r: int) {
    pc.Checking? || pc.Owning? || pc.Collecting? || (pc.Deciding? && AllReady(owners, pc.snapshot, r))
  }

  /** With every owner ready and due, somebody is about to notice. */
  ghost predicate DeciderOk(s: State, owners: set<Node>, r: int) {
    owners != {} && AllDue(s, owners, r) && AllReady(owners, s.ready, r) ==>
      exists pid :: pid in s.procs && WillCommit(s.procs[pid], owners, r)
  }

  ghost predicate Before(c: Cluster, s: State, ring: set<Node>, r: int) {
    && NoHandlers(s) && RingsAre(c, s, ring) && HoldersIn(s.store, Owners(c, ring))
    && SignalsOk(s, Owners(c, ring), r) && DeciderOk(s, Owners(c, ring), r)
  }

  // ---------- what a step of process `pid` has to respect

  ghost predicate Moves(s: State, t: State, pid: nat) {
    && t.rings == s.rings && t.store.Keys == s.store.Keys && t.pending == s.pending
    && forall p :: p != pid ==> (p in t.procs <==> p in s.procs) && (p in s.procs ==> t.procs[p] == s.procs[p])
  }

  /** What becomes due in the step is being checked by `pid`. */
  ghost predicate DueIsChecked(s: State, t: State, pid: nat, r: int) {
    forall n :: Due(t, n, r) && !Due(s, n, r) ==> pid in t.procs && ChecksFor(t.procs[pid], n)
  }

  lemma SignalsStep(s: State, t: State, pid: nat, owners: set<Node>, r: int)
    requires SignalsOk(s, owners, r) && Moves(s, t, pid) && DueIsChecked(s, t, pid, r)
    requires forall n :: n in s.ready && s.ready[n] == r ==> n in t.ready && t.ready[n] == r
    requires pid in s.procs && s.procs[pid].Checking? && Due(s, s.procs[pid].node, r) ==>
               Signalled(t, s.procs[pid].node, r)
    ensures SignalsOk(t, owners, r)
  {
    forall n | n in owners && Due(t, n, r) ensures Signalled(t, n, r) {
      if Due(s, n, r) && !(n in s.ready && s.ready[n] == r) {
        assert Signalled(s, n, r);
        var p :| p in s.procs && ChecksFor(s.procs[p], n);
        if p != pid { assert ChecksFor(t.procs[p], n); }
      }
    }
  }

  lemma DeciderStep(s: State, t: State, pid: nat, owners: set<Node>, r: int)
    requires DeciderOk(s, owners, r) && Moves(s, t, pid) && DueIsChecked(s, t, pid, r)
    requires AllReady(owners, t.ready, r) ==>
               AllReady(owners, s.ready, r) || (pid in t.procs && WillCommit(t.procs[pid], owners, r))
    requires pid in s.procs && WillCommit(s.procs[pid], owners, r) && AllDue(s, owners, r)
             && AllReady(owners, s.ready, r) ==>
               pid in t.procs && WillCommit(t.procs[pid], owners, r)
    ensures DeciderOk(t, owners, r)
  {
    if owners != {} && AllDue(t, owners, r) && AllReady(owners, t.ready, r)
       && !(pid in t.procs && WillCommit(t.procs[pid], owners, r)) {
      assert AllDue(s, owners, r);
      var p :| p in s.procs && WillCommit(s.procs[p], owners, r);
      assert WillCommit(t.procs[p], owners, r);
    }
  }

  /** A step of `pid` that puts no ready key. */
  lemma MoveBefore(c: Cluster, s: State, t: State, pid: nat, ring: set<Node>, r: int)
    requires Before(c, s, ring, r) && Moves(s, t, pid) && DueIsChecked(s, t, pid, r) && t.ready == s.ready
    requires pid in t.procs ==> !t.procs[pid].Committing? && LookedUp(c, t.procs[pid], ring)
    requires pid in s.procs && s.procs[pid].Checking? && Due(s, s.procs[pid].node, r) ==>
               pid in t.procs && ChecksFor(t.procs[pid], s.procs[pid].node)
    requires pid in s.procs && WillCommit(s.procs[pid], Owners(c, ring), r)
             && AllDue(s, Owners(c, ring), r) && AllReady(Owners(c, ring), s.ready, r) ==>
               pid in t.procs && WillCommit(t.procs[pid], Owners(c, ring), r)
    ensures Before(c, t, ring, r)
  {
    SignalsStep(s, t, pid, Owners(c, ring), r);
    DeciderStep(s, t, pid, Owners(c, ring), r);
    assert HoldersIn(t.store, Owners(c, ring)) by {
      forall loc | loc in t.store ensures loc.node in Owners(c, ring) { assert loc in s.store.Keys; }
    }
  }

  // ---------- the steps

  /** A StageReload step of `pid` on one shard: newly staged data comes with a callback that goes on to
      check the node's shards, and a shard that is found up to date has nothing staged. */
  lemma SlotBefore(c: Cluster, s: State, t: State, ring: set<Node>, r: int, pid: nat, loc: Loc, slot: Slot)
    requires Before(c, s, ring, r) && Moves(s, t, pid) && t.ready == s.ready
    requires loc in s.store && t.store == s.store[loc := slot]
    requires forall l :: l in t.reloaded && l != loc ==> l in s.reloaded && t.reloaded[l] == s.reloaded[l]
    requires slot.staged == Some(r) ==>
               (pid in t.procs && ChecksFor(t.procs[pid], loc.node))
               || (slot.staged == s.store[loc].staged && t.reloaded == s.reloaded)
    requires pid in s.procs ==> s.procs[pid].Gated?
    requires pid in t.procs ==> t.procs[pid].Gated? || t.procs[pid].Checking?
    ensures Before(c, t, ring, r)
  {
    forall n | Due(t, n, r) && !(pid in t.procs && ChecksFor(t.procs[pid], n)) ensures Due(s, n, r) {
      forall l | l in s.store && l.node == n
        ensures s.store[l].staged == Some(r) && l in s.reloaded && s.reloaded[l] == r
      {
        assert l in t.store && t.store[l].staged == Some(r);
      }
    }
    MoveBefore(c, s, t, pid, ring, r);
  }

  lemma ReloadBefore(c: Cluster, s: State, ring: set<Node>, r: int, pid: nat, node: Node, shard: nat)
    requires Before(c, s, ring, r) && SlotsOk(c, s) && Enabled(c, s, Reload(pid, node, shard))
    ensures Before(c, DoReload(s, pid, node, shard), ring, r)
  {
    var loc := Loc(node, shard);
    var slot := s.store[loc];
    assert SlotOk(s, slot);
    if s.published <= slot.serving {
      assert s.store == s.store[loc := slot];
      SlotBefore(c, s, s.(reloaded := s.reloaded[loc := s.published]), ring, r, pid, loc, slot);
    } else {
      SlotBefore(c, s, DoReload(s, pid, node, shard), ring, r, pid, loc, slot.(lockedBy := Some(pid)));
    }
  }

  lemma StageBefore(c: Cluster, s: State, ring: set<Node>, r: int, pid: nat, rev: int)
    requires Before(c, s, ring, r) && Enabled(c, s, Stage(pid, rev))
    ensures Before(c, DoStage(s, pid, rev), ring, r)
  {
    var t := DoStage(s, pid, rev);
    var pc := s.procs[pid];
    if HoldsSlot(s, pc) {
      var loc := Loc(pc.node, pc.shard);
      SlotBefore(c, s, t, ring, r, pid, loc, t.store[loc]);
    } else {
      MoveBefore(c, s, t, pid, ring, r);
    }
  }

  lemma StageFailBefore(c: Cluster, s: State, ring: set<Node>, r: int, pid: nat)
    requires Before(c, s, ring, r) && Enabled(c, s, StageFail(pid))
    ensures Before(c, DoStageFail(s, pid), ring, r)
  {
    var t := DoStageFail(s, pid);
    var pc := s.procs[pid];
    if HoldsSlot(s, pc) {
      var loc := Loc(pc.node, pc.shard);
      SlotBefore(c, s, t, ring, r, pid, loc, t.store[loc]);
    } else {
      MoveBefore(c, s, t, pid, ring, r);
    }
  }

  /** The check of a node that is due does not give up. */
  lemma CheckBefore(c: Cluster, s: State, ring: set<Node>, r: int, pid: nat)
    requires Before(c, s, ring, r) && Enabled(c, s, Check(pid)) && PcTwo(s.procs[pid], r)
    ensures Before(c, DoCheck(s, pid), ring, r)
  {
    MoveBefore(c, s, DoCheck(s, pid), pid, ring, r);
  }

  lemma PutReadyBefore(c: Cluster, s: State, ring: set<Node>, r: int, pid: nat)
    requires Before(c, s, ring, r) && Enabled(c, s, PutReady(pid)) && PcTwo(s.procs[pid], r)
    ensures Before(c, DoPutReady(s, pid), ring, r)
  {
    var t := DoPutReady(s, pid);
    SignalsStep(s, t, pid, Owners(c, ring), r);
    DeciderStep(s, t, pid, Owners(c, ring), r);
  }

  lemma LookUpBefore(c: Cluster, s: State, ring: set<Node>, r: int, pid: nat)
    requires Before(c, s, ring, r) && Enabled(c, s, LookUp(pid))
    ensures Before(c, DoLookUp(s, pid), ring, r)
  {
    MoveBefore(c, s, DoLookUp(s, pid), pid, ring, r);
  }

  lemma HaveOwnersBefore(c: Cluster, s: State, ring: set<Node>, r: int, pid: nat)
    requires Before(c, s, ring, r) && Enabled(c, s, HaveOwners(pid))
    ensures Owners(c, ring) != {} ==> Before(c, DoHaveOwners(c, s, pid), ring, r)
  {
    FoundIsOwners(c, s.procs[pid].seen, ring);
    if Owners(c, ring) != {} { MoveBefore(c, s, DoHaveOwners(c, s, pid), pid, ring, r); }
  }

  lemma ReadReadyBefore(c: Cluster, s: State, ring: set<Node>, r: int, pid: nat)
    requires Before(c, s, ring, r) && Enabled(c, s, ReadReady(pid))
    ensures Before(c, DoReadReady(s, pid), ring, r)
  {
    MoveBefore(c, s, DoReadReady(s, pid), pid, ring, r);
  }

  /** A callback that does not find all owners ready leaves the commit to another one. */
  lemma DecideBefore(c: Cluster, s: State, ring: set<Node>, r: int, pid: nat)
    requires Before(c, s, ring, r) && Enabled(c, s, Decide(pid)) && PcTwo(s.procs[pid], r)
    ensures r in CommittedRevs(DoDecide(c, s, pid)) || Before(c, DoDecide(c, s, pid), ring, r)
  {
    var t := DoDecide(c, s, pid);
    var pc := s.procs[pid];
    if AllReady(Owners(c, ring), pc.snapshot, r) {
      assert Commit(r, pc.node, pc.seen, pc.snapshot) in t.commits;
    } else {
      MoveBefore(c, s, t, pid, ring, r);
    }
  }

  lemma PublishBefore(c: Cluster, s: State, ring: set<Node>, r: int, rev: int)
    requires Before(c, s, ring, r) && Enabled(c, s, Publish(rev))
    ensures Before(c, Apply(c, s, Publish(rev)), ring, r)
  {
    var t := Apply(c, s, Publish(rev));
    forall n | n in Owners(c, ring) && Due(t, n, r) ensures Signalled(t, n, r) {
      assert Due(s, n, r) && Signalled(s, n, r);
    }
    assert AllDue(t, Owners(c, ring), r) ==> AllDue(s, Owners(c, ring), r);
  }

  lemma StepBefore(c: Cluster, s: State, ring: set<Node>, r0: int, r: int, early: set<Loc>, step: Step)
    requires Inv(c, s) && TwoRevs(s, r0, r, early) && Before(c, s, ring, r)
    requires Owners(c, ring) != {} && r !in CommittedRevs(s) && Enabled(c, s, step) && Lossless(r, step)
    ensures r in CommittedRevs(Apply(c, s, step)) || Before(c, Apply(c, s, step), ring, r)
  {
    match step
    case Publish(rev) => PublishBefore(c, s, ring, r, rev);
    case Reload(pid, node, shard) => ReloadBefore(c, s, ring, r, pid, node, shard);
    case Stage(pid, rev) => StageBefore(c, s, ring, r, pid, rev);
    case StageFail(pid) => StageFailBefore(c, s, ring, r, pid);
    case Check(pid) => CheckBefore(c, s, ring, r, pid);
    case PutReady(pid) => PutReadyBefore(c, s, ring, r, pid);
    case LookUp(pid) => LookUpBefore(c, s, ring, r, pid);
    case HaveOwners(pid) => HaveOwnersBefore(c, s, ring, r, pid);
    case ReadReady(pid) => ReadReadyBefore(c, s, ring, r, pid);
    case Decide(pid) => DecideBefore(c, s, ring, r, pid);
    case _ =>
  }

  lemma {:induction false} RunBefore(c: Cluster, s: State, ring: set<Node>, r0: int, r: int, early: set<Loc>,
                                     steps: seq<Step>)
    requires Inv(c, s) && TwoRevs(s, r0, r, early) && Owners(c, ring) != {} && Run(c, s, steps, LosslessSteps(r))
    requires r in CommittedRevs(s) || Before(c, s, ring, r)
    ensures var t := After(c, s, steps, LosslessSteps(r)); r in CommittedRevs(t) || Before(c, t, ring, r)
    decreases |steps|
  {
    if steps != [] {
      var t := Apply(c, s, steps[0]);
      StepKeeps(c, s, steps[0]);
      StepTwo(c, s, r0, r, early, steps[0]);
      CommittedGrows(s, t);
      if r !in CommittedRevs(s) { StepBefore(c, s, ring, r0, r, early, steps[0]); }
      RunBefore(c, t, ring, r0, r, early, steps[1..]);
    }
  }

  /** A lossless run is a run of the cycle. */
  lemma {:induction false} LosslessIsCycle(c: Cluster, s: State, r: int, steps: seq<Step>)
    requires Run(c, s, steps, LosslessSteps(r))
    ensures Run(c, s, steps, CycleSteps(r)) && After(c, s, steps, CycleSteps(r)) == After(c, s, steps, LosslessSteps(r))
    decreases |steps|
  {
    if steps != [] {
      LosslessIsCycle(c, Apply(c, s, steps[0]), r, steps[1..]);
    }
  }
}
