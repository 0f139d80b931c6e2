/**
 Two readings of the keys that look right and are broken by a shard that stages the next revision
 before the commit of the last one has reached it.  For both, exactly which steps break them.

 The first: "once `r` is committed, every shard serves `r` or has it staged".
 The second: "ready at `r` means that every shard of the node is staged at exactly `r`".
 */
module Restaging {
  import opened Options
  import opened RevisionProtocol
  import opened ProtocolInvariant

  // ---------- what a step does to the shards

  predicate TouchesShards(step: Step) {
    step.Reload? || step.Stage? || step.StageFail? || step.CommitShard? || PlacementStep(step)
  }

  lemma ChecksTouchNothing(s: State, pid: nat)
    requires pid in s.procs && s.procs[pid].Checking?
    ensures DoCheck(s, pid).store == s.store && DoPutReady(s, pid).store == s.store
  {
  }

  lemma DecideTouchesNothing(c: Cluster, s: State, pid: nat)
    requires pid in s.procs && s.procs[pid].Deciding?
    ensures DoDecide(c, s, pid).store == s.store
  {
  }

  lemma LookUpsTouchNothing(c: Cluster, s: State, step: Step)
    requires Enabled(c, s, step) && (step.LookUp? || step.HaveOwners? || step.ReadReady? || step.EtcdFail?)
    ensures Apply(c, s, step).store == s.store
  {
  }

  lemma OthersTouchNothing(c: Cluster, s: State, step: Step)
    requires Enabled(c, s, step)
    requires step.Publish? || step.Deliver? || step.Redeliver? || step.ClearReady? || step.ClearReadyFail?
             || step.LeaseExpire?
    ensures Apply(c, s, step).store == s.store
  {
  }

  lemma StoreStays(c: Cluster, s: State, step: Step)
    requires Enabled(c, s, step) && !TouchesShards(step)
    ensures Apply(c, s, step).store == s.store
  {
    if step.Check? || step.PutReady? {
      ChecksTouchNothing(s, step.pid);
    } else if step.Decide? {
      DecideTouchesNothing(c, s, step.pid);
    } else if step.LookUp? || step.HaveOwners? || step.ReadReady? || step.EtcdFail? {
      LookUpsTouchNothing(c, s, step);
    } else {
      OthersTouchNothing(c, s, step);
    }
  }

  /** Locking and unlocking a shard changes neither what it serves nor what it has staged. */
  ghost predicate SameData(a: map<Loc, Slot>, b: map<Loc, Slot>) {
    a.Keys == b.Keys && forall loc :: loc in a ==> b[loc].serving == a[loc].serving && b[loc].staged == a[loc].staged
  }

  lemma LocksKeepData(s: State, pid: nat, node: Node, shard: nat)
    ensures Loc(node, shard) in s.store ==> SameData(s.store, DoReload(s, pid, node, shard).store)
    ensures pid in s.procs && s.procs[pid].Gated? ==> SameData(s.store, DoStageFail(s, pid).store)
  {
  }

  lemma DataStays(c: Cluster, s: State, step: Step)
    requires Enabled(c, s, step) && !step.Stage? && !step.CommitShard? && !PlacementStep(step)
    ensures SameData(s.store, Apply(c, s, step).store)
  {
    match step
    case Reload(pid, node, shard) => LocksKeepData(s, pid, node, shard);
    case StageFail(pid) => LocksKeepData(s, pid, "", 0);
    case _ => StoreStays(c, s, step);
  }

  /** The step stages something on a shard that is still in the store. */
  predicate StagesOn(s: State, step: Step) {
    step.Stage? && step.pid in s.procs && HoldsSlot(s, s.procs[step.pid])
  }

  // ---------- serving it or having it staged

  predicate Kept(slot: Slot, r: int) {
    slot.serving >= r || slot.staged == Some(r)
  }

  ghost predicate AllKept(store: map<Loc, Slot>, r: int) {
    forall loc :: loc in store ==> Kept(store[loc], r)
  }

  /** A shard that does not serve `r` yet replaces its staged `r`. */
  predicate Overtakes(s: State, step: Step, r: int) {
    && StagesOn(s, step) && step.rev != r
    && s.store[Loc(s.procs[step.pid].node, s.procs[step.pid].shard)].serving < r
  }

  lemma StageKeptIff(c: Cluster, s: State, pid: nat, rev: int, r: int)
    requires AllKept(s.store, r) && pid in s.procs && s.procs[pid].Gated?
    ensures AllKept(DoStage(s, pid, rev).store, r) <==> !Overtakes(s, Stage(pid, rev), r)
  {
    var t := DoStage(s, pid, rev);
    var pc := s.procs[pid];
    if HoldsSlot(s, pc) {
      var loc := Loc(pc.node, pc.shard);
      assert t.store[loc].serving == s.store[loc].serving && t.store[loc].staged == Some(rev);
      assert loc in t.store && Kept(s.store[loc], r);
    }
  }

  lemma CommitKept(c: Cluster, s: State, pid: nat, r: int)
    requires Inv(c, s) && AllKept(s.store, r) && pid in s.procs && s.procs[pid].Committing?
    ensures AllKept(DoCommitShard(s, pid).store, r)
  {
    var t := DoCommitShard(s, pid);
    forall loc | loc in t.store ensures Kept(t.store[loc], r) {
      assert Kept(s.store[loc], r) && SlotOk(s, s.store[loc]);
    }
  }

  /** Once every shard serves `r` or something newer or has `r` staged, a step ends that if and only if
      it overtakes. */
  lemma KeptIff(c: Cluster, s: State, step: Step, r: int)
    requires Inv(c, s) && AllKept(s.store, r) && Enabled(c, s, step) && !PlacementStep(step)
    ensures AllKept(Apply(c, s, step).store, r) <==> !Overtakes(s, step, r)
  {
    match step
    case Stage(pid, rev) => StageKeptIff(c, s, pid, rev, r);
    case CommitShard(pid) => CommitKept(c, s, pid, r);
    case _ => DataStays(c, s, step);
  }

  ghost predicate KeptThroughout(c: Cluster, s: State, steps: seq<Step>, r: int)
    requires Run(c, s, steps, FixedPlacement)
    decreases |steps|
  {
    AllKept(s.store, r) && (steps != [] ==> KeptThroughout(c, Apply(c, s, steps[0]), steps[1..], r))
  }

  predicate NeverOvertaken(c: Cluster, s: State, steps: seq<Step>, r: int)
    requires Run(c, s, steps, FixedPlacement)
    decreases |steps|
  {
    steps == [] || (!Overtakes(s, steps[0], r) && NeverOvertaken(c, Apply(c, s, steps[0]), steps[1..], r))
  }

  /** So it stays that way over a whole run if and only if no step of the run overtakes. */
  lemma {:induction false} KeptThroughoutIff(c: Cluster, s: State, steps: seq<Step>, r: int)
    requires Inv(c, s) && AllKept(s.store, r) && Run(c, s, steps, FixedPlacement)
    ensures KeptThroughout(c, s, steps, r) <==> NeverOvertaken(c, s, steps, r)
    decreases |steps|
  {
    if steps != [] {
      KeptIff(c, s, steps[0], r);
      StepKeeps(c, s, steps[0]);
      var t := Apply(c, s, steps[0]);
      if AllKept(t.store, r) {
        KeptThroughoutIff(c, t, steps[1..], r);
      }
    }
  }

  /** In any reachable state with a commit key at `r`: every shard serves `r` or newer or has it staged,
      if and only if none is left behind `r` with something newer staged. */
  lemma CommittedIsKeptIff(c: Cluster, s: State, steps: seq<Step>, r: int)
    requires AtRest(c, s) && Run(c, s, steps, FixedPlacement) && r in CommittedRevs(After(c, s, steps, FixedPlacement))
    ensures var t := After(c, s, steps, FixedPlacement);
      AllKept(t.store, r) <==>
        forall loc :: loc in t.store ==>
          !(t.store[loc].serving < r && t.store[loc].staged.Some? && t.store[loc].staged.value > r)
  {
    KeysTellTheTruth(c, s, steps);
    var t := After(c, s, steps, FixedPlacement);
    var cm :| cm in t.commits && cm.rev == r;
    forall loc | loc in t.store ensures Level(t.store[loc]) >= r {
      assert Level(t.store[loc]) >= cm.rev;
    }
    forall loc | loc in t.store
      ensures Kept(t.store[loc], r) <==>
                !(t.store[loc].serving < r && t.store[loc].staged.Some? && t.store[loc].staged.value > r)
    {
      assert Level(t.store[loc]) >= r;
    }
  }

  // ---------- staged at exactly it

  ghost predicate StagedExactly(store: map<Loc, Slot>, n: Node, r: int) {
    forall loc :: loc in store && loc.node == n ==> store[loc].staged == Some(r)
  }

  /** A shard of the node stages another revision, or its commit event arrives. */
  predicate Unstages(s: State, step: Step, n: Node, r: int) {
    || (StagesOn(s, step) && s.procs[step.pid].node == n && step.rev != r)
    || (step.CommitShard? && step.pid in s.procs && s.procs[step.pid].Committing? && s.procs[step.pid].node == n
        && s.procs[step.pid].rev == r && Loc(n, s.procs[step.pid].next) in s.store)
  }

  lemma StageExactlyIff(s: State, pid: nat, rev: int, n: Node, r: int)
    requires StagedExactly(s.store, n, r) && pid in s.procs && s.procs[pid].Gated?
    ensures StagedExactly(DoStage(s, pid, rev).store, n, r) <==> !Unstages(s, Stage(pid, rev), n, r)
  {
    var t := DoStage(s, pid, rev);
    var pc := s.procs[pid];
    if HoldsSlot(s, pc) {
      assert Loc(pc.node, pc.shard) in t.store && t.store[Loc(pc.node, pc.shard)].staged == Some(rev);
    }
  }

  lemma CommitExactlyIff(s: State, pid: nat, n: Node, r: int)
    requires StagedExactly(s.store, n, r) && pid in s.procs && s.procs[pid].Committing?
    ensures StagedExactly(DoCommitShard(s, pid).store, n, r) <==> !Unstages(s, CommitShard(pid), n, r)
  {
    var t := DoCommitShard(s, pid);
    var loc := Loc(s.procs[pid].node, s.procs[pid].next);
    if loc in s.store && loc.node == n {
      assert s.store[loc].staged == Some(r);
      assert loc in t.store && (s.procs[pid].rev == r ==> t.store[loc].staged == None);
    }
  }

  /** While all shards of a node are staged at exactly `r`, a step ends that if and only if a shard of
      the node stages another revision or is committed at `r`: with a single revision published, the
      commit is enough. */
  lemma StagedExactlyIff(c: Cluster, s: State, step: Step, n: Node, r: int)
    requires StagedExactly(s.store, n, r) && Enabled(c, s, step) && !PlacementStep(step)
    ensures StagedExactly(Apply(c, s, step).store, n, r) <==> !Unstages(s, step, n, r)
  {
    match step
    case Stage(pid, rev) => StageExactlyIff(s, pid, rev, n, r);
    case CommitShard(pid) => CommitExactlyIff(s, pid, n, r);
    case _ => DataStays(c, s, step);
  }
}
