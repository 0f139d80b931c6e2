/**
 The owners that a commit waits for are looked up one replica key at a time, and the ring may change
 in between.  What that means for the commits: when the collected set speaks for a ring, and what
 happens when it does not.
 */
module RingChanges {
  import opened RevisionProtocol
  import opened Provenance

  /** If no lookup of the writer fell on the other side of a ring change, all owners by its ring were
      ready. */
  lemma OneRingBacks(c: Cluster, s: State, cm: Commit, ring: set<Node>)
    requires Backed(c, s, cm) && AllSaw(cm.seen, ring)
    ensures Owners(c, ring) != {} && ReadyFor(s, cm, Owners(c, ring))
  {
    FoundIsOwners(c, cm.seen, ring);
  }

  /** The replica key at `j` was looked up in a ring that gives it to `n`. */
  predicate FoundAt(c: Cluster, cm: Commit, j: nat, n: Node)
    requires j < |cm.seen| && j < |ReplicaKeys(c)|
  {
    cm.seen[j] != {} && c.owner(cm.seen[j], ReplicaKeys(c)[j].0, ReplicaKeys(c)[j].1) == n
  }

  /** `ring` gives the replica key at `j` to `n`. */
  predicate KeyOf(c: Cluster, ring: set<Node>, j: nat, n: Node)
    requires j < |ReplicaKeys(c)|
  {
    ring != {} && c.owner(ring, ReplicaKeys(c)[j].0, ReplicaKeys(c)[j].1) == n
  }

  /** Every replica key that `ring` gives to `n` was looked up in a ring that gives it to another node. */
  ghost predicate LookedUpElsewhere(c: Cluster, cm: Commit, ring: set<Node>, n: Node)
    requires |cm.seen| == |ReplicaKeys(c)|
  {
    forall j: nat :: j < |cm.seen| && KeyOf(c, ring, j, n) ==> !FoundAt(c, cm, j, n)
  }

  predicate HeldReady(cm: Commit, n: Node) {
    n in cm.snapshot && cm.snapshot[n] == cm.rev
  }

  /** A commit key misses an owner by `ring` exactly when its writer had looked up every replica key of
      that owner in rings that give it to other nodes, and had not read the owner's ready key either. */
  lemma MissesOwnerIff(c: Cluster, s: State, cm: Commit, ring: set<Node>, n: Node)
    requires Backed(c, s, cm) && n in Owners(c, ring)
    ensures !ReadyFor(s, cm, {n}) <==> LookedUpElsewhere(c, cm, ring, n) && !HeldReady(cm, n)
  {
    if !LookedUpElsewhere(c, cm, ring, n) {
      var j: nat :| j < |cm.seen| && KeyOf(c, ring, j, n) && FoundAt(c, cm, j, n);
      assert n in Found(c, cm.seen);
    }
  }

  /** So over any run whatever, all owners by `ring` are behind a commit key exactly when each of them was
      found under a key that is its own by `ring`, or was ready all the same. */
  lemma SpeaksForRingIff(c: Cluster, s: State, steps: seq<Step>, cm: Commit, ring: set<Node>)
    requires Empty(s) && Run(c, s, steps, AnyStep) && cm in After(c, s, steps, AnyStep).commits
    ensures |cm.seen| == |ReplicaKeys(c)|
    ensures ReadyFor(After(c, s, steps, AnyStep), cm, Owners(c, ring)) <==>
            forall n :: n in Owners(c, ring) ==> !LookedUpElsewhere(c, cm, ring, n) || HeldReady(cm, n)
  {
    RunFrom(c, s, steps);
    var t := After(c, s, steps, AnyStep);
    assert Backed(c, t, cm);
    forall n | n in Owners(c, ring)
      ensures ReadyFor(t, cm, {n}) <==> !LookedUpElsewhere(c, cm, ring, n) || HeldReady(cm, n)
    {
      MissesOwnerIff(c, t, cm, ring, n);
    }
    if forall n :: n in Owners(c, ring) ==> !LookedUpElsewhere(c, cm, ring, n) || HeldReady(cm, n) {
      forall n | n in Owners(c, ring) ensures ReadyFor(t, cm, {n}) {}
    }
  }

  // ---------- a node whose ring does not change

  predicate SawOnly(pc: Pc, w: Node, ring: set<Node>) {
    pc.node == w && (pc.Owning? || pc.Collecting? || pc.Deciding?) ==>
      forall j :: 0 <= j < |pc.seen| ==> pc.seen[j] == ring
  }

  /** Node `w` sees `ring`, and so have its lookups and its commits, those in `before` aside. */
  ghost predicate Steady(s: State, w: Node, ring: set<Node>, before: set<Commit>) {
    && w in s.rings && s.rings[w] == ring
    && (forall pid :: pid in s.procs ==> SawOnly(s.procs[pid], w, ring))
    && (forall cm :: cm in s.commits && cm !in before && cm.writer == w ==> AllSaw(cm.seen, ring))
  }

  predicate KeepsRingOf(w: Node, step: Step) {
    step.RingChange? ==> step.node != w
  }

  function KeepingRingOf(w: Node): Step -> bool {
    (step: Step) => KeepsRingOf(w, step)
  }

  lemma SteadyMoves(s: State, t: State, w: Node, ring: set<Node>, before: set<Commit>)
    requires Steady(s, w, ring, before) && t.commits == s.commits && w in t.rings && t.rings[w] == ring
    requires forall pid :: pid in t.procs ==>
               (pid in s.procs && t.procs[pid] == s.procs[pid]) || SawOnly(t.procs[pid], w, ring)
    ensures Steady(t, w, ring, before)
  {
  }

  lemma LookUpSteady(c: Cluster, s: State, w: Node, ring: set<Node>, before: set<Commit>, step: Step)
    requires Steady(s, w, ring, before) && Enabled(c, s, step)
    requires step.LookUp? || step.HaveOwners? || step.ReadReady? || step.EtcdFail?
    ensures Steady(Apply(c, s, step), w, ring, before)
  {
    assert SawOnly(s.procs[step.pid], w, ring);
    SteadyMoves(s, Apply(c, s, step), w, ring, before);
  }

  lemma DecideSteady(c: Cluster, s: State, w: Node, ring: set<Node>, before: set<Commit>, pid: nat)
    requires Steady(s, w, ring, before) && Enabled(c, s, Decide(pid))
    ensures Steady(DoDecide(c, s, pid), w, ring, before)
  {
    assert SawOnly(s.procs[pid], w, ring);
  }

  lemma ReloadSteady(s: State, w: Node, ring: set<Node>, before: set<Commit>, pid: nat, node: Node, shard: nat)
    requires Steady(s, w, ring, before) && Loc(node, shard) in s.store
    ensures Steady(DoReload(s, pid, node, shard), w, ring, before)
  {
    SteadyMoves(s, DoReload(s, pid, node, shard), w, ring, before);
  }

  lemma StageSteady(s: State, w: Node, ring: set<Node>, before: set<Commit>, pid: nat, rev: int)
    requires Steady(s, w, ring, before) && pid in s.procs && s.procs[pid].Gated?
    ensures Steady(DoStage(s, pid, rev), w, ring, before) && Steady(DoStageFail(s, pid), w, ring, before)
  {
    SteadyMoves(s, DoStage(s, pid, rev), w, ring, before);
    SteadyMoves(s, DoStageFail(s, pid), w, ring, before);
  }

  lemma CheckSteady(s: State, w: Node, ring: set<Node>, before: set<Commit>, pid: nat)
    requires Steady(s, w, ring, before) && pid in s.procs && s.procs[pid].Checking?
    ensures Steady(DoCheck(s, pid), w, ring, before) && Steady(DoPutReady(s, pid), w, ring, before)
  {
    SteadyMoves(s, DoCheck(s, pid), w, ring, before);
    SteadyMoves(s, DoPutReady(s, pid), w, ring, before);
  }

  lemma BeginSteady(c: Cluster, s: State, w: Node, ring: set<Node>, before: set<Commit>, step: Step)
    requires Steady(s, w, ring, before) && Enabled(c, s, step) && (step.OrphanSignal? || step.Deliver?)
    ensures Steady(Apply(c, s, step), w, ring, before)
  {
    SteadyMoves(s, Apply(c, s, step), w, ring, before);
  }

  lemma CommitSteady(c: Cluster, s: State, w: Node, ring: set<Node>, before: set<Commit>, step: Step)
    requires Steady(s, w, ring, before) && Enabled(c, s, step)
    requires step.CommitShard? || step.ClearReady? || step.ClearReadyFail?
    ensures Steady(Apply(c, s, step), w, ring, before)
  {
    SteadyMoves(s, Apply(c, s, step), w, ring, before);
  }

  lemma WorldSteady(c: Cluster, s: State, w: Node, ring: set<Node>, before: set<Commit>, step: Step)
    requires Steady(s, w, ring, before) && Enabled(c, s, step) && KeepsRingOf(w, step)
    requires step.Publish? || step.Redeliver? || step.LeaseExpire? || step.RingChange? || step.Load? || step.Unload?
    ensures Steady(Apply(c, s, step), w, ring, before)
  {
    SteadyMoves(s, Apply(c, s, step), w, ring, before);
  }

  lemma StepSteady(c: Cluster, s: State, w: Node, ring: set<Node>, before: set<Commit>, step: Step)
    requires Steady(s, w, ring, before) && Enabled(c, s, step) && KeepsRingOf(w, step)
    ensures Steady(Apply(c, s, step), w, ring, before)
  {
    match step
    case Decide(pid) => DecideSteady(c, s, w, ring, before, pid);
    case Reload(pid, node, shard) => ReloadSteady(s, w, ring, before, pid, node, shard);
    case Stage(pid, rev) => StageSteady(s, w, ring, before, pid, rev);
    case StageFail(pid) => StageSteady(s, w, ring, before, pid, 0);
    case Check(pid) => CheckSteady(s, w, ring, before, pid);
    case PutReady(pid) => CheckSteady(s, w, ring, before, pid);
    case _ => OtherSteady(c, s, w, ring, before, step);
  }

  lemma OtherSteady(c: Cluster, s: State, w: Node, ring: set<Node>, before: set<Commit>, step: Step)
    requires Steady(s, w, ring, before) && Enabled(c, s, step) && KeepsRingOf(w, step)
    requires !step.Decide? && !step.Reload? && !step.Stage? && !step.StageFail? && !step.Check? && !step.PutReady?
    ensures Steady(Apply(c, s, step), w, ring, before)
  {
    if step.LookUp? || step.HaveOwners? || step.ReadReady? || step.EtcdFail? {
      LookUpSteady(c, s, w, ring, before, step);
    } else if step.OrphanSignal? || step.Deliver? {
      BeginSteady(c, s, w, ring, before, step);
    } else if step.CommitShard? || step.ClearReady? || step.ClearReadyFail? {
      CommitSteady(c, s, w, ring, before, step);
    } else {
      WorldSteady(c, s, w, ring, before, step);
    }
  }

  lemma {:induction false} RunSteady(c: Cluster, s: State, w: Node, ring: set<Node>, before: set<Commit>,
                                     steps: seq<Step>)
    requires Steady(s, w, ring, before) && Run(c, s, steps, KeepingRingOf(w))
    ensures Steady(After(c, s, steps, KeepingRingOf(w)), w, ring, before)
    decreases |steps|
  {
    if steps != [] {
      StepSteady(c, s, w, ring, before, steps[0]);
      RunSteady(c, Apply(c, s, steps[0]), w, ring, before, steps[1..]);
    }
  }

  /** Whatever else changes: while the ring that `w` sees stays the same, every commit key that `w`
      puts has all owners by that ring behind it. */
  lemma OwnRingBacks(c: Cluster, s: State, w: Node, ring: set<Node>, steps: seq<Step>, cm: Commit)
    requires Origins(c, s) && w in s.rings && s.rings[w] == ring && Run(c, s, steps, KeepingRingOf(w))
    requires forall pid :: pid in s.procs && s.procs[pid].node == w ==>
                             !s.procs[pid].Owning? && !s.procs[pid].Collecting? && !s.procs[pid].Deciding?
    ensures var t := After(c, s, steps, KeepingRingOf(w));
      cm in t.commits && cm !in s.commits && cm.writer == w ==>
        Owners(c, ring) != {} && ReadyFor(t, cm, Owners(c, ring))
  {
    RunSteady(c, s, w, ring, s.commits, steps);
    OriginsOverRun(c, s, w, steps);
    var t := After(c, s, steps, KeepingRingOf(w));
    if cm in t.commits && cm !in s.commits && cm.writer == w {
      assert Backed(c, t, cm);
      OneRingBacks(c, t, cm, ring);
    }
  }

  lemma {:induction false} OriginsOverRun(c: Cluster, s: State, w: Node, steps: seq<Step>)
    requires Origins(c, s) && Run(c, s, steps, KeepingRingOf(w))
    ensures Origins(c, After(c, s, steps, KeepingRingOf(w)))
    decreases |steps|
  {
    if steps != [] {
      StepFrom(c, s, steps[0]);
      OriginsOverRun(c, Apply(c, s, steps[0]), w, steps[1..]);
    }
  }
}
