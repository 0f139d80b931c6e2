/**
 One reload after another.  A cluster that has come to rest with the commit key put is ready for the
 next publication, whatever old keys are still around.  So what holds of one cycle holds of a whole
 life: after each round, faults first and then one round of callbacks in which nothing is lost, every
 shard serves the revision of that round.
 */
module Lifetime {
  import opened Options
  import opened RevisionProtocol
  import opened ProtocolInvariant
  import opened AllOrNothing
  import opened Settling
  import opened Quiescence
  import opened Signals

  ghost predicate ReadyAtMost(ready: map<Node, int>, r: int) {
    forall n :: n in ready ==> ready[n] <= r
  }

  /** At rest with everyone at `r`, and `r` the newest revision there has been. */
  ghost predicate Settled(c: Cluster, s: State, r: int) {
    && Inv(c, s) && Resting(s) && 0 <= r && ReadyAtMost(s.ready, r)
    && (forall h :: h in s.history ==> h <= r)
    && (forall cm :: cm in s.commits ==> cm.rev <= r)
    && (forall loc :: loc in s.store ==> s.store[loc].serving == r && s.store[loc].staged.None?)
  }

  // ---------- ready keys and rings over a cycle

  predicate OnShards(step: Step) {
    step.Reload? || step.Stage? || step.StageFail? || step.CommitShard?
  }

  predicate OfSignal(step: Step) {
    step.Check? || step.PutReady? || step.LookUp? || step.HaveOwners? || step.ReadReady? || step.Decide?
  }

  lemma ShardStepReady(c: Cluster, s: State, step: Step)
    requires Enabled(c, s, step) && OnShards(step)
    ensures Apply(c, s, step).ready == s.ready && Apply(c, s, step).rings == s.rings
  {
  }

  /** Only a put adds a ready key, and the callbacks of the cycle are all at `r`. */
  lemma PutReadyAtMost(s: State, r: int, pid: nat)
    requires ReadyAtMost(s.ready, r) && pid in s.procs && s.procs[pid].Checking? && PcTwo(s.procs[pid], r)
    ensures ReadyAtMost(DoPutReady(s, pid).ready, r) && DoPutReady(s, pid).rings == s.rings
  {
  }

  predicate SameKeys(s: State, t: State) {
    t.ready == s.ready && t.rings == s.rings
  }

  lemma SignalReady(c: Cluster, s: State, pid: nat)
    requires pid in s.procs
    ensures s.procs[pid].Checking? ==> SameKeys(s, DoCheck(s, pid))
    ensures s.procs[pid].Owning? && s.procs[pid].node in s.rings ==> SameKeys(s, DoLookUp(s, pid))
    ensures s.procs[pid].Owning? ==> SameKeys(s, DoHaveOwners(c, s, pid))
    ensures s.procs[pid].Collecting? ==> SameKeys(s, DoReadReady(s, pid))
  {
  }

  lemma DecideReady(c: Cluster, s: State, pid: nat)
    requires pid in s.procs && s.procs[pid].Deciding?
    ensures SameKeys(s, DoDecide(c, s, pid))
  {
  }

  lemma OtherStepReady(c: Cluster, s: State, r: int, step: Step)
    requires Enabled(c, s, step) && !OnShards(step) && !OfSignal(step) && !PlacementStep(step)
             && ReadyAtMost(s.ready, r)
    ensures ReadyAtMost(Apply(c, s, step).ready, r) && Apply(c, s, step).rings == s.rings
  {
  }

  lemma ReadyStep(c: Cluster, s: State, r: int, step: Step)
    requires Enabled(c, s, step) && Cycle(r, step) && ReadyAtMost(s.ready, r)
    requires forall pid :: pid in s.procs ==> PcTwo(s.procs[pid], r)
    ensures ReadyAtMost(Apply(c, s, step).ready, r) && Apply(c, s, step).rings == s.rings
  {
    match step
    case PutReady(pid) => PutReadyAtMost(s, r, pid);
    case Check(pid) => SignalReady(c, s, pid);
    case LookUp(pid) => SignalReady(c, s, pid);
    case HaveOwners(pid) => SignalReady(c, s, pid);
    case ReadReady(pid) => SignalReady(c, s, pid);
    case Decide(pid) => DecideReady(c, s, pid);
    case Reload(_, _, _) => ShardStepReady(c, s, step);
    case Stage(_, _) => ShardStepReady(c, s, step);
    case StageFail(_) => ShardStepReady(c, s, step);
    case CommitShard(_) => ShardStepReady(c, s, step);
    case _ => OtherStepReady(c, s, r, step);
  }

  lemma {:induction false} RunReady(c: Cluster, s: State, r0: int, r: int, early: set<Loc>, steps: seq<Step>)
    requires Inv(c, s) && TwoRevs(s, r0, r, early) && ReadyAtMost(s.ready, r) && Run(c, s, steps, CycleSteps(r))
    ensures var t := After(c, s, steps, CycleSteps(r)); ReadyAtMost(t.ready, r) && t.rings == s.rings
    decreases |steps|
  {
    if steps != [] {
      StepKeeps(c, s, steps[0]);
      StepTwo(c, s, r0, r, early, steps[0]);
      ReadyStep(c, s, r, steps[0]);
      RunReady(c, Apply(c, s, steps[0]), r0, r, early, steps[1..]);
    }
  }

  // ---------- from one cycle to the next

  /** A settled cluster can start the next cycle, before its revision is published and after. */
  lemma SettledStarts(c: Cluster, s: State, r: int, next: int)
    requires Settled(c, s, r) && r < next
    ensures Start(c, s, r, next, {})
    ensures Enabled(c, s, Publish(next)) && Start(c, Apply(c, s, Publish(next)), r, next, {})
  {
    StepKeeps(c, s, Publish(next));
    assert s.published in s.history;
  }

  /** The rest that a cycle with a commit key ends in, whatever has failed, is the start of the next cycle. */
  lemma NextCycleStarts(c: Cluster, s: State, r0: int, r: int, next: int, steps: seq<Step>)
    requires Start(c, s, r0, r, {}) && OnNodes(c, s.store) && Run(c, s, steps, CycleSteps(r)) && r < next
    requires var t := After(c, s, steps, CycleSteps(r)); Resting(t) && r in CommittedRevs(t)
    ensures var t := After(c, s, steps, CycleSteps(r));
      && Settled(c, t, r) && Start(c, t, r, next, {})
      && Enabled(c, t, Publish(next)) && Start(c, Apply(c, t, Publish(next)), r, next, {})
  {
    RunTwo(c, s, r0, r, {}, steps);
    RunReady(c, s, r0, r, {}, steps);
    RestsAllOrNothing(c, s, r0, r, {}, steps);
    SettledStarts(c, After(c, s, steps, CycleSteps(r)), r, next);
  }

  // ---------- the record of finished callbacks

  ghost predicate SameButRecord(s: State, t: State) {
    t == s.(reloaded := t.reloaded)
  }

  lemma EnabledWithoutRecord(c: Cluster, s: State, t: State, step: Step)
    requires SameButRecord(s, t)
    ensures Enabled(c, t, step) <==> Enabled(c, s, step)
  {
  }

  lemma ReloadWithoutRecord(s: State, t: State, pid: nat, node: Node, shard: nat)
    requires SameButRecord(s, t) && Loc(node, shard) in s.store
    ensures SameButRecord(DoReload(s, pid, node, shard), DoReload(t, pid, node, shard))
  {
  }

  lemma StageWithoutRecord(s: State, t: State, pid: nat, rev: int)
    requires SameButRecord(s, t) && pid in s.procs && s.procs[pid].Gated?
    ensures SameButRecord(DoStage(s, pid, rev), DoStage(t, pid, rev))
    ensures SameButRecord(DoStageFail(s, pid), DoStageFail(t, pid))
  {
    assert HoldsSlot(t, t.procs[pid]) == HoldsSlot(s, s.procs[pid]);
  }

  lemma CommitWithoutRecord(s: State, t: State, pid: nat)
    requires SameButRecord(s, t) && pid in s.procs && s.procs[pid].Committing?
    ensures SameButRecord(DoCommitShard(s, pid), DoCommitShard(t, pid))
    ensures SameButRecord(DoClearReady(s, pid), DoClearReady(t, pid))
  {
  }

  lemma CheckWithoutRecord(s: State, t: State, pid: nat)
    requires SameButRecord(s, t) && pid in s.procs && s.procs[pid].Checking?
    ensures SameButRecord(DoCheck(s, pid), DoCheck(t, pid))
    ensures SameButRecord(DoPutReady(s, pid), DoPutReady(t, pid))
  {
  }

  lemma OwnersWithoutRecord(c: Cluster, s: State, t: State, pid: nat)
    requires SameButRecord(s, t) && pid in s.procs
    ensures s.procs[pid].Owning? && s.procs[pid].node in s.rings ==> SameButRecord(DoLookUp(s, pid), DoLookUp(t, pid))
    ensures s.procs[pid].Owning? ==> SameButRecord(DoHaveOwners(c, s, pid), DoHaveOwners(c, t, pid))
    ensures s.procs[pid].Collecting? ==> SameButRecord(DoReadReady(s, pid), DoReadReady(t, pid))
    ensures s.procs[pid].Deciding? ==> SameButRecord(DoDecide(c, s, pid), DoDecide(c, t, pid))
  {
  }

  lemma OtherStepWithoutRecord(c: Cluster, s: State, t: State, step: Step)
    requires SameButRecord(s, t) && Enabled(c, s, step) && Enabled(c, t, step)
    requires !OnShards(step) && !OfSignal(step) && !step.ClearReady?
    ensures SameButRecord(Apply(c, s, step), Apply(c, t, step))
  {
  }

  lemma StepWithoutRecord(c: Cluster, s: State, t: State, step: Step)
    requires SameButRecord(s, t)
    ensures Enabled(c, t, step) <==> Enabled(c, s, step)
    ensures Enabled(c, s, step) ==> SameButRecord(Apply(c, s, step), Apply(c, t, step))
  {
    EnabledWithoutRecord(c, s, t, step);
    if Enabled(c, s, step) {
      match step
      case Reload(pid, node, shard) => ReloadWithoutRecord(s, t, pid, node, shard);
      case Stage(pid, rev) => StageWithoutRecord(s, t, pid, rev);
      case StageFail(pid) => StageWithoutRecord(s, t, pid, 0);
      case Check(pid) => CheckWithoutRecord(s, t, pid);
      case PutReady(pid) => CheckWithoutRecord(s, t, pid);
      case LookUp(pid) => OwnersWithoutRecord(c, s, t, pid);
      case HaveOwners(pid) => OwnersWithoutRecord(c, s, t, pid);
      case ReadReady(pid) => OwnersWithoutRecord(c, s, t, pid);
      case Decide(pid) => OwnersWithoutRecord(c, s, t, pid);
      case CommitShard(pid) => CommitWithoutRecord(s, t, pid);
      case ClearReady(pid) => CommitWithoutRecord(s, t, pid);
      case _ => OtherStepWithoutRecord(c, s, t, step);
    }
  }

  /** The record is only kept to speak about runs: beginning it anew changes nothing else. */
  lemma {:induction false} RunWithoutRecord(c: Cluster, s: State, t: State, steps: seq<Step>, allowed: Step -> bool)
    requires SameButRecord(s, t)
    ensures Run(c, t, steps, allowed) <==> Run(c, s, steps, allowed)
    ensures Run(c, s, steps, allowed) ==> SameButRecord(After(c, s, steps, allowed), After(c, t, steps, allowed))
    decreases |steps|
  {
    if steps != [] {
      StepWithoutRecord(c, s, t, steps[0]);
      if Enabled(c, s, steps[0]) {
        RunWithoutRecord(c, Apply(c, s, steps[0]), Apply(c, t, steps[0]), steps[1..], allowed);
      }
    }
  }

  // ---------- a whole life

  /** The reload of one revision: anything may fail until the cluster comes to rest, and then every
      shard runs a callback and nothing is lost. */
  datatype Round = Round(rev: int, faulty: seq<Step>, clean: seq<Step>)

  ghost predicate Completes(c: Cluster, s: State, round: Round) {
    && Run(c, s, round.faulty, CycleSteps(round.rev))
    && var rest := After(c, s, round.faulty, CycleSteps(round.rev));
       && Resting(rest) && Run(c, Recounted(rest), round.clean, LosslessSteps(round.rev))
       && Quiescent(After(c, Recounted(rest), round.clean, LosslessSteps(round.rev)), round.rev)
  }

  ghost function EndOf(c: Cluster, s: State, round: Round): State
    requires Completes(c, s, round)
  {
    After(c, Recounted(After(c, s, round.faulty, CycleSteps(round.rev))), round.clean, LosslessSteps(round.rev))
  }

  /** The second half of a round, after a rest without the commit key or with it. */
  lemma CleanEnds(c: Cluster, s: State, ring: set<Node>, r0: int, r: int, steps: seq<Step>)
    requires Inv(c, s) && TwoRevs(s, r0, r, {}) && DeliveriesOk(c, s, r) && Resting(s) && Placed(c, s, ring)
    requires s.reloaded == map[] && ReadyAtMost(s.ready, r) && Run(c, s, steps, LosslessSteps(r))
    requires Quiescent(After(c, s, steps, LosslessSteps(r)), r)
    ensures var t := After(c, s, steps, LosslessSteps(r));
      Settled(c, t, r) && t.store.Keys == s.store.Keys && t.rings == s.rings
  {
    LosslessIsCycle(c, s, r, steps);
    RunTwo(c, s, r0, r, {}, steps);
    RunReady(c, s, r0, r, {}, steps);
    if r in CommittedRevs(s) {
      var t := After(c, s, steps, LosslessSteps(r));
      RunSettles(c, s, r0, r, {}, steps);
      CommittedGrows(s, t);
      assert OnNodes(c, t.store) by {
        forall loc | loc in t.store ensures loc.node in c.nodes { assert loc in s.store.Keys; }
      }
      CommittedRest(c, t, r0, r, {});
    } else {
      RoundSwitches(c, s, ring, r0, r, steps);
    }
  }

  /** One round: whatever fails in its first half, its end is settled at the new revision. */
  lemma RoundSettles(c: Cluster, s: State, ring: set<Node>, r0: int, round: Round)
    requires Start(c, s, r0, round.rev, {}) && Placed(c, s, ring) && Completes(c, s, round)
    ensures var t := EndOf(c, s, round);
      Settled(c, t, round.rev) && Placed(c, t, ring) && t.store.Keys == s.store.Keys
  {
    var r := round.rev;
    var rest := After(c, s, round.faulty, CycleSteps(r));
    RunTwo(c, s, r0, r, {}, round.faulty);
    RunReady(c, s, r0, r, {}, round.faulty);
    RunSettles(c, s, r0, r, {}, round.faulty);
    RecountedKeeps(c, rest, r0, r);
    assert DeliveriesOk(c, Recounted(rest), r) by { RecountedDelivers(c, rest, r); }
    StillPlaced(c, s, Recounted(rest), ring);
    CleanEnds(c, Recounted(rest), ring, r0, r, round.clean);
    StillPlaced(c, s, EndOf(c, s, round), ring);
  }

  lemma RecountedDelivers(c: Cluster, s: State, r: int)
    requires DeliveriesOk(c, s, r)
    ensures DeliveriesOk(c, Recounted(s), r)
  {
    QuietSettles(c, s, Recounted(s), r);
  }

  lemma StillPlaced(c: Cluster, s: State, t: State, ring: set<Node>)
    requires Placed(c, s, ring) && t.rings == s.rings && t.store.Keys == s.store.Keys
    ensures Placed(c, t, ring)
  {
    forall loc | loc in t.store ensures loc.node in Owners(c, ring) { assert loc in s.store.Keys; }
    forall n | n in Owners(c, ring) ensures exists loc :: loc in t.store && loc.node == n {
      var loc :| loc in s.store && loc.node == n;
      assert loc in t.store.Keys;
    }
  }

  /** The rounds can be run one after another, each with a newer revision. */
  ghost predicate Lives(c: Cluster, s: State, r0: int, rounds: seq<Round>)
    decreases |rounds|
  {
    rounds == [] ||
    (r0 < rounds[0].rev && Completes(c, s, rounds[0]) && Lives(c, EndOf(c, s, rounds[0]), rounds[0].rev, rounds[1..]))
  }

  ghost function EndOfLife(c: Cluster, s: State, r0: int, rounds: seq<Round>): State
    requires Lives(c, s, r0, rounds)
    decreases |rounds|
  {
    if rounds == [] then s else EndOfLife(c, EndOf(c, s, rounds[0]), rounds[0].rev, rounds[1..])
  }

  /** After any number of rounds every shard serves the revision of the last one, and the cluster can go on. */
  lemma {:induction false} EveryRoundSwitches(c: Cluster, s: State, ring: set<Node>, r0: int, rounds: seq<Round>)
    requires Settled(c, s, r0) && Placed(c, s, ring) && Lives(c, s, r0, rounds)
    ensures var t := EndOfLife(c, s, r0, rounds);
      var last := if rounds == [] then r0 else rounds[|rounds| - 1].rev;
      && Settled(c, t, last) && Placed(c, t, ring) && t.store.Keys == s.store.Keys
      && forall loc :: loc in t.store ==> t.store[loc].serving == last && t.store[loc].staged.None?
    decreases |rounds|
  {
    if rounds != [] {
      SettledStarts(c, s, r0, rounds[0].rev);
      RoundSettles(c, s, ring, r0, rounds[0]);
      EveryRoundSwitches(c, EndOf(c, s, rounds[0]), ring, rounds[0].rev, rounds[1..]);
    }
  }
}
