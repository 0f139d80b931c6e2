/**
 With any number of revisions published one after another: what is left of all-or-nothing.  A shard
 that has switched to `r` finds `r` or something newer in the memory of every shard of the cluster.
 It need not find every shard at `r`: one that has staged `r + 1` meanwhile lets the commit of `r`
 pass, and for a while old and new are served side by side.
 */
module NobodyLeftBehind {
  import opened RevisionProtocol
  import opened ProtocolInvariant

  /** A shard serves what it served at the start, or what somebody has committed. */
  ghost predicate ServedOk(start: map<Loc, Slot>, s: State) {
    forall loc :: loc in s.store && loc in start ==>
                    s.store[loc].serving == start[loc].serving || s.store[loc].serving in CommittedRevs(s)
  }

  /** A step that leaves all served revisions alone. */
  lemma SameServed(start: map<Loc, Slot>, s: State, t: State)
    requires ServedOk(start, s) && t.commits >= s.commits && t.store.Keys == s.store.Keys
    requires forall loc :: loc in s.store ==> t.store[loc].serving == s.store[loc].serving
    ensures ServedOk(start, t)
  {
    CommittedGrows(s, t);
    forall loc | loc in t.store && loc in start
      ensures t.store[loc].serving == start[loc].serving || t.store[loc].serving in CommittedRevs(t)
    {
      assert loc in s.store.Keys;
    }
  }

  lemma CommitShardServes(c: Cluster, start: map<Loc, Slot>, s: State, pid: nat)
    requires Inv(c, s) && ServedOk(start, s) && Enabled(c, s, CommitShard(pid))
    ensures ServedOk(start, DoCommitShard(s, pid))
  {
    var t := DoCommitShard(s, pid);
    assert PcOk(c, s, pid, s.procs[pid]);
    assert CommittedRevs(t) == CommittedRevs(s);
  }

  lemma StageServes(start: map<Loc, Slot>, s: State, pid: nat, rev: int)
    requires ServedOk(start, s) && pid in s.procs && s.procs[pid].Gated?
    ensures ServedOk(start, DoStage(s, pid, rev)) && ServedOk(start, DoStageFail(s, pid))
  {
    SameServed(start, s, DoStage(s, pid, rev));
    SameServed(start, s, DoStageFail(s, pid));
  }

  lemma ReloadServes(start: map<Loc, Slot>, s: State, pid: nat, node: Node, shard: nat)
    requires ServedOk(start, s) && Loc(node, shard) in s.store
    ensures ServedOk(start, DoReload(s, pid, node, shard))
  {
    SameServed(start, s, DoReload(s, pid, node, shard));
  }

  lemma CheckServes(start: map<Loc, Slot>, s: State, pid: nat)
    requires ServedOk(start, s) && pid in s.procs && s.procs[pid].Checking?
    ensures ServedOk(start, DoCheck(s, pid)) && ServedOk(start, DoPutReady(s, pid))
  {
    SameServed(start, s, DoCheck(s, pid));
    SameServed(start, s, DoPutReady(s, pid));
  }

  lemma SignalServes(c: Cluster, start: map<Loc, Slot>, s: State, step: Step)
    requires ServedOk(start, s) && Enabled(c, s, step)
    requires step.LookUp? || step.HaveOwners? || step.ReadReady? || step.EtcdFail?
    ensures ServedOk(start, Apply(c, s, step))
  {
    SameServed(start, s, Apply(c, s, step));
  }

  lemma DecideServes(c: Cluster, start: map<Loc, Slot>, s: State, pid: nat)
    requires ServedOk(start, s) && pid in s.procs && s.procs[pid].Deciding?
    ensures ServedOk(start, DoDecide(c, s, pid))
  {
    SameServed(start, s, DoDecide(c, s, pid));
  }

  lemma OutsideServes(c: Cluster, start: map<Loc, Slot>, s: State, step: Step)
    requires ServedOk(start, s) && Enabled(c, s, step)
    requires step.Publish? || step.Deliver? || step.Redeliver? || step.ClearReady? || step.ClearReadyFail?
             || step.LeaseExpire?
    ensures ServedOk(start, Apply(c, s, step))
  {
    SameServed(start, s, Apply(c, s, step));
  }

  lemma StepServes(c: Cluster, start: map<Loc, Slot>, s: State, step: Step)
    requires Inv(c, s) && ServedOk(start, s) && Enabled(c, s, step) && !PlacementStep(step)
    ensures ServedOk(start, Apply(c, s, step))
  {
    match step
    case CommitShard(pid) => CommitShardServes(c, start, s, pid);
    case Reload(pid, node, shard) => ReloadServes(start, s, pid, node, shard);
    case Stage(pid, rev) => StageServes(start, s, pid, rev);
    case StageFail(pid) => StageServes(start, s, pid, 0);
    case Check(pid) => CheckServes(start, s, pid);
    case PutReady(pid) => CheckServes(start, s, pid);
    case LookUp(_) => SignalServes(c, start, s, step);
    case HaveOwners(_) => SignalServes(c, start, s, step);
    case ReadReady(_) => SignalServes(c, start, s, step);
    case Decide(pid) => DecideServes(c, start, s, pid);
    case EtcdFail(_) => SignalServes(c, start, s, step);
    case _ => OutsideServes(c, start, s, step);
  }

  lemma {:induction false} RunServes(c: Cluster, start: map<Loc, Slot>, s: State, steps: seq<Step>)
    requires Inv(c, s) && ServedOk(start, s) && Run(c, s, steps, FixedPlacement)
    ensures ServedOk(start, After(c, s, steps, FixedPlacement))
    decreases |steps|
  {
    if steps != [] {
      StepServes(c, start, s, steps[0]);
      StepKeeps(c, s, steps[0]);
      RunServes(c, start, Apply(c, s, steps[0]), steps[1..]);
    }
  }

  /** In every state that can be reached without moving shards: as soon as one shard serves something
      it did not serve at the start, no shard of the cluster is without that or something newer. */
  lemma SwitchedMeansEverywhere(c: Cluster, s: State, steps: seq<Step>, first: Loc, other: Loc)
    requires AtRest(c, s) && Run(c, s, steps, FixedPlacement)
    requires first in s.store && other in s.store
    ensures var t := After(c, s, steps, FixedPlacement);
      && first in t.store && other in t.store
      && (t.store[first].serving != s.store[first].serving ==> Level(t.store[other]) >= t.store[first].serving)
  {
    InvariantOverRuns(c, s, steps);
    RunServes(c, s.store, s, steps);
    KeysTellTheTruth(c, s, steps);
    var t := After(c, s, steps, FixedPlacement);
    assert first in t.store.Keys && other in t.store.Keys;
    if t.store[first].serving != s.store[first].serving {
      var cm :| cm in t.commits && cm.rev == t.store[first].serving;
    }
  }
}
