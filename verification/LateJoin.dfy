/**
 A node that joins between the publication of `r` and its commit loads `r` directly
 (FaissIndex construction downloads the latest revision).  docs/cluster-revision-consistency.md
 says that the commit then waits until the new node is ready too.  The code never commits `r` then:
 StageReload on the new node finds the shard up to date, so nothing is staged there, the check
 loop of signalReady never gets past that shard, and no other node can see all owners ready.
 */
module LateJoin {
  import opened Options
  import opened RevisionProtocol
  import opened ProtocolInvariant
  import opened AllOrNothing
  import opened Quiescence
  import opened Signals

  /** What holds as long as the shard `e` has served `r` from the start. */
  ghost predicate PcStuck(pc: Pc, e: Loc, r: int) {
    && (pc.Checking? && pc.node == e.node ==> pc.next <= e.shard)
    && (pc.Deciding? && e.node in pc.snapshot ==> pc.snapshot[e.node] != r)
  }

  ghost predicate Stuck(s: State, e: Loc, r: int) {
    && e in s.store && s.store[e].serving == r
    && (e.node in s.ready ==> s.ready[e.node] != r)
    && (forall pid :: pid in s.procs ==> PcStuck(s.procs[pid], e, r))
    && r !in CommittedRevs(s)
  }

  /** A step that puts neither a ready key for the node of `e` nor a commit key. */
  lemma QuietStuck(s: State, t: State, e: Loc, r: int)
    requires Stuck(s, e, r) && t.commits == s.commits && e in t.store && t.store[e].serving == r
    requires e.node in t.ready ==> e.node in s.ready && t.ready[e.node] == s.ready[e.node]
    requires forall pid :: pid in t.procs ==>
               (pid in s.procs && t.procs[pid] == s.procs[pid]) || PcStuck(t.procs[pid], e, r)
    ensures Stuck(t, e, r)
  {
    assert CommittedRevs(t) == CommittedRevs(s);
  }

  lemma CheckStuck(c: Cluster, s: State, r0: int, r: int, early: set<Loc>, e: Loc, pid: nat)
    requires TwoRevs(s, r0, r, early) && Stuck(s, e, r) && Enabled(c, s, Check(pid))
    ensures Stuck(DoCheck(s, pid), e, r)
  {
    assert SlotTwo(s.store[e], r0, r) && PcTwo(s.procs[pid], r) && PcStuck(s.procs[pid], e, r);
    QuietStuck(s, DoCheck(s, pid), e, r);
  }

  lemma PutReadyStuck(c: Cluster, s: State, e: Loc, r: int, pid: nat)
    requires Stuck(s, e, r) && Enabled(c, s, PutReady(pid)) && e.shard < c.shards
    ensures Stuck(DoPutReady(s, pid), e, r)
  {
    assert PcStuck(s.procs[pid], e, r);
    QuietStuck(s, DoPutReady(s, pid), e, r);
  }

  lemma DecideStuck(c: Cluster, s: State, e: Loc, r: int, pid: nat)
    requires Stuck(s, e, r) && Enabled(c, s, Decide(pid)) && PcTwo(s.procs[pid], r) && PcOk(c, s, pid, s.procs[pid])
    ensures Stuck(DoDecide(c, s, pid), e, r)
  {
    assert PcStuck(s.procs[pid], e, r);
    assert e.node in Found(c, s.procs[pid].seen);
    QuietStuck(s, DoDecide(c, s, pid), e, r);
  }

  /** Steps on shards: what is served never falls back, and `r` is the newest there is. */
  lemma ReloadStuck(c: Cluster, s: State, e: Loc, r: int, pid: nat, node: Node, shard: nat)
    requires Stuck(s, e, r) && Enabled(c, s, Reload(pid, node, shard))
    ensures Stuck(DoReload(s, pid, node, shard), e, r)
  {
    QuietStuck(s, DoReload(s, pid, node, shard), e, r);
  }

  lemma StageStuck(c: Cluster, s: State, e: Loc, r: int, pid: nat, rev: int)
    requires Stuck(s, e, r) && pid in s.procs && s.procs[pid].Gated?
    ensures Stuck(DoStage(s, pid, rev), e, r) && Stuck(DoStageFail(s, pid), e, r)
  {
    QuietStuck(s, DoStage(s, pid, rev), e, r);
    QuietStuck(s, DoStageFail(s, pid), e, r);
  }

  lemma CommitShardStuck(c: Cluster, s: State, r0: int, r: int, early: set<Loc>, e: Loc, pid: nat)
    requires TwoRevs(s, r0, r, early) && Stuck(s, e, r) && Enabled(c, s, CommitShard(pid))
    ensures Stuck(DoCommitShard(s, pid), e, r)
  {
    assert SlotTwo(s.store[e], r0, r);
    QuietStuck(s, DoCommitShard(s, pid), e, r);
  }

  lemma SignalStuck(c: Cluster, s: State, e: Loc, r: int, step: Step)
    requires Stuck(s, e, r) && Enabled(c, s, step)
             && (step.LookUp? || step.HaveOwners? || step.ReadReady? || step.EtcdFail?)
    ensures Stuck(Apply(c, s, step), e, r)
  {
    QuietStuck(s, Apply(c, s, step), e, r);
  }

  lemma EventStuck(c: Cluster, s: State, e: Loc, r: int, step: Step)
    requires Stuck(s, e, r) && Enabled(c, s, step)
    requires step.Publish? || step.Deliver? || step.Redeliver? || step.ClearReady? || step.ClearReadyFail?
             || step.LeaseExpire?
    ensures Stuck(Apply(c, s, step), e, r)
  {
    QuietStuck(s, Apply(c, s, step), e, r);
  }

  lemma StepStuck(c: Cluster, s: State, r0: int, r: int, early: set<Loc>, e: Loc, step: Step)
    requires SlotsOk(c, s) && PcsOk(c, s) && TwoRevs(s, r0, r, early) && Stuck(s, e, r)
    requires Enabled(c, s, step) && Cycle(r, step)
    ensures Stuck(Apply(c, s, step), e, r)
  {
    match step
    case Check(pid) => CheckStuck(c, s, r0, r, early, e, pid);
    case PutReady(pid) => PutReadyStuck(c, s, e, r, pid);
    case Decide(pid) => DecideStuck(c, s, e, r, pid);
    case Reload(pid, node, shard) => ReloadStuck(c, s, e, r, pid, node, shard);
    case Stage(pid, rev) => StageStuck(c, s, e, r, pid, rev);
    case StageFail(pid) => StageStuck(c, s, e, r, pid, 0);
    case LookUp(_) => SignalStuck(c, s, e, r, step);
    case HaveOwners(_) => SignalStuck(c, s, e, r, step);
    case ReadReady(_) => SignalStuck(c, s, e, r, step);
    case EtcdFail(_) => SignalStuck(c, s, e, r, step);
    case CommitShard(pid) => CommitShardStuck(c, s, r0, r, early, e, pid);
    case _ => EventStuck(c, s, e, r, step);
  }

  lemma {:induction false} RunStuck(c: Cluster, s: State, r0: int, r: int, early: set<Loc>, e: Loc, steps: seq<Step>)
    requires Inv(c, s) && TwoRevs(s, r0, r, early) && Stuck(s, e, r) && Run(c, s, steps, CycleSteps(r))
    ensures var t := After(c, s, steps, CycleSteps(r)); TwoRevs(t, r0, r, early) && Stuck(t, e, r) && Grows(s, t)
    decreases |steps|
  {
    if steps != [] {
      StepKeeps(c, s, steps[0]);
      StepTwo(c, s, r0, r, early, steps[0]);
      StepStuck(c, s, r0, r, early, e, steps[0]);
      RunStuck(c, Apply(c, s, steps[0]), r0, r, early, e, steps[1..]);
    }
  }

  /** Anywhere in a cycle, other shards being staged and their nodes ready: if a node has a shard that
      serves `r` without a commit and has not signalled yet, no run commits `r`, with or without
      faults, and the shards that do not serve it never switch. */
  lemma LateJoinBlocks(c: Cluster, s: State, r0: int, r: int, early: set<Loc>, e: Loc, steps: seq<Step>)
    requires Inv(c, s) && TwoRevs(s, r0, r, early) && Stuck(s, e, r) && Run(c, s, steps, CycleSteps(r))
    requires forall loc :: loc in s.store ==> (s.store[loc].serving == r <==> loc in early)
    ensures var t := After(c, s, steps, CycleSteps(r));
      && t.store.Keys == s.store.Keys && r !in CommittedRevs(t)
      && forall loc :: loc in t.store ==> (t.store[loc].serving == r <==> loc in early)
  {
    RunStuck(c, s, r0, r, early, e, steps);
    var t := After(c, s, steps, CycleSteps(r));
    forall loc | loc in t.store ensures t.store[loc].serving == r <==> loc in early {
      assert SlotTwo(t.store[loc], r0, r);
    }
  }

  /** Ready keys and callbacks of the place of `e`, should it have been there before, are old. */
  ghost predicate NothingNewAt(s: State, e: Loc, r: int) {
    (e.node in s.ready ==> s.ready[e.node] < r) && (e in s.reloaded ==> s.reloaded[e] <= r)
  }

  /** The state after the node has joined. */
  lemma JoinedIsStuck(c: Cluster, s: State, t: State, r0: int, r: int, early: set<Loc>, e: Loc)
    requires Inv(c, s) && TwoRevs(s, r0, r, early) && r in s.history && r !in CommittedRevs(s)
    requires e.shard < c.shards && NothingNewAt(s, e, r)
    requires forall loc :: loc in s.store ==> loc.node != e.node
    requires forall pid :: pid in s.procs ==>
                             var pc := s.procs[pid];
                                 pc.node != e.node && !pc.Owning? && !pc.Collecting? && !pc.Deciding?
    requires t == s.(rings := t.rings, store := s.store[e := Slot(s.nextObj, r, r, None, None)],
                     nextObj := s.nextObj + 1)
    requires forall n :: n in t.rings ==> Covers(c, t.store, t.rings[n])
    ensures Inv(c, t) && TwoRevs(t, r0, r, early + {e}) && Stuck(t, e, r)
  {
    assert CommittedRevs(t) == CommittedRevs(s) && r <= s.published;
    forall n, rev, upto: nat | AtLeast(s.store, n, rev, upto) && (n != e.node || rev <= r)
          ensures AtLeast(t.store, n, rev, upto) {
      forall i: nat | i < upto && Loc(n, i) in t.store ensures Level(t.store[Loc(n, i)]) >= rev {
        assert Loc(n, i) != e ==> Loc(n, i) in s.store;
      }
    }
    forall pid | pid in t.procs ensures PcOk(c, t, pid, t.procs[pid]) && PcTwo(t.procs[pid], r) {
      assert PcOk(c, s, pid, s.procs[pid]) && PcTwo(s.procs[pid], r);
    }
    forall loc | loc in t.store && loc != e ensures SlotTwo(t.store[loc], r0, r) {
      assert SlotTwo(s.store[loc], r0, r);
    }
  }

  predicate IsRingChange(step: Step) {
    step.RingChange?
  }

  lemma {:induction false} OnlyRings(c: Cluster, s: State, changes: seq<Step>)
    requires Run(c, s, changes, IsRingChange)
    ensures After(c, s, changes, IsRingChange) == s.(rings := After(c, s, changes, IsRingChange).rings)
    decreases |changes|
  {
    if changes != [] {
      OnlyRings(c, Apply(c, s, changes[0]), changes[1..]);
    }
  }

  /** How that comes about: while others are staged and ready, the nodes learn one by one of a new ring
      that has a place for the new node, and its shard is loaded at the revision that is published.
      Commits whose owners were looked up before the rings changed are not held up by it, so there must
      be none on their way. */
  lemma JoiningIsStuck(c: Cluster, s: State, changes: seq<Step>, r0: int, r: int, early: set<Loc>, e: Loc)
    requires Inv(c, s) && TwoRevs(s, r0, r, early) && r in s.history && r !in CommittedRevs(s)
    requires e.node in c.nodes && e.shard < c.shards && NothingNewAt(s, e, r)
    requires forall loc :: loc in s.store ==> loc.node != e.node
    requires forall pid :: pid in s.procs ==>
                             var pc := s.procs[pid];
                                 pc.node != e.node && !pc.Owning? && !pc.Collecting? && !pc.Deciding?
    requires Run(c, s, changes, IsRingChange)
    requires var u := After(c, s, changes, IsRingChange);
      forall n :: n in u.rings ==> Covers(c, u.store[e := Slot(u.nextObj, r, r, None, None)], u.rings[n])
    ensures var u := After(c, s, changes, IsRingChange);
      && Enabled(c, u, Load(e.node, e.shard, r))
      && var t := Apply(c, u, Load(e.node, e.shard, r));
         Inv(c, t) && TwoRevs(t, r0, r, early + {e}) && Stuck(t, e, r)
  {
    OnlyRings(c, s, changes);
    var u := After(c, s, changes, IsRingChange);
    assert Loc(e.node, e.shard) == e;
    JoinedIsStuck(c, s, DoLoad(u, e.node, e.shard, r), r0, r, early, e);
  }

  /** In particular when they served `r` at the start of the cycle. */
  lemma EarlyShardsBlock(c: Cluster, s: State, r0: int, r: int, early: set<Loc>, steps: seq<Step>)
    requires Start(c, s, r0, r, early) && early != {} && Run(c, s, steps, CycleSteps(r))
    ensures var t := After(c, s, steps, CycleSteps(r));
      && t.store.Keys == s.store.Keys && r !in CommittedRevs(t)
      && forall loc :: loc in t.store ==> (t.store[loc].serving == r <==> loc in early)
  {
    var e :| e in early;
    assert e in s.store.Keys;
    LateJoinBlocks(c, s, r0, r, early, e, steps);
  }

  /** A lossless cycle that has come to rest has switched the whole cluster if and only if, at its
      start, no shard or every shard served the new revision already. */
  lemma WholeClusterSwitchesIff(c: Cluster, s: State, ring: set<Node>, r0: int, r: int, early: set<Loc>,
                                steps: seq<Step>)
    requires Start(c, s, r0, r, early) && Placed(c, s, ring) && Run(c, s, steps, LosslessSteps(r))
    requires Quiescent(After(c, s, steps, LosslessSteps(r)), r)
    ensures var t := After(c, s, steps, LosslessSteps(r));
      (forall loc :: loc in t.store ==> t.store[loc].serving == r) <==> (early == {} || early == s.store.Keys)
  {
    if early == {} {
      EveryoneSwitches(c, s, ring, r0, r, steps);
    } else {
      LosslessIsCycle(c, s, r, steps);
      EarlyShardsBlock(c, s, r0, r, early, steps);
    }
  }
}
