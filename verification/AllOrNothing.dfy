/**
 One reload cycle from revision `r0` to `r` with fixed placement.  Whatever fails and in whatever
 order things happen, no shard switches before every shard of the cluster has `r` in memory.
 */
module AllOrNothing {
  import opened Options
  import opened RevisionProtocol
  import opened ProtocolInvariant

  /** The steps of a cycle: shards stay where they are and `r` is the only revision published. */
  predicate Cycle(r: int, step: Step) {
    !PlacementStep(step) && (step.Publish? ==> step.rev == r)
  }

  function CycleSteps(r: int): Step -> bool {
    (step: Step) => Cycle(r, step)
  }

  /** A shard on one of the three stations: old, old with the new one staged, new. */
  ghost predicate SlotTwo(slot: Slot, r0: int, r: int) {
    || (slot.serving == r0 && (slot.staged.None? || slot.staged == Some(r)))
    || (slot.serving == r && slot.staged.None?)
  }

  ghost predicate PcTwo(pc: Pc, r: int) {
    match pc
    case Gated(_, _, _, low) => low == r
    case Committing(_, _, _) => true
    case _ => pc.rev == r
  }

  /** Nobody but the shards of `early`, which already served `r` at the start, serves `r` without a commit. */
  ghost predicate StoreTwo(store: map<Loc, Slot>, revs: set<int>, r0: int, r: int, early: set<Loc>) {
    forall loc :: loc in store ==>
                    && SlotTwo(store[loc], r0, r)
                    && (store[loc].serving == r ==> loc in early || r in revs)
  }

  /** Nothing newer than `r0` has been published, except for `r`. */
  ghost predicate HistoryTwo(history: set<int>, r0: int, r: int) {
    forall h :: h in history ==> h <= r0 || h == r
  }

  ghost predicate TwoRevs(s: State, r0: int, r: int, early: set<Loc>) {
    && 0 <= r0 < r
    && HistoryTwo(s.history, r0, r)
    && StoreTwo(s.store, CommittedRevs(s), r0, r, early)
    && (forall pid :: pid in s.procs ==> PcTwo(s.procs[pid], r))
    && (forall cm :: cm in s.commits ==> cm.rev <= r)
  }

  /** The start of a cycle.  Old ready and commit keys may still be around; `early` are the shards
      that were loaded at `r` directly, which is what a node does that joins after the publication. */
  ghost predicate Start(c: Cluster, s: State, r0: int, r: int, early: set<Loc>) {
    && Inv(c, s)
    && 0 <= r0 < r && HistoryTwo(s.history, r0, r)
    && s.procs == map[] && s.pending == multiset{}
    && (forall n :: n in s.ready ==> s.ready[n] < r)
    && (forall cm :: cm in s.commits ==> cm.rev < r)
    && early <= s.store.Keys
    && (forall loc :: loc in s.store ==>
        s.store[loc].staged.None? && s.store[loc].serving == if loc in early then r else r0)
  }

  // ---------- the steps that matter

  lemma ReloadTwo(c: Cluster, s: State, r0: int, r: int, early: set<Loc>, pid: nat, node: Node, shard: nat)
    requires HistoryOk(s) && TwoRevs(s, r0, r, early) && Enabled(c, s, Reload(pid, node, shard))
    ensures TwoRevs(DoReload(s, pid, node, shard), r0, r, early)
  {
    var t := DoReload(s, pid, node, shard);
    var loc := Loc(node, shard);
    assert SlotTwo(s.store[loc], r0, r);
    assert s.published in s.history;
    forall l | l in t.store ensures SlotTwo(t.store[l], r0, r) && t.store[l].serving == s.store[l].serving {
      assert SlotTwo(s.store[l], r0, r);
    }
  }

  lemma StageTwo(c: Cluster, s: State, r0: int, r: int, early: set<Loc>, pid: nat, rev: int)
    requires PcsOk(c, s) && TwoRevs(s, r0, r, early) && Enabled(c, s, Stage(pid, rev))
    ensures TwoRevs(DoStage(s, pid, rev), r0, r, early)
  {
    var t := DoStage(s, pid, rev);
    var pc := s.procs[pid];
    assert PcTwo(pc, r) && PcOk(c, s, pid, pc);
    assert rev == r;
    forall l | l in t.store ensures SlotTwo(t.store[l], r0, r) && t.store[l].serving == s.store[l].serving {
      assert SlotTwo(s.store[l], r0, r);
    }
  }

  lemma StageFailTwo(c: Cluster, s: State, r0: int, r: int, early: set<Loc>, pid: nat)
    requires TwoRevs(s, r0, r, early) && Enabled(c, s, StageFail(pid))
    ensures TwoRevs(DoStageFail(s, pid), r0, r, early)
  {
    var t := DoStageFail(s, pid);
    forall l | l in t.store ensures SlotTwo(t.store[l], r0, r) && t.store[l].serving == s.store[l].serving {
      assert SlotTwo(s.store[l], r0, r);
    }
  }

  lemma CommitTwo(c: Cluster, s: State, r0: int, r: int, early: set<Loc>, pid: nat)
    requires PcsOk(c, s) && TwoRevs(s, r0, r, early) && Enabled(c, s, CommitShard(pid))
    ensures TwoRevs(DoCommitShard(s, pid), r0, r, early)
  {
    var t := DoCommitShard(s, pid);
    var pc := s.procs[pid];
    assert PcOk(c, s, pid, pc);
    assert CommittedRevs(t) == CommittedRevs(s);
    forall l | l in t.store
      ensures SlotTwo(t.store[l], r0, r) && (t.store[l].serving == r ==> l in early || r in CommittedRevs(t))
    {
      assert SlotTwo(s.store[l], r0, r);
    }
  }

  lemma DecideTwo(c: Cluster, s: State, r0: int, r: int, early: set<Loc>, pid: nat)
    requires TwoRevs(s, r0, r, early) && Enabled(c, s, Decide(pid))
    ensures TwoRevs(DoDecide(c, s, pid), r0, r, early)
  {
    var t := DoDecide(c, s, pid);
    assert PcTwo(s.procs[pid], r);
    CommittedGrows(s, t);
  }

  /** Steps that leave shards and commit keys alone. */
  lemma QuietTwo(s: State, t: State, r0: int, r: int, early: set<Loc>)
    requires TwoRevs(s, r0, r, early) && t.store == s.store && t.commits == s.commits && HistoryTwo(t.history, r0, r)
    requires forall pid :: pid in t.procs ==> (pid in s.procs && t.procs[pid] == s.procs[pid]) || PcTwo(t.procs[pid], r)
    ensures TwoRevs(t, r0, r, early)
  {
    assert CommittedRevs(t) == CommittedRevs(s);
  }

  lemma CheckTwo(s: State, r0: int, r: int, early: set<Loc>, pid: nat)
    requires TwoRevs(s, r0, r, early) && pid in s.procs && s.procs[pid].Checking?
    ensures TwoRevs(DoCheck(s, pid), r0, r, early) && TwoRevs(DoPutReady(s, pid), r0, r, early)
  {
    QuietTwo(s, DoCheck(s, pid), r0, r, early);
    QuietTwo(s, DoPutReady(s, pid), r0, r, early);
  }

  lemma ReadStepTwo(c: Cluster, s: State, r0: int, r: int, early: set<Loc>, step: Step)
    requires TwoRevs(s, r0, r, early) && Enabled(c, s, step) && (step.ReadReady? || step.EtcdFail?)
    ensures TwoRevs(Apply(c, s, step), r0, r, early)
  {
    QuietTwo(s, Apply(c, s, step), r0, r, early);
  }

  lemma LookUpTwo(c: Cluster, s: State, r0: int, r: int, early: set<Loc>, pid: nat)
    requires TwoRevs(s, r0, r, early) && pid in s.procs && s.procs[pid].Owning?
    ensures s.procs[pid].node in s.rings ==> TwoRevs(DoLookUp(s, pid), r0, r, early)
    ensures TwoRevs(DoHaveOwners(c, s, pid), r0, r, early)
  {
    if s.procs[pid].node in s.rings { QuietTwo(s, DoLookUp(s, pid), r0, r, early); }
    QuietTwo(s, DoHaveOwners(c, s, pid), r0, r, early);
  }

  lemma HandlerStepTwo(c: Cluster, s: State, r0: int, r: int, early: set<Loc>, step: Step)
    requires TwoRevs(s, r0, r, early) && Enabled(c, s, step)
    requires step.Deliver? || step.ClearReady? || step.ClearReadyFail?
    ensures TwoRevs(Apply(c, s, step), r0, r, early)
  {
    QuietTwo(s, Apply(c, s, step), r0, r, early);
  }

  lemma EventStepTwo(c: Cluster, s: State, r0: int, r: int, early: set<Loc>, step: Step)
    requires TwoRevs(s, r0, r, early) && Enabled(c, s, step) && Cycle(r, step)
    requires step.Publish? || step.Redeliver? || step.LeaseExpire?
    ensures TwoRevs(Apply(c, s, step), r0, r, early)
  {
    QuietTwo(s, Apply(c, s, step), r0, r, early);
  }

  lemma StepTwo(c: Cluster, s: State, r0: int, r: int, early: set<Loc>, step: Step)
    requires HistoryOk(s) && PcsOk(c, s) && TwoRevs(s, r0, r, early) && Enabled(c, s, step) && Cycle(r, step)
    ensures TwoRevs(Apply(c, s, step), r0, r, early)
  {
    match step
    case Reload(pid, node, shard) => ReloadTwo(c, s, r0, r, early, pid, node, shard);
    case Stage(pid, rev) => StageTwo(c, s, r0, r, early, pid, rev);
    case StageFail(pid) => StageFailTwo(c, s, r0, r, early, pid);
    case CommitShard(pid) => CommitTwo(c, s, r0, r, early, pid);
    case Decide(pid) => DecideTwo(c, s, r0, r, early, pid);
    case Check(pid) => CheckTwo(s, r0, r, early, pid);
    case PutReady(pid) => CheckTwo(s, r0, r, early, pid);
    case LookUp(pid) => LookUpTwo(c, s, r0, r, early, pid);
    case HaveOwners(pid) => LookUpTwo(c, s, r0, r, early, pid);
    case ReadReady(_) => ReadStepTwo(c, s, r0, r, early, step);
    case EtcdFail(_) => ReadStepTwo(c, s, r0, r, early, step);
    case Deliver(_, _, _) => HandlerStepTwo(c, s, r0, r, early, step);
    case ClearReady(_) => HandlerStepTwo(c, s, r0, r, early, step);
    case ClearReadyFail(_) => HandlerStepTwo(c, s, r0, r, early, step);
    case _ => EventStepTwo(c, s, r0, r, early, step);
  }

  lemma {:induction false} RunTwo(c: Cluster, s: State, r0: int, r: int, early: set<Loc>, steps: seq<Step>)
    requires Inv(c, s) && TwoRevs(s, r0, r, early) && Run(c, s, steps, CycleSteps(r))
    ensures var t := After(c, s, steps, CycleSteps(r)); Inv(c, t) && TwoRevs(t, r0, r, early) && Grows(s, t)
    decreases |steps|
  {
    if steps != [] {
      StepKeeps(c, s, steps[0]);
      StepTwo(c, s, r0, r, early, steps[0]);
      RunTwo(c, Apply(c, s, steps[0]), r0, r, early, steps[1..]);
    }
  }

  /** Once `r` is a commit key, every shard of the cluster has switched or has `r` staged. */
  lemma CommittedIsEverywhere(c: Cluster, t: State, r0: int, r: int, early: set<Loc>)
    requires Inv(c, t) && TwoRevs(t, r0, r, early) && r in CommittedRevs(t)
    ensures forall loc :: loc in t.store ==> t.store[loc].serving == r || t.store[loc].staged == Some(r)
  {
    var cm :| cm in t.commits && cm.rev == r;
    forall loc | loc in t.store ensures t.store[loc].serving == r || t.store[loc].staged == Some(r) {
      assert AtLeast(t.store, loc.node, cm.rev, c.shards);
      assert loc == Loc(loc.node, loc.shard) && loc.shard < c.shards;
      assert SlotTwo(t.store[loc], r0, r);
    }
  }

  /** No mixture: every shard serves `r0` or `r`, and as soon as one has switched, every shard of
      the cluster has switched or has `r` staged and waiting for its commit event. */
  lemma SwitchIsAllOrNothing(c: Cluster, s: State, r0: int, r: int, steps: seq<Step>)
    requires Start(c, s, r0, r, {}) && Run(c, s, steps, CycleSteps(r))
    ensures var t := After(c, s, steps, CycleSteps(r));
      && t.store.Keys == s.store.Keys
      && (forall loc :: loc in t.store ==> t.store[loc].serving == r0 || t.store[loc].serving == r)
      && ((exists loc :: loc in t.store && t.store[loc].serving == r) ==>
            forall loc :: loc in t.store ==> t.store[loc].serving == r || t.store[loc].staged == Some(r))
  {
    RunTwo(c, s, r0, r, {}, steps);
    var t := After(c, s, steps, CycleSteps(r));
    if first :| first in t.store && t.store[first].serving == r {
      CommittedIsEverywhere(c, t, r0, r, {});
    }
  }
}
