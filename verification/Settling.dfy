/**
 How a cycle comes to rest, whatever has failed in it.  The put of the commit key sends an event to
 every node, and the handling of one event takes the node's shards one after another.  So a cluster
 at rest has switched as a whole or not at all, and the commit key tells which.
 */
module Settling {
  import opened Options
  import opened RevisionProtocol
  import opened ProtocolInvariant
  import opened AllOrNothing

  /** Nothing in flight: no callback, no handler, and no event on its way. */
  predicate Resting(s: State) {
    s.procs == map[] && s.pending == multiset{}
  }

  /** Shards are on nodes that watch the commit keys. */
  ghost predicate OnNodes(c: Cluster, store: map<Loc, Slot>) {
    forall loc :: loc in store ==> loc.node in c.nodes
  }

  ghost predicate SwitchedBelow(store: map<Loc, Slot>, n: Node, r: int, upto: nat) {
    forall i: nat {:trigger Loc(n, i)} :: i < upto && Loc(n, i) in store ==> store[Loc(n, i)].serving == r
  }

  ghost predicate Switching(store: map<Loc, Slot>, pc: Pc, n: Node, r: int) {
    pc.Committing? && pc.node == n && pc.rev == r && SwitchedBelow(store, n, r, pc.next)
  }

  /** The node's commit event is waiting, being handled, or has been handled. */
  ghost predicate Delivered(c: Cluster, s: State, n: Node, r: int) {
    || Event(n, r) in s.pending
    || (exists pid :: pid in s.procs && Switching(s.store, s.procs[pid], n, r))
    || SwitchedBelow(s.store, n, r, c.shards)
  }

  ghost predicate DeliveriesOk(c: Cluster, s: State, r: int) {
    r in CommittedRevs(s) ==> forall n :: n in c.nodes ==> Delivered(c, s, n, r)
  }

  lemma SwitchedStays(a: map<Loc, Slot>, b: map<Loc, Slot>, n: Node, r: int, upto: nat)
    requires SwitchedBelow(a, n, r, upto) && a.Keys == b.Keys
    requires forall loc :: loc in a && a[loc].serving == r ==> b[loc].serving == r
    ensures SwitchedBelow(b, n, r, upto)
  {
    forall i: nat | i < upto && Loc(n, i) in b ensures b[Loc(n, i)].serving == r {
      assert Loc(n, i) in a.Keys;
    }
  }

  // ---------- the steps

  /** A step that puts no commit key, takes no event, and leaves `r` served and the handlers of `r` alone. */
  lemma QuietSettles(c: Cluster, s: State, t: State, r: int)
    requires DeliveriesOk(c, s, r) && t.commits == s.commits && t.store.Keys == s.store.Keys
    requires forall loc :: loc in s.store && s.store[loc].serving == r ==> t.store[loc].serving == r
    requires forall e :: e in s.pending && e.rev == r ==> e in t.pending
    requires forall pid :: pid in s.procs && s.procs[pid].Committing? && s.procs[pid].rev == r ==>
                             pid in t.procs && t.procs[pid] == s.procs[pid]
    ensures DeliveriesOk(c, t, r)
  {
    assert CommittedRevs(t) == CommittedRevs(s);
    if r in CommittedRevs(s) {
      forall n | n in c.nodes ensures Delivered(c, t, n, r) {
        QuietDelivers(c, s, t, n, r);
      }
    }
  }

  lemma QuietDelivers(c: Cluster, s: State, t: State, n: Node, r: int)
    requires Delivered(c, s, n, r) && t.store.Keys == s.store.Keys
    requires forall loc :: loc in s.store && s.store[loc].serving == r ==> t.store[loc].serving == r
    requires Event(n, r) in s.pending ==> Event(n, r) in t.pending
    requires forall pid :: pid in s.procs && s.procs[pid].Committing? && s.procs[pid].rev == r ==>
                             s.procs[pid].node == n ==> pid in t.procs && t.procs[pid] == s.procs[pid]
    ensures Delivered(c, t, n, r)
  {
    if Event(n, r) !in s.pending {
      if SwitchedBelow(s.store, n, r, c.shards) {
        SwitchedStays(s.store, t.store, n, r, c.shards);
      } else {
        var pid :| pid in s.procs && Switching(s.store, s.procs[pid], n, r);
        SwitchedStays(s.store, t.store, n, r, s.procs[pid].next);
        assert Switching(t.store, t.procs[pid], n, r);
      }
    }
  }

  lemma ReloadSettles(c: Cluster, s: State, r: int, pid: nat, node: Node, shard: nat)
    requires DeliveriesOk(c, s, r) && Enabled(c, s, Reload(pid, node, shard))
    ensures DeliveriesOk(c, DoReload(s, pid, node, shard), r)
  {
    QuietSettles(c, s, DoReload(s, pid, node, shard), r);
  }

  lemma StageSettles(c: Cluster, s: State, r: int, pid: nat, rev: int)
    requires DeliveriesOk(c, s, r) && pid in s.procs && s.procs[pid].Gated?
    ensures DeliveriesOk(c, DoStage(s, pid, rev), r) && DeliveriesOk(c, DoStageFail(s, pid), r)
  {
    QuietSettles(c, s, DoStage(s, pid, rev), r);
    QuietSettles(c, s, DoStageFail(s, pid), r);
  }

  lemma CheckSettles(c: Cluster, s: State, r: int, pid: nat)
    requires DeliveriesOk(c, s, r) && pid in s.procs && s.procs[pid].Checking?
    ensures DeliveriesOk(c, DoCheck(s, pid), r) && DeliveriesOk(c, DoPutReady(s, pid), r)
  {
    QuietSettles(c, s, DoCheck(s, pid), r);
    QuietSettles(c, s, DoPutReady(s, pid), r);
  }

  lemma SignalSettles(c: Cluster, s: State, r: int, step: Step)
    requires DeliveriesOk(c, s, r) && Enabled(c, s, step)
    requires step.LookUp? || step.HaveOwners? || step.ReadReady? || step.EtcdFail?
    ensures DeliveriesOk(c, Apply(c, s, step), r)
  {
    QuietSettles(c, s, Apply(c, s, step), r);
  }

  lemma OutsideSettles(c: Cluster, s: State, r: int, step: Step)
    requires DeliveriesOk(c, s, r) && Enabled(c, s, step)
    requires step.Publish? || step.Redeliver? || step.LeaseExpire?
    ensures DeliveriesOk(c, Apply(c, s, step), r)
  {
    QuietSettles(c, s, Apply(c, s, step), r);
  }

  /** The put of the commit key sends an event to every node. */
  lemma DecideSettles(c: Cluster, s: State, r: int, pid: nat)
    requires DeliveriesOk(c, s, r) && Enabled(c, s, Decide(pid)) && PcTwo(s.procs[pid], r)
    ensures DeliveriesOk(c, DoDecide(c, s, pid), r)
  {
    if AllReady(Found(c, s.procs[pid].seen), s.procs[pid].snapshot, s.procs[pid].rev) {
      PutSettles(c, DoDecide(c, s, pid), r, s.pending);
    } else {
      QuietSettles(c, s, DoDecide(c, s, pid), r);
    }
  }

  lemma PutSettles(c: Cluster, t: State, r: int, before: multiset<Event>)
    requires t.pending == before + EventsFor(c.nodes, r)
    ensures DeliveriesOk(c, t, r)
  {
    forall n | n in c.nodes ensures Delivered(c, t, n, r) {
      assert Event(n, r) in EventsFor(c.nodes, r);
      assert Event(n, r) in t.pending;
    }
  }

  /** An event of `r` that is taken goes on as a handler, one of an older commit does not matter. */
  lemma DeliverSettles(c: Cluster, s: State, r: int, pid: nat, node: Node, rev: int)
    requires DeliveriesOk(c, s, r) && Enabled(c, s, Deliver(pid, node, rev))
    ensures DeliveriesOk(c, DoDeliver(s, pid, node, rev), r)
  {
    var t := DoDeliver(s, pid, node, rev);
    assert CommittedRevs(t) == CommittedRevs(s);
    if r in CommittedRevs(s) {
      forall n | n in c.nodes ensures Delivered(c, t, n, r) {
        if n == node && rev == r {
          assert Switching(t.store, t.procs[pid], n, r);
        } else {
          QuietDelivers(c, s, t, n, r);
        }
      }
    }
  }

  /** A handler of `r` leaves a switched shard behind, because everybody has `r` staged or serves it. */
  lemma CommitShardSettles(c: Cluster, s: State, r0: int, r: int, early: set<Loc>, pid: nat)
    requires Inv(c, s) && TwoRevs(s, r0, r, early) && DeliveriesOk(c, s, r) && Enabled(c, s, CommitShard(pid))
    ensures DeliveriesOk(c, DoCommitShard(s, pid), r)
  {
    SwapKeepsServed(c, s, r0, r, early, pid);
    if s.procs[pid].rev != r {
      QuietSettles(c, s, DoCommitShard(s, pid), r);
    } else {
      assert PcOk(c, s, pid, s.procs[pid]);
      CommittedIsEverywhere(c, s, r0, r, early);
      SwapSettles(c, s, r, pid);
    }
  }

  lemma SwapKeepsServed(c: Cluster, s: State, r0: int, r: int, early: set<Loc>, pid: nat)
    requires TwoRevs(s, r0, r, early) && Enabled(c, s, CommitShard(pid))
    ensures var t := DoCommitShard(s, pid);
      && t.store.Keys == s.store.Keys
      && forall loc :: loc in s.store && s.store[loc].serving == r ==> t.store[loc].serving == r
  {
    forall loc | loc in s.store && s.store[loc].serving == r ensures s.store[loc].staged.None? {
      assert SlotTwo(s.store[loc], r0, r);
    }
  }

  lemma SwapSettles(c: Cluster, s: State, r: int, pid: nat)
    requires DeliveriesOk(c, s, r) && Enabled(c, s, CommitShard(pid)) && s.procs[pid].rev == r && r in CommittedRevs(s)
    requires forall loc :: loc in s.store ==> s.store[loc].serving == r || s.store[loc].staged == Some(r)
    requires var t := DoCommitShard(s, pid);
             forall loc :: loc in s.store && s.store[loc].serving == r ==> t.store[loc].serving == r
    ensures DeliveriesOk(c, DoCommitShard(s, pid), r)
  {
    var t := DoCommitShard(s, pid);
    var pc := s.procs[pid];
    forall n | n in c.nodes ensures Delivered(c, t, n, r) {
      assert Delivered(c, s, n, r);
      if n == pc.node && SwitchedBelow(s.store, n, r, pc.next) {
        SwitchedStays(s.store, t.store, n, r, pc.next);
        assert Switching(t.store, t.procs[pid], n, r);
      } else {
        OtherDelivers(c, s, t, n, r, pid);
      }
    }
  }

  /** A step of `pid`, which is not what delivers `r` to `n`. */
  lemma OtherDelivers(c: Cluster, s: State, t: State, n: Node, r: int, pid: nat)
    requires Delivered(c, s, n, r) && pid in s.procs && !Switching(s.store, s.procs[pid], n, r)
    requires t.store.Keys == s.store.Keys && t.pending == s.pending
    requires forall loc :: loc in s.store && s.store[loc].serving == r ==> t.store[loc].serving == r
    requires forall p :: p != pid && p in s.procs ==> p in t.procs && t.procs[p] == s.procs[p]
    ensures Delivered(c, t, n, r)
  {
    if SwitchedBelow(s.store, n, r, c.shards) {
      SwitchedStays(s.store, t.store, n, r, c.shards);
    } else if Event(n, r) !in s.pending {
      var p :| p in s.procs && Switching(s.store, s.procs[p], n, r);
      SwitchedStays(s.store, t.store, n, r, s.procs[p].next);
      assert Switching(t.store, t.procs[p], n, r);
    }
  }

  /** The end of commitIndex, whether the ready key could be deleted or not: the node's shards are done. */
  lemma ClearReadySettles(c: Cluster, s: State, t: State, r: int, pid: nat)
    requires DeliveriesOk(c, s, r) && Enabled(c, s, ClearReady(pid)) && PcOk(c, s, pid, s.procs[pid])
    requires t == DoClearReady(s, pid) || t == Finish(s, pid)
    ensures DeliveriesOk(c, t, r)
  {
    assert CommittedRevs(t) == CommittedRevs(s);
    if r in CommittedRevs(s) {
      forall n | n in c.nodes ensures Delivered(c, t, n, r) {
        assert Delivered(c, s, n, r);
        if !Switching(s.store, s.procs[pid], n, r) { OtherDelivers(c, s, t, n, r, pid); }
      }
    }
  }

  lemma StepSettles(c: Cluster, s: State, r0: int, r: int, early: set<Loc>, step: Step)
    requires Inv(c, s) && TwoRevs(s, r0, r, early) && DeliveriesOk(c, s, r) && Enabled(c, s, step) && Cycle(r, step)
    ensures DeliveriesOk(c, Apply(c, s, step), r)
  {
    match step
    case Reload(pid, node, shard) => ReloadSettles(c, s, r, pid, node, shard);
    case Stage(pid, rev) => StageSettles(c, s, r, pid, rev);
    case StageFail(pid) => StageSettles(c, s, r, pid, 0);
    case Check(pid) => CheckSettles(c, s, r, pid);
    case PutReady(pid) => CheckSettles(c, s, r, pid);
    case Decide(pid) => DecideSettles(c, s, r, pid);
    case Deliver(pid, node, rev) => DeliverSettles(c, s, r, pid, node, rev);
    case CommitShard(pid) => CommitShardSettles(c, s, r0, r, early, pid);
    case ClearReady(pid) => ClearReadySettles(c, s, DoClearReady(s, pid), r, pid);
    case ClearReadyFail(pid) => ClearReadySettles(c, s, Finish(s, pid), r, pid);
    case LookUp(_) => SignalSettles(c, s, r, step);
    case HaveOwners(_) => SignalSettles(c, s, r, step);
    case ReadReady(_) => SignalSettles(c, s, r, step);
    case EtcdFail(_) => SignalSettles(c, s, r, step);
    case _ => OutsideSettles(c, s, r, step);
  }

  lemma {:induction false} RunSettles(c: Cluster, s: State, r0: int, r: int, early: set<Loc>, steps: seq<Step>)
    requires Inv(c, s) && TwoRevs(s, r0, r, early) && DeliveriesOk(c, s, r) && Run(c, s, steps, CycleSteps(r))
    ensures DeliveriesOk(c, After(c, s, steps, CycleSteps(r)), r)
    decreases |steps|
  {
    if steps != [] {
      StepKeeps(c, s, steps[0]);
      StepTwo(c, s, r0, r, early, steps[0]);
      StepSettles(c, s, r0, r, early, steps[0]);
      RunSettles(c, Apply(c, s, steps[0]), r0, r, early, steps[1..]);
    }
  }

  // ---------- at rest

  lemma CommittedRest(c: Cluster, t: State, r0: int, r: int, early: set<Loc>)
    requires Inv(c, t) && TwoRevs(t, r0, r, early) && DeliveriesOk(c, t, r)
    requires Resting(t) && OnNodes(c, t.store) && r in CommittedRevs(t)
    ensures forall loc :: loc in t.store ==> t.store[loc].serving == r && t.store[loc].staged.None?
  {
    forall loc | loc in t.store ensures t.store[loc].serving == r && t.store[loc].staged.None? {
      assert Delivered(c, t, loc.node, r);
      assert loc == Loc(loc.node, loc.shard) && loc.shard < c.shards;
      assert SlotTwo(t.store[loc], r0, r);
    }
  }

  lemma UncommittedServe(s: State, t: State, r0: int, r: int, early: set<Loc>)
    requires TwoRevs(t, r0, r, early) && Grows(s, t) && r !in CommittedRevs(t)
    requires forall loc :: loc in s.store && loc in early ==> s.store[loc].serving == r
    ensures forall loc :: loc in t.store ==> t.store[loc].serving == if loc in early then r else r0
  {
    forall loc | loc in t.store ensures t.store[loc].serving == if loc in early then r else r0 {
      assert loc in s.store.Keys && SlotTwo(t.store[loc], r0, r);
    }
  }

  /** Anywhere in a cycle, before the commit key is put: however the run goes on, once it has come to
      rest the commit key tells what every shard serves.  `early` are the shards that serve `r` by then. */
  lemma RestsAllOrNothing(c: Cluster, s: State, r0: int, r: int, early: set<Loc>, steps: seq<Step>)
    requires Inv(c, s) && TwoRevs(s, r0, r, early) && r !in CommittedRevs(s) && OnNodes(c, s.store)
    requires forall loc :: loc in s.store && loc in early ==> s.store[loc].serving == r
    requires Run(c, s, steps, CycleSteps(r)) && Resting(After(c, s, steps, CycleSteps(r)))
    ensures var t := After(c, s, steps, CycleSteps(r));
      && t.store.Keys == s.store.Keys
      && (r in CommittedRevs(t) ==>
          forall loc :: loc in t.store ==> t.store[loc].serving == r && t.store[loc].staged.None?)
      && (r !in CommittedRevs(t) ==>
          forall loc :: loc in t.store ==> t.store[loc].serving == if loc in early then r else r0)
  {
    RunTwo(c, s, r0, r, early, steps);
    RunSettles(c, s, r0, r, early, steps);
    var t := After(c, s, steps, CycleSteps(r));
    if r in CommittedRevs(t) {
      assert OnNodes(c, t.store) by { assert t.store.Keys == s.store.Keys; }
      CommittedRest(c, t, r0, r, early);
    } else {
      UncommittedServe(s, t, r0, r, early);
    }
  }

  /** From the start of a cycle: a cluster at rest serves the old revision everywhere or the new one everywhere. */
  lemma CycleEndsAllOrNothing(c: Cluster, s: State, r0: int, r: int, steps: seq<Step>)
    requires Start(c, s, r0, r, {}) && OnNodes(c, s.store)
    requires Run(c, s, steps, CycleSteps(r)) && Resting(After(c, s, steps, CycleSteps(r)))
    ensures var t := After(c, s, steps, CycleSteps(r));
      s.store != map[] ==> (r in CommittedRevs(t) <==> forall loc :: loc in t.store ==> t.store[loc].serving == r)
    ensures var t := After(c, s, steps, CycleSteps(r));
      if r in CommittedRevs(t)
      then forall loc :: loc in t.store ==> t.store[loc].serving == r && t.store[loc].staged.None?
      else forall loc :: loc in t.store ==> t.store[loc].serving == r0
  {
    RestsAllOrNothing(c, s, r0, r, {}, steps);
  }
}
