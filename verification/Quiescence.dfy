/**
 How a reload cycle ends in which no signal is lost.  When every shard has run its reload callback
 and nothing is in flight any more, the whole cluster serves the new revision: the last node to put
 its ready key sees all the others, or a commit key was there already.  Stagings may fail and be
 tried again, the commit event may be handled more than once, and deletions of ready keys may fail.

 The same holds from the middle of a cycle, whatever was lost before: ready keys, ready keys without
 anybody to act on them, callbacks that gave up.  One round of callbacks in which nothing is lost makes
 up for all of it.
 */
module Quiescence {
  import opened Options
  import opened RevisionProtocol
  import opened ProtocolInvariant
  import opened AllOrNothing
  import opened Settling
  import opened Signals

  /** Every node sees `ring`, and its owners are exactly the nodes that hold shards. */
  ghost predicate Placed(c: Cluster, s: State, ring: set<Node>) {
    && (forall n :: n in s.rings ==> s.rings[n] == ring)
    && (forall loc :: loc in s.store ==> loc.node in Owners(c, ring))
    && (forall n :: n in Owners(c, ring) ==> n in c.nodes && exists loc :: loc in s.store && loc.node == n)
  }

  /** At rest, and every shard has finished a callback that read `r`. */
  ghost predicate Quiescent(s: State, r: int) {
    Resting(s) && forall loc :: loc in s.store ==> loc in s.reloaded && s.reloaded[loc] == r
  }

  // ---------- the end of a lossless cycle

  /** Nothing is due yet, because no callback of this cycle is on the record. */
  lemma NothingDueYet(c: Cluster, s: State, ring: set<Node>, r: int)
    requires NoHandlers(s) && RingsAre(c, s, ring) && Placed(c, s, ring)
    requires forall loc :: loc in s.store && loc in s.reloaded ==> s.reloaded[loc] != r
    ensures Before(c, s, ring, r) && OnNodes(c, s.store)
  {
    forall n | n in Owners(c, ring) ensures !Due(s, n, r) {
      var loc :| loc in s.store && loc.node == n;
    }
  }

  /** At rest again without a commit key, there is nobody to wait for. */
  lemma UncommittedEnd(c: Cluster, t: State, ring: set<Node>, r0: int, r: int)
    requires Inv(c, t) && TwoRevs(t, r0, r, {}) && Before(c, t, ring, r) && Quiescent(t, r) && r !in CommittedRevs(t)
    ensures Owners(c, ring) == {}
  {
    var owners := Owners(c, ring);
    forall n | n in owners ensures Due(t, n, r) && n in t.ready && t.ready[n] == r {
      forall loc | loc in t.store && loc.node == n ensures t.store[loc].staged == Some(r) {
        assert SlotTwo(t.store[loc], r0, r) && Level(t.store[loc]) >= t.reloaded[loc];
      }
      assert Signalled(t, n, r);
    }
    assert AllReady(owners, t.ready, r);
  }

  /** From any moment of a cycle with no handler of an older commit around: when every shard has run
      another callback and nothing was lost on the way, everyone serves `r`. */
  lemma RoundSwitches(c: Cluster, s: State, ring: set<Node>, r0: int, r: int, steps: seq<Step>)
    requires Inv(c, s) && TwoRevs(s, r0, r, {}) && r !in CommittedRevs(s)
    requires NoHandlers(s) && RingsAre(c, s, ring) && Placed(c, s, ring)
    requires forall loc :: loc in s.store && loc in s.reloaded ==> s.reloaded[loc] != r
    requires Run(c, s, steps, LosslessSteps(r)) && Quiescent(After(c, s, steps, LosslessSteps(r)), r)
    ensures var t := After(c, s, steps, LosslessSteps(r));
      && t.store.Keys == s.store.Keys && (s.store != map[] ==> r in CommittedRevs(t))
      && forall loc :: loc in t.store ==> t.store[loc].serving == r && t.store[loc].staged.None?
  {
    var t := After(c, s, steps, LosslessSteps(r));
    NothingDueYet(c, s, ring, r);
    LosslessIsCycle(c, s, r, steps);
    RunTwo(c, s, r0, r, {}, steps);
    RestsAllOrNothing(c, s, r0, r, {}, steps);
    if Owners(c, ring) == {} {
      assert forall loc :: loc !in s.store.Keys;
    } else {
      RunBefore(c, s, ring, r0, r, {}, steps);
      if r !in CommittedRevs(t) { UncommittedEnd(c, t, ring, r0, r); }
    }
  }

  /** Every node holds the same revision at the start: the cycle ends with everyone at `r`. */
  lemma EveryoneSwitches(c: Cluster, s: State, ring: set<Node>, r0: int, r: int, steps: seq<Step>)
    requires Start(c, s, r0, r, {}) && Placed(c, s, ring) && Run(c, s, steps, LosslessSteps(r))
    requires Quiescent(After(c, s, steps, LosslessSteps(r)), r)
    ensures var t := After(c, s, steps, LosslessSteps(r));
      forall loc :: loc in t.store ==> t.store[loc].serving == r && t.store[loc].staged.None?
  {
    RoundSwitches(c, s, ring, r0, r, steps);
  }

  /** The record of finished callbacks, begun anew. */
  function Recounted(s: State): State {
    s.(reloaded := map[])
  }

  /** Whatever was lost in a cycle so far, and whether it has come to rest or not: if there is no handler
      of an older commit around, then as soon as every shard has finished one more callback, counted from
      here, with nothing lost meanwhile, and the cluster rests, everyone serves `r`. */
  lemma Recovers(c: Cluster, s: State, ring: set<Node>, r0: int, r: int, steps: seq<Step>)
    requires Inv(c, s) && TwoRevs(s, r0, r, {}) && r !in CommittedRevs(s)
    requires NoHandlers(s) && RingsAre(c, s, ring) && Placed(c, s, ring)
    requires Run(c, Recounted(s), steps, LosslessSteps(r))
    requires Quiescent(After(c, Recounted(s), steps, LosslessSteps(r)), r)
    ensures var t := After(c, Recounted(s), steps, LosslessSteps(r));
      forall loc :: loc in t.store ==> t.store[loc].serving == r && t.store[loc].staged.None?
  {
    RecountedKeeps(c, s, r0, r);
    RoundSwitches(c, Recounted(s), ring, r0, r, steps);
  }

  lemma RecountedKeeps(c: Cluster, s: State, r0: int, r: int)
    requires Inv(c, s) && TwoRevs(s, r0, r, {})
    ensures Inv(c, Recounted(s)) && TwoRevs(Recounted(s), r0, r, {}) && CommittedRevs(Recounted(s)) == CommittedRevs(s)
  {
    forall pid | pid in s.procs ensures PcOk(c, Recounted(s), pid, s.procs[pid]) {
      assert PcOk(c, s, pid, s.procs[pid]);
    }
  }
}
