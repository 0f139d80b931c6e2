/**
 Why the cycles of Signals and Quiescence are lossless ones.  A single node with a single shard: after a failed
 put of the ready key, after a lost lease, and after an event of an older commit, which deletes the
 ready key, the cluster is at rest, the shard has run its callback, and it has not switched.  The
 rest lasts until the next callback, which stages and signals again (RetryExample).
 */
module LostSignals {
  import opened Options
  import opened RevisionProtocol
  import opened AllOrNothing
  import opened Quiescence
  import opened Signals
  import opened Traces

  function Lone(n: Node): Cluster {
    Cluster({n}, 1, 1, (ring, shard, replica) => n)
  }

  lemma LoneOwners(n: Node)
    ensures ReplicaKeys(Lone(n)) == [(0, 0)] && Owners(Lone(n), {n}) == {n} && Found(Lone(n), [{n}]) == {n}
  {
    var c := Lone(n);
    assert KeysUpto(c, 0) == [] && RowKeys(0, 0) == [] && RowKeys(0, 1) == [(0, 0)] && KeysUpto(c, 1) == [] + [(0, 0)];
    assert c.owner({n}, 0, 0) in Owners(c, {n});
    FoundIsOwners(c, [{n}], {n});
  }

  /** Revision 1 is published, 0 is served.  `keys` are commit keys of old, `pending` events of theirs. */
  function Resting(n: Node, keys: set<Commit>, pending: multiset<Event>): State {
    State(1, {0, 1}, map[n := {n}], map[Loc(n, 0) := Slot(0, 0, 0, None, None)], map[], {}, keys, pending, map[],
          map[], 1)
  }

  function Gated1(n: Node, keys: set<Commit>, pending: multiset<Event>): State {
    Resting(n, keys, pending).(store := map[Loc(n, 0) := Slot(0, 0, 0, None, Some(7))],
                               procs := map[7 := Gated(n, 0, 0, 1)])
  }

  function Staged1(n: Node, keys: set<Commit>, pending: multiset<Event>, procs: map<nat, Pc>): State {
    Resting(n, keys, pending).(store := map[Loc(n, 0) := Slot(0, 0, 0, Some(1), None)],
                               reloaded := map[Loc(n, 0) := 1], procs := procs)
  }

  /** After the put of the ready key, which may be gone again. */
  function Signalled1(n: Node, keys: set<Commit>, pending: multiset<Event>, ready: map<Node, int>,
                      procs: map<nat, Pc>): State {
    Staged1(n, keys, pending, procs).(ready := ready, puts := {Put(n, 1)})
  }

  ghost predicate RestsUnswitched(n: Node, t: State) {
    Quiescent(t, 1) && Loc(n, 0) in t.store && t.store[Loc(n, 0)].serving == 0
  }

  lemma RestingIsStart(n: Node, keys: set<Commit>)
    requires forall cm :: cm in keys ==> cm.rev == 0
    ensures Start(Lone(n), Resting(n, keys, multiset{}), 0, 1, {}) && Placed(Lone(n), Resting(n, keys, multiset{}), {n})
  {
    LoneOwners(n);
    assert Loc(n, 0) in Resting(n, keys, multiset{}).store;
  }

  // ---------- up to the check

  lemma Reloads(n: Node, keys: set<Commit>, pending: multiset<Event>)
    ensures Leads(Lone(n), Resting(n, keys, pending), Reload(7, n, 0), Gated1(n, keys, pending))
  {
    assert DoReload(Resting(n, keys, pending), 7, n, 0) == Gated1(n, keys, pending);
  }

  lemma Stages(n: Node, keys: set<Commit>, pending: multiset<Event>)
    ensures Leads(Lone(n), Gated1(n, keys, pending), Stage(7, 1),
                  Staged1(n, keys, pending, map[7 := Checking(n, 1, 0)]))
  {
    assert DoStage(Gated1(n, keys, pending), 7, 1) == Staged1(n, keys, pending, map[7 := Checking(n, 1, 0)]);
  }

  lemma Checks(n: Node, keys: set<Commit>, pending: multiset<Event>)
    ensures Leads(Lone(n), Staged1(n, keys, pending, map[7 := Checking(n, 1, 0)]), Check(7),
                  Staged1(n, keys, pending, map[7 := Checking(n, 1, 1)]))
  {
    assert DoCheck(Staged1(n, keys, pending, map[7 := Checking(n, 1, 0)]), 7)
        == Staged1(n, keys, pending, map[7 := Checking(n, 1, 1)]);
  }

  lemma ToChecked(n: Node, keys: set<Commit>, pending: multiset<Event>, rest: seq<Step>, allowed: Step -> bool)
    returns (steps: seq<Step>)
    requires allowed(Reload(7, n, 0)) && allowed(Stage(7, 1)) && allowed(Check(7))
    requires Run(Lone(n), Staged1(n, keys, pending, map[7 := Checking(n, 1, 1)]), rest, allowed)
    ensures Run(Lone(n), Resting(n, keys, pending), steps, allowed)
    ensures After(Lone(n), Resting(n, keys, pending), steps, allowed)
         == After(Lone(n), Staged1(n, keys, pending, map[7 := Checking(n, 1, 1)]), rest, allowed)
  {
    Reloads(n, keys, pending);
    Stages(n, keys, pending);
    Checks(n, keys, pending);
    steps := PrependThree(Lone(n), Resting(n, keys, pending), Reload(7, n, 0), Gated1(n, keys, pending), Stage(7, 1),
                          Staged1(n, keys, pending, map[7 := Checking(n, 1, 0)]), Check(7),
                          Staged1(n, keys, pending, map[7 := Checking(n, 1, 1)]),
                          rest, allowed);
  }

  // ---------- from the ready key on, when it is gone

  lemma PutsReady(n: Node, keys: set<Commit>, pending: multiset<Event>)
    ensures Leads(Lone(n), Staged1(n, keys, pending, map[7 := Checking(n, 1, 1)]), PutReady(7),
                  Signalled1(n, keys, pending, map[n := 1], map[7 := Owning(n, 1, [])]))
  {
    assert DoPutReady(Staged1(n, keys, pending, map[7 := Checking(n, 1, 1)]), 7)
        == Signalled1(n, keys, pending, map[n := 1], map[7 := Owning(n, 1, [])]);
  }

  lemma LooksUp(n: Node, keys: set<Commit>, ready: map<Node, int>)
    ensures Leads(Lone(n), Signalled1(n, keys, multiset{}, ready, map[7 := Owning(n, 1, [])]), LookUp(7),
                  Signalled1(n, keys, multiset{}, ready, map[7 := Owning(n, 1, [{n}])]))
    ensures Leads(Lone(n), Signalled1(n, keys, multiset{}, ready, map[7 := Owning(n, 1, [{n}])]), HaveOwners(7),
                  Signalled1(n, keys, multiset{}, ready, map[7 := Collecting(n, 1, [{n}])]))
  {
    LoneOwners(n);
    assert [] + [{n}] == [{n}];
    assert DoLookUp(Signalled1(n, keys, multiset{}, ready, map[7 := Owning(n, 1, [])]), 7)
        == Signalled1(n, keys, multiset{}, ready, map[7 := Owning(n, 1, [{n}])]);
    assert DoHaveOwners(Lone(n), Signalled1(n, keys, multiset{}, ready, map[7 := Owning(n, 1, [{n}])]), 7)
        == Signalled1(n, keys, multiset{}, ready, map[7 := Collecting(n, 1, [{n}])]);
  }

  lemma GivesUp(n: Node, keys: set<Commit>)
    ensures Leads(Lone(n), Signalled1(n, keys, multiset{}, map[], map[7 := Collecting(n, 1, [{n}])]), ReadReady(7),
                  Signalled1(n, keys, multiset{}, map[], map[7 := Deciding(n, 1, [{n}], map[])]))
    ensures Leads(Lone(n), Signalled1(n, keys, multiset{}, map[], map[7 := Deciding(n, 1, [{n}], map[])]), Decide(7),
                  Signalled1(n, keys, multiset{}, map[], map[]))
  {
    LoneOwners(n);
    assert n in Found(Lone(n), [{n}]);
    assert DoReadReady(Signalled1(n, keys, multiset{}, map[], map[7 := Collecting(n, 1, [{n}])]), 7)
        == Signalled1(n, keys, multiset{}, map[], map[7 := Deciding(n, 1, [{n}], map[])]);
    assert DoDecide(Lone(n), Signalled1(n, keys, multiset{}, map[], map[7 := Deciding(n, 1, [{n}], map[])]), 7)
        == Signalled1(n, keys, multiset{}, map[], map[]);
  }

  lemma FromLostReady(n: Node, keys: set<Commit>, allowed: Step -> bool) returns (steps: seq<Step>)
    requires allowed(LookUp(7)) && allowed(HaveOwners(7)) && allowed(ReadReady(7)) && allowed(Decide(7))
    ensures Run(Lone(n), Signalled1(n, keys, multiset{}, map[], map[7 := Owning(n, 1, [])]), steps, allowed)
    ensures After(Lone(n), Signalled1(n, keys, multiset{}, map[], map[7 := Owning(n, 1, [])]), steps, allowed)
         == Signalled1(n, keys, multiset{}, map[], map[])
  {
    var c := Lone(n);
    LooksUp(n, keys, map[]);
    GivesUp(n, keys);
    RunCons(c, Signalled1(n, keys, multiset{}, map[], map[7 := Deciding(n, 1, [{n}], map[])]), Decide(7),
            Signalled1(n, keys, multiset{}, map[], map[]), [], allowed);
    steps := PrependThree(c, Signalled1(n, keys, multiset{}, map[], map[7 := Owning(n, 1, [])]), LookUp(7),
                          Signalled1(n, keys, multiset{}, map[], map[7 := Owning(n, 1, [{n}])]), HaveOwners(7),
                          Signalled1(n, keys, multiset{}, map[], map[7 := Collecting(n, 1, [{n}])]), ReadReady(7),
                          Signalled1(n, keys, multiset{}, map[], map[7 := Deciding(n, 1, [{n}], map[])]),
                          [Decide(7)] + [], allowed);
  }

  lemma EndRests(n: Node, keys: set<Commit>)
    ensures RestsUnswitched(n, Signalled1(n, keys, multiset{}, map[], map[]))
    ensures RestsUnswitched(n, Staged1(n, keys, multiset{}, map[]))
  {
  }

  // ---------- the three ways

  predicate OrFailedCalls(step: Step) {
    Lossless(1, step) || step.EtcdFail?
  }

  predicate OrLostLeases(step: Step) {
    Lossless(1, step) || step.LeaseExpire?
  }

  predicate OrOldEvents(step: Step) {
    Lossless(1, step) || step.Redeliver?
  }

  lemma PutFails(n: Node, allowed: Step -> bool) returns (steps: seq<Step>)
    requires allowed(Reload(7, n, 0)) && allowed(Stage(7, 1)) && allowed(Check(7)) && allowed(EtcdFail(7))
    ensures Run(Lone(n), Resting(n, {}, multiset{}), steps, allowed)
    ensures After(Lone(n), Resting(n, {}, multiset{}), steps, allowed) == Staged1(n, {}, multiset{}, map[])
  {
    assert Finish(Staged1(n, {}, multiset{}, map[7 := Checking(n, 1, 1)]), 7) == Staged1(n, {}, multiset{}, map[]);
    RunOne(Lone(n), Staged1(n, {}, multiset{}, map[7 := Checking(n, 1, 1)]), EtcdFail(7), allowed);
    steps := ToChecked(n, {}, multiset{}, [EtcdFail(7)], allowed);
  }

  /** The ready key cannot be put, and until its next callback the node does not try again. */
  lemma FailedCallLosesSignal(n: Node) returns (steps: seq<Step>)
    ensures Start(Lone(n), Resting(n, {}, multiset{}), 0, 1, {}) && Placed(Lone(n), Resting(n, {}, multiset{}), {n})
    ensures Run(Lone(n), Resting(n, {}, multiset{}), steps, OrFailedCalls)
    ensures RestsUnswitched(n, After(Lone(n), Resting(n, {}, multiset{}), steps, OrFailedCalls))
  {
    RestingIsStart(n, {});
    EndRests(n, {});
    steps := PutFails(n, OrFailedCalls);
  }

  lemma LeaseExpires(n: Node, rest: seq<Step>) returns (steps: seq<Step>)
    requires Run(Lone(n), Signalled1(n, {}, multiset{}, map[], map[7 := Owning(n, 1, [])]), rest, OrLostLeases)
    ensures Run(Lone(n), Staged1(n, {}, multiset{}, map[7 := Checking(n, 1, 1)]), steps, OrLostLeases)
    ensures After(Lone(n), Staged1(n, {}, multiset{}, map[7 := Checking(n, 1, 1)]), steps, OrLostLeases)
         == After(Lone(n), Signalled1(n, {}, multiset{}, map[], map[7 := Owning(n, 1, [])]), rest, OrLostLeases)
  {
    var signalled := Signalled1(n, {}, multiset{}, map[n := 1], map[7 := Owning(n, 1, [])]);
    var lost := Signalled1(n, {}, multiset{}, map[], map[7 := Owning(n, 1, [])]);
    PutsReady(n, {}, multiset{});
    assert Leads(Lone(n), signalled, LeaseExpire(n), lost) by { assert map[n := 1] - {n} == map[]; }
    RunCons(Lone(n), signalled, LeaseExpire(n), lost, rest, OrLostLeases);
    RunCons(Lone(n), Staged1(n, {}, multiset{}, map[7 := Checking(n, 1, 1)]), PutReady(7), signalled,
            [LeaseExpire(n)] + rest, OrLostLeases);
    steps := [PutReady(7)] + ([LeaseExpire(n)] + rest);
  }

  lemma FromLostLease(n: Node) returns (steps: seq<Step>)
    ensures Run(Lone(n), Staged1(n, {}, multiset{}, map[7 := Checking(n, 1, 1)]), steps, OrLostLeases)
    ensures After(Lone(n), Staged1(n, {}, multiset{}, map[7 := Checking(n, 1, 1)]), steps, OrLostLeases)
         == Signalled1(n, {}, multiset{}, map[], map[])
  {
    steps := FromLostReady(n, {}, OrLostLeases);
    steps := LeaseExpires(n, steps);
  }

  /** The lease of the ready key expires before anybody has read it. */
  lemma LostLeaseLosesSignal(n: Node) returns (steps: seq<Step>)
    ensures Start(Lone(n), Resting(n, {}, multiset{}), 0, 1, {}) && Placed(Lone(n), Resting(n, {}, multiset{}), {n})
    ensures Run(Lone(n), Resting(n, {}, multiset{}), steps, OrLostLeases)
    ensures RestsUnswitched(n, After(Lone(n), Resting(n, {}, multiset{}), steps, OrLostLeases))
  {
    RestingIsStart(n, {});
    EndRests(n, {});
    steps := FromLostLease(n);
    steps := ToChecked(n, {}, multiset{}, steps, OrLostLeases);
  }

  /** A commit key of an earlier cycle. */
  function Old(n: Node): set<Commit> {
    {Commit(0, n, [{n}], map[n := 0])}
  }

  function OldEvent(n: Node): multiset<Event> {
    multiset{Event(n, 0)}
  }

  /** The handler of the old event, at shard `i`, while the callback looks up the owners. */
  function Handling(n: Node, i: nat): State {
    Signalled1(n, Old(n), multiset{}, map[n := 1], map[7 := Owning(n, 1, []), 8 := Committing(n, 0, i)])
  }

  function Announced(n: Node): State {
    Signalled1(n, Old(n), OldEvent(n), map[n := 1], map[7 := Owning(n, 1, [])])
  }

  lemma Delivers(n: Node)
    ensures Leads(Lone(n), Announced(n), Deliver(8, n, 0), Handling(n, 0))
  {
    assert OldEvent(n) - multiset{Event(n, 0)} == multiset{};
    assert DoDeliver(Announced(n), 8, n, 0) == Handling(n, 0);
  }

  lemma CommitsNothing(n: Node)
    ensures Leads(Lone(n), Handling(n, 0), CommitShard(8), Handling(n, 1))
  {
    var s := Handling(n, 0);
    assert s.store[Loc(n, 0) := s.store[Loc(n, 0)]] == s.store;
    assert DoCommitShard(s, 8) == Handling(n, 1);
  }

  lemma ClearsReady(n: Node)
    ensures Leads(Lone(n), Handling(n, 1), ClearReady(8),
                  Signalled1(n, Old(n), multiset{}, map[], map[7 := Owning(n, 1, [])]))
  {
    assert map[n := 1] - {n} == map[];
    assert DoClearReady(Handling(n, 1), 8) == Signalled1(n, Old(n), multiset{}, map[], map[7 := Owning(n, 1, [])]);
  }

  lemma OldIsHandled(n: Node, rest: seq<Step>) returns (steps: seq<Step>)
    requires Run(Lone(n), Signalled1(n, Old(n), multiset{}, map[], map[7 := Owning(n, 1, [])]), rest, OrOldEvents)
    ensures Run(Lone(n), Announced(n), steps, OrOldEvents)
    ensures After(Lone(n), Announced(n), steps, OrOldEvents)
         == After(Lone(n), Signalled1(n, Old(n), multiset{}, map[], map[7 := Owning(n, 1, [])]), rest, OrOldEvents)
  {
    Delivers(n);
    CommitsNothing(n);
    ClearsReady(n);
    steps := PrependThree(Lone(n), Announced(n), Deliver(8, n, 0), Handling(n, 0), CommitShard(8), Handling(n, 1),
                          ClearReady(8),
                          Signalled1(n, Old(n), multiset{}, map[], map[7 := Owning(n, 1, [])]), rest, OrOldEvents);
  }

  lemma Announces(n: Node, rest: seq<Step>) returns (steps: seq<Step>)
    requires Run(Lone(n), Announced(n), rest, OrOldEvents)
    ensures Run(Lone(n), Staged1(n, Old(n), OldEvent(n), map[7 := Checking(n, 1, 1)]), steps, OrOldEvents)
    ensures After(Lone(n), Staged1(n, Old(n), OldEvent(n), map[7 := Checking(n, 1, 1)]), steps, OrOldEvents)
         == After(Lone(n), Announced(n), rest, OrOldEvents)
  {
    PutsReady(n, Old(n), OldEvent(n));
    RunCons(Lone(n), Staged1(n, Old(n), OldEvent(n), map[7 := Checking(n, 1, 1)]), PutReady(7), Announced(n), rest,
            OrOldEvents);
    steps := [PutReady(7)] + rest;
  }

  lemma FromOldEvent(n: Node) returns (steps: seq<Step>)
    ensures Run(Lone(n), Staged1(n, Old(n), OldEvent(n), map[7 := Checking(n, 1, 1)]), steps, OrOldEvents)
    ensures After(Lone(n), Staged1(n, Old(n), OldEvent(n), map[7 := Checking(n, 1, 1)]), steps, OrOldEvents)
         == Signalled1(n, Old(n), multiset{}, map[], map[])
  {
    steps := FromLostReady(n, Old(n), OrOldEvents);
    steps := OldIsHandled(n, steps);
    steps := Announces(n, steps);
  }

  lemma ComesBack(n: Node, rest: seq<Step>) returns (steps: seq<Step>)
    requires Run(Lone(n), Resting(n, Old(n), OldEvent(n)), rest, OrOldEvents)
    ensures Run(Lone(n), Resting(n, Old(n), multiset{}), steps, OrOldEvents)
    ensures After(Lone(n), Resting(n, Old(n), multiset{}), steps, OrOldEvents)
         == After(Lone(n), Resting(n, Old(n), OldEvent(n)), rest, OrOldEvents)
  {
    assert Commit(0, n, [{n}], map[n := 0]) in Old(n);
    assert 0 in CommittedRevs(Resting(n, Old(n), multiset{}));
    RunCons(Lone(n), Resting(n, Old(n), multiset{}), Redeliver(n, 0), Resting(n, Old(n), OldEvent(n)), rest,
            OrOldEvents);
    steps := [Redeliver(n, 0)] + rest;
  }

  lemma OldEventRun(n: Node) returns (steps: seq<Step>)
    ensures Run(Lone(n), Resting(n, Old(n), multiset{}), steps, OrOldEvents)
    ensures After(Lone(n), Resting(n, Old(n), multiset{}), steps, OrOldEvents)
         == Signalled1(n, Old(n), multiset{}, map[], map[])
  {
    steps := FromOldEvent(n);
    steps := ToChecked(n, Old(n), OldEvent(n), steps, OrOldEvents);
    steps := ComesBack(n, steps);
  }

  /** The event of an older commit comes back.  It commits nothing, and at its end it deletes the ready
      key of the new revision. */
  lemma OldEventLosesSignal(n: Node) returns (steps: seq<Step>)
    ensures Start(Lone(n), Resting(n, Old(n), multiset{}), 0, 1, {})
            && Placed(Lone(n), Resting(n, Old(n), multiset{}), {n})
    ensures Run(Lone(n), Resting(n, Old(n), multiset{}), steps, OrOldEvents)
    ensures RestsUnswitched(n, After(Lone(n), Resting(n, Old(n), multiset{}), steps, OrOldEvents))
  {
    RestingIsStart(n, Old(n));
    EndRests(n, Old(n));
    steps := OldEventRun(n);
  }
}
