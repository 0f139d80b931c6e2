/**
 What happens when a second revision is published in the middle of a cycle.  A node has two shards;
 both have staged 1, and its commit is on its way when 2 is published and one of them stages that.
 The commit then switches the other shard only.
 */
module SideBySideExample {
  import opened Options
  import opened RevisionProtocol
  import opened ProtocolInvariant
  import opened Pairs
  import opened Restaging
  import opened Traces

  /** A cluster at rest: revision 1 is published, both shards serve 0. */
  function Resting(n: Node): State {
    State(1, {0, 1}, map[n := {n}], Store(n, n, Slot(0, 0, 0, None, None), Slot(1, 0, 0, None, None)),
          map[], {}, {}, multiset{}, map[], map[], 2)
  }

  lemma RestingIsRest(n: Node)
    ensures AtRest(Pair(n, n), Resting(n))
  {
    PairOwners(n, n, {n});
  }

  // ---------- both shards stage 1

  /** Shard 0 has staged; its callback found that shard 1 has not. */
  function HalfStaged(n: Node): State {
    Resting(n).(store := Store(n, n, Slot(0, 0, 0, Some(1), None), Slot(1, 0, 0, None, None)),
                reloaded := map[Loc(n, 0) := 1])
  }

  function FirstGated(n: Node): State {
    Resting(n).(store := Store(n, n, Slot(0, 0, 0, None, Some(7)), Slot(1, 0, 0, None, None)),
                procs := map[7 := Gated(n, 0, 0, 1)])
  }

  function FirstChecking(n: Node, i: nat): State {
    HalfStaged(n).(procs := map[7 := Checking(n, 1, i)])
  }

  function SecondGated(n: Node): State {
    HalfStaged(n).(store := Store(n, n, Slot(0, 0, 0, Some(1), None), Slot(1, 0, 0, None, Some(8))),
                   procs := map[8 := Gated(n, 1, 1, 1)])
  }

  function SecondChecking(n: Node, i: nat): State {
    Resting(n).(store := Store(n, n, Slot(0, 0, 0, Some(1), None), Slot(1, 0, 0, Some(1), None)),
                reloaded := map[Loc(n, 0) := 1, Loc(n, 1) := 1], procs := map[8 := Checking(n, 1, i)])
  }

  lemma FirstReloads(n: Node)
    ensures Leads(Pair(n, n), Resting(n), Reload(7, n, 0), FirstGated(n))
  {
    assert DoReload(Resting(n), 7, n, 0) == FirstGated(n);
  }

  lemma FirstStages(n: Node)
    ensures Leads(Pair(n, n), FirstGated(n), Stage(7, 1), FirstChecking(n, 0))
  {
    assert DoStage(FirstGated(n), 7, 1) == FirstChecking(n, 0);
  }

  lemma FirstChecks(n: Node)
    ensures Leads(Pair(n, n), FirstChecking(n, 0), Check(7), FirstChecking(n, 1))
    ensures Leads(Pair(n, n), FirstChecking(n, 1), Check(7), HalfStaged(n))
  {
    assert DoCheck(FirstChecking(n, 0), 7) == FirstChecking(n, 1);
    assert DoCheck(FirstChecking(n, 1), 7) == HalfStaged(n);
  }

  lemma SecondReloads(n: Node)
    ensures Leads(Pair(n, n), HalfStaged(n), Reload(8, n, 1), SecondGated(n))
  {
    assert DoReload(HalfStaged(n), 8, n, 1) == SecondGated(n);
  }

  lemma SecondStages(n: Node)
    ensures Leads(Pair(n, n), SecondGated(n), Stage(8, 1), SecondChecking(n, 0))
  {
    assert DoStage(SecondGated(n), 8, 1) == SecondChecking(n, 0);
  }

  lemma SecondChecks(n: Node)
    ensures Leads(Pair(n, n), SecondChecking(n, 0), Check(8), SecondChecking(n, 1))
    ensures Leads(Pair(n, n), SecondChecking(n, 1), Check(8), SecondChecking(n, 2))
  {
    assert DoCheck(SecondChecking(n, 0), 8) == SecondChecking(n, 1);
    assert DoCheck(SecondChecking(n, 1), 8) == SecondChecking(n, 2);
  }

  // ---------- the ready key and the commit key are put

  function Signalling(n: Node, pc: Pc): State {
    SecondChecking(n, 2).(ready := map[n := 1], puts := {Put(n, 1)}, procs := map[8 := pc])
  }

  function CommitWaiting(n: Node): State {
    Signalling(n, Checking(n, 1, 2)).(commits := {Commit(1, n, [{n}, {n}], map[n := 1])},
                                      pending := multiset{Event(n, 1)}, procs := map[])
  }

  lemma PutsReady(n: Node)
    ensures Leads(Pair(n, n), SecondChecking(n, 2), PutReady(8), Signalling(n, Owning(n, 1, [])))
  {
    assert DoPutReady(SecondChecking(n, 2), 8) == Signalling(n, Owning(n, 1, []));
  }

  lemma LooksUp(n: Node)
    ensures Leads(Pair(n, n), Signalling(n, Owning(n, 1, [])), LookUp(8), Signalling(n, Owning(n, 1, [{n}])))
    ensures Leads(Pair(n, n), Signalling(n, Owning(n, 1, [{n}])), LookUp(8), Signalling(n, Owning(n, 1, [{n}, {n}])))
  {
    PairKeys(n, n);
    assert [] + [{n}] == [{n}] && [{n}] + [{n}] == [{n}, {n}];
    assert DoLookUp(Signalling(n, Owning(n, 1, [])), 8) == Signalling(n, Owning(n, 1, [{n}]));
    assert DoLookUp(Signalling(n, Owning(n, 1, [{n}])), 8) == Signalling(n, Owning(n, 1, [{n}, {n}]));
  }

  lemma FindsOwners(n: Node)
    ensures Leads(Pair(n, n), Signalling(n, Owning(n, 1, [{n}, {n}])), HaveOwners(8),
                  Signalling(n, Collecting(n, 1, [{n}, {n}])))
  {
    PairKeys(n, n);
    PairOwners(n, n, {n});
    assert DoHaveOwners(Pair(n, n), Signalling(n, Owning(n, 1, [{n}, {n}])), 8)
        == Signalling(n, Collecting(n, 1, [{n}, {n}]));
  }

  lemma ReadsReady(n: Node)
    ensures Leads(Pair(n, n), Signalling(n, Collecting(n, 1, [{n}, {n}])), ReadReady(8),
                  Signalling(n, Deciding(n, 1, [{n}, {n}], map[n := 1])))
  {
    assert DoReadReady(Signalling(n, Collecting(n, 1, [{n}, {n}])), 8)
        == Signalling(n, Deciding(n, 1, [{n}, {n}], map[n := 1]));
  }

  lemma PutsCommit(n: Node)
    ensures Leads(Pair(n, n), Signalling(n, Deciding(n, 1, [{n}, {n}], map[n := 1])), Decide(8), CommitWaiting(n))
  {
    PairOwners(n, n, {n});
    assert EventsFor({n, n}, 1) == multiset{Event(n, 1)} by {
      assert (set m | m in {n, n} :: Event(m, 1)) == {Event(n, 1)};
    }
    assert DoDecide(Pair(n, n), Signalling(n, Deciding(n, 1, [{n}, {n}], map[n := 1])), 8) == CommitWaiting(n);
  }

  /** From rest to the commit key, and on. */
  lemma ToCommitWaiting(n: Node, rest: seq<Step>) returns (steps: seq<Step>)
    requires Run(Pair(n, n), CommitWaiting(n), rest, FixedPlacement)
    ensures Run(Pair(n, n), Resting(n), steps, FixedPlacement)
    ensures After(Pair(n, n), Resting(n), steps, FixedPlacement)
         == After(Pair(n, n), CommitWaiting(n), rest, FixedPlacement)
  {
    var c := Pair(n, n);
    ReadsReady(n);
    PutsCommit(n);
    FindsOwners(n);
    steps := PrependThree(c, Signalling(n, Owning(n, 1, [{n}, {n}])), HaveOwners(8),
                          Signalling(n, Collecting(n, 1, [{n}, {n}])), ReadReady(8),
                          Signalling(n, Deciding(n, 1, [{n}, {n}], map[n := 1])), Decide(8), CommitWaiting(n), rest,
                          FixedPlacement);
    PutsReady(n);
    LooksUp(n);
    steps := PrependThree(c, SecondChecking(n, 2), PutReady(8), Signalling(n, Owning(n, 1, [])), LookUp(8),
                          Signalling(n, Owning(n, 1, [{n}])),
                          LookUp(8), Signalling(n, Owning(n, 1, [{n}, {n}])), steps, FixedPlacement);
    steps := ToAllStaged(n, steps);
  }

  lemma ToAllStaged(n: Node, rest: seq<Step>) returns (steps: seq<Step>)
    requires Run(Pair(n, n), SecondChecking(n, 2), rest, FixedPlacement)
    ensures Run(Pair(n, n), Resting(n), steps, FixedPlacement)
    ensures After(Pair(n, n), Resting(n), steps, FixedPlacement)
         == After(Pair(n, n), SecondChecking(n, 2), rest, FixedPlacement)
  {
    var c := Pair(n, n);
    SecondStages(n);
    SecondChecks(n);
    steps := PrependThree(c, SecondGated(n), Stage(8, 1), SecondChecking(n, 0), Check(8), SecondChecking(n, 1),
                          Check(8), SecondChecking(n, 2),
                          rest, FixedPlacement);
    FirstChecks(n);
    SecondReloads(n);
    steps := PrependThree(c, FirstChecking(n, 0), Check(7), FirstChecking(n, 1), Check(7), HalfStaged(n),
                          Reload(8, n, 1), SecondGated(n),
                          steps, FixedPlacement);
    FirstReloads(n);
    FirstStages(n);
    RunCons(c, FirstGated(n), Stage(7, 1), FirstChecking(n, 0), steps, FixedPlacement);
    RunCons(c, Resting(n), Reload(7, n, 0), FirstGated(n), [Stage(7, 1)] + steps, FixedPlacement);
    steps := [Reload(7, n, 0)] + ([Stage(7, 1)] + steps);
  }

  // ---------- with one revision the commit alone unstages

  function Committing1(n: Node, i: nat): State {
    var first := if i == 0 then Slot(0, 0, 0, Some(1), None) else Slot(0, 0, 1, None, None);
    CommitWaiting(n).(store := Store(n, n, first, Slot(1, 0, 0, Some(1), None)),
                      pending := multiset{}, procs := map[10 := Committing(n, 1, i)])
  }

  lemma Delivers(n: Node)
    ensures Leads(Pair(n, n), CommitWaiting(n), Deliver(10, n, 1), Committing1(n, 0))
  {
    assert DoDeliver(CommitWaiting(n), 10, n, 1) == Committing1(n, 0);
  }

  lemma CommitsFirst(n: Node)
    ensures Leads(Pair(n, n), Committing1(n, 0), CommitShard(10), Committing1(n, 1))
  {
    var s := Committing1(n, 0);
    StoreChanges(n, n, s.store[Loc(n, 0)], s.store[Loc(n, 1)], Slot(0, 0, 1, None, None));
    assert DoCommitShard(s, 10).store == Committing1(n, 1).store;
    assert DoCommitShard(s, 10) == Committing1(n, 1);
  }

  /** The step that Restaging.StagedExactlyIff singles out. */
  lemma CommitUnstages(n: Node)
    ensures StagedExactly(Committing1(n, 0).store, n, 1) && Unstages(Committing1(n, 0), CommitShard(10), n, 1)
  {
  }

  /** "Ready at `r` means that every shard of the node is staged at exactly `r`" fails with a single
      revision: while its commit is being handled, the ready key is still there. */
  lemma CommitEndsStagedExactly(n: Node) returns (steps: seq<Step>)
    ensures AtRest(Pair(n, n), Resting(n)) && Run(Pair(n, n), Resting(n), steps, FixedPlacement)
    ensures var t := After(Pair(n, n), Resting(n), steps, FixedPlacement);
      t.history == {0, 1} && n in t.ready && t.ready[n] == 1 && !StagedExactly(t.store, n, 1)
  {
    RestingIsRest(n);
    Delivers(n);
    CommitsFirst(n);
    var c, t := Pair(n, n), Committing1(n, 1);
    RunCons(c, Committing1(n, 0), CommitShard(10), t, [], FixedPlacement);
    RunCons(c, CommitWaiting(n), Deliver(10, n, 1), Committing1(n, 0), [CommitShard(10)] + [], FixedPlacement);
    steps := ToCommitWaiting(n, [Deliver(10, n, 1)] + ([CommitShard(10)] + []));
    assert Loc(n, 0) in t.store && t.store[Loc(n, 0)].staged == None;
  }

  // ---------- 2 overtakes

  function Published2(n: Node): State {
    CommitWaiting(n).(published := 2, history := {0, 1, 2})
  }

  function Gated2(n: Node): State {
    Published2(n).(store := Store(n, n, Slot(0, 0, 0, Some(1), None), Slot(1, 0, 0, Some(1), Some(9))),
                   procs := map[9 := Gated(n, 1, 1, 2)])
  }

  function Overtaken(n: Node): State {
    Published2(n).(store := Store(n, n, Slot(0, 0, 0, Some(1), None), Slot(1, 0, 0, Some(2), None)),
                   procs := map[9 := Checking(n, 2, 0)],
                   reloaded := map[Loc(n, 0) := 1, Loc(n, 1) := 2])
  }

  lemma Publishes(n: Node)
    ensures Leads(Pair(n, n), CommitWaiting(n), Publish(2), Published2(n))
  {
    assert {0, 1} + {2} == {0, 1, 2};
  }

  lemma Reloads2(n: Node)
    ensures Leads(Pair(n, n), Published2(n), Reload(9, n, 1), Gated2(n))
  {
    assert DoReload(Published2(n), 9, n, 1) == Gated2(n);
  }

  lemma Stages2(n: Node)
    ensures Leads(Pair(n, n), Gated2(n), Stage(9, 2), Overtaken(n))
  {
    var s := Gated2(n);
    StoreChanges(n, n, s.store[Loc(n, 0)], s.store[Loc(n, 1)], Slot(1, 0, 0, Some(2), None));
    ReloadedAgain(n);
    var t := DoStage(s, 9, 2);
    assert t.store == Overtaken(n).store && t.reloaded == Overtaken(n).reloaded && t.procs == Overtaken(n).procs;
    assert t == s.(store := t.store, reloaded := t.reloaded, procs := t.procs);
  }

  lemma ReloadedAgain(n: Node)
    ensures map[Loc(n, 0) := 1, Loc(n, 1) := 1][Loc(n, 1) := 2] == map[Loc(n, 0) := 1, Loc(n, 1) := 2]
  {
  }

  /** The step that Restaging.KeptIff and Restaging.StagedExactlyIff single out. */
  lemma Overtakes2(n: Node)
    ensures AllKept(Gated2(n).store, 1) && Overtakes(Gated2(n), Stage(9, 2), 1)
    ensures StagedExactly(Gated2(n).store, n, 1) && Unstages(Gated2(n), Stage(9, 2), n, 1)
  {
  }

  lemma ToOvertaken(n: Node, rest: seq<Step>) returns (steps: seq<Step>)
    requires Run(Pair(n, n), Overtaken(n), rest, FixedPlacement)
    ensures Run(Pair(n, n), Resting(n), steps, FixedPlacement)
    ensures After(Pair(n, n), Resting(n), steps, FixedPlacement)
         == After(Pair(n, n), Overtaken(n), rest, FixedPlacement)
  {
    Publishes(n);
    Reloads2(n);
    Stages2(n);
    steps := PrependThree(Pair(n, n), CommitWaiting(n), Publish(2), Published2(n), Reload(9, n, 1), Gated2(n),
                          Stage(9, 2), Overtaken(n),
                          rest, FixedPlacement);
    steps := ToCommitWaiting(n, steps);
  }

  /** The same reading fails when the ready key at 1 outlives the staging of 2. */
  lemma StagedExactlyIsNotKept(n: Node) returns (steps: seq<Step>)
    ensures AtRest(Pair(n, n), Resting(n)) && Run(Pair(n, n), Resting(n), steps, FixedPlacement)
    ensures var t := After(Pair(n, n), Resting(n), steps, FixedPlacement);
      n in t.ready && t.ready[n] == 1 && Loc(n, 1) in t.store && t.store[Loc(n, 1)].staged == Some(2)
  {
    RestingIsRest(n);
    steps := ToOvertaken(n, []);
  }

  lemma CommitShardPasses(n: Node, s: State) returns (t: State)
    requires 10 in s.procs && s.procs[10] == Committing(n, 1, 0) && s.store == Overtaken(n).store
    ensures Leads(Pair(n, n), s, CommitShard(10), t)
            && t.store == Store(n, n, Slot(0, 0, 1, None, None), Slot(1, 0, 0, Some(2), None))
  {
    StoreChanges(n, n, s.store[Loc(n, 0)], s.store[Loc(n, 1)], Slot(0, 0, 1, None, None));
    t := DoCommitShard(s, 10);
  }

  lemma CommitPasses(n: Node) returns (t: State)
    ensures var s := DoDeliver(Overtaken(n), 10, n, 1);
      Leads(Pair(n, n), Overtaken(n), Deliver(10, n, 1), s) && Leads(Pair(n, n), s, CommitShard(10), t)
    ensures t.store == Store(n, n, Slot(0, 0, 1, None, None), Slot(1, 0, 0, Some(2), None))
  {
    var s := DoDeliver(Overtaken(n), 10, n, 1);
    assert s.procs[10] == Committing(n, 1, 0) && s.store == Overtaken(n).store;
    t := CommitShardPasses(n, s);
  }

  /** And "once a shard serves `r`, every shard has `r` staged or serves it" fails: a run from rest ends
      with shard 0 serving 1, while shard 1 serves 0 and has only 2 staged. */
  lemma OldAndNewSideBySide(n: Node) returns (steps: seq<Step>)
    ensures AtRest(Pair(n, n), Resting(n)) && Run(Pair(n, n), Resting(n), steps, FixedPlacement)
    ensures var t := After(Pair(n, n), Resting(n), steps, FixedPlacement);
      && Loc(n, 0) in t.store && t.store[Loc(n, 0)].serving == 1
      && Loc(n, 1) in t.store && t.store[Loc(n, 1)].serving == 0 && t.store[Loc(n, 1)].staged == Some(2)
  {
    RestingIsRest(n);
    var s := DoDeliver(Overtaken(n), 10, n, 1);
    var t := CommitPasses(n);
    RunCons(Pair(n, n), s, CommitShard(10), t, [], FixedPlacement);
    RunCons(Pair(n, n), Overtaken(n), Deliver(10, n, 1), s, [CommitShard(10)] + [], FixedPlacement);
    steps := ToOvertaken(n, [Deliver(10, n, 1)] + ([CommitShard(10)] + []));
  }
}
