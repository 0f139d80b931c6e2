/**
 A round of Lifetime in full: the put of the ready key fails, the cluster rests unswitched, and the next
 callback of its only shard stages the revision again, puts the ready key and commits.
 */
module RetryExample {
  import opened Options
  import opened RevisionProtocol
  import opened AllOrNothing
  import opened Quiescence
  import opened Signals
  import opened Traces
  import opened LostSignals
  import opened Lifetime

  /** The rest after the failed put, with the record of callbacks begun anew. */
  function Unswitched(n: Node): State {
    Resting(n, {}, multiset{}).(store := map[Loc(n, 0) := Slot(0, 0, 0, Some(1), None)])
  }

  /** The next callback: 1 is published and 0 is served, so it downloads 1 again. */
  function GatedAgain(n: Node): State {
    Unswitched(n).(store := map[Loc(n, 0) := Slot(0, 0, 0, Some(1), Some(7))], procs := map[7 := Gated(n, 0, 0, 1)])
  }

  function Checking1(n: Node, next: nat): State {
    Staged1(n, {}, multiset{}, map[7 := Checking(n, 1, next)])
  }

  function Ready(n: Node, pc: Pc): State {
    Signalled1(n, {}, multiset{}, map[n := 1], map[7 := pc])
  }

  function Key(n: Node): Commit {
    Commit(1, n, [{n}], map[n := 1])
  }

  function Committed(n: Node): State {
    Signalled1(n, {Key(n)}, multiset{Event(n, 1)}, map[n := 1], map[])
  }

  function Handling1(n: Node): State {
    Signalled1(n, {Key(n)}, multiset{}, map[n := 1], map[8 := Committing(n, 1, 0)])
  }

  function Handled(n: Node): State {
    Signalled1(n, {Key(n)}, multiset{}, map[n := 1], map[8 := Committing(n, 1, 1)]).(
      store := map[Loc(n, 0) := Slot(0, 0, 1, None, None)])
  }

  function Switched(n: Node): State {
    Handled(n).(ready := map[], procs := map[])
  }

  // ---------- the steps

  lemma ReloadsAgain(n: Node)
    ensures Leads(Lone(n), Unswitched(n), Reload(7, n, 0), GatedAgain(n))
    ensures Leads(Lone(n), GatedAgain(n), Stage(7, 1), Checking1(n, 0))
  {
    assert DoReload(Unswitched(n), 7, n, 0) == GatedAgain(n);
    assert DoStage(GatedAgain(n), 7, 1) == Checking1(n, 0);
  }

  lemma PutsReadyAgain(n: Node)
    ensures Leads(Lone(n), Checking1(n, 0), Check(7), Checking1(n, 1))
    ensures Leads(Lone(n), Checking1(n, 1), PutReady(7), Ready(n, Owning(n, 1, [])))
  {
    Checks(n, {}, multiset{});
    PutsReady(n, {}, multiset{});
  }

  lemma FindsOwner(n: Node)
    ensures Leads(Lone(n), Ready(n, Owning(n, 1, [])), LookUp(7), Ready(n, Owning(n, 1, [{n}])))
    ensures Leads(Lone(n), Ready(n, Owning(n, 1, [{n}])), HaveOwners(7), Ready(n, Collecting(n, 1, [{n}])))
  {
    LooksUp(n, {}, map[n := 1]);
  }

  lemma ReadsKeys(n: Node)
    ensures Leads(Lone(n), Ready(n, Collecting(n, 1, [{n}])), ReadReady(7),
                  Ready(n, Deciding(n, 1, [{n}], map[n := 1])))
  {
    assert DoReadReady(Ready(n, Collecting(n, 1, [{n}])), 7) == Ready(n, Deciding(n, 1, [{n}], map[n := 1]));
  }

  lemma PutsCommit(n: Node)
    ensures Leads(Lone(n), Ready(n, Deciding(n, 1, [{n}], map[n := 1])), Decide(7), Committed(n))
  {
    LoneOwners(n);
    assert (set m | m in {n} :: Event(m, 1)) == {Event(n, 1)};
    assert {} + {Key(n)} == {Key(n)} && multiset{} + EventsFor({n}, 1) == multiset{Event(n, 1)};
    assert DoDecide(Lone(n), Ready(n, Deciding(n, 1, [{n}], map[n := 1])), 7) == Committed(n);
  }

  lemma DeliversCommit(n: Node)
    ensures Leads(Lone(n), Committed(n), Deliver(8, n, 1), Handling1(n))
  {
    assert multiset{Event(n, 1)} - multiset{Event(n, 1)} == multiset{};
    assert DoDeliver(Committed(n), 8, n, 1) == Handling1(n);
  }

  lemma Swaps(n: Node)
    ensures Leads(Lone(n), Handling1(n), CommitShard(8), Handled(n))
  {
    var s := Handling1(n);
    assert CommitStaged(s.store[Loc(n, 0)], 1) == Slot(0, 0, 1, None, None);
    assert DoCommitShard(s, 8).store == map[Loc(n, 0) := Slot(0, 0, 1, None, None)];
    assert DoCommitShard(s, 8) == Handled(n);
  }

  lemma ClearsKey(n: Node)
    ensures Leads(Lone(n), Handled(n), ClearReady(8), Switched(n))
  {
    assert map[n := 1] - {n} == map[];
    assert DoClearReady(Handled(n), 8) == Switched(n);
  }

  // ---------- the run

  lemma Ends(n: Node) returns (steps: seq<Step>)
    ensures Run(Lone(n), Committed(n), steps, LosslessSteps(1))
    ensures After(Lone(n), Committed(n), steps, LosslessSteps(1)) == Switched(n)
  {
    DeliversCommit(n);
    Swaps(n);
    ClearsKey(n);
    steps := PrependThree(Lone(n), Committed(n), Deliver(8, n, 1), Handling1(n), CommitShard(8), Handled(n),
                          ClearReady(8), Switched(n),
                          [], LosslessSteps(1));
  }

  lemma Commits(n: Node, rest: seq<Step>) returns (steps: seq<Step>)
    requires Run(Lone(n), Committed(n), rest, LosslessSteps(1))
    ensures Run(Lone(n), Ready(n, Owning(n, 1, [{n}])), steps, LosslessSteps(1))
    ensures After(Lone(n), Ready(n, Owning(n, 1, [{n}])), steps, LosslessSteps(1))
         == After(Lone(n), Committed(n), rest, LosslessSteps(1))
  {
    FindsOwner(n);
    ReadsKeys(n);
    PutsCommit(n);
    steps := PrependThree(Lone(n), Ready(n, Owning(n, 1, [{n}])), HaveOwners(7), Ready(n, Collecting(n, 1, [{n}])),
                          ReadReady(7), Ready(n, Deciding(n, 1, [{n}], map[n := 1])), Decide(7), Committed(n), rest,
                          LosslessSteps(1));
  }

  lemma SignalsAgain(n: Node, rest: seq<Step>) returns (steps: seq<Step>)
    requires Run(Lone(n), Ready(n, Owning(n, 1, [{n}])), rest, LosslessSteps(1))
    ensures Run(Lone(n), Checking1(n, 0), steps, LosslessSteps(1))
    ensures After(Lone(n), Checking1(n, 0), steps, LosslessSteps(1))
         == After(Lone(n), Ready(n, Owning(n, 1, [{n}])), rest, LosslessSteps(1))
  {
    PutsReadyAgain(n);
    FindsOwner(n);
    steps := PrependThree(Lone(n), Checking1(n, 0), Check(7), Checking1(n, 1), PutReady(7), Ready(n, Owning(n, 1, [])),
                          LookUp(7), Ready(n, Owning(n, 1, [{n}])), rest, LosslessSteps(1));
  }

  lemma StagesAgain(n: Node, rest: seq<Step>) returns (steps: seq<Step>)
    requires Run(Lone(n), Checking1(n, 0), rest, LosslessSteps(1))
    ensures Run(Lone(n), Unswitched(n), steps, LosslessSteps(1))
    ensures After(Lone(n), Unswitched(n), steps, LosslessSteps(1))
         == After(Lone(n), Checking1(n, 0), rest, LosslessSteps(1))
  {
    ReloadsAgain(n);
    RunCons(Lone(n), GatedAgain(n), Stage(7, 1), Checking1(n, 0), rest, LosslessSteps(1));
    RunCons(Lone(n), Unswitched(n), Reload(7, n, 0), GatedAgain(n), [Stage(7, 1)] + rest, LosslessSteps(1));
    steps := [Reload(7, n, 0)] + ([Stage(7, 1)] + rest);
  }

  lemma Retries(n: Node) returns (steps: seq<Step>)
    ensures Run(Lone(n), Unswitched(n), steps, LosslessSteps(1))
    ensures After(Lone(n), Unswitched(n), steps, LosslessSteps(1)) == Switched(n)
  {
    steps := Ends(n);
    steps := Commits(n, steps);
    steps := SignalsAgain(n, steps);
    steps := StagesAgain(n, steps);
  }

  /** The failed put leaves the cluster at rest at 0, and the next callback takes it to 1. */
  lemma NextCallbackSwitches(n: Node) returns (round: Round)
    ensures Start(Lone(n), Resting(n, {}, multiset{}), 0, 1, {}) && Placed(Lone(n), Resting(n, {}, multiset{}), {n})
    ensures round.rev == 1 && Completes(Lone(n), Resting(n, {}, multiset{}), round)
    ensures RestsUnswitched(n, After(Lone(n), Resting(n, {}, multiset{}), round.faulty, CycleSteps(1)))
    ensures EndOf(Lone(n), Resting(n, {}, multiset{}), round).store == map[Loc(n, 0) := Slot(0, 0, 1, None, None)]
  {
    RestingIsStart(n, {});
    EndRests(n, {});
    var faulty := PutFails(n, CycleSteps(1));
    var clean := Retries(n);
    assert Recounted(Staged1(n, {}, multiset{}, map[])) == Unswitched(n);
    round := Round(1, faulty, clean);
  }
}
