/**
 A cycle that comes to rest without switching: `b` serves 1 already when `a` reloads.
 */
module LateJoinExample {
  import opened Options
  import opened RevisionProtocol
  import opened AllOrNothing
  import opened Quiescence
  import opened Signals
  import opened Pairs
  import opened Traces

  /** Node `b` has joined after the publication of 1 and has loaded it; `a` serves 0. */
  function Joined(a: Node, b: Node): State {
    State(1, {0, 1}, map[a := {a, b}, b := {a, b}], Store(a, b, Slot(0, 0, 0, None, None), Slot(1, 1, 1, None, None)),
          map[], {}, {}, multiset{}, map[], map[], 2)
  }

  function Gated1(a: Node, b: Node): State {
    Joined(a, b).(store := Store(a, b, Slot(0, 0, 0, None, Some(7)), Slot(1, 1, 1, None, None)),
                  procs := map[7 := Gated(a, 0, 0, 1)])
  }

  function Checking1(a: Node, b: Node, i: nat): State {
    Joined(a, b).(store := Store(a, b, Slot(0, 0, 0, Some(1), None), Slot(1, 1, 1, None, None)),
                  reloaded := map[Loc(a, 0) := 1],
                  procs := map[7 := Checking(a, 1, i)])
  }

  function Signalling(a: Node, b: Node, pc: Pc): State {
    Checking1(a, b, 2).(ready := map[a := 1], puts := {Put(a, 1)}, procs := map[7 := pc])
  }

  function GivenUp(a: Node, b: Node): State {
    Signalling(a, b, Checking(a, 1, 2)).(procs := map[])
  }

  function AtEnd(a: Node, b: Node): State {
    GivenUp(a, b).(reloaded := map[Loc(a, 0) := 1, Loc(b, 1) := 1])
  }

  lemma JoinedIsStart(a: Node, b: Node)
    requires a != b
    ensures Start(Pair(a, b), Joined(a, b), 0, 1, {Loc(b, 1)}) && Placed(Pair(a, b), Joined(a, b), {a, b})
  {
    PairOwners(a, b, {a, b});
    var s := Joined(a, b);
    assert Loc(a, 0) in s.store && Loc(b, 1) in s.store;
  }

  lemma Reloads(a: Node, b: Node)
    ensures Leads(Pair(a, b), Joined(a, b), Reload(7, a, 0), Gated1(a, b))
  {
    StoreChanges(a, b, Slot(0, 0, 0, None, None), Slot(1, 1, 1, None, None), Slot(0, 0, 0, None, Some(7)));
    assert DoReload(Joined(a, b), 7, a, 0) == Gated1(a, b);
  }

  lemma Stages(a: Node, b: Node)
    ensures Leads(Pair(a, b), Gated1(a, b), Stage(7, 1), Checking1(a, b, 0))
  {
    StoreChanges(a, b, Slot(0, 0, 0, None, Some(7)), Slot(1, 1, 1, None, None), Slot(0, 0, 0, Some(1), None));
    assert DoStage(Gated1(a, b), 7, 1) == Checking1(a, b, 0);
  }

  lemma Checks(a: Node, b: Node)
    requires a != b
    ensures Leads(Pair(a, b), Checking1(a, b, 0), Check(7), Checking1(a, b, 1))
    ensures Leads(Pair(a, b), Checking1(a, b, 1), Check(7), Checking1(a, b, 2))
  {
    assert DoCheck(Checking1(a, b, 0), 7) == Checking1(a, b, 1);
    assert DoCheck(Checking1(a, b, 1), 7) == Checking1(a, b, 2);
  }

  lemma PutsReady(a: Node, b: Node)
    ensures Leads(Pair(a, b), Checking1(a, b, 2), PutReady(7), Signalling(a, b, Owning(a, 1, [])))
  {
    assert DoPutReady(Checking1(a, b, 2), 7) == Signalling(a, b, Owning(a, 1, []));
  }

  lemma LooksUp(a: Node, b: Node)
    ensures Leads(Pair(a, b), Signalling(a, b, Owning(a, 1, [])), LookUp(7), Signalling(a, b, Owning(a, 1, [{a, b}])))
    ensures Leads(Pair(a, b), Signalling(a, b, Owning(a, 1, [{a, b}])), LookUp(7),
                  Signalling(a, b, Owning(a, 1, [{a, b}, {a, b}])))
  {
    PairKeys(a, b);
    assert [] + [{a, b}] == [{a, b}] && [{a, b}] + [{a, b}] == [{a, b}, {a, b}];
    assert DoLookUp(Signalling(a, b, Owning(a, 1, [])), 7) == Signalling(a, b, Owning(a, 1, [{a, b}]));
    assert DoLookUp(Signalling(a, b, Owning(a, 1, [{a, b}])), 7) == Signalling(a, b, Owning(a, 1, [{a, b}, {a, b}]));
  }

  lemma FindsOwners(a: Node, b: Node)
    ensures Leads(Pair(a, b), Signalling(a, b, Owning(a, 1, [{a, b}, {a, b}])), HaveOwners(7),
                  Signalling(a, b, Collecting(a, 1, [{a, b}, {a, b}])))
  {
    PairKeys(a, b);
    PairOwners(a, b, {a, b});
    assert DoHaveOwners(Pair(a, b), Signalling(a, b, Owning(a, 1, [{a, b}, {a, b}])), 7)
        == Signalling(a, b, Collecting(a, 1, [{a, b}, {a, b}]));
  }

  lemma ReadsReady(a: Node, b: Node)
    ensures Leads(Pair(a, b), Signalling(a, b, Collecting(a, 1, [{a, b}, {a, b}])), ReadReady(7),
                  Signalling(a, b, Deciding(a, 1, [{a, b}, {a, b}], map[a := 1])))
  {
    assert DoReadReady(Signalling(a, b, Collecting(a, 1, [{a, b}, {a, b}])), 7)
        == Signalling(a, b, Deciding(a, 1, [{a, b}, {a, b}], map[a := 1]));
  }

  lemma GivesUp(a: Node, b: Node)
    requires a != b
    ensures Leads(Pair(a, b), Signalling(a, b, Deciding(a, 1, [{a, b}, {a, b}], map[a := 1])), Decide(7), GivenUp(a, b))
  {
    PairOwners(a, b, {a, b});
    assert b in Found(Pair(a, b), [{a, b}, {a, b}]) && b !in map[a := 1];
    assert DoDecide(Pair(a, b), Signalling(a, b, Deciding(a, 1, [{a, b}, {a, b}], map[a := 1])), 7) == GivenUp(a, b);
  }

  lemma FindsNothingNew(a: Node, b: Node)
    ensures Leads(Pair(a, b), GivenUp(a, b), Reload(8, b, 1), AtEnd(a, b))
  {
    assert map[Loc(a, 0) := 1][Loc(b, 1) := 1] == map[Loc(a, 0) := 1, Loc(b, 1) := 1];
    assert DoReload(GivenUp(a, b), 8, b, 1) == AtEnd(a, b);
  }

  lemma Ending(a: Node, b: Node) returns (steps: seq<Step>)
    requires a != b
    ensures Run(Pair(a, b), Signalling(a, b, Deciding(a, 1, [{a, b}, {a, b}], map[a := 1])), steps, LosslessSteps(1))
    ensures After(Pair(a, b), Signalling(a, b, Deciding(a, 1, [{a, b}, {a, b}], map[a := 1])), steps, LosslessSteps(1))
         == AtEnd(a, b)
  {
    var c := Pair(a, b);
    GivesUp(a, b);
    FindsNothingNew(a, b);
    RunCons(c, GivenUp(a, b), Reload(8, b, 1), AtEnd(a, b), [], LosslessSteps(1));
    steps := [Reload(8, b, 1)] + [];
    RunCons(c, Signalling(a, b, Deciding(a, 1, [{a, b}, {a, b}], map[a := 1])), Decide(7), GivenUp(a, b), steps,
            LosslessSteps(1));
    steps := [Decide(7)] + steps;
  }

  lemma Asking(a: Node, b: Node, rest: seq<Step>) returns (steps: seq<Step>)
    requires a != b && Run(Pair(a, b), Signalling(a, b, Deciding(a, 1, [{a, b}, {a, b}], map[a := 1])), rest,
                           LosslessSteps(1))
    ensures Run(Pair(a, b), Signalling(a, b, Owning(a, 1, [{a, b}])), steps, LosslessSteps(1))
    ensures After(Pair(a, b), Signalling(a, b, Owning(a, 1, [{a, b}])), steps, LosslessSteps(1))
         == After(Pair(a, b), Signalling(a, b, Deciding(a, 1, [{a, b}, {a, b}], map[a := 1])), rest, LosslessSteps(1))
  {
    var seen := [{a, b}, {a, b}];
    LooksUp(a, b);
    FindsOwners(a, b);
    ReadsReady(a, b);
    steps := PrependThree(Pair(a, b), Signalling(a, b, Owning(a, 1, [{a, b}])), LookUp(7),
                          Signalling(a, b, Owning(a, 1, seen)), HaveOwners(7),
                          Signalling(a, b, Collecting(a, 1, seen)), ReadReady(7),
                          Signalling(a, b, Deciding(a, 1, seen, map[a := 1])),
                          rest, LosslessSteps(1));
  }

  lemma Checked(a: Node, b: Node, rest: seq<Step>) returns (steps: seq<Step>)
    requires a != b && Run(Pair(a, b), Signalling(a, b, Owning(a, 1, [{a, b}])), rest, LosslessSteps(1))
    ensures Run(Pair(a, b), Checking1(a, b, 1), steps, LosslessSteps(1))
    ensures After(Pair(a, b), Checking1(a, b, 1), steps, LosslessSteps(1))
         == After(Pair(a, b), Signalling(a, b, Owning(a, 1, [{a, b}])), rest, LosslessSteps(1))
  {
    Checks(a, b);
    PutsReady(a, b);
    LooksUp(a, b);
    steps := PrependThree(Pair(a, b), Checking1(a, b, 1), Check(7), Checking1(a, b, 2), PutReady(7),
                          Signalling(a, b, Owning(a, 1, [])), LookUp(7),
                          Signalling(a, b, Owning(a, 1, [{a, b}])), rest, LosslessSteps(1));
  }

  lemma Beginning(a: Node, b: Node, rest: seq<Step>) returns (steps: seq<Step>)
    requires a != b && Run(Pair(a, b), Checking1(a, b, 1), rest, LosslessSteps(1))
    ensures Run(Pair(a, b), Joined(a, b), steps, LosslessSteps(1))
    ensures After(Pair(a, b), Joined(a, b), steps, LosslessSteps(1))
         == After(Pair(a, b), Checking1(a, b, 1), rest, LosslessSteps(1))
  {
    Reloads(a, b);
    Stages(a, b);
    Checks(a, b);
    steps := PrependThree(Pair(a, b), Joined(a, b), Reload(7, a, 0), Gated1(a, b), Stage(7, 1), Checking1(a, b, 0),
                          Check(7), Checking1(a, b, 1),
                          rest, LosslessSteps(1));
  }

  lemma EndRests(a: Node, b: Node)
    requires a != b
    ensures Quiescent(AtEnd(a, b), 1) && AtEnd(a, b).store[Loc(a, 0)].serving == 0
            && AtEnd(a, b).store[Loc(b, 1)].serving == 1
  {
  }

  /** The late join does happen, and the cluster comes to rest with both revisions served: nothing is in
      flight, every shard has run its callback, and `a` will not switch. */
  lemma RestsUnswitched(a: Node, b: Node) returns (steps: seq<Step>)
    requires a != b
    ensures Start(Pair(a, b), Joined(a, b), 0, 1, {Loc(b, 1)}) && Placed(Pair(a, b), Joined(a, b), {a, b})
    ensures Run(Pair(a, b), Joined(a, b), steps, LosslessSteps(1))
    ensures var t := After(Pair(a, b), Joined(a, b), steps, LosslessSteps(1));
      && Quiescent(t, 1) && Loc(a, 0) in t.store && t.store[Loc(a, 0)].serving == 0 && Loc(b, 1) in t.store
      && t.store[Loc(b, 1)].serving == 1
  {
    JoinedIsStart(a, b);
    EndRests(a, b);
    steps := Ending(a, b);
    steps := Asking(a, b, steps);
    steps := Checked(a, b, steps);
    steps := Beginning(a, b, steps);
  }
}
