/**
 Ring changes in the middle of nodesOwningIndex.  `d` leaves and `b` joins between the lookups of
 shard 0 and shard 1, and each time the answer is `a`.  So `a` commits without `d`, which owns a shard
 by the ring before, and without `b`, which owns one by the ring after.
 */
module MixedRingExample {
  import opened Options
  import opened RevisionProtocol
  import opened ProtocolInvariant
  import opened Provenance
  import opened Traces

  /** Shard 0 belongs to `b` and shard 1 to `d` as long as they are on the ring, and else to `a`. */
  function Standby(a: Node, b: Node, d: Node): Cluster {
    Cluster({a, b, d}, 2, 1, (ring, shard, replica) => if shard == 0 && b in ring then b
            else if shard != 0 && d in ring then d else a)
  }

  lemma StandbyOwners(a: Node, b: Node, d: Node)
    requires a != b && d != a && d != b
    ensures ReplicaKeys(Standby(a, b, d)) == [(0, 0), (1, 0)]
    ensures Owners(Standby(a, b, d), {a, d}) == {a, d} && Owners(Standby(a, b, d), {a, b}) == {a, b}
    ensures Found(Standby(a, b, d), [{a, d}, {a, b}]) == {a}
  {
    var c := Standby(a, b, d);
    assert KeysUpto(c, 0) == [] && RowKeys(0, 0) == [] && RowKeys(1, 0) == [];
    assert RowKeys(0, 1) == [(0, 0)] && RowKeys(1, 1) == [(1, 0)];
    assert KeysUpto(c, 1) == [(0, 0)] && KeysUpto(c, 2) == [(0, 0)] + [(1, 0)];
    assert c.owner({a, d}, 0, 0) == a && c.owner({a, d}, 1, 0) == d;
    assert c.owner({a, b}, 0, 0) == b && c.owner({a, b}, 1, 0) == a;
    assert forall n :: n in {a, d} ==> n in Owners(c, {a, d});
    assert forall n :: n in {a, b} ==> n in Owners(c, {a, b});
    var seen := [{a, d}, {a, b}];
    assert seen[0] != {} && c.owner(seen[0], ReplicaKeys(c)[0].0, ReplicaKeys(c)[0].1) == a;
    assert a in Found(c, seen);
  }

  /** Shard 0 is on `a`, and `d` serves shard 1 at 0. */
  function Holding(a: Node, d: Node, first: Slot): map<Loc, Slot> {
    map[Loc(a, 0) := first, Loc(d, 1) := Slot(1, 0, 0, None, None)]
  }

  lemma HoldingChanges(a: Node, d: Node, first: Slot, x: Slot)
    requires a != d
    ensures Holding(a, d, first)[Loc(a, 0) := x] == Holding(a, d, x)
    ensures Loc(a, 0) in Holding(a, d, first) && Holding(a, d, first)[Loc(a, 0)] == first
  {
  }

  /** Node `a` has staged 1 and put its ready key; `d` serves 0 and has staged nothing. */
  function Owning1(a: Node, d: Node, ring: set<Node>, pc: Pc): State {
    State(1, {0, 1}, map[a := ring, d := {a, d}],
          Holding(a, d, Slot(0, 0, 0, Some(1), None)),
          map[a := 1], {Put(a, 1)}, {}, multiset{}, map[7 := pc], map[Loc(a, 0) := 1], 2)
  }

  function TheCommit(a: Node, b: Node, d: Node): Commit {
    Commit(1, a, [{a, d}, {a, b}], map[a := 1])
  }

  /** The cluster at rest: 1 is published, both nodes serve 0. */
  function AtZero(a: Node, d: Node): State {
    State(1, {0, 1}, map[a := {a, d}, d := {a, d}],
          Holding(a, d, Slot(0, 0, 0, None, None)), map[], {}, {}, multiset{}, map[], map[], 2)
  }

  function Gated1(a: Node, d: Node): State {
    AtZero(a, d).(
      store := Holding(a, d, Slot(0, 0, 0, None, Some(7))),
      procs := map[7 := Gated(a, 0, 0, 1)])
  }

  function Checking1(a: Node, d: Node, next: nat): State {
    Owning1(a, d, {a, d}, Checking(a, 1, next)).(ready := map[], puts := {})
  }

  lemma RestsAtZero(a: Node, b: Node, d: Node)
    requires a != b && d != a && d != b
    ensures AtRest(Standby(a, b, d), AtZero(a, d)) && Origins(Standby(a, b, d), AtZero(a, d))
  {
    StandbyOwners(a, b, d);
  }

  lemma Reloads(a: Node, b: Node, d: Node)
    requires d != a
    ensures Leads(Standby(a, b, d), AtZero(a, d), Reload(7, a, 0), Gated1(a, d))
  {
    HoldingChanges(a, d, Slot(0, 0, 0, None, None), Slot(0, 0, 0, None, Some(7)));
    assert DoReload(AtZero(a, d), 7, a, 0) == Gated1(a, d);
  }

  lemma Stages(a: Node, b: Node, d: Node)
    requires d != a
    ensures Leads(Standby(a, b, d), Gated1(a, d), Stage(7, 1), Checking1(a, d, 0))
  {
    HoldingChanges(a, d, Slot(0, 0, 0, None, Some(7)), Slot(0, 0, 0, Some(1), None));
    assert HoldsSlot(Gated1(a, d), Gated(a, 0, 0, 1));
    assert DoStage(Gated1(a, d), 7, 1) == Checking1(a, d, 0);
  }

  lemma Checks(a: Node, b: Node, d: Node)
    requires d != a
    ensures Leads(Standby(a, b, d), Checking1(a, d, 0), Check(7), Checking1(a, d, 1))
    ensures Leads(Standby(a, b, d), Checking1(a, d, 1), Check(7), Checking1(a, d, 2))
  {
    assert DoCheck(Checking1(a, d, 0), 7) == Checking1(a, d, 1);
    assert DoCheck(Checking1(a, d, 1), 7) == Checking1(a, d, 2);
  }

  lemma PutsReady(a: Node, b: Node, d: Node)
    ensures Leads(Standby(a, b, d), Checking1(a, d, 2), PutReady(7), Owning1(a, d, {a, d}, Owning(a, 1, [])))
  {
    assert DoPutReady(Checking1(a, d, 2), 7) == Owning1(a, d, {a, d}, Owning(a, 1, []));
  }

  lemma LooksUpBefore(a: Node, b: Node, d: Node)
    requires a != b && d != a && d != b
    ensures Leads(Standby(a, b, d), Owning1(a, d, {a, d}, Owning(a, 1, [])), LookUp(7),
                  Owning1(a, d, {a, d}, Owning(a, 1, [{a, d}])))
  {
    StandbyOwners(a, b, d);
    assert [] + [{a, d}] == [{a, d}];
    assert DoLookUp(Owning1(a, d, {a, d}, Owning(a, 1, [])), 7) == Owning1(a, d, {a, d}, Owning(a, 1, [{a, d}]));
  }

  lemma LooksUpAfter(a: Node, b: Node, d: Node)
    requires a != b && d != a && d != b
    ensures Leads(Standby(a, b, d), Owning1(a, d, {a, b}, Owning(a, 1, [{a, d}])), LookUp(7),
                  Owning1(a, d, {a, b}, Owning(a, 1, [{a, d}, {a, b}])))
  {
    StandbyOwners(a, b, d);
    assert [{a, d}] + [{a, b}] == [{a, d}, {a, b}];
    assert DoLookUp(Owning1(a, d, {a, b}, Owning(a, 1, [{a, d}])), 7)
        == Owning1(a, d, {a, b}, Owning(a, 1, [{a, d}, {a, b}]));
  }

  lemma RingChanges(a: Node, b: Node, d: Node, before: set<Node>, after: set<Node>, pc: Pc)
    requires a != d
    ensures Leads(Standby(a, b, d), Owning1(a, d, before, pc), RingChange(a, after), Owning1(a, d, after, pc))
  {
    assert map[a := before, d := {a, d}][a := after] == map[a := after, d := {a, d}];
  }

  lemma FindsOnlyItself(a: Node, b: Node, d: Node)
    requires a != b && d != a && d != b
    ensures var seen := [{a, d}, {a, b}];
      && Leads(Standby(a, b, d), Owning1(a, d, {a, b}, Owning(a, 1, seen)), HaveOwners(7),
               Owning1(a, d, {a, b}, Collecting(a, 1, seen)))
      && Leads(Standby(a, b, d), Owning1(a, d, {a, b}, Collecting(a, 1, seen)), ReadReady(7),
               Owning1(a, d, {a, b}, Deciding(a, 1, seen, map[a := 1])))
  {
    StandbyOwners(a, b, d);
    var seen := [{a, d}, {a, b}];
    assert DoHaveOwners(Standby(a, b, d), Owning1(a, d, {a, b}, Owning(a, 1, seen)), 7)
        == Owning1(a, d, {a, b}, Collecting(a, 1, seen));
    assert DoReadReady(Owning1(a, d, {a, b}, Collecting(a, 1, seen)), 7)
        == Owning1(a, d, {a, b}, Deciding(a, 1, seen, map[a := 1]));
  }

  lemma CommitsAlone(a: Node, b: Node, d: Node) returns (t: State)
    requires a != b && d != a && d != b
    ensures Leads(Standby(a, b, d), Owning1(a, d, {a, b}, Deciding(a, 1, [{a, d}, {a, b}], map[a := 1])), Decide(7), t)
    ensures t.commits == {TheCommit(a, b, d)} && t.store == Owning1(a, d, {a, d}, Owning(a, 1, [])).store
  {
    StandbyOwners(a, b, d);
    t := DoDecide(Standby(a, b, d), Owning1(a, d, {a, b}, Deciding(a, 1, [{a, d}, {a, b}], map[a := 1])), 7);
  }

  lemma Deciding1(a: Node, b: Node, d: Node, t: State) returns (steps: seq<Step>)
    requires a != b && d != a && d != b
    requires Leads(Standby(a, b, d), Owning1(a, d, {a, b}, Deciding(a, 1, [{a, d}, {a, b}], map[a := 1])), Decide(7), t)
    ensures Run(Standby(a, b, d), Owning1(a, d, {a, b}, Owning(a, 1, [{a, d}, {a, b}])), steps, AnyStep)
    ensures After(Standby(a, b, d), Owning1(a, d, {a, b}, Owning(a, 1, [{a, d}, {a, b}])), steps, AnyStep) == t
  {
    var c, seen := Standby(a, b, d), [{a, d}, {a, b}];
    FindsOnlyItself(a, b, d);
    steps := PrependThree(c, Owning1(a, d, {a, b}, Owning(a, 1, seen)), HaveOwners(7),
                          Owning1(a, d, {a, b}, Collecting(a, 1, seen)), ReadReady(7),
                          Owning1(a, d, {a, b}, Deciding(a, 1, seen, map[a := 1])), Decide(7), t, [], AnyStep);
  }

  lemma Looking(a: Node, b: Node, d: Node, rest: seq<Step>) returns (steps: seq<Step>)
    requires a != b && d != a && d != b
    requires Run(Standby(a, b, d), Owning1(a, d, {a, b}, Owning(a, 1, [{a, d}, {a, b}])), rest, AnyStep)
    ensures Run(Standby(a, b, d), Owning1(a, d, {a, d}, Owning(a, 1, [])), steps, AnyStep)
    ensures After(Standby(a, b, d), Owning1(a, d, {a, d}, Owning(a, 1, [])), steps, AnyStep)
         == After(Standby(a, b, d), Owning1(a, d, {a, b}, Owning(a, 1, [{a, d}, {a, b}])), rest, AnyStep)
  {
    var c, pc := Standby(a, b, d), Owning(a, 1, [{a, d}]);
    LooksUpBefore(a, b, d);
    LooksUpAfter(a, b, d);
    RingChanges(a, b, d, {a, d}, {a}, pc);
    RingChanges(a, b, d, {a}, {a, b}, pc);
    steps := PrependThree(c, Owning1(a, d, {a, d}, pc), RingChange(a, {a}), Owning1(a, d, {a}, pc),
                          RingChange(a, {a, b}),
                          Owning1(a, d, {a, b}, pc), LookUp(7), Owning1(a, d, {a, b}, Owning(a, 1, [{a, d}, {a, b}])),
                          rest, AnyStep);
    RunCons(c, Owning1(a, d, {a, d}, Owning(a, 1, [])), LookUp(7), Owning1(a, d, {a, d}, pc), steps, AnyStep);
    steps := [LookUp(7)] + steps;
  }

  lemma Signalling(a: Node, b: Node, d: Node, rest: seq<Step>) returns (steps: seq<Step>)
    requires d != a && Run(Standby(a, b, d), Owning1(a, d, {a, d}, Owning(a, 1, [])), rest, AnyStep)
    ensures Run(Standby(a, b, d), Checking1(a, d, 1), steps, AnyStep)
    ensures After(Standby(a, b, d), Checking1(a, d, 1), steps, AnyStep)
         == After(Standby(a, b, d), Owning1(a, d, {a, d}, Owning(a, 1, [])), rest, AnyStep)
  {
    Checks(a, b, d);
    PutsReady(a, b, d);
    RunCons(Standby(a, b, d), Checking1(a, d, 2), PutReady(7), Owning1(a, d, {a, d}, Owning(a, 1, [])), rest, AnyStep);
    RunCons(Standby(a, b, d), Checking1(a, d, 1), Check(7), Checking1(a, d, 2), [PutReady(7)] + rest, AnyStep);
    steps := [Check(7)] + ([PutReady(7)] + rest);
  }

  lemma Beginning(a: Node, b: Node, d: Node, rest: seq<Step>) returns (steps: seq<Step>)
    requires d != a && Run(Standby(a, b, d), Checking1(a, d, 1), rest, AnyStep)
    ensures Run(Standby(a, b, d), AtZero(a, d), steps, AnyStep)
    ensures After(Standby(a, b, d), AtZero(a, d), steps, AnyStep)
         == After(Standby(a, b, d), Checking1(a, d, 1), rest, AnyStep)
  {
    Reloads(a, b, d);
    Stages(a, b, d);
    Checks(a, b, d);
    steps := PrependThree(Standby(a, b, d), AtZero(a, d), Reload(7, a, 0), Gated1(a, d), Stage(7, 1),
                          Checking1(a, d, 0), Check(7), Checking1(a, d, 1), rest, AnyStep);
  }

  /** From rest: the commit is backed by what was looked up, as Provenance says, but not by the owners of
      either ring: `d` holds a shard without the committed revision, and neither it nor `b` was ready. */
  lemma OwnersAreMissed(a: Node, b: Node, d: Node) returns (steps: seq<Step>)
    requires a != b && d != a && d != b
    ensures var c, s := Standby(a, b, d), AtZero(a, d);
      && AtRest(c, s) && Origins(c, s) && Run(c, s, steps, AnyStep)
      && var t := After(c, s, steps, AnyStep);
         && TheCommit(a, b, d) in t.commits && b !in TheCommit(a, b, d).snapshot && d !in TheCommit(a, b, d).snapshot
         && d in Owners(c, {a, d}) && b in Owners(c, {a, b})
         && Loc(d, 1) in t.store && Level(t.store[Loc(d, 1)]) < TheCommit(a, b, d).rev
  {
    RestsAtZero(a, b, d);
    StandbyOwners(a, b, d);
    var t := CommitsAlone(a, b, d);
    steps := Deciding1(a, b, d, t);
    steps := Looking(a, b, d, steps);
    steps := Signalling(a, b, d, steps);
    steps := Beginning(a, b, d, steps);
  }
}
