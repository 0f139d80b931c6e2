/**
 The two ends of a reload, without interruption, as runs of the step relation of RevisionProtocol:
 StageReload of a shard, and commitIndex of a node.
 */
module ReloadRefinement {
  import opened Options
  import opened ShardKeys
  import opened RevisionPaths
  import opened EtcdKeys
  import opened Coordination
  import opened RevisionProtocol
  import opened ProtocolRefinement
  import opened Traces
  import Downloads
  import F = FaissIndexes
  import Placement

  // ---------- commitIndex

  function CommittedStore(store: map<Loc, Slot>, node: Node, rev: int, from: nat, upto: nat): map<Loc, Slot> {
    map loc | loc in store :: if loc.node == node && from <= loc.shard < upto then CommitStaged(store[loc], rev)
      else store[loc]
  }

  lemma {:induction false} CommitLoop(c: Cluster, s: State, pid: nat, node: Node, rev: int, next: nat)
    returns (steps: seq<Step>)
    requires pid in s.procs && s.procs[pid] == Committing(node, rev, next) && next <= c.shards
             && AllUnlocked(c, s, node)
    ensures Run(c, s, steps, Anything())
    ensures After(c, s, steps, Anything()) ==
            Advance(s.(store := CommittedStore(s.store, node, rev, next, c.shards)), pid,
                    Committing(node, rev, c.shards))
    decreases c.shards - next
  {
    if next == c.shards {
      steps := [];
      assert s.procs[pid := s.procs[pid]] == s.procs;
      assert CommittedStore(s.store, node, rev, next, c.shards) == s.store;
    } else {
      var t := DoCommitShard(s, pid);
      CommitShardLeads(c, s, pid, node, rev, next);
      StillUnlocked(c, s, pid, node);
      var rest := CommitLoop(c, t, pid, node, rev, next + 1);
      RunCons(c, s, CommitShard(pid), t, rest, Anything());
      steps := [CommitShard(pid)] + rest;
      CommittedNext(s.store, node, rev, next, c.shards, t.store);
    }
  }

  lemma CommitShardLeads(c: Cluster, s: State, pid: nat, node: Node, rev: int, next: nat)
    requires pid in s.procs && s.procs[pid] == Committing(node, rev, next) && next < c.shards && AllUnlocked(c, s, node)
    ensures Leads(c, s, CommitShard(pid), DoCommitShard(s, pid))
  {
    assert Unlocked(s, Loc(node, next));
  }

  lemma StillUnlocked(c: Cluster, s: State, pid: nat, node: Node)
    requires pid in s.procs && s.procs[pid].Committing? && AllUnlocked(c, s, node)
    ensures AllUnlocked(c, DoCommitShard(s, pid), node)
  {
    forall i: nat | i < c.shards ensures Unlocked(DoCommitShard(s, pid), Loc(node, i)) {
      assert Unlocked(s, Loc(node, i));
    }
  }

  lemma CommittedNext(store: map<Loc, Slot>, node: Node, rev: int, next: nat, upto: nat, after: map<Loc, Slot>)
    requires next < upto
    requires after == if Loc(node, next) in store
             then store[Loc(node, next) := CommitStaged(store[Loc(node, next)], rev)] else store
    ensures CommittedStore(after, node, rev, next + 1, upto) == CommittedStore(store, node, rev, next, upto)
  {
    var a, b := CommittedStore(after, node, rev, next + 1, upto), CommittedStore(store, node, rev, next, upto);
    assert a.Keys == b.Keys;
    forall loc | loc in a ensures a[loc] == b[loc] {
      assert loc == Loc(loc.node, loc.shard);
    }
  }

  lemma CommitSeen(store: map<Loc, Slot>, node: Node, m: Manifest, states: States, rev: int)
    requires SeesStore(store, node, m, states) && 0 <= m.shards
    ensures SeesStore(CommittedStore(store, node, rev, 0, m.shards), node, m, CommitAll(states, m, rev))
  {
    var after := CommittedStore(store, node, rev, 0, m.shards);
    forall i: nat | i < m.shards ensures SeesShard(after, node, m, i, CommitAll(states, m, rev)) {
      var k := Placement.Key(m.name, i);
      assert SeesShard(store, node, m, i, states) && InIndex(m, k);
      if k in states {
        F.ActsAsSlot(states[k], store[Loc(node, i)].obj, store[Loc(node, i)].loadedAt, rev, NO_ATTEMPT);
        F.ApplyOrdered(states[k], F.CommitStaged(rev));
      }
    }
  }

  const NO_ATTEMPT := F.Attempt(false, Downloads.Files(None, None, (rev: int) => false), false)

  /** commitIndex without interruption is a run of protocol steps of its watch: each shard of the
      node is committed if it has the revision staged, and the ready key goes if etcd lets it. */
  lemma CommitIndexRefines(root: string, c: Cluster, m: Manifest, s: State, pid: nat, node: Node, rev: int,
                           states: States, values: Values, deleteFails: bool) returns (steps: seq<Step>)
    requires ValidManifest(m) && SlashFree(m.name) && c.shards == m.shards
    requires pid in s.procs && s.procs[pid] == Committing(node, rev, 0)
    requires SeesStore(s.store, node, m, states) && SeesReady(root, s.ready, m, values)
    ensures Run(c, s, steps, Anything())
    ensures var t := After(c, s, steps, Anything());
      && t == Finish(s.(store := t.store, ready := t.ready), pid)
      && t.store == CommittedStore(s.store, node, rev, 0, c.shards)
      && SeesStore(t.store, node, m, CommitAll(states, m, rev))
      && SeesReady(root, t.ready, m, if deleteFails then values else values - {ReadyPath(root, m.name, node)})
  {
    NodeUnlocked(c, s, node, m, states);
    steps := CommitLoop(c, s, pid, node, rev, 0);
    var s1 := After(c, s, steps, Anything());
    var last := if deleteFails then ClearReadyFail(pid) else ClearReady(pid);
    RunOne(c, s1, last, Anything());
    RunAppend(c, s, steps, [last], Anything());
    steps := steps + [last];
    CommitSeen(s.store, node, m, states, rev);
    PutSeen(root, s.ready, m, values, node, rev);
    assert s1.procs - {pid} == s.procs - {pid};
  }

  // ---------- StageReload

  /** Whenever the revision file can be read it shows what the protocol has published: `published` at
      the first read, and at the second the same or, if `later` was published in between, that. */
  ghost predicate Shows(published: int, later: int, a: F.Attempt) {
    var first, second := Downloads.ReadRevision(a.files.first), Downloads.ReadRevision(a.files.second);
    && (first.Ok? ==> first.value == published)
    && (second.Ok? ==> second.value == later)
    && published <= later
  }

  lemma RunThree(c: Cluster, s: State, x: Step, y: Step, z: Step)
    requires Enabled(c, s, x) && Enabled(c, Apply(c, s, x), y) && Enabled(c, Apply(c, Apply(c, s, x), y), z)
    ensures Run(c, s, [x, y, z], Anything())
            && After(c, s, [x, y, z], Anything()) == Apply(c, Apply(c, Apply(c, s, x), y), z)
  {
    var s1 := Apply(c, s, x);
    RunOne(c, s, x, Anything());
    RunOne(c, s1, y, Anything());
    RunAppend(c, s, [x], [y], Anything());
    RunOne(c, Apply(c, s1, y), z, Anything());
    RunAppend(c, s, [x] + [y], [z], Anything());
    assert [x] + [y] + [z] == [x, y, z];
  }

  /** Past the gate: the shard is locked, `later` is published, and the staging succeeds or fails. */
  lemma StageRun(c: Cluster, s: State, pid: nat, node: Node, i: nat, later: int, ok: bool) returns (t: State)
    requires Loc(node, i) in s.store && s.store[Loc(node, i)].lockedBy.None?
             && s.store[Loc(node, i)].serving < s.published <= later
    requires pid !in s.procs && s.published in s.history
    ensures var steps :=
            [RevisionProtocol.Reload(pid, node, i), Publish(later), if ok then Stage(pid, later) else StageFail(pid)];
      Run(c, s, steps, Anything()) && After(c, s, steps, Anything()) == t
    ensures var slot := s.store[Loc(node, i)];
      && t.store == s.store[Loc(node, i) := if ok then slot.(staged := Some(later)) else slot]
      && t.ready == s.ready && t.commits == s.commits && t.pending == s.pending
      && t.procs == if ok then s.procs[pid := Checking(node, later, 0)] else s.procs
  {
    var x, y := RevisionProtocol.Reload(pid, node, i), Publish(later);
    var z := if ok then Stage(pid, later) else StageFail(pid);
    var s2 := Apply(c, Apply(c, s, x), y);
    RunThree(c, s, x, y, z);
    t := Apply(c, s2, z);
    assert t.procs == if ok then s.procs[pid := Checking(node, later, 0)] else s.procs;
  }

  /** Every StageReload is a run of protocol steps: none if it fails before it has read a revision,
      none past the gate if the shard is up to date, a failed staging if the download or the read
      fails, and otherwise a staging of what the second read found, going on to signalReady. */
  lemma StageReloadRefines(c: Cluster, s: State, pid: nat, node: Node, m: Manifest, i: nat, states: States, later: int,
                           a: F.Attempt)
    returns (steps: seq<Step>)
    requires 0 <= m.shards == c.shards && i < m.shards && SeesStore(s.store, node, m, states)
             && Placement.Key(m.name, i) in states
    requires pid !in s.procs && Shows(s.published, later, a) && s.published in s.history
    ensures var k := Placement.Key(m.name, i);
      steps == if !a.downloader || Downloads.Unreadable(a.files.first) then []
               else if s.published <= states[k].revision then [RevisionProtocol.Reload(pid, node, i)]
               else [RevisionProtocol.Reload(pid, node, i), Publish(later),
                     if a.opens && Downloads.Reads(a.files.second, later) && a.files.present(later)
                     then Stage(pid, later) else StageFail(pid)]
    ensures var k := Placement.Key(m.name, i);
      var r := F.Staging(states[k].revision, a);
      && Run(c, s, steps, Anything())
      && var t := After(c, s, steps, Anything());
         && SeesStore(t.store, node, m, states[k := F.Staged(states[k], a)])
         && t.ready == s.ready && t.commits == s.commits && t.pending == s.pending
         && t.procs == (if r.Ok? then s.procs[pid := Checking(node, r.value, 0)] else s.procs)
  {
    var k, loc := Placement.Key(m.name, i), Loc(node, i);
    assert SeesShard(s.store, node, m, i, states);
    var r := F.Staging(states[k].revision, a);
    if !a.downloader || Downloads.ReadRevision(a.files.first).Err? {
      assert states[k := states[k]] == states;
      return [];
    }
    RunOne(c, s, RevisionProtocol.Reload(pid, node, i), Anything());
    if s.published <= states[k].revision {
      steps := [RevisionProtocol.Reload(pid, node, i)];
      assert states[k := states[k]] == states;
    } else {
      var last := if r.Ok? then Stage(pid, later) else StageFail(pid);
      steps := [RevisionProtocol.Reload(pid, node, i), Publish(later), last];
      var t := StageRun(c, s, pid, node, i, later, r.Ok?);
      StageSeen(s.store, t.store, node, m, states, i, a);
    }
  }

  lemma StageSeen(store: map<Loc, Slot>, after: map<Loc, Slot>, node: Node, m: Manifest, states: States, i: nat,
                  a: F.Attempt)
    requires i < m.shards && SeesStore(store, node, m, states) && Placement.Key(m.name, i) in states
             && Downloads.Steady(a.files)
    requires Loc(node, i) in store
    requires var r := F.Staging(states[Placement.Key(m.name, i)].revision, a);
      after == store[Loc(node, i) := if r.Ok? then store[Loc(node, i)].(staged := Some(r.value))
                     else store[Loc(node, i)]]
    ensures var k := Placement.Key(m.name, i);
      SeesStore(after, node, m, states[k := F.Staged(states[k], a)])
  {
    var k := Placement.Key(m.name, i);
    var now := states[k := F.Staged(states[k], a)];
    assert SeesShard(store, node, m, i, states);
    F.ActsAsSlot(states[k], store[Loc(node, i)].obj, store[Loc(node, i)].loadedAt, 0, a);
    F.ApplyOrdered(states[k], F.StageReload(a));
    forall j: nat | j < m.shards ensures SeesShard(after, node, m, j, now) {
      assert SeesShard(store, node, m, j, states);
      if j != i { Placement.KeyDiffers(m.name, j, m.name, i); }
    }
  }
}
