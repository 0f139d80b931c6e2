/**
 Commit events arrive late, twice, or for revisions nobody staged: what a node makes of any
 sequence of them.  Several nodes may put the same commit key, so this is the normal case.
 */
module CommitReplay {
  import opened ShardKeys
  import opened FaissIndexes
  import opened Coordination

  function CommitEvents(states: States, m: Manifest, revs: seq<int>): States
    decreases |revs|
  {
    if revs == [] then states else CommitEvents(CommitAll(states, m, revs[0]), m, revs[1..])
  }

  /** One commit of what is staged, if there is an event for it. */
  function CommitOnce(s: State, revs: seq<int>): State {
    if s.stagedIndex.Some? && s.stagedRevision in revs then Committed(s, s.stagedRevision) else s
  }

  /** However many events there are and in whatever order they come, each shard swaps at most once,
      to the revision it had staged. */
  lemma {:induction false} EventsCommitOnce(states: States, m: Manifest, revs: seq<int>, k: string)
    requires k in states
    ensures k in CommitEvents(states, m, revs)
    ensures CommitEvents(states, m, revs)[k] == if InIndex(m, k) then CommitOnce(states[k], revs) else states[k]
    decreases |revs|
  {
    if revs != [] {
      var next := CommitAll(states, m, revs[0]);
      EventsCommitOnce(next, m, revs[1..], k);
      assert revs == [revs[0]] + revs[1..];
    }
  }

  lemma {:induction false} EventsKeepKeys(states: States, m: Manifest, revs: seq<int>)
    ensures CommitEvents(states, m, revs).Keys == states.Keys
    decreases |revs|
  {
    if revs != [] {
      EventsKeepKeys(CommitAll(states, m, revs[0]), m, revs[1..]);
      assert CommitAll(states, m, revs[0]).Keys == states.Keys;
    }
  }

  /** Only which revisions were committed matters: order and repetitions do not. */
  lemma OrderAndRepeatsDoNotMatter(states: States, m: Manifest, revs: seq<int>, others: seq<int>)
    requires forall r :: r in revs <==> r in others
    ensures CommitEvents(states, m, revs) == CommitEvents(states, m, others)
  {
    EventsKeepKeys(states, m, revs);
    EventsKeepKeys(states, m, others);
    forall k | k in states ensures CommitEvents(states, m, revs)[k] == CommitEvents(states, m, others)[k] {
      EventsCommitOnce(states, m, revs, k);
      EventsCommitOnce(states, m, others, k);
    }
    assert CommitEvents(states, m, revs).Keys == CommitEvents(states, m, others).Keys;
  }

  /** In particular a commit event handled twice is as good as once. */
  lemma TwiceIsOnce(states: States, m: Manifest, rev: int)
    ensures CommitAll(CommitAll(states, m, rev), m, rev) == CommitAll(states, m, rev)
  {
    OrderAndRepeatsDoNotMatter(states, m, [rev, rev], [rev]);
    var once := CommitAll(states, m, rev);
    assert [rev, rev][1..] == [rev] && [rev][1..] == [];
    assert CommitEvents(states, m, [rev]) == CommitEvents(once, m, []) == once;
    assert CommitEvents(states, m, [rev, rev]) == CommitEvents(once, m, [rev]);
    assert CommitEvents(once, m, [rev]) == CommitEvents(CommitAll(once, m, rev), m, []);
  }

  /** Events change what is served or staged on a node if and only if one of them is for a revision
      that some shard of the index has staged. */
  lemma StrayEventsIff(states: States, m: Manifest, revs: seq<int>)
    requires forall k :: k in states ==> Ordered(states[k])
    ensures CommitEvents(states, m, revs) == states <==>
              forall k :: k in states && InIndex(m, k) && states[k].stagedIndex.Some? ==>
                states[k].stagedRevision !in revs
  {
    var after := CommitEvents(states, m, revs);
    EventsKeepKeys(states, m, revs);
    forall k | k in states ensures after[k] == if InIndex(m, k) then CommitOnce(states[k], revs) else states[k] {
      EventsCommitOnce(states, m, revs, k);
    }
    if forall k :: k in states && InIndex(m, k) && states[k].stagedIndex.Some? ==> states[k].stagedRevision !in revs {
      assert after == states;
    }
  }
}
