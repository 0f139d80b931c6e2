/**
 Removing a shard from the store before its Delete does not keep a search off the freed handle that
 has fetched the object already and gets the lock only after the Delete.
 */
module LateSearchExample {
  import opened Options
  import opened FaissThreads

  /** A Delete and a search of the same object, about to begin; handle 0 is served. */
  function Both(rev: int): State {
    State(None, None, {}, false, 0, rev, None, 0, map[0 := rev], multiset{}, {}, {}, [DeleteStart, SearchStart])
  }

  /** The Delete at `pc`, before it has freed the handle. */
  function Deleting(rev: int, mu: Option<nat>, writer: Option<nat>, pc: Pc): State {
    Both(rev).(mu := mu, writer := writer, threads := [pc, SearchStart])
  }

  function Erased(rev: int, writer: Option<nat>, pc: Pc): State {
    Deleting(rev, None, writer, pc).(freed := multiset{0}, deleted := {0})
  }

  ghost predicate Goes(s: State, t: nat, u: State) {
    Enabled(s, t, Fail) && Step(s, t, Fail) == u
  }

  lemma RunCons(s: State, t: nat, u: State, rest: Schedule)
    requires Goes(s, t, u) && Run(u, rest)
    ensures Run(s, [(t, Fail)] + rest) && After(s, [(t, Fail)] + rest) == After(u, rest)
  {
    assert ([(t, Fail)] + rest)[1..] == rest;
  }

  lemma Locks(rev: int)
    ensures Goes(Deleting(rev, None, None, DeleteStart), 0, Deleting(rev, Some(0), None, DeleteLocked))
  {
    assert DeleteStep(Deleting(rev, None, None, DeleteStart), 0) == Deleting(rev, Some(0), None, DeleteLocked);
  }

  lemma Discards(rev: int)
    ensures Goes(Deleting(rev, Some(0), None, DeleteLocked), 0, Deleting(rev, Some(0), None, DeleteReleasing))
  {
    assert DeleteStep(Deleting(rev, Some(0), None, DeleteLocked), 0) == Deleting(rev, Some(0), None, DeleteReleasing);
  }

  lemma Unlocks(rev: int)
    ensures Goes(Deleting(rev, Some(0), None, DeleteReleasing), 0, Deleting(rev, None, None, DeleteWantWrite))
  {
    assert DeleteStep(Deleting(rev, Some(0), None, DeleteReleasing), 0) == Deleting(rev, None, None, DeleteWantWrite);
  }

  lemma Announces(rev: int)
    ensures Goes(Deleting(rev, None, None, DeleteWantWrite), 0, Deleting(rev, None, Some(0), DeleteWaiting))
  {
    assert DeleteStep(Deleting(rev, None, None, DeleteWantWrite), 0) == Deleting(rev, None, Some(0), DeleteWaiting);
  }

  lemma Enters(rev: int)
    ensures Goes(Deleting(rev, None, Some(0), DeleteWaiting), 0, Deleting(rev, None, Some(0), DeleteWriting))
  {
    assert DeleteStep(Deleting(rev, None, Some(0), DeleteWaiting), 0) == Deleting(rev, None, Some(0), DeleteWriting);
  }

  lemma Frees(rev: int)
    ensures Goes(Deleting(rev, None, Some(0), DeleteWriting), 0, Erased(rev, Some(0), DeleteWritten))
  {
    assert multiset{} + multiset{0} == multiset{0};
    assert DeleteStep(Deleting(rev, None, Some(0), DeleteWriting), 0) == Erased(rev, Some(0), DeleteWritten);
  }

  lemma Leaves(rev: int)
    ensures Goes(Erased(rev, Some(0), DeleteWritten), 0, Erased(rev, None, Done))
  {
    assert DeleteStep(Erased(rev, Some(0), DeleteWritten), 0) == Erased(rev, None, Done);
  }

  lemma Drops(rev: int, rest: Schedule) returns (run: Schedule)
    requires Run(Deleting(rev, None, None, DeleteWantWrite), rest)
    ensures Run(Deleting(rev, None, None, DeleteStart), run)
    ensures After(Deleting(rev, None, None, DeleteStart), run)
         == After(Deleting(rev, None, None, DeleteWantWrite), rest)
  {
    Unlocks(rev);
    RunCons(Deleting(rev, Some(0), None, DeleteReleasing), 0, Deleting(rev, None, None, DeleteWantWrite), rest);
    run := [(0, Fail)] + rest;
    Discards(rev);
    RunCons(Deleting(rev, Some(0), None, DeleteLocked), 0, Deleting(rev, Some(0), None, DeleteReleasing), run);
    run := [(0, Fail)] + run;
    Locks(rev);
    RunCons(Deleting(rev, None, None, DeleteStart), 0, Deleting(rev, Some(0), None, DeleteLocked), run);
    run := [(0, Fail)] + run;
  }

  lemma Erases(rev: int, rest: Schedule) returns (run: Schedule)
    requires Run(Erased(rev, None, Done), rest)
    ensures Run(Deleting(rev, None, Some(0), DeleteWaiting), run)
    ensures After(Deleting(rev, None, Some(0), DeleteWaiting), run) == After(Erased(rev, None, Done), rest)
  {
    Leaves(rev);
    RunCons(Erased(rev, Some(0), DeleteWritten), 0, Erased(rev, None, Done), rest);
    run := [(0, Fail)] + rest;
    Frees(rev);
    RunCons(Deleting(rev, None, Some(0), DeleteWriting), 0, Erased(rev, Some(0), DeleteWritten), run);
    run := [(0, Fail)] + run;
    Enters(rev);
    RunCons(Deleting(rev, None, Some(0), DeleteWaiting), 0, Deleting(rev, None, Some(0), DeleteWriting), run);
    run := [(0, Fail)] + run;
  }

  /** The search gets its lock after everything. */
  function Searched(rev: int): State {
    Erased(rev, None, Done).(readers := {1}, threads := [Done, Searching(0)])
  }

  lemma SearchesLate(rev: int) returns (run: Schedule)
    ensures Run(Erased(rev, None, Done), run) && After(Erased(rev, None, Done), run) == Searched(rev)
  {
    assert SearchStep(Erased(rev, None, Done), 1) == Searched(rev);
    RunCons(Erased(rev, None, Done), 1, Searched(rev), []);
    run := [(1, Fail)] + [];
  }

  lemma DeletesFirst(rev: int) returns (run: Schedule)
    ensures Run(Deleting(rev, None, None, DeleteStart), run)
    ensures After(Deleting(rev, None, None, DeleteStart), run) == Searched(rev)
  {
    run := SearchesLate(rev);
    run := Erases(rev, run);
    Announces(rev);
    RunCons(Deleting(rev, None, None, DeleteWantWrite), 0, Deleting(rev, None, Some(0), DeleteWaiting), run);
    run := Drops(rev, [(0, Fail)] + run);
  }

  /** A search that has fetched the object before the deletion began, and gets the lock after it. */
  lemma LateSearchReachesFreed(rev: int) returns (run: Schedule)
    ensures Initial(Both(rev)) && Run(Both(rev), run)
    ensures var t := After(Both(rev), run);
      |t.threads| == 2 && t.threads[1].Searching? && t.threads[1].seen in t.freed
  {
    run := DeletesFirst(rev);
    assert Both(rev) == Deleting(rev, None, None, DeleteStart);
  }
}
