/**
 Revisions of one FaissIndex over every schedule without Reload: what is served never falls, and what
 is staged is newer than what is served, also while other threads stage, commit, discard and delete.
 */
module FaissThreadsRevisions {
  import opened Options
  import opened FaissThreads
  import opened FaissThreadsSafety

  predicate Reloads(pc: Pc) {
    InReload(pc) || InOverwrite(pc)
  }

  ghost predicate NoReload(s: State) {
    forall t :: 0 <= t < |s.threads| ==> !Reloads(s.threads[t])
  }

  /** A StageReload under way compares with the revision that is still served. */
  ghost predicate PcNewer(pc: Pc, revision: int) {
    && (pc.StageDownloading? ==> pc.current == revision)
    && (pc.StageLoaded? ==> pc.rev > revision)
  }

  ghost predicate Newer(s: State) {
    && (s.staged.Some? ==> s.stagedRevision > s.revision)
    && forall t :: 0 <= t < |s.threads| ==> PcNewer(s.threads[t], s.revision)
  }

  ghost predicate Revs(s: State) {
    NoReload(s) && Newer(s)
  }

  /** The served revision stays with its handle, or it rises; handles keep the revision they were loaded for. */
  ghost predicate Rises(s: State, u: State) {
    && s.revision <= u.revision && (s.revision == u.revision ==> s.index == u.index)
    && forall h :: h in s.loadRev ==> h in u.loadRev && u.loadRev[h] == s.loadRev[h]
  }

  /** Thread `t` goes to `pc`, and what is served stays. */
  lemma QuietRevs(s: State, u: State, t: nat, pc: Pc)
    requires Revs(s) && t < |s.threads| && u.threads == s.threads[t := pc] && !Reloads(pc) && PcNewer(pc, s.revision)
    requires u.index == s.index && u.revision == s.revision
    requires forall h :: h in s.loadRev ==> h in u.loadRev && u.loadRev[h] == s.loadRev[h]
    requires u.staged.Some? ==> u.stagedRevision > u.revision
    ensures Revs(u) && Rises(s, u)
  {
  }

  lemma SearchRevs(s: State, t: nat)
    requires Revs(s) && t < |s.threads| && InSearch(s.threads[t])
    ensures Revs(SearchStep(s, t)) && Rises(s, SearchStep(s, t))
  {
    var u := SearchStep(s, t);
    QuietRevs(s, u, t, u.threads[t]);
  }

  lemma StageRevs(s: State, t: nat, choice: Choice)
    requires Revs(s) && Enabled(s, t, choice) && InStage(s.threads[t])
    ensures Revs(StageStep(s, t, choice)) && Rises(s, StageStep(s, t, choice))
  {
    var u := StageStep(s, t, choice);
    assert PcNewer(s.threads[t], s.revision);
    QuietRevs(s, u, t, u.threads[t]);
  }

  lemma CommitRevs(s: State, t: nat)
    requires Revs(s) && t < |s.threads| && InCommit(s.threads[t])
    ensures Revs(CommitStep(s, t)) && Rises(s, CommitStep(s, t))
  {
    var u := CommitStep(s, t);
    QuietRevs(s, u, t, u.threads[t]);
  }

  /** The swap raises the revision.  It holds `stagedMu`, so no StageReload is comparing with the old one. */
  lemma WritingRevs(s: State, t: nat)
    requires Locks(s) && SlotsOk(s) && Revs(s) && t < |s.threads| && s.threads[t].CommitWriting?
    ensures Revs(SwapStep(s, t)) && Rises(s, SwapStep(s, t))
  {
    var u := SwapStep(s, t);
    forall i | 0 <= i < |u.threads| ensures PcNewer(u.threads[i], u.revision) && !Reloads(u.threads[i]) {
      if i != t { assert !HoldsMu(s.threads[i]) && !Reloads(s.threads[i]); }
    }
  }

  lemma SwapRevs(s: State, t: nat)
    requires Locks(s) && SlotsOk(s) && Revs(s) && t < |s.threads| && InSwap(s.threads[t])
    ensures Revs(SwapStep(s, t)) && Rises(s, SwapStep(s, t))
  {
    if s.threads[t].CommitWriting? {
      WritingRevs(s, t);
    } else {
      var u := SwapStep(s, t);
      QuietRevs(s, u, t, u.threads[t]);
    }
  }

  lemma DiscardRevs(s: State, t: nat)
    requires Revs(s) && t < |s.threads| && InDiscard(s.threads[t])
    ensures Revs(DiscardStep(s, t)) && Rises(s, DiscardStep(s, t))
  {
    var u := DiscardStep(s, t);
    QuietRevs(s, u, t, u.threads[t]);
  }

  lemma DeleteRevs(s: State, t: nat)
    requires Revs(s) && t < |s.threads| && InDelete(s.threads[t])
    ensures Revs(DeleteStep(s, t)) && Rises(s, DeleteStep(s, t))
  {
    var u := DeleteStep(s, t);
    QuietRevs(s, u, t, u.threads[t]);
  }

  lemma StepRevs(s: State, t: nat, choice: Choice)
    requires Locks(s) && SlotsOk(s) && Revs(s) && Enabled(s, t, choice)
    ensures Revs(Step(s, t, choice)) && Rises(s, Step(s, t, choice))
  {
    var pc := s.threads[t];
    assert !Reloads(pc);
    if InSearch(pc) { SearchRevs(s, t); }
    else if InStage(pc) { StageRevs(s, t, choice); }
    else if InCommit(pc) { CommitRevs(s, t); }
    else if InSwap(pc) { SwapRevs(s, t); }
    else if InDiscard(pc) { DiscardRevs(s, t); }
    else { DeleteRevs(s, t); }
  }

  lemma {:induction false} RunRevs(s: State, run: Schedule)
    requires Inv(s) && Revs(s) && Run(s, run)
    ensures Revs(After(s, run)) && Rises(s, After(s, run))
    decreases |run|
  {
    if run != [] {
      var u := Step(s, run[0].0, run[0].1);
      StepLocks(s, run[0].0, run[0].1);
      StepMemory(s, run[0].0, run[0].1);
      StepAccounted(s, run[0].0, run[0].1);
      StepRevs(s, run[0].0, run[0].1);
      RunRevs(u, run[1..]);
    }
  }

  /** From a fresh index, over every schedule without Reload, and between any two moments of it. */
  lemma ServedNeverFalls(s: State, before: Schedule, after: Schedule)
    requires Initial(s) && NoReload(s) && Run(s, before) && Run(After(s, before), after)
    ensures var t, u := After(s, before), After(After(s, before), after);
      && s.revision <= t.revision <= u.revision && (t.revision == u.revision <==> t.index == u.index)
      && (u.staged.Some? ==> u.stagedRevision > u.revision)
  {
    InitialInv(s);
    assert Revs(s) by {
      forall i | 0 <= i < |s.threads| ensures PcNewer(s.threads[i], s.revision) { assert AtStart(s.threads[i]); }
    }
    InvariantOverRuns(s, before);
    InvariantOverRuns(After(s, before), after);
    RunRevs(s, before);
    RunRevs(After(s, before), after);
    var t, u := After(s, before), After(After(s, before), after);
    assert SlotsOk(t) && SlotsOk(u);
  }
}
