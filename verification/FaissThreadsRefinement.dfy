/**
 What the operations of FaissThreads do to the object, however they interleave: every schedule is a
 sequence of calls of the object of FaissIndexes, each made in one step, and each operation makes the
 calls that its arguments and what it found under its locks ask for.
 */
module FaissThreadsRefinement {
  import opened Options
  import opened FaissThreads
  import opened FaissThreadsSafety
  import F = FaissIndexes

  // ---------- the object behind the locks

  /** The handle that a commit has replaced and is about to free. */
  function Doomed(pc: Pc): multiset<Handle> {
    match pc
    case CommitSwapped(prev) => multiset{prev}
    case CommitFreeing(prev) => multiset{prev}
    case _ => multiset{}
  }

  function DoomedBy(s: State): multiset<Handle> {
    if s.mu.Some? && s.mu.value < |s.threads| then Doomed(s.threads[s.mu.value]) else multiset{}
  }

  /** The object, for which a replaced handle counts as freed at once.  Handles are not numbered here. */
  function Object(s: State): F.State {
    F.State(s.index, s.revision, s.staged, s.stagedRevision, 0, s.freed + DoomedBy(s))
  }

  datatype Call =
    | Stages(h: Handle, rev: int)
    | Commits(expected: int)
    | Discards
    | FreesIndex
    | Overwrites(h: Handle, rev: int)

  function Effect(x: F.State, call: Call): F.State {
    match call
    case Stages(h, rev) => F.FreeStaged(x).(stagedIndex := Some(h), stagedRevision := rev)
    case Commits(expected) => F.Committed(x, expected)
    case Discards => F.FreeStaged(x)
    case FreesIndex => x.(freed := x.freed + multiset{x.index})
    case Overwrites(h, rev) => x.(index := h, revision := rev)
  }

  /** The call that a thread makes with its next step. */
  function NextCall(pc: Pc): seq<Call> {
    match pc
    case StageLoaded(h, rev) => [Stages(h, rev)]
    case CommitWriting(expected) => [Commits(expected)]
    case DiscardLocked => [Discards]
    case DeleteLocked => [Discards]
    case DeleteWriting => [FreesIndex]
    case ReloadWriting(h, rev) => [Overwrites(h, rev)]
    case _ => []
  }

  function Effects(x: F.State, calls: seq<Call>): F.State
    decreases |calls|
  {
    if calls == [] then x else Effects(Effect(x, calls[0]), calls[1..])
  }

  /** The staging of the object of FaissIndexes, for any attempt that succeeds at `rev`; Delete is two calls. */
  lemma CallsAreOperations(x: F.State, a: F.Attempt, h: Handle, rev: int)
    requires F.Staging(x.revision, a) == F.Ok(rev)
    ensures F.Staged(x.(issued := h), a) == Effect(x, Stages(h, rev)).(issued := h + 1)
    ensures F.Deleted(x) == Effect(Effect(x, Discards), FreesIndex)
  {
  }

  // ---------- every step is such a call or none

  /** Replaced handles come and go with the thread that moves. */
  lemma DoomedMoves(s: State, u: State, t: nat, pc: Pc)
    requires LocksOk(s) && LocksOk(u) && t < |s.threads| && u.threads == s.threads[t := pc]
    ensures DoomedBy(u) + Doomed(s.threads[t]) == DoomedBy(s) + Doomed(pc)
  {
    assert Doomed(pc) != multiset{} ==> HoldsMu(pc);
    assert Doomed(s.threads[t]) != multiset{} ==> HoldsMu(s.threads[t]);
    if s.mu.Some? && s.mu.value != t { assert HoldsMu(u.threads[s.mu.value]); }
    if u.mu.Some? && u.mu.value != t { assert HoldsMu(s.threads[u.mu.value]); }
  }

  lemma DoomedStays(s: State, u: State, t: nat, pc: Pc)
    requires LocksOk(s) && LocksOk(u) && t < |s.threads| && u.threads == s.threads[t := pc]
    requires Doomed(pc) == Doomed(s.threads[t]) == multiset{}
    ensures DoomedBy(u) == DoomedBy(s)
  {
    DoomedMoves(s, u, t, pc);
  }

  ghost predicate IsCall(s: State, u: State, t: nat)
    requires t < |s.threads|
  {
    Object(u) == Effects(Object(s), NextCall(s.threads[t]))
  }

  /** A step that leaves the object alone and has no replaced handle in hand. */
  lemma QuietCall(s: State, u: State, t: nat, pc: Pc)
    requires LocksOk(s) && LocksOk(u) && t < |s.threads| && u.threads == s.threads[t := pc]
    requires NextCall(s.threads[t]) == [] && Doomed(pc) == Doomed(s.threads[t])
    requires u.index == s.index && u.revision == s.revision && u.staged == s.staged && u.freed == s.freed
    requires u.stagedRevision == s.stagedRevision
    ensures IsCall(s, u, t)
  {
    DoomedMoves(s, u, t, pc);
    assert DoomedBy(u) == DoomedBy(s);
  }

  lemma OneCall(x: F.State, call: Call)
    ensures Effects(x, [call]) == Effect(x, call)
  {
    assert [call][1..] == [];
  }

  lemma SearchCall(s: State, t: nat)
    requires Locks(s) && Enabled(s, t, Fail) && InSearch(s.threads[t])
    ensures IsCall(s, SearchStep(s, t), t)
  {
    var u := SearchStep(s, t);
    SearchLocks(s, t);
    QuietCall(s, u, t, u.threads[t]);
  }

  lemma StageLoadedCall(s: State, t: nat, choice: Choice)
    requires t < |s.threads| && LocksOk(s) && LocksOk(StageStep(s, t, choice)) && s.threads[t].StageLoaded?
    ensures IsCall(s, StageStep(s, t, choice), t)
  {
    var u := StageStep(s, t, choice);
    DoomedMoves(s, u, t, StageDone);
    OneCall(Object(s), NextCall(s.threads[t])[0]);
    assert DoomedBy(u) == DoomedBy(s);
    var x := F.FreeStaged(Object(s));
    assert x.freed == u.freed + DoomedBy(u);
  }

  lemma StageCall(s: State, t: nat, choice: Choice)
    requires t < |s.threads| && Locks(s) && Locks(StageStep(s, t, choice)) && InStage(s.threads[t])
    ensures IsCall(s, StageStep(s, t, choice), t)
  {
    if s.threads[t].StageLoaded? {
      StageLoadedCall(s, t, choice);
    } else {
      var u := StageStep(s, t, choice);
      QuietCall(s, u, t, u.threads[t]);
    }
  }

  lemma CommitCall(s: State, t: nat)
    requires t < |s.threads| && Locks(s) && Locks(CommitStep(s, t)) && InCommit(s.threads[t])
    ensures IsCall(s, CommitStep(s, t), t)
  {
    var u := CommitStep(s, t);
    QuietCall(s, u, t, u.threads[t]);
  }

  /** The swap is the CommitStaged of the object, and it does find what it expects. */
  lemma WritingCall(s: State, t: nat)
    requires t < |s.threads| && Locks(s) && Locks(SwapStep(s, t)) && s.threads[t].CommitWriting?
             && PcOk(s, s.threads[t])
    ensures IsCall(s, SwapStep(s, t), t) && F.Matches(Object(s), s.threads[t].expected)
  {
    var u := SwapStep(s, t);
    DoomedMoves(s, u, t, CommitSwapped(s.index));
    OneCall(Object(s), NextCall(s.threads[t])[0]);
    assert u.freed + DoomedBy(u) == s.freed + DoomedBy(s) + multiset{s.index};
  }

  lemma FreeingCall(s: State, t: nat)
    requires t < |s.threads| && Locks(s) && Locks(SwapStep(s, t)) && s.threads[t].CommitFreeing?
    ensures IsCall(s, SwapStep(s, t), t)
  {
    var u := SwapStep(s, t);
    DoomedMoves(s, u, t, Releasing);
    assert DoomedBy(u) + multiset{s.threads[t].prev} == DoomedBy(s);
    assert u.freed + DoomedBy(u) == s.freed + DoomedBy(s);
  }

  lemma SwapCall(s: State, t: nat)
    requires t < |s.threads| && Locks(s) && Locks(SwapStep(s, t)) && InSwap(s.threads[t]) && PcOk(s, s.threads[t])
    ensures IsCall(s, SwapStep(s, t), t)
  {
    if s.threads[t].CommitWriting? {
      WritingCall(s, t);
    } else if s.threads[t].CommitFreeing? {
      FreeingCall(s, t);
    } else {
      var u := SwapStep(s, t);
      QuietCall(s, u, t, u.threads[t]);
    }
  }

  /** DiscardStaged, and the first half of Delete. */
  lemma DropSome(s: State, u: State, t: nat, pc: Pc)
    requires LocksOk(s) && LocksOk(u) && t < |s.threads| && u.threads == s.threads[t := pc]
    requires Doomed(pc) == Doomed(s.threads[t]) == multiset{} && s.staged.Some?
    requires u.index == s.index && u.revision == s.revision && u.staged == None && u.stagedRevision == 0
    requires u.freed == s.freed + multiset{s.staged.value}
    ensures Object(u) == F.FreeStaged(Object(s))
  {
    DoomedStays(s, u, t, pc);
    AddedLast(s.freed, multiset{s.staged.value}, DoomedBy(s));
  }

  lemma DropCall(s: State, u: State, t: nat, pc: Pc)
    requires LocksOk(s) && LocksOk(u) && t < |s.threads| && (s.threads[t].DiscardLocked? || s.threads[t].DeleteLocked?)
    requires u.threads == s.threads[t := pc] && Doomed(pc) == multiset{}
    requires u.index == s.index && u.revision == s.revision && u.staged == None
    requires s.staged.Some? ==> u.freed == s.freed + multiset{s.staged.value} && u.stagedRevision == 0
    requires s.staged.None? ==> u.freed == s.freed && u.stagedRevision == s.stagedRevision
    ensures IsCall(s, u, t)
  {
    OneCall(Object(s), Discards);
    if s.staged.Some? {
      DropSome(s, u, t, pc);
    } else {
      DoomedStays(s, u, t, pc);
    }
  }

  lemma AddedLast(a: multiset<Handle>, b: multiset<Handle>, c: multiset<Handle>)
    ensures a + b + c == a + c + b
  {
  }

  lemma DiscardCall(s: State, t: nat)
    requires t < |s.threads| && Locks(s) && Locks(DiscardStep(s, t)) && InDiscard(s.threads[t])
    ensures IsCall(s, DiscardStep(s, t), t)
  {
    var u := DiscardStep(s, t);
    if s.threads[t].DiscardLocked? {
      DropCall(s, u, t, Releasing);
    } else {
      QuietCall(s, u, t, u.threads[t]);
    }
  }

  lemma EraseCall(s: State, t: nat)
    requires t < |s.threads| && LocksOk(s) && LocksOk(DeleteStep(s, t)) && s.threads[t].DeleteWriting?
    ensures IsCall(s, DeleteStep(s, t), t)
  {
    var u := DeleteStep(s, t);
    DoomedMoves(s, u, t, DeleteWritten);
    OneCall(Object(s), FreesIndex);
    assert DoomedBy(u) == DoomedBy(s);
    assert u.freed + DoomedBy(u) == s.freed + DoomedBy(s) + multiset{s.index};
  }

  lemma DeleteCall(s: State, t: nat)
    requires t < |s.threads| && Locks(s) && Locks(DeleteStep(s, t)) && InDelete(s.threads[t])
    ensures IsCall(s, DeleteStep(s, t), t)
  {
    var u := DeleteStep(s, t);
    if s.threads[t].DeleteLocked? {
      DropCall(s, u, t, DeleteReleasing);
    } else if s.threads[t].DeleteWriting? {
      EraseCall(s, t);
    } else {
      QuietCall(s, u, t, u.threads[t]);
    }
  }

  lemma ReloadCall(s: State, t: nat, choice: Choice)
    requires t < |s.threads| && Locks(s) && Locks(ReloadStep(s, t, choice)) && InReload(s.threads[t])
    ensures IsCall(s, ReloadStep(s, t, choice), t)
  {
    var u := ReloadStep(s, t, choice);
    QuietCall(s, u, t, u.threads[t]);
  }

  lemma OverwriteCall(s: State, t: nat)
    requires t < |s.threads| && Locks(s) && Locks(OverwriteStep(s, t)) && InOverwrite(s.threads[t])
    ensures IsCall(s, OverwriteStep(s, t), t)
  {
    var u := OverwriteStep(s, t);
    if s.threads[t].ReloadWriting? {
      DoomedMoves(s, u, t, ReloadWritten);
      OneCall(Object(s), NextCall(s.threads[t])[0]);
      assert DoomedBy(u) == DoomedBy(s);
    } else {
      QuietCall(s, u, t, u.threads[t]);
    }
  }

  lemma StepIsCall(s: State, t: nat, choice: Choice)
    requires Locks(s) && PcsOk(s) && Enabled(s, t, choice)
    ensures IsCall(s, Step(s, t, choice), t)
  {
    StepLocks(s, t, choice);
    var pc := s.threads[t];
    assert PcOk(s, pc);
    if InSearch(pc) { SearchCall(s, t); }
    else if InStage(pc) { StageCall(s, t, choice); }
    else if InCommit(pc) { CommitCall(s, t); }
    else if InSwap(pc) { SwapCall(s, t); }
    else if InDiscard(pc) { DiscardCall(s, t); }
    else if InReload(pc) { ReloadCall(s, t, choice); }
    else if InDelete(pc) { DeleteCall(s, t); }
    else { OverwriteCall(s, t); }
  }
}
