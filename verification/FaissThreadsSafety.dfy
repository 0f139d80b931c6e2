/**
 Memory safety and deadlock freedom of one FaissIndex, over every schedule.
 */
module FaissThreadsSafety {
  import opened Options
  import opened FaissThreads

  // ---------- who holds which lock

  ghost predicate LocksOk(s: State) {
    && (forall t :: 0 <= t < |s.threads| ==> (HoldsMu(s.threads[t]) <==> s.mu == Some(t)))
    && (forall t :: 0 <= t < |s.threads| ==> (HoldsRead(s.threads[t]) <==> t in s.readers))
    && (forall t :: 0 <= t < |s.threads| ==> (Announced(s.threads[t]) <==> s.writer == Some(t)))
    && (s.mu.Some? ==> s.mu.value < |s.threads|)
    && (s.writer.Some? ==> s.writer.value < |s.threads|)
    && (forall t :: t in s.readers ==> t < |s.threads|)
  }

  /** Readers and a writer are never inside together. */
  ghost predicate ExclusiveOk(s: State) {
    forall t :: 0 <= t < |s.threads| && HoldsWrite(s.threads[t]) ==> s.readers == {}
  }

  ghost predicate FlagOk(s: State) {
    && (forall t :: 0 <= t < |s.threads| && HoldsFlag(s.threads[t]) ==> s.flag)
    && (s.flag ==> exists t :: 0 <= t < |s.threads| && HoldsFlag(s.threads[t]))
    && (forall t, u :: 0 <= t < |s.threads| && 0 <= u < |s.threads| ==>
                         HoldsFlag(s.threads[t]) && HoldsFlag(s.threads[u]) ==> t == u)
  }

  ghost predicate Locks(s: State) {
    LocksOk(s) && ExclusiveOk(s) && FlagOk(s)
  }

  // ---------- who knows which handle

  /** A handle that is open, unless a Delete has freed it while it was serving. */
  ghost predicate Live(s: State, h: Handle) {
    h in s.freed <==> h in s.deleted
  }

  /** A handle that is neither serving, nor staged, nor leaked. */
  ghost predicate Aside(s: State, h: Handle) {
    h in s.loadRev && Live(s, h) && h != s.index && s.staged != Some(h) && h !in s.leaked
  }

  ghost predicate SlotsOk(s: State) {
    && s.index in s.loadRev && Live(s, s.index) && s.index !in s.leaked && s.loadRev[s.index] == s.revision
    && (s.staged.Some? ==>
          var h := s.staged.value;
          h in s.loadRev && h !in s.freed && h !in s.deleted && h != s.index && h !in s.leaked
          && s.loadRev[h] == s.stagedRevision)
  }

  /** What a thread's program counter says about handles. */
  ghost predicate PcOk(s: State, pc: Pc) {
    && (pc.Searching? ==> pc.seen == s.index)
    && (Private(pc).Some? ==> Aside(s, Private(pc).value))
    && (pc.StageLoaded? || pc.ReloadWantWrite? || pc.ReloadWaiting? || pc.ReloadWriting? ==> pc.h !in s.deleted)
    && (pc.StageLoaded? || pc.ReloadWantWrite? || pc.ReloadWaiting? || pc.ReloadWriting? ==> s.loadRev[pc.h] == pc.rev)
    && (pc.CommitWantWrite? || pc.CommitWaiting? || pc.CommitWriting? ==>
        s.staged.Some? && s.stagedRevision == pc.expected)
  }

  ghost predicate PcsOk(s: State) {
    && (forall t :: 0 <= t < |s.threads| ==> PcOk(s, s.threads[t]))
    && (forall t, u :: 0 <= t < u < |s.threads| && Private(s.threads[t]).Some? ==>
        Private(s.threads[t]) != Private(s.threads[u]))
  }

  ghost predicate FreedOnce(s: State) {
    && (forall h :: h in s.freed ==> h in s.loadRev && (h in s.deleted || (s.freed[h] == 1 && h !in s.leaked)))
    && (forall h :: h in s.leaked || h in s.deleted ==> h in s.loadRev)
    && (forall h :: h in s.deleted ==> h in s.freed)
  }

  /** Every handle ever opened is somewhere: nothing is lost except what Reload overwrites. */
  ghost predicate Accounted(s: State) {
    forall h :: h in s.loadRev ==>
                  || h in s.freed || h in s.leaked || h == s.index || s.staged == Some(h)
                  || exists t :: 0 <= t < |s.threads| && Private(s.threads[t]) == Some(h)
  }

  ghost predicate Memory(s: State) {
    SlotsOk(s) && PcsOk(s) && FreedOnce(s)
  }

  // ---------- locks are kept

  lemma LocksMove(s: State, t: State, me: nat, pc: Pc)
    requires Locks(s) && me < |s.threads| && t.threads == s.threads[me := pc]
    requires t.mu == if HoldsMu(pc) then Some(me) else if HoldsMu(s.threads[me]) then None else s.mu
    requires HoldsMu(pc) && !HoldsMu(s.threads[me]) ==> s.mu.None?
    requires t.readers == if HoldsRead(pc) then s.readers + {me} else s.readers - {me}
    requires HoldsRead(pc) && !HoldsRead(s.threads[me]) ==> s.writer.None?
    requires t.writer == if Announced(pc) then Some(me) else if Announced(s.threads[me]) then None else s.writer
    requires Announced(pc) && !Announced(s.threads[me]) ==> s.writer.None? && !HoldsWrite(pc)
    requires HoldsWrite(pc) && !HoldsWrite(s.threads[me]) ==> s.readers == {} && !HoldsRead(pc)
    requires HoldsRead(pc) ==> !Announced(pc)
    requires t.flag == if HoldsFlag(pc) then true else if HoldsFlag(s.threads[me]) then false else s.flag
    requires HoldsFlag(pc) && !HoldsFlag(s.threads[me]) ==> !s.flag
    ensures Locks(t)
  {
    forall u | 0 <= u < |t.threads| && HoldsWrite(t.threads[u]) ensures t.readers == {} {
      if u != me {
        assert HoldsWrite(s.threads[u]) && s.writer == Some(u);
      } else if HoldsWrite(s.threads[me]) {
        assert s.readers == {};
      }
    }
  }

  lemma SearchLocks(s: State, t: nat)
    requires Locks(s) && Enabled(s, t, Fail) && InSearch(s.threads[t])
    ensures Locks(SearchStep(s, t))
  {
    var u := SearchStep(s, t);
    LocksMove(s, u, t, u.threads[t]);
  }

  lemma StageReadLocks(s: State, t: nat, choice: Choice)
    requires Locks(s) && Enabled(s, t, choice) && (s.threads[t].StageWantRead? || s.threads[t].StageReading?)
    ensures Locks(StageStep(s, t, choice))
  {
    var u := StageStep(s, t, choice);
    LocksMove(s, u, t, u.threads[t]);
  }

  lemma StageLocks(s: State, t: nat, choice: Choice)
    requires Locks(s) && Enabled(s, t, choice) && InStage(s.threads[t]) && !s.threads[t].StageWantRead?
             && !s.threads[t].StageReading?
    ensures Locks(StageStep(s, t, choice))
  {
    var u := StageStep(s, t, choice);
    LocksMove(s, u, t, u.threads[t]);
  }

  lemma CommitLocks(s: State, t: nat)
    requires Locks(s) && Enabled(s, t, Fail) && InCommit(s.threads[t])
    ensures Locks(CommitStep(s, t))
  {
    var u := CommitStep(s, t);
    LocksMove(s, u, t, u.threads[t]);
  }

  lemma SwapLocks(s: State, t: nat)
    requires Locks(s) && Enabled(s, t, Fail) && InSwap(s.threads[t])
    ensures Locks(SwapStep(s, t))
  {
    var u := SwapStep(s, t);
    LocksMove(s, u, t, u.threads[t]);
  }

  lemma DiscardLocks(s: State, t: nat)
    requires Locks(s) && Enabled(s, t, Fail) && (s.threads[t].DiscardStart? || s.threads[t].DiscardLocked?)
    ensures Locks(DiscardStep(s, t))
  {
    var u := DiscardStep(s, t);
    LocksMove(s, u, t, u.threads[t]);
  }

  lemma PeekLocks(s: State, t: nat)
    requires Locks(s) && Enabled(s, t, Fail)
             && (s.threads[t].PeekStart? || s.threads[t].PeekLocked? || s.threads[t].Releasing?)
    ensures Locks(DiscardStep(s, t))
  {
    var u := DiscardStep(s, t);
    LocksMove(s, u, t, u.threads[t]);
  }

  predicate InOverwrite(pc: Pc) {
    pc.ReloadWantWrite? || pc.ReloadWaiting? || pc.ReloadWriting? || pc.ReloadWritten?
  }

  lemma ReloadFlagLocks(s: State, t: nat, choice: Choice)
    requires Locks(s) && Enabled(s, t, choice)
             && (s.threads[t].ReloadStart? || s.threads[t].ReloadFetched? || s.threads[t].ReloadDone?)
    ensures Locks(ReloadStep(s, t, choice))
  {
    var u := ReloadStep(s, t, choice);
    LocksMove(s, u, t, u.threads[t]);
  }

  lemma ReloadReadLocks(s: State, t: nat, choice: Choice)
    requires Locks(s) && Enabled(s, t, choice) && (s.threads[t].ReloadWantRead? || s.threads[t].ReloadReading?)
    ensures Locks(ReloadStep(s, t, choice))
  {
    var u := ReloadStep(s, t, choice);
    LocksMove(s, u, t, u.threads[t]);
  }

  lemma OverwriteLocks(s: State, t: nat)
    requires Locks(s) && Enabled(s, t, Fail) && InOverwrite(s.threads[t])
    ensures Locks(OverwriteStep(s, t))
  {
    var u := OverwriteStep(s, t);
    LocksMove(s, u, t, u.threads[t]);
  }

  /** The first half of Delete. */
  predicate AtMu(pc: Pc) {
    pc.DeleteStart? || pc.DeleteLocked? || pc.DeleteReleasing?
  }

  lemma StartLocks(s: State, t: nat)
    requires Locks(s) && Enabled(s, t, Fail) && s.threads[t].DeleteStart?
    ensures Locks(DeleteStep(s, t))
  {
    LocksMove(s, DeleteStep(s, t), t, DeleteLocked);
  }

  lemma DropLocks(s: State, t: nat)
    requires Locks(s) && Enabled(s, t, Fail) && (s.threads[t].DeleteLocked? || s.threads[t].DeleteReleasing?)
    ensures Locks(DeleteStep(s, t))
  {
    var u := DeleteStep(s, t);
    LocksMove(s, u, t, u.threads[t]);
  }

  lemma EnterLocks(s: State, t: nat)
    requires Locks(s) && Enabled(s, t, Fail) && (s.threads[t].DeleteWantWrite? || s.threads[t].DeleteWaiting?)
    ensures Locks(DeleteStep(s, t))
  {
    var u := DeleteStep(s, t);
    LocksMove(s, u, t, u.threads[t]);
  }

  lemma EraseLocks(s: State, t: nat)
    requires Locks(s) && Enabled(s, t, Fail) && (s.threads[t].DeleteWriting? || s.threads[t].DeleteWritten?)
    ensures Locks(DeleteStep(s, t))
  {
    var u := DeleteStep(s, t);
    LocksMove(s, u, t, u.threads[t]);
  }

  lemma StepLocks(s: State, t: nat, choice: Choice)
    requires Locks(s) && Enabled(s, t, choice)
    ensures Locks(Step(s, t, choice))
  {
    var pc := s.threads[t];
    if InSearch(pc) { SearchLocks(s, t); }
    else if pc.StageWantRead? || pc.StageReading? { StageReadLocks(s, t, choice); }
    else if InStage(pc) { StageLocks(s, t, choice); }
    else if InCommit(pc) { CommitLocks(s, t); }
    else if InSwap(pc) { SwapLocks(s, t); }
    else if pc.DiscardStart? || pc.DiscardLocked? { DiscardLocks(s, t); }
    else if InDiscard(pc) { PeekLocks(s, t); }
    else if pc.ReloadWantRead? || pc.ReloadReading? { ReloadReadLocks(s, t, choice); }
    else if InReload(pc) { ReloadFlagLocks(s, t, choice); }
    else if pc.DeleteStart? { StartLocks(s, t); }
    else if AtMu(pc) { DropLocks(s, t); }
    else if pc.DeleteWantWrite? || pc.DeleteWaiting? { EnterLocks(s, t); }
    else if InDelete(pc) { EraseLocks(s, t); }
    else { OverwriteLocks(s, t); }
  }

  // ---------- memory is kept

  ghost predicate SameMemory(s: State, t: State) {
    && t.index == s.index && t.revision == s.revision && t.staged == s.staged && t.stagedRevision == s.stagedRevision
    && t.loadRev == s.loadRev && t.freed == s.freed && t.leaked == s.leaked && t.deleted == s.deleted
  }

  /** Thread `me` goes to `pc`; the others keep what they know, and private handles stay private. */
  lemma PcsMove(s: State, t: State, me: nat, pc: Pc)
    requires PcsOk(s) && me < |s.threads| && t.threads == s.threads[me := pc] && PcOk(t, pc)
    requires forall u :: 0 <= u < |s.threads| && u != me ==> PcOk(t, s.threads[u])
    requires Private(pc).Some? ==>
               || Private(pc) == Private(s.threads[me])
               || forall u :: 0 <= u < |s.threads| && u != me ==> Private(s.threads[u]) != Private(pc)
    ensures PcsOk(t)
  {
    forall i, j | 0 <= i < j < |t.threads| && Private(t.threads[i]).Some?
      ensures Private(t.threads[i]) != Private(t.threads[j])
    {
      if i == me { assert Private(s.threads[j]) == Private(t.threads[j]); }
      if j == me { assert Private(s.threads[i]) == Private(t.threads[i]); }
    }
  }

  lemma QuietMemory(s: State, t: State, me: nat, pc: Pc)
    requires Memory(s) && me < |s.threads| && t.threads == s.threads[me := pc] && SameMemory(s, t)
    requires PcOk(s, pc) && (Private(pc).Some? ==> Private(pc) == Private(s.threads[me]))
    ensures Memory(t)
  {
    assert PcOk(t, pc);
    forall u | 0 <= u < |s.threads| && u != me ensures PcOk(t, s.threads[u]) {
      assert PcOk(s, s.threads[u]);
    }
    PcsMove(s, t, me, pc);
  }

  /** readIndexFn returns a handle nobody has seen. */
  lemma OpenMemory(s: State, t: State, me: nat, pc: Pc, h: Handle, rev: int)
    requires Memory(s) && me < |s.threads| && h !in s.loadRev
    requires t == s.(loadRev := s.loadRev[h := rev], threads := s.threads[me := pc])
    requires pc == StageLoaded(h, rev) || pc == ReloadWantWrite(h, rev)
    ensures Memory(t)
  {
    forall u | 0 <= u < |s.threads| && u != me ensures PcOk(t, s.threads[u]) && Private(s.threads[u]) != Some(h) {
      assert PcOk(s, s.threads[u]);
    }
    assert h !in s.freed && h !in s.leaked;
    PcsMove(s, t, me, pc);
  }

  /** A handle that is aside for everybody is freed: no double free, and nobody was using it. */
  lemma FreeMemory(s: State, t: State, me: nat, pc: Pc, h: Handle)
    requires Memory(s) && me < |s.threads| && Private(pc).None? && PcOk(t, pc)
    requires t == Free(s, h).(threads := s.threads[me := pc])
    requires Aside(s, h) && forall u :: 0 <= u < |s.threads| && u != me ==> Private(s.threads[u]) != Some(h)
    ensures Memory(t)
  {
    forall u | 0 <= u < |s.threads| && u != me ensures PcOk(t, s.threads[u]) {
      assert PcOk(s, s.threads[u]);
    }
    PcsMove(s, t, me, pc);
  }

  /** StageReload frees what was staged before and stages its own handle. */
  lemma ReplaceStaged(s: State, me: nat)
    requires Locks(s) && Memory(s) && me < |s.threads| && s.threads[me].StageLoaded?
    ensures Memory(StageStep(s, me, Fail))
  {
    var t := StageStep(s, me, Fail);
    assert PcOk(s, s.threads[me]);
    forall u | 0 <= u < |s.threads| && u != me ensures PcOk(t, s.threads[u]) {
      assert PcOk(s, s.threads[u]) && !HoldsMu(s.threads[u]) && !HoldsFlag(s.threads[u]);
      assert Private(s.threads[u]).None?;
    }
    PcsMove(s, t, me, StageDone);
  }

  /** DiscardStaged and Delete free what is staged. */
  lemma DropStaged(s: State, t: State, me: nat, pc: Pc)
    requires Locks(s) && Memory(s) && me < |s.threads| && HoldsMu(s.threads[me]) && s.staged.Some?
    requires pc == Releasing || pc == DeleteReleasing
    requires t == Free(s, s.staged.value).(staged := None, stagedRevision := 0, threads := s.threads[me := pc])
    ensures Memory(t)
  {
    forall u | 0 <= u < |s.threads| && u != me ensures PcOk(t, s.threads[u]) {
      assert PcOk(s, s.threads[u]) && !HoldsMu(s.threads[u]);
    }
    PcsMove(s, t, me, pc);
  }

  lemma ErasedFreedOnce(s: State, t: State)
    requires SlotsOk(s) && FreedOnce(s)
    requires t == Free(s, s.index).(deleted := s.deleted + {s.index}, threads := t.threads)
    ensures SlotsOk(t) && FreedOnce(t)
  {
    forall h | h in t.freed ensures h in t.loadRev && (h in t.deleted || (t.freed[h] == 1 && h !in t.leaked)) {
      assert h != s.index ==> t.freed[h] == s.freed[h];
    }
  }

  lemma ErasedPcOk(s: State, t: State, pc: Pc)
    requires PcOk(s, pc) && t == Free(s, s.index).(deleted := s.deleted + {s.index}, threads := t.threads)
    ensures PcOk(t, pc)
  {
  }

  /** Delete frees the serving handle: no search is inside, and nobody else knows it. */
  lemma DropIndex(s: State, t: State, me: nat)
    requires Memory(s) && me < |s.threads|
    requires t == Free(s, s.index).(deleted := s.deleted + {s.index}, threads := s.threads[me := DeleteWritten])
    ensures Memory(t)
  {
    ErasedFreedOnce(s, t);
    forall u | 0 <= u < |s.threads| && u != me ensures PcOk(t, s.threads[u]) {
      assert PcOk(s, s.threads[u]);
      ErasedPcOk(s, t, s.threads[u]);
    }
    PcsMove(s, t, me, DeleteWritten);
  }

  /** The swap of CommitStaged: no search is inside, and the replaced handle becomes private. */
  lemma SwapIndex(s: State, me: nat)
    requires Locks(s) && Memory(s) && me < |s.threads| && s.threads[me].CommitWriting?
    ensures Memory(SwapStep(s, me))
  {
    var t := SwapStep(s, me);
    assert PcOk(s, s.threads[me]) && s.staged.Some?;
    forall u | 0 <= u < |s.threads| && u != me ensures PcOk(t, s.threads[u]) && Private(s.threads[u]) != Some(s.index) {
      assert PcOk(s, s.threads[u]) && !HoldsMu(s.threads[u]) && !HoldsRead(s.threads[u]);
    }
    PcsMove(s, t, me, CommitSwapped(s.index));
  }

  /** The swap of Reload: no search is inside, and the replaced handle is lost. */
  lemma OverwriteIndex(s: State, me: nat)
    requires Locks(s) && Memory(s) && me < |s.threads| && s.threads[me].ReloadWriting?
    ensures Memory(OverwriteStep(s, me))
  {
    var t := OverwriteStep(s, me);
    assert PcOk(s, s.threads[me]);
    forall u | 0 <= u < |s.threads| && u != me ensures PcOk(t, s.threads[u]) {
      assert PcOk(s, s.threads[u]) && !HoldsRead(s.threads[u]);
      assert Private(s.threads[u]).Some? ==> Private(s.threads[u]) != Private(s.threads[me]);
    }
    PcsMove(s, t, me, ReloadWritten);
  }

  // ---------- each operation

  lemma SearchMemory(s: State, t: nat)
    requires Memory(s) && Enabled(s, t, Fail) && InSearch(s.threads[t])
    ensures Memory(SearchStep(s, t))
  {
    var u := SearchStep(s, t);
    QuietMemory(s, u, t, u.threads[t]);
  }

  lemma StageEntryMemory(s: State, t: nat, choice: Choice)
    requires Memory(s) && Enabled(s, t, choice)
             && (s.threads[t].StageStart? || s.threads[t].StageLocked? || s.threads[t].StageWantRead?)
    ensures Memory(StageStep(s, t, choice))
  {
    var u := StageStep(s, t, choice);
    QuietMemory(s, u, t, u.threads[t]);
  }

  lemma StageMemory(s: State, t: nat, choice: Choice)
    requires Locks(s) && Memory(s) && Enabled(s, t, choice) && InStage(s.threads[t])
    ensures Memory(StageStep(s, t, choice))
  {
    var u := StageStep(s, t, choice);
    var pc := s.threads[t];
    if pc.StageLoaded? {
      ReplaceStaged(s, t);
    } else if pc.StageStart? || pc.StageLocked? || pc.StageWantRead? {
      StageEntryMemory(s, t, choice);
    } else if pc.StageDownloading? && choice.Succeed? && choice.rev > pc.current {
      OpenMemory(s, u, t, u.threads[t], choice.h, choice.rev);
    } else {
      QuietMemory(s, u, t, u.threads[t]);
    }
  }

  lemma CommitLockedMemory(s: State, t: nat)
    requires Memory(s) && Enabled(s, t, Fail) && s.threads[t].CommitLocked?
    ensures Memory(CommitStep(s, t))
  {
    var u := CommitStep(s, t);
    QuietMemory(s, u, t, u.threads[t]);
  }

  lemma CommitMemory(s: State, t: nat)
    requires Memory(s) && Enabled(s, t, Fail) && InCommit(s.threads[t])
    ensures Memory(CommitStep(s, t))
  {
    if s.threads[t].CommitLocked? {
      CommitLockedMemory(s, t);
    } else {
      var u := CommitStep(s, t);
      assert PcOk(s, s.threads[t]);
      QuietMemory(s, u, t, u.threads[t]);
    }
  }

  lemma SwapMemory(s: State, t: nat)
    requires Locks(s) && Memory(s) && Enabled(s, t, Fail) && InSwap(s.threads[t])
    ensures Memory(SwapStep(s, t))
  {
    var u := SwapStep(s, t);
    var pc := s.threads[t];
    assert PcOk(s, pc);
    if pc.CommitWriting? {
      SwapIndex(s, t);
    } else if pc.CommitFreeing? {
      forall v | 0 <= v < |s.threads| && v != t ensures Private(s.threads[v]) != Some(pc.prev) {
        assert Private(s.threads[t]) == Some(pc.prev);
      }
      FreeMemory(s, u, t, Releasing, pc.prev);
    } else {
      QuietMemory(s, u, t, u.threads[t]);
    }
  }

  lemma DiscardQuiet(s: State, t: nat)
    requires Memory(s) && Enabled(s, t, Fail) && InDiscard(s.threads[t])
             && !(s.threads[t].DiscardLocked? && s.staged.Some?)
    ensures Memory(DiscardStep(s, t))
  {
    var u := DiscardStep(s, t);
    QuietMemory(s, u, t, u.threads[t]);
  }

  lemma DiscardMemory(s: State, t: nat)
    requires Locks(s) && Memory(s) && Enabled(s, t, Fail) && InDiscard(s.threads[t])
    ensures Memory(DiscardStep(s, t))
  {
    if s.threads[t].DiscardLocked? && s.staged.Some? {
      DropStaged(s, DiscardStep(s, t), t, Releasing);
    } else {
      DiscardQuiet(s, t);
    }
  }

  lemma DropQuiet(s: State, t: nat)
    requires Memory(s) && Enabled(s, t, Fail) && AtMu(s.threads[t]) && (s.threads[t].DeleteLocked? ==> s.staged.None?)
    ensures Memory(DeleteStep(s, t))
  {
    var u := DeleteStep(s, t);
    QuietMemory(s, u, t, u.threads[t]);
  }

  lemma EraseQuiet(s: State, t: nat)
    requires Memory(s) && Enabled(s, t, Fail) && InDelete(s.threads[t]) && !AtMu(s.threads[t])
             && !s.threads[t].DeleteWriting?
    ensures Memory(DeleteStep(s, t))
  {
    var u := DeleteStep(s, t);
    QuietMemory(s, u, t, u.threads[t]);
  }

  lemma DeleteDropsStaged(s: State, t: nat)
    requires Locks(s) && Memory(s) && t < |s.threads| && s.threads[t].DeleteLocked? && s.staged.Some?
    ensures Memory(DeleteStep(s, t))
  {
    DropStaged(s, DeleteStep(s, t), t, DeleteReleasing);
  }

  lemma DeleteMemory(s: State, t: nat)
    requires Locks(s) && Memory(s) && Enabled(s, t, Fail) && InDelete(s.threads[t])
    ensures Memory(DeleteStep(s, t))
  {
    if s.threads[t].DeleteWriting? {
      DropIndex(s, DeleteStep(s, t), t);
    } else if s.threads[t].DeleteLocked? && s.staged.Some? {
      DeleteDropsStaged(s, t);
    } else if AtMu(s.threads[t]) {
      DropQuiet(s, t);
    } else {
      EraseQuiet(s, t);
    }
  }

  lemma FetchedMemory(s: State, t: nat, choice: Choice)
    requires Memory(s) && Enabled(s, t, choice) && s.threads[t].ReloadFetched?
    ensures Memory(ReloadStep(s, t, choice))
  {
    var u := ReloadStep(s, t, choice);
    if choice.Succeed? {
      OpenMemory(s, u, t, u.threads[t], choice.h, s.threads[t].rev);
    } else {
      QuietMemory(s, u, t, ReloadDone);
    }
  }

  lemma ReloadEndsMemory(s: State, t: nat, choice: Choice)
    requires Memory(s) && Enabled(s, t, choice) && (s.threads[t].ReloadStart? || s.threads[t].ReloadDone?)
    ensures Memory(ReloadStep(s, t, choice))
  {
    var u := ReloadStep(s, t, choice);
    QuietMemory(s, u, t, u.threads[t]);
  }

  lemma ReloadReadsMemory(s: State, t: nat, choice: Choice)
    requires Memory(s) && Enabled(s, t, choice) && (s.threads[t].ReloadWantRead? || s.threads[t].ReloadReading?)
    ensures Memory(ReloadStep(s, t, choice))
  {
    var u := ReloadStep(s, t, choice);
    QuietMemory(s, u, t, u.threads[t]);
  }

  lemma ReloadMemory(s: State, t: nat, choice: Choice)
    requires Memory(s) && Enabled(s, t, choice) && InReload(s.threads[t])
    ensures Memory(ReloadStep(s, t, choice))
  {
    if s.threads[t].ReloadFetched? {
      FetchedMemory(s, t, choice);
    } else if s.threads[t].ReloadStart? || s.threads[t].ReloadDone? {
      ReloadEndsMemory(s, t, choice);
    } else {
      ReloadReadsMemory(s, t, choice);
    }
  }

  lemma OverwriteQuiet(s: State, t: nat)
    requires Memory(s) && Enabled(s, t, Fail) && InOverwrite(s.threads[t]) && !s.threads[t].ReloadWriting?
    ensures Memory(OverwriteStep(s, t))
  {
    var u := OverwriteStep(s, t);
    assert PcOk(s, s.threads[t]);
    QuietMemory(s, u, t, u.threads[t]);
  }

  lemma OverwriteMemory(s: State, t: nat)
    requires Locks(s) && Memory(s) && Enabled(s, t, Fail) && InOverwrite(s.threads[t])
    ensures Memory(OverwriteStep(s, t))
  {
    if s.threads[t].ReloadWriting? {
      OverwriteIndex(s, t);
    } else {
      OverwriteQuiet(s, t);
    }
  }

  lemma StepMemory(s: State, t: nat, choice: Choice)
    requires Locks(s) && Memory(s) && Enabled(s, t, choice)
    ensures Memory(Step(s, t, choice))
  {
    var pc := s.threads[t];
    if InSearch(pc) { SearchMemory(s, t); }
    else if InStage(pc) { StageMemory(s, t, choice); }
    else if InCommit(pc) { CommitMemory(s, t); }
    else if InSwap(pc) { SwapMemory(s, t); }
    else if InDiscard(pc) { DiscardMemory(s, t); }
    else if InReload(pc) { ReloadMemory(s, t, choice); }
    else if InDelete(pc) { DeleteMemory(s, t); }
    else { OverwriteMemory(s, t); }
  }

  // ---------- nothing is lost

  lemma AccountedMove(s: State, t: State, me: nat, pc: Pc)
    requires Accounted(s) && me < |s.threads| && t.threads == s.threads[me := pc]
    requires forall h :: h in t.loadRev ==> h in s.loadRev || Private(pc) == Some(h)
    requires (forall h :: h in s.freed ==> h in t.freed) && t.leaked >= s.leaked
    requires t.index == s.index || s.index in t.leaked || Private(pc) == Some(s.index)
    requires s.staged.Some? ==> t.staged == s.staged || s.staged.value in t.freed || s.staged.value == t.index
    requires Private(s.threads[me]).Some? ==>
               var h := Private(s.threads[me]).value;
                   Private(pc) == Some(h) || h in t.freed || h == t.index || t.staged == Some(h)
    ensures Accounted(t)
  {
    forall h | h in t.loadRev && !(h in t.freed || h in t.leaked || h == t.index || t.staged == Some(h))
      ensures exists u :: 0 <= u < |t.threads| && Private(t.threads[u]) == Some(h)
    {
      if Private(pc) == Some(h) {
        assert Private(t.threads[me]) == Some(h);
      } else {
        var u :| 0 <= u < |s.threads| && Private(s.threads[u]) == Some(h);
        assert Private(t.threads[u]) == Some(h);
      }
    }
  }

  lemma SearchAccounted(s: State, t: nat)
    requires Accounted(s) && Enabled(s, t, Fail) && InSearch(s.threads[t])
    ensures Accounted(SearchStep(s, t))
  {
    var u := SearchStep(s, t);
    AccountedMove(s, u, t, u.threads[t]);
  }

  lemma StageAccounted(s: State, t: nat, choice: Choice)
    requires Accounted(s) && Enabled(s, t, choice) && InStage(s.threads[t])
    ensures Accounted(StageStep(s, t, choice))
  {
    var u := StageStep(s, t, choice);
    AccountedMove(s, u, t, u.threads[t]);
  }

  lemma CommitAccounted(s: State, t: nat)
    requires Accounted(s) && Enabled(s, t, Fail) && InCommit(s.threads[t])
    ensures Accounted(CommitStep(s, t))
  {
    var u := CommitStep(s, t);
    AccountedMove(s, u, t, u.threads[t]);
  }

  lemma WritingAccounted(s: State, t: nat)
    requires Accounted(s) && t < |s.threads| && s.threads[t].CommitWriting? && PcOk(s, s.threads[t])
    ensures Accounted(SwapStep(s, t))
  {
    AccountedMove(s, SwapStep(s, t), t, CommitSwapped(s.index));
  }

  lemma SwapAccounted(s: State, t: nat)
    requires Accounted(s) && Enabled(s, t, Fail) && InSwap(s.threads[t]) && PcOk(s, s.threads[t])
    ensures Accounted(SwapStep(s, t))
  {
    if s.threads[t].CommitWriting? {
      WritingAccounted(s, t);
    } else {
      var u := SwapStep(s, t);
      AccountedMove(s, u, t, u.threads[t]);
    }
  }

  lemma DiscardAccounted(s: State, t: nat)
    requires Accounted(s) && Enabled(s, t, Fail) && InDiscard(s.threads[t])
    ensures Accounted(DiscardStep(s, t))
  {
    var u := DiscardStep(s, t);
    AccountedMove(s, u, t, u.threads[t]);
  }

  lemma ReloadAccounted(s: State, t: nat, choice: Choice)
    requires Accounted(s) && Enabled(s, t, choice) && InReload(s.threads[t])
    ensures Accounted(ReloadStep(s, t, choice))
  {
    var u := ReloadStep(s, t, choice);
    AccountedMove(s, u, t, u.threads[t]);
  }

  lemma OverwriteAccounted(s: State, t: nat)
    requires Accounted(s) && Enabled(s, t, Fail) && InOverwrite(s.threads[t])
    ensures Accounted(OverwriteStep(s, t))
  {
    var u := OverwriteStep(s, t);
    AccountedMove(s, u, t, u.threads[t]);
  }

  lemma DeleteAccounted(s: State, t: nat)
    requires Accounted(s) && Enabled(s, t, Fail) && InDelete(s.threads[t])
    ensures Accounted(DeleteStep(s, t))
  {
    var u := DeleteStep(s, t);
    AccountedMove(s, u, t, u.threads[t]);
  }

  lemma StepAccounted(s: State, t: nat, choice: Choice)
    requires Memory(s) && Accounted(s) && Enabled(s, t, choice)
    ensures Accounted(Step(s, t, choice))
  {
    var pc := s.threads[t];
    if InSearch(pc) { SearchAccounted(s, t); }
    else if InStage(pc) { StageAccounted(s, t, choice); }
    else if InCommit(pc) { CommitAccounted(s, t); }
    else if InSwap(pc) { SwapAccounted(s, t); }
    else if InDiscard(pc) { DiscardAccounted(s, t); }
    else if InReload(pc) { ReloadAccounted(s, t, choice); }
    else if InDelete(pc) { DeleteAccounted(s, t); }
    else { OverwriteAccounted(s, t); }
  }

  // ---------- the theorems

  ghost predicate Inv(s: State) {
    Locks(s) && Memory(s) && Accounted(s)
  }

  lemma {:induction false} InvariantOverRuns(s: State, run: Schedule)
    requires Inv(s) && Run(s, run)
    ensures Inv(After(s, run))
    decreases |run|
  {
    if run != [] {
      StepLocks(s, run[0].0, run[0].1);
      StepMemory(s, run[0].0, run[0].1);
      StepAccounted(s, run[0].0, run[0].1);
      InvariantOverRuns(Step(s, run[0].0, run[0].1), run[1..]);
    }
  }

  lemma StartsOutside(pc: Pc)
    requires AtStart(pc)
    ensures !HoldsMu(pc) && !HoldsRead(pc) && !HoldsWrite(pc) && !Announced(pc) && !HoldsFlag(pc) && Private(pc).None?
    ensures !pc.Searching? && !pc.CommitWantWrite? && !pc.CommitWaiting? && !pc.CommitWriting?
  {
  }

  lemma InitialInv(s: State)
    requires Initial(s)
    ensures Inv(s)
  {
    forall t | 0 <= t < |s.threads|
      ensures !HoldsMu(s.threads[t]) && !HoldsRead(s.threads[t]) && !HoldsWrite(s.threads[t])
              && !Announced(s.threads[t])
      ensures !HoldsFlag(s.threads[t]) && Private(s.threads[t]).None? && PcOk(s, s.threads[t])
    {
      StartsOutside(s.threads[t]);
    }
  }

  /** Whatever the schedule, deletions included: a search inside the lock works on the one serving
      handle, which was loaded for the revision served with it, and that handle has been freed if and
      only if a Delete has freed it. */
  lemma SearchesFreedIffDeleted(s: State, run: Schedule, i: nat)
    requires Initial(s) && Run(s, run) && i < |After(s, run).threads| && After(s, run).threads[i].Searching?
    ensures var t := After(s, run);
      var h := t.threads[i].seen;
      && h == t.index && h in t.loadRev && t.loadRev[h] == t.revision
      && (h in t.freed <==> h in t.deleted)
  {
    InitialInv(s);
    InvariantOverRuns(s, run);
    assert PcOk(After(s, run), After(s, run).threads[i]);
  }

  /** And that had happened before the search got its lock: no step deletes the handle of a search that
      is inside.  So the searches that reach a freed handle are exactly those that get the lock when
      the serving handle is a deleted one. */
  lemma NothingIsDeletedUnderASearch(s: State, t: nat, choice: Choice, i: nat)
    requires Inv(s) && Enabled(s, t, choice) && i < |s.threads| && s.threads[i].Searching?
    ensures var u := Step(s, t, choice);
      i < |u.threads| && (u.threads[i].Searching? ==>
                          (u.threads[i].seen in u.deleted <==> s.threads[i].seen in s.deleted))
  {
    assert i in s.readers;
    if InDelete(s.threads[t]) {
      DeleteWaitsForSearches(s, t, i);
    } else {
      OnlyDeleteDeletes(s, t, choice);
      if i == t { SearchEnds(s, t, choice); }
    }
  }

  lemma DeleteWaitsForSearches(s: State, t: nat, i: nat)
    requires Inv(s) && Enabled(s, t, Fail) && InDelete(s.threads[t]) && i in s.readers && i < |s.threads|
             && s.threads[i].Searching?
    ensures DeleteStep(s, t).deleted == s.deleted
            && DeleteStep(s, t).threads == s.threads[t := DeleteStep(s, t).threads[t]]
  {
    assert !HoldsWrite(s.threads[t]);
  }

  lemma SearchEnds(s: State, t: nat, choice: Choice)
    requires Enabled(s, t, choice) && s.threads[t].Searching?
    ensures !Step(s, t, choice).threads[t].Searching?
  {
  }

  /** Thread `t` has moved within its operation and deleted nothing. */
  ghost predicate Undeleting(s: State, u: State, t: nat) {
    t < |s.threads| == |u.threads| && u.deleted == s.deleted && u.threads == s.threads[t := u.threads[t]]
    && !InDelete(u.threads[t])
  }

  lemma SearchingDeletesNothing(s: State, t: nat)
    requires t < |s.threads| && InSearch(s.threads[t])
    ensures Undeleting(s, SearchStep(s, t), t)
  {
  }

  lemma StagingDeletesNothing(s: State, t: nat, choice: Choice)
    requires t < |s.threads| && InStage(s.threads[t])
    ensures Undeleting(s, StageStep(s, t, choice), t)
  {
  }

  lemma CommittingDeletesNothing(s: State, t: nat)
    requires t < |s.threads| && InCommit(s.threads[t])
    ensures Undeleting(s, CommitStep(s, t), t)
  {
  }

  lemma SwappingDeletesNothing(s: State, t: nat)
    requires t < |s.threads| && InSwap(s.threads[t])
    ensures Undeleting(s, SwapStep(s, t), t)
  {
  }

  lemma DiscardingDeletesNothing(s: State, t: nat)
    requires t < |s.threads| && InDiscard(s.threads[t])
    ensures Undeleting(s, DiscardStep(s, t), t)
  {
  }

  lemma ReloadingDeletesNothing(s: State, t: nat, choice: Choice)
    requires t < |s.threads| && InReload(s.threads[t])
    ensures Undeleting(s, ReloadStep(s, t, choice), t)
  {
  }

  lemma OverwritingDeletesNothing(s: State, t: nat)
    requires t < |s.threads| && InOverwrite(s.threads[t])
    ensures Undeleting(s, OverwriteStep(s, t), t)
  {
  }

  lemma OnlyDeleteDeletes(s: State, t: nat, choice: Choice)
    requires Enabled(s, t, choice) && !InDelete(s.threads[t])
    ensures Undeleting(s, Step(s, t, choice), t)
  {
    var pc := s.threads[t];
    if InSearch(pc) { SearchingDeletesNothing(s, t); }
    else if InStage(pc) { StagingDeletesNothing(s, t, choice); }
    else if InCommit(pc) { CommittingDeletesNothing(s, t); }
    else if InSwap(pc) { SwappingDeletesNothing(s, t); }
    else if InDiscard(pc) { DiscardingDeletesNothing(s, t); }
    else if InReload(pc) { ReloadingDeletesNothing(s, t, choice); }
    else { OverwritingDeletesNothing(s, t); }
  }

  // ---------- schedules without Delete

  ghost predicate NoDelete(s: State) {
    s.deleted == {} && forall t :: 0 <= t < |s.threads| ==> !InDelete(s.threads[t])
  }

  lemma {:induction false} NoDeleteOverRuns(s: State, run: Schedule)
    requires NoDelete(s) && Run(s, run)
    ensures NoDelete(After(s, run))
    decreases |run|
  {
    if run != [] {
      OnlyDeleteDeletes(s, run[0].0, run[0].1);
      NoDeleteOverRuns(Step(s, run[0].0, run[0].1), run[1..]);
    }
  }

  /** Without Delete: a search inside the lock works on the one serving handle, which is open and was
      loaded for the revision served with it; nothing is ever freed twice; and every handle ever
      opened is freed, serving, staged, in a thread's hands or was overwritten by Reload. */
  lemma SearchesNeverTouchFreedHandles(s: State, run: Schedule)
    requires Initial(s) && NoDelete(s) && Run(s, run)
    ensures var t := After(s, run);
      && (forall i :: 0 <= i < |t.threads| && t.threads[i].Searching? ==>
            t.threads[i].seen == t.index && t.threads[i].seen !in t.freed
            && t.threads[i].seen in t.loadRev && t.loadRev[t.threads[i].seen] == t.revision)
      && (forall h :: t.freed[h] <= 1)
      && Accounted(t)
  {
    InitialInv(s);
    InvariantOverRuns(s, run);
    NoDeleteOverRuns(s, run);
    UndeletedIsSafe(After(s, run));
  }

  lemma UndeletedIsSafe(t: State)
    requires Inv(t) && NoDelete(t)
    ensures forall i :: 0 <= i < |t.threads| && t.threads[i].Searching? ==>
                          t.threads[i].seen == t.index && t.threads[i].seen !in t.freed
                          && t.threads[i].seen in t.loadRev && t.loadRev[t.threads[i].seen] == t.revision
    ensures forall h :: t.freed[h] <= 1
  {
    forall i | 0 <= i < |t.threads| && t.threads[i].Searching? ensures t.threads[i].seen == t.index {
      assert PcOk(t, t.threads[i]);
    }
    forall h ensures t.freed[h] <= 1 {
      assert h in t.freed ==> h !in t.deleted;
    }
  }

  /** When all operations are over and no Reload has overwritten anything, exactly the serving handle
      and the staged one, if any, are still open. */
  lemma NothingLeaksWithoutReload(s: State, run: Schedule)
    requires Initial(s) && NoDelete(s) && Run(s, run)
    requires forall i :: 0 <= i < |After(s, run).threads| ==> After(s, run).threads[i] == Done
    requires After(s, run).leaked == {}
    ensures var t := After(s, run);
      forall h :: h in t.loadRev && h !in t.freed <==> h == t.index || t.staged == Some(h)
  {
    InitialInv(s);
    InvariantOverRuns(s, run);
    NoDeleteOverRuns(s, run);
    AllAtRest(After(s, run));
  }

  lemma AllAtRest(t: State)
    requires Inv(t) && NoDelete(t) && t.leaked == {} && forall i :: 0 <= i < |t.threads| ==> t.threads[i] == Done
    ensures forall h :: h in t.loadRev && h !in t.freed <==> h == t.index || t.staged == Some(h)
  {
  }
}
