/**
 The two locks of a FaissIndex never block for ever: in every reachable state with an unfinished
 operation somebody can take a step, every run is bounded, and so every operation finishes.
 */
module FaissThreadsProgress {
  import opened FaissThreads
  import opened FaissThreadsSafety

  // ---------- deadlock freedom

  /** A thread that is not waiting for a lock can move. */
  lemma CanMove(s: State, t: nat)
    requires t < |s.threads| && s.threads[t] != Done
    requires !WantsMu(s.threads[t]) && !WantsRead(s.threads[t]) && !WantsWrite(s.threads[t])
    requires AwaitsReaders(s.threads[t]) ==> s.readers == {}
    ensures Enabled(s, t, Fail)
  {
  }

  /** Someone inside or in front of `rw` can always move. */
  lemma WriterOrReaderMoves(s: State) returns (t: nat)
    requires Locks(s) && s.writer.Some?
    ensures Enabled(s, t, Fail)
  {
    var w := s.writer.value;
    assert Announced(s.threads[w]);
    if s.readers != {} && AwaitsReaders(s.threads[w]) {
      t :| t in s.readers;
      assert HoldsRead(s.threads[t]);
    } else {
      t := w;
    }
    CanMove(s, t);
  }

  /** In every reachable state with an unfinished operation some thread can take a step.  stagedMu
      is always taken before rw, and nobody asks for rw while inside it. */
  lemma SomebodyCanMove(s: State, u: nat) returns (t: nat)
    requires Locks(s) && u < |s.threads| && s.threads[u] != Done
    ensures Enabled(s, t, Fail)
  {
    if s.writer.Some? {
      t := WriterOrReaderMoves(s);
    } else if !WantsMu(s.threads[u]) {
      assert !AwaitsReaders(s.threads[u]);
      t := u;
    } else if s.mu.None? {
      t := u;
    } else {
      t := s.mu.value;
      assert HoldsMu(s.threads[t]) && !AwaitsReaders(s.threads[t]);
      if !WantsRead(s.threads[t]) && !WantsWrite(s.threads[t]) { CanMove(s, t); }
    }
  }

  /** Steps an operation still has in front of it, at most. */
  function Rank(pc: Pc): nat {
    match pc
    case SearchStart => 2
    case Searching(_) => 1
    case StageStart => 8
    case StageLocked => 7
    case StageWantRead => 6
    case StageReading => 5
    case StageDownloading(_) => 4
    case StageLoaded(_, _) => 3
    case StageDone => 2
    case CommitStart(_) => 8
    case CommitLocked(_) => 7
    case CommitWantWrite(_) => 6
    case CommitWaiting(_) => 5
    case CommitWriting(_) => 4
    case CommitSwapped(_) => 3
    case CommitFreeing(_) => 2
    case DiscardStart => 3
    case DiscardLocked => 2
    case PeekStart => 3
    case PeekLocked => 2
    case ReloadStart => 9
    case ReloadWantRead => 8
    case ReloadReading => 7
    case ReloadFetched(_) => 6
    case ReloadWantWrite(_, _) => 5
    case ReloadWaiting(_, _) => 4
    case ReloadWriting(_, _) => 3
    case ReloadWritten => 2
    case ReloadDone => 1
    case DeleteStart => 7
    case DeleteLocked => 6
    case DeleteReleasing => 5
    case DeleteWantWrite => 4
    case DeleteWaiting => 3
    case DeleteWriting => 2
    case DeleteWritten => 1
    case Releasing => 1
    case Done => 0
  }

  function TotalRank(threads: seq<Pc>): nat {
    if threads == [] then 0 else Rank(threads[0]) + TotalRank(threads[1..])
  }

  lemma {:induction false} TotalRankDrops(threads: seq<Pc>, t: nat, pc: Pc)
    requires t < |threads| && Rank(pc) < Rank(threads[t])
    ensures TotalRank(threads[t := pc]) < TotalRank(threads)
  {
    if t == 0 {
      assert threads[t := pc][1..] == threads[1..];
    } else {
      TotalRankDrops(threads[1..], t - 1, pc);
      assert threads[t := pc][1..] == threads[1..][t - 1 := pc];
    }
  }

  /** The threads after a step: only `t` has moved, and it came closer to its end. */
  ghost predicate Closer(s: State, u: State, t: nat) {
    |u.threads| == |s.threads| && t < |s.threads| && u.threads == s.threads[t := u.threads[t]]
    && Rank(u.threads[t]) < Rank(s.threads[t])
  }

  lemma SearchRank(s: State, t: nat)
    requires t < |s.threads| && InSearch(s.threads[t])
    ensures Closer(s, SearchStep(s, t), t)
  {
  }

  lemma StageRank(s: State, t: nat, choice: Choice)
    requires t < |s.threads| && InStage(s.threads[t])
    ensures Closer(s, StageStep(s, t, choice), t)
  {
  }

  lemma CommitRank(s: State, t: nat)
    requires t < |s.threads| && InCommit(s.threads[t])
    ensures Closer(s, CommitStep(s, t), t)
  {
  }

  lemma SwapRank(s: State, t: nat)
    requires t < |s.threads| && InSwap(s.threads[t])
    ensures Closer(s, SwapStep(s, t), t)
  {
  }

  lemma ReloadRank(s: State, t: nat, choice: Choice)
    requires t < |s.threads| && InReload(s.threads[t])
    ensures Closer(s, ReloadStep(s, t, choice), t)
  {
  }

  lemma OverwriteRank(s: State, t: nat)
    requires t < |s.threads| && InOverwrite(s.threads[t])
    ensures Closer(s, OverwriteStep(s, t), t)
  {
  }

  lemma DiscardRank(s: State, t: nat)
    requires t < |s.threads| && InDiscard(s.threads[t])
    ensures Closer(s, DiscardStep(s, t), t)
  {
  }

  lemma DropRank(s: State, t: nat)
    requires t < |s.threads| && AtMu(s.threads[t])
    ensures Closer(s, DeleteStep(s, t), t)
  {
  }

  lemma EraseRank(s: State, t: nat)
    requires t < |s.threads| && InDelete(s.threads[t]) && !AtMu(s.threads[t])
    ensures Closer(s, DeleteStep(s, t), t)
  {
  }

  /** A step moves its thread and no other. */
  lemma StepCloser(s: State, t: nat, choice: Choice)
    requires Enabled(s, t, choice)
    ensures Closer(s, Step(s, t, choice), t)
  {
    var pc := s.threads[t];
    if InSearch(pc) { SearchRank(s, t); }
    else if InStage(pc) { StageRank(s, t, choice); }
    else if InCommit(pc) { CommitRank(s, t); }
    else if InSwap(pc) { SwapRank(s, t); }
    else if InDiscard(pc) { DiscardRank(s, t); }
    else if InReload(pc) { ReloadRank(s, t, choice); }
    else if AtMu(pc) { DropRank(s, t); }
    else if InDelete(pc) { EraseRank(s, t); }
    else { OverwriteRank(s, t); }
  }

  lemma StepRank(s: State, t: nat, choice: Choice)
    requires Enabled(s, t, choice)
    ensures var u := Step(s, t, choice); |u.threads| == |s.threads| && TotalRank(u.threads) < TotalRank(s.threads)
  {
    StepCloser(s, t, choice);
    TotalRankDrops(s.threads, t, Step(s, t, choice).threads[t]);
  }

  lemma {:induction false} RunsAreBounded(s: State, run: Schedule)
    requires Run(s, run)
    ensures |run| <= TotalRank(s.threads)
    decreases |run|
  {
    if run != [] {
      StepRank(s, run[0].0, run[0].1);
      RunsAreBounded(Step(s, run[0].0, run[0].1), run[1..]);
    }
  }

  /** Every schedule comes to an end, and one that cannot be continued has finished every operation. */
  lemma EverythingFinishes(s: State, run: Schedule)
    requires Initial(s) && Run(s, run)
    ensures |run| <= TotalRank(s.threads)
    ensures (forall t, choice :: !Enabled(After(s, run), t, choice)) ==>
              forall i :: 0 <= i < |After(s, run).threads| ==> After(s, run).threads[i] == Done
  {
    RunsAreBounded(s, run);
    InitialInv(s);
    InvariantOverRuns(s, run);
    var u := After(s, run);
    forall i | 0 <= i < |u.threads| && u.threads[i] != Done
      ensures exists t, choice :: Enabled(u, t, choice)
    {
      var t := SomebodyCanMove(u, i);
    }
  }
}
