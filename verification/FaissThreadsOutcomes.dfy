/**
 Which calls each operation makes over a whole schedule.  A CommitStaged swaps if and only if it finds the
 expected revision staged when it gets `stagedMu`, however long it then waits for the readers; a
 StageReload stages what it has downloaded if and only if nobody else was reloading and that is newer.
 */
module FaissThreadsOutcomes {
  import opened Options
  import opened FaissThreads
  import opened FaissThreadsSafety
  import opened FaissThreadsProgress
  import opened FaissThreadsRevisions
  import opened FaissThreadsRefinement
  import F = FaissIndexes

  // ---------- a schedule as a sequence of calls

  /** The calls of a schedule in their order. */
  function Calls(s: State, run: Schedule): seq<Call>
    requires Run(s, run)
    decreases |run|
  {
    if run == [] then []
    else NextCall(s.threads[run[0].0]) + Calls(Step(s, run[0].0, run[0].1), run[1..])
  }

  lemma EffectsAppend(x: F.State, a: seq<Call>, b: seq<Call>)
    requires |a| <= 1
    ensures Effects(x, a + b) == Effects(Effects(x, a), b)
  {
    if a != [] {
      assert a == [a[0]] && (a + b)[1..] == b && a[1..] == [];
    } else {
      assert a + b == b;
    }
  }

  lemma StepObject(s: State, t: nat, choice: Choice)
    requires Inv(s) && Enabled(s, t, choice)
    ensures Inv(Step(s, t, choice)) && Object(Step(s, t, choice)) == Effects(Object(s), NextCall(s.threads[t]))
  {
    StepLocks(s, t, choice);
    StepMemory(s, t, choice);
    StepAccounted(s, t, choice);
    StepIsCall(s, t, choice);
  }

  lemma OneCallAtATime(pc: Pc)
    ensures |NextCall(pc)| <= 1
  {
  }

  /** Whatever the schedule, the object is what its calls make of it one after another. */
  lemma {:induction false} SchedulesAreCalls(s: State, run: Schedule)
    requires Inv(s) && Run(s, run)
    ensures Object(After(s, run)) == Effects(Object(s), Calls(s, run))
    decreases |run|
  {
    if run != [] {
      var u, pc := Step(s, run[0].0, run[0].1), s.threads[run[0].0];
      StepObject(s, run[0].0, run[0].1);
      SchedulesAreCalls(u, run[1..]);
      OneCallAtATime(pc);
      EffectsAppend(Object(s), NextCall(pc), Calls(u, run[1..]));
    }
  }

  // ---------- the states of a schedule

  /** The states that a schedule goes through. */
  function States(s: State, run: Schedule): (path: seq<State>)
    requires Run(s, run)
    ensures |path| == |run| + 1
    decreases |run|
  {
    [s] + if run == [] then [] else States(Step(s, run[0].0, run[0].1), run[1..])
  }

  ghost predicate Goes(a: State, move: (nat, Choice), b: State) {
    Enabled(a, move.0, move.1) && b == Step(a, move.0, move.1)
  }

  lemma {:induction false} StatesGo(s: State, run: Schedule, k: nat)
    requires Run(s, run) && k < |run|
    ensures Goes(States(s, run)[k], run[k], States(s, run)[k + 1])
    decreases k
  {
    if k > 0 {
      StatesGo(Step(s, run[0].0, run[0].1), run[1..], k - 1);
    }
  }

  lemma {:induction false} StatesEnd(s: State, run: Schedule)
    requires Run(s, run)
    ensures States(s, run)[0] == s && States(s, run)[|run|] == After(s, run)
    decreases |run|
  {
    if run != [] {
      StatesEnd(Step(s, run[0].0, run[0].1), run[1..]);
    }
  }

  // ---------- the calls of one thread

  /** `pcs` are the program counters of thread `t` along a schedule. */
  ghost predicate PcsAre(path: seq<State>, t: nat, pcs: seq<Pc>) {
    |pcs| == |path| && forall k :: 0 <= k < |path| ==> t < |path[k].threads| && path[k].threads[t] == pcs[k]
  }

  /** What thread `t` calls at each step of the schedule. */
  function Made(run: Schedule, pcs: seq<Pc>, t: nat): seq<seq<Call>>
    requires |pcs| == |run| + 1
  {
    seq(|run|, k requires 0 <= k < |run| => if run[k].0 == t then NextCall(pcs[k]) else [])
  }

  function Joined(parts: seq<seq<Call>>, i: nat): seq<Call>
    decreases |parts| - i
  {
    if i >= |parts| then [] else parts[i] + Joined(parts, i + 1)
  }

  /** The calls that thread `t` makes from step `i` on. */
  function CallsFrom(run: Schedule, pcs: seq<Pc>, t: nat, i: nat): seq<Call>
    requires |pcs| == |run| + 1
  {
    Joined(Made(run, pcs, t), i)
  }

  lemma {:induction false} JoinedSkips(parts: seq<seq<Call>>, i: nat, j: nat)
    requires i <= j <= |parts| && forall k :: i <= k < j ==> parts[k] == []
    ensures Joined(parts, i) == Joined(parts, j)
    decreases j - i
  {
    if i < j { JoinedSkips(parts, i + 1, j); }
  }

  lemma {:induction false} JoinedIsLeft(parts: seq<seq<Call>>, left: seq<Option<seq<Call>>>, i: nat)
    requires |left| == |parts| + 1 && i <= |parts| && left[i].Some? && left[|parts|] == Some([])
    requires forall k :: 0 <= k < |parts| && left[k].Some? ==>
               left[k + 1].Some? && left[k].value == parts[k] + left[k + 1].value
    ensures Joined(parts, i) == left[i].value
    decreases |parts| - i
  {
    if i < |parts| {
      JoinedIsLeft(parts, left, i + 1);
    }
  }

  /** The calls that an operation still makes, once that is decided. */
  function Left(pc: Pc): Option<seq<Call>> {
    match pc
    case StageStart => None
    case StageLocked => None
    case StageWantRead => None
    case StageReading => None
    case StageDownloading(_) => None
    case StageLoaded(h, rev) => Some([Stages(h, rev)])
    case CommitStart(_) => None
    case CommitLocked(_) => None
    case CommitWantWrite(expected) => Some([Commits(expected)])
    case CommitWaiting(expected) => Some([Commits(expected)])
    case CommitWriting(expected) => Some([Commits(expected)])
    case DiscardStart => Some([Discards])
    case DiscardLocked => Some([Discards])
    case ReloadStart => None
    case ReloadWantRead => None
    case ReloadReading => None
    case ReloadFetched(_) => None
    case ReloadWantWrite(h, rev) => Some([Overwrites(h, rev)])
    case ReloadWaiting(h, rev) => Some([Overwrites(h, rev)])
    case ReloadWriting(h, rev) => Some([Overwrites(h, rev)])
    case DeleteStart => Some([Discards, FreesIndex])
    case DeleteLocked => Some([Discards, FreesIndex])
    case DeleteReleasing => Some([FreesIndex])
    case DeleteWantWrite => Some([FreesIndex])
    case DeleteWaiting => Some([FreesIndex])
    case DeleteWriting => Some([FreesIndex])
    case _ => Some([])
  }

  ghost predicate KeepsLeft(was: Pc, pc: Pc) {
    Left(was).Some? ==> Left(pc).Some? && Left(was).value == NextCall(was) + Left(pc).value
  }

  lemma SearchLeft(s: State, t: nat)
    requires t < |s.threads| && InSearch(s.threads[t])
    ensures KeepsLeft(s.threads[t], SearchStep(s, t).threads[t])
  {
  }

  lemma StageLeft(s: State, t: nat, choice: Choice)
    requires t < |s.threads| && InStage(s.threads[t])
    ensures KeepsLeft(s.threads[t], StageStep(s, t, choice).threads[t])
  {
  }

  lemma CommitLeft(s: State, t: nat)
    requires t < |s.threads| && InCommit(s.threads[t])
    ensures KeepsLeft(s.threads[t], CommitStep(s, t).threads[t])
  {
  }

  lemma SwapLeft(s: State, t: nat)
    requires t < |s.threads| && (s.threads[t].CommitWaiting? || s.threads[t].CommitWriting?)
    ensures KeepsLeft(s.threads[t], SwapStep(s, t).threads[t])
  {
  }

  lemma SwappedLeft(s: State, t: nat)
    requires t < |s.threads| && (s.threads[t].CommitSwapped? || s.threads[t].CommitFreeing?)
    ensures KeepsLeft(s.threads[t], SwapStep(s, t).threads[t])
  {
  }

  lemma DiscardLeft(s: State, t: nat)
    requires t < |s.threads| && (s.threads[t].DiscardStart? || s.threads[t].DiscardLocked?)
    ensures KeepsLeft(s.threads[t], DiscardStep(s, t).threads[t])
  {
  }

  lemma PeekLeft(s: State, t: nat)
    requires t < |s.threads| && (s.threads[t].PeekStart? || s.threads[t].PeekLocked? || s.threads[t].Releasing?)
    ensures KeepsLeft(s.threads[t], DiscardStep(s, t).threads[t])
  {
  }

  lemma ReloadLeft(s: State, t: nat, choice: Choice)
    requires t < |s.threads| && InReload(s.threads[t])
    ensures KeepsLeft(s.threads[t], ReloadStep(s, t, choice).threads[t])
  {
  }

  lemma OverwriteLeft(s: State, t: nat)
    requires t < |s.threads| && InOverwrite(s.threads[t])
    ensures KeepsLeft(s.threads[t], OverwriteStep(s, t).threads[t])
  {
  }

  lemma DropLeft(s: State, t: nat)
    requires t < |s.threads| && (s.threads[t].DeleteStart? || s.threads[t].DeleteLocked?)
    ensures KeepsLeft(s.threads[t], DeleteStep(s, t).threads[t])
  {
  }

  lemma ReleasingLeft(s: State, t: nat)
    requires t < |s.threads| && (s.threads[t].DeleteReleasing? || s.threads[t].DeleteWantWrite?)
    ensures KeepsLeft(s.threads[t], DeleteStep(s, t).threads[t])
  {
  }

  lemma EraseLeft(s: State, t: nat)
    requires t < |s.threads|
             && (s.threads[t].DeleteWaiting? || s.threads[t].DeleteWriting? || s.threads[t].DeleteWritten?)
    ensures KeepsLeft(s.threads[t], DeleteStep(s, t).threads[t])
  {
  }

  lemma StepLeft(s: State, t: nat, choice: Choice)
    requires Enabled(s, t, choice)
    ensures |Step(s, t, choice).threads| == |s.threads| && KeepsLeft(s.threads[t], Step(s, t, choice).threads[t])
  {
    var pc := s.threads[t];
    StepCloser(s, t, choice);
    if InSearch(pc) { SearchLeft(s, t); }
    else if InStage(pc) { StageLeft(s, t, choice); }
    else if InCommit(pc) { CommitLeft(s, t); }
    else if pc.CommitSwapped? || pc.CommitFreeing? { SwappedLeft(s, t); }
    else if InSwap(pc) { SwapLeft(s, t); }
    else if pc.DiscardStart? || pc.DiscardLocked? { DiscardLeft(s, t); }
    else if InDiscard(pc) { PeekLeft(s, t); }
    else if InReload(pc) { ReloadLeft(s, t, choice); }
    else if pc.DeleteStart? || pc.DeleteLocked? { DropLeft(s, t); }
    else if pc.DeleteReleasing? || pc.DeleteWantWrite? { ReleasingLeft(s, t); }
    else if InDelete(pc) { EraseLeft(s, t); }
    else { OverwriteLeft(s, t); }
  }

  /** The thread moves at its own steps only. */
  ghost predicate Stays(run: Schedule, pcs: seq<Pc>, t: nat) {
    && |pcs| == |run| + 1
    && forall k {:trigger run[k]} :: 0 <= k < |run| && run[k].0 != t ==> pcs[k + 1] == pcs[k]
  }

  ghost predicate KeepsAt(run: Schedule, pcs: seq<Pc>, t: nat, k: nat)
    requires k < |run| < |pcs|
  {
    run[k].0 == t ==> KeepsLeft(pcs[k], pcs[k + 1])
  }

  /** And then it keeps what it has left to call. */
  ghost predicate Keeps(run: Schedule, pcs: seq<Pc>, t: nat) {
    |pcs| == |run| + 1 && forall k: nat {:trigger KeepsAt(run, pcs, t, k)} :: k < |run| ==> KeepsAt(run, pcs, t, k)
  }

  lemma OneStep(a: State, move: (nat, Choice), b: State, t: nat)
    requires Goes(a, move, b) && t < |a.threads|
    ensures |b.threads| == |a.threads|
    ensures if move.0 == t then KeepsLeft(a.threads[t], b.threads[t]) else b.threads[t] == a.threads[t]
  {
    StepCloser(a, move.0, move.1);
    if move.0 == t { StepLeft(a, t, move.1); }
  }

  /** The program counters of a thread along a schedule. */
  lemma {:induction false} PcsOf(s: State, run: Schedule, t: nat) returns (pcs: seq<Pc>)
    requires Run(s, run) && t < |s.threads|
    ensures PcsAre(States(s, run), t, pcs) && Stays(run, pcs, t) && Keeps(run, pcs, t)
    decreases |run|
  {
    if run == [] {
      pcs := [s.threads[t]];
    } else {
      var u := Step(s, run[0].0, run[0].1);
      OneStep(s, run[0], u, t);
      var rest := PcsOf(u, run[1..], t);
      pcs := [s.threads[t]] + rest;
      PcsCons(s, u, run, States(u, run[1..]), rest, t);
    }
  }

  lemma PcsCons(s: State, u: State, run: Schedule, path: seq<State>, rest: seq<Pc>, t: nat)
    requires run != [] && t < |s.threads| && PcsAre(path, t, rest) && Stays(run[1..], rest, t)
             && Keeps(run[1..], rest, t) && path[0] == u
    requires t < |u.threads|
    requires if run[0].0 == t then KeepsLeft(s.threads[t], u.threads[t]) else u.threads[t] == s.threads[t]
    ensures PcsAre([s] + path, t, [s.threads[t]] + rest) && Stays(run, [s.threads[t]] + rest, t)
            && Keeps(run, [s.threads[t]] + rest, t)
  {
    var pcs := [s.threads[t]] + rest;
    forall k: nat | k < |run| ensures KeepsAt(run, pcs, t, k) && (run[k].0 != t ==> pcs[k + 1] == pcs[k]) {
      if k > 0 { assert KeepsAt(run[1..], rest, t, k - 1) && run[1..][k - 1] == run[k]; }
    }
  }

  /** Once decided, an operation that finishes makes exactly the calls it has left. */
  lemma MakesWhatIsLeft(run: Schedule, pcs: seq<Pc>, t: nat, i: nat)
    requires Stays(run, pcs, t) && Keeps(run, pcs, t) && i <= |run| && Left(pcs[i]).Some? && pcs[|run|] == Done
    ensures CallsFrom(run, pcs, t, i) == Left(pcs[i]).value
  {
    var parts, left := Made(run, pcs, t), seq(|pcs|, k requires 0 <= k < |pcs| => Left(pcs[k]));
    forall k | 0 <= k < |parts| && left[k].Some?
      ensures left[k + 1].Some? && left[k].value == parts[k] + left[k + 1].value
    {
      LeftAt(run, pcs, t, k);
    }
    JoinedIsLeft(parts, left, i);
  }

  lemma LeftAt(run: Schedule, pcs: seq<Pc>, t: nat, k: nat)
    requires Stays(run, pcs, t) && Keeps(run, pcs, t) && k < |run| && Left(pcs[k]).Some?
    ensures Left(pcs[k + 1]).Some? && Left(pcs[k]).value == Made(run, pcs, t)[k] + Left(pcs[k + 1]).value
  {
    assert KeepsAt(run, pcs, t, k);
  }

  /** Until its next step the thread stays where it is. */
  lemma {:induction false} NextOwn(run: Schedule, pcs: seq<Pc>, t: nat, i: nat) returns (j: nat)
    requires Stays(run, pcs, t) && i <= |run|
    ensures i <= j <= |run| && (j < |run| ==> run[j].0 == t) && pcs[j] == pcs[i]
    ensures forall k :: i <= k < j ==> run[k].0 != t
    decreases |run| - i
  {
    if i == |run| || run[i].0 == t {
      j := i;
    } else {
      j := NextOwn(run, pcs, t, i + 1);
    }
  }

  /** The next move of a thread that is not done and calls nothing with it. */
  lemma NextMove(run: Schedule, pcs: seq<Pc>, t: nat, i: nat) returns (j: nat)
    requires Stays(run, pcs, t) && i <= |run| && pcs[i] != Done && pcs[|run|] == Done && NextCall(pcs[i]) == []
    ensures i <= j < |run| && run[j].0 == t && pcs[j] == pcs[i]
    ensures CallsFrom(run, pcs, t, i) == CallsFrom(run, pcs, t, j + 1)
  {
    j := NextOwn(run, pcs, t, i);
    JoinedSkips(Made(run, pcs, t), i, j + 1);
  }

  // ---------- the decisions

  /** Where the first two moves of CommitStaged lead. */
  lemma CommitMoves(v: State, u: State, move: (nat, Choice), e: int)
    requires Goes(v, move, u) && v.threads[move.0] in {CommitStart(e), CommitLocked(e)}
    ensures move.0 < |u.threads|
    ensures v.threads[move.0] == CommitStart(e) ==> u.threads[move.0] == CommitLocked(e)
    ensures v.threads[move.0] == CommitLocked(e) ==>
              Left(u.threads[move.0]) == Some(if F.Matches(Object(v), e) then [Commits(e)] else [])
  {
    assert u == CommitStep(v, move.0);
  }

  /** The moves of CommitStaged(e) among the steps of a schedule. */
  ghost predicate CommitAt(run: Schedule, pcs: seq<Pc>, t: nat, e: int, path: seq<State>, k: nat)
    requires |path| == |pcs| == |run| + 1 && k < |run|
  {
    run[k].0 == t ==>
      && (pcs[k] == CommitStart(e) ==> pcs[k + 1] == CommitLocked(e))
      && (pcs[k] == CommitLocked(e) ==>
          Left(pcs[k + 1]) == Some(if F.Matches(Object(path[k]), e) then [Commits(e)] else []))
  }

  ghost predicate CommitSteps(run: Schedule, pcs: seq<Pc>, t: nat, e: int, path: seq<State>) {
    && |path| == |pcs| == |run| + 1
    && forall k: nat {:trigger CommitAt(run, pcs, t, e, path, k)} :: k < |run| ==> CommitAt(run, pcs, t, e, path, k)
  }

  lemma CommitStepsOf(s: State, run: Schedule, t: nat, e: int, pcs: seq<Pc>)
    requires Run(s, run) && PcsAre(States(s, run), t, pcs)
    ensures CommitSteps(run, pcs, t, e, States(s, run))
  {
    var path := States(s, run);
    forall k: nat | k < |run| ensures CommitAt(run, pcs, t, e, path, k) {
      StatesGo(s, run, k);
      if run[k].0 == t && pcs[k] in {CommitStart(e), CommitLocked(e)} {
        CommitMoves(path[k], path[k + 1], run[k], e);
      }
    }
  }

  lemma CommitStepsDecide(run: Schedule, pcs: seq<Pc>, t: nat, e: int, path: seq<State>) returns (i: nat)
    requires CommitSteps(run, pcs, t, e, path) && Stays(run, pcs, t) && Keeps(run, pcs, t)
    requires pcs[0] == CommitStart(e) && pcs[|run|] == Done
    ensures i < |run| && run[i].0 == t && pcs[i] == CommitLocked(e)
    ensures CallsFrom(run, pcs, t, 0) == if F.Matches(Object(path[i]), e) then [Commits(e)] else []
  {
    var j := NextMove(run, pcs, t, 0);
    assert CommitAt(run, pcs, t, e, path, j);
    i := NextMove(run, pcs, t, j + 1);
    assert CommitAt(run, pcs, t, e, path, i);
    MakesWhatIsLeft(run, pcs, t, i + 1);
  }

  /** CommitStaged(e) over a whole schedule: at step `i` it has got `stagedMu`, and it makes the one call
      Commits(e) if `e` is what is staged then, and no call otherwise. */
  lemma CommitDecides(s: State, run: Schedule, t: nat, e: int) returns (pcs: seq<Pc>, i: nat)
    requires Run(s, run) && t < |s.threads| && s.threads[t] == CommitStart(e)
    requires t < |After(s, run).threads| && After(s, run).threads[t] == Done
    ensures PcsAre(States(s, run), t, pcs) && i < |run| && run[i].0 == t && pcs[i] == CommitLocked(e)
    ensures CallsFrom(run, pcs, t, 0) == if F.Matches(Object(States(s, run)[i]), e) then [Commits(e)] else []
  {
    pcs := PcsOf(s, run, t);
    StatesEnd(s, run);
    CommitStepsOf(s, run, t, e, pcs);
    i := CommitStepsDecide(run, pcs, t, e, States(s, run));
  }

  /** Where the moves of StageReload lead, up to the decision. */
  lemma StageMoves(v: State, u: State, move: (nat, Choice))
    requires Goes(v, move, u) && InStage(v.threads[move.0])
    ensures move.0 < |u.threads|
    ensures var was, pc := v.threads[move.0], u.threads[move.0];
      && (was.StageStart? ==> pc.StageLocked?)
      && (was.StageLocked? ==> if v.flag then Left(pc) == Some([]) else pc.StageWantRead?)
      && (was.StageWantRead? ==> pc.StageReading?)
      && (was.StageReading? ==> pc == StageDownloading(v.revision))
  {
    assert u == StageStep(v, move.0, move.1);
  }

  /** What a download has brought is staged if it is newer than the revision that was read. */
  function AfterDownload(choice: Choice, current: int): seq<Call> {
    if choice.Succeed? && choice.rev > current then [Stages(choice.h, choice.rev)] else []
  }

  lemma DownloadMoves(v: State, u: State, move: (nat, Choice))
    requires Goes(v, move, u) && v.threads[move.0].StageDownloading?
    ensures move.0 < |u.threads|
    ensures Left(u.threads[move.0]) == Some(AfterDownload(move.1, v.threads[move.0].current))
  {
    assert u == StageStep(v, move.0, move.1);
  }

  /** The moves of StageReload among the steps of a schedule. */
  ghost predicate StageAt(run: Schedule, pcs: seq<Pc>, t: nat, path: seq<State>, k: nat)
    requires |path| == |pcs| == |run| + 1 && k < |run|
  {
    run[k].0 == t ==>
      && (pcs[k].StageStart? ==> pcs[k + 1].StageLocked?)
      && (pcs[k].StageLocked? ==> if path[k].flag then Left(pcs[k + 1]) == Some([]) else pcs[k + 1].StageWantRead?)
      && (pcs[k].StageWantRead? ==> pcs[k + 1].StageReading?)
      && (pcs[k].StageReading? ==> pcs[k + 1] == StageDownloading(path[k].revision))
      && (pcs[k].StageDownloading? ==> Left(pcs[k + 1]) == Some(AfterDownload(run[k].1, pcs[k].current)))
  }

  ghost predicate StageSteps(run: Schedule, pcs: seq<Pc>, t: nat, path: seq<State>) {
    && |path| == |pcs| == |run| + 1
    && forall k: nat {:trigger StageAt(run, pcs, t, path, k)} :: k < |run| ==> StageAt(run, pcs, t, path, k)
  }

  lemma StageStepsOf(s: State, run: Schedule, t: nat, pcs: seq<Pc>)
    requires Run(s, run) && PcsAre(States(s, run), t, pcs)
    ensures StageSteps(run, pcs, t, States(s, run))
  {
    var path := States(s, run);
    forall k: nat | k < |run| ensures StageAt(run, pcs, t, path, k) {
      StatesGo(s, run, k);
      if run[k].0 == t && InStage(pcs[k]) {
        StageMoves(path[k], path[k + 1], run[k]);
        if pcs[k].StageDownloading? { DownloadMoves(path[k], path[k + 1], run[k]); }
      }
    }
  }

  /** From the entry into `rw` on: at step `j` it reads the revision that is served, and at step `k` the
      download comes back. */
  lemma DownloadDecides(run: Schedule, pcs: seq<Pc>, t: nat, path: seq<State>, i: nat) returns (j: nat, k: nat)
    requires StageSteps(run, pcs, t, path) && Stays(run, pcs, t) && Keeps(run, pcs, t)
    requires i <= |run| && pcs[i].StageWantRead? && pcs[|run|] == Done
    ensures i < j < k < |run| && run[j].0 == run[k].0 == t && pcs[j].StageReading?
    ensures pcs[k] == StageDownloading(path[j].revision)
    ensures CallsFrom(run, pcs, t, i) == AfterDownload(run[k].1, path[j].revision)
  {
    var m := NextMove(run, pcs, t, i);
    assert StageAt(run, pcs, t, path, m);
    j := NextMove(run, pcs, t, m + 1);
    assert StageAt(run, pcs, t, path, j);
    k := NextMove(run, pcs, t, j + 1);
    assert StageAt(run, pcs, t, path, k);
    MakesWhatIsLeft(run, pcs, t, k + 1);
  }

  lemma StageStepsDecide(run: Schedule, pcs: seq<Pc>, t: nat, path: seq<State>) returns (i: nat, j: nat, k: nat)
    requires StageSteps(run, pcs, t, path) && Stays(run, pcs, t) && Keeps(run, pcs, t)
    requires pcs[0] == StageStart && pcs[|run|] == Done
    ensures i < |run| && run[i].0 == t && pcs[i] == StageLocked
    ensures path[i].flag ==> CallsFrom(run, pcs, t, 0) == []
    ensures !path[i].flag ==>
              && i < j < k < |run| && run[j].0 == run[k].0 == t
              && pcs[j] == StageReading && pcs[k] == StageDownloading(path[j].revision)
              && CallsFrom(run, pcs, t, 0) == AfterDownload(run[k].1, path[j].revision)
  {
    var m := NextMove(run, pcs, t, 0);
    assert StageAt(run, pcs, t, path, m);
    i := NextMove(run, pcs, t, m + 1);
    assert StageAt(run, pcs, t, path, i);
    j, k := 0, 0;
    if path[i].flag {
      MakesWhatIsLeft(run, pcs, t, i + 1);
    } else {
      j, k := DownloadDecides(run, pcs, t, path, i + 1);
    }
  }

  /** StageReload over a whole schedule: at step `i` it tries the flag.  If somebody else is reloading it
      makes no call.  Otherwise at step `j` it reads the revision that is served, at step `k` the
      download comes back, and it stages what that has brought if it is newer; and it makes no other call. */
  lemma StageDecides(s: State, run: Schedule, t: nat) returns (pcs: seq<Pc>, i: nat, j: nat, k: nat)
    requires Run(s, run) && t < |s.threads| && s.threads[t] == StageStart
    requires t < |After(s, run).threads| && After(s, run).threads[t] == Done
    ensures PcsAre(States(s, run), t, pcs) && i < |run| && run[i].0 == t && pcs[i] == StageLocked
    ensures States(s, run)[i].flag ==> CallsFrom(run, pcs, t, 0) == []
    ensures !States(s, run)[i].flag ==>
              && i < j < k < |run| && run[j].0 == run[k].0 == t
              && pcs[j] == StageReading && pcs[k] == StageDownloading(States(s, run)[j].revision)
              && CallsFrom(run, pcs, t, 0) == AfterDownload(run[k].1, States(s, run)[j].revision)
  {
    pcs := PcsOf(s, run, t);
    StatesEnd(s, run);
    StageStepsOf(s, run, t, pcs);
    i, j, k := StageStepsDecide(run, pcs, t, States(s, run));
  }

  // ---------- Reload

  /** What Reload has downloaded and read it serves, whatever its revision. */
  function AfterRead(choice: Choice, rev: int): seq<Call> {
    if choice.Succeed? then [Overwrites(choice.h, rev)] else []
  }

  lemma ReloadMoves(v: State, u: State, move: (nat, Choice))
    requires Goes(v, move, u) && InReload(v.threads[move.0])
    ensures move.0 < |u.threads|
    ensures var was, pc := v.threads[move.0], u.threads[move.0];
      && (was.ReloadStart? ==> if v.flag then Left(pc) == Some([]) else pc.ReloadWantRead?)
      && (was.ReloadWantRead? ==> pc.ReloadReading?)
      && (was.ReloadReading? ==> if move.1.Succeed? then pc == ReloadFetched(move.1.rev) else Left(pc) == Some([]))
      && (was.ReloadFetched? ==> Left(pc) == Some(AfterRead(move.1, was.rev)))
  {
    assert u == ReloadStep(v, move.0, move.1);
  }

  ghost predicate ReloadAt(run: Schedule, pcs: seq<Pc>, t: nat, path: seq<State>, k: nat)
    requires |path| == |pcs| == |run| + 1 && k < |run|
  {
    run[k].0 == t ==>
      && (pcs[k].ReloadStart? ==> if path[k].flag then Left(pcs[k + 1]) == Some([]) else pcs[k + 1].ReloadWantRead?)
      && (pcs[k].ReloadWantRead? ==> pcs[k + 1].ReloadReading?)
      && (pcs[k].ReloadReading? ==>
          if run[k].1.Succeed? then pcs[k + 1] == ReloadFetched(run[k].1.rev) else Left(pcs[k + 1]) == Some([]))
      && (pcs[k].ReloadFetched? ==> Left(pcs[k + 1]) == Some(AfterRead(run[k].1, pcs[k].rev)))
  }

  ghost predicate ReloadSteps(run: Schedule, pcs: seq<Pc>, t: nat, path: seq<State>) {
    && |path| == |pcs| == |run| + 1
    && forall k: nat {:trigger ReloadAt(run, pcs, t, path, k)} :: k < |run| ==> ReloadAt(run, pcs, t, path, k)
  }

  lemma ReloadStepsOf(s: State, run: Schedule, t: nat, pcs: seq<Pc>)
    requires Run(s, run) && PcsAre(States(s, run), t, pcs)
    ensures ReloadSteps(run, pcs, t, States(s, run))
  {
    var path := States(s, run);
    forall k: nat | k < |run| ensures ReloadAt(run, pcs, t, path, k) {
      StatesGo(s, run, k);
      if run[k].0 == t && InReload(pcs[k]) { ReloadMoves(path[k], path[k + 1], run[k]); }
    }
  }

  /** The rest of Reload from the download on, at step `j`. */
  lemma FetchDecides(run: Schedule, pcs: seq<Pc>, t: nat, path: seq<State>, i: nat) returns (j: nat, k: nat)
    requires ReloadSteps(run, pcs, t, path) && Stays(run, pcs, t) && Keeps(run, pcs, t)
    requires i <= |run| && pcs[i].ReloadReading? && pcs[|run|] == Done
    ensures i <= j < |run| && run[j].0 == t && pcs[j] == ReloadReading
    ensures if run[j].1.Fail? then CallsFrom(run, pcs, t, i) == []
            else j < k < |run| && run[k].0 == t && pcs[k] == ReloadFetched(run[j].1.rev)
                 && CallsFrom(run, pcs, t, i) == AfterRead(run[k].1, run[j].1.rev)
  {
    j := NextMove(run, pcs, t, i);
    assert ReloadAt(run, pcs, t, path, j);
    k := 0;
    if run[j].1.Fail? {
      MakesWhatIsLeft(run, pcs, t, j + 1);
    } else {
      k := NextMove(run, pcs, t, j + 1);
      assert ReloadAt(run, pcs, t, path, k);
      MakesWhatIsLeft(run, pcs, t, k + 1);
    }
  }

  lemma ReloadStepsDecide(run: Schedule, pcs: seq<Pc>, t: nat, path: seq<State>) returns (i: nat, j: nat, k: nat)
    requires ReloadSteps(run, pcs, t, path) && Stays(run, pcs, t) && Keeps(run, pcs, t)
    requires pcs[0] == ReloadStart && pcs[|run|] == Done
    ensures i < |run| && run[i].0 == t && pcs[i] == ReloadStart
    ensures path[i].flag ==> CallsFrom(run, pcs, t, 0) == []
    ensures !path[i].flag ==>
              && i < j < |run| && run[j].0 == t && pcs[j] == ReloadReading
              && if run[j].1.Fail? then CallsFrom(run, pcs, t, 0) == []
                 else j < k < |run| && run[k].0 == t && pcs[k] == ReloadFetched(run[j].1.rev)
                      && CallsFrom(run, pcs, t, 0) == AfterRead(run[k].1, run[j].1.rev)
  {
    i := NextMove(run, pcs, t, 0);
    assert ReloadAt(run, pcs, t, path, i);
    j, k := 0, 0;
    if path[i].flag {
      MakesWhatIsLeft(run, pcs, t, i + 1);
    } else {
      var m := NextMove(run, pcs, t, i + 1);
      assert ReloadAt(run, pcs, t, path, m);
      j, k := FetchDecides(run, pcs, t, path, m + 1);
    }
  }

  /** Reload over a whole schedule: at step `i` it tries the flag, at step `j` the download comes back, and at
      step `k` the file has been read.  It serves what it got if nobody else was reloading and neither
      failed, and makes no other call. */
  lemma ReloadDecides(s: State, run: Schedule, t: nat) returns (pcs: seq<Pc>, i: nat, j: nat, k: nat)
    requires Run(s, run) && t < |s.threads| && s.threads[t] == ReloadStart
    requires t < |After(s, run).threads| && After(s, run).threads[t] == Done
    ensures PcsAre(States(s, run), t, pcs) && i < |run| && run[i].0 == t && pcs[i] == ReloadStart
    ensures States(s, run)[i].flag ==> CallsFrom(run, pcs, t, 0) == []
    ensures !States(s, run)[i].flag ==>
              && i < j < |run| && run[j].0 == t && pcs[j] == ReloadReading
              && if run[j].1.Fail? then CallsFrom(run, pcs, t, 0) == []
                 else j < k < |run| && run[k].0 == t && pcs[k] == ReloadFetched(run[j].1.rev)
                      && CallsFrom(run, pcs, t, 0) == AfterRead(run[k].1, run[j].1.rev)
  {
    pcs := PcsOf(s, run, t);
    StatesEnd(s, run);
    ReloadStepsOf(s, run, t, pcs);
    i, j, k := ReloadStepsDecide(run, pcs, t, States(s, run));
  }

  // ---------- the others

  /** Searches, and readers of the staged revision, call nothing; DiscardStaged and Delete make the calls of
      the object, whatever the others do meanwhile. */
  lemma OthersCall(s: State, run: Schedule, t: nat) returns (pcs: seq<Pc>)
    requires Run(s, run) && t < |s.threads| && s.threads[t] in {SearchStart, PeekStart, DiscardStart, DeleteStart}
    requires t < |After(s, run).threads| && After(s, run).threads[t] == Done
    ensures PcsAre(States(s, run), t, pcs)
    ensures CallsFrom(run, pcs, t, 0) ==
            if s.threads[t] == DiscardStart then [Discards]
            else if s.threads[t] == DeleteStart then [Discards, FreesIndex] else []
  {
    pcs := PcsOf(s, run, t);
    StatesEnd(s, run);
    LeftAtStart(pcs[0]);
    MakesWhatIsLeft(run, pcs, t, 0);
  }

  lemma LeftAtStart(pc: Pc)
    requires pc in {SearchStart, PeekStart, DiscardStart, DeleteStart}
    ensures Left(pc) == Some(if pc == DiscardStart then [Discards] else if pc == DeleteStart then [Discards, FreesIndex]
                             else [])
  {
  }

  /** Without Reload the revision it compares with is the one still served when the download comes back. */
  lemma ComparesWithServed(s: State, run: Schedule, t: nat)
    requires Initial(s) && NoReload(s) && Run(s, run)
    requires t < |After(s, run).threads| && After(s, run).threads[t].StageDownloading?
    ensures After(s, run).threads[t].current == After(s, run).revision
  {
    ServedNeverFalls(s, run, []);
    InitialInv(s);
    assert Revs(s) by {
      forall i | 0 <= i < |s.threads| ensures PcNewer(s.threads[i], s.revision) { assert AtStart(s.threads[i]); }
    }
    RunRevs(s, run);
    assert PcNewer(After(s, run).threads[t], After(s, run).revision);
  }

  // ---------- what a commit serves

  /** The points of CommitStaged(e). */
  predicate OfCommit(pc: Pc, e: int) {
    || pc == CommitStart(e) || pc == CommitLocked(e) || pc == CommitWantWrite(e) || pc == CommitWaiting(e)
    || pc == CommitWriting(e) || pc.CommitSwapped? || pc.CommitFreeing? || pc == Releasing || pc == Done
  }

  lemma OfCommitMoves(s: State, t: nat, e: int, choice: Choice)
    requires Enabled(s, t, choice) && OfCommit(s.threads[t], e)
    ensures t < |Step(s, t, choice).threads| && OfCommit(Step(s, t, choice).threads[t], e)
  {
    StepCloser(s, t, choice);
    if InCommit(s.threads[t]) {
      EntryOfCommit(s, t, e);
    } else if InSwap(s.threads[t]) {
      SwapOfCommit(s, t, e);
    } else {
      EndOfCommit(s, t);
    }
  }

  lemma EndOfCommit(s: State, t: nat)
    requires t < |s.threads| && s.threads[t] == Releasing
    ensures DiscardStep(s, t).threads[t] == Done
  {
  }

  lemma EntryOfCommit(s: State, t: nat, e: int)
    requires t < |s.threads| && InCommit(s.threads[t]) && OfCommit(s.threads[t], e)
    ensures OfCommit(CommitStep(s, t).threads[t], e)
  {
  }

  lemma SwapOfCommit(s: State, t: nat, e: int)
    requires t < |s.threads| && InSwap(s.threads[t]) && OfCommit(s.threads[t], e)
    ensures OfCommit(SwapStep(s, t).threads[t], e)
  {
  }

  lemma {:induction false} StaysOfCommit(s: State, run: Schedule, t: nat, e: int)
    requires Run(s, run) && t < |s.threads| && OfCommit(s.threads[t], e)
    ensures t < |After(s, run).threads| && OfCommit(After(s, run).threads[t], e)
    decreases |run|
  {
    if run != [] {
      StepCloser(s, run[0].0, run[0].1);
      if run[0].0 == t { OfCommitMoves(s, t, e, run[0].1); }
      StaysOfCommit(Step(s, run[0].0, run[0].1), run[1..], t, e);
    }
  }

  /** In every schedule, a thread that has begun as CommitStaged(e) changes what is served only to `e`, and
      only when exactly that is staged: its step is the CommitStaged of the object. */
  lemma CommitServesExpected(s: State, run: Schedule, t: nat, e: int, choice: Choice)
    requires Initial(s) && t < |s.threads| && s.threads[t] == CommitStart(e)
    requires Run(s, run) && Enabled(After(s, run), t, choice)
    ensures var v := After(s, run);
      var u := Step(v, t, choice);
      u.index != v.index || u.revision != v.revision ==>
        && v.staged == Some(u.index) && v.stagedRevision == e && u.revision == e
        && Object(u) == F.Committed(Object(v), e)
  {
    InitialInv(s);
    InvariantOverRuns(s, run);
    StaysOfCommit(s, run, t, e);
    OfCommitServes(After(s, run), t, e, choice);
  }

  lemma OfCommitServes(v: State, t: nat, e: int, choice: Choice)
    requires Inv(v) && Enabled(v, t, choice) && OfCommit(v.threads[t], e)
    ensures var u := Step(v, t, choice);
      u.index != v.index || u.revision != v.revision ==>
        && v.staged == Some(u.index) && v.stagedRevision == e && u.revision == e
        && Object(u) == F.Committed(Object(v), e)
  {
    StepIsCall(v, t, choice);
    if v.threads[t].CommitWriting? {
      WritingServes(v, Step(v, t, choice), t);
    } else {
      assert NextCall(v.threads[t]) == [];
    }
  }

  lemma WritingServes(v: State, u: State, t: nat)
    requires PcsOk(v) && t < |v.threads| && v.threads[t].CommitWriting? && IsCall(v, u, t)
    ensures var e := v.threads[t].expected;
      && v.staged == Some(u.index) && v.stagedRevision == e && u.revision == e
      && Object(u) == F.Committed(Object(v), e)
  {
    assert PcOk(v, v.threads[t]);
    OneCall(Object(v), Commits(v.threads[t].expected));
  }
}
