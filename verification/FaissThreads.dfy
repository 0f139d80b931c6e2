/**
 One FaissIndex under concurrency (internal/engine/faiss.go): any number of threads run Search,
 StageReload, CommitStaged, DiscardStaged, StagedRevision, Reload and Delete over the two locks
 `stagedMu` and `rw`, the compare-and-swap flag `reloading`, and native handles that are freed by hand.

 `rw` behaves like Go's RWMutex: a writer first announces itself, which keeps new readers out, and
 gets in when the readers that are inside have left.  What happens under `stagedMu` to the staged
 fields is one step, because nobody looks at them without that lock.
 */
module FaissThreads {
  import opened Options

  type Handle = nat

  datatype Pc =
    | SearchStart
    | Searching(seen: Handle)                   // holds rw for reading, has read f.index once
    | StageStart
    | StageLocked                               // holds stagedMu
    | StageWantRead                             // and the flag
    | StageReading
    | StageDownloading(current: int)
    | StageLoaded(h: Handle, rev: int)
    | StageDone
    | CommitStart(expected: int)
    | CommitLocked(expected: int)
    | CommitWantWrite(expected: int)            // the staged revision was the expected one
    | CommitWaiting(expected: int)              // announced as a writer
    | CommitWriting(expected: int)              // holds rw for writing
    | CommitSwapped(prev: Handle)
    | CommitFreeing(prev: Handle)               // rw released, stagedMu still held
    | DiscardStart
    | DiscardLocked
    | PeekStart                                 // StagedRevision
    | PeekLocked
    | ReloadStart
    | ReloadWantRead                            // holds the flag
    | ReloadReading
    | ReloadFetched(rev: int)
    | ReloadWantWrite(h: Handle, rev: int)
    | ReloadWaiting(h: Handle, rev: int)
    | ReloadWriting(h: Handle, rev: int)
    | ReloadWritten
    | ReloadDone
    | DeleteStart
    | DeleteLocked                              // holds stagedMu, about to free what is staged
    | DeleteReleasing
    | DeleteWantWrite
    | DeleteWaiting
    | DeleteWriting                             // holds rw for writing, about to free f.index
    | DeleteWritten
    | Releasing                                 // about to release stagedMu
    | Done

  datatype State = State(
    mu: Option<nat>,
    writer: Option<nat>,
    readers: set<nat>,
    flag: bool,
    index: Handle,
    revision: int,
    staged: Option<Handle>,
    stagedRevision: int,
    loadRev: map<Handle, int>,    // every handle readIndexFn returned, with the revision it was loaded for
    freed: multiset<Handle>,
    leaked: set<Handle>,          // serving handles that Reload overwrote
    deleted: set<Handle>,         // serving handles that Delete freed; f.index still names them
    threads: seq<Pc>)

  /** What the outside decides: a download or a read of an index file succeeds or fails. */
  datatype Choice = Fail | Succeed(h: Handle, rev: int)

  predicate HoldsMu(pc: Pc) {
    || pc.StageLocked? || pc.StageWantRead? || pc.StageReading? || pc.StageDownloading? || pc.StageLoaded?
    || pc.StageDone?
    || pc.CommitLocked? || pc.CommitWantWrite? || pc.CommitWaiting? || pc.CommitWriting? || pc.CommitSwapped?
    || pc.CommitFreeing?
    || pc.DiscardLocked? || pc.PeekLocked? || pc.DeleteLocked? || pc.DeleteReleasing? || pc.Releasing?
  }

  predicate HoldsRead(pc: Pc) {
    pc.Searching? || pc.StageReading? || pc.ReloadReading?
  }

  predicate HoldsWrite(pc: Pc) {
    pc.CommitWriting? || pc.CommitSwapped? || pc.ReloadWriting? || pc.ReloadWritten? || pc.DeleteWriting?
    || pc.DeleteWritten?
  }

  /** Announced as a writer, and not inside yet. */
  predicate AwaitsReaders(pc: Pc) {
    pc.CommitWaiting? || pc.ReloadWaiting? || pc.DeleteWaiting?
  }

  predicate Announced(pc: Pc) {
    AwaitsReaders(pc) || HoldsWrite(pc)
  }

  predicate HoldsFlag(pc: Pc) {
    || pc.StageWantRead? || pc.StageReading? || pc.StageDownloading? || pc.StageLoaded? || pc.StageDone?
    || pc.ReloadWantRead? || pc.ReloadReading? || pc.ReloadFetched? || pc.ReloadWantWrite? || pc.ReloadWaiting?
    || pc.ReloadWriting? || pc.ReloadWritten? || pc.ReloadDone?
  }

  /** The native handle that only this thread knows about. */
  function Private(pc: Pc): Option<Handle> {
    match pc
    case StageLoaded(h, _) => Some(h)
    case CommitSwapped(prev) => Some(prev)
    case CommitFreeing(prev) => Some(prev)
    case ReloadWantWrite(h, _) => Some(h)
    case ReloadWaiting(h, _) => Some(h)
    case ReloadWriting(h, _) => Some(h)
    case _ => None
  }

  /** The lock a thread has to get before its next step. */
  predicate WantsMu(pc: Pc) {
    pc.StageStart? || pc.CommitStart? || pc.DiscardStart? || pc.PeekStart? || pc.DeleteStart?
  }

  predicate WantsRead(pc: Pc) {
    pc.SearchStart? || pc.StageWantRead? || pc.ReloadWantRead?
  }

  predicate WantsWrite(pc: Pc) {
    pc.CommitWantWrite? || pc.ReloadWantWrite? || pc.DeleteWantWrite?
  }

  predicate Enabled(s: State, t: nat, choice: Choice) {
    && t < |s.threads|
    && s.threads[t] != Done
    && (WantsMu(s.threads[t]) ==> s.mu.None?)
    && (WantsRead(s.threads[t]) || WantsWrite(s.threads[t]) ==> s.writer.None?)
    && (AwaitsReaders(s.threads[t]) ==> s.readers == {})
    && ((s.threads[t].StageDownloading? || s.threads[t].ReloadFetched?) && choice.Succeed? ==> choice.h !in s.loadRev)
  }

  function Goto(s: State, t: nat, pc: Pc): State
    requires t < |s.threads|
  {
    s.(threads := s.threads[t := pc])
  }

  function Free(s: State, h: Handle): State {
    s.(freed := s.freed + multiset{h})
  }

  function SearchStep(s: State, t: nat): State
    requires t < |s.threads|
  {
    match s.threads[t]
    case SearchStart => Goto(s.(readers := s.readers + {t}), t, Searching(s.index))
    case _ => Goto(s.(readers := s.readers - {t}), t, Done)
  }

  function StageStep(s: State, t: nat, choice: Choice): State
    requires t < |s.threads|
  {
    match s.threads[t]
    case StageStart => Goto(s.(mu := Some(t)), t, StageLocked)
    case StageLocked => if s.flag then Goto(s, t, Releasing) else Goto(s.(flag := true), t, StageWantRead)
    case StageWantRead => Goto(s.(readers := s.readers + {t}), t, StageReading)
    case StageReading => Goto(s.(readers := s.readers - {t}), t, StageDownloading(s.revision))
    case StageDownloading(current) =>
      if choice.Succeed? && choice.rev > current
      then Goto(s.(loadRev := s.loadRev[choice.h := choice.rev]), t, StageLoaded(choice.h, choice.rev))
      else Goto(s, t, StageDone)
    case StageLoaded(h, rev) =>
      var s1 := if s.staged.Some? then Free(s, s.staged.value) else s;
      Goto(s1.(staged := Some(h), stagedRevision := rev), t, StageDone)
    case _ => Goto(s.(flag := false), t, Releasing)
  }

  function CommitStep(s: State, t: nat): State
    requires t < |s.threads|
  {
    match s.threads[t]
    case CommitStart(expected) => Goto(s.(mu := Some(t)), t, CommitLocked(expected))
    case CommitLocked(expected) =>
      if s.staged.None? || s.stagedRevision != expected then Goto(s, t, Releasing)
      else Goto(s, t, CommitWantWrite(expected))
    case CommitWantWrite(expected) => Goto(s.(writer := Some(t)), t, CommitWaiting(expected))
    case _ => s
  }

  function SwapStep(s: State, t: nat): State
    requires t < |s.threads|
  {
    match s.threads[t]
    case CommitWaiting(expected) => Goto(s, t, CommitWriting(expected))
    case CommitWriting(_) =>
      if s.staged.None? then Goto(s, t, CommitSwapped(s.index))
      else Goto(s.(index := s.staged.value, revision := s.stagedRevision, staged := None, stagedRevision := 0),
                t, CommitSwapped(s.index))
    case CommitSwapped(prev) => Goto(s.(writer := None), t, CommitFreeing(prev))
    case CommitFreeing(prev) => Goto(Free(s, prev), t, Releasing)
    case _ => s
  }

  function DiscardStep(s: State, t: nat): State
    requires t < |s.threads|
  {
    match s.threads[t]
    case DiscardStart => Goto(s.(mu := Some(t)), t, DiscardLocked)
    case DiscardLocked =>
      if s.staged.Some?
      then Goto(Free(s, s.staged.value).(staged := None, stagedRevision := 0), t, Releasing)
      else Goto(s, t, Releasing)
    case PeekStart => Goto(s.(mu := Some(t)), t, PeekLocked)
    case PeekLocked => Goto(s, t, Releasing)
    case _ => Goto(s.(mu := None), t, Done)
  }

  function ReloadStep(s: State, t: nat, choice: Choice): State
    requires t < |s.threads|
  {
    match s.threads[t]
    case ReloadStart => if s.flag then Goto(s, t, Done) else Goto(s.(flag := true), t, ReloadWantRead)
    case ReloadWantRead => Goto(s.(readers := s.readers + {t}), t, ReloadReading)
    case ReloadReading =>
      if choice.Succeed? then Goto(s.(readers := s.readers - {t}), t, ReloadFetched(choice.rev))
      else Goto(s.(readers := s.readers - {t}), t, ReloadDone)
    case ReloadFetched(rev) =>
      if choice.Succeed? then Goto(s.(loadRev := s.loadRev[choice.h := rev]), t, ReloadWantWrite(choice.h, rev))
      else Goto(s, t, ReloadDone)
    case _ => Goto(s.(flag := false), t, Done)
  }

  function OverwriteStep(s: State, t: nat): State
    requires t < |s.threads|
  {
    match s.threads[t]
    case ReloadWantWrite(h, rev) => Goto(s.(writer := Some(t)), t, ReloadWaiting(h, rev))
    case ReloadWaiting(h, rev) => Goto(s, t, ReloadWriting(h, rev))
    case ReloadWriting(h, rev) =>
      Goto(s.(leaked := s.leaked + {s.index}, index := h, revision := rev), t, ReloadWritten)
    case ReloadWritten => Goto(s.(writer := None), t, ReloadDone)
    case _ => s
  }

  function DeleteStep(s: State, t: nat): State
    requires t < |s.threads|
  {
    match s.threads[t]
    case DeleteStart => Goto(s.(mu := Some(t)), t, DeleteLocked)
    case DeleteLocked =>
      if s.staged.Some?
      then Goto(Free(s, s.staged.value).(staged := None, stagedRevision := 0), t, DeleteReleasing)
      else Goto(s, t, DeleteReleasing)
    case DeleteReleasing => Goto(s.(mu := None), t, DeleteWantWrite)
    case DeleteWantWrite => Goto(s.(writer := Some(t)), t, DeleteWaiting)
    case DeleteWaiting => Goto(s, t, DeleteWriting)
    case DeleteWriting => Goto(Free(s, s.index).(deleted := s.deleted + {s.index}), t, DeleteWritten)
    case _ => Goto(s.(writer := None), t, Done)
  }

  predicate InSearch(pc: Pc) { pc.SearchStart? || pc.Searching? }

  predicate InStage(pc: Pc) {
    || pc.StageStart? || pc.StageLocked? || pc.StageWantRead? || pc.StageReading? || pc.StageDownloading?
    || pc.StageLoaded? || pc.StageDone?
  }

  predicate InCommit(pc: Pc) { pc.CommitStart? || pc.CommitLocked? || pc.CommitWantWrite? }

  predicate InSwap(pc: Pc) { pc.CommitWaiting? || pc.CommitWriting? || pc.CommitSwapped? || pc.CommitFreeing? }

  predicate InDiscard(pc: Pc) {
    pc.DiscardStart? || pc.DiscardLocked? || pc.PeekStart? || pc.PeekLocked? || pc.Releasing?
  }

  predicate InReload(pc: Pc) {
    pc.ReloadStart? || pc.ReloadWantRead? || pc.ReloadReading? || pc.ReloadFetched? || pc.ReloadDone?
  }

  predicate InDelete(pc: Pc) {
    || pc.DeleteStart? || pc.DeleteLocked? || pc.DeleteReleasing? || pc.DeleteWantWrite? || pc.DeleteWaiting?
    || pc.DeleteWriting? || pc.DeleteWritten?
  }

  function Step(s: State, t: nat, choice: Choice): State
    requires Enabled(s, t, choice)
  {
    var pc := s.threads[t];
    if InSearch(pc) then SearchStep(s, t)
    else if InStage(pc) then StageStep(s, t, choice)
    else if InCommit(pc) then CommitStep(s, t)
    else if InSwap(pc) then SwapStep(s, t)
    else if InDiscard(pc) then DiscardStep(s, t)
    else if InReload(pc) then ReloadStep(s, t, choice)
    else if InDelete(pc) then DeleteStep(s, t)
    else OverwriteStep(s, t)
  }

  /** A schedule: which thread moves next and what the outside answers. */
  type Schedule = seq<(nat, Choice)>

  predicate Run(s: State, run: Schedule)
    decreases |run|
  {
    run == [] || (Enabled(s, run[0].0, run[0].1) && Run(Step(s, run[0].0, run[0].1), run[1..]))
  }

  function After(s: State, run: Schedule): State
    requires Run(s, run)
    decreases |run|
  {
    if run == [] then s else After(Step(s, run[0].0, run[0].1), run[1..])
  }

  predicate AtStart(pc: Pc) {
    || pc.SearchStart? || pc.StageStart? || pc.CommitStart? || pc.DiscardStart? || pc.PeekStart? || pc.ReloadStart?
    || pc.DeleteStart?
  }

  /** A freshly loaded index and any set of operations about to begin. */
  ghost predicate Initial(s: State) {
    && s.mu.None? && s.writer.None? && s.readers == {} && !s.flag
    && s.loadRev == map[s.index := s.revision] && s.staged.None? && s.freed == multiset{} && s.leaked == {}
    && s.deleted == {}
    && forall t :: 0 <= t < |s.threads| ==> AtStart(s.threads[t])
  }
}
