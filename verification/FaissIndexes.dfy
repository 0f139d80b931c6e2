/**
 One FaissIndex (internal/engine/faiss.go) used by one thread at a time: what each operation does to
 its fields and to the native handles, which are freed by hand.  Handles are numbered in the order
 in which readIndexFn returned them.
 */
module FaissIndexes {
  import opened Options
  import opened Text
  import Downloads
  import Protocol = RevisionProtocol

  type Handle = nat

  datatype Error =
    | AlreadyReloading
    | DownloaderFailed
    | DownloadFailed(cause: Downloads.Error)
    | ReadFailed
    | NothingStaged
    | OtherRevision(staged: int)

  datatype Result<+T> = Ok(value: T) | Err(error: Error)

  /** What the outside world answers during one StageReload. */
  datatype Attempt = Attempt(downloader: bool, files: Downloads.Files, opens: bool)

  /** `issued` handles have been returned so far; `freed` counts how often each was deleted. */
  datatype State = State(
    index: Handle,
    revision: int,
    stagedIndex: Option<Handle>,
    stagedRevision: int,
    issued: nat,
    freed: multiset<Handle>)

  // ---------- the operations on values

  function Staging(current: int, a: Attempt): Result<int> {
    if !a.downloader then Err(DownloaderFailed)
    else
      var d := Downloads.DownloadUpdate(current, a.files);
      if d.Err? then Err(DownloadFailed(d.error))
      else if a.opens then Ok(d.value) else Err(ReadFailed)
  }

  /** A download from files that show something newer at the first read and `p`, with its file, at the second. */
  predicate Delivers(current: int, files: Downloads.Files, p: int) {
    && Downloads.ReadRevision(files.first).Ok? && Downloads.ReadRevision(files.first).value > current
    && Downloads.Reads(files.second, p) && files.present(p)
  }

  function FreeStaged(s: State): State {
    if s.stagedIndex.None? then s
    else s.(stagedIndex := None, stagedRevision := 0, freed := s.freed + multiset{s.stagedIndex.value})
  }

  function Staged(s: State, a: Attempt): State {
    var r := Staging(s.revision, a);
    if r.Err? then s
    else FreeStaged(s).(stagedIndex := Some(s.issued), stagedRevision := r.value, issued := s.issued + 1)
  }

  predicate Matches(s: State, rev: int) {
    s.stagedIndex.Some? && s.stagedRevision == rev
  }

  function Committed(s: State, rev: int): State {
    if Matches(s, rev) then State(s.stagedIndex.value, rev, None, 0, s.issued, s.freed + multiset{s.index}) else s
  }

  function Deleted(s: State): State {
    var t := FreeStaged(s);
    t.(freed := t.freed + multiset{t.index})
  }

  // ---------- the object

  class FaissIndex {
    var index: Handle
    var revision: int
    var reloading: bool
    var stagedIndex: Option<Handle>
    var stagedRevision: int
    var issued: nat
    ghost var freed: multiset<Handle>

    /** newFaissIndex, once the first download at `revision` was read into the first handle. */
    constructor (revision: int)
      ensures TheState() == State(0, revision, None, 0, 1, multiset{}) && !reloading
    {
      this.index, this.revision, this.reloading := 0, revision, false;
      this.stagedIndex, this.stagedRevision := None, 0;
      this.issued, this.freed := 1, multiset{};
    }

    ghost function TheState(): State
      reads this
    {
      State(index, revision, stagedIndex, stagedRevision, issued, freed)
    }

    /** The Delete of a handle. */
    method Free(h: Handle)
      modifies this`freed
      ensures freed == old(freed) + multiset{h}
    {
      freed := freed + multiset{h};
    }

    method StageReload(a: Attempt) returns (r: Result<int>)
      modifies this
      ensures reloading == old(reloading)
      ensures r == if old(reloading) then Err(AlreadyReloading) else Staging(old(revision), a)
      ensures forall p :: r == Ok(p) <==>
                            !old(reloading) && a.downloader && a.opens && Delivers(old(revision), a.files, p)
      ensures r.Ok? ==> index == old(index) && revision == old(revision) && stagedRevision == r.value
                        && stagedIndex == Some(old(issued)) && issued == old(issued) + 1
      ensures r.Err? ==> TheState() == old(TheState())
      ensures TheState() == if old(reloading) then old(TheState()) else Staged(old(TheState()), a)
    {
      if reloading {
        return Err(AlreadyReloading);
      }
      reloading := true;
      r := StageUnderFlag(a);
      reloading := false;
    }

    /** The part of StageReload between setting and clearing the flag. */
    method StageUnderFlag(a: Attempt) returns (r: Result<int>)
      modifies this
      ensures reloading == old(reloading)
      ensures r == Staging(old(revision), a) && TheState() == Staged(old(TheState()), a)
    {
      if !a.downloader {
        return Err(DownloaderFailed);
      }
      var currentRev := revision;
      var download := Downloads.DownloadUpdate(currentRev, a.files);
      if download.Err? {
        return Err(DownloadFailed(download.error));
      }
      if !a.opens {
        return Err(ReadFailed);
      }
      var rawIndex := issued;
      issued := issued + 1;
      if stagedIndex.Some? {
        Free(stagedIndex.value);
      }
      stagedIndex := Some(rawIndex);
      stagedRevision := download.value;
      return Ok(download.value);
    }

    method CommitStaged(expectedRevision: int) returns (r: Result<()>)
      modifies this
      ensures reloading == old(reloading) && TheState() == Committed(old(TheState()), expectedRevision)
      ensures r.Ok? <==> old(Matches(TheState(), expectedRevision))
      ensures r.Err? ==> r.error == if old(stagedIndex).None? then NothingStaged else OtherRevision(old(stagedRevision))
    {
      if stagedIndex.None? {
        return Err(NothingStaged);
      }
      if stagedRevision != expectedRevision {
        return Err(OtherRevision(stagedRevision));
      }
      var previous := index;
      index := stagedIndex.value;
      revision := stagedRevision;
      stagedIndex := None;
      stagedRevision := 0;
      Free(previous);
      return Ok(());
    }

    method DiscardStaged()
      modifies this
      ensures reloading == old(reloading) && TheState() == FreeStaged(old(TheState()))
    {
      if stagedIndex.Some? {
        Free(stagedIndex.value);
        stagedIndex := None;
        stagedRevision := 0;
      }
    }

    method StagedRevision() returns (r: int)
      ensures r == stagedRevision
    {
      return stagedRevision;
    }

    method Delete()
      modifies this
      ensures reloading == old(reloading) && TheState() == Deleted(old(TheState()))
    {
      DiscardStaged();
      Free(index);
    }
  }

  // ---------- runs

  datatype Op = StageReload(a: Attempt) | CommitStaged(rev: int) | DiscardStaged

  function Apply(s: State, op: Op): State {
    match op
    case StageReload(a) => Staged(s, a)
    case CommitStaged(rev) => Committed(s, rev)
    case DiscardStaged => FreeStaged(s)
  }

  function After(s: State, ops: seq<Op>): State
    decreases |ops|
  {
    if ops == [] then s else After(Apply(s, ops[0]), ops[1..])
  }

  /** Handle `h` was returned by readIndexFn and is neither served nor staged. */
  predicate Unused(s: State, h: Handle) {
    h < s.issued && h != s.index && s.stagedIndex != Some(h)
  }

  /** Every handle that is no longer used was freed once, and no other was ever freed. */
  ghost predicate Accounted(s: State) {
    && s.index < s.issued
    && (s.stagedIndex.Some? ==> s.index < s.stagedIndex.value < s.issued)
    && forall h: Handle :: s.freed[h] == if Unused(s, h) then 1 else 0
  }

  lemma FreeStagedAccounted(s: State)
    requires Accounted(s)
    ensures Accounted(FreeStaged(s))
  {
  }

  lemma ApplyAccounted(s: State, op: Op)
    requires Accounted(s)
    ensures Accounted(Apply(s, op))
  {
    FreeStagedAccounted(s);
    if op.StageReload? && Staging(s.revision, op.a).Ok? {
      var t, u := FreeStaged(s), Apply(s, op);
      assert u.freed == t.freed;
      forall h: Handle ensures u.freed[h] == if Unused(u, h) then 1 else 0 {
        assert h != s.issued ==> Unused(u, h) == Unused(t, h);
      }
    }
  }

  /** While the object lives, the handles not freed are exactly the served one and the staged one,
      whatever was called and whatever failed. */
  lemma {:induction false} OnlyLiveHandlesUnfreed(revision: int, ops: seq<Op>)
    ensures var s := After(State(0, revision, None, 0, 1, multiset{}), ops);
      && Accounted(s)
      && forall h: Handle :: h < s.issued ==> (s.freed[h] == 0 <==> h == s.index || s.stagedIndex == Some(h))
  {
    RunAccounted(State(0, revision, None, 0, 1, multiset{}), ops);
  }

  lemma {:induction false} RunAccounted(s: State, ops: seq<Op>)
    requires Accounted(s)
    ensures Accounted(After(s, ops))
    decreases |ops|
  {
    if ops != [] {
      ApplyAccounted(s, ops[0]);
      RunAccounted(Apply(s, ops[0]), ops[1..]);
    }
  }

  /** A final Delete leaves every handle that was ever returned freed exactly once. */
  lemma DeleteFreesTheRest(revision: int, ops: seq<Op>, h: Handle)
    ensures var s := Deleted(After(State(0, revision, None, 0, 1, multiset{}), ops));
      s.freed[h] == if h < s.issued then 1 else 0
  {
    OnlyLiveHandlesUnfreed(revision, ops);
    FreeStagedAccounted(After(State(0, revision, None, 0, 1, multiset{}), ops));
  }

  // ---------- revisions

  /** Staged data is newer than what is served, and the staged revision is 0 when there is none. */
  predicate Ordered(s: State) {
    && s.revision >= 0
    && (s.stagedIndex.None? <==> s.stagedRevision == 0)
    && (s.stagedIndex.Some? ==> s.stagedRevision > s.revision && s.index < s.stagedIndex.value < s.issued)
    && s.index < s.issued
  }

  predicate SteadyOp(op: Op) {
    op.StageReload? ==> Downloads.Steady(op.a.files)
  }

  lemma ApplyOrdered(s: State, op: Op)
    requires Ordered(s) && SteadyOp(op)
    ensures var t := Apply(s, op);
      && Ordered(t) && t.index >= s.index && t.revision >= s.revision
      && (t.index == s.index <==> t.revision == s.revision)
  {
    if op.StageReload? && Staging(s.revision, op.a).Ok? {
      Downloads.DeliversIff(s.revision, op.a.files);
    }
  }

  /** The served revision never goes down, and it goes up whenever another handle is served. */
  lemma {:induction false} RevisionsRise(s: State, ops: seq<Op>)
    requires Ordered(s) && forall i :: 0 <= i < |ops| ==> SteadyOp(ops[i])
    ensures var t := After(s, ops);
      && Ordered(t) && t.index >= s.index && t.revision >= s.revision
      && (t.index == s.index <==> t.revision == s.revision)
    decreases |ops|
  {
    if ops != [] {
      ApplyOrdered(s, ops[0]);
      forall i | 0 <= i < |ops[1..]| ensures SteadyOp(ops[1..][i]) {
        assert ops[1..][i] == ops[i + 1];
      }
      RevisionsRise(Apply(s, ops[0]), ops[1..]);
    }
  }

  // ---------- when a staging succeeds

  /** What is published, newer than what is served and there to be read, is staged, and served as soon as
      it is committed. */
  lemma PublishedIsStaged(s: State, a: Attempt, p: int)
    requires a.downloader && a.opens && a.files.present(p) && s.revision < p && -INT64 <= p < INT64
    requires a.files.first == a.files.second == Some(FormatInt(p))
    ensures Staging(s.revision, a) == Ok(p)
    ensures var t := Staged(s, a);
      && t.stagedIndex == Some(s.issued) && t.stagedRevision == p && t.index == s.index && t.revision == s.revision
      && Committed(t, p).index == s.issued && Committed(t, p).revision == p && Committed(t, p).stagedIndex == None
  {
    Downloads.ReadsWhatWasPublished(p);
  }

  /** Every other attempt fails, with an error that tells what was missing, and changes nothing. */
  lemma StagingFailsWith(s: State, a: Attempt)
    ensures var r := Staging(s.revision, a);
      && (forall p :: r == Ok(p) <==> a.downloader && a.opens && Delivers(s.revision, a.files, p))
      && (r == Err(DownloaderFailed) <==> !a.downloader)
      && (forall e :: r == Err(DownloadFailed(e)) <==>
                      a.downloader && Downloads.DownloadUpdate(s.revision, a.files) == Downloads.Err(e))
      && (r == Err(ReadFailed) <==> a.downloader && !a.opens && exists p :: Delivers(s.revision, a.files, p))
      && (r.Err? ==> Staged(s, a) == s)
  {
    Downloads.FailsWith(s.revision, a.files);
    var d := Downloads.DownloadUpdate(s.revision, a.files);
    assert d.Ok? ==> Delivers(s.revision, a.files, d.value);
  }

  // ---------- the slot of the cluster protocol

  function SlotOf(s: State, obj: nat, loadedAt: int): Protocol.Slot {
    Protocol.Slot(obj, loadedAt, s.revision, if s.stagedIndex.Some? then Some(s.stagedRevision) else None, None)
  }

  /** In the cluster protocol a shard is its slot: commits and stagings act on it as the steps of
      the protocol do, failed stagings leave it alone, and the shard check reads the same number. */
  lemma ActsAsSlot(s: State, obj: nat, at: int, rev: int, a: Attempt)
    requires Ordered(s)
    ensures SlotOf(Committed(s, rev), obj, at) == Protocol.CommitStaged(SlotOf(s, obj, at), rev)
    ensures Protocol.StagedRevision(SlotOf(s, obj, at)) == s.stagedRevision
    ensures var r := Staging(s.revision, a);
      SlotOf(Staged(s, a), obj, at) == if r.Ok? then SlotOf(s, obj, at).(staged := Some(r.value))
        else SlotOf(s, obj, at)
  {
  }
}
