/**
 The local downloader (internal/engine/local_dl.go).  The revision file is read twice, and between
 the two reads anything may have been published.
 */
module Downloads {
  import opened Options
  import opened Text

  datatype Error = GetRevisionFailed | ShardFileNotFound | UpToDate

  datatype Result<+T> = Ok(value: T) | Err(error: Error)

  /** What the file system shows: the revision file at each of the two reads, and for which
      revisions the shard file is there. */
  datatype Files = Files(first: Option<string>, second: Option<string>, present: int -> bool)

  /** readRevision. */
  function ReadRevision(content: Option<string>): Result<int> {
    if content.None? then Err(GetRevisionFailed)
    else
      var revision := Atoi(content.value);
      if revision.Some? then Ok(revision.value) else Err(GetRevisionFailed)
  }

  /** The revision that Download finds. */
  function Download(content: Option<string>, present: int -> bool): Result<int> {
    var revision := ReadRevision(content);
    if revision.Err? then revision
    else if present(revision.value) then revision else Err(ShardFileNotFound)
  }

  function DownloadUpdate(current: int, files: Files): Result<int> {
    var revision := ReadRevision(files.first);
    if revision.Err? then revision
    else if revision.value <= current then Err(UpToDate)
    else Download(files.second, files.present)
  }

  /** Between the two reads the published revision did not go down. */
  predicate Steady(files: Files) {
    var a, b := ReadRevision(files.first), ReadRevision(files.second);
    a.Ok? && b.Ok? ==> a.value <= b.value
  }

  /** What a publisher writes is read back as the number it is. */
  lemma ReadsWhatWasPublished(revision: int)
    requires -INT64 <= revision < INT64
    ensures ReadRevision(Some(FormatInt(revision))) == Ok(revision)
  {
    AtoiFormat(revision);
  }

  /** A download succeeds exactly if the first read shows something newer and the second something
      that is there.  It delivers what the second read shows, which is newer than what is served as
      long as the published revision does not go down between the reads. */
  lemma DeliversIff(current: int, files: Files)
    ensures DownloadUpdate(current, files).Ok? <==>
              && ReadRevision(files.first).Ok? && ReadRevision(files.first).value > current
              && ReadRevision(files.second).Ok? && files.present(ReadRevision(files.second).value)
    ensures DownloadUpdate(current, files).Ok? ==> DownloadUpdate(current, files) == ReadRevision(files.second)
    ensures DownloadUpdate(current, files).Ok? && Steady(files) ==> DownloadUpdate(current, files).value > current
  {
  }

  /** The file shows this revision. */
  predicate Reads(content: Option<string>, revision: int) {
    ReadRevision(content) == Ok(revision)
  }

  predicate Unreadable(content: Option<string>) {
    content.None? || Atoi(content.value).None?
  }

  lemma UnreadableIff(content: Option<string>)
    ensures ReadRevision(content).Err? <==> Unreadable(content)
  {
  }

  /** Each way to fail and its error: a revision file that cannot be read, at either read; nothing newer; and
      a shard file that is not there. */
  lemma FailsWith(current: int, files: Files)
    ensures var r := DownloadUpdate(current, files);
      && (r == Err(GetRevisionFailed) <==>
          || Unreadable(files.first)
          || ((exists p :: p > current && Reads(files.first, p)) && Unreadable(files.second)))
      && (r == Err(UpToDate) <==> exists p :: p <= current && Reads(files.first, p))
      && (r == Err(ShardFileNotFound) <==>
          exists p, q :: p > current && Reads(files.first, p) && Reads(files.second, q) && !files.present(q))
      && (forall q :: r == Ok(q) <==>
          (exists p :: p > current && Reads(files.first, p)) && Reads(files.second, q) && files.present(q))
  {
    var a, b := ReadRevision(files.first), ReadRevision(files.second);
    assert a.Ok? ==> Reads(files.first, a.value);
    assert b.Ok? ==> Reads(files.second, b.value);
  }

  /** Whatever is served, what is delivered is newer, if and only if the published revision did not go
      down between the reads or what it went down to is not there: the second read is not compared. */
  lemma GateHoldsIff(files: Files)
    ensures (forall current :: DownloadUpdate(current, files).Ok? ==> DownloadUpdate(current, files).value > current)
            <==> Steady(files) || (ReadRevision(files.second).Ok? && !files.present(ReadRevision(files.second).value))
  {
    var first, second := ReadRevision(files.first), ReadRevision(files.second);
    if !Steady(files) && files.present(second.value) {
      assert DownloadUpdate(second.value, files) == second;
    }
  }
}
