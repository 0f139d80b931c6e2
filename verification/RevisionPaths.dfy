/**
 The etcd keys of the reload protocol and how they are read back (internal/config/path.go and
 parseIndexNameFromCommitKey in internal/engine/manager.go).
 */
module RevisionPaths {
  import opened Text

  function CommitPathPrefix(root: string): string {
    root + "/revision"
  }

  function ReadyPathPrefix(root: string, index: string): string {
    root + "/revision/" + index + "/ready"
  }

  function ReadyPath(root: string, index: string, node: string): string {
    ReadyPathPrefix(root, index) + "/" + node
  }

  function CommitPath(root: string, index: string): string {
    root + "/revision/" + index + "/commit"
  }

  /** The empty string stands for "not a commit key". */
  function ParseIndexName(root: string, key: string): string {
    var prefix := CommitPathPrefix(root);
    if !HasPrefix(key, prefix) then ""
    else
      var parts := SplitN2(TrimPrefix(key, prefix + "/"), '/');
      if |parts| < 2 || parts[1] != "commit" then "" else parts[0]
  }

  /** checkAndCommit takes the last path segment for the node id. */
  function LastSegment(key: string): string {
    var parts := Split(key, '/');
    parts[|parts| - 1]
  }

  predicate SlashFree(s: string) {
    '/' !in s
  }

  lemma CommitRemainder(root: string, index: string)
    ensures HasPrefix(CommitPath(root, index), CommitPathPrefix(root))
    ensures TrimPrefix(CommitPath(root, index), CommitPathPrefix(root) + "/") == index + "/commit"
  {
    var p := CommitPathPrefix(root) + "/";
    assert CommitPath(root, index) == p + (index + "/commit");
    assert CommitPath(root, index) == CommitPathPrefix(root) + ("/" + index + "/commit");
  }

  lemma ReadyRemainder(root: string, index: string, node: string)
    ensures HasPrefix(ReadyPath(root, index, node), CommitPathPrefix(root))
    ensures TrimPrefix(ReadyPath(root, index, node), CommitPathPrefix(root) + "/") == index + "/ready/" + node
  {
    var p := CommitPathPrefix(root) + "/";
    assert ReadyPath(root, index, node) == p + (index + "/ready/" + node);
    assert ReadyPath(root, index, node) == CommitPathPrefix(root) + ("/" + index + "/ready/" + node);
  }

  /** The watch reads the index name back from a commit key if and only if the name has no slash;
      a commit key of any other name is taken for no commit key at all. */
  lemma ParseCommitIff(root: string, index: string)
    ensures ParseIndexName(root, CommitPath(root, index)) == index <==> SlashFree(index)
    ensures !SlashFree(index) ==> ParseIndexName(root, CommitPath(root, index)) == ""
  {
    CommitRemainder(root, index);
    if SlashFree(index) {
      assert index + "/commit" == index + ['/'] + "commit";
      SplitN2Concat(index, "commit", '/');
    } else {
      var a, b := CutAtFirst(index, '/');
      assert index + "/commit" == a + ['/'] + (b + "/commit");
      SplitN2Concat(a, b + "/commit", '/');
      assert |b + "/commit"| > |"commit"|;
    }
  }

  /** Whatever key the watch gets to see, it reads an index name out of it if and only if it is the commit
      key of that index. */
  lemma ParsesIff(root: string, key: string, index: string)
    requires index != ""
    ensures ParseIndexName(root, key) == index <==> SlashFree(index) && key == CommitPath(root, index)
  {
    ParseCommitIff(root, index);
    if ParseIndexName(root, key) == index {
      var rest := TrimPrefix(key, CommitPathPrefix(root) + "/");
      SplitN2Join(rest, '/');
      NotBelowTheRoot(root, index);
      CommitRemainder(root, index);
      assert rest == index + ['/'] + "commit" == index + "/commit";
      TrimmedBack(key, CommitPathPrefix(root) + "/", rest);
    }
  }

  lemma TrimmedBack(key: string, prefix: string, rest: string)
    requires TrimPrefix(key, prefix) == rest
    ensures key == rest || key == prefix + rest
  {
  }

  lemma OnlySlash(index: string)
    requires SlashFree(index)
    ensures forall i :: 0 <= i < |index + "/commit"| && (index + "/commit")[i] == '/' ==> i == |index|
  {
  }

  /** A key outside the watched directory that begins like its name is not of this form. */
  lemma NotBelowTheRoot(root: string, index: string)
    requires SlashFree(index)
    ensures !HasPrefix(index + "/commit", CommitPathPrefix(root))
  {
    var key, prefix := index + "/commit", CommitPathPrefix(root);
    OnlySlash(index);
    assert key[|index| + 1] == 'c' && prefix[|root|] == '/' && prefix[|root| + 1] == 'r';
  }

  /** The ready keys live under the same watched prefix and are never taken for commit keys. */
  lemma ParseReadyIsEmpty(root: string, index: string, node: string)
    ensures ParseIndexName(root, ReadyPath(root, index, node)) == ""
  {
    ReadyRemainder(root, index, node);
    var rest := index + "/ready/" + node;
    if SlashFree(index) {
      assert rest == index + ['/'] + ("ready/" + node);
      SplitN2Concat(index, "ready/" + node, '/');
      assert ("ready/" + node)[0] == 'r';
    } else {
      var a, b := CutAtFirst(index, '/');
      var tail := b + "/ready/" + node;
      assert rest == a + ['/'] + tail;
      SplitN2Concat(a, tail, '/');
      assert tail[|b|] == '/';
      assert '/' !in "commit";
    }
  }

  /** What is before the first slash is determined by the whole. */
  lemma {:induction false} FirstSegmentUnique(a: string, b: string, x: string, y: string)
    requires SlashFree(a) && SlashFree(b)
    requires a + "/" + x <= b + "/" + y
    ensures a == b
  {
    var s, t := a + "/" + x, b + "/" + y;
    if a == "" || b == "" {
      assert s[0] == t[0];
    } else {
      assert s[0] == t[0] && s[1..] == a[1..] + "/" + x && t[1..] == b[1..] + "/" + y;
      FirstSegmentUnique(a[1..], b[1..], x, y);
    }
  }

  /** Reading with one index's ready prefix selects exactly that index's ready keys. */
  lemma PrefixSelectsReady(root: string, index: string, other: string, node: string)
    requires SlashFree(index) && SlashFree(other)
    ensures HasPrefix(ReadyPath(root, other, node), ReadyPathPrefix(root, index)) <==> index == other
  {
    var p := root + "/revision/";
    var key, prefix := ReadyPath(root, other, node), ReadyPathPrefix(root, index);
    assert key == p + (other + "/" + ("ready/" + node)) && prefix == p + (index + "/" + "ready");
    if prefix <= key {
      assert index + "/" + "ready" == prefix[|p|..] && other + "/" + ("ready/" + node) == key[|p|..];
      FirstSegmentUnique(index, other, "ready", "ready/" + node);
    }
    if index == other {
      assert key == prefix + ("/" + node);
    }
  }

  /** What a prefix read selects when the other name is any name: the index's own ready keys and those
      of all names that begin with `index` + "/ready". */
  lemma PrefixSelectsIff(root: string, index: string, other: string, node: string)
    requires SlashFree(index) && SlashFree(node)
    ensures HasPrefix(ReadyPath(root, other, node), ReadyPathPrefix(root, index)) <==>
              other == index || index + "/ready" <= other
  {
    var p, s, t := root + "/revision/", index + "/ready", other + ("/ready/" + node);
    assert ReadyPath(root, other, node) == p + t && ReadyPathPrefix(root, index) == p + s;
    assert s == (p + s)[|p|..] && t == (p + t)[|p|..];
    assert HasPrefix(ReadyPath(root, other, node), ReadyPathPrefix(root, index)) <==> s <= t by {
      if s <= t { assert (p + t)[..|p + s|] == p + s; }
    }
    if s <= t {
      PrefixOfReady(index, other, "/ready/" + node);
    }
    if s <= other {
      assert t[..|s|] == other[..|s|];
    }
    if other == index {
      assert t == s + ("/" + node);
    }
  }

  lemma PrefixOfReady(index: string, other: string, tail: string)
    requires SlashFree(index) && index + "/ready" <= other + tail && "/ready/" <= tail
    ensures other == index || index + "/ready" <= other
  {
    var s, t := index + "/ready", other + tail;
    assert forall i :: 0 <= i < |s| ==> s[i] == t[i];
    assert |other| < |s| ==> s[|other|] == tail[0] == '/';
    assert |other| < |s| ==> |other| == |index| by {
      assert forall i :: 0 <= i < |index| ==> s[i] == index[i];
      assert forall i :: 0 < i < 6 ==> s[|index| + i] == "/ready"[i];
    }
    assert |other| <= |s| ==> other == t[..|other|] == s[..|other|];
    assert |other| > |s| ==> other[..|s|] == t[..|s|];
  }

  /** For instance a ready key of the index `index` + "/ready" is read as a ready key of `index`, for a
      node of the same name. */
  lemma SlashedIndexIsMisread(root: string, index: string, node: string)
    requires SlashFree(node)
    ensures HasPrefix(ReadyPath(root, index + "/ready", node), ReadyPathPrefix(root, index))
    ensures LastSegment(ReadyPath(root, index + "/ready", node)) == node
  {
    assert ReadyPath(root, index + "/ready", node) == ReadyPathPrefix(root, index) + ("/ready/" + node);
    LastSegmentIff(root, index + "/ready", node);
  }

  /** It selects no commit key. */
  lemma PrefixSkipsCommit(root: string, index: string, other: string)
    requires SlashFree(index) && SlashFree(other)
    ensures !HasPrefix(CommitPath(root, other), ReadyPathPrefix(root, index))
  {
    var p := root + "/revision/";
    var key, prefix := CommitPath(root, other), ReadyPathPrefix(root, index);
    assert key == p + (other + "/" + "commit") && prefix == p + (index + "/" + "ready");
    assert key[|p| + |other| + 1] == 'c' && prefix[|p| + |index| + 1] == 'r';
    if prefix <= key {
      assert index + "/" + "ready" == prefix[|p|..] && other + "/" + "commit" == key[|p|..];
      FirstSegmentUnique(index, other, "ready", "commit");
    }
  }

  /** The last segment of a ready key is the node id if and only if the id has no slash. */
  lemma LastSegmentIff(root: string, index: string, node: string)
    ensures LastSegment(ReadyPath(root, index, node)) == node <==> SlashFree(node)
  {
    var prefix := ReadyPathPrefix(root, index);
    assert ReadyPath(root, index, node) == prefix + ['/'] + node;
    SplitConcat(prefix, node, '/');
    var parts := Split(node, '/');
    if SlashFree(node) {
      SplitNone(node, '/');
    } else {
      SplitSome(node, '/');
      JoinSplit(node, '/');
      LastIsShorter(parts, '/');
    }
  }

  lemma {:induction false} LastIsShorter(parts: seq<string>, sep: char)
    requires |parts| >= 2
    ensures |parts[|parts| - 1]| < |Join(parts, sep)|
  {
    if |parts| > 2 {
      LastIsShorter(parts[1..], sep);
    } else {
      assert parts[1..] == [parts[1]];
    }
  }

  /** Ready keys of different nodes or indexes are different keys. */
  lemma ReadyPathInjective(root: string, index: string, node: string, index': string, node': string)
    requires SlashFree(index) && SlashFree(index') && ReadyPath(root, index, node) == ReadyPath(root, index', node')
    ensures index == index' && node == node'
  {
    var p := root + "/revision/";
    var s, t := index + "/" + ("ready/" + node), index' + "/" + ("ready/" + node');
    assert ReadyPath(root, index, node) == p + s && ReadyPath(root, index', node') == p + t;
    assert s == (p + s)[|p|..] && t == (p + t)[|p|..];
    FirstSegmentUnique(index, index', "ready/" + node, "ready/" + node');
    var q := index + "/ready/";
    assert s == q + node && t == q + node';
    assert node == (q + node)[|q|..] && node' == (q + node')[|q|..];
  }
}
