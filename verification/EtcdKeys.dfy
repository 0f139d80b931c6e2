/**
 The etcd store under string keys, as the reload protocol uses it, and the map from nodes to ready
 revisions that checkAndCommit (internal/engine/manager.go) reads out of it.
 */
module EtcdKeys {
  import opened Options
  import opened HashRings
  import opened RevisionPaths
  import opened Text

  /** A stored value: the revision it decodes to, None if it is not such a record. */
  type Values = map<string, Option<int>>

  datatype Kv = Kv(key: string, value: Option<int>)

  class Etcd {
    var values: Values
    var puts: seq<Kv>      // what the watches get to see

    constructor ()
      ensures values == map[] && puts == []
    {
      values, puts := map[], [];
    }

    method Put(key: string, revision: int, fails: bool) returns (ok: bool)
      modifies this
      ensures ok == !fails
      ensures values == if fails then old(values) else old(values)[key := Some(revision)]
      ensures puts == if fails then old(puts) else old(puts) + [Kv(key, Some(revision))]
    {
      if fails {
        return false;
      }
      values := values[key := Some(revision)];
      puts := puts + [Kv(key, Some(revision))];
      return true;
    }

    method Delete(key: string, fails: bool)
      modifies this
      ensures values == (if fails then old(values) else old(values) - {key}) && puts == old(puts)
    {
      if !fails {
        values := values - {key};
      }
    }

    /** A read with a prefix: exactly the keys under it, in some order. */
    method GetPrefix(prefix: string) returns (kvs: seq<Kv>)
      ensures Lists(kvs, prefix, values)
    {
      kvs := [];
      var todo := values.Keys;
      while todo != {}
        invariant todo <= values.Keys
        invariant forall kv :: kv in kvs <==>
                    HasPrefix(kv.key, prefix) && kv.key in values && kv.key !in todo && values[kv.key] == kv.value
        decreases todo
      {
        var key :| key in todo;
        todo := todo - {key};
        if HasPrefix(key, prefix) {
          kvs := kvs + [Kv(key, values[key])];
        }
      }
    }
  }

  ghost predicate Lists(kvs: seq<Kv>, prefix: string, values: Values) {
    forall kv :: kv in kvs <==> HasPrefix(kv.key, prefix) && kv.key in values && values[kv.key] == kv.value
  }

  lemma {:induction false} SomeListing(prefix: string, values: Values) returns (kvs: seq<Kv>)
    ensures Lists(kvs, prefix, values)
    decreases |values.Keys|
  {
    if values == map[] {
      kvs := [];
    } else {
      var key :| key in values.Keys;
      assert (values - {key}).Keys == values.Keys - {key};
      kvs := SomeListing(prefix, values - {key});
      if HasPrefix(key, prefix) {
        kvs := kvs + [Kv(key, values[key])];
      }
    }
  }

  /** What the loop over the answer of a prefix read builds: later entries win. */
  function Collected(kvs: seq<Kv>): map<Node, int> {
    if kvs == [] then map[]
    else
      var front, last := Collected(kvs[..|kvs| - 1]), kvs[|kvs| - 1];
      if last.value.Some? then front[LastSegment(last.key) := last.value.value] else front
  }

  /** The loop of checkAndCommit over the keys it has read. */
  method CollectReady(kvs: seq<Kv>) returns (readyNodes: map<Node, int>)
    ensures readyNodes == Collected(kvs)
  {
    readyNodes := map[];
    var j := 0;
    while j < |kvs|
      invariant 0 <= j <= |kvs| && readyNodes == Collected(kvs[..j])
    {
      assert kvs[..j + 1][..j] == kvs[..j];
      if kvs[j].value.Some? {
        readyNodes := readyNodes[LastSegment(kvs[j].key) := kvs[j].value.value];
      }
      j := j + 1;
    }
    assert kvs[..j] == kvs;
  }

  /** The node's ready key for the index holds the revision. */
  predicate ReadyAt(root: string, index: string, values: Values, n: Node, rev: int) {
    ReadyPath(root, index, n) in values && values[ReadyPath(root, index, n)] == Some(rev)
  }

  ghost predicate IsReadyKey(root: string, index: string, n: Node, key: string) {
    SlashFree(index) && SlashFree(n) && key == ReadyPath(root, index, n)
  }

  ghost predicate IsCommitKey(root: string, index: string, key: string) {
    SlashFree(index) && key == CommitPath(root, index)
  }

  /** Below the watched prefix there are only ready keys and commit keys, of names without slashes. */
  ghost predicate WellKeyed(root: string, values: Values) {
    forall k :: k in values && HasPrefix(k, CommitPathPrefix(root)) ==>
                  (exists i, n :: IsReadyKey(root, i, n, k)) || (exists i :: IsCommitKey(root, i, k))
  }

  lemma ReadyKeyOf(root: string, index: string, values: Values, key: string) returns (n: Node)
    requires WellKeyed(root, values) && SlashFree(index) && key in values
             && HasPrefix(key, ReadyPathPrefix(root, index))
    ensures IsReadyKey(root, index, n, key) && LastSegment(key) == n
  {
    assert ReadyPathPrefix(root, index) == CommitPathPrefix(root) + ("/" + index + "/ready");
    if i :| IsCommitKey(root, i, key) {
      PrefixSkipsCommit(root, index, i);
      assert false;
    }
    var i, m :| IsReadyKey(root, i, m, key);
    PrefixSelectsReady(root, index, i, m);
    LastSegmentIff(root, index, m);
    n := m;
  }

  /** Node `n` was collected from the key it belongs to, and only from that. */
  lemma {:induction false} CollectedMembers(root: string, index: string, values: Values, kvs: seq<Kv>, n: Node,
                                            rev: int)
    requires WellKeyed(root, values) && SlashFree(index)
    requires forall kv :: kv in kvs ==>
               HasPrefix(kv.key, ReadyPathPrefix(root, index)) && kv.key in values && values[kv.key] == kv.value
    ensures n in Collected(kvs) && Collected(kvs)[n] == rev <==>
              SlashFree(n) && Kv(ReadyPath(root, index, n), Some(rev)) in kvs
  {
    if kvs != [] {
      var front, last := kvs[..|kvs| - 1], kvs[|kvs| - 1];
      assert forall kv :: kv in kvs <==> kv in front || kv == last;
      CollectedMembers(root, index, values, front, n, rev);
      var m := ReadyKeyOf(root, index, values, last.key);
      if m != n && ReadyPath(root, index, m) == ReadyPath(root, index, n) {
        ReadyPathInjective(root, index, m, index, n);
      }
    }
  }

  /** So string keys do the work of a map from nodes to revisions. */
  lemma CollectedIsReady(root: string, index: string, values: Values, kvs: seq<Kv>, n: Node, rev: int)
    requires WellKeyed(root, values) && SlashFree(index) && Lists(kvs, ReadyPathPrefix(root, index), values)
    ensures n in Collected(kvs) && Collected(kvs)[n] == rev <==> ReadyAt(root, index, values, n, rev)
  {
    CollectedMembers(root, index, values, kvs, n, rev);
    var key := ReadyPath(root, index, n);
    assert key == ReadyPathPrefix(root, index) + ("/" + n);
    if ReadyAt(root, index, values, n, rev) {
      assert Kv(key, Some(rev)) in kvs;
      var m := ReadyKeyOf(root, index, values, key);
      ReadyPathInjective(root, index, m, index, n);
    }
  }

  /** The keys the protocol itself writes. */
  lemma WritesStayWellKeyed(root: string, values: Values, index: string, n: Node, value: Option<int>)
    requires WellKeyed(root, values) && SlashFree(index) && SlashFree(n)
    ensures WellKeyed(root, values[ReadyPath(root, index, n) := value])
    ensures WellKeyed(root, values[CommitPath(root, index) := value])
    ensures WellKeyed(root, values - {ReadyPath(root, index, n)})
  {
    assert IsReadyKey(root, index, n, ReadyPath(root, index, n)) && IsCommitKey(root, index, CommitPath(root, index));
  }
}
