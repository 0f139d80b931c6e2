/**
 Shards of an index and their string keys (internal/engine/index.go).
 */
module ShardKeys {
  import opened Text

  /** FromString changes its receiver; here it returns the changed value. */
  datatype Shard = Shard(indexName: string, shardId: int, replicaId: int)

  const ZERO_SHARD := Shard("", 0, 0)

  /** Both ids are int32 in the source. */
  predicate Fits(s: Shard) {
    -INT32 <= s.shardId < INT32 && -INT32 <= s.replicaId < INT32
  }

  function ShardKey(s: Shard): string {
    s.indexName + ":" + FormatInt(s.shardId) + ":" + FormatInt(s.replicaId)
  }

  function UniqueShardKey(s: Shard): string {
    s.indexName + ":" + FormatInt(s.shardId)
  }

  function FromString(s: Shard, key: string): Shard {
    var parts := Split(key, ':');
    if |parts| == 1 then
      s.(indexName := parts[0])
    else if |parts| == 2 then
      var shardId := Atoi(parts[1]);
      if shardId.Some? then s.(indexName := parts[0], shardId := ToInt32(shardId.value)) else s
    else if |parts| == 3 then
      var shardId := Atoi(parts[1]);
      var replicaId := Atoi(parts[2]);
      if shardId.Some? && replicaId.Some?
      then Shard(parts[0], ToInt32(shardId.value), ToInt32(replicaId.value)) else s
    else s
  }

  // ---------- the codec

  lemma PartsOfShardKey(s: Shard)
    ensures Split(ShardKey(s), ':') == Split(s.indexName, ':') + [FormatInt(s.shardId), FormatInt(s.replicaId)]
  {
    var a, b, c := s.indexName, FormatInt(s.shardId), FormatInt(s.replicaId);
    FormatHasNo(s.shardId, ':');
    FormatHasNo(s.replicaId, ':');
    assert ShardKey(s) == (a + [':'] + b) + [':'] + c;
    SplitConcat(a + [':'] + b, c, ':');
    SplitConcat(a, b, ':');
    SplitNone(b, ':');
    SplitNone(c, ':');
  }

  lemma PartsOfUniqueShardKey(s: Shard)
    ensures Split(UniqueShardKey(s), ':') == Split(s.indexName, ':') + [FormatInt(s.shardId)]
  {
    FormatHasNo(s.shardId, ':');
    assert UniqueShardKey(s) == s.indexName + [':'] + FormatInt(s.shardId);
    SplitConcat(s.indexName, FormatInt(s.shardId), ':');
    SplitNone(FormatInt(s.shardId), ':');
  }

  /** FromString reads a shard key back if and only if the index name has no colon: with a colon the
      key has too many parts and the receiver stays as it was. */
  lemma FromShardKeyIff(s: Shard)
    requires Fits(s)
    ensures FromString(ZERO_SHARD, ShardKey(s)) == s <==> ':' !in s.indexName
  {
    PartsOfShardKey(s);
    if ':' in s.indexName {
      SplitSome(s.indexName, ':');
    } else {
      SplitNone(s.indexName, ':');
      AtoiFormat(s.shardId);
      AtoiFormat(s.replicaId);
      Int32Fits(s.shardId);
      Int32Fits(s.replicaId);
    }
  }

  /** The same for unique keys, which carry no replica.  A name with one colon is even misread:
      its tail is taken for the shard id if it is a number. */
  lemma FromUniqueShardKeyIff(s: Shard)
    requires Fits(s) && s.replicaId == 0
    ensures FromString(ZERO_SHARD, UniqueShardKey(s)) == s <==> ':' !in s.indexName
  {
    PartsOfUniqueShardKey(s);
    if ':' in s.indexName {
      SplitSome(s.indexName, ':');
      var parts := Split(s.indexName, ':');
      if |parts| == 2 {
        JoinSplit(s.indexName, ':');
        assert s.indexName == parts[0] + [':'] + parts[1];
        assert |parts[0]| < |s.indexName|;
      }
    } else {
      SplitNone(s.indexName, ':');
      AtoiFormat(s.shardId);
      Int32Fits(s.shardId);
    }
  }

  lemma PartsOf(a: string, b: string, c: string)
    requires ':' !in a && ':' !in b && ':' !in c
    ensures Split(a, ':') == [a] && Split(a + ":" + b, ':') == [a, b] && Split(a + ":" + b + ":" + c, ':') == [a, b, c]
  {
    SplitNone(a, ':');
    SplitNone(b, ':');
    SplitNone(c, ':');
    SplitConcat(a, b, ':');
    SplitConcat(a + ":" + b, c, ':');
  }

  /** Keys with one, two and three parts on any receiver: a part that is not given stays as it was, ids
      beyond 32 bits wrap around, and a part that is no number leaves the whole receiver alone. */
  lemma FromStringByParts(s: Shard, a: string, i: int, j: int, junk: string)
    requires ':' !in a && ':' !in junk && Atoi(junk).None?
    requires -INT64 <= i < INT64 && -INT64 <= j < INT64
    ensures FromString(s, a) == s.(indexName := a)
    ensures FromString(s, a + ":" + FormatInt(i)) == Shard(a, ToInt32(i), s.replicaId)
    ensures FromString(s, a + ":" + FormatInt(i) + ":" + FormatInt(j)) == Shard(a, ToInt32(i), ToInt32(j))
    ensures FromString(s, a + ":" + junk) == s
    ensures FromString(s, a + ":" + junk + ":" + FormatInt(j)) == s
    ensures FromString(s, a + ":" + FormatInt(i) + ":" + junk) == s
  {
    FormatHasNo(i, ':');
    FormatHasNo(j, ':');
    AtoiFormat(i);
    AtoiFormat(j);
    PartsOf(a, FormatInt(i), FormatInt(j));
    PartsOf(a, junk, FormatInt(j));
    PartsOf(a, FormatInt(i), junk);
  }

  /** More than two colons: the receiver stays as it was. */
  lemma FromStringOfMany(s: Shard, a: string, b: string, c: string, rest: string)
    ensures FromString(s, a + ":" + b + ":" + c + ":" + rest) == s
  {
    SplitConcat(a, b, ':');
    SplitConcat(a + ":" + b, c, ':');
    SplitConcat(a + ":" + b + ":" + c, rest, ':');
  }

  /** Different shards never share a key, colons in names or not. */
  lemma ShardKeyInjective(s: Shard, t: Shard)
    requires ShardKey(s) == ShardKey(t)
    ensures s == t
  {
    PartsOfShardKey(s);
    PartsOfShardKey(t);
    var p, q := Split(s.indexName, ':'), Split(t.indexName, ':');
    var f, g := [FormatInt(s.shardId), FormatInt(s.replicaId)], [FormatInt(t.shardId), FormatInt(t.replicaId)];
    assert p + f == q + g && |p| == |q|;
    assert p == (p + f)[..|p|] && q == (q + g)[..|q|] && f == (p + f)[|p|..] && g == (q + g)[|q|..];
    assert f[0] == g[0] && f[1] == g[1];
    SplitInjective(s.indexName, t.indexName, ':');
    FormatInjective(s.shardId, t.shardId);
    FormatInjective(s.replicaId, t.replicaId);
  }

  lemma UniqueShardKeyInjective(s: Shard, t: Shard)
    requires UniqueShardKey(s) == UniqueShardKey(t)
    ensures s.indexName == t.indexName && s.shardId == t.shardId
  {
    PartsOfUniqueShardKey(s);
    PartsOfUniqueShardKey(t);
    var p, q := Split(s.indexName, ':'), Split(t.indexName, ':');
    var f, g := [FormatInt(s.shardId)], [FormatInt(t.shardId)];
    assert p + f == q + g && |p| == |q|;
    assert p == (p + f)[..|p|] && q == (q + g)[..|q|] && f == (p + f)[|p|..] && g == (q + g)[|q|..];
    assert f[0] == g[0];
    SplitInjective(s.indexName, t.indexName, ':');
    FormatInjective(s.shardId, t.shardId);
  }

  // ---------- enumerating the shards of an index

  /** The part of the manifest that placement depends on. */
  datatype Manifest = Manifest(name: string, shards: int, replicas: int)

  /** Shards and Replicas are int32 and their product is used as a slice capacity. */
  predicate ValidManifest(m: Manifest) {
    0 <= m.shards < INT32 && 0 <= m.replicas < INT32 && m.shards * m.replicas < INT32
  }

  predicate IsShardOf(m: Manifest, s: Shard) {
    s.indexName == m.name && 0 <= s.shardId < m.shards && 0 <= s.replicaId < m.replicas
  }

  /** The first `upto` replicas of shard `i`. */
  function Row(m: Manifest, i: int, upto: nat): seq<Shard> {
    if upto == 0 then [] else Row(m, i, upto - 1) + [Shard(m.name, i, upto - 1)]
  }

  /** All replicas of shard 0, then of shard 1, and so on. */
  function Rows(m: Manifest, upto: nat): seq<Shard>
    requires 0 <= m.replicas
  {
    if upto == 0 then [] else Rows(m, upto - 1) + Row(m, upto - 1, m.replicas)
  }

  lemma {:induction false} RowMembers(m: Manifest, i: int, upto: nat)
    ensures forall s :: s in Row(m, i, upto) <==> s.indexName == m.name && s.shardId == i && 0 <= s.replicaId < upto
  {
    if upto > 0 { RowMembers(m, i, upto - 1); }
  }

  lemma {:induction false} RowsMembers(m: Manifest, upto: nat)
    requires 0 <= m.replicas
    ensures forall s :: s in Rows(m, upto) <==>
                          s.indexName == m.name && 0 <= s.shardId < upto && 0 <= s.replicaId < m.replicas
  {
    if upto > 0 {
      RowsMembers(m, upto - 1);
      RowMembers(m, upto - 1, m.replicas);
    }
  }

  lemma {:induction false} RowIs(m: Manifest, i: int, upto: nat)
    ensures |Row(m, i, upto)| == upto && forall k :: 0 <= k < upto ==> Row(m, i, upto)[k] == Shard(m.name, i, k)
  {
    if upto > 0 { RowIs(m, i, upto - 1); }
  }

  lemma {:induction false} RowsSize(m: Manifest, upto: nat)
    requires 0 <= m.replicas
    ensures |Rows(m, upto)| == upto * m.replicas
  {
    if upto > 0 {
      RowsSize(m, upto - 1);
      RowIs(m, upto - 1, m.replicas);
    }
  }

  /** Where each replica comes in the order of GenerateShards: all replicas of a shard together, in order,
      after those of all shards before it. */
  lemma {:induction false} RowsAt(m: Manifest, upto: nat, i: nat, k: nat)
    requires i < upto && k < m.replicas
    ensures |Rows(m, upto)| == upto * m.replicas && i * m.replicas + k < |Rows(m, upto)|
    ensures Rows(m, upto)[i * m.replicas + k] == Shard(m.name, i, k)
  {
    RowsSize(m, upto);
    RowsSize(m, upto - 1);
    RowIs(m, upto - 1, m.replicas);
    if i < upto - 1 {
      RowsAt(m, upto - 1, i, k);
    }
  }

  /** And so which replica comes at a position. */
  lemma {:induction false} RowsInverse(m: Manifest, upto: nat, p: nat)
    requires 0 <= m.replicas && p < |Rows(m, upto)|
    ensures |Rows(m, upto)| == upto * m.replicas
    ensures var s := Rows(m, upto)[p];
      && s.indexName == m.name && 0 <= s.shardId < upto && 0 <= s.replicaId < m.replicas
      && p == s.shardId * m.replicas + s.replicaId
  {
    RowsSize(m, upto);
    RowsSize(m, upto - 1);
    RowIs(m, upto - 1, m.replicas);
    if p < |Rows(m, upto - 1)| {
      RowsInverse(m, upto - 1, p);
    }
  }

  method GenerateShards(m: Manifest) returns (result: seq<Shard>)
    requires ValidManifest(m)
    ensures result == Rows(m, m.shards)
    ensures forall s :: s in result <==> IsShardOf(m, s)
  {
    result := [];
    var shard := 0;
    while shard < m.shards
      invariant 0 <= shard <= m.shards && result == Rows(m, shard)
    {
      var replica := 0;
      while replica < m.replicas
        invariant 0 <= replica <= m.replicas && result == Rows(m, shard) + Row(m, shard, replica)
      {
        result := result + [Shard(m.name, shard, replica)];
        replica := replica + 1;
      }
      shard := shard + 1;
    }
    RowsMembers(m, m.shards);
  }

  method GenerateUniqueShards(m: Manifest) returns (result: seq<Shard>)
    requires ValidManifest(m)
    ensures |result| == m.shards
    ensures forall i :: 0 <= i < m.shards ==> result[i] == Shard(m.name, i, 0)
  {
    result := [];
    var shard := 0;
    while shard < m.shards
      invariant 0 <= shard <= m.shards && |result| == shard
      invariant forall i :: 0 <= i < shard ==> result[i] == Shard(m.name, i, 0)
    {
      result := result + [Shard(m.name, shard, 0)];
      shard := shard + 1;
    }
  }

  /** The keys of all replicas, in replica order; none for a shard without an index name. */
  method GenerateReplicaKeys(s: Shard, replicas: int) returns (result: seq<string>)
    requires 0 <= replicas
    ensures |result| == if s.indexName == "" then 0 else replicas
    ensures forall i :: 0 <= i < |result| ==> result[i] == ShardKey(s.(replicaId := i))
  {
    result := [];
    if s.indexName == "" {
      return;
    }
    var i := 0;
    while i < replicas
      invariant 0 <= i <= replicas && |result| == i
      invariant forall j :: 0 <= j < i ==> result[j] == ShardKey(s.(replicaId := j))
    {
      result := result + [s.indexName + ":" + FormatInt(s.shardId) + ":" + FormatInt(i)];
      i := i + 1;
    }
  }
}
