/**
 SearchProcessor.Handle of internal/processor/search.go: every input vector is searched on all
 shards of the index, and the per-shard answers are merged with the limit as cap.  The search of a
 local shard and the remote call are given; what Handle makes of their answers is modelled.
 */
module Searches {
  import opened Options
  import opened Orders
  import opened MergeLists
  import opened Text

  /** A pointer to a protobuf item: `ref` is its address, which is what the merge compares. */
  datatype Item = Item(ref: nat, id: string, score: real)

  datatype SearchResult = SearchResult(result: seq<Item>, error: string)

  datatype Label = Label(distance: real, name: string)

  /** How a shard answered: here, or through a client to another node. */
  datatype ShardAnswer =
    | Local(labels: seq<Label>)
    | NoClient(error: string)
    | Remote(error: string, response: Option<SearchResult>)

  predicate LessScore(a: Item, b: Item) {
    a.score < b.score
  }

  /** The `less` that Handle passes to the merge. */
  function ByScore(): (Item, Item) -> bool {
    (a: Item, b: Item) => LessScore(a, b)
  }

  lemma ByScoreIsOrder()
    ensures StrictWeakOrder(ByScore())
  {
  }

  function ItemOf(l: Label, ref: nat): Item {
    Item(ref, l.name, l.distance)
  }

  /** Fresh items for the labels of a local shard, in order. */
  method LocalItems(labels: seq<Label>, base: nat) returns (items: seq<Item>)
    ensures |items| == |labels|
    ensures forall i :: 0 <= i < |labels| ==> items[i] == ItemOf(labels[i], base + i)
  {
    items := [];
    var idx := 0;
    while idx < |labels|
      invariant 0 <= idx <= |labels| && |items| == idx
      invariant forall i :: 0 <= i < idx ==> items[i] == ItemOf(labels[i], base + i)
    {
      items := items + [Item(base + idx, labels[idx].name, labels[idx].distance)];
      idx := idx + 1;
    }
  }

  /** What one shard contributes.  A response wins over the error of the same call. */
  ghost predicate Contributes(answer: ShardAnswer, res: SearchResult) {
    match answer
    case Local(labels) =>
      && |res.result| == |labels| && res.error == ""
      && forall i :: 0 <= i < |labels| ==>
           res.result[i].id == labels[i].name && res.result[i].score == labels[i].distance
    case NoClient(error) => res == SearchResult([], error)
    case Remote(error, response) => res == if response.Some? then response.value else SearchResult([], error)
  }

  method ShardResult(answer: ShardAnswer, base: nat) returns (res: SearchResult)
    ensures Contributes(answer, res)
  {
    match answer
    case Local(labels) =>
      var items := LocalItems(labels, base);
      res := SearchResult(items, "");
    case NoClient(error) =>
      res := SearchResult([], error);
    case Remote(error, response) =>
      res := SearchResult([], error);
      if response.Some? {
        res := response.value;
      }
  }

  /** "|e0|e1|...": all per-shard errors, empty ones included. */
  function JoinErrors(results: seq<SearchResult>): string {
    if results == [] then "" else JoinErrors(results[..|results| - 1]) + "|" + results[|results| - 1].error
  }

  function Errors(results: seq<SearchResult>): seq<string> {
    seq(|results|, i requires 0 <= i < |results| => results[i].error)
  }

  /** Cut at the bars, a merged error text gives the errors of the shards back, in shard order, after an empty
      part, as long as no error has a bar in it. */
  lemma {:induction false} ErrorsReadBack(results: seq<SearchResult>)
    requires forall i :: 0 <= i < |results| ==> '|' !in results[i].error
    ensures Split(JoinErrors(results), '|') == [""] + Errors(results)
    decreases |results|
  {
    if results != [] {
      var front, last := results[..|results| - 1], results[|results| - 1];
      ErrorsReadBack(front);
      SplitConcat(JoinErrors(front), last.error, '|');
      SplitNone(last.error, '|');
      assert JoinErrors(results) == JoinErrors(front) + ['|'] + last.error;
      assert Errors(results) == Errors(front) + [last.error];
    }
  }

  predicate SomeError(results: seq<SearchResult>) {
    exists i :: 0 <= i < |results| && results[i].error != ""
  }

  method MergeErrors(results: seq<SearchResult>) returns (error: string)
    ensures error == if SomeError(results) then JoinErrors(results) else ""
  {
    var errorFlag, mergedErr := false, "";
    var i := 0;
    while i < |results|
      invariant 0 <= i <= |results|
      invariant errorFlag == SomeError(results[..i]) && mergedErr == JoinErrors(results[..i])
    {
      var next := results[..i + 1];
      assert next[..i] == results[..i] && next[i] == results[i];
      if |results[i].error| > 0 {
        errorFlag := true;
      }
      mergedErr := mergedErr + "|" + results[i].error;
      i := i + 1;
    }
    assert results[..i] == results;
    error := if errorFlag then mergedErr else "";
  }

  function Lists(results: seq<SearchResult>): (lists: seq<seq<Item>>)
    ensures |lists| == |results| && forall i :: 0 <= i < |lists| ==> lists[i] == results[i].result
  {
    seq(|results|, i requires 0 <= i < |results| => results[i].result)
  }

  /** The answer to one query, given what the shards contribute. */
  ghost predicate Answer(results: seq<SearchResult>, limit: nat, res: SearchResult) {
    if |results| == 1 then res == results[0]
    else
      && res.error == (if SomeError(results) then JoinErrors(results) else "")
      && |res.result| == Min(limit, |Union(Lists(results))|)
      && multiset(res.result) <= Union(Lists(results))
      && (AllSorted(Lists(results), ByScore()) ==> TopK(res.result, Union(Lists(results)), limit, ByScore()))
      && (limit >= |Union(Lists(results))| ==>
            (Sorted(res.result, ByScore()) <==> AllSorted(Lists(results), ByScore())))
      && (res.result != [] ==> IsLeastHead(res.result[0], Lists(results), ByScore()))
  }

  method Gather(answers: seq<ShardAnswer>) returns (results: seq<SearchResult>)
    ensures |results| == |answers| && forall i :: 0 <= i < |answers| ==> Contributes(answers[i], results[i])
  {
    results := [];
    var base: nat := 0;
    var j := 0;
    while j < |answers|
      invariant 0 <= j <= |answers| && |results| == j
      invariant forall i :: 0 <= i < j ==> Contributes(answers[i], results[i])
    {
      var res := ShardResult(answers[j], base);
      results := results + [res];
      base := base + |res.result|;
      j := j + 1;
    }
  }

  /** One round of the loop over the inputs, for an index with at least one shard. */
  method HandleQuery(answers: seq<ShardAnswer>, limit: nat)
    returns (res: SearchResult, ghost results: seq<SearchResult>)
    requires answers != []
    ensures |results| == |answers| && forall i :: 0 <= i < |answers| ==> Contributes(answers[i], results[i])
    ensures Answer(results, limit, res)
  {
    var gathered := Gather(answers);
    results := gathered;
    if |gathered| > 1 {
      var lists := new seq<Item>[|gathered|](i requires 0 <= i < |gathered| => gathered[i].result);
      assert lists[..] == Lists(gathered);
      ByScoreIsOrder();
      var merged := MergeSortedLists(lists, ByScore(), limit);
      var error := MergeErrors(gathered);
      res := SearchResult(merged, error);
    } else {
      res := gathered[0];
    }
  }

  datatype Error = InvalidLimit | EmptyInput | IndexNotFound
  datatype Response = Failed(error: Error) | Responded(results: seq<SearchResult>)

  /** What searching the index locally gives for one input: an error or one answer per shard. */
  datatype Searched = Unsearched(error: string) | Shards(answers: seq<ShardAnswer>)

  ghost predicate Answers(s: Searched, limit: nat, res: SearchResult) {
    match s
    case Unsearched(error) => res == SearchResult([], error)
    case Shards(answers) =>
      exists results: seq<SearchResult> ::
        |results| == |answers| && (forall i :: 0 <= i < |answers| ==> Contributes(answers[i], results[i]))
        && Answer(results, limit, res)
  }

  /** An input for which the index has no shard at all. */
  predicate NoShards(s: Searched) {
    s == Shards([])
  }

  method Handle(limit: int, searched: seq<Searched>) returns (resp: Response)
    ensures limit <= 0 ==> resp == Failed(InvalidLimit)
    ensures limit > 0 && searched == [] ==> resp == Failed(EmptyInput)
    ensures limit > 0 && searched != [] ==>
              (resp == Failed(IndexNotFound) <==> exists i :: 0 <= i < |searched| && NoShards(searched[i]))
    ensures limit > 0 && searched != [] && resp != Failed(IndexNotFound) ==>
              && resp.Responded? && |resp.results| == |searched|
              && forall i :: 0 <= i < |searched| ==> Answers(searched[i], limit, resp.results[i])
  {
    if limit <= 0 {
      return Failed(InvalidLimit);
    }
    if |searched| == 0 {
      return Failed(EmptyInput);
    }
    var results := [];
    var i := 0;
    while i < |searched|
      invariant 0 <= i <= |searched| && |results| == i
      invariant forall j :: 0 <= j < i ==> !NoShards(searched[j]) && Answers(searched[j], limit, results[j])
    {
      match searched[i] {
        case Unsearched(error) =>
          results := results + [SearchResult([], error)];
        case Shards(answers) =>
          if |answers| == 0 {
            assert NoShards(searched[i]);
            return Failed(IndexNotFound);
          }
          var res, gathered := HandleQuery(answers, limit);
          assert Answers(searched[i], limit, res);
          results := results + [res];
      }
      i := i + 1;
    }
    return Responded(results);
  }

  /** If every shard contributes the `limit` lowest-scored of its own items in ascending order, the
      answer is the `limit` lowest-scored of all items of those shards, sorted: the single-shard and
      the merged branch alike.  By Orders.TopKUnique the scores do not depend on how ties fall. */
  lemma AnswerIsGlobalTopK(results: seq<SearchResult>, data: seq<multiset<Item>>, limit: nat, res: SearchResult)
    requires results != [] && |data| == |results| && Answer(results, limit, res)
    requires forall i :: 0 <= i < |results| ==> TopK(results[i].result, data[i], limit, ByScore())
    ensures TopK(res.result, Sum(data), limit, ByScore())
  {
    ByScoreIsOrder();
    if |results| == 1 {
      assert data[1..] == [];
      assert Sum(data) == data[0];
    } else {
      forall i | 0 <= i < |results| ensures Lists(results)[i] == results[i].result { }
      assert AllSorted(Lists(results), ByScore()) by {
        forall i | 0 <= i < |results| ensures Sorted(Lists(results)[i], ByScore()) {
          assert TopK(results[i].result, data[i], limit, ByScore());
        }
      }
      TopKOfTopKs(res.result, Lists(results), data, limit, ByScore());
    }
  }

  /** An inner-product index answers in descending order, highest scores first.  The merge of such answers
      begins with a highest-scored item of all if and only if the shards' best items all score the same. */
  lemma InnerProductBestFirstIff(results: seq<SearchResult>, limit: nat, res: SearchResult)
    requires |results| != 1 && Answer(results, limit, res) && res.result != []
    requires forall i :: 0 <= i < |results| ==> Sorted(results[i].result, Flip(ByScore()))
    ensures (forall x :: x in Union(Lists(results)) ==> x.score <= res.result[0].score) <==>
            (forall x, y :: x in Heads(Lists(results)) && y in Heads(Lists(results)) ==> x.score == y.score)
  {
    ByScoreIsOrder();
    var lists := Lists(results);
    DescendingBestFirstIff(lists, res.result[0], ByScore());
    assert forall x: Item, y: Item :: !ByScore()(x, y) <==> y.score <= x.score;
    if forall x, y :: x in Heads(lists) && y in Heads(lists) ==> !ByScore()(x, y) {
      forall x: Item, y: Item | x in Heads(lists) && y in Heads(lists) ensures x.score == y.score {
        assert !ByScore()(x, y) && !ByScore()(y, x);
      }
    }
  }

  function Scored(scores: seq<real>, base: nat): seq<Item> {
    seq(|scores|, i requires 0 <= i < |scores| => Item(base + i, "", scores[i]))
  }

  /** Two shards answer 5, 1 and 4, 2, and the limit is 1: the answer is 4, neither the highest nor the
      lowest. */
  lemma InnerProductExample(res: SearchResult)
    requires Answer([SearchResult(Scored([5.0, 1.0], 0), ""), SearchResult(Scored([4.0, 2.0], 2), "")], 1, res)
    ensures |res.result| == 1 && res.result[0].score == 4.0
  {
    var a, b := Scored([5.0, 1.0], 0), Scored([4.0, 2.0], 2);
    var lists := Lists([SearchResult(a, ""), SearchResult(b, "")]);
    assert lists == [a, b] && lists[1..] == [b];
    assert Heads(lists) == multiset{a[0]} + (multiset{b[0]} + multiset{});
    assert b[0] in Heads(lists) && !ByScore()(b[0], res.result[0]);
  }
}
