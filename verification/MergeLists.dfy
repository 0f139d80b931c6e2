/**
 MergeSortedLists of internal/utils/utils.go: a k-way merge with a cap over a heap of list heads.
 After a Pop it advances the first list whose head equals the popped element, which need not be the
 list that pushed it.  What keeps the merge right is that the heap always holds the multiset of the
 heads, whichever list is advanced.
 */
module MergeLists {
  import opened Orders
  import opened PriorityQueues

  function Head<T>(list: seq<T>): multiset<T> {
    if list == [] then multiset{} else multiset{list[0]}
  }

  /** The heads of the nonempty lists. */
  function Heads<T>(lists: seq<seq<T>>): multiset<T> {
    if lists == [] then multiset{} else Head(lists[0]) + Heads(lists[1..])
  }

  /** All elements of all lists. */
  function Union<T>(lists: seq<seq<T>>): multiset<T> {
    if lists == [] then multiset{} else multiset(lists[0]) + Union(lists[1..])
  }

  ghost predicate AllSorted<T>(lists: seq<seq<T>>, less: (T, T) -> bool) {
    forall i :: 0 <= i < |lists| ==> Sorted(lists[i], less)
  }

  ghost predicate IsSuffix<T>(a: seq<T>, b: seq<T>) {
    |a| <= |b| && a == b[|b| - |a|..]
  }

  ghost predicate Suffixes<T>(lists: seq<seq<T>>, from: seq<seq<T>>) {
    |lists| == |from| && forall i :: 0 <= i < |lists| ==> IsSuffix(lists[i], from[i])
  }

  // ---------- sums of multisets

  lemma AddToBoth<T>(a: multiset<T>, r: multiset<T>, x: multiset<T>, q: multiset<T>, y: multiset<T>)
    requires r + x == q + y
    ensures a + r + x == a + q + y
  {
    forall e ensures (a + r + x)[e] == (a + q + y)[e] {
      assert (r + x)[e] == (q + y)[e];
    }
  }

  lemma Cancel<T>(a: multiset<T>, b: multiset<T>, n: multiset<T>, x: T)
    requires a + (multiset{x} + n) == b + n
    ensures a + multiset{x} == b
  {
    forall e ensures (a + multiset{x})[e] == b[e] {
      assert (a + (multiset{x} + n))[e] == (b + n)[e];
    }
  }

  lemma Exchange<T>(popped: multiset<T>, before: multiset<T>, after: multiset<T>, next: multiset<T>, x: T)
    requires popped + multiset{x} == before && after + multiset{x} == before + next
    ensures popped + next == after
  {
    forall e ensures (popped + next)[e] == after[e] {
      assert (popped + multiset{x})[e] == before[e] && (after + multiset{x})[e] == (before + next)[e];
    }
  }

  // ---------- heads and elements

  lemma {:induction false} HeadsUpdate<T>(lists: seq<seq<T>>, i: nat, list: seq<T>)
    requires i < |lists|
    ensures Heads(lists[i := list]) + Head(lists[i]) == Heads(lists) + Head(list)
  {
    var after := lists[i := list];
    if i == 0 {
      assert after[1..] == lists[1..];
    } else {
      HeadsUpdate(lists[1..], i - 1, list);
      assert after[0] == lists[0] && after[1..] == lists[1..][i - 1 := list] && lists[1..][i - 1] == lists[i];
      AddToBoth(Head(lists[0]), Heads(after[1..]), Head(lists[i]), Heads(lists[1..]), Head(list));
    }
  }

  lemma {:induction false} UnionUpdate<T>(lists: seq<seq<T>>, i: nat, list: seq<T>)
    requires i < |lists|
    ensures Union(lists[i := list]) + multiset(lists[i]) == Union(lists) + multiset(list)
  {
    var after := lists[i := list];
    if i == 0 {
      assert after[1..] == lists[1..];
    } else {
      UnionUpdate(lists[1..], i - 1, list);
      assert after[0] == lists[0] && after[1..] == lists[1..][i - 1 := list] && lists[1..][i - 1] == lists[i];
      AddToBoth(multiset(lists[0]), Union(after[1..]), multiset(lists[i]), Union(lists[1..]), multiset(list));
    }
  }

  lemma {:induction false} HeadIsSomewhere<T>(lists: seq<seq<T>>, x: T)
    ensures x in Heads(lists) <==> exists i :: 0 <= i < |lists| && lists[i] != [] && lists[i][0] == x
  {
    if lists != [] {
      HeadIsSomewhere(lists[1..], x);
      if x in Heads(lists[1..]) {
        var i :| 0 <= i < |lists[1..]| && lists[1..][i] != [] && lists[1..][i][0] == x;
        assert lists[i + 1] == lists[1..][i];
      }
      if i :| 0 <= i < |lists| && lists[i] != [] && lists[i][0] == x {
        assert i > 0 ==> lists[1..][i - 1] == lists[i];
      }
    }
  }

  lemma {:induction false} ElementIsSomewhere<T>(lists: seq<seq<T>>, x: T)
    ensures x in Union(lists) <==> exists i :: 0 <= i < |lists| && x in lists[i]
  {
    if lists != [] {
      ElementIsSomewhere(lists[1..], x);
      if x in Union(lists[1..]) {
        var i :| 0 <= i < |lists[1..]| && x in lists[1..][i];
        assert x in lists[i + 1];
      }
      if i :| 0 <= i < |lists| && x in lists[i] {
        assert i > 0 ==> x in lists[1..][i - 1];
      }
    }
  }

  /** What is not above any head is not above any element. */
  lemma HeadsAreLowest<T(!new)>(lists: seq<seq<T>>, less: (T, T) -> bool, y: T)
    requires StrictWeakOrder(less) && AllSorted(lists, less)
    requires forall x :: x in Heads(lists) ==> !less(x, y)
    ensures forall x :: x in Union(lists) ==> !less(x, y)
  {
    forall x | x in Union(lists) ensures !less(x, y) {
      ElementIsSomewhere(lists, x);
      var i :| 0 <= i < |lists| && x in lists[i];
      var head := lists[i][0];
      HeadIsSomewhere(lists, head);
      var k :| 0 <= k < |lists[i]| && lists[i][k] == x;
      assert !less(x, head);
    }
  }

  lemma {:induction false} NoHeadsNoElements<T>(lists: seq<seq<T>>)
    ensures Heads(lists) == multiset{} <==> Union(lists) == multiset{}
  {
    if lists != [] {
      NoHeadsNoElements(lists[1..]);
      assert lists[0] != [] ==> lists[0][0] in Heads(lists) && lists[0][0] in Union(lists);
      assert Heads(lists) >= Heads(lists[1..]) && Union(lists) >= Union(lists[1..]);
      assert lists[0] == [] ==> Heads(lists) == Heads(lists[1..]) && Union(lists) == Union(lists[1..]);
      if Heads(lists[1..]) != multiset{} {
        var x :| x in Heads(lists[1..]);
        assert x in Heads(lists);
        var y :| y in Union(lists[1..]);
        assert y in Union(lists);
      }
    }
  }

  lemma HeadAndTail<T>(list: seq<T>)
    requires list != []
    ensures multiset(list) == multiset{list[0]} + multiset(list[1..])
  {
    assert list == [list[0]] + list[1..];
  }

  /** Taking the head off one list. */
  lemma AdvanceElements<T>(lists: seq<seq<T>>, i: nat)
    requires i < |lists| && lists[i] != []
    ensures var after := lists[i := lists[i][1..]];
      && Union(after) + multiset{lists[i][0]} == Union(lists)
      && Heads(after) + multiset{lists[i][0]} == Heads(lists) + Head(lists[i][1..])
  {
    var tail := lists[i][1..];
    HeadsUpdate(lists, i, tail);
    UnionUpdate(lists, i, tail);
    HeadAndTail(lists[i]);
    Cancel(Union(lists[i := tail]), Union(lists), multiset(tail), lists[i][0]);
  }

  lemma AdvanceSuffix<T>(lists: seq<seq<T>>, i: nat, from: seq<seq<T>>)
    requires i < |lists| && lists[i] != [] && Suffixes(lists, from)
    ensures Suffixes(lists[i := lists[i][1..]], from)
  {
    assert IsSuffix(lists[i], from[i]);
    assert lists[i][1..] == from[i][|from[i]| - (|lists[i]| - 1)..];
  }

  lemma AdvanceOrder<T>(lists: seq<seq<T>>, i: nat, less: (T, T) -> bool)
    requires i < |lists| && lists[i] != [] && AllSorted(lists, less)
    ensures AllSorted(lists[i := lists[i][1..]], less)
  {
    var tail := lists[i][1..];
    assert Sorted(lists[i], less);
    forall j, k | 0 <= j < k < |tail| ensures !less(tail[k], tail[j]) {
      assert tail[j] == lists[i][j + 1] && tail[k] == lists[i][k + 1];
    }
  }

  // ---------- lists in any order

  /** What has been taken from the front of each list, down to `rest`. */
  ghost function Taken<T>(rest: seq<seq<T>>, from: seq<seq<T>>): seq<seq<T>>
    requires Suffixes(rest, from)
  {
    seq(|from|, i requires 0 <= i < |from| => from[i][..|from[i]| - |rest[i]|])
  }

  /** Appending `x` keeps `s` sorted. */
  ghost predicate Fits<T>(x: T, s: seq<T>, less: (T, T) -> bool) {
    forall k :: 0 <= k < |s| ==> !less(x, s[k])
  }

  ghost predicate Breaks<T>(x: T, s: seq<T>, less: (T, T) -> bool) {
    s != [] && less(x, s[|s| - 1])
  }

  /** The next element of every list is in order with the result or out of order with its own list. */
  ghost predicate NextFits<T>(result: seq<T>, taken: seq<seq<T>>, rest: seq<seq<T>>, less: (T, T) -> bool)
    requires |taken| == |rest|
  {
    forall i :: 0 <= i < |rest| && rest[i] != [] ==>
      Fits(rest[i][0], result, less) || Breaks(rest[i][0], taken[i], less)
  }

  /** The result is in order as long as every list has been, whatever order is still to come. */
  ghost predicate InStep<T>(result: seq<T>, taken: seq<seq<T>>, rest: seq<seq<T>>, less: (T, T) -> bool)
    requires |taken| == |rest|
  {
    && (forall i, x :: 0 <= i < |taken| && x in taken[i] ==> x in result)
    && (Sorted(result, less) <==> AllSorted(taken, less))
    && (Sorted(result, less) ==> NextFits(result, taken, rest, less))
  }

  lemma SortedSnoc<T>(s: seq<T>, x: T, less: (T, T) -> bool)
    ensures Sorted(s + [x], less) <==> Sorted(s, less) && Fits(x, s, less)
  {
    var t := s + [x];
    if Sorted(t, less) {
      forall j, k | 0 <= j < k < |s| ensures !less(s[k], s[j]) { assert t[j] == s[j] && t[k] == s[k]; }
      forall k | 0 <= k < |s| ensures !less(x, s[k]) { assert t[k] == s[k] && t[|s|] == x; }
    }
  }

  lemma TakeOne<T>(rest: seq<seq<T>>, from: seq<seq<T>>, i: nat)
    requires Suffixes(rest, from) && i < |rest| && rest[i] != []
    ensures Suffixes(rest[i := rest[i][1..]], from)
    ensures Taken(rest[i := rest[i][1..]], from) == Taken(rest, from)[i := Taken(rest, from)[i] + [rest[i][0]]]
  {
    AdvanceSuffix(rest, i, from);
    assert IsSuffix(rest[i], from[i]);
    var list, n := from[i], |from[i]| - |rest[i]|;
    assert list[n] == rest[i][0] && list[..n + 1] == list[..n] + [list[n]];
    assert |list| - |rest[i][1..]| == n + 1;
  }

  lemma OrderInStep<T>(result: seq<T>, taken: seq<seq<T>>, rest: seq<seq<T>>, less: (T, T) -> bool, i: nat)
    requires |taken| == |rest| && i < |rest| && rest[i] != [] && InStep(result, taken, rest, less)
    ensures Sorted(result + [rest[i][0]], less) <==> AllSorted(taken[i := taken[i] + [rest[i][0]]], less)
  {
    var x := rest[i][0];
    var took := taken[i := taken[i] + [x]];
    SortedSnoc(result, x, less);
    SortedSnoc(taken[i], x, less);
    if Sorted(result, less) && Fits(x, result, less) {
      forall k | 0 <= k < |taken[i]| ensures !less(x, taken[i][k]) {
        assert taken[i][k] in taken[i] && taken[i][k] in result;
      }
      forall j | 0 <= j < |took| ensures Sorted(took[j], less) { assert Sorted(taken[j], less); }
    }
    if AllSorted(took, less) {
      assert Sorted(took[i], less);
      forall j | 0 <= j < |taken| ensures Sorted(taken[j], less) { assert j != i ==> Sorted(took[j], less); }
      assert !Breaks(x, taken[i], less);
    }
  }

  /** A minimum of the heads goes from list `i` to the result. */
  lemma StaysInStep<T(!new)>(result: seq<T>, taken: seq<seq<T>>, rest: seq<seq<T>>, less: (T, T) -> bool, i: nat)
    requires StrictWeakOrder(less) && |taken| == |rest| && i < |rest| && rest[i] != []
    requires InStep(result, taken, rest, less) && forall x :: x in Heads(rest) ==> !less(x, rest[i][0])
    ensures InStep(result + [rest[i][0]], taken[i := taken[i] + [rest[i][0]]], rest[i := rest[i][1..]], less)
  {
    OrderInStep(result, taken, rest, less, i);
    SortedSnoc(result, rest[i][0], less);
    if Sorted(result + [rest[i][0]], less) { NextStillFits(result, taken, rest, less, i); }
  }

  lemma NextStillFits<T(!new)>(result: seq<T>, taken: seq<seq<T>>, rest: seq<seq<T>>, less: (T, T) -> bool, i: nat)
    requires StrictWeakOrder(less) && |taken| == |rest| && i < |rest| && rest[i] != []
    requires NextFits(result, taken, rest, less) && Fits(rest[i][0], result, less)
    requires forall x :: x in Heads(rest) ==> !less(x, rest[i][0])
    ensures NextFits(result + [rest[i][0]], taken[i := taken[i] + [rest[i][0]]], rest[i := rest[i][1..]], less)
  {
    var x, after := rest[i][0], rest[i := rest[i][1..]];
    forall j | 0 <= j < |after| && after[j] != []
      ensures Fits(after[j][0], result + [x], less) || Breaks(after[j][0], taken[i := taken[i] + [x]][j], less)
    {
      if j != i { HeadIsSomewhere(rest, rest[j][0]); }
    }
  }

  // ---------- the merge

  ghost predicate IsLeastHead<T(!new)>(x: T, lists: seq<seq<T>>, less: (T, T) -> bool) {
    x in Heads(lists) && forall y :: y in Heads(lists) ==> !less(y, x)
  }

  /** What the loop keeps: the result and the rest are the original elements, every list is a suffix
      of what it was, the result is in order as long as the lists have been, and if the lists came
      sorted, what is in the result is settled. */
  ghost predicate Merging<T(!new)>(result: seq<T>, lists: seq<seq<T>>, from: seq<seq<T>>, less: (T, T) -> bool) {
    && multiset(result) + Union(lists) == Union(from)
    && Suffixes(lists, from)
    && InStep(result, Taken(lists, from), lists, less)
    && (if result == [] then lists == from else IsLeastHead(result[0], from, less))
    && (AllSorted(from, less) ==>
        AllSorted(lists, less) && Sorted(result, less) && NothingBelow(Union(lists), result, less))
  }

  /** One round: a minimum `x` of the heads goes to the result and a list with that head advances. */
  lemma Round<T(!new)>(result: seq<T>, lists: seq<seq<T>>, from: seq<seq<T>>, less: (T, T) -> bool, i: nat)
    requires StrictWeakOrder(less) && Merging(result, lists, from, less)
    requires i < |lists| && lists[i] != []
    requires forall x :: x in Heads(lists) ==> !less(x, lists[i][0])
    ensures Merging(result + [lists[i][0]], lists[i := lists[i][1..]], from, less)
  {
    RoundElements(result, lists, from, i);
    RoundInStep(result, lists, from, less, i);
    if result == [] { HeadIsSomewhere(from, lists[i][0]); }
    if AllSorted(from, less) {
      RoundOrder(result, lists, less, i);
    }
  }

  lemma RoundElements<T>(result: seq<T>, lists: seq<seq<T>>, from: seq<seq<T>>, i: nat)
    requires multiset(result) + Union(lists) == Union(from) && i < |lists| && lists[i] != []
    ensures multiset(result + [lists[i][0]]) + Union(lists[i := lists[i][1..]]) == Union(from)
  {
    AdvanceElements(lists, i);
    assert multiset(result + [lists[i][0]]) == multiset(result) + multiset{lists[i][0]};
  }

  lemma RoundInStep<T(!new)>(result: seq<T>, lists: seq<seq<T>>, from: seq<seq<T>>, less: (T, T) -> bool, i: nat)
    requires StrictWeakOrder(less) && Suffixes(lists, from) && InStep(result, Taken(lists, from), lists, less)
    requires i < |lists| && lists[i] != [] && forall x :: x in Heads(lists) ==> !less(x, lists[i][0])
    ensures var after := lists[i := lists[i][1..]];
      Suffixes(after, from) && InStep(result + [lists[i][0]], Taken(after, from), after, less)
  {
    TakeOne(lists, from, i);
    StaysInStep(result, Taken(lists, from), lists, less, i);
  }

  lemma RoundOrder<T(!new)>(result: seq<T>, lists: seq<seq<T>>, less: (T, T) -> bool, i: nat)
    requires StrictWeakOrder(less) && AllSorted(lists, less) && Sorted(result, less)
             && NothingBelow(Union(lists), result, less)
    requires i < |lists| && lists[i] != [] && forall x :: x in Heads(lists) ==> !less(x, lists[i][0])
    ensures var after := lists[i := lists[i][1..]];
      AllSorted(after, less) && Sorted(result + [lists[i][0]], less)
      && NothingBelow(Union(after), result + [lists[i][0]], less)
  {
    AdvanceOrder(lists, i, less);
    HeadsAreLowest(lists, less, lists[i][0]);
    AdvanceElements(lists, i);
    Settled(result, lists[i][0], Union(lists[i := lists[i][1..]]), less);
  }

  lemma Settled<T(!new)>(result: seq<T>, x: T, rest: multiset<T>, less: (T, T) -> bool)
    requires Sorted(result, less) && NothingBelow(rest + multiset{x}, result, less)
    requires forall y :: y in rest + multiset{x} ==> !less(y, x)
    ensures Sorted(result + [x], less) && NothingBelow(rest, result + [x], less)
  {
    forall i | 0 <= i < |result| ensures !less(x, result[i]) {
      assert x in rest + multiset{x};
    }
    forall y, k | y in rest && 0 <= k < |result + [x]| ensures !less(y, (result + [x])[k]) {
      assert y in rest + multiset{x};
    }
  }

  /** The slice capacity `cap` as a number of elements; a negative one returns nothing. */
  function Cap(cap: int): nat {
    if cap < 0 then 0 else cap
  }

  /** Nothing is lost or invented, lists only lose elements at the front, and sorted lists give the
      `cap` smallest elements of all lists together.  Lists in any order: the result is sorted if and
      only if what was taken of each list is, and it begins with a smallest head. */
  method MergeSortedLists<T(==, !new)>(lists: array<seq<T>>, less: (T, T) -> bool, cap: int) returns (result: seq<T>)
    requires StrictWeakOrder(less)
    modifies lists
    ensures |result| == Min(Cap(cap), |Union(old(lists[..]))|)
    ensures multiset(result) + Union(lists[..]) == Union(old(lists[..]))
    ensures Suffixes(lists[..], old(lists[..]))
    ensures AllSorted(old(lists[..]), less) ==>
              TopK(result, Union(old(lists[..])), Cap(cap), less) && NothingBelow(Union(lists[..]), result, less)
    ensures Sorted(result, less) <==> AllSorted(Taken(lists[..], old(lists[..])), less)
    ensures cap >= |Union(old(lists[..]))| ==> (Sorted(result, less) <==> AllSorted(old(lists[..]), less))
    ensures result != [] ==> IsLeastHead(result[0], old(lists[..]), less)
  {
    ghost var from := lists[..];
    assert Taken(from, from) == seq(|from|, i requires 0 <= i < |from| => []);
    result := [];
    var pq := new PriorityQueue(less);
    pq.Init();
    FillHeap(lists, pq);
    while |pq.items| > 0 && |result| < cap
      invariant fresh(pq) && pq.Valid() && pq.less == less
      invariant multiset(pq.items) == Heads(lists[..]) && Merging(result, lists[..], from, less)
      invariant |result| <= Cap(cap)
      decreases cap - |result|
    {
      ghost var before := lists[..];
      var item, i := NextItem(lists, pq);
      Round(result, before, from, less, i);
      result := result + [item];
    }
    Merged(result, lists[..], from, less, Cap(cap));
  }

  /** The loop has stopped: at the cap or with no heads left. */
  lemma Merged<T(!new)>(result: seq<T>, lists: seq<seq<T>>, from: seq<seq<T>>, less: (T, T) -> bool, cap: nat)
    requires Merging(result, lists, from, less) && |result| <= cap
    requires Heads(lists) == multiset{} || |result| == cap
    ensures |result| == Min(cap, |Union(from)|)
    ensures AllSorted(from, less) ==> TopK(result, Union(from), cap, less) && NothingBelow(Union(lists), result, less)
    ensures cap >= |Union(from)| ==> (Sorted(result, less) <==> AllSorted(from, less))
  {
    NoHeadsNoElements(lists);
    MergedSize(result, lists, from);
    if cap >= |Union(from)| { AllTaken(lists, from); }
  }

  lemma MergedSize<T>(result: seq<T>, lists: seq<seq<T>>, from: seq<seq<T>>)
    requires multiset(result) + Union(lists) == Union(from)
    ensures |result| + |Union(lists)| == |Union(from)| && Union(from) - multiset(result) == Union(lists)
    ensures multiset(result) <= Union(from)
  {
    assert |multiset(result) + Union(lists)| == |multiset(result)| + |Union(lists)|;
  }

  lemma AllTaken<T(!new)>(lists: seq<seq<T>>, from: seq<seq<T>>)
    requires Suffixes(lists, from) && |Union(lists)| == 0
    ensures Taken(lists, from) == from
  {
    forall i | 0 <= i < |from| ensures Taken(lists, from)[i] == from[i] {
      if lists[i] != [] { ElementIsSomewhere(lists, lists[i][0]); }
      assert from[i][..|from[i]|] == from[i];
    }
  }

  /** One round of the outer loop: pop a minimum of the heads and advance a list it heads. */
  method NextItem<T(==, !new)>(lists: array<seq<T>>, pq: PriorityQueue<T>) returns (item: T, ghost at: nat)
    requires pq.Valid() && pq.items != [] && multiset(pq.items) == Heads(lists[..])
    modifies lists, pq
    ensures pq.Valid() && multiset(pq.items) == Heads(lists[..])
    ensures at < |old(lists[..])| && old(lists[..])[at] != [] && old(lists[..])[at][0] == item
    ensures lists[..] == old(lists[..])[at := old(lists[..])[at][1..]]
    ensures forall x :: x in Heads(old(lists[..])) ==> !pq.less(x, item)
  {
    ghost var before, heads := lists[..], pq.items;
    item := pq.Pop();
    forall x | x in Heads(before) ensures !pq.less(x, item) {
      assert x in multiset(heads);
    }
    at := AdvanceFirst(lists, pq, item);
  }

  /** The search of the inner loop.  There is such a list because `item` came from the heap of heads. */
  method FirstWithHead<T(==, !new)>(lists: array<seq<T>>, item: T) returns (at: nat)
    requires item in Heads(lists[..])
    ensures at < lists.Length && lists[at] != [] && lists[at][0] == item
    ensures forall j :: 0 <= j < at ==> lists[j] == [] || lists[j][0] != item
  {
    HeadIsSomewhere(lists[..], item);
    ghost var some :| 0 <= some < lists.Length && lists[..][some] != [] && lists[..][some][0] == item;
    at := 0;
    while at < lists.Length && !(|lists[at]| > 0 && item == lists[at][0])
      invariant 0 <= at <= some
      invariant forall j :: 0 <= j < at ==> lists[j] == [] || lists[j][0] != item
    {
      at := at + 1;
    }
  }

  /** The inner loop: the first list with head `item` loses it, and its next element, if any, is pushed. */
  method AdvanceFirst<T(==, !new)>(lists: array<seq<T>>, pq: PriorityQueue<T>, item: T) returns (ghost at: nat)
    requires pq.Valid() && multiset(pq.items) + multiset{item} == Heads(lists[..])
    modifies lists, pq
    ensures pq.Valid() && multiset(pq.items) == Heads(lists[..])
    ensures at < |old(lists[..])| && old(lists[..])[at] != [] && old(lists[..])[at][0] == item
    ensures forall j :: 0 <= j < at ==> old(lists[..])[j] == [] || old(lists[..])[j][0] != item
    ensures lists[..] == old(lists[..])[at := old(lists[..])[at][1..]]
  {
    ghost var before, popped := lists[..], multiset(pq.items);
    assert item in multiset(pq.items) + multiset{item};
    var i := FirstWithHead(lists, item);
    at := i;
    var list := lists[i];
    AdvanceElements(before, i);
    lists[i] := list[1..];
    assert lists[..] == before[i := list[1..]];
    Exchange(popped, Heads(before), Heads(lists[..]), Head(list[1..]), item);
    if |lists[i]| > 0 {
      pq.Push(lists[i][0]);
    }
  }

  /** The first loop: the heap starts with the heads. */
  method FillHeap<T(==, !new)>(lists: array<seq<T>>, pq: PriorityQueue<T>)
    requires pq.Valid() && pq.items == []
    modifies pq
    ensures pq.Valid() && multiset(pq.items) == Heads(lists[..])
  {
    ghost var all := lists[..];
    var i := 0;
    while i < lists.Length
      invariant 0 <= i <= lists.Length && lists[..] == all && pq.Valid()
      invariant multiset(pq.items) == Heads(all[..i])
    {
      var list := lists[i];
      HeadsSnoc(all[..i], list);
      assert all[..i + 1] == all[..i] + [list];
      if |list| > 0 {
        pq.Push(list[0]);
      }
      i := i + 1;
    }
    assert all[..i] == all;
  }

  lemma {:induction false} HeadsSnoc<T>(lists: seq<seq<T>>, list: seq<T>)
    ensures Heads(lists + [list]) == Heads(lists) + Head(list)
  {
    if lists == [] {
      assert lists + [list] == [list];
    } else {
      HeadsSnoc(lists[1..], list);
      assert (lists + [list])[1..] == lists[1..] + [list];
    }
  }

  // ---------- lists in descending order

  function Flip<T(!new)>(less: (T, T) -> bool): (T, T) -> bool {
    (a: T, b: T) => less(b, a)
  }

  /** A merge of descending lists begins with a lowest of their heads.  That is a highest element of all
      lists if and only if all heads tie. */
  lemma DescendingBestFirstIff<T(!new)>(lists: seq<seq<T>>, first: T, less: (T, T) -> bool)
    requires StrictWeakOrder(less) && AllSorted(lists, Flip(less)) && IsLeastHead(first, lists, less)
    ensures (forall x :: x in Union(lists) ==> !less(first, x)) <==>
              (forall x, y :: x in Heads(lists) && y in Heads(lists) ==> !less(x, y))
  {
    forall x | x in Heads(lists) ensures x in Union(lists) {
      HeadIsSomewhere(lists, x);
      ElementIsSomewhere(lists, x);
    }
    if forall x, y :: x in Heads(lists) && y in Heads(lists) ==> !less(x, y) {
      HeadsAreLowest(lists, Flip(less), first);
    }
  }

  // ---------- merging the best of several sources

  function Sum<T>(parts: seq<multiset<T>>): multiset<T> {
    if parts == [] then multiset{} else parts[0] + Sum(parts[1..])
  }

  lemma {:induction false} SumBounds<T>(lists: seq<seq<T>>, data: seq<multiset<T>>, i: nat)
    requires |lists| == |data| && i < |data| && forall j :: 0 <= j < |data| ==> multiset(lists[j]) <= data[j]
    ensures multiset(lists[i]) <= Union(lists) && Union(lists) <= Sum(data) && data[i] <= Sum(data)
  {
    if i > 0 {
      SumBounds(lists[1..], data[1..], i - 1);
    } else if |lists| > 1 {
      SumBounds(lists[1..], data[1..], 0);
    }
  }

  /** What Sum has beyond Union comes from one source that holds more than it answered. */
  lemma {:induction false} LeftOutSomewhere<T>(lists: seq<seq<T>>, data: seq<multiset<T>>, x: T) returns (i: nat)
    requires |lists| == |data| && Sum(data)[x] > Union(lists)[x]
    ensures i < |data| && data[i][x] > multiset(lists[i])[x]
  {
    if data[0][x] > multiset(lists[0])[x] {
      i := 0;
    } else {
      i := LeftOutSomewhere(lists[1..], data[1..], x);
      i := i + 1;
    }
  }

  lemma {:induction false} SumSize<T>(lists: seq<seq<T>>, data: seq<multiset<T>>, k: nat)
    requires |lists| == |data| && forall j :: 0 <= j < |data| ==>
               multiset(lists[j]) <= data[j] && |lists[j]| == Min(k, |data[j]|)
    ensures Min(k, |Union(lists)|) == Min(k, |Sum(data)|)
  {
    if lists != [] {
      SumSize(lists[1..], data[1..], k);
      SubsetSize(multiset(lists[0]), data[0]);
    }
  }

  /** If something left out of source `i` were below a returned `y`, all `k` answers of that source
      would be below `y` too, hence returned, and `y` would be one too many. */
  lemma SourceIsExhausted<T(!new)>(r: seq<T>, lists: seq<seq<T>>, data: seq<multiset<T>>, k: nat, less: (T, T) -> bool,
                                   i: nat, x: T, p: nat)
    requires StrictWeakOrder(less) && |lists| == |data| && i < |data| && p < |r|
    requires TopK(r, Union(lists), k, less) && TopK(lists[i], data[i], k, less) && multiset(lists[i]) <= Union(lists)
    requires data[i][x] > multiset(lists[i])[x]
    ensures !less(x, r[p])
  {
    if less(x, r[p]) {
      var y, a := r[p], multiset(lists[i]);
      assert x in data[i] - a;
      forall e | e in a ensures (a + multiset{y})[e] <= multiset(r)[e] {
        var q :| 0 <= q < |lists[i]| && lists[i][q] == e;
        assert !less(x, e) && less(e, y);
        assert e !in Union(lists) - multiset(r);
      }
      assert y !in a;
      assert a + multiset{y} <= multiset(r);
      SubsetSize(a + multiset{y}, multiset(r));
      if |lists[i]| == |data[i]| {
        FullSource(lists[i], data[i], x);
      }
    }
  }

  lemma FullSource<T>(list: seq<T>, all: multiset<T>, x: T)
    requires multiset(list) <= all && |list| == |all|
    ensures multiset(list)[x] == all[x]
  {
    assert all == multiset(list) + (all - multiset(list));
    assert all - multiset(list) == multiset{};
  }

  /** The `k` best of the `k` best of each source are the `k` best of everything. */
  lemma TopKOfTopKs<T(!new)>(r: seq<T>, lists: seq<seq<T>>, data: seq<multiset<T>>, k: nat, less: (T, T) -> bool)
    requires StrictWeakOrder(less) && |lists| == |data|
    requires forall i :: 0 <= i < |data| ==> TopK(lists[i], data[i], k, less)
    requires TopK(r, Union(lists), k, less)
    ensures TopK(r, Sum(data), k, less)
  {
    if data != [] {
      SumBounds(lists, data, 0);
    }
    SumSize(lists, data, k);
    forall x, p | x in Sum(data) - multiset(r) && 0 <= p < |r| ensures !less(x, r[p]) {
      if x !in Union(lists) - multiset(r) {
        var i := LeftOutSomewhere(lists, data, x);
        SumBounds(lists, data, i);
        SourceIsExhausted(r, lists, data, k, less, i, x, p);
      }
    }
  }
}
