/**
 The PriorityQueue of internal/utils/utils.go driven by Go's container/heap: a binary heap in a
 slice, restored by sifting up after a Push and down after a Pop.
 */
module PriorityQueues {
  import opened Orders

  function Parent(j: nat): nat
    requires j > 0
  {
    (j - 1) / 2
  }

  lemma ChildrenOf(i: nat, c: nat)
    requires c > 0
    ensures Parent(c) == i <==> c == 2 * i + 1 || c == 2 * i + 2
  {
  }

  /** No element among the first `n` is below its parent, where the parent is at `lo` or later. */
  ghost predicate HeapFrom<T>(items: seq<T>, less: (T, T) -> bool, lo: nat, n: nat)
    requires n <= |items|
  {
    forall j :: 0 < j < n && Parent(j) >= lo ==> !less(items[j], items[Parent(j)])
  }

  /** In a heap the root is a minimum. */
  lemma {:induction false} RootIsMinimum<T(!new)>(items: seq<T>, less: (T, T) -> bool, j: nat)
    requires StrictWeakOrder(less) && HeapFrom(items, less, 0, |items|) && j < |items|
    ensures !less(items[j], items[0])
  {
    if j > 0 {
      RootIsMinimum(items, less, Parent(j));
    }
  }

  /** While sifting down: only the pairs below `i` may be out of order, and what is below `i` is not
      below the parent of `i`. */
  ghost predicate DownHole<T>(items: seq<T>, less: (T, T) -> bool, lo: nat, n: nat, i: nat)
    requires n <= |items|
  {
    && (forall j :: 0 < j < n && Parent(j) >= lo && Parent(j) != i ==> !less(items[j], items[Parent(j)]))
    && (forall j :: 0 < j < n && Parent(j) == i && i > 0 && Parent(i) >= lo ==> !less(items[j], items[Parent(i)]))
  }

  /** While sifting up: only the pair above `i` may be out of order. */
  ghost predicate UpHole<T>(items: seq<T>, less: (T, T) -> bool, i: nat) {
    && (forall j :: 0 < j < |items| && j != i ==> !less(items[j], items[Parent(j)]))
    && (forall j :: 0 < j < |items| && Parent(j) == i && i > 0 ==> !less(items[j], items[Parent(i)]))
  }

  function Swapped<T>(s: seq<T>, i: nat, j: nat): seq<T>
    requires i < |s| && j < |s|
  {
    s[i := s[j]][j := s[i]]
  }

  lemma DownOnce<T(!new)>(items: seq<T>, less: (T, T) -> bool, lo: nat, n: nat, i: nat, j: nat)
    requires StrictWeakOrder(less) && n <= |items| && j < n && 0 < j && Parent(j) == i && lo <= i
    requires DownHole(items, less, lo, n, i) && less(items[j], items[i])
    requires forall c :: 0 < c < n && Parent(c) == i ==> !less(items[c], items[j])
    ensures DownHole(Swapped(items, i, j), less, lo, n, j)
  {
    var t := Swapped(items, i, j);
    forall c | 0 < c < n && Parent(c) >= lo && Parent(c) != j ensures !less(t[c], t[Parent(c)]) {
      if c == i {
        assert !less(items[j], items[Parent(i)]);
      } else if Parent(c) != i {
        assert !less(items[c], items[Parent(c)]);
      }
    }
    forall c | 0 < c < n && Parent(c) == j ensures !less(t[c], t[Parent(j)]) {
      assert !less(items[c], items[Parent(c)]);
    }
  }

  lemma UpOnce<T(!new)>(items: seq<T>, less: (T, T) -> bool, j: nat)
    requires StrictWeakOrder(less) && 0 < j < |items| && UpHole(items, less, j) && less(items[j], items[Parent(j)])
    ensures UpHole(Swapped(items, Parent(j), j), less, Parent(j))
  {
    var i := Parent(j);
    var t := Swapped(items, i, j);
    forall c | 0 < c < |t| && c != i ensures !less(t[c], t[Parent(c)]) {
      if c != j && Parent(c) == i {
        assert !less(items[c], items[i]);
      } else if c != j && Parent(c) == j {
        assert !less(items[c], items[Parent(j)]);
      } else if c != j {
        assert !less(items[c], items[Parent(c)]);
      }
    }
    forall c | 0 < c < |t| && Parent(c) == i && i > 0 ensures !less(t[c], t[Parent(i)]) {
      assert !less(items[i], items[Parent(i)]);
      assert c != j ==> !less(items[c], items[i]);
    }
  }

  class PriorityQueue<T(==, !new)> {
    var items: seq<T>
    const less: (T, T) -> bool

    ghost predicate Valid()
      reads this
    {
      StrictWeakOrder(less) && HeapFrom(items, less, 0, |items|)
    }

    constructor (less: (T, T) -> bool)
      requires StrictWeakOrder(less)
      ensures Valid() && items == [] && this.less == less
    {
      this.less := less;
      items := [];
    }

    function Less(i: nat, j: nat): bool
      requires i < |items| && j < |items|
      reads this
    {
      less(items[i], items[j])
    }

    method Swap(i: nat, j: nat)
      requires i < |items| && j < |items|
      modifies this
      ensures items == Swapped(old(items), i, j) && multiset(items) == multiset(old(items))
    {
      items := items[i := items[j]][j := items[i]];
    }

    /** container/heap's up. */
    method Up(start: nat)
      requires start < |items| && StrictWeakOrder(less) && UpHole(items, less, start)
      modifies this
      ensures Valid() && multiset(items) == multiset(old(items))
    {
      var j: nat := start;
      while j > 0 && Less(j, Parent(j))
        invariant j < |items| && UpHole(items, less, j) && multiset(items) == multiset(old(items))
      {
        var i := Parent(j);
        UpOnce(items, less, j);
        Swap(i, j);
        j := i;
      }
      assert j > 0 ==> !less(items[j], items[Parent(j)]);
    }

    /** The child to compare with: the right one only if it is below the left one. */
    method LesserChild(i: nat, n: nat) returns (j: nat)
      requires 2 * i + 1 < n <= |items| && StrictWeakOrder(less)
      ensures 0 < j < n && Parent(j) == i
      ensures forall c :: 0 < c < n && Parent(c) == i ==> !less(items[c], items[j])
    {
      j := 2 * i + 1;
      if j + 1 < n && Less(j + 1, j) {
        j := j + 1;
      }
      assert !less(items[2 * i + 1], items[j]) && (2 * i + 2 < n ==> !less(items[2 * i + 2], items[j]));
      forall c | 0 < c < n && Parent(c) == i ensures !less(items[c], items[j]) {
        ChildrenOf(i, c);
      }
    }

    /** container/heap's down on the first `n` elements; the rest stays where it is. */
    method Down(start: nat, n: nat)
      requires n <= |items| && StrictWeakOrder(less) && HeapFrom(items, less, start + 1, n)
      modifies this
      ensures |items| == |old(items)| && HeapFrom(items, less, start, n)
      ensures items[n..] == old(items)[n..] && multiset(items) == multiset(old(items))
    {
      var i := start;
      while 2 * i + 1 < n
        invariant start <= i && |items| == |old(items)| && n <= |items|
        invariant DownHole(items, less, start, n, i)
        invariant items[n..] == old(items)[n..] && multiset(items) == multiset(old(items))
        decreases n - i
      {
        var j := LesserChild(i, n);
        if !Less(j, i) {
          HoleFilled(items, less, start, n, i, j);
          return;
        }
        DownOnce(items, less, start, n, i, j);
        Swap(i, j);
        i := j;
      }
    }

    /** container/heap's Init. */
    method Init()
      requires StrictWeakOrder(less)
      modifies this
      ensures Valid() && multiset(items) == multiset(old(items))
    {
      var i := |items| / 2;
      while i > 0
        invariant 0 <= i <= |items| / 2 && |items| == |old(items)|
        invariant HeapFrom(items, less, i, |items|) && multiset(items) == multiset(old(items))
      {
        i := i - 1;
        Down(i, |items|);
      }
    }

    /** heap.Push: append, then sift up. */
    method Push(x: T)
      requires Valid()
      modifies this
      ensures Valid() && multiset(items) == multiset(old(items)) + multiset{x}
    {
      items := items + [x];
      Up(|items| - 1);
    }

    /** heap.Pop: swap the root with the last element, sift down, cut the last element off. */
    method Pop() returns (x: T)
      requires Valid() && items != []
      modifies this
      ensures Valid() && multiset(old(items)) == multiset(items) + multiset{x}
      ensures forall i :: 0 <= i < |old(items)| ==> !less(old(items)[i], x)
    {
      var n := |items| - 1;
      forall i | 0 <= i < |items| ensures !less(items[i], items[0]) {
        RootIsMinimum(items, less, i);
      }
      Swap(0, n);
      assert items[n..] == [old(items)[0]];
      Down(0, n);
      x := items[n];
      assert items == items[..n] + [x];
      items := items[..n];
    }
  }

  /** The larger element stays: the hole at `i` is filled when its smaller child `j` is not below it. */
  lemma HoleFilled<T(!new)>(items: seq<T>, less: (T, T) -> bool, lo: nat, n: nat, i: nat, j: nat)
    requires StrictWeakOrder(less) && n <= |items| && 0 < j < n && Parent(j) == i
    requires DownHole(items, less, lo, n, i) && !less(items[j], items[i])
    requires forall c :: 0 < c < n && Parent(c) == i ==> !less(items[c], items[j])
    ensures HeapFrom(items, less, lo, n)
  {
    forall c | 0 < c < n && Parent(c) >= lo ensures !less(items[c], items[Parent(c)]) {
      if Parent(c) == i { assert !less(items[c], items[j]); }
    }
  }
}
