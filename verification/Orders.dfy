/**
 Strict weak orders given as Go `less` functions, sorted lists, and what it means for a list to be
 the `k` smallest elements of a multiset.
 */
module Orders {
  ghost predicate StrictWeakOrder<T(!new)>(less: (T, T) -> bool) {
    && (forall a: T :: !less(a, a))
    && (forall a: T, b: T, c: T :: less(a, b) && less(b, c) ==> less(a, c))
    && (forall a: T, b: T, c: T :: !less(a, b) && !less(b, c) ==> !less(a, c))
  }

  ghost predicate Sorted<T>(s: seq<T>, less: (T, T) -> bool) {
    forall i, j :: 0 <= i < j < |s| ==> !less(s[j], s[i])
  }

  /** Nothing in `rest` is below anything in `s`. */
  ghost predicate NothingBelow<T>(rest: multiset<T>, s: seq<T>, less: (T, T) -> bool) {
    forall x, i :: x in rest && 0 <= i < |s| ==> !less(x, s[i])
  }

  function Min(a: int, b: int): int {
    if a <= b then a else b
  }

  /** `s` is a sorted list of the `k` smallest elements of `all`, ties chosen somehow. */
  ghost predicate TopK<T>(s: seq<T>, all: multiset<T>, k: nat, less: (T, T) -> bool) {
    && Sorted(s, less)
    && |s| == Min(k, |all|)
    && multiset(s) <= all
    && NothingBelow(all - multiset(s), s, less)
  }

  lemma SubsetSize<T>(a: multiset<T>, b: multiset<T>)
    requires a <= b
    ensures |a| <= |b|
  {
    assert b == a + (b - a);
  }

  lemma PrefixSubset<T>(s: seq<T>, i: nat)
    requires i <= |s|
    ensures multiset(s[..i]) + multiset(s[i..]) == multiset(s)
  {
    assert s == s[..i] + s[i..];
  }

  /** Two lists of the `k` smallest differ in ties only: position by position neither is below the other. */
  lemma TopKUnique<T(!new)>(a: seq<T>, b: seq<T>, all: multiset<T>, k: nat, less: (T, T) -> bool)
    requires StrictWeakOrder(less) && TopK(a, all, k, less) && TopK(b, all, k, less)
    ensures |a| == |b| && forall i :: 0 <= i < |a| ==> !less(a[i], b[i]) && !less(b[i], a[i])
  {
    forall i | 0 <= i < |a| ensures !less(a[i], b[i]) && !less(b[i], a[i]) {
      TopKNotBelow(a, b, all, k, less, i);
      TopKNotBelow(b, a, all, k, less, i);
    }
  }

  lemma TopKNotBelow<T(!new)>(a: seq<T>, b: seq<T>, all: multiset<T>, k: nat, less: (T, T) -> bool, i: nat)
    requires StrictWeakOrder(less) && TopK(a, all, k, less) && TopK(b, all, k, less) && i < |a|
    ensures !less(a[i], b[i])
  {
    if less(a[i], b[i]) {
      var p, q := multiset(a[..i + 1]), multiset(b[..i]);
      PrefixSubset(a, i + 1);
      forall x | x in p ensures p[x] <= q[x] {
        var j :| 0 <= j < i + 1 && a[j] == x;
        assert less(x, b[i]);
        BelowIsBefore(b, all, k, less, i, x);
      }
      SubsetSize(p, q);
    }
  }

  /** What is below the `i`-th of the `k` smallest comes before it, every time it occurs. */
  lemma BelowIsBefore<T(!new)>(b: seq<T>, all: multiset<T>, k: nat, less: (T, T) -> bool, i: nat, x: T)
    requires StrictWeakOrder(less) && TopK(b, all, k, less) && i < |b| && less(x, b[i])
    ensures multiset(b[..i])[x] == all[x]
  {
    PrefixSubset(b, i);
    assert x !in all - multiset(b);
    assert x !in b[i..];
    assert all == multiset(b) + (all - multiset(b));
  }
}
