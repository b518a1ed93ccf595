/** `Array.sortByKeyPath` and `Array.sortedByKeyPath`: sort by the value at a
    key path, ascending unless told otherwise.

    The closure handed to Swift's `sort` is `ascending ? k1 < k2 : k1 > k2`.
    Swift does not promise a stable sort, so among elements with equal keys
    any order is a correct outcome; the model's insertion sort keeps input
    order, which is one of them. */
module ArrayExt {
  import opened Orderings

  /** The comparator the source builds from a key path and a direction. */
  function KeyedBefore<T, K>(key: T -> K, less: (K, K) -> bool, ascending: bool): (T, T) -> bool {
    (x: T, y: T) => if ascending then less(key(x), key(y)) else less(key(y), key(x))
  }

  /** No element is `before` an element to its left. */
  ghost predicate SortedWith<T>(xs: seq<T>, before: (T, T) -> bool) {
    forall i, j :: 0 <= i < j < |xs| ==> !before(xs[j], xs[i])
  }

  lemma KeyedBeforeIsStrictOrder<T(!new), K(!new)>(key: T -> K, less: (K, K) -> bool, ascending: bool)
    requires StrictOrder(less)
    ensures StrictOrder(KeyedBefore(key, less, ascending))
  {
    var before := KeyedBefore(key, less, ascending);
    forall a, b, c | before(a, b) && before(b, c)
      ensures before(a, c)
    {
      if ascending {
        assert less(key(a), key(b)) && less(key(b), key(c));
      } else {
        assert less(key(c), key(b)) && less(key(b), key(a));
      }
    }
  }

  /** Puts `x` after every element it is not `before`, keeping `ys` sorted. */
  function Insert<T(!new)>(x: T, ys: seq<T>, before: (T, T) -> bool): (r: seq<T>)
    requires StrictOrder(before)
    requires SortedWith(ys, before)
    ensures multiset(r) == multiset(ys) + multiset{x}
    ensures |r| == |ys| + 1
    ensures SortedWith(r, before)
    decreases |ys|
  {
    if |ys| == 0 then [x]
    else if before(x, ys[0]) then
      assert forall k :: 0 <= k < |ys| ==> !before(ys[k], x);
      [x] + ys
    else
      var tail := Insert(x, ys[1..], before);
      assert ys == [ys[0]] + ys[1..];
      var r := [ys[0]] + tail;
      assert forall j :: 0 < j < |r| ==> !before(r[j], ys[0]) by {
        forall j | 0 < j < |r|
          ensures !before(r[j], ys[0])
        {
          assert r[j] in multiset(tail);
          if r[j] != x {
            assert r[j] in multiset(ys[1..]);
            var k :| 0 <= k < |ys[1..]| && ys[1..][k] == r[j];
            assert ys[k + 1] == r[j];
          }
        }
      }
      r
  }

  /** Stable insertion sort under a strict order. */
  function SortWith<T(!new)>(xs: seq<T>, before: (T, T) -> bool): (r: seq<T>)
    requires StrictOrder(before)
    ensures |r| == |xs|
    ensures multiset(r) == multiset(xs)
    ensures SortedWith(r, before)
    decreases |xs|
  {
    if |xs| == 0 then []
    else
      var init := xs[..|xs| - 1];
      assert xs == init + [xs[|xs| - 1]];
      Insert(xs[|xs| - 1], SortWith(init, before), before)
  }

  /** `sortedByKeyPath(keyPath:ascending:)`: the same elements, ordered by key
      (non-decreasing when `ascending`, non-increasing otherwise). */
  function SortedByKeyPath<T(!new), K(!new)>(xs: seq<T>, key: T -> K, less: (K, K) -> bool, ascending: bool := true): (r: seq<T>)
    requires StrictOrder(less)
    ensures |r| == |xs|
    ensures multiset(r) == multiset(xs)
    ensures ascending ==> forall i, j :: 0 <= i < j < |r| ==> !less(key(r[j]), key(r[i]))
    ensures !ascending ==> forall i, j :: 0 <= i < j < |r| ==> !less(key(r[i]), key(r[j]))
    ensures |xs| <= 1 ==> r == xs
  {
    KeyedBeforeIsStrictOrder(key, less, ascending);
    var r := SortWith(xs, KeyedBefore(key, less, ascending));
    assert |xs| == 1 ==> r == xs by {
      if |xs| == 1 {
        assert r[0] in multiset(xs);
      }
    }
    r
  }

  /** `sortByKeyPath(keyPath:ascending:)`, the mutating form: the array is
      rebuilt one element at a time into a sorted prefix. */
  method SortByKeyPath<T(!new), K(!new)>(xs: seq<T>, key: T -> K, less: (K, K) -> bool, ascending: bool := true) returns (ys: seq<T>)
    requires StrictOrder(less)
    ensures |ys| == |xs|
    ensures multiset(ys) == multiset(xs)
    ensures ascending ==> forall i, j :: 0 <= i < j < |ys| ==> !less(key(ys[j]), key(ys[i]))
    ensures !ascending ==> forall i, j :: 0 <= i < j < |ys| ==> !less(key(ys[i]), key(ys[j]))
  {
    var before := KeyedBefore(key, less, ascending);
    KeyedBeforeIsStrictOrder(key, less, ascending);
    ys := [];
    var i := 0;
    while i < |xs|
      invariant 0 <= i <= |xs|
      invariant |ys| == i
      invariant multiset(ys) == multiset(xs[..i])
      invariant SortedWith(ys, before)
    {
      assert xs[..i + 1] == xs[..i] + [xs[i]];
      ys := Insert(xs[i], ys, before);
      i := i + 1;
    }
    assert xs[..i] == xs;
  }

  /** Two sorted arrangements of the same non-empty multiset start alike. */
  lemma SortedHeadsAgree<T(!new)>(a: seq<T>, b: seq<T>, before: (T, T) -> bool)
    requires Trichotomous(before)
    requires SortedWith(a, before) && SortedWith(b, before)
    requires |a| > 0 && multiset(a) == multiset(b)
    ensures |b| > 0 && a[0] == b[0]
  {
    assert a[0] in multiset(b);
    var i :| 0 <= i < |b| && b[i] == a[0];
    assert b[0] in multiset(a);
    var j :| 0 <= j < |a| && a[j] == b[0];
  }

  /** Under a total order the sorted arrangement of a multiset is unique, so
      sorting forgets the input order entirely. */
  lemma {:induction false} SortedWithUnique<T(!new)>(a: seq<T>, b: seq<T>, before: (T, T) -> bool)
    requires StrictTotalOrder(before)
    requires SortedWith(a, before) && SortedWith(b, before)
    requires multiset(a) == multiset(b)
    ensures a == b
    decreases |a|
  {
    if |a| == 0 {
      assert |multiset(b)| == 0;
    } else {
      SortedHeadsAgree(a, b, before);
      assert a == [a[0]] + a[1..] && b == [b[0]] + b[1..];
      assert multiset(a[1..]) == multiset(a) - multiset{a[0]};
      assert multiset(b[1..]) == multiset(b) - multiset{b[0]};
      SortedWithUnique(a[1..], b[1..], before);
    }
  }

  /** Sorting two arrangements of the same elements under a total order gives
      the same array. */
  lemma SortWithForgetsOrder<T(!new)>(xs: seq<T>, ys: seq<T>, before: (T, T) -> bool)
    requires StrictTotalOrder(before)
    requires multiset(xs) == multiset(ys)
    ensures SortWith(xs, before) == SortWith(ys, before)
  {
    SortedWithUnique(SortWith(xs, before), SortWith(ys, before), before);
  }
}
