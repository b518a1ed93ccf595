/** Orderings used by the sorting helpers: the properties a comparator must
    have, and `String`'s `<`, which the model takes to be lexicographic order
    on characters (Unicode scalar values). */
module Orderings {

  ghost predicate Irreflexive<K(!new)>(less: (K, K) -> bool) {
    forall a :: !less(a, a)
  }

  ghost predicate Transitive<K(!new)>(less: (K, K) -> bool) {
    forall a, b, c :: less(a, b) && less(b, c) ==> less(a, c)
  }

  /** What `sort(by:)` asks of its comparator. */
  ghost predicate StrictOrder<K(!new)>(less: (K, K) -> bool) {
    Irreflexive(less) && Transitive(less)
  }

  /** Any two distinct values are ordered one way or the other. */
  ghost predicate Trichotomous<K(!new)>(less: (K, K) -> bool) {
    forall a, b :: a != b ==> less(a, b) || less(b, a)
  }

  ghost predicate StrictTotalOrder<K(!new)>(less: (K, K) -> bool) {
    StrictOrder(less) && Trichotomous(less)
  }

  /** `<` on `Int` (and on `Date`, which the model counts in whole seconds). */
  predicate IntLess(a: int, b: int) {
    a < b
  }

  /** `<` on `String`: a proper prefix comes first, otherwise the first
      differing character decides. */
  predicate StringLess(a: string, b: string)
    decreases |a|
  {
    if |a| == 0 then |b| > 0
    else if |b| == 0 then false
    else if a[0] == b[0] then StringLess(a[1..], b[1..])
    else a[0] < b[0]
  }

  lemma IntLessIsStrictTotalOrder()
    ensures StrictTotalOrder(IntLess)
  {
  }

  lemma {:induction false} StringLessIrreflexive(a: string)
    ensures !StringLess(a, a)
    decreases |a|
  {
    if |a| > 0 {
      StringLessIrreflexive(a[1..]);
    }
  }

  lemma {:induction false} StringLessTransitive(a: string, b: string, c: string)
    requires StringLess(a, b) && StringLess(b, c)
    ensures StringLess(a, c)
    decreases |a|
  {
    if |a| > 0 && a[0] == b[0] && b[0] == c[0] {
      StringLessTransitive(a[1..], b[1..], c[1..]);
    }
  }

  lemma {:induction false} StringLessTrichotomous(a: string, b: string)
    requires a != b
    ensures StringLess(a, b) || StringLess(b, a)
    decreases |a|
  {
    if |a| > 0 && |b| > 0 && a[0] == b[0] {
      assert a == [a[0]] + a[1..] && b == [b[0]] + b[1..];
      StringLessTrichotomous(a[1..], b[1..]);
    }
  }

  lemma StringLessIsStrictTotalOrder()
    ensures StrictTotalOrder(StringLess)
  {
    forall a | true
      ensures !StringLess(a, a)
    {
      StringLessIrreflexive(a);
    }
    forall a, b, c | StringLess(a, b) && StringLess(b, c)
      ensures StringLess(a, c)
    {
      StringLessTransitive(a, b, c);
    }
    forall a, b | a != b
      ensures StringLess(a, b) || StringLess(b, a)
    {
      StringLessTrichotomous(a, b);
    }
  }
}
