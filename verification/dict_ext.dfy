/** The `Dictionary` extensions: `asAlphabeticallyArray`, `first(upTo:)` and
    `merge(_:conflictTakeExisting:)`. */
module DictExt {
  import opened Wrappers
  import opened Orderings
  import ArrayExt

  // ------------------------------------------------------------------ merge

  /** `merge(_:conflictTakeExisting:)`: nothing happens for a nil `other`;
      otherwise every key of either side is kept, and a key on both sides
      keeps the existing value unless `conflictTakeExisting` is false. */
  function Merge<K, V>(m: map<K, V>, other: Option<map<K, V>>, conflictTakeExisting: bool := true): (r: map<K, V>)
    ensures other.None? ==> r == m
    ensures other.Some? ==> r.Keys == m.Keys + other.value.Keys
    ensures forall k :: k in m && (other.None? || k !in other.value) ==> r[k] == m[k]
    ensures other.Some? ==> forall k :: k in other.value && k !in m ==> r[k] == other.value[k]
    ensures other.Some? ==> forall k :: k in m && k in other.value ==>
      r[k] == (if conflictTakeExisting then m[k] else other.value[k])
  {
    match other
    case None => m
    case Some(o) => if conflictTakeExisting then o + m else m + o
  }

  /** Merging the same dictionary twice changes nothing the second time. */
  lemma MergeIsIdempotent<K, V>(m: map<K, V>, other: Option<map<K, V>>, conflictTakeExisting: bool)
    ensures Merge(Merge(m, other, conflictTakeExisting), other, conflictTakeExisting)
         == Merge(m, other, conflictTakeExisting)
  {
  }

  /** Keeping the existing values, `m` merged with `o` equals `o` merged with
      `m` taking the new ones. */
  lemma MergeDirectionsAreMirrors<K, V>(m: map<K, V>, o: map<K, V>)
    ensures Merge(m, Some(o), true) == Merge(o, Some(m), false)
  {
  }

  // ------------------------------------------------------------- first(upTo:)

  /** `order` lists every key of the dictionary exactly once: the order in
      which Swift happens to iterate it, which the source does not control. */
  ghost predicate IsEnumeration<K>(order: seq<K>, keys: set<K>) {
    (forall i, j :: 0 <= i < j < |order| ==> order[i] != order[j])
    && (forall i :: 0 <= i < |order| ==> order[i] in keys)
    && (forall k :: k in keys ==> k in order)
  }

  /** The keys in the first `n` places of `order`. */
  ghost function Leading<K>(order: seq<K>, n: int): set<K> {
    set i | 0 <= i < |order| && i < n :: order[i]
  }

  lemma {:induction false} DistinctCount<K>(order: seq<K>, n: nat)
    requires n <= |order|
    requires forall i, j :: 0 <= i < j < |order| ==> order[i] != order[j]
    ensures |Leading(order, n)| == n
    decreases n
  {
    if n > 0 {
      DistinctCount(order, n - 1);
      assert Leading(order, n) == Leading(order, n - 1) + {order[n - 1]};
      assert order[n - 1] !in Leading(order, n - 1);
    }
  }

  function Max(a: int, b: int): int {
    if a >= b then a else b
  }

  function Min(a: int, b: int): int {
    if a <= b then a else b
  }

  /** The keys from place `i` of `order` onwards. */
  ghost function Trailing<K>(order: seq<K>, i: int): set<K> {
    set j | 0 <= j < |order| && i <= j :: order[j]
  }

  /** One step of the walk: the key at place `i` is removed exactly when it is
      not among the first `maxItems`. */
  lemma WalkStep<K>(order: seq<K>, maxItems: int, i: nat)
    requires i < |order|
    requires forall a, b :: 0 <= a < b < |order| ==> order[a] != order[b]
    ensures Trailing(order, i) == Trailing(order, i + 1) + {order[i]}
    ensures order[i] !in Trailing(order, i + 1)
    ensures i < maxItems ==> order[i] in Leading(order, maxItems)
    ensures i >= maxItems ==> order[i] !in Leading(order, maxItems)
  {
  }

  lemma TrailingBounds<K>(order: seq<K>, keys: set<K>)
    requires IsEnumeration(order, keys)
    ensures Trailing(order, 0) == keys
    ensures Trailing(order, |order|) == {}
  {
  }

  lemma WalkKeys<K>(order: seq<K>, maxItems: int, i: nat, keys: set<K>)
    requires i < |order|
    requires forall a, b :: 0 <= a < b < |order| ==> order[a] != order[b]
    requires keys == Leading(order, maxItems) + Trailing(order, i)
    ensures i >= maxItems ==> keys - {order[i]} == Leading(order, maxItems) + Trailing(order, i + 1)
    ensures i < maxItems ==> keys == Leading(order, maxItems) + Trailing(order, i + 1)
  {
    WalkStep(order, maxItems, i);
  }

  /** The loop of `first(upTo:)`: walking the keys in iteration order, the
      first `maxItems` are counted and every later one is removed. */
  method WalkRemovingAfter<K, V>(m: map<K, V>, maxItems: int, order: seq<K>) returns (r: map<K, V>)
    requires IsEnumeration(order, m.Keys)
    ensures r.Keys == Leading(order, maxItems)
    ensures forall k :: k in r ==> k in m && r[k] == m[k]
  {
    r := m;
    var counter := 0;
    var i := 0;
    TrailingBounds(order, m.Keys);
    while i < |order|
      invariant 0 <= i <= |order|
      invariant counter == Min(i, Max(maxItems, 0))
      invariant r.Keys == Leading(order, maxItems) + Trailing(order, i)
      invariant forall k :: k in r ==> k in m && r[k] == m[k]
    {
      var key := order[i];
      WalkKeys(order, maxItems, i, r.Keys);
      if counter >= maxItems {
        r := r - {key};
      } else {
        counter := counter + 1;
      }
      i := i + 1;
    }
  }

  /** `first(upTo:)`: a sub-dictionary holding exactly the first `maxItems`
      keys of the iteration (none when `maxItems` is not positive), so at most
      `maxItems` entries, and all of them when there are no more than that. */
  method FirstUpTo<K, V>(m: map<K, V>, maxItems: int, order: seq<K>) returns (r: map<K, V>)
    requires IsEnumeration(order, m.Keys)
    ensures r.Keys == Leading(order, maxItems)
    ensures forall k :: k in r ==> k in m && r[k] == m[k]
    ensures |r| == Min(|m|, Max(maxItems, 0))
    ensures maxItems >= |m| ==> r == m
  {
    r := WalkRemovingAfter(m, maxItems, order);
    FirstUpToSize(m, r, order, maxItems);
  }

  /** How many entries survive, and that nothing is removed when the limit
      is at least the dictionary's size. */
  lemma FirstUpToSize<K, V>(m: map<K, V>, r: map<K, V>, order: seq<K>, maxItems: int)
    requires IsEnumeration(order, m.Keys)
    requires r.Keys == Leading(order, maxItems)
    requires forall k :: k in r ==> k in m && r[k] == m[k]
    ensures |r| == Min(|m|, Max(maxItems, 0))
    ensures maxItems >= |m| ==> r == m
  {
    assert m.Keys == Leading(order, |order|);
    DistinctCount(order, |order|);
    var n := Min(|order|, Max(maxItems, 0));
    assert Leading(order, maxItems) == Leading(order, n);
    DistinctCount(order, n);
    assert |r| == |r.Keys|;
    if maxItems >= |m| {
      assert r.Keys == m.Keys;
    }
  }

  // --------------------------------------------------- asAlphabeticallyArray

  /** `s[i]` equals `s[j]` for two different places: the value occurs twice. */
  lemma RepeatCounts<T>(s: seq<T>, i: int, j: int)
    requires 0 <= i < j < |s| && s[i] == s[j]
    ensures multiset(s)[s[i]] >= 2
  {
    assert s == s[..j] + [s[j]] + s[j + 1..];
    assert s[i] in s[..j];
  }

  lemma {:induction false} DistinctCountsOnce<T>(s: seq<T>, x: T)
    requires forall i, j :: 0 <= i < j < |s| ==> s[i] != s[j]
    ensures multiset(s)[x] <= 1
    decreases |s|
  {
    if |s| > 0 {
      assert s == [s[0]] + s[1..];
      DistinctCountsOnce(s[1..], x);
      if x == s[0] {
        assert x !in s[1..];
      }
    }
  }

  ghost function KeysOf<V>(pairs: seq<(string, V)>): set<string> {
    set i | 0 <= i < |pairs| :: pairs[i].0
  }

  lemma KeysOfAppend<V>(pairs: seq<(string, V)>, p: (string, V))
    ensures KeysOf(pairs + [p]) == KeysOf(pairs) + {p.0}
  {
    var np := pairs + [p];
    assert np[|pairs|] == p;
    assert forall i :: 0 <= i < |pairs| ==> np[i] == pairs[i];
  }

  /** What `Entries` has built so far: distinct pairs of the dictionary,
      one for each key no longer in `rest`. */
  ghost predicate EntriesSoFar<V>(m: map<string, V>, pairs: seq<(string, V)>, rest: set<string>) {
    rest <= m.Keys
    && (forall i :: 0 <= i < |pairs| ==> pairs[i].0 in m && pairs[i].1 == m[pairs[i].0] && pairs[i].0 !in rest)
    && (forall i, j :: 0 <= i < j < |pairs| ==> pairs[i].0 != pairs[j].0)
    && KeysOf(pairs) + rest == m.Keys
    && |pairs| + |rest| == |m.Keys|
  }

  /** Moving one key from `rest` into the pairs keeps `EntriesSoFar`. */
  lemma EntriesStep<V>(m: map<string, V>, pairs: seq<(string, V)>, rest: set<string>, k: string)
    requires EntriesSoFar(m, pairs, rest) && k in rest
    ensures EntriesSoFar(m, pairs + [(k, m[k])], rest - {k})
  {
    var np := pairs + [(k, m[k])];
    var nrest := rest - {k};
    forall i | 0 <= i < |np|
      ensures np[i].0 in m && np[i].1 == m[np[i].0] && np[i].0 !in nrest
    {
      if i < |pairs| {
        assert np[i] == pairs[i];
      }
    }
    forall i, j | 0 <= i < j < |np|
      ensures np[i].0 != np[j].0
    {
      assert np[i] == pairs[i];
      if j < |pairs| {
        assert np[j] == pairs[j];
      }
    }
    KeysOfAppend(pairs, (k, m[k]));
    assert KeysOf(np) + nrest == KeysOf(pairs) + rest;
    assert rest == nrest + {k};
  }

  /** `self.map { (key: $0, value: $1) }`: one pair per entry, in the order
      Swift happens to iterate the dictionary. */
  method Entries<V>(m: map<string, V>) returns (pairs: seq<(string, V)>)
    ensures |pairs| == |m|
    ensures forall i :: 0 <= i < |pairs| ==> pairs[i].0 in m && pairs[i].1 == m[pairs[i].0]
    ensures forall i, j :: 0 <= i < j < |pairs| ==> pairs[i].0 != pairs[j].0
    ensures KeysOf(pairs) == m.Keys
  {
    pairs := [];
    var rest := m.Keys;
    while rest != {}
      invariant EntriesSoFar(m, pairs, rest)
      decreases rest
    {
      var k :| k in rest;
      EntriesStep(m, pairs, rest, k);
      pairs := pairs + [(k, m[k])];
      rest := rest - {k};
    }
  }

  /** A permutation of entries with distinct keys, sorted by key, has
      strictly increasing keys and still holds every entry. */
  lemma SortedEntries<V>(m: map<string, V>, pairs: seq<(string, V)>, r: seq<(string, V)>)
    requires forall i :: 0 <= i < |pairs| ==> pairs[i].0 in m && pairs[i].1 == m[pairs[i].0]
    requires forall i, j :: 0 <= i < j < |pairs| ==> pairs[i].0 != pairs[j].0
    requires KeysOf(pairs) == m.Keys
    requires multiset(r) == multiset(pairs)
    requires forall i, j :: 0 <= i < j < |r| ==> !StringLess(r[j].0, r[i].0)
    ensures forall i :: 0 <= i < |r| ==> r[i].0 in m && r[i].1 == m[r[i].0]
    ensures forall k :: k in m ==> exists i :: 0 <= i < |r| && r[i].0 == k
    ensures forall i, j :: 0 <= i < j < |r| ==> StringLess(r[i].0, r[j].0)
  {
    StringLessIsStrictTotalOrder();
    forall i | 0 <= i < |r|
      ensures r[i].0 in m && r[i].1 == m[r[i].0]
    {
      assert r[i] in multiset(pairs);
    }
    forall k | k in m
      ensures exists i :: 0 <= i < |r| && r[i].0 == k
    {
      assert k in KeysOf(pairs);
      var j :| 0 <= j < |pairs| && pairs[j].0 == k;
      assert pairs[j] in multiset(r);
    }
    forall i, j | 0 <= i < j < |r|
      ensures StringLess(r[i].0, r[j].0)
    {
      if r[i].0 == r[j].0 {
        RepeatCounts(r, i, j);
        assert forall a, b :: 0 <= a < b < |pairs| ==> pairs[a] != pairs[b];
        DistinctCountsOnce(pairs, r[i]);
        assert false;
      }
    }
  }

  /** `asAlphabeticallyArray`: the entries as (key, value) pairs, keys in
      strictly increasing `String` order. Every entry appears once, and the
      array is the same whichever order the dictionary was iterated in. */
  method AsAlphabeticallyArray<V(!new)>(m: map<string, V>) returns (r: seq<(string, V)>)
    ensures |r| == |m|
    ensures forall i :: 0 <= i < |r| ==> r[i].0 in m && r[i].1 == m[r[i].0]
    ensures forall k :: k in m ==> exists i :: 0 <= i < |r| && r[i].0 == k
    ensures forall i, j :: 0 <= i < j < |r| ==> StringLess(r[i].0, r[j].0)
  {
    var pairs := Entries(m);
    StringLessIsStrictTotalOrder();
    r := ArrayExt.SortedByKeyPath(pairs, (p: (string, V)) => p.0, StringLess);
    SortedEntries(m, pairs, r);
  }
}
