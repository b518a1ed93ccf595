/** The `String` extensions: `clipped`, `replaceSpacesWithUnderscores`,
    `stableHashValue` and `convertToString`. */
module StringExt {
  import opened Wrappers
  import opened Orderings
  import ArrayExt

  function Min(a: int, b: int): int {
    if a <= b then a else b
  }

  // ---------------------------------------------------------------- clipped

  /** `clipped(maxCharacter:)`: the first `maxCharacter` characters, or the
      whole string when it is shorter. Swift's `prefix` traps on a negative
      length, hence the precondition. */
  function Clipped(s: string, maxCharacter: int): (r: string)
    requires maxCharacter >= 0
    ensures |r| == Min(maxCharacter, |s|)
    ensures r <= s
  {
    if maxCharacter < |s| then s[..maxCharacter] else s
  }

  lemma ClippedIsIdempotent(s: string, n: int)
    requires n >= 0
    ensures Clipped(Clipped(s, n), n) == Clipped(s, n)
  {
  }

  /** Clipping changes the string exactly when it is longer than the limit. */
  lemma ClippedUnchangedIff(s: string, n: int)
    requires n >= 0
    ensures Clipped(s, n) == s <==> |s| <= n
  {
  }

  // ------------------------------------------------- replaceSpacesWithUnderscores

  /** `replaceSpacesWithUnderscores()`: every " " becomes "_", nothing else moves. */
  function ReplaceSpacesWithUnderscores(s: string): (r: string)
    ensures |r| == |s|
    ensures ' ' !in r
    ensures forall i :: 0 <= i < |s| && s[i] != ' ' ==> r[i] == s[i]
    ensures forall i :: 0 <= i < |s| && s[i] == ' ' ==> r[i] == '_'
    decreases |s|
  {
    if |s| == 0 then ""
    else [if s[0] == ' ' then '_' else s[0]] + ReplaceSpacesWithUnderscores(s[1..])
  }

  /** A string without spaces is left alone, and the replacement is idempotent. */
  lemma ReplaceSpacesFixesSpaceFreeStrings(s: string)
    ensures ReplaceSpacesWithUnderscores(s) == s <==> ' ' !in s
    ensures ReplaceSpacesWithUnderscores(ReplaceSpacesWithUnderscores(s)) == ReplaceSpacesWithUnderscores(s)
  {
    var r := ReplaceSpacesWithUnderscores(s);
    if ' ' !in s {
      assert forall i :: 0 <= i < |s| ==> r[i] == s[i];
    }
    var rr := ReplaceSpacesWithUnderscores(r);
    assert forall i :: 0 <= i < |r| ==> rr[i] == r[i];
  }

  // -------------------------------------------------------- stableHashValue

  const TwoTo63: int := 0x8000_0000_0000_0000
  const TwoTo64: int := 0x1_0000_0000_0000_0000

  /** Both values leave the same remainder modulo 2^64. */
  predicate Congruent(x: int, y: int) {
    (x - y) % TwoTo64 == 0
  }

  /** The `Int` (two's complement, 64 bits) that the wrapping operators
      `&+` and `<<` leave behind for the mathematical value `x`. */
  function Wrap64(x: int): (r: int)
    ensures -TwoTo63 <= r < TwoTo63
    ensures Congruent(r, x)
  {
    (x + TwoTo63) % TwoTo64 - TwoTo63
  }

  lemma CongruentWitness(x: int, y: int)
    requires Congruent(x, y)
    ensures x - y == TwoTo64 * ((x - y) / TwoTo64)
  {
  }

  lemma CongruentIntro(x: int, y: int, k: int)
    requires x - y == TwoTo64 * k
    ensures Congruent(x, y)
  {
  }

  /** The 64-bit value congruent to `x` is unique. */
  lemma Wrap64Unique(x: int, r: int)
    requires -TwoTo63 <= r < TwoTo63
    requires Congruent(r, x)
    ensures r == Wrap64(x)
  {
    var w := Wrap64(x);
    var k := (r - x) / TwoTo64;
    var m := (w - x) / TwoTo64;
    assert r - x == TwoTo64 * k;
    assert w - x == TwoTo64 * m;
    assert r - w == TwoTo64 * (k - m);
  }

  /** Congruent inputs wrap to the same `Int`. */
  lemma Wrap64OfCongruent(x: int, y: int)
    requires Congruent(x, y)
    ensures Wrap64(x) == Wrap64(y)
  {
    var k := (x - y) / TwoTo64;
    assert x - y == TwoTo64 * k;
    var w := Wrap64(y);
    var m := (w - y) / TwoTo64;
    assert w - y == TwoTo64 * m;
    assert w - x == TwoTo64 * (m - k);
    Wrap64Unique(x, w);
  }

  /** One step of the `reduce`: `(h << 5) &+ h &+ Int(c)`. */
  function HashStep(h: int, c: char): int {
    Wrap64(Wrap64(Wrap64(h * 32) + h) + c as int)
  }

  /** `stableHashValue`: a left fold of `HashStep` over the Unicode scalars,
      starting from 5381. */
  function StableHashValue(s: string): (r: int)
    ensures -TwoTo63 <= r < TwoTo63
    decreases |s|
  {
    if |s| == 0 then 5381
    else HashStep(StableHashValue(s[..|s| - 1]), s[|s| - 1])
  }

  /** The djb2 polynomial without any wrapping: 5381 * 33^n plus each scalar
      times 33 to the number of scalars after it. */
  function Djb2(s: string): int
    decreases |s|
  {
    if |s| == 0 then 5381
    else 33 * Djb2(s[..|s| - 1]) + s[|s| - 1] as int
  }

  /** Wrapping an intermediate sum does not change the wrapped total. */
  lemma WrapAbsorbs(x: int, y: int)
    ensures Wrap64(Wrap64(x) + y) == Wrap64(x + y)
  {
    var w := Wrap64(x);
    CongruentWitness(w, x);
    CongruentIntro(w + y, x + y, (w - x) / TwoTo64);
    Wrap64OfCongruent(w + y, x + y);
  }

  /** A wrapping step equals multiply-by-33-and-add, reduced to 64 bits. */
  lemma HashStepIsWrappedMultiplyAdd(h: int, c: char)
    ensures HashStep(h, c) == Wrap64(33 * h + c as int)
  {
    WrapAbsorbs(Wrap64(h * 32) + h, c as int);
    WrapAbsorbs(h * 32, h + c as int);
    assert h * 32 + (h + c as int) == 33 * h + c as int;
  }

  /** `stableHashValue` is the djb2 polynomial of the scalars modulo 2^64, read
      as a signed 64-bit `Int`; the empty string hashes to 5381. */
  lemma {:induction false} StableHashValueIsWrappedDjb2(s: string)
    ensures StableHashValue(s) == Wrap64(Djb2(s))
    ensures -TwoTo63 <= StableHashValue(s) < TwoTo63
    ensures s == "" ==> StableHashValue(s) == 5381
    decreases |s|
  {
    if |s| > 0 {
      var init := s[..|s| - 1];
      var c := s[|s| - 1];
      StableHashValueIsWrappedDjb2(init);
      var h := StableHashValue(init);
      var p := Djb2(init);
      HashStepIsWrappedMultiplyAdd(h, c);
      StepPreservesCongruence(h, p, c);
      Wrap64OfCongruent(33 * h + c as int, 33 * p + c as int);
    }
  }

  lemma StepPreservesCongruence(h: int, p: int, c: char)
    requires h == Wrap64(p)
    ensures Congruent(33 * h + c as int, 33 * p + c as int)
  {
    CongruentWitness(h, p);
    var k := (h - p) / TwoTo64;
    CongruentIntro(33 * h + c as int, 33 * p + c as int, 33 * k);
  }

  /** Appending one scalar advances the hash by one wrapping step. */
  lemma StableHashValueAppend(s: string, c: char)
    ensures StableHashValue(s + [c]) == Wrap64(33 * StableHashValue(s) + c as int)
  {
    assert (s + [c])[..|s|] == s;
    HashStepIsWrappedMultiplyAdd(StableHashValue(s), c);
  }

  // -------------------------------------------------------- convertToString

  /** The values `convertToString` is asked about. Strings and arrays are
      modelled; every other case (Int, Double, Float, Bool, Date or anything
      CustomStringConvertible) is given by the text it renders to, or None
      when no case matches. */
  datatype Any =
    | AString(text: string)
    | AArray(items: seq<Any>)
    | AOther(rendered: Option<string>)

  /** `[String].joined(separator:)`. */
  function Join(xs: seq<string>, separator: string): string
    decreases |xs|
  {
    if |xs| == 0 then ""
    else if |xs| == 1 then xs[0]
    else xs[0] + separator + Join(xs[1..], separator)
  }

  /** `convertToString(_:)`: a string is returned as is; an array keeps the
      elements that convert, sorts them and joins them with ", ". */
  function ConvertToString(v: Any): (r: Option<string>)
    ensures v.AString? ==> r == Some(v.text)
    ensures v.AOther? ==> r == v.rendered
    ensures v.AArray? ==> exists s :: r == Some(Join(s, ", "))
                                     && multiset(s) == multiset(CompactConvert(v.items))
                                     && ArrayExt.SortedWith(s, StringLess)
    decreases v
  {
    match v
    case AString(text) => Some(text)
    case AOther(rendered) => rendered
    case AArray(items) =>
      StringLessIsStrictTotalOrder();
      Some(Join(ArrayExt.SortWith(CompactConvert(items), StringLess), ", "))
  }

  /** `compactMap({ String.convertToString($0) })`. */
  function CompactConvert(items: seq<Any>): seq<string>
    decreases items
  {
    if |items| == 0 then []
    else
      match ConvertToString(items[0])
      case Some(s) => [s] + CompactConvert(items[1..])
      case None => CompactConvert(items[1..])
  }

  /** `compactMap(f)` for a function that cannot see the items' structure. */
  function CompactMap<A, B>(f: A -> Option<B>, xs: seq<A>): seq<B>
    decreases |xs|
  {
    if |xs| == 0 then []
    else
      match f(xs[0])
      case Some(b) => [b] + CompactMap(f, xs[1..])
      case None => CompactMap(f, xs[1..])
  }

  /** `CompactConvert` is `compactMap` with `ConvertToString`. */
  lemma {:induction false} CompactConvertIsCompactMap(xs: seq<Any>)
    ensures CompactConvert(xs) == CompactMap(ConvertToString, xs)
    decreases |xs|
  {
    if |xs| > 0 {
      CompactConvertIsCompactMap(xs[1..]);
    }
  }

  lemma {:induction false} CompactMapAppend<A, B>(f: A -> Option<B>, xs: seq<A>, ys: seq<A>)
    ensures CompactMap(f, xs + ys) == CompactMap(f, xs) + CompactMap(f, ys)
    decreases |xs|
  {
    if |xs| == 0 {
      assert xs + ys == ys;
    } else {
      assert (xs + ys)[0] == xs[0];
      assert (xs + ys)[1..] == xs[1..] + ys;
      CompactMapAppend(f, xs[1..], ys);
    }
  }

  /** Taking one item out of a sequence takes it out of its multiset. */
  lemma RemoveAtMultiset<T>(ys: seq<T>, k: nat)
    requires k < |ys|
    ensures multiset(ys[..k] + ys[k + 1..]) == multiset(ys) - multiset{ys[k]}
  {
    assert ys == ys[..k] + [ys[k]] + ys[k + 1..];
  }

  /** Taking one item out of the middle takes its image out too. */
  lemma {:induction false} CompactMapRemoveAt<A, B>(f: A -> Option<B>, ys: seq<A>, k: nat)
    requires k < |ys|
    ensures multiset(CompactMap(f, ys))
         == multiset(CompactMap(f, [ys[k]])) + multiset(CompactMap(f, ys[..k] + ys[k + 1..]))
  {
    var a, m, b := ys[..k], [ys[k]], ys[k + 1..];
    assert ys == (a + m) + b;
    CompactMapAppend(f, a + m, b);
    CompactMapAppend(f, a, m);
    CompactMapAppend(f, a, b);
  }

  /** Where an item of the multiset sits in the sequence. */
  lemma IndexOf<T>(ys: seq<T>, x: T) returns (k: nat)
    requires x in multiset(ys)
    ensures k < |ys| && ys[k] == x
  {
    assert x in ys;
    k :| 0 <= k < |ys| && ys[k] == x;
  }

  /** The inductive step: matching the first item with an equal one in `ys`. */
  lemma CompactMapStep<A, B>(f: A -> Option<B>, xs: seq<A>, ys: seq<A>, k: nat)
    requires |xs| > 0 && k < |ys| && ys[k] == xs[0]
    requires multiset(CompactMap(f, xs[1..])) == multiset(CompactMap(f, ys[..k] + ys[k + 1..]))
    ensures multiset(CompactMap(f, xs)) == multiset(CompactMap(f, ys))
  {
    CompactMapRemoveAt(f, ys, k);
    assert xs == [xs[0]] + xs[1..];
    CompactMapAppend(f, [xs[0]], xs[1..]);
  }

  /** Rearranging the items rearranges their images the same way. */
  lemma {:induction false} CompactMapPermutation<A, B>(f: A -> Option<B>, xs: seq<A>, ys: seq<A>)
    requires multiset(xs) == multiset(ys)
    ensures multiset(CompactMap(f, xs)) == multiset(CompactMap(f, ys))
    decreases |xs|
  {
    if |xs| == 0 {
      assert |multiset(ys)| == 0;
    } else {
      var k := IndexOf(ys, xs[0]);
      RemoveAtMultiset(ys, k);
      RemoveAtMultiset(xs, 0);
      assert xs[..0] + xs[1..] == xs[1..];
      CompactMapPermutation(f, xs[1..], ys[..k] + ys[k + 1..]);
      CompactMapStep(f, xs, ys, k);
    }
  }

  /** Rearranging the items rearranges the converted strings the same way. */
  lemma CompactConvertPermutation(xs: seq<Any>, ys: seq<Any>)
    requires multiset(xs) == multiset(ys)
    ensures multiset(CompactConvert(xs)) == multiset(CompactConvert(ys))
  {
    CompactConvertIsCompactMap(xs);
    CompactConvertIsCompactMap(ys);
    CompactMapPermutation(ConvertToString, xs, ys);
  }

  /** The text of an array does not depend on the order of its elements. */
  lemma ArrayConversionIgnoresOrder(xs: seq<Any>, ys: seq<Any>)
    requires multiset(xs) == multiset(ys)
    ensures ConvertToString(AArray(xs)) == ConvertToString(AArray(ys))
  {
    CompactConvertPermutation(xs, ys);
    StringLessIsStrictTotalOrder();
    ArrayExt.SortWithForgetsOrder(CompactConvert(xs), CompactConvert(ys), StringLess);
  }
}
