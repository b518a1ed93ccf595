/** The `eventParameters` dictionaries every record builds for analytics: a
    `[String: Any?]` literal keyed by a prefix and each coding key's raw value,
    from which `compactMapValues({ $0 })` drops the nil entries. */
module EventParams {
  import opened Wrappers

  /** The values the records put in an event dictionary. A `Date` is counted
      in whole seconds. */
  datatype Value =
    | Text(text: string)
    | Flag(flag: bool)
    | Instant(seconds: int)
    | Count(count: int)

  /** One line of the literal: the coding key's raw value and the field. */
  type Entry = (string, Option<Value>)

  function Lift(s: Option<string>): Option<Value> {
    match s
    case Some(t) => Some(Text(t))
    case None => None
  }

  function LiftFlag(b: Option<bool>): Option<Value> {
    match b
    case Some(v) => Some(Flag(v))
    case None => None
  }

  function LiftInstant(d: Option<int>): Option<Value> {
    match d
    case Some(v) => Some(Instant(v))
    case None => None
  }

  function LiftCount(n: Option<int>): Option<Value> {
    match n
    case Some(v) => Some(Count(v))
    case None => None
  }

  /** A Swift dictionary literal with a repeated key traps, so the coding
      keys of a literal are pairwise distinct. */
  predicate DistinctKeys(entries: seq<Entry>) {
    forall i, j :: 0 <= i < j < |entries| ==> entries[i].0 != entries[j].0
  }

  /** The prefix never makes two different keys equal. */
  lemma PrefixIsInjective(prefix: string, a: string, b: string)
    requires prefix + a == prefix + b
    ensures a == b
  {
    assert a == (prefix + a)[|prefix|..];
    assert b == (prefix + b)[|prefix|..];
  }

  /** The keys of the literal: the prefix followed by each coding key. */
  function KeySet(prefix: string, entries: seq<Entry>): set<string>
    decreases |entries|
  {
    if |entries| == 0 then {}
    else KeySet(prefix, entries[..|entries| - 1]) + {prefix + entries[|entries| - 1].0}
  }

  lemma {:induction false} KeySetMembers(prefix: string, entries: seq<Entry>, k: string)
    ensures k in KeySet(prefix, entries) <==> exists i :: 0 <= i < |entries| && k == prefix + entries[i].0
    decreases |entries|
  {
    if |entries| > 0 {
      var init := entries[..|entries| - 1];
      KeySetMembers(prefix, init, k);
      if k in KeySet(prefix, init) {
        var i :| 0 <= i < |init| && k == prefix + init[i].0;
        assert entries[i] == init[i];
      }
      if exists i :: 0 <= i < |entries| && k == prefix + entries[i].0 {
        var i :| 0 <= i < |entries| && k == prefix + entries[i].0;
        if i < |init| {
          assert entries[i] == init[i];
        }
      }
    }
  }

  /** The `[String: Any?]` literal. */
  function Literal(prefix: string, entries: seq<Entry>): (r: map<string, Option<Value>>)
    requires DistinctKeys(entries)
    ensures r.Keys == KeySet(prefix, entries)
    ensures forall i :: 0 <= i < |entries| ==> prefix + entries[i].0 in r && r[prefix + entries[i].0] == entries[i].1
    decreases |entries|
  {
    if |entries| == 0 then map[]
    else
      var init := entries[..|entries| - 1];
      var last := entries[|entries| - 1];
      var m := Literal(prefix, init);
      assert forall i :: 0 <= i < |init| ==> prefix + init[i].0 != prefix + last.0 by {
        forall i | 0 <= i < |init|
          ensures prefix + init[i].0 != prefix + last.0
        {
          if prefix + init[i].0 == prefix + last.0 {
            PrefixIsInjective(prefix, init[i].0, last.0);
          }
        }
      }
      m[prefix + last.0 := last.1]
  }

  /** `compactMapValues({ $0 })`: the entries whose value is not nil, unwrapped. */
  function CompactMapValues<V>(d: map<string, Option<V>>): (r: map<string, V>)
    ensures forall k :: k in r <==> k in d && d[k].Some?
    ensures forall k :: k in r ==> r[k] == d[k].value
  {
    map k | k in d && d[k].Some? :: d[k].value
  }

  /** The key reports the field: present exactly when the field is not nil,
      and then holding its value. */
  predicate Reports(params: map<string, Value>, key: string, field: Option<Value>) {
    (key in params <==> field.Some?) && (field.Some? ==> params[key] == field.value)
  }

  /** The whole construction: every field is reported under its prefixed
      coding key, and there are no other keys. */
  function Build(prefix: string, entries: seq<Entry>): (r: map<string, Value>)
    requires DistinctKeys(entries)
    ensures forall i :: 0 <= i < |entries| ==> Reports(r, prefix + entries[i].0, entries[i].1)
    ensures r.Keys <= KeySet(prefix, entries)
  {
    CompactMapValues(Literal(prefix, entries))
  }

  /** Two literals that differ in one field only. */
  ghost predicate DifferOnlyAt(e1: seq<Entry>, e2: seq<Entry>, i: int) {
    |e1| == |e2| && 0 <= i < |e1|
    && (forall j :: 0 <= j < |e1| ==> e1[j].0 == e2[j].0)
    && (forall j :: 0 <= j < |e1| && j != i ==> e1[j].1 == e2[j].1)
  }

  /** Changing a field's value keeps the coding keys, so they stay distinct. */
  lemma DifferOnlyAtKeepsKeysDistinct(e1: seq<Entry>, e2: seq<Entry>, i: int)
    requires DistinctKeys(e1) && DifferOnlyAt(e1, e2, i)
    ensures DistinctKeys(e2)
  {
  }

  /** Dropping the last line of two literals that differ before it keeps
      them differing at the same place only. */
  lemma DifferOnlyAtInit(e1: seq<Entry>, e2: seq<Entry>, i: int)
    requires DifferOnlyAt(e1, e2, i) && i < |e1| - 1
    ensures DifferOnlyAt(e1[..|e1| - 1], e2[..|e2| - 1], i)
    ensures e2[|e2| - 1] == e1[|e1| - 1]
  {
  }

  /** Two map updates at different keys commute. */
  lemma UpdatesCommute<K, V>(m: map<K, V>, k1: K, v1: V, k2: K, v2: V)
    requires k1 != k2
    ensures m[k1 := v1][k2 := v2] == m[k2 := v2][k1 := v1]
  {
  }

  /** Two lines of a literal with distinct keys give distinct prefixed keys. */
  lemma DistinctPrefixedKeys(prefix: string, e: seq<Entry>, i: int, j: int)
    requires DistinctKeys(e) && 0 <= i < j < |e|
    ensures prefix + e[i].0 != prefix + e[j].0
  {
    if prefix + e[i].0 == prefix + e[j].0 {
      PrefixIsInjective(prefix, e[i].0, e[j].0);
    }
  }

  lemma {:induction false} LiteralChangeOne(prefix: string, e1: seq<Entry>, e2: seq<Entry>, i: int)
    requires DistinctKeys(e1) && DifferOnlyAt(e1, e2, i)
    ensures DistinctKeys(e2)
    ensures Literal(prefix, e2) == Literal(prefix, e1)[prefix + e1[i].0 := e2[i].1]
    decreases |e1|
  {
    DifferOnlyAtKeepsKeysDistinct(e1, e2, i);
    var n := |e1| - 1;
    if i == n {
      assert e1[..n] == e2[..n];
    } else {
      DifferOnlyAtInit(e1, e2, i);
      LiteralChangeOne(prefix, e1[..n], e2[..n], i);
      DistinctPrefixedKeys(prefix, e1, i, n);
      UpdatesCommute(Literal(prefix, e1[..n]), prefix + e1[i].0, e2[i].1, prefix + e1[n].0, e1[n].1);
    }
  }

  /** Changing one field of a record changes its parameters at that field's
      key only: the key now reports the new value, or is gone when the new
      value is nil. */
  lemma BuildChangeOne(prefix: string, e1: seq<Entry>, e2: seq<Entry>, i: int)
    requires DistinctKeys(e1) && DifferOnlyAt(e1, e2, i)
    ensures DistinctKeys(e2)
    ensures e2[i].1.Some? ==> Build(prefix, e2) == Build(prefix, e1)[prefix + e1[i].0 := e2[i].1.value]
    ensures e2[i].1.None? ==> Build(prefix, e2) == Build(prefix, e1) - {prefix + e1[i].0}
  {
    LiteralChangeOne(prefix, e1, e2, i);
    CompactUpdate(Literal(prefix, e1), prefix + e1[i].0, e2[i].1);
  }

  /** Dropping nil entries after an update: a value is set, a nil removes
      the key. */
  lemma CompactUpdate<V>(d: map<string, Option<V>>, k: string, v: Option<V>)
    ensures v.Some? ==> CompactMapValues(d[k := v]) == CompactMapValues(d)[k := v.value]
    ensures v.None? ==> CompactMapValues(d[k := v]) == CompactMapValues(d) - {k}
  {
  }
}
