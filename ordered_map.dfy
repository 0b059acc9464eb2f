/**
 * A JavaScript `Map<string, V>` as an insertion-ordered association list:
 * `get` looks a key up, `set` replaces the value of a present key in place
 * and appends a new key at the end, and `entries()` iterates in insertion order.
 */
module OrderedMap {
  import opened Wrappers
  import opened Sums

  type Entries<V> = seq<(string, V)>

  /** The keys, in insertion order. */
  function Keys<V>(m: Entries<V>): (ks: seq<string>)
    ensures |ks| == |m|
    ensures forall i :: 0 <= i < |m| ==> ks[i] == m[i].0
  {
    if m == [] then [] else [m[0].0] + Keys(m[1..])
  }

  /** No key occurs twice, as in every JS `Map`. */
  ghost predicate KeysDistinct<V>(m: Entries<V>)
  {
    forall i, j :: 0 <= i < j < |m| ==> m[i].0 != m[j].0
  }

  /** The position of `k`, or `|m|` when `k` is absent. */
  function IndexOf<V>(m: Entries<V>, k: string): (i: nat)
    ensures i <= |m|
    ensures i < |m| ==> m[i].0 == k
    ensures forall j :: 0 <= j < i ==> m[j].0 != k
  {
    if m == [] then 0
    else if m[0].0 == k then 0
    else 1 + IndexOf(m[1..], k)
  }

  /** `Map.prototype.get`. */
  function Get<V>(m: Entries<V>, k: string): (r: Option<V>)
    ensures r.None? <==> k !in Keys(m)
    ensures r.Some? ==> (k, r.value) in m
  {
    var i := IndexOf(m, k);
    if i < |m| then Some(m[i].1) else None
  }

  /** `Map.prototype.set`: a present key keeps its position, a new key goes last. */
  function Set<V>(m: Entries<V>, k: string, v: V): (r: Entries<V>)
    ensures k in Keys(m) ==> |r| == |m|
    ensures k !in Keys(m) ==> |r| == |m| + 1
    ensures k in Keys(m) ==> Keys(r) == Keys(m)
    ensures k !in Keys(m) ==> Keys(r) == Keys(m) + [k]
  {
    var i := IndexOf(m, k);
    if i < |m| then
      var r := m[i := (k, v)];
      assert forall j :: 0 <= j < |r| ==> Keys(r)[j] == Keys(m)[j];
      r
    else
      var r := m + [(k, v)];
      assert forall j :: 0 <= j < |r| ==> Keys(r)[j] == (Keys(m) + [k])[j];
      r
  }

  /** After `set(k, v)`, `get(k)` yields `v` and every other key reads as before. */
  lemma GetSet<V>(m: Entries<V>, k: string, v: V, k': string)
    ensures Get(Set(m, k, v), k') == if k' == k then Some(v) else Get(m, k')
  {
    var i := IndexOf(m, k);
    if i < |m| {
      IndexOfSameKeys(m, m[i := (k, v)]);
    } else {
      IndexOfAppend(m, (k, v));
    }
  }

  /** `set` never introduces a duplicate key. */
  lemma SetKeepsKeysDistinct<V>(m: Entries<V>, k: string, v: V)
    requires KeysDistinct(m)
    ensures KeysDistinct(Set(m, k, v))
  {
  }

  /** Lookups depend on the keys only. */
  lemma {:induction false} IndexOfSameKeys<V, W>(m: Entries<V>, m': Entries<W>)
    requires |m| == |m'|
    requires forall i :: 0 <= i < |m| ==> m[i].0 == m'[i].0
    ensures forall k :: IndexOf(m, k) == IndexOf(m', k)
  {
    if m != [] {
      IndexOfSameKeys(m[1..], m'[1..]);
    }
  }

  /** Appending a new entry leaves the positions of the earlier keys alone. */
  lemma {:induction false} IndexOfAppend<V>(m: Entries<V>, e: (string, V))
    requires IndexOf(m, e.0) == |m|
    ensures IndexOf(m + [e], e.0) == |m|
    ensures forall k :: IndexOf(m, k) < |m| ==> IndexOf(m + [e], k) == IndexOf(m, k)
    ensures forall k :: k != e.0 && IndexOf(m, k) == |m| ==> IndexOf(m + [e], k) == |m| + 1
  {
    if m != [] {
      assert (m + [e])[1..] == m[1..] + [e];
      IndexOfAppend(m[1..], e);
    }
  }

  /** `set` changes a sum over the entries by the new entry minus the one it replaces. */
  lemma SetSumBy<V>(m: Entries<V>, k: string, v: V, f: ((string, V)) -> int)
    ensures SumBy(Set(m, k, v), f)
         == SumBy(m, f) + f((k, v)) - (if IndexOf(m, k) < |m| then f(m[IndexOf(m, k)]) else 0)
  {
    var i := IndexOf(m, k);
    if i < |m| {
      SumByUpdate(m, i, (k, v), f);
    } else {
      SumBySnoc(m, (k, v), f);
    }
  }
}
