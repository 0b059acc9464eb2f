/**
 * A stable sort by an integer key, as `Array.prototype.sort` with a numeric
 * comparator `(a, b) => key(a) - key(b)` behaves (the sort is stable since
 * ES2019). A descending sort by a field is the ascending sort by its negation,
 * which is exactly the comparator `(a, b) => b.x - a.x`.
 */
module StableSort {
  import opened Sums

  /** `s` is non-decreasing by `key`. */
  ghost predicate Sorted<T>(s: seq<T>, key: T -> int)
  {
    forall i, j :: 0 <= i < j < |s| ==> key(s[i]) <= key(s[j])
  }

  /** The elements of `s` whose key is `v`, in their order in `s`. */
  function Having<T>(s: seq<T>, key: T -> int, v: int): seq<T>
  {
    if s == [] then []
    else (if key(s[0]) == v then [s[0]] else []) + Having(s[1..], key, v)
  }

  /** Inserts `x` in front of the first element whose key is not smaller. */
  function Insert<T>(x: T, t: seq<T>, key: T -> int): (r: seq<T>)
    ensures multiset(r) == multiset(t) + multiset{x}
    ensures |r| == |t| + 1
  {
    if t == [] || key(x) <= key(t[0]) then [x] + t
    else
      assert t == [t[0]] + t[1..];
      [t[0]] + Insert(x, t[1..], key)
  }

  /** Every element of `Insert(x, t, key)` is `x` or an element of `t`. */
  lemma InsertElements<T>(x: T, t: seq<T>, key: T -> int, y: T)
    requires y in Insert(x, t, key)
    ensures y == x || y in t
  {
    assert y in multiset(Insert(x, t, key));
  }

  lemma {:induction false} InsertSorted<T>(x: T, t: seq<T>, key: T -> int)
    requires Sorted(t, key)
    ensures Sorted(Insert(x, t, key), key)
  {
    if t != [] && key(x) > key(t[0]) {
      var rest := Insert(x, t[1..], key);
      InsertSorted(x, t[1..], key);
      var r := [t[0]] + rest;
      forall i, j | 0 <= i < j < |r| ensures key(r[i]) <= key(r[j]) {
        if i == 0 {
          assert r[j] in rest;
          InsertElements(x, t[1..], key, r[j]);
        } else {
          assert r[i] == rest[i - 1] && r[j] == rest[j - 1];
        }
      }
    }
  }

  /** Insertion sort: sorted by `key`, a permutation of `s`. */
  function Sort<T>(s: seq<T>, key: T -> int): (r: seq<T>)
    ensures multiset(r) == multiset(s)
    ensures |r| == |s|
    ensures Sorted(r, key)
  {
    if s == [] then []
    else
      assert s == [s[0]] + s[1..];
      InsertSorted(s[0], Sort(s[1..], key), key);
      Insert(s[0], Sort(s[1..], key), key)
  }

  /** `x` goes in front of every element with the same key. */
  lemma {:induction false} InsertHaving<T>(x: T, t: seq<T>, key: T -> int, v: int)
    ensures Having(Insert(x, t, key), key, v)
         == if key(x) == v then [x] + Having(t, key, v) else Having(t, key, v)
  {
    if t == [] || key(x) <= key(t[0]) {
      assert ([x] + t)[1..] == t;
    } else {
      var rest := Insert(x, t[1..], key);
      assert Insert(x, t, key) == [t[0]] + rest;
      assert ([t[0]] + rest)[1..] == rest;
      InsertHaving(x, t[1..], key, v);
      var head := if key(t[0]) == v then [t[0]] else [];
      assert Having(t, key, v) == head + Having(t[1..], key, v);
      assert Having(Insert(x, t, key), key, v) == head + Having(rest, key, v);
    }
  }

  /** Stability: for every key value, the elements with that key keep their input order. */
  lemma {:induction false} SortStable<T>(s: seq<T>, key: T -> int, v: int)
    ensures Having(Sort(s, key), key, v) == Having(s, key, v)
  {
    if s != [] {
      SortStable(s[1..], key, v);
      InsertHaving(s[0], Sort(s[1..], key), key, v);
    }
  }

  /** Taking a prefix keeps, per key value, a prefix of the elements with that key. */
  lemma {:induction false} HavingTake<T>(s: seq<T>, n: nat, key: T -> int, v: int)
    requires n <= |s|
    ensures Having(s[..n], key, v) <= Having(s, key, v)
  {
    if n > 0 {
      assert s[..n][1..] == s[1..][..n - 1];
      HavingTake(s[1..], n - 1, key, v);
    }
  }

  lemma {:induction false} InsertSumBy<T>(x: T, t: seq<T>, key: T -> int, f: T -> int)
    ensures SumBy(Insert(x, t, key), f) == f(x) + SumBy(t, f)
  {
    if t == [] || key(x) <= key(t[0]) {
      assert ([x] + t)[1..] == t;
    } else {
      var rest := Insert(x, t[1..], key);
      assert ([t[0]] + rest)[1..] == rest;
      InsertSumBy(x, t[1..], key, f);
    }
  }

  /** Sorting does not change the sum of any measure. */
  lemma {:induction false} SortSumBy<T>(s: seq<T>, key: T -> int, f: T -> int)
    ensures SumBy(Sort(s, key), f) == SumBy(s, f)
  {
    if s != [] {
      SortSumBy(s[1..], key, f);
      InsertSumBy(s[0], Sort(s[1..], key), key, f);
    }
  }

  /** No two elements of `s` share a `name`. */
  ghost predicate DistinctBy<T>(s: seq<T>, name: T -> string)
  {
    forall i, j :: 0 <= i < j < |s| ==> name(s[i]) != name(s[j])
  }

  lemma {:induction false} InsertDistinct<T>(x: T, t: seq<T>, key: T -> int, name: T -> string)
    requires DistinctBy(t, name)
    requires forall y :: y in t ==> name(y) != name(x)
    ensures DistinctBy(Insert(x, t, key), name)
  {
    if t == [] || key(x) <= key(t[0]) {
      var r := [x] + t;
      forall i, j | 0 <= i < j < |r| ensures name(r[i]) != name(r[j]) {
        assert r[j] == t[j - 1];
        if i > 0 { assert r[i] == t[i - 1]; }
      }
    } else {
      var rest := Insert(x, t[1..], key);
      InsertDistinct(x, t[1..], key, name);
      var r := [t[0]] + rest;
      forall i, j | 0 <= i < j < |r| ensures name(r[i]) != name(r[j]) {
        if i == 0 {
          assert r[j] in multiset(rest);
          assert r[j] == x || r[j] in t[1..];
        } else {
          assert r[i] == rest[i - 1] && r[j] == rest[j - 1];
        }
      }
    }
  }

  /** Sorting keeps names distinct. */
  lemma {:induction false} SortDistinct<T>(s: seq<T>, key: T -> int, name: T -> string)
    requires DistinctBy(s, name)
    ensures DistinctBy(Sort(s, key), name)
  {
    if s != [] {
      var t := Sort(s[1..], key);
      assert DistinctBy(s[1..], name);
      SortDistinct(s[1..], key, name);
      forall y | y in t ensures name(y) != name(s[0]) {
        assert y in multiset(s[1..]);
        var j :| 0 <= j < |s[1..]| && s[1..][j] == y;
        assert s[j + 1] == y;
      }
      InsertDistinct(s[0], t, key, name);
    }
  }

  /** In a sorted sequence, whatever lies beyond the first `n` elements has a key no smaller than theirs. */
  lemma SortedTakeDropped<T>(s: seq<T>, key: T -> int, n: nat)
    requires Sorted(s, key)
    requires n <= |s|
    ensures forall e :: e in multiset(s) - multiset(s[..n]) ==>
              forall j :: 0 <= j < n ==> key(s[j]) <= key(e)
  {
    assert s == s[..n] + s[n..];
    assert multiset(s) == multiset(s[..n]) + multiset(s[n..]);
    forall e | e in multiset(s) - multiset(s[..n])
      ensures forall j :: 0 <= j < n ==> key(s[j]) <= key(e)
    {
      assert e in multiset(s[n..]);
      var k :| 0 <= k < |s[n..]| && s[n..][k] == e;
      assert s[n + k] == e;
    }
  }

  /** Every element of the sorted sequence comes from the input. */
  lemma SortElement<T>(s: seq<T>, key: T -> int, e: T)
    requires e in Sort(s, key)
    ensures exists i :: 0 <= i < |s| && s[i] == e
  {
    assert e in multiset(Sort(s, key));
  }

  /** Every element of the input is in the sorted sequence. */
  lemma SortContains<T>(s: seq<T>, key: T -> int, i: nat)
    requires i < |s|
    ensures s[i] in Sort(s, key)
  {
    assert s[i] in multiset(s);
  }
}
