/**
 * Grouping bookings by one of their string fields, as the report view does three
 * times: a `Map` is filled by a `forEach` loop that reads the current tally of the
 * booking's key (or a zero tally) and `set`s the tally plus this booking.
 *
 * `Grouped` is the declarative reference: one entry per distinct key, in order of
 * first occurrence, holding the number of bookings with that key and the sum of
 * their costs. The loop methods are proved to build exactly that map.
 */
module Grouping {
  import opened Wrappers
  import opened Sums
  import opened Bookings
  import opened OrderedMap

  /** The field a map is keyed by. */
  datatype GroupKey = ByMovie | ByDate | ByTheater

  function KeyOf(b: Booking, g: GroupKey): string
  {
    match g
    case ByMovie => b.movie
    case ByDate => b.date
    case ByTheater => b.theaterLocation
  }

  /** The `{ revenue, bookings }` value stored per key. */
  datatype Totals = Totals(revenue: int, bookings: nat)

  /** Some booking of `bs` has key `k`. */
  ghost predicate Occurs(bs: seq<Booking>, g: GroupKey, k: string)
  {
    exists i :: 0 <= i < |bs| && KeyOf(bs[i], g) == k
  }

  lemma OccursSnoc(bs: seq<Booking>, b: Booking, g: GroupKey, k: string)
    ensures Occurs(bs + [b], g, k) <==> Occurs(bs, g, k) || KeyOf(b, g) == k
  {
    var bs' := bs + [b];
    if Occurs(bs', g, k) && KeyOf(b, g) != k {
      var i :| 0 <= i < |bs'| && KeyOf(bs'[i], g) == k;
      assert i < |bs| && bs'[i] == bs[i];
    }
    if Occurs(bs, g, k) {
      var i :| 0 <= i < |bs| && KeyOf(bs[i], g) == k;
      assert bs'[i] == bs[i];
    }
    if KeyOf(b, g) == k {
      assert bs'[|bs|] == b;
    }
  }

  /** The keys of `bs`, each once, in order of first occurrence. */
  function DistinctKeys(bs: seq<Booking>, g: GroupKey): (d: seq<string>)
    ensures forall k :: k in d <==> Occurs(bs, g, k)
    ensures forall i, j :: 0 <= i < j < |d| ==> d[i] != d[j]
  {
    if bs == [] then []
    else
      var init := bs[..|bs| - 1];
      var b := bs[|bs| - 1];
      assert bs == init + [b];
      var d := DistinctKeys(init, g);
      OccursSnocAll(init, b, g);
      if KeyOf(b, g) in d then d else d + [KeyOf(b, g)]
  }

  lemma OccursSnocAll(bs: seq<Booking>, b: Booking, g: GroupKey)
    ensures forall k :: Occurs(bs + [b], g, k) <==> Occurs(bs, g, k) || KeyOf(b, g) == k
  {
    forall k ensures Occurs(bs + [b], g, k) <==> Occurs(bs, g, k) || KeyOf(b, g) == k {
      OccursSnoc(bs, b, g, k);
    }
  }

  /** The index of the first booking with key `k`, or `|bs|` when there is none. */
  function FirstIndex(bs: seq<Booking>, g: GroupKey, k: string): (p: nat)
    ensures p <= |bs|
    ensures p < |bs| <==> Occurs(bs, g, k)
    ensures p < |bs| ==> KeyOf(bs[p], g) == k
    ensures forall q :: 0 <= q < p && q < |bs| ==> KeyOf(bs[q], g) != k
  {
    if bs == [] then 0
    else
      var init := bs[..|bs| - 1];
      var b := bs[|bs| - 1];
      assert bs == init + [b];
      OccursSnoc(init, b, g, k);
      var p := FirstIndex(init, g, k);
      assert forall q :: 0 <= q < |init| ==> bs[q] == init[q];
      if p < |init| then p
      else if KeyOf(b, g) == k then |init|
      else |bs|
  }

  /** `DistinctKeys` lists the keys in the order of their first occurrence. */
  lemma {:induction false} DistinctKeysFirstSeen(bs: seq<Booking>, g: GroupKey, i: nat, j: nat)
    requires i < j < |DistinctKeys(bs, g)|
    ensures FirstIndex(bs, g, DistinctKeys(bs, g)[i]) < FirstIndex(bs, g, DistinctKeys(bs, g)[j])
  {
    var init := bs[..|bs| - 1];
    var b := bs[|bs| - 1];
    assert bs == init + [b];
    var d := DistinctKeys(init, g);
    var ki, kj := DistinctKeys(bs, g)[i], DistinctKeys(bs, g)[j];
    assert ki == d[i];
    assert FirstIndex(bs, g, ki) == FirstIndex(init, g, ki) by {
      assert Occurs(init, g, ki);
      FirstIndexSnoc(init, b, g, ki);
    }
    if j < |d| {
      assert kj == d[j];
      FirstIndexSnoc(init, b, g, kj);
      DistinctKeysFirstSeen(init, g, i, j);
    } else {
      assert kj == KeyOf(b, g) && !Occurs(init, g, kj);
      FirstIndexSnoc(init, b, g, kj);
    }
  }

  lemma FirstIndexSnoc(bs: seq<Booking>, b: Booking, g: GroupKey, k: string)
    ensures Occurs(bs, g, k) ==> FirstIndex(bs + [b], g, k) == FirstIndex(bs, g, k)
    ensures !Occurs(bs, g, k) && KeyOf(b, g) == k ==> FirstIndex(bs + [b], g, k) == |bs|
  {
    assert (bs + [b])[..|bs|] == bs;
  }

  /** The number of bookings with key `k`. */
  function CountWith(bs: seq<Booking>, g: GroupKey, k: string): nat
  {
    if bs == [] then 0
    else CountWith(bs[..|bs| - 1], g, k) + (if KeyOf(bs[|bs| - 1], g) == k then 1 else 0)
  }

  /** The summed cost of the bookings with key `k`. */
  function RevenueWith(bs: seq<Booking>, g: GroupKey, k: string): int
  {
    if bs == [] then 0
    else RevenueWith(bs[..|bs| - 1], g, k) + (if KeyOf(bs[|bs| - 1], g) == k then bs[|bs| - 1].totalCost else 0)
  }

  function TotalsFor(bs: seq<Booking>, g: GroupKey, k: string): Totals
  {
    Totals(RevenueWith(bs, g, k), CountWith(bs, g, k))
  }

  /** A key has a non-zero count exactly when it occurs; an absent key has a zero tally. */
  lemma {:induction false} CountOccurs(bs: seq<Booking>, g: GroupKey, k: string)
    ensures CountWith(bs, g, k) > 0 <==> Occurs(bs, g, k)
    ensures !Occurs(bs, g, k) ==> TotalsFor(bs, g, k) == Totals(0, 0)
  {
    if bs != [] {
      var init := bs[..|bs| - 1];
      assert bs == init + [bs[|bs| - 1]];
      CountOccurs(init, g, k);
      OccursSnoc(init, bs[|bs| - 1], g, k);
    }
  }

  /** The map the loop builds, stated declaratively. */
  function Grouped(bs: seq<Booking>, g: GroupKey): (m: Entries<Totals>)
    ensures Keys(m) == DistinctKeys(bs, g)
    ensures KeysDistinct(m)
  {
    var d := DistinctKeys(bs, g);
    seq(|d|, i requires 0 <= i < |d| => (d[i], TotalsFor(bs, g, d[i])))
  }

  /** Looking a key up in the grouped map yields its tally, or nothing when it does not occur. */
  lemma GetGrouped(bs: seq<Booking>, g: GroupKey, k: string)
    ensures Get(Grouped(bs, g), k) == if Occurs(bs, g, k) then Some(TotalsFor(bs, g, k)) else None
  {
    var m := Grouped(bs, g);
    var i := IndexOf(m, k);
    assert Keys(m) == DistinctKeys(bs, g);
    if i < |m| {
      assert m[i].0 == k && k in DistinctKeys(bs, g);
    }
  }

  lemma StepTotals(bs: seq<Booking>, b: Booking, g: GroupKey, k: string)
    ensures TotalsFor(bs + [b], g, k)
         == if KeyOf(b, g) == k then Totals(TotalsFor(bs, g, k).revenue + b.totalCost, TotalsFor(bs, g, k).bookings + 1)
            else TotalsFor(bs, g, k)
  {
    assert (bs + [b])[..|bs|] == bs;
  }

  lemma DistinctKeysSnoc(bs: seq<Booking>, b: Booking, g: GroupKey)
    ensures DistinctKeys(bs + [b], g)
         == if KeyOf(b, g) in DistinctKeys(bs, g) then DistinctKeys(bs, g) else DistinctKeys(bs, g) + [KeyOf(b, g)]
  {
    assert (bs + [b])[..|bs|] == bs;
  }

  /** The tally the loop reads for the booking's key equals the tally of the bookings seen so far. */
  lemma GetOrTotals(bs: seq<Booking>, g: GroupKey, k: string)
    ensures Get(Grouped(bs, g), k).GetOr(Totals(0, 0)) == TotalsFor(bs, g, k)
  {
    GetGrouped(bs, g, k);
    CountOccurs(bs, g, k);
  }

  /** The tally after one more booking. */
  function Tally(t: Totals, b: Booking): Totals
  {
    Totals(t.revenue + b.totalCost, t.bookings + 1)
  }

  /** A key already present keeps its position; only its tally changes. */
  lemma GroupedSnocPresentAt(bs: seq<Booking>, b: Booking, g: GroupKey, j: nat)
    requires KeyOf(b, g) in DistinctKeys(bs, g)
    requires j < |Grouped(bs, g)|
    ensures |Grouped(bs + [b], g)| == |Grouped(bs, g)|
    ensures Grouped(bs + [b], g)[j]
         == if Grouped(bs, g)[j].0 == KeyOf(b, g) then (KeyOf(b, g), Tally(TotalsFor(bs, g, KeyOf(b, g)), b))
            else Grouped(bs, g)[j]
  {
    DistinctKeysSnoc(bs, b, g);
    StepTotals(bs, b, g, DistinctKeys(bs, g)[j]);
  }

  lemma GroupedSnocPresent(bs: seq<Booking>, b: Booking, g: GroupKey)
    requires KeyOf(b, g) in DistinctKeys(bs, g)
    ensures var m := Grouped(bs, g);
            Grouped(bs + [b], g) == m[IndexOf(m, KeyOf(b, g)) := (KeyOf(b, g), Tally(TotalsFor(bs, g, KeyOf(b, g)), b))]
  {
    var k := KeyOf(b, g);
    var m := Grouped(bs, g);
    var m' := Grouped(bs + [b], g);
    var p := IndexOf(m, k);
    assert Keys(m)[p] == k by { assert k in Keys(m); }
    var r := m[p := (k, Tally(TotalsFor(bs, g, k), b))];
    GroupedSnocPresentAt(bs, b, g, p);
    forall j | 0 <= j < |m| ensures m'[j] == r[j] {
      GroupedSnocPresentAt(bs, b, g, j);
    }
    assert m' == r;
  }

  /** A new key is appended after all earlier ones. */
  lemma GroupedSnocAbsentAt(bs: seq<Booking>, b: Booking, g: GroupKey, j: nat)
    requires KeyOf(b, g) !in DistinctKeys(bs, g)
    requires j <= |Grouped(bs, g)|
    ensures |Grouped(bs + [b], g)| == |Grouped(bs, g)| + 1
    ensures Grouped(bs + [b], g)[j]
         == if j == |Grouped(bs, g)| then (KeyOf(b, g), Tally(TotalsFor(bs, g, KeyOf(b, g)), b))
            else Grouped(bs, g)[j]
  {
    DistinctKeysSnoc(bs, b, g);
    if j < |Grouped(bs, g)| {
      StepTotals(bs, b, g, DistinctKeys(bs, g)[j]);
    } else {
      StepTotals(bs, b, g, KeyOf(b, g));
    }
  }

  lemma GroupedSnocAbsent(bs: seq<Booking>, b: Booking, g: GroupKey)
    requires KeyOf(b, g) !in DistinctKeys(bs, g)
    ensures Grouped(bs + [b], g) == Grouped(bs, g) + [(KeyOf(b, g), Tally(TotalsFor(bs, g, KeyOf(b, g)), b))]
  {
    var m := Grouped(bs, g);
    var m' := Grouped(bs + [b], g);
    var r := m + [(KeyOf(b, g), Tally(TotalsFor(bs, g, KeyOf(b, g)), b))];
    GroupedSnocAbsentAt(bs, b, g, |m|);
    forall j | 0 <= j < |r| ensures m'[j] == r[j] {
      GroupedSnocAbsentAt(bs, b, g, j);
    }
    assert m' == r;
  }

  /** One `forEach` step: the loop `set`s the key's current tally plus this booking. */
  lemma GroupedSnoc(bs: seq<Booking>, b: Booking, g: GroupKey)
    ensures Grouped(bs + [b], g) == Set(Grouped(bs, g), KeyOf(b, g), Tally(TotalsFor(bs, g, KeyOf(b, g)), b))
  {
    if KeyOf(b, g) in DistinctKeys(bs, g) {
      GroupedSnocPresent(bs, b, g);
    } else {
      GroupedSnocAbsent(bs, b, g);
    }
  }

  /** The loop body on the prefix `bs[..i]`: read the current tally, `set` it plus `bs[i]`. */
  lemma BuildStep(bs: seq<Booking>, i: nat, g: GroupKey)
    requires i < |bs|
    ensures var m := Grouped(bs[..i], g);
            Grouped(bs[..i + 1], g) == Set(m, KeyOf(bs[i], g), Tally(Get(m, KeyOf(bs[i], g)).GetOr(Totals(0, 0)), bs[i]))
  {
    assert bs[..i + 1] == bs[..i] + [bs[i]];
    GetOrTotals(bs[..i], g, KeyOf(bs[i], g));
    GroupedSnoc(bs[..i], bs[i], g);
  }

  /** The forEach loop over `movieMap` / `dateMap`: builds the grouped tallies. */
  method BuildTotals(bs: seq<Booking>, g: GroupKey) returns (m: Entries<Totals>)
    ensures m == Grouped(bs, g)
  {
    m := [];
    for i := 0 to |bs|
      invariant m == Grouped(bs[..i], g)
    {
      var b := bs[i];
      var current := Get(m, KeyOf(b, g)).GetOr(Totals(0, 0));
      var next := Totals(current.revenue + b.totalCost, current.bookings + 1);
      assert next == Tally(current, b);
      BuildStep(bs, i, g);
      m := Set(m, KeyOf(b, g), next);
    }
    assert bs[..|bs|] == bs;
  }

  /** A grouped map with only the booking counts kept. */
  function Counts(m: Entries<Totals>): (c: Entries<nat>)
    ensures Keys(c) == Keys(m)
  {
    seq(|m|, i requires 0 <= i < |m| => (m[i].0, m[i].1.bookings))
  }

  lemma CountsGetSet(m: Entries<Totals>, k: string, v: Totals)
    ensures Get(Counts(m), k).GetOr(0) == Get(m, k).GetOr(Totals(0, 0)).bookings
    ensures Counts(Set(m, k, v)) == Set(Counts(m), k, v.bookings)
  {
    var c := Counts(m);
    IndexOfSameKeys(m, c);
    var p := IndexOf(m, k);
    if p < |m| {
      assert Counts(m[p := (k, v)]) == c[p := (k, v.bookings)];
    } else {
      assert Counts(m + [(k, v)]) == c + [(k, v.bookings)];
    }
  }

  lemma CountsAfterSet(m: Entries<Totals>, m': Entries<Totals>, k: string, t: Totals)
    requires m' == Set(m, k, t)
    requires t.bookings == Get(m, k).GetOr(Totals(0, 0)).bookings + 1
    ensures Counts(m') == Set(Counts(m), k, Get(Counts(m), k).GetOr(0) + 1)
  {
    CountsGetSet(m, k, t);
    var c := Counts(m);
    var n: nat := Get(c, k).GetOr(0) + 1;
    assert n == t.bookings;
    assert Counts(m') == Set(c, k, t.bookings);
  }

  /** The forEach loop over `theaterMap`: builds the per-key booking counts. */
  method BuildCounts(bs: seq<Booking>, g: GroupKey) returns (m: Entries<nat>)
    ensures m == Counts(Grouped(bs, g))
  {
    m := [];
    for i := 0 to |bs|
      invariant m == Counts(Grouped(bs[..i], g))
    {
      var b := bs[i];
      var current := Get(m, KeyOf(b, g)).GetOr(0);
      ghost var grouped := Grouped(bs[..i], g);
      BuildStep(bs, i, g);
      CountsAfterSet(grouped, Grouped(bs[..i + 1], g), KeyOf(b, g), Tally(Get(grouped, KeyOf(b, g)).GetOr(Totals(0, 0)), b));
      m := Set(m, KeyOf(b, g), current + 1);
    }
    assert bs[..|bs|] == bs;
  }

  function EntryCount(e: (string, Totals)): int { e.1.bookings }

  function EntryRevenue(e: (string, Totals)): int { e.1.revenue }

  lemma ReplacedEntry(bs: seq<Booking>, g: GroupKey, k: string)
    ensures var m := Grouped(bs, g);
            (if IndexOf(m, k) < |m| then m[IndexOf(m, k)] else (k, Totals(0, 0))) == (k, TotalsFor(bs, g, k))
  {
    CountOccurs(bs, g, k);
    var m := Grouped(bs, g);
    if IndexOf(m, k) < |m| {
      assert Keys(m)[IndexOf(m, k)] == k;
    } else {
      assert k !in Keys(m);
    }
  }

  /** The tallies of all groups together count every booking exactly once. */
  lemma {:induction false} GroupedCountSum(bs: seq<Booking>, g: GroupKey)
    ensures SumBy(Grouped(bs, g), EntryCount) == |bs|
  {
    if bs != [] {
      var init, b := bs[..|bs| - 1], bs[|bs| - 1];
      assert bs == init + [b];
      var k := KeyOf(b, g);
      GroupedCountSum(init, g);
      GroupedSnoc(init, b, g);
      ReplacedEntry(init, g, k);
      SetSumBy(Grouped(init, g), k, Tally(TotalsFor(init, g, k), b), EntryCount);
    }
  }

  /** The revenues of all groups add up to the total revenue. */
  lemma {:induction false} GroupedRevenueSum(bs: seq<Booking>, g: GroupKey)
    ensures SumBy(Grouped(bs, g), EntryRevenue) == TotalRevenue(bs)
  {
    if bs != [] {
      var init, b := bs[..|bs| - 1], bs[|bs| - 1];
      assert bs == init + [b];
      var k := KeyOf(b, g);
      GroupedRevenueSum(init, g);
      GroupedSnoc(init, b, g);
      ReplacedEntry(init, g, k);
      SetSumBy(Grouped(init, g), k, Tally(TotalsFor(init, g, k), b), EntryRevenue);
      SumBySnoc(init, b, Cost);
    }
  }
}
