/**
 * Booking records as the store hands them to the report view, the flattening of
 * the per-owner booking lists into one sequence, and the three scalar folds shown
 * on the summary cards (total revenue, average booking value, total seats).
 */
module Bookings {
  import opened Sums

  /** One booking. `totalCost` is in cents: the model keeps money exact. */
  datatype Booking = Booking(
    id: string,
    movie: string,
    theaterLocation: string,
    date: string,
    time: string,
    seats: seq<string>,
    totalCost: int)

  /** The store's `allBookings` record: owner key and that owner's bookings, in enumeration order. */
  type BookingsByOwner = seq<(string, seq<Booking>)>

  function OwnerCount(e: (string, seq<Booking>)): int { |e.1| }

  /** `Object.values(allBookings).flat()`. */
  function Flatten(all: BookingsByOwner): (r: seq<Booking>)
    ensures |r| == SumBy(all, OwnerCount)
    ensures forall b :: b in r <==> exists i :: 0 <= i < |all| && b in all[i].1
  {
    if all == [] then []
    else
      var rest := Flatten(all[1..]);
      forall b | b in all[0].1 + rest
        ensures exists i :: 0 <= i < |all| && b in all[i].1
      {
        if b !in all[0].1 {
          var i :| 0 <= i < |all[1..]| && b in all[1..][i].1;
          assert all[i + 1] == all[1..][i];
        }
      }
      forall b, i | 1 <= i < |all| && b in all[i].1 ensures b in rest {
        assert all[1..][i - 1] == all[i];
      }
      all[0].1 + rest
  }

  /** Owners without bookings contribute nothing. */
  lemma {:induction false} FlattenEmpty(all: BookingsByOwner)
    requires forall i :: 0 <= i < |all| ==> all[i].1 == []
    ensures Flatten(all) == []
  {
    if all != [] {
      assert forall i :: 0 <= i < |all[1..]| ==> all[1..][i] == all[i + 1];
      FlattenEmpty(all[1..]);
    }
  }

  /**
   * Flattening an owner list appended after others appends its bookings after
   * theirs: each owner's bookings appear consecutively, in enumeration order and
   * with their multiplicities.
   */
  lemma {:induction false} FlattenSnoc(all: BookingsByOwner, e: (string, seq<Booking>))
    ensures Flatten(all + [e]) == Flatten(all) + e.1
  {
    if all == [] {
      assert [e][1..] == [];
    } else {
      assert (all + [e])[1..] == all[1..] + [e];
      FlattenSnoc(all[1..], e);
    }
  }

  function Cost(b: Booking): int { b.totalCost }

  function SeatCount(b: Booking): int { |b.seats| }

  /** `bs.reduce((sum, booking) => sum + f(booking), acc)`: a left fold, equal to the start value plus the sum. */
  function Reduce(acc: int, bs: seq<Booking>, f: Booking -> int): (r: int)
    ensures r == acc + SumBy(bs, f)
    decreases bs
  {
    if bs == [] then acc else Reduce(acc + f(bs[0]), bs[1..], f)
  }

  /** Total revenue card: the sum of all booking costs, 0 when there are none. */
  function TotalRevenue(bs: seq<Booking>): (r: int)
    ensures r == SumBy(bs, Cost)
    ensures bs == [] ==> r == 0
  {
    Reduce(0, bs, Cost)
  }

  /** Total seats card: the sum of the seat-list lengths. */
  function TotalSeats(bs: seq<Booking>): (r: int)
    ensures r == SumBy(bs, SeatCount)
    ensures r >= 0
  {
    SeatsNonNegative(bs);
    Reduce(0, bs, SeatCount)
  }

  lemma {:induction false} SeatsNonNegative(bs: seq<Booking>)
    ensures SumBy(bs, SeatCount) >= 0
  {
    if bs != [] {
      SeatsNonNegative(bs[1..]);
    }
  }

  /** Average booking value card: total revenue per booking, guarded against division by zero. */
  function AvgBookingValue(bs: seq<Booking>): (r: real)
    ensures |bs| == 0 ==> r == 0.0
    ensures |bs| > 0 ==> r * (|bs| as real) == TotalRevenue(bs) as real
  {
    if |bs| > 0 then TotalRevenue(bs) as real / |bs| as real else 0.0
  }

  lemma {:induction false} SumAbove(bs: seq<Booking>, a: real)
    requires |bs| > 0
    requires forall i :: 0 <= i < |bs| ==> bs[i].totalCost as real > a
    ensures SumBy(bs, Cost) as real > (|bs| as real) * a
  {
    if |bs| > 1 {
      SumAbove(bs[1..], a);
    }
  }

  lemma {:induction false} SumBelow(bs: seq<Booking>, a: real)
    requires |bs| > 0
    requires forall i :: 0 <= i < |bs| ==> bs[i].totalCost as real < a
    ensures SumBy(bs, Cost) as real < (|bs| as real) * a
  {
    if |bs| > 1 {
      SumBelow(bs[1..], a);
    }
  }

  /** The average lies between the cheapest and the dearest booking. */
  lemma AvgWithinCosts(bs: seq<Booking>)
    requires |bs| > 0
    ensures exists i :: 0 <= i < |bs| && bs[i].totalCost as real <= AvgBookingValue(bs)
    ensures exists j :: 0 <= j < |bs| && AvgBookingValue(bs) <= bs[j].totalCost as real
  {
    var avg := AvgBookingValue(bs);
    if forall i :: 0 <= i < |bs| ==> bs[i].totalCost as real > avg {
      SumAbove(bs, avg);
      assert false;
    }
    if forall j :: 0 <= j < |bs| ==> bs[j].totalCost as real < avg {
      SumBelow(bs, avg);
      assert false;
    }
  }
}
