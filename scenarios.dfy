/**
 * Worked instances of the report computations on small concrete inputs.
 */
module Scenarios {
  import opened Wrappers
  import opened StableSort
  import opened Bookings
  import opened Grouping
  import opened ReportView
  import opened Tailwind

  function At(movie: string, theater: string, date: string, cost: int): Booking
  {
    Booking("b", movie, theater, date, "18:00", ["A1"], cost)
  }

  /** Two bookings of "A" (10 and 20) and one of "B" (5). */
  function MovieSample(): seq<Booking>
  {
    [At("A", "T", "d", 10), At("A", "T", "d", 20), At("B", "T", "d", 5)]
  }

  lemma MovieSampleGrouped()
    ensures Grouped(MovieSample(), ByMovie) == [("A", Totals(30, 2)), ("B", Totals(5, 1))]
  {
    var bs := MovieSample();
    assert bs[..0] == [];
    BuildStep(bs, 0, ByMovie);
    assert Grouped(bs[..1], ByMovie) == [("A", Totals(10, 1))];
    BuildStep(bs, 1, ByMovie);
    assert Grouped(bs[..2], ByMovie) == [("A", Totals(30, 2))];
    BuildStep(bs, 2, ByMovie);
    assert bs[..3] == bs;
  }

  /** The sample gives two bars, "A" with the larger revenue first. */
  lemma MovieScenario()
    ensures MovieRevenueOf(MovieSample()) == [MovieRevenue("A", 30, 2), MovieRevenue("B", 5, 1)]
  {
    MovieSampleGrouped();
    var m := Grouped(MovieSample(), ByMovie);
    var entries := [MovieRevenue("A", 30, 2), MovieRevenue("B", 5, 1)];
    assert MovieEntries(m) == entries;
    assert Sort(entries, NegRevenue) == entries;
  }

  /** No bookings: the average is zero rather than a division by zero. */
  lemma EmptyAverage()
    ensures AvgBookingValue([]) == 0.0
  {
  }

  /** The three users of the access guard. */
  lemma ModeScenarios()
    ensures ModeOf(None) == AuthRequired
    ensures ModeOf(Some(User("v", Some("viewer")))) == AccessDenied
    ensures ModeOf(Some(User("n", None))) == AccessDenied
    ensures ModeOf(Some(User("a", Some("admin")))) == Dashboard
  {
  }

  /** One booking at theater "X" followed by two at "Y". */
  function TheaterSample(): seq<Booking>
  {
    [At("M", "X", "d", 1), At("M", "Y", "d", 1), At("M", "Y", "d", 1)]
  }

  lemma TheaterSampleGrouped()
    ensures Grouped(TheaterSample(), ByTheater) == [("X", Totals(1, 1)), ("Y", Totals(2, 2))]
  {
    var bs := TheaterSample();
    TheaterSamplePrefix();
    BuildStep(bs, 2, ByTheater);
    assert bs[..3] == bs;
  }

  lemma TheaterSamplePrefix()
    ensures Grouped(TheaterSample()[..2], ByTheater) == [("X", Totals(1, 1)), ("Y", Totals(1, 1))]
  {
    var bs := TheaterSample();
    assert bs[..0] == [];
    BuildStep(bs, 0, ByTheater);
    assert Grouped(bs[..1], ByTheater) == [("X", Totals(1, 1))];
    BuildStep(bs, 1, ByTheater);
  }

  /**
   * Colours follow first appearance, not rank: theater "X" is seen first and keeps
   * the first colour even though "Y", with more bookings, is listed first.
   */
  lemma TheaterColourScenario()
    ensures TheaterDataOf(TheaterSample()) == [TheaterData("Y", 2, Colors[1]), TheaterData("X", 1, Colors[0])]
  {
    TheaterSampleGrouped();
    var counts := Counts(Grouped(TheaterSample(), ByTheater));
    assert counts == [("X", 1), ("Y", 2)];
    TheaterSampleSorted();
  }

  lemma TheaterSampleSorted()
    ensures Sort(Colored([("X", 1), ("Y", 2)], 0), NegBookings)
         == [TheaterData("Y", 2, Colors[1]), TheaterData("X", 1, Colors[0])]
  {
    var colored := [TheaterData("X", 1, Colors[0]), TheaterData("Y", 2, Colors[1])];
    assert Colored([("X", 1), ("Y", 2)], 0) == colored;
    assert colored[1..] == [colored[1]];
    assert Sort([colored[1]], NegBookings) == [colored[1]];
  }

  /** Doubled and surrounding spaces vanish and every class gains the prefix. */
  lemma TwScenario()
    ensures Tw(" a  b ") == "report-a report-b"
  {
    TwSampleTokens();
    TwSamplePrefixed();
    TwSampleJoin();
  }

  lemma TwSampleJoin()
    ensures Join(["report-a", "report-b"]) == "report-a report-b"
  {
    var classes := ["report-a", "report-b"];
    assert classes[1..] == ["report-b"];
  }

  lemma TwSamplePrefixed()
    ensures PrefixAll(["a", "b"]) == ["report-a", "report-b"]
  {
    assert !(ClassPrefix <= "a") && !(ClassPrefix <= "b");
    assert Prefixed("a") == "report-a" && Prefixed("b") == "report-b";
  }

  lemma TwSampleTokens()
    ensures Tokens(" a  b ") == ["a", "b"]
  {
    TwSampleSplit();
    var pieces := ["", "a", "", "b", ""];
    assert pieces[1..] == ["a", "", "b", ""] && pieces[1..][1..] == ["", "b", ""];
    assert NonEmpty(["b", ""]) == ["b"];
    assert NonEmpty(["", "b", ""]) == ["b"];
    assert NonEmpty(["a", "", "b", ""]) == ["a", "b"];
  }

  lemma TwSampleSplit()
    ensures Split(" a  b ") == ["", "a", "", "b", ""]
  {
    var t1 := [' '] + "";
    SplitStep(' ', "");
    assert Split(t1) == ["", ""];
    var t2 := ['b'] + t1;
    SplitStep('b', t1);
    assert ['b'] + "" == "b" && ["", ""][1..] == [""];
    assert Split(t2) == ["b", ""];
    var t3 := [' '] + t2;
    SplitStep(' ', t2);
    assert Split(t3) == ["", "b", ""];
    var t4 := [' '] + t3;
    SplitStep(' ', t3);
    assert Split(t4) == ["", "", "b", ""];
    var t5 := ['a'] + t4;
    SplitStep('a', t4);
    assert ['a'] + "" == "a" && ["", "", "b", ""][1..] == ["", "b", ""];
    assert Split(t5) == ["a", "", "b", ""];
    var t6 := [' '] + t5;
    SplitStep(' ', t5);
    assert Split(t6) == ["", "a", "", "b", ""];
    assert t6 == " a  b ";
    assert Split(" a  b ") == ["", "a", "", "b", ""];
  }

  /** An already-prefixed class is left alone. */
  lemma TwPrefixedScenario()
    ensures Tw("report-a") == "report-a"
  {
    SplitSpaceFree("report-a");
  }
}
