/**
 * The report view's derived data: the per-movie revenue ranking, the daily
 * trend, the per-theater distribution with its colours, the summary cards,
 * and the role guard that decides which of three screens is rendered.
 */
module ReportView {
  import opened Wrappers
  import opened Sums
  import opened StableSort
  import opened Bookings
  import opened OrderedMap
  import opened Grouping

  datatype MovieRevenue = MovieRevenue(movie: string, revenue: int, bookings: nat)

  datatype DailyBookings = DailyBookings(date: string, bookings: nat, revenue: int)

  datatype TheaterData = TheaterData(theater: string, bookings: nat, fill: string)

  /** The pie-chart palette. */
  const Colors: seq<string> := ["#8b5cf6", "#ec4899", "#06b6d4", "#10b981", "#f59e0b", "#ef4444"]

  /** How many movies the revenue chart keeps. */
  const MaxMovies: nat := 6

  /** Titles longer than this are cut and get an ellipsis. */
  const MaxTitle: nat := 20

  function Min(a: int, b: int): int { if a <= b then a else b }

  // ---------------------------------------------------------------- revenue by movie

  /** The bar label of a title: the title itself, or its first 20 characters and "...". */
  function Display(title: string): (name: string)
    ensures |name| == if |title| <= MaxTitle then |title| else MaxTitle + 3
    ensures title[..Min(|title|, MaxTitle)] <= name
    ensures |title| <= MaxTitle ==> name == title
    ensures |title| > MaxTitle ==> name[MaxTitle..] == "..."
  {
    if |title| > MaxTitle then
      assert title == title[..MaxTitle] + title[MaxTitle..];
      title[..MaxTitle] + "..."
    else title
  }

  /** `Array.from(movieMap.entries()).map(...)`: one bar per title, in map order. */
  function MovieEntries(m: Entries<Totals>): (r: seq<MovieRevenue>)
    ensures |r| == |m|
    ensures forall i :: 0 <= i < |m| ==> r[i] == MovieRevenue(Display(m[i].0), m[i].1.revenue, m[i].1.bookings)
  {
    if m == [] then [] else [MovieRevenue(Display(m[0].0), m[0].1.revenue, m[0].1.bookings)] + MovieEntries(m[1..])
  }

  /** Sorting by this key ascending is `sort((a, b) => b.revenue - a.revenue)`. */
  function NegRevenue(e: MovieRevenue): int { -e.revenue }

  /** `.sort(...).slice(0, 6)` over the mapped entries. */
  function RankMovies(m: Entries<Totals>): (r: seq<MovieRevenue>)
    ensures |r| == Min(MaxMovies, |m|)
    ensures multiset(r) <= multiset(MovieEntries(m))
  {
    var sorted := Sort(MovieEntries(m), NegRevenue);
    var n := Min(MaxMovies, |sorted|);
    assert sorted == sorted[..n] + sorted[n..];
    assert multiset(sorted) == multiset(sorted[..n]) + multiset(sorted[n..]);
    sorted[..n]
  }

  /** `movieRevenueData` as a function of the flattened bookings. */
  function MovieRevenueOf(bs: seq<Booking>): (r: seq<MovieRevenue>)
    ensures |r| <= MaxMovies
  {
    RankMovies(Grouped(bs, ByMovie))
  }

  /** The bar a title contributes before sorting and slicing. */
  function MovieEntryFor(bs: seq<Booking>, title: string): MovieRevenue
  {
    MovieRevenue(Display(title), RevenueWith(bs, ByMovie, title), CountWith(bs, ByMovie, title))
  }

  /** The `movieRevenueData` memo: fill `movieMap`, then map, sort and slice. */
  method ComputeMovieRevenueData(bs: seq<Booking>) returns (r: seq<MovieRevenue>)
    ensures r == MovieRevenueOf(bs)
  {
    var movieMap := BuildTotals(bs, ByMovie);
    r := RankMovies(movieMap);
  }

  /** At most six bars; exactly as many as there are distinct full titles, up to six. */
  lemma MovieRevenueSize(bs: seq<Booking>)
    ensures |MovieRevenueOf(bs)| <= MaxMovies
    ensures |MovieRevenueOf(bs)| == Min(MaxMovies, |DistinctKeys(bs, ByMovie)|)
  {
  }

  /** The bars are ordered by revenue, highest first. */
  lemma MovieRevenueRanked(bs: seq<Booking>)
    ensures var r := MovieRevenueOf(bs);
            forall i, j :: 0 <= i < j < |r| ==> r[i].revenue >= r[j].revenue
  {
    var sorted := Sort(MovieEntries(Grouped(bs, ByMovie)), NegRevenue);
    var r := MovieRevenueOf(bs);
    forall i, j | 0 <= i < j < |r| ensures r[i].revenue >= r[j].revenue {
      assert r[i] == sorted[i] && r[j] == sorted[j];
      assert NegRevenue(sorted[i]) <= NegRevenue(sorted[j]);
    }
  }

  /** Movies with equal revenue keep the order in which their titles were first seen. */
  lemma MovieRevenueTiesStable(bs: seq<Booking>, v: int)
    ensures Having(MovieRevenueOf(bs), NegRevenue, v) <= Having(MovieEntries(Grouped(bs, ByMovie)), NegRevenue, v)
  {
    var entries := MovieEntries(Grouped(bs, ByMovie));
    var sorted := Sort(entries, NegRevenue);
    SortStable(entries, NegRevenue, v);
    HavingTake(sorted, Min(MaxMovies, |sorted|), NegRevenue, v);
  }

  /** Every movie left out earned no more than any movie shown. */
  lemma MovieRevenueTop(bs: seq<Booking>)
    ensures var r := MovieRevenueOf(bs);
            forall e: MovieRevenue :: e in multiset(MovieEntries(Grouped(bs, ByMovie))) - multiset(r) ==>
              forall j :: 0 <= j < |r| ==> e.revenue <= r[j].revenue
  {
    var entries := MovieEntries(Grouped(bs, ByMovie));
    var sorted := Sort(entries, NegRevenue);
    var n := Min(MaxMovies, |sorted|);
    var r := sorted[..n];
    SortedTakeDropped(sorted, NegRevenue, n);
    forall e: MovieRevenue, j | e in multiset(entries) - multiset(r) && 0 <= j < |r|
      ensures e.revenue <= r[j].revenue
    {
      assert e in multiset(sorted) - multiset(r);
      assert NegRevenue(sorted[j]) <= NegRevenue(e);
    }
  }

  lemma MovieEntriesAt(bs: seq<Booking>, i: nat)
    requires i < |DistinctKeys(bs, ByMovie)|
    ensures |MovieEntries(Grouped(bs, ByMovie))| == |DistinctKeys(bs, ByMovie)|
    ensures MovieEntries(Grouped(bs, ByMovie))[i] == MovieEntryFor(bs, DistinctKeys(bs, ByMovie)[i])
    ensures Occurs(bs, ByMovie, DistinctKeys(bs, ByMovie)[i])
  {
    assert DistinctKeys(bs, ByMovie)[i] in DistinctKeys(bs, ByMovie);
  }

  /** Each bar is the display name, summed cost and booking count of one full title that occurs. */
  lemma MovieRevenueEntries(bs: seq<Booking>)
    ensures forall e :: e in MovieRevenueOf(bs) ==>
              exists t :: Occurs(bs, ByMovie, t) && e == MovieEntryFor(bs, t)
    ensures |DistinctKeys(bs, ByMovie)| <= MaxMovies ==>
              forall t :: Occurs(bs, ByMovie, t) ==> MovieEntryFor(bs, t) in MovieRevenueOf(bs)
  {
    var d := DistinctKeys(bs, ByMovie);
    var entries := MovieEntries(Grouped(bs, ByMovie));
    var sorted := Sort(entries, NegRevenue);
    var r := MovieRevenueOf(bs);
    forall e | e in r ensures exists t :: Occurs(bs, ByMovie, t) && e == MovieEntryFor(bs, t) {
      assert e in sorted;
      SortElement(entries, NegRevenue, e);
      var i :| 0 <= i < |entries| && entries[i] == e;
      MovieEntriesAt(bs, i);
    }
    if |d| <= MaxMovies {
      assert r == sorted;
      forall t | Occurs(bs, ByMovie, t) ensures MovieEntryFor(bs, t) in r {
        var i :| 0 <= i < |d| && d[i] == t;
        MovieEntriesAt(bs, i);
        SortContains(entries, NegRevenue, i);
      }
    }
  }

  // ---------------------------------------------------------------- bookings by day

  /** `Array.from(dateMap.entries()).map(...)`: one point per date string, in map order. */
  function DayEntries(m: Entries<Totals>): (r: seq<DailyBookings>)
    ensures |r| == |m|
    ensures forall i :: 0 <= i < |m| ==> r[i] == DailyBookings(m[i].0, m[i].1.bookings, m[i].1.revenue)
  {
    if m == [] then [] else [DailyBookings(m[0].0, m[0].1.bookings, m[0].1.revenue)] + DayEntries(m[1..])
  }

  /** The sort key `new Date(d.date).getTime()`, with the date parser supplied as `dateKey`. */
  function DayKey(dateKey: string -> int): DailyBookings -> int
  {
    (d: DailyBookings) => dateKey(d.date)
  }

  /** `dailyBookingsData` as a function of the flattened bookings. */
  function DailyBookingsOf(bs: seq<Booking>, dateKey: string -> int): (r: seq<DailyBookings>)
    ensures |r| == |DistinctKeys(bs, ByDate)|
  {
    Sort(DayEntries(Grouped(bs, ByDate)), DayKey(dateKey))
  }

  /** The `dailyBookingsData` memo: fill `dateMap`, then map and sort by parsed date. */
  method ComputeDailyBookingsData(bs: seq<Booking>, dateKey: string -> int) returns (r: seq<DailyBookings>)
    ensures r == DailyBookingsOf(bs, dateKey)
  {
    var dateMap := BuildTotals(bs, ByDate);
    r := Sort(DayEntries(dateMap), DayKey(dateKey));
  }

  function DateOf(d: DailyBookings): string { d.date }

  function DayCount(d: DailyBookings): int { d.bookings }

  function DayRevenue(d: DailyBookings): int { d.revenue }

  /** The points are in chronological order of their parsed dates. */
  lemma DailyChronological(bs: seq<Booking>, dateKey: string -> int)
    ensures var r := DailyBookingsOf(bs, dateKey);
            forall i, j :: 0 <= i < j < |r| ==> dateKey(r[i].date) <= dateKey(r[j].date)
  {
    var r := DailyBookingsOf(bs, dateKey);
    forall i, j | 0 <= i < j < |r| ensures dateKey(r[i].date) <= dateKey(r[j].date) {
      assert DayKey(dateKey)(r[i]) <= DayKey(dateKey)(r[j]);
    }
  }

  /** Dates that parse to the same instant keep the order in which they were first seen. */
  lemma DailyTiesStable(bs: seq<Booking>, dateKey: string -> int, v: int)
    ensures Having(DailyBookingsOf(bs, dateKey), DayKey(dateKey), v)
         == Having(DayEntries(Grouped(bs, ByDate)), DayKey(dateKey), v)
  {
    SortStable(DayEntries(Grouped(bs, ByDate)), DayKey(dateKey), v);
  }

  lemma DayEntriesAt(bs: seq<Booking>, i: nat)
    requires i < |DistinctKeys(bs, ByDate)|
    ensures |DayEntries(Grouped(bs, ByDate))| == |DistinctKeys(bs, ByDate)|
    ensures var d := DistinctKeys(bs, ByDate)[i];
            DayEntries(Grouped(bs, ByDate))[i] == DailyBookings(d, CountWith(bs, ByDate, d), RevenueWith(bs, ByDate, d))
    ensures Occurs(bs, ByDate, DistinctKeys(bs, ByDate)[i])
  {
    assert DistinctKeys(bs, ByDate)[i] in DistinctKeys(bs, ByDate);
  }

  /**
   * Exactly one point per distinct date string, and each point carries the number
   * of bookings on that date and their summed cost.
   */
  lemma DailyOnePerDate(bs: seq<Booking>, dateKey: string -> int)
    ensures var r := DailyBookingsOf(bs, dateKey);
            && |r| == |DistinctKeys(bs, ByDate)|
            && DistinctBy(r, DateOf)
            && (forall d :: Occurs(bs, ByDate, d) <==> exists i :: 0 <= i < |r| && r[i].date == d)
            && (forall i :: 0 <= i < |r| ==>
                  r[i].bookings == CountWith(bs, ByDate, r[i].date) && r[i].revenue == RevenueWith(bs, ByDate, r[i].date))
  {
    var ks := DistinctKeys(bs, ByDate);
    var entries := DayEntries(Grouped(bs, ByDate));
    var r := DailyBookingsOf(bs, dateKey);
    assert DistinctBy(entries, DateOf) by {
      forall i, j | 0 <= i < j < |entries| ensures DateOf(entries[i]) != DateOf(entries[j]) {
        DayEntriesAt(bs, i);
        DayEntriesAt(bs, j);
      }
    }
    SortDistinct(entries, DayKey(dateKey), DateOf);
    forall i | 0 <= i < |r|
      ensures Occurs(bs, ByDate, r[i].date)
      ensures r[i].bookings == CountWith(bs, ByDate, r[i].date) && r[i].revenue == RevenueWith(bs, ByDate, r[i].date)
    {
      SortElement(entries, DayKey(dateKey), r[i]);
      var p :| 0 <= p < |entries| && entries[p] == r[i];
      DayEntriesAt(bs, p);
    }
    forall d | Occurs(bs, ByDate, d) ensures exists i :: 0 <= i < |r| && r[i].date == d {
      var p :| 0 <= p < |ks| && ks[p] == d;
      DayEntriesAt(bs, p);
      SortContains(entries, DayKey(dateKey), p);
      var i :| 0 <= i < |r| && r[i] == entries[p];
    }
  }

  /** The daily counts add up to the number of bookings, the daily revenues to the total revenue. */
  lemma DailyTotals(bs: seq<Booking>, dateKey: string -> int)
    ensures SumBy(DailyBookingsOf(bs, dateKey), DayCount) == |bs|
    ensures SumBy(DailyBookingsOf(bs, dateKey), DayRevenue) == TotalRevenue(bs)
  {
    var m := Grouped(bs, ByDate);
    SortSumBy(DayEntries(m), DayKey(dateKey), DayCount);
    SortSumBy(DayEntries(m), DayKey(dateKey), DayRevenue);
    DayEntriesSums(m);
    GroupedCountSum(bs, ByDate);
    GroupedRevenueSum(bs, ByDate);
  }

  lemma {:induction false} DayEntriesSums(m: Entries<Totals>)
    ensures SumBy(DayEntries(m), DayCount) == SumBy(m, EntryCount)
    ensures SumBy(DayEntries(m), DayRevenue) == SumBy(m, EntryRevenue)
  {
    if m != [] {
      DayEntriesSums(m[1..]);
      assert DayEntries(m)[1..] == DayEntries(m[1..]);
    }
  }

  // ---------------------------------------------------------------- bookings by theater

  /**
   * `Array.from(theaterMap.entries()).map(([theater, count], index) => ...)`:
   * the colour comes from the entry's index in map order.
   */
  function Colored(m: Entries<nat>, start: nat): (r: seq<TheaterData>)
    ensures |r| == |m|
    ensures forall i :: 0 <= i < |m| ==> r[i] == TheaterData(m[i].0, m[i].1, Colors[(start + i) % |Colors|])
  {
    if m == [] then [] else [TheaterData(m[0].0, m[0].1, Colors[start % |Colors|])] + Colored(m[1..], start + 1)
  }

  /** Sorting by this key ascending is `sort((a, b) => b.bookings - a.bookings)`. */
  function NegBookings(e: TheaterData): int { -(e.bookings as int) }

  /** `theaterData` as a function of the flattened bookings: coloured first, sorted after. */
  function TheaterDataOf(bs: seq<Booking>): (r: seq<TheaterData>)
    ensures |r| == |DistinctKeys(bs, ByTheater)|
  {
    Sort(Colored(Counts(Grouped(bs, ByTheater)), 0), NegBookings)
  }

  /** The `theaterData` memo: fill `theaterMap`, then colour by map position and sort by count. */
  method ComputeTheaterData(bs: seq<Booking>) returns (r: seq<TheaterData>)
    ensures r == TheaterDataOf(bs)
  {
    var theaterMap := BuildCounts(bs, ByTheater);
    r := Sort(Colored(theaterMap, 0), NegBookings);
  }

  function TheaterOf(e: TheaterData): string { e.theater }

  function TheaterCount(e: TheaterData): int { e.bookings }

  lemma TheaterEntriesAt(bs: seq<Booking>, i: nat)
    requires i < |DistinctKeys(bs, ByTheater)|
    ensures |Colored(Counts(Grouped(bs, ByTheater)), 0)| == |DistinctKeys(bs, ByTheater)|
    ensures var t := DistinctKeys(bs, ByTheater)[i];
            Colored(Counts(Grouped(bs, ByTheater)), 0)[i] == TheaterData(t, CountWith(bs, ByTheater, t), Colors[i % |Colors|])
    ensures Occurs(bs, ByTheater, DistinctKeys(bs, ByTheater)[i])
  {
    assert DistinctKeys(bs, ByTheater)[i] in DistinctKeys(bs, ByTheater);
  }

  /** The slices are ordered by booking count, largest first. */
  lemma TheaterRanked(bs: seq<Booking>)
    ensures var r := TheaterDataOf(bs);
            forall i, j :: 0 <= i < j < |r| ==> r[i].bookings >= r[j].bookings
  {
    var r := TheaterDataOf(bs);
    forall i, j | 0 <= i < j < |r| ensures r[i].bookings >= r[j].bookings {
      assert NegBookings(r[i]) <= NegBookings(r[j]);
    }
  }

  /** Theaters with equal counts keep the order in which they were first seen. */
  lemma TheaterTiesStable(bs: seq<Booking>, v: int)
    ensures Having(TheaterDataOf(bs), NegBookings, v) == Having(Colored(Counts(Grouped(bs, ByTheater)), 0), NegBookings, v)
  {
    SortStable(Colored(Counts(Grouped(bs, ByTheater)), 0), NegBookings, v);
  }

  /** One slice per distinct theater. */
  lemma TheaterOnePerTheater(bs: seq<Booking>)
    ensures var r := TheaterDataOf(bs);
            && |r| == |DistinctKeys(bs, ByTheater)|
            && DistinctBy(r, TheaterOf)
            && (forall t :: Occurs(bs, ByTheater, t) <==> exists i :: 0 <= i < |r| && r[i].theater == t)
  {
    var ts := DistinctKeys(bs, ByTheater);
    var entries := Colored(Counts(Grouped(bs, ByTheater)), 0);
    var r := TheaterDataOf(bs);
    assert DistinctBy(entries, TheaterOf) by {
      forall i, j | 0 <= i < j < |entries| ensures TheaterOf(entries[i]) != TheaterOf(entries[j]) {
        TheaterEntriesAt(bs, i);
        TheaterEntriesAt(bs, j);
      }
    }
    SortDistinct(entries, NegBookings, TheaterOf);
    forall j | 0 <= j < |r| ensures Occurs(bs, ByTheater, r[j].theater) {
      SortElement(entries, NegBookings, r[j]);
      var p :| 0 <= p < |entries| && entries[p] == r[j];
      TheaterEntriesAt(bs, p);
    }
    forall t | Occurs(bs, ByTheater, t) ensures exists i :: 0 <= i < |r| && r[i].theater == t {
      var p :| 0 <= p < |ts| && ts[p] == t;
      TheaterEntriesAt(bs, p);
      SortContains(entries, NegBookings, p);
      var i :| 0 <= i < |r| && r[i] == entries[p];
    }
  }

  /**
   * Each slice's count is the number of bookings at its theater (so at least one),
   * and its colour is the palette entry at the theater's first-seen position,
   * cyclically, whatever its position after sorting.
   */
  lemma TheaterSliceContent(bs: seq<Booking>)
    ensures var r := TheaterDataOf(bs);
            var ts := DistinctKeys(bs, ByTheater);
            && (forall j :: 0 <= j < |r| ==> r[j].bookings == CountWith(bs, ByTheater, r[j].theater) >= 1)
            && (forall j :: 0 <= j < |r| ==>
                  exists i :: 0 <= i < |ts| && ts[i] == r[j].theater && r[j].fill == Colors[i % |Colors|])
  {
    var ts := DistinctKeys(bs, ByTheater);
    var entries := Colored(Counts(Grouped(bs, ByTheater)), 0);
    var r := TheaterDataOf(bs);
    forall j | 0 <= j < |r|
      ensures r[j].bookings == CountWith(bs, ByTheater, r[j].theater) >= 1
      ensures exists i :: 0 <= i < |ts| && ts[i] == r[j].theater && r[j].fill == Colors[i % |Colors|]
    {
      SortElement(entries, NegBookings, r[j]);
      var p :| 0 <= p < |entries| && entries[p] == r[j];
      TheaterEntriesAt(bs, p);
      CountOccurs(bs, ByTheater, r[j].theater);
    }
  }

  /** The slice counts add up to the number of bookings. */
  lemma TheaterTotal(bs: seq<Booking>)
    ensures SumBy(TheaterDataOf(bs), TheaterCount) == |bs|
  {
    var m := Grouped(bs, ByTheater);
    SortSumBy(Colored(Counts(m), 0), NegBookings, TheaterCount);
    ColoredSum(Counts(m), 0);
    CountsSum(m);
    GroupedCountSum(bs, ByTheater);
  }

  function CountValue(e: (string, nat)): int { e.1 }

  lemma {:induction false} ColoredSum(m: Entries<nat>, start: nat)
    ensures SumBy(Colored(m, start), TheaterCount) == SumBy(m, CountValue)
  {
    if m != [] {
      ColoredSum(m[1..], start + 1);
      assert Colored(m, start)[1..] == Colored(m[1..], start + 1);
    }
  }

  lemma {:induction false} CountsSum(m: Entries<Totals>)
    ensures SumBy(Counts(m), CountValue) == SumBy(m, EntryCount)
  {
    if m != [] {
      CountsSum(m[1..]);
      assert Counts(m)[1..] == Counts(m[1..]);
    }
  }

  // ---------------------------------------------------------------- access guard and dashboard

  /** The store's user; `role` is absent on users whose record carries none. */
  datatype User = User(username: string, role: Option<string>)

  /** `user?.role === 'admin'`. */
  predicate IsAdmin(user: Option<User>)
    ensures IsAdmin(user) ==> user.Some?
  {
    user.Some? && user.value.role == Some("admin")
  }

  datatype RenderMode = AuthRequired | AccessDenied | Dashboard

  /** The guards `if (!user)` and `if (!isAdmin)`, in that order. */
  function ModeOf(user: Option<User>): (mode: RenderMode)
    ensures mode == AuthRequired <==> user.None?
    ensures mode == AccessDenied <==> user.Some? && user.value.role != Some("admin")
    ensures mode == Dashboard <==> user.Some? && user.value.role == Some("admin")
  {
    if user.None? then AuthRequired
    else if !IsAdmin(user) then AccessDenied
    else Dashboard
  }

  /** The four summary cards, with the booking count shown under the revenue card. */
  datatype Summary = Summary(
    totalRevenue: int,
    bookingCount: nat,
    avgBookingValue: real,
    totalSeats: int,
    activeMovies: nat)

  /** What the component renders. */
  datatype View =
    | AuthRequiredView
    | AccessDeniedView
    | DashboardView(summary: Summary, movies: seq<MovieRevenue>, theaters: seq<TheaterData>, daily: seq<DailyBookings>)

  function SummaryOf(bs: seq<Booking>): (s: Summary)
    ensures s.totalRevenue == SumBy(bs, Cost) && s.bookingCount == |bs|
    ensures s.totalSeats == SumBy(bs, SeatCount) >= 0
    ensures s.activeMovies <= MaxMovies
  {
    Summary(TotalRevenue(bs), |bs|, AvgBookingValue(bs), TotalSeats(bs), |MovieRevenueOf(bs)|)
  }

  /** The rendered view as a function of the store's user and bookings. */
  function ViewOf(user: Option<User>, all: BookingsByOwner, dateKey: string -> int): (v: View)
    ensures v.AuthRequiredView? <==> ModeOf(user) == AuthRequired
    ensures v.AccessDeniedView? <==> ModeOf(user) == AccessDenied
    ensures v.DashboardView? <==> ModeOf(user) == Dashboard
  {
    var bs := Flatten(all);
    match ModeOf(user)
    case AuthRequired => AuthRequiredView
    case AccessDenied => AccessDeniedView
    case Dashboard => DashboardView(SummaryOf(bs), MovieRevenueOf(bs), TheaterDataOf(bs), DailyBookingsOf(bs, dateKey))
  }

  /** `ReportView()`: flatten, compute every memo, then apply the two guards. */
  method Render(user: Option<User>, all: BookingsByOwner, dateKey: string -> int) returns (v: View)
    ensures v == ViewOf(user, all, dateKey)
  {
    var flattened := Flatten(all);
    var movies := ComputeMovieRevenueData(flattened);
    var daily := ComputeDailyBookingsData(flattened, dateKey);
    var theaters := ComputeTheaterData(flattened);
    if user.None? {
      v := AuthRequiredView;
    } else if !IsAdmin(user) {
      v := AccessDeniedView;
    } else {
      var summary := Summary(TotalRevenue(flattened), |flattened|, AvgBookingValue(flattened),
                             TotalSeats(flattened), |movies|);
      v := DashboardView(summary, movies, theaters, daily);
    }
  }

  /**
   * The "Active Movies" card shows the length of the capped bar list: at most six,
   * and fewer than the distinct titles once there are more than six of them.
   */
  lemma ActiveMoviesCard(user: Option<User>, all: BookingsByOwner, dateKey: string -> int)
    requires ModeOf(user) == Dashboard
    ensures var v := ViewOf(user, all, dateKey);
            && v.summary.activeMovies == |v.movies| <= MaxMovies
            && v.summary.activeMovies == Min(MaxMovies, |DistinctKeys(Flatten(all), ByMovie)|)
  {
    MovieRevenueSize(Flatten(all));
  }

  /** With no bookings, the admin sees zero-valued cards and three empty charts. */
  lemma EmptyDashboard(user: Option<User>, all: BookingsByOwner, dateKey: string -> int)
    requires ModeOf(user) == Dashboard
    requires forall i :: 0 <= i < |all| ==> all[i].1 == []
    ensures ViewOf(user, all, dateKey) == DashboardView(Summary(0, 0, 0.0, 0, 0), [], [], [])
  {
    FlattenEmpty(all);
  }
}
