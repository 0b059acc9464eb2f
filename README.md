# Booking report: a verified model

The reporting micro-frontend shows an administrator a dashboard over every
cinema booking in the shared store. Its logic lives in two places:

- `ReportView` (`src/components/report-view.tsx`). It flattens the per-owner
  booking lists into one sequence. It folds that sequence into total revenue,
  average booking value and total seats. It builds three grouped aggregates:
  revenue by movie (top six), bookings by day (chronological) and bookings by
  theater (coloured, largest first). It picks one of three screens: sign in,
  access denied, or the dashboard.
- `tw` (`src/lib/tw.ts`). It rewrites a class string so that every class
  carries the `report-` prefix.

The Dafny modules mirror that structure:

| module | file | what it holds |
|---|---|---|
| `Wrappers` | `wrappers.dfy` | `Option`, standing for the `undefined` that `Map.get` and `user` may be |
| `Sums` | `sums.dfy` | `SumBy`, the sum of a function over a sequence, and its algebra |
| `StableSort` | `stable_sort.dfy` | `Array.prototype.sort` under a numeric comparator, as a stable insertion sort on an integer key |
| `OrderedMap` | `ordered_map.dfy` | a JS `Map` as an insertion-ordered list of key/value pairs: `get`, `set` |
| `Bookings` | `bookings.dfy` | the `Booking` record, the flattening, and the three `reduce` folds |
| `Grouping` | `grouping.dfy` | the `forEach` loops that fill a `Map`, as methods proved against a declarative grouping |
| `ReportView` | `report_view.dfy` | the three chart series, the summary cards, the access guard and the whole render |
| `Tailwind` | `tw.dfy` | `tw` and its token-level properties |
| `Scenarios` | `scenarios.dfy` | worked instances on small concrete inputs |

Modelling choices:

- **Money.** `number` costs are integers (cents). Sums are exact. The average is a `real`.
- **Maps.** A `Map` is a `seq<(string, V)>`. `set` on a present key replaces the
  value in place. `set` on a new key appends it. Iteration is therefore
  insertion order, as in JS. That order decides tie order under the stable
  sort and the theater colours.
- **Loops.** Each `forEach` loop that fills a map is a `method` with a `for`
  loop (`Grouping.BuildTotals`, `Grouping.BuildCounts`). Its invariant says the
  map built so far is `Grouped` of the bookings seen so far. `Grouped` lists
  each distinct key once, in first-occurrence order, with that key's count and
  summed cost. The fallback `get(...) || default` is modelled as
  `Get(...).GetOr(default)`. This is exact: a stored tally is an object, which
  is truthy, and a stored count is at least 1.
- **Sorting.** The descending comparators `b.revenue - a.revenue` and
  `b.bookings - a.bookings` are an ascending sort on the negated field. The
  date comparator compares `dateKey(a.date)` with `dateKey(b.date)`, where
  `dateKey` is a parameter that stands for `new Date(d).getTime()`.
  Stability means this: for each key value, the entries with that key come out
  in the order they went in.
- **Colours.** The code colours the theater entries by their index in map
  order (`report-view.tsx:150-155`) and sorts them only afterwards (`:156`).
  So a theater's colour follows its first-seen position, not its rank. The
  model does the same; `Scenarios.TheaterColourScenario` shows a case where
  the two differ.
- **Active movies.** The "Active Movies" card shows `movieRevenueData.length`
  (`:372`). That list has already been cut to six, so the card never shows more
  than 6. The model keeps this behaviour (`ReportView.ActiveMoviesCard`).
- **User.** The guard reads `user?.role` through `any`. The model's `User` has
  `role: Option<string>`. A missing role is not `"admin"`, so it yields the access-denied screen.

## Model

| member | source | states |
|---|---|---|
| `Bookings.Flatten` | src/components/report-view.tsx:76 | the flattened sequence is as long as all the owner lists together, and a booking is in it exactly when some owner list holds it |
| `Bookings.FlattenSnoc` | src/components/report-view.tsx:76 | an owner list enumerated last contributes its bookings, in order, after all earlier ones; so each owner's bookings appear consecutively, in enumeration order, with their multiplicities |
| `Bookings.FlattenEmpty` | src/components/report-view.tsx:76 | when every owner list is empty, the flattened sequence is empty |
| `Bookings.Reduce` | src/components/report-view.tsx:79-82 | a left `reduce` from an initial sum equals that sum plus the sum of the mapped values; it serves both folds (`:79-82` and `:92-95`) |
| `Bookings.TotalRevenue` | src/components/report-view.tsx:78-83 | total revenue is the sum of `totalCost` over all bookings, and 0 for no bookings |
| `Bookings.AvgBookingValue` | src/components/report-view.tsx:85-89 | the average is 0 for no bookings; otherwise average times count equals total revenue, so there is no division by zero |
| `Bookings.AvgWithinCosts` | src/components/report-view.tsx:85-89 | for a non-empty list, some booking costs at most the average and some booking costs at least the average |
| `Bookings.TotalSeats` | src/components/report-view.tsx:91-96 | total seats is the sum of the seat-list lengths, hence never negative |
| `OrderedMap.Get` | src/components/report-view.tsx:102 | `get` yields nothing exactly for an absent key, and otherwise a value stored under that key |
| `OrderedMap.Set` | src/components/report-view.tsx:106 | `set` on a present key keeps the length and the key order, so the key stays where it was; on a new key it adds one entry and appends the key last |
| `OrderedMap.GetSet` | src/components/report-view.tsx:102-109 | after `set(k, v)`, `get(k)` yields `v` and every other key yields what it yielded before |
| `OrderedMap.SetKeepsKeysDistinct` | src/components/report-view.tsx:106 | `set` never creates a duplicate key |
| `OrderedMap.SetSumBy` | src/components/report-view.tsx:106 | how a sum over the map changes under `set`: the new pair is added and the replaced pair, if any, is removed |
| `Grouping.DistinctKeys` | src/components/report-view.tsx:99-110 | the map's keys: exactly the keys that occur among the bookings, each once |
| `Grouping.FirstIndex` | src/components/report-view.tsx:101-109 | the index of the first booking with a key: that booking has the key, no earlier one does, and the index equals the length exactly when the key is absent |
| `Grouping.DistinctKeysFirstSeen` | src/components/report-view.tsx:112 | the map lists its keys in the order of their first occurrence among the bookings |
| `Grouping.CountOccurs` | src/components/report-view.tsx:101-109 | a key's booking count is non-zero exactly when the key occurs; an absent key has a zero tally |
| `Grouping.Grouped` | src/components/report-view.tsx:99-110 | the reference grouping has the distinct keys, in first-seen order, and no duplicate key |
| `Grouping.GetGrouped` | src/components/report-view.tsx:102 | looking up a key yields its count and summed cost when it occurs, nothing otherwise |
| `Grouping.GroupedSnoc` | src/components/report-view.tsx:101-109 | one more booking changes the grouping by a single `set` of that booking's key to its old tally plus this booking |
| `Grouping.BuildTotals` | src/components/report-view.tsx:99-110 | the `forEach` loop that fills the movie map (and, keyed by date, the date map at `:123-131`) builds exactly the reference grouping |
| `Grouping.Counts` | src/components/report-view.tsx:143 | the count-only map has the same keys, in the same order, as the tally map |
| `Grouping.CountsAfterSet` | src/components/report-view.tsx:146-147 | one step of the count loop keeps the count map equal to the counts of the tally map |
| `Grouping.BuildCounts` | src/components/report-view.tsx:143-148 | the `forEach` loop that fills the theater map builds exactly the per-key booking counts of the reference grouping |
| `Grouping.GroupedCountSum` | src/components/report-view.tsx:101-110 | the per-key counts add up to the number of bookings |
| `Grouping.GroupedRevenueSum` | src/components/report-view.tsx:101-110 | the per-key revenues add up to the total revenue |
| `StableSort.Sort` | src/components/report-view.tsx:118 | the sorted list is a permutation of its input and is ordered by the key |
| `StableSort.SortStable` | src/components/report-view.tsx:118 | for each key value, the entries with that value keep their input order |
| `StableSort.SortSumBy` | src/components/report-view.tsx:156 | sorting leaves any sum over the entries unchanged |
| `StableSort.SortDistinct` | src/components/report-view.tsx:139 | sorting a list whose entries have distinct names keeps the names distinct |
| `ReportView.Display` | src/components/report-view.tsx:114 | a title of at most 20 characters is shown as is; a longer one is shown as its first 20 characters followed by "...", 23 characters in all |
| `ReportView.RankMovies` | src/components/report-view.tsx:118-119 | the sort-and-slice keeps min(6, number of entries) bars, each one of the mapped entries |
| `ReportView.MovieRevenueOf` | src/components/report-view.tsx:98-120 | the whole `movieRevenueData` pipeline never yields more than 6 bars; its other properties are the `MovieRevenue*` lemmas below |
| `ReportView.MovieEntries` | src/components/report-view.tsx:112-117 | one bar per map entry, in map order, with the display name, revenue and count of that entry |
| `ReportView.ComputeMovieRevenueData` | src/components/report-view.tsx:98-120 | the memo fills the movie map, then maps, sorts and slices it, giving `MovieRevenueOf` of the bookings |
| `ReportView.MovieRevenueSize` | src/components/report-view.tsx:119 | at most 6 bars, and exactly min(6, number of distinct full titles) |
| `ReportView.MovieRevenueRanked` | src/components/report-view.tsx:118 | the bars are non-increasing by revenue |
| `ReportView.MovieRevenueTiesStable` | src/components/report-view.tsx:118-119 | among bars of equal revenue, the shown ones are a prefix of those titles in first-seen order |
| `ReportView.MovieRevenueTop` | src/components/report-view.tsx:118-119 | every movie cut off by the slice earned no more than any movie shown |
| `ReportView.MovieRevenueEntries` | src/components/report-view.tsx:99-119 | each bar is the display name, summed cost and count of one full title that occurs; with at most 6 titles every title has its bar |
| `ReportView.DayEntries` | src/components/report-view.tsx:133-138 | one point per map entry, in map order, with that entry's date, count and revenue |
| `ReportView.DailyBookingsOf` | src/components/report-view.tsx:122-140 | the whole `dailyBookingsData` pipeline yields one point per distinct date; its other properties are the `Daily*` lemmas below |
| `ReportView.ComputeDailyBookingsData` | src/components/report-view.tsx:122-140 | the memo fills the date map, then maps and sorts it, giving `DailyBookingsOf` of the bookings and the date key |
| `ReportView.DailyChronological` | src/components/report-view.tsx:139 | the points are non-decreasing by `dateKey(date)` |
| `ReportView.DailyTiesStable` | src/components/report-view.tsx:139 | dates with the same key keep their first-seen order |
| `ReportView.DailyOnePerDate` | src/components/report-view.tsx:123-138 | exactly one point per distinct date string; each point holds that date's booking count and summed cost |
| `ReportView.DailyTotals` | src/components/report-view.tsx:125-131 | the daily counts add up to the number of bookings, and the daily revenues to the total revenue |
| `ReportView.Colored` | src/components/report-view.tsx:150-155 | the entry at map index `i` gets colour `COLORS[i % 6]` and keeps its theater and count |
| `ReportView.TheaterDataOf` | src/components/report-view.tsx:142-157 | the whole `theaterData` pipeline yields one slice per distinct theater; its other properties are the `Theater*` lemmas below |
| `ReportView.ComputeTheaterData` | src/components/report-view.tsx:142-157 | the memo fills the theater map, then colours and sorts it, giving `TheaterDataOf` of the bookings |
| `ReportView.TheaterRanked` | src/components/report-view.tsx:156 | the slices are non-increasing by booking count |
| `ReportView.TheaterTiesStable` | src/components/report-view.tsx:156 | theaters with equal counts keep their first-seen order |
| `ReportView.TheaterOnePerTheater` | src/components/report-view.tsx:143-156 | exactly one slice per distinct theater location |
| `ReportView.TheaterSliceContent` | src/components/report-view.tsx:145-155 | each slice's count is its theater's booking count (at least 1), and its fill is `COLORS[i % 6]` for the theater's first-seen index `i` |
| `ReportView.TheaterTotal` | src/components/report-view.tsx:145-148 | the slice counts add up to the number of bookings |
| `ReportView.IsAdmin` | src/components/report-view.tsx:74 | `user?.role === 'admin'` holds only when there is a user |
| `ReportView.SummaryOf` | src/components/report-view.tsx:264-374 | the cards show the summed costs, the number of bookings, the summed seat counts (never negative) and at most 6 active movies |
| `ReportView.ModeOf` | src/components/report-view.tsx:159-209 | sign-in screen iff there is no user; access denied iff there is a user whose role is not "admin"; dashboard iff the user's role is "admin" |
| `ReportView.ViewOf` | src/components/report-view.tsx:159-211 | the rendered view is the sign-in, access-denied or dashboard view exactly in the corresponding render mode |
| `ReportView.Render` | src/components/report-view.tsx:67-211 | the component flattens, computes every memo and applies the two guards, giving `ViewOf` of the user, the bookings and the date key |
| `ReportView.ActiveMoviesCard` | src/components/report-view.tsx:372 | on the dashboard the "Active Movies" value is the number of bars, at most 6, which is min(6, number of distinct titles) |
| `ReportView.EmptyDashboard` | src/components/report-view.tsx:76-157 | with no bookings the dashboard shows zero revenue, count, average, seats and movies, and three empty series |
| `Tailwind.Split` | src/lib/tw.ts:4 | `split(' ')` yields at least one piece, and no piece holds a space |
| `Tailwind.NonEmpty` | src/lib/tw.ts:5 | `filter(Boolean)` keeps exactly the non-empty pieces |
| `Tailwind.NonEmptySingle` | src/lib/tw.ts:5 | a single piece is kept exactly when it is not empty |
| `Tailwind.NonEmptyConcat` | src/lib/tw.ts:5 | filtering keeps order: the filter of a concatenation is the concatenation of the filters (with `NonEmptySingle`, this fixes the result for every list) |
| `Tailwind.Tokens` | src/lib/tw.ts:4-5 | split-then-filter yields only non-empty classes without spaces |
| `Tailwind.Prefixed` | src/lib/tw.ts:6-11 | the callback's result starts with "report-" and ends with the original class |
| `Tailwind.PrefixAll` | src/lib/tw.ts:6-11 | the mapped list has one class per input class, each prefixed unless it already has the prefix |
| `Tailwind.Join` | src/lib/tw.ts:12 | `join(' ')` of no pieces is empty; otherwise it starts with the first piece and its length is the pieces' total plus one space between each pair |
| `Tailwind.Tw` | src/lib/tw.ts:1-13 | `tw` returns the empty string exactly when the input names no class, and otherwise a string starting with "report-" |
| `Tailwind.SplitJoin` | src/lib/tw.ts:4-12 | splitting a space-joined list of space-free pieces gives the list back |
| `Tailwind.JoinSplit` | src/lib/tw.ts:4-12 | joining the pieces of a split gives the string back |
| `Tailwind.TokensEmpty` | src/lib/tw.ts:4-5 | a string has no classes exactly when it is all spaces |
| `Tailwind.TwTokens` | src/lib/tw.ts:4-12 | the output's classes are, one for one and in order, the prefixed classes of the input |
| `Tailwind.TwAllPrefixed` | src/lib/tw.ts:6-11 | every output class starts with "report-" |
| `Tailwind.TwTokenwise` | src/lib/tw.ts:7-10 | an input class that starts with "report-" is output unchanged; any other is output as "report-" followed by the class |
| `Tailwind.TwNoStraySpaces` | src/lib/tw.ts:4-12 | a non-empty output splits into exactly its prefixed classes, so it has no doubled, leading or trailing space |
| `Tailwind.TwEmpty` | src/lib/tw.ts:4-12 | the output is empty exactly when the input is empty or all spaces |
| `Tailwind.TwIdempotent` | src/lib/tw.ts:4-12 | applying `tw` to its own output returns that output |
| `Scenarios.MovieScenario` | src/components/report-view.tsx:98-120 | costs 10 and 20 for "A" and 5 for "B" give the bars ("A", 30, 2) and ("B", 5, 1), in that order |
| `Scenarios.EmptyAverage` | src/components/report-view.tsx:85-89 | with no bookings the average is 0 |
| `Scenarios.ModeScenarios` | src/components/report-view.tsx:159-209 | no user gives the sign-in screen; a viewer or a role-less user gets access denied; an admin gets the dashboard |
| `Scenarios.TheaterColourScenario` | src/components/report-view.tsx:150-156 | theater "X" is seen first and keeps colour 0, although "Y" has more bookings and is listed first with colour 1 |
| `Scenarios.TwScenario` | src/lib/tw.ts:3-12 | `" a  b "` becomes `"report-a report-b"` |
| `Scenarios.TwPrefixedScenario` | src/lib/tw.ts:7-8 | `"report-a"` is left unchanged |

## Left out

- JSX markup, cards, legends, tooltips and the recharts charts are left out. They are presentation and a foreign library. So are the pie percentage labels (`report-view.tsx:450-453`) and `toFixed(2)` formatting, which are floating-point text formatting.
- `useAppStore` and the remote `storeApp/store` module are left out. The user and the bookings record become the inputs of `ReportView.Render`.
- `useMemo` caching is left out. It changes when values are computed, not what they are.
- `new Date(date).getTime()` is replaced by the parameter `dateKey`. A malformed date parses to `NaN` in JS, and a comparator returning `NaN` makes the sort order implementation-defined. The model assumes a total integer key.
- ReportView.Render: `Object.values(allBookings)` (`report-view.tsx:76`) throws a TypeError when the store's `allBookings` is `undefined` or `null`. This happens before either guard, so the component then renders nothing, not even the sign-in screen. The model takes the record as always present, so it does not capture that crash.
- IEEE double arithmetic is left out. Costs are exact integers and the average is an exact real, so rounding and overflow are not modelled.
- Bookings.Flatten: `Object.values` enumerates owner keys in JS property order (integer-like keys first). The model takes the record as a sequence already in enumeration order.
- ReportView.Display: JS `length` and `substring` count UTF-16 code units. The model counts Dafny characters, so a title with characters outside the Basic Multilingual Plane is cut at a different place.
- `String.raw` and template interpolation in `tw` (`tw.ts:1-2`) are left out. `Tailwind.Tw` takes the already-interpolated string.
- `vite.config.ts` is build configuration only. `src/vite-env.d.ts` holds type declarations only. Neither has any logic to model.
