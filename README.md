# Booking statistics of the retreat admin dashboard

The admin dashboard of the retreat booking application reads the list of
bookings and shows four figures:

- the total number of bookings;
- the "active guests", which is the number of bookings whose status is exactly `confirmed`;
- the utilisation rate: the confirmed share as a whole percentage, rounded as
  `Math.round` rounds, and 0 when there are no bookings;
- a base revenue estimate in forints: a flat 15000 for every booking created
  in the current calendar month of the current year, whatever its status.

The project models these four figures as Dafny functions over a
`seq<Booking>`. The list is wrapped in an `Option`, because the query that
delivers it may not have finished yet. Lemmas state the properties
of the figures. Module `SeqFilter` models `Array.prototype.filter` followed
by `.length`. Module `AdminDashboard` models the booking record, the
four figures and their properties.

A booking carries only what the figures read. The first part is its status
string. The second is the local-time year and month in which it was created,
with months numbered 0 to 11 as `Date.getMonth` numbers them. That part is
absent when the creation timestamp is not a valid date. The current year and
month are a parameter. All the members are functions on values, so computing
the figures cannot change the booking list.

Revenue is a flat 15000 per booking created this month, whatever its status.
The dashboard reads neither a price nor a number of people. It computes no
cancelled count and no list of upcoming bookings. The percentage is rounded
as `Math.round` rounds, so a half goes up.

## Model

| member | source | states |
|---|---|---|
| SeqFilter.Filter | src/components/AdminDashboard.tsx:33 | the filtered list is no longer than the input, and each of its elements is an input element that satisfies the predicate |
| SeqFilter.FilterMultiset | src/components/AdminDashboard.tsx:33 | filtering keeps every occurrence of a satisfying element and drops every occurrence of any other |
| SeqFilter.FilterAppend | src/components/AdminDashboard.tsx:37-42 | filtering a concatenation is the concatenation of the filtered parts, so order is kept |
| SeqFilter.FilterLengthCountsIndices | src/components/AdminDashboard.tsx:33 | the filtered length is the number of positions whose element satisfies the predicate |
| SeqFilter.FilterLengthPermutation | src/components/AdminDashboard.tsx:32-43 | two lists with the same elements in any order yield the same filtered length |
| SeqFilter.FilterLengthExtremes | src/components/AdminDashboard.tsx:33-34 | the filtered length equals the input length exactly when every element satisfies the predicate, and is 0 exactly when none does |
| SeqFilter.FilterLengthPointwise | src/components/AdminDashboard.tsx:37-43 | lists that agree position by position on the predicate yield the same filtered length |
| AdminDashboard.IsConfirmed | src/components/AdminDashboard.tsx:33 | strict equality with "confirmed": the same nine characters in the same order, so any other string, an unknown status included, is not confirmed |
| AdminDashboard.SameMonthAndYear | src/components/AdminDashboard.tsx:40-41 | equal months and equal years together mean the same calendar month |
| AdminDashboard.CreatedInMonthOf | src/components/AdminDashboard.tsx:37-42 | true exactly when the booking has a valid creation date whose month and year are now's |
| AdminDashboard.TotalBookings | src/components/AdminDashboard.tsx:32 | the number of loaded bookings, and 0 while the list is absent |
| AdminDashboard.ActiveGuests | src/components/AdminDashboard.tsx:33 | the number of positions whose status is exactly "confirmed", and at most the total |
| AdminDashboard.RoundHalfUp | src/components/AdminDashboard.tsx:34 | `Math.round(n / d)` for non-negative n / d: the result lies within a half of n / d, and a half below is excluded, so halves round up |
| AdminDashboard.RoundHalfUpIsUnique | src/components/AdminDashboard.tsx:34 | only one integer meets the rounding bound, so the rounded value is the nearest integer |
| AdminDashboard.PercentAtMostHundred | src/components/AdminDashboard.tsx:34 | a count of at most the total rounds to at most 100 percent |
| AdminDashboard.UtilizationRate | src/components/AdminDashboard.tsx:34 | 0 with no bookings, so there is no division by zero; otherwise the nearest integer to 100 × confirmed / total, halves up; always at most 100 |
| AdminDashboard.BaseRevenueHUF | src/components/AdminDashboard.tsx:36-43 | 15000 × the number of bookings with a valid creation date in the month and year of now; a multiple of 15000, at most 15000 × total, and 0 for an absent list |
| AdminDashboard.DashboardMetrics | src/components/AdminDashboard.tsx:32-43 | the four figures of one list at one instant: confirmed at most total, rate at most 100, revenue a multiple of 15000 and at most 15000 × total, and all four 0 when there are no bookings |
| AdminDashboard.MetricsOfNoBookings | src/components/AdminDashboard.tsx:32-43 | an absent list and an empty list both give four zeros |
| AdminDashboard.UtilizationRateAllConfirmed | src/components/AdminDashboard.tsx:34 | a non-empty list whose bookings are all confirmed gives 100 |
| AdminDashboard.UtilizationRateNoneConfirmed | src/components/AdminDashboard.tsx:34 | a list with no confirmed booking, whatever the other statuses are, gives 0 |
| AdminDashboard.AppendBooking | src/components/AdminDashboard.tsx:32-43 | one more booking adds 1 to the total, 1 to the confirmed count exactly when its status is "confirmed", and 15000 to the revenue exactly when it has a valid creation date in now's month and year |
| AdminDashboard.RevenueExcludesOtherYears | src/components/AdminDashboard.tsx:40-41 | a booking created in now's month of another year adds no revenue |
| AdminDashboard.InvalidDateCountsButEarnsNothing | src/components/AdminDashboard.tsx:38-41 | a booking whose creation timestamp is not a valid date adds 1 to the total and nothing to the revenue |
| AdminDashboard.RevenueIgnoresStatus | src/components/AdminDashboard.tsx:36-43 | lists whose bookings were created in the same months have the same revenue, whatever their statuses |
| AdminDashboard.MetricsPermutationInvariant | src/components/AdminDashboard.tsx:32-43 | all four figures are the same for any reordering of the list |
| AdminDashboard.UtilizationRateExamples | src/components/AdminDashboard.tsx:34 | two of four confirmed gives 50; one of eight gives 13, because 12.5 rounds up; one of three, with an unknown status among them, gives 33 |

## Left out

- Fetching the bookings (src/components/AdminDashboard.tsx:9-26) is left out. It is a network query with caching and logging. The model takes the result, loaded or not yet loaded, as its input. A query that has never succeeded reaches the figures as an absent list. When a later refetch fails, the query keeps the last list it loaded, so the figures show that older list.
- Reading the clock is left out, and this is the first of two deviations from the code. The code calls `new Date()` separately for each booking (src/components/AdminDashboard.tsx:39). The model takes one current year and month for the whole computation. Near midnight at the end of a month, the code could compare different bookings against different months.
- Parsing `created_at` and converting it to local time (src/components/AdminDashboard.tsx:38-41) are left out. The model receives the year and month already extracted, or their absence when the timestamp is not a valid date.
- AdminDashboard.UtilizationRate: the contract uses exact rationals, and this is the second deviation. The code divides and multiplies in IEEE doubles before rounding, which can move a result that is exactly a half. For 29 confirmed of 200, the double product (29 / 200) × 100 lies just below 14.5, so the code shows 14 where the model gives 15.
- The conversion to lei (src/components/AdminDashboard.tsx:45) is left out. It multiplies by a floating-point exchange rate defined in a file that is not part of this model. The number formatting for display (line 95) is also left out.
- The rendering of the dashboard cards is left out.
- src/components/admin/program-form/programFormActions.ts is left out. Its calls to the hosted backend compute nothing locally.
- src/components/ProgramCard.tsx and src/pages/Index.tsx are UI and are left out.
