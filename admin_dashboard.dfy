/**
  The booking statistics shown on the admin dashboard of the retreat booking
  application: how many bookings there are, how many of them are confirmed,
  the confirmed share as a whole percentage, and an estimate of this month's
  revenue in forints at a flat rate per booking.

  The booking list comes from a query that may not have delivered yet, so it
  is an `Option`; the month and year a booking was created are already taken
  from its timestamp in local time, and are absent when the timestamp does
  not parse; the current month and year are a parameter, read once for the
  whole computation.
 */
module AdminDashboard {
  import opened SeqFilter

  datatype Option<T> = None | Some(value: T)

  /** A month of the year as `Date.getMonth` numbers it: 0 is January. */
  type MonthIndex = m: int | 0 <= m < 12

  /** The local-time calendar month of an instant. */
  datatype YearMonth = YearMonth(year: int, month: MonthIndex)

  /** The part of a booking record the statistics read. The status is the
      backend's string, which need not be one of the values the application
      knows about. `created` is `None` when the creation timestamp is not a
      valid date: its month and year are then NaN, which equals nothing. */
  datatype Booking = Booking(status: string, created: Option<YearMonth>)

  /** The four values the dashboard cards display. */
  datatype Metrics = Metrics(totalBookings: nat, activeGuests: nat, utilizationRate: nat, baseRevenueHUF: nat)

  /** The status of a confirmed booking. */
  const Confirmed: string := "confirmed"

  /** The revenue estimate per booking created this month, in forints. */
  const FlatRateHUF: nat := 15000

  /** The bookings that have been loaded; none while the query is pending. */
  function Loaded(bookings: Option<seq<Booking>>): seq<Booking> {
    match bookings
    case None => []
    case Some(s) => s
  }

  /** Strict string equality with "confirmed": the same length and the same
      character at every position, so case and unknown statuses matter. */
  predicate IsConfirmed(b: Booking)
    ensures IsConfirmed(b) <==> |b.status| == 9 && forall i :: 0 <= i < 9 ==> b.status[i] == "confirmed"[i]
  {
    b.status == Confirmed
  }

  /** Whether two instants fall in the same calendar month of the same year.
      A month stands for nothing but its year and its number, so this is
      equality of the two months. */
  predicate SameMonthAndYear(created: YearMonth, now: YearMonth)
    ensures SameMonthAndYear(created, now) <==> created == now
  {
    created.month == now.month && created.year == now.year
  }

  /** The revenue filter: was the booking created in the month of `now`? A
      booking without a valid creation date never is. */
  function CreatedInMonthOf(now: YearMonth): (r: Booking -> bool)
    ensures forall b :: r(b) <==> b.created == Some(now)
  {
    (b: Booking) => b.created.Some? && SameMonthAndYear(b.created.value, now)
  }

  /** The number of loaded bookings, 0 while none are loaded. */
  function TotalBookings(bookings: Option<seq<Booking>>): (r: nat)
    ensures bookings.Some? ==> r == |bookings.value|
    ensures bookings.None? ==> r == 0
  {
    match bookings
    case None => 0
    case Some(s) => |s|
  }

  /** The number of loaded bookings whose status is exactly "confirmed", 0
      while none are loaded. */
  function ActiveGuests(bookings: Option<seq<Booking>>): (r: nat)
    ensures r == |IndicesWhere(IsConfirmed, Loaded(bookings))|
    ensures r <= TotalBookings(bookings)
  {
    match bookings
    case None => 0
    case Some(s) =>
      FilterLengthCountsIndices(IsConfirmed, s);
      |Filter(IsConfirmed, s)|
  }

  /** `Math.round(x)` for a non-negative rational `x = n / d`: the integer
      nearest to `x`, a half rounded up. */
  function RoundHalfUp(n: nat, d: nat): (r: nat)
    requires d > 0
    ensures 2 * n - d < 2 * d * r <= 2 * n + d
  {
    var q := (2 * n + d) / (2 * d);
    assert 2 * d * q + (2 * n + d) % (2 * d) == 2 * n + d;
    q
  }

  /** At most one integer lies within a half of `n / d`, a half below
      excluded, so the contract of `RoundHalfUp` determines its result. */
  lemma RoundHalfUpIsUnique(n: nat, d: nat, k: int)
    requires d > 0
    requires 2 * n - d < 2 * d * k <= 2 * n + d
    ensures k == RoundHalfUp(n, d)
  {
    var r := RoundHalfUp(n, d);
    ScaleMonotone(2 * d, r + 1, k);
    ScaleMonotone(2 * d, k + 1, r);
    assert k < r + 1 && r < k + 1;
  }

  /** Scaling by a non-negative factor keeps the order. */
  lemma ScaleMonotone(c: nat, x: int, y: int)
    ensures x <= y ==> c * x <= c * y
  {
    assert c * y == c * x + c * (y - x);
  }

  /** A share of at most the whole rounds to at most 100 percent. */
  lemma PercentAtMostHundred(active: nat, total: nat)
    requires 0 < total && active <= total
    ensures RoundHalfUp(100 * active, total) <= 100
  {
    var r := RoundHalfUp(100 * active, total);
    ScaleMonotone(2 * total, 101, r);
    ScaleMonotone(200, active, total);
  }

  /** The share of confirmed bookings as a whole percentage, rounded as
      `Math.round` does, and 0 when there are no bookings. */
  function UtilizationRate(bookings: Option<seq<Booking>>): (r: nat)
    ensures TotalBookings(bookings) == 0 ==> r == 0
    ensures TotalBookings(bookings) > 0 ==>
      2 * (100 * ActiveGuests(bookings)) - TotalBookings(bookings)
        < 2 * TotalBookings(bookings) * r
        <= 2 * (100 * ActiveGuests(bookings)) + TotalBookings(bookings)
    ensures r <= 100
  {
    var total, active := TotalBookings(bookings), ActiveGuests(bookings);
    if total > 0 then
      PercentAtMostHundred(active, total);
      RoundHalfUp(100 * active, total)
    else 0
  }

  /** The flat rate times the number of loaded bookings created in the month
      and year of `now`, 0 while none are loaded. */
  function BaseRevenueHUF(bookings: Option<seq<Booking>>, now: YearMonth): (r: nat)
    ensures r == FlatRateHUF * |IndicesWhere(CreatedInMonthOf(now), Loaded(bookings))|
    ensures r % FlatRateHUF == 0
    ensures r <= FlatRateHUF * TotalBookings(bookings)
  {
    match bookings
    case None => 0
    case Some(s) =>
      FilterLengthCountsIndices(CreatedInMonthOf(now), s);
      |Filter(CreatedInMonthOf(now), s)| * FlatRateHUF
  }

  /** The dashboard's statistics of one booking list at one instant. */
  function DashboardMetrics(bookings: Option<seq<Booking>>, now: YearMonth): (m: Metrics)
    ensures m.activeGuests <= m.totalBookings
    ensures m.utilizationRate <= 100
    ensures m.baseRevenueHUF % FlatRateHUF == 0 && m.baseRevenueHUF <= FlatRateHUF * m.totalBookings
    ensures m.totalBookings == 0 ==> m == Metrics(0, 0, 0, 0)
  {
    Metrics(TotalBookings(bookings), ActiveGuests(bookings), UtilizationRate(bookings), BaseRevenueHUF(bookings, now))
  }

  /** With no bookings loaded, or none at all, every statistic is 0. */
  lemma MetricsOfNoBookings(now: YearMonth)
    ensures DashboardMetrics(None, now) == Metrics(0, 0, 0, 0)
    ensures DashboardMetrics(Some([]), now) == Metrics(0, 0, 0, 0)
  {
  }

  /** A list in which every booking is confirmed is fully utilised. */
  lemma UtilizationRateAllConfirmed(s: seq<Booking>)
    requires s != []
    requires forall i :: 0 <= i < |s| ==> IsConfirmed(s[i])
    ensures UtilizationRate(Some(s)) == 100
  {
    FilterLengthExtremes(IsConfirmed, s);
    var t := |s|;
    assert ActiveGuests(Some(s)) == t;
    RoundHalfUpIsUnique(100 * t, t, 100);
  }

  /** A list in which no booking is confirmed has a utilisation of 0. */
  lemma UtilizationRateNoneConfirmed(s: seq<Booking>)
    requires forall i :: 0 <= i < |s| ==> !IsConfirmed(s[i])
    ensures UtilizationRate(Some(s)) == 0
  {
    FilterLengthExtremes(IsConfirmed, s);
    assert ActiveGuests(Some(s)) == 0;
    if s != [] {
      RoundHalfUpIsUnique(0, |s|, 0);
    }
  }

  /** Adding one booking to the list adds one to the total, one to the
      confirmed count exactly when its status is "confirmed", and one flat
      rate to the revenue exactly when it has a valid creation date in the
      current month of the current year, whatever its status. */
  lemma AppendBooking(s: seq<Booking>, b: Booking, now: YearMonth)
    ensures TotalBookings(Some(s + [b])) == TotalBookings(Some(s)) + 1
    ensures ActiveGuests(Some(s + [b])) == ActiveGuests(Some(s)) + (if b.status == Confirmed then 1 else 0)
    ensures BaseRevenueHUF(Some(s + [b]), now) ==
      BaseRevenueHUF(Some(s), now) +
      (if b.created.Some? && b.created.value.month == now.month && b.created.value.year == now.year then FlatRateHUF else 0)
  {
    FilterAppend(IsConfirmed, s, [b]);
    FilterAppend(CreatedInMonthOf(now), s, [b]);
    assert [b][1..] == [];
  }

  /** A booking made in the current month of another year brings no revenue. */
  lemma RevenueExcludesOtherYears(s: seq<Booking>, b: Booking, now: YearMonth)
    requires b.created.Some? && b.created.value.month == now.month && b.created.value.year != now.year
    ensures BaseRevenueHUF(Some(s + [b]), now) == BaseRevenueHUF(Some(s), now)
  {
    AppendBooking(s, b, now);
  }

  /** A booking whose creation timestamp is not a valid date counts in the
      total but brings no revenue. */
  lemma InvalidDateCountsButEarnsNothing(s: seq<Booking>, b: Booking, now: YearMonth)
    requires b.created.None?
    ensures TotalBookings(Some(s + [b])) == TotalBookings(Some(s)) + 1
    ensures BaseRevenueHUF(Some(s + [b]), now) == BaseRevenueHUF(Some(s), now)
  {
    AppendBooking(s, b, now);
  }

  /** The revenue estimate reads no status: two lists whose bookings were
      created in the same months have the same revenue. */
  lemma RevenueIgnoresStatus(s: seq<Booking>, t: seq<Booking>, now: YearMonth)
    requires |s| == |t|
    requires forall i :: 0 <= i < |s| ==> s[i].created == t[i].created
    ensures BaseRevenueHUF(Some(s), now) == BaseRevenueHUF(Some(t), now)
  {
    FilterLengthPointwise(CreatedInMonthOf(now), s, CreatedInMonthOf(now), t);
  }

  /** The statistics do not depend on the order in which the bookings arrive. */
  lemma MetricsPermutationInvariant(s: seq<Booking>, t: seq<Booking>, now: YearMonth)
    requires multiset(s) == multiset(t)
    ensures DashboardMetrics(Some(s), now) == DashboardMetrics(Some(t), now)
  {
    assert |s| == |multiset(s)| == |multiset(t)| == |t|;
    FilterLengthPermutation(IsConfirmed, s, t);
    FilterLengthPermutation(CreatedInMonthOf(now), s, t);
  }

  /** Worked percentages: two of four (50), one of eight (12.5, rounded up to
      13), and one of three where another status is not one the application
      knows (33). */
  lemma UtilizationRateExamples(created: Option<YearMonth>)
    ensures UtilizationRate(Some([Booking("confirmed", created), Booking("confirmed", created),
                                  Booking("cancelled", created), Booking("cancelled", created)])) == 50
    ensures UtilizationRate(Some([Booking("confirmed", created)] + seq(7, _ => Booking("pending", created)))) == 13
    ensures UtilizationRate(Some([Booking("confirmed", created), Booking("cancelled", created), Booking("archived", created)])) == 33
  {
    var c, x, p := Booking("confirmed", created), Booking("cancelled", created), Booking("pending", created);
    var a := Booking("archived", created);
    assert Filter(IsConfirmed, [x]) == [];
    assert Filter(IsConfirmed, [x, x]) == [];
    assert Filter(IsConfirmed, [c, x, x]) == [c];
    assert Filter(IsConfirmed, [c, c, x, x]) == [c, c];
    RoundHalfUpIsUnique(200, 4, 50);
    var ps := seq(7, _ => p);
    assert Filter(IsConfirmed, ps) == [] by {
      FilterLengthExtremes(IsConfirmed, ps);
    }
    assert ([c] + ps)[1..] == ps;
    assert Filter(IsConfirmed, [c] + ps) == [c];
    RoundHalfUpIsUnique(100, 8, 13);
    assert Filter(IsConfirmed, [a]) == [];
    assert Filter(IsConfirmed, [x, a]) == [];
    assert Filter(IsConfirmed, [c, x, a]) == [c];
    RoundHalfUpIsUnique(100, 3, 33);
  }
}
