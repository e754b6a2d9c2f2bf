/**
 * The external user's dashboard: the upcoming bookings, the pending and paid counts,
 * the total paid, and the badges of the upcoming list. Every figure is computed from
 * the user's own bookings.
 */
module ExternalDashboard {
  import opened Wrappers
  import opened Seqs
  import opened MockData
  import InternalDashboard

  /** `b.paymentAmount || 0`: a missing amount counts as nothing. */
  function AmountOrZero(b: Booking): (a: Amount)
    ensures b.paymentAmount.None? ==> a == 0.0
    ensures b.paymentAmount.Some? ==> a == b.paymentAmount.value
  {
    if b.paymentAmount.Some? then b.paymentAmount.value else 0.0
  }

  /** `reduce((sum, b) => sum + (b.paymentAmount || 0), 0)`. */
  function SumAmounts(bs: seq<Booking>): (total: real)
    ensures (forall b :: b in bs ==> AmountOrZero(b) >= 0.0) ==> total >= 0.0
    decreases |bs|
  {
    if bs == [] then 0.0 else AmountOrZero(bs[0]) + SumAmounts(bs[1..])
  }

  /** The total of a concatenation is the sum of the totals. */
  lemma {:induction false} SumAmountsAppend(a: seq<Booking>, b: seq<Booking>)
    ensures SumAmounts(a + b) == SumAmounts(a) + SumAmounts(b)
    decreases |a|
  {
    if a == [] {
      assert a + b == b;
    } else {
      assert (a + b)[0] == a[0];
      assert (a + b)[1..] == a[1..] + b;
      SumAmountsAppend(a[1..], b);
    }
  }

  predicate IsPaid(b: Booking)
  {
    b.paymentStatus == Some(Paid)
  }

  /** The figures on the dashboard. */
  datatype Figures = Figures(upcoming: seq<Booking>, pendingCount: nat, paidBookings: nat, totalSpent: real)

  /** The dashboard of user `userId`, all computed from `getUserBookings(userId)`. */
  function DashboardFigures(bookings: seq<Booking>, userId: string): (f: Figures)
    ensures f.upcoming == InternalDashboard.UpcomingBookings(bookings, userId)
    ensures f.pendingCount <= |f.upcoming|
    ensures f.paidBookings <= |GetUserBookings(bookings, userId)|
  {
    var mine := GetUserBookings(bookings, userId);
    FilterCountMonotone((b: Booking) => b.status == Pending, InternalDashboard.IsUpcoming, mine);
    Figures(
      InternalDashboard.UpcomingBookings(bookings, userId),
      |WithStatus(mine, Pending)|,
      |Filter(IsPaid, mine)|,
      SumAmounts(Filter(IsPaid, mine)))
  }

  /**
   * One more booking at the end of the list adds one paid booking and its amount (0 when
   * missing) exactly when it is the user's and paid, and changes neither figure otherwise.
   */
  lemma FiguresSnoc(bookings: seq<Booking>, b: Booking, userId: string)
    ensures var before := DashboardFigures(bookings, userId);
      var after := DashboardFigures(bookings + [b], userId);
      && after.paidBookings == before.paidBookings + (if b.userId == userId && IsPaid(b) then 1 else 0)
      && after.totalSpent == before.totalSpent + (if b.userId == userId && IsPaid(b) then AmountOrZero(b) else 0.0)
  {
    var owned := (x: Booking) => x.userId == userId;
    FilterAppend(owned, bookings, [b]);
    var mine := GetUserBookings(bookings, userId);
    assert GetUserBookings(bookings + [b], userId) == mine + Filter(owned, [b]);
    FilterAppend(IsPaid, mine, Filter(owned, [b]));
    SumAmountsAppend(Filter(IsPaid, mine), Filter(IsPaid, Filter(owned, [b])));
  }

  /** The total is the sum over the user's paid bookings only, and it is never negative when no amount is. */
  lemma TotalSpentOverPaid(bookings: seq<Booking>, userId: string)
    requires forall b :: b in bookings && b.paymentAmount.Some? ==> b.paymentAmount.value >= 0.0
    ensures DashboardFigures(bookings, userId).totalSpent >= 0.0
    ensures (forall b :: b in bookings && b.userId == userId ==> !IsPaid(b)) ==> DashboardFigures(bookings, userId).totalSpent == 0.0
  {
    var mine := GetUserBookings(bookings, userId);
    if forall b :: b in bookings && b.userId == userId ==> !IsPaid(b) {
      FilterNone(IsPaid, mine);
    }
  }

  /** Bookings of other users change none of the figures, wherever they sit in the list. */
  lemma OthersDoNotCount(bookings: seq<Booking>, others: seq<Booking>, userId: string)
    requires forall b :: b in others ==> b.userId != userId
    ensures DashboardFigures(bookings + others, userId) == DashboardFigures(bookings, userId)
    ensures DashboardFigures(others + bookings, userId) == DashboardFigures(bookings, userId)
  {
    var owned := (b: Booking) => b.userId == userId;
    FilterAppend(owned, bookings, others);
    FilterAppend(owned, others, bookings);
    FilterNone(owned, others);
    assert GetUserBookings(bookings + others, userId) == GetUserBookings(bookings, userId);
    assert GetUserBookings(others + bookings, userId) == GetUserBookings(bookings, userId);
  }

  /** The Paid badge of an upcoming booking: approved and paid. */
  predicate PaidBadge(b: Booking)
  {
    b.status == Approved && b.paymentStatus == Some(Paid)
  }

  /** A pending booking shows the Pending badge and never the Paid one. */
  lemma BadgesExclusive(b: Booking)
    ensures b.status == Pending ==> !PaidBadge(b)
    ensures PaidBadge(b) ==> InternalDashboard.IsUpcoming(b) && IsPaid(b)
  {
  }

  /** `booking.paymentAmount && ...`: the amount line shows for a present, non-zero amount. */
  predicate AmountShown(b: Booking)
  {
    b.paymentAmount.Some? && b.paymentAmount.value != 0.0
  }
}
