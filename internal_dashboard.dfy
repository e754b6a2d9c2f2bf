/**
 * The internal user's dashboard: the user's upcoming bookings (approved or pending)
 * and the pending and approved counts.
 */
module InternalDashboard {
  import opened Wrappers
  import opened Seqs
  import opened MockData

  /** A booking still ahead of the user: approved or pending. */
  predicate IsUpcoming(b: Booking)
  {
    b.status == Approved || b.status == Pending
  }

  /** `upcomingBookings`: the user's approved and pending bookings, in list order. */
  function UpcomingBookings(bookings: seq<Booking>, userId: string): (r: seq<Booking>)
    ensures forall b :: b in r ==> b in bookings && b.userId == userId && (b.status == Approved || b.status == Pending)
    ensures forall b :: b in bookings && b.userId == userId && IsUpcoming(b) ==> b in r
  {
    Filter(IsUpcoming, GetUserBookings(bookings, userId))
  }

  /** `pendingCount`. */
  function PendingCount(bookings: seq<Booking>, userId: string): (n: nat)
    ensures n <= |GetUserBookings(bookings, userId)|
  {
    |WithStatus(GetUserBookings(bookings, userId), Pending)|
  }

  /** `approvedCount`. */
  function ApprovedCount(bookings: seq<Booking>, userId: string): (n: nat)
    ensures n <= |GetUserBookings(bookings, userId)|
  {
    |WithStatus(GetUserBookings(bookings, userId), Approved)|
  }

  /** The upcoming bookings of any list are its pending ones and its approved ones. */
  lemma {:induction false} UpcomingSplit(bs: seq<Booking>)
    ensures |Filter(IsUpcoming, bs)| == |WithStatus(bs, Pending)| + |WithStatus(bs, Approved)|
    decreases |bs|
  {
    if bs != [] {
      UpcomingSplit(bs[1..]);
    }
  }

  /** The two stat cards add up to the number of upcoming bookings listed. */
  lemma PendingPlusApprovedIsUpcoming(bookings: seq<Booking>, userId: string)
    ensures PendingCount(bookings, userId) + ApprovedCount(bookings, userId) == |UpcomingBookings(bookings, userId)|
  {
    UpcomingSplit(GetUserBookings(bookings, userId));
  }

  /** The badge of an upcoming booking row: Pending, Approved or Rejected, by status. */
  function UpcomingBadge(status: BookingStatus): (r: Option<string>)
    ensures r == Some("Rejected") <==> status == Rejected
  {
    if status == Pending then Some("Pending")
    else if status == Approved then Some("Approved")
    else if status == Rejected then Some("Rejected")
    else None
  }

  /** The Rejected badge never shows: the list it decorates holds no rejected booking. */
  lemma RejectedBadgeUnreachable(bookings: seq<Booking>, userId: string)
    ensures forall b :: b in UpcomingBookings(bookings, userId) ==> UpcomingBadge(b.status).Some? && UpcomingBadge(b.status) != Some("Rejected")
  {
  }
}
