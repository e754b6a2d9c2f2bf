/**
 * The booking approval page: all bookings filtered by status and by a search over the
 * requester and the lab, the approve/reject actions pending bookings offer, and the
 * rejection prompt.
 */
module BookingApproval {
  import opened Wrappers
  import opened Seqs
  import opened MockData
  import opened Filters
  import Strings
  import CancelBooking

  /** The status drop-down starts on `'pending'`. */
  const InitialFilter: Choice<BookingStatus> := Only(Pending)

  /** The filter of `filteredBookings`: the drop-down admits the status and the search hits the requester's name, the lab or the requester's email. */
  predicate MatchesBooking(b: Booking, term: string, statusFilter: Choice<BookingStatus>)
  {
    Admits(statusFilter, b.status)
    && (MatchesSearch(b.userName, term) || MatchesSearch(b.labName, term) || MatchesSearch(b.userEmail, term))
  }

  /** `filteredBookings`. */
  function FilteredBookings(bookings: seq<Booking>, term: string, statusFilter: Choice<BookingStatus>): (r: seq<Booking>)
    ensures forall b :: b in r ==> b in bookings && MatchesBooking(b, term, statusFilter)
    ensures forall b :: b in bookings && MatchesBooking(b, term, statusFilter) ==> b in r
    ensures statusFilter.Only? ==> forall b :: b in r ==> b.status == statusFilter.value
  {
    Filter((b: Booking) => MatchesBooking(b, term, statusFilter), bookings)
  }

  /** The filtered list keeps the list's order and every matching booking, as often as listed. */
  lemma FilteredBookingsExact(bookings: seq<Booking>, term: string, statusFilter: Choice<BookingStatus>)
    ensures IsSubsequence(FilteredBookings(bookings, term, statusFilter), bookings)
    ensures forall b: Booking :: MatchesBooking(b, term, statusFilter) ==>
      multiset(FilteredBookings(bookings, term, statusFilter))[b] == multiset(bookings)[b]
  {
    FilterIsExactSubsequence((b: Booking) => MatchesBooking(b, term, statusFilter), bookings);
  }

  /** As the page opens (no search, status `'pending'`) it lists exactly `getPendingBookings()`. */
  lemma InitialViewIsPendingQueue(bookings: seq<Booking>)
    ensures FilteredBookings(bookings, "", InitialFilter) == GetPendingBookings(bookings)
  {
    forall b | b in bookings
      ensures MatchesBooking(b, "", InitialFilter) == (b.status == Pending)
    {
      EmptySearchMatches(b.userName);
    }
    FilterExtensional((b: Booking) => MatchesBooking(b, "", InitialFilter), (b: Booking) => b.status == Pending, bookings);
  }

  /** With `'all'` and no search, every booking is listed. */
  lemma UnfilteredListsAll(bookings: seq<Booking>)
    ensures FilteredBookings(bookings, "", All) == bookings
  {
    forall b | b in bookings
      ensures MatchesBooking(b, "", All)
    {
      EmptySearchMatches(b.userName);
    }
    FilterAll((b: Booking) => MatchesBooking(b, "", All), bookings);
  }

  /** The actions cell of a row. */
  datatype RowActions = ApproveOrReject | NoActions

  /** Approve and Reject for a pending booking; "No actions" for every other status. */
  function ActionsFor(status: BookingStatus): (r: RowActions)
    ensures r == ApproveOrReject <==> status == Pending
  {
    if status == Pending then ApproveOrReject else NoActions
  }

  /**
   * `handleReject`: the prompt returns the reason, or None when dismissed. The rejection
   * goes ahead, with this alert, only for a truthy reason: a non-empty string.
   */
  function RejectMessage(bookingId: string, reason: Option<string>): (r: Option<string>)
    ensures r.Some? <==> reason.Some? && reason.value != ""
    ensures r.Some? ==> r.value == "Booking " + bookingId + " rejected. Reason: " + reason.value
  {
    if reason.Some? && reason.value != "" then Some("Booking " + bookingId + " rejected. Reason: " + reason.value)
    else None
  }

  /**
   * Rejecting tests the prompt's answer for truthiness only, not after trimming as the
   * cancellation page does: a non-empty reason made only of whitespace rejects the booking,
   * while the same text is refused as a cancellation reason; a dismissed or empty prompt
   * does not reject.
   */
  lemma RejectReasonTruthiness(bookingId: string, reason: string)
    ensures reason != "" && Strings.AllWhitespace(reason) ==>
      RejectMessage(bookingId, Some(reason)).Some? && CancelBooking.ConfirmCancellation(reason).Refused?
    ensures RejectMessage(bookingId, Some("")).None?
    ensures RejectMessage(bookingId, None).None?
  {
    CancelBooking.ConfirmNeedsNonBlankReason(reason);
  }

  /** `getStatusBadge`: pending, approved and rejected have a badge; other statuses show none. */
  function StatusBadge(status: BookingStatus): (r: Option<string>)
    ensures r.Some? <==> status in {Pending, Approved, Rejected}
  {
    match status
    case Pending => Some("Pending")
    case Approved => Some("Approved")
    case Rejected => Some("Rejected")
    case _ => None
  }
}
