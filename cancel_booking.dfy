/**
 * The cancel-booking page: a guard for a missing booking and a confirmation that
 * insists on a reason with some non-blank character.
 */
module CancelBooking {
  import opened Wrappers
  import opened Strings
  import opened MockData
  import ModifyBooking
  import App

  const ReasonMessage := "Please provide a reason for cancellation"

  /** The mount effect: only a missing booking sends the user back; the status is not checked. */
  function CancelGuard(user: App.User, booking: Option<Booking>): (r: App.PageGuard)
    ensures r.Stay? <==> booking.Some?
    ensures r.Redirect? ==> r == App.Redirect(ModifyBooking.NotFoundMessage, App.RolePath(user.role, "my-bookings"))
  {
    if booking.None? then App.Redirect(ModifyBooking.NotFoundMessage, App.RolePath(user.role, "my-bookings")) else App.Stay
  }

  /** The check in `handleConfirm`: `!reason.trim()` refuses. */
  function ConfirmCancellation(reason: string): (r: Outcome)
    ensures r.Refused? ==> r.message == ReasonMessage
  {
    if Trim(reason) == "" then Refused(ReasonMessage) else Accepted
  }

  /** A reason is refused exactly when it is empty or made only of whitespace. */
  lemma ConfirmNeedsNonBlankReason(reason: string)
    ensures ConfirmCancellation(reason).Refused? <==> AllWhitespace(reason)
    ensures ConfirmCancellation(reason).Accepted? <==> exists i :: 0 <= i < |reason| && !IsWhitespace(reason[i])
  {
    TrimEmptyIff(reason);
  }

  /** The page's state: the user, the booking, and the reason typed so far. */
  class CancelBookingPage {
    const user: App.User
    const booking: Option<Booking>
    var reason: string

    constructor (user: App.User, bookings: seq<Booking>, id: Option<string>)
      ensures this.user == user && booking == ModifyBooking.BookingFromParam(bookings, id) && reason == ""
    {
      this.user := user;
      booking := ModifyBooking.BookingFromParam(bookings, id);
      reason := "";
    }

    /**
     * The component renders nothing exactly when the booking does not exist, which is
     * exactly when the mount effect sends the user away.
     */
    predicate RendersNothing()
      ensures RendersNothing() <==> CancelGuard(user, booking).Redirect?
    {
      booking.None?
    }

    /** The `useEffect` guard. */
    method CheckBooking() returns (guard: App.PageGuard)
      ensures guard == CancelGuard(user, booking)
    {
      guard := CancelGuard(user, booking);
    }

    /** The text area's `setReason`. */
    method SetReason(text: string)
      modifies this
      ensures reason == text
    {
      reason := text;
    }

    /**
     * `handleConfirm`: refused, going nowhere, while the reason is blank; otherwise it
     * navigates to the user's bookings. Whether it goes ahead depends on the reason alone.
     */
    method HandleConfirm() returns (outcome: Outcome, target: Option<string>)
      ensures outcome.Refused? <==> AllWhitespace(reason)
      ensures outcome.Refused? ==> outcome.message == ReasonMessage && target == None
      ensures outcome.Accepted? ==> target == Some(App.RolePath(user.role, "my-bookings"))
    {
      ConfirmNeedsNonBlankReason(reason);
      if Trim(reason) == "" {
        return Refused(ReasonMessage), None;
      }
      outcome := Accepted;
      target := Some(App.RolePath(user.role, "my-bookings"));
    }
  }
}
