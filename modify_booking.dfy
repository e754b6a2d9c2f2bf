/**
 * The modify-booking page: the booking named by the `:id` route parameter, a form
 * filled from it, a guard that sends the user back unless the booking exists and is
 * pending, and the same time check as a new request.
 */
module ModifyBooking {
  import opened Wrappers
  import opened MockData
  import opened BookingRequest
  import App

  /** `id || ''`: the route parameter, or the empty string when it is missing. */
  function ParamOrEmpty(id: Option<string>): string
  {
    if id.Some? then id.value else ""
  }

  /** The booking named by the route parameter: `getBookingById(id || '')`. */
  function BookingFromParam(bookings: seq<Booking>, id: Option<string>): (r: Option<Booking>)
    ensures r.Some? ==> r.value in bookings && r.value.id == ParamOrEmpty(id)
    ensures r.None? <==> forall b :: b in bookings ==> b.id != ParamOrEmpty(id)
  {
    GetBookingById(bookings, ParamOrEmpty(id))
  }

  /** The form as the page opens: the booking's own fields, or all empty when there is no booking. */
  function InitialForm(booking: Option<Booking>): (r: BookingForm)
    ensures booking.None? ==> r == EmptyForm
    ensures booking.Some? ==>
      var b := booking.value;
      r.labId == b.labId && r.date == b.date && r.startTime == b.startTime
      && r.endTime == b.endTime && r.purpose == b.purpose
  {
    match booking
    case None => EmptyForm
    case Some(b) => BookingForm(b.labId, b.date, b.startTime, b.endTime, b.purpose)
  }

  const NotFoundMessage := "Booking not found"
  const NotPendingMessage := "Only pending bookings can be modified"

  /** The mount effect: a missing or non-pending booking sends the user back to their bookings. */
  function ModifyGuard(user: App.User, booking: Option<Booking>): (r: App.PageGuard)
    ensures r.Stay? <==> booking.Some? && booking.value.status == Pending
    ensures r.Redirect? ==> r.target == App.RolePath(user.role, "my-bookings")
    ensures booking.None? ==> r.Redirect? && r.message == NotFoundMessage
    ensures booking.Some? && booking.value.status != Pending ==> r.Redirect? && r.message == NotPendingMessage
  {
    if booking.None? then App.Redirect(NotFoundMessage, App.RolePath(user.role, "my-bookings"))
    else if booking.value.status != Pending then App.Redirect(NotPendingMessage, App.RolePath(user.role, "my-bookings"))
    else App.Stay
  }

  /** An id that names no booking is reported as not found. */
  lemma UnknownIdNotFound(user: App.User, bookings: seq<Booking>, id: Option<string>)
    requires forall b :: b in bookings ==> b.id != ParamOrEmpty(id)
    ensures ModifyGuard(user, BookingFromParam(bookings, id)) == App.Redirect(NotFoundMessage, App.RolePath(user.role, "my-bookings"))
  {
  }

  /** The page's state: the user, the booking it edits, and the form. */
  class ModifyBookingPage {
    const user: App.User
    const booking: Option<Booking>
    var formData: BookingForm

    constructor (user: App.User, bookings: seq<Booking>, id: Option<string>)
      ensures this.user == user && booking == BookingFromParam(bookings, id)
      ensures formData == InitialForm(booking)
    {
      this.user := user;
      booking := BookingFromParam(bookings, id);
      formData := InitialForm(BookingFromParam(bookings, id));
    }

    /**
     * The component renders nothing when the booking does not exist, which is exactly when
     * the mount effect sends the user away with "Booking not found".
     */
    predicate RendersNothing()
      ensures RendersNothing() <==> ModifyGuard(user, booking) == App.Redirect(NotFoundMessage, App.RolePath(user.role, "my-bookings"))
    {
      booking.None?
    }

    /** The `useEffect` guard. */
    method CheckBooking() returns (guard: App.PageGuard)
      ensures guard == ModifyGuard(user, booking)
    {
      guard := ModifyGuard(user, booking);
    }

    /** `handleChange`: the input named `field` now holds `value`. */
    method HandleChange(field: FormField, value: string)
      modifies this
      ensures formData == WithField(old(formData), field, value)
    {
      formData := WithField(formData, field, value);
    }

    /**
     * `handleSubmit`: refused when the edited range is empty or reversed, and then it goes
     * nowhere; otherwise it reports the update and navigates to the user's bookings.
     */
    method HandleSubmit() returns (outcome: Outcome, target: Option<string>)
      ensures outcome == CheckTimeRange(formData.startTime, formData.endTime)
      ensures outcome.Refused? ==> target == None
      ensures outcome.Accepted? ==> target == Some(App.RolePath(user.role, "my-bookings"))
    {
      outcome := CheckTimeRange(formData.startTime, formData.endTime);
      if outcome.Refused? {
        return outcome, None;
      }
      target := Some(App.RolePath(user.role, "my-bookings"));
    }
  }
}
