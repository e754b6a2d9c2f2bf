/**
 * The "My Bookings" page: the user's bookings, each with a status badge, a payment
 * badge and amount for external users, and the actions its status allows.
 */
module MyBookings {
  import opened Wrappers
  import opened MockData
  import App
  import Strings
  import ExternalDashboard
  import ModifyBooking

  /** How a booking status is written. */
  function StatusName(status: BookingStatus): string
  {
    match status
    case Pending => "pending"
    case Approved => "approved"
    case Rejected => "rejected"
    case Completed => "completed"
    case Cancelled => "cancelled"
  }

  /** How a payment status is written. */
  function PaymentName(status: PaymentStatus): string
  {
    match status
    case PaymentPending => "pending"
    case Paid => "paid"
    case PaymentFailed => "failed"
  }

  /** `getStatusBadge`: the label of each of the five statuses; any other string has no badge. */
  function StatusBadge(status: string): (r: Option<string>)
    ensures r.Some? <==> status in {"pending", "approved", "rejected", "completed", "cancelled"}
  {
    if status == "pending" then Some("Pending")
    else if status == "approved" then Some("Approved")
    else if status == "rejected" then Some("Rejected")
    else if status == "completed" then Some("Completed")
    else if status == "cancelled" then Some("Cancelled")
    else None
  }

  /** Every status has a badge, and different statuses have different badges. */
  lemma StatusBadgesDistinct(s: BookingStatus, t: BookingStatus)
    ensures StatusBadge(StatusName(s)).Some?
    ensures s != t ==> StatusBadge(StatusName(s)) != StatusBadge(StatusName(t))
  {
  }

  /** `getPaymentBadge`: the label of each payment status; anything else has no badge. */
  function PaymentBadge(status: Option<string>): (r: Option<string>)
    ensures r.Some? <==> status.Some? && status.value in {"paid", "pending", "failed"}
  {
    if status == Some("paid") then Some("Paid")
    else if status == Some("pending") then Some("Payment Pending")
    else if status == Some("failed") then Some("Payment Failed")
    else None
  }

  /** The payment badge of a row: shown to external users for a booking with a payment status. */
  function PaymentBadgeShown(role: Option<Role>, b: Booking): (r: Option<string>)
    ensures r.Some? <==> role == Some(External) && b.paymentStatus.Some?
  {
    if role == Some(External) && b.paymentStatus.Some? then PaymentBadge(Some(PaymentName(b.paymentStatus.value)))
    else None
  }

  /** The amount of a row: shown to external users when the amount is truthy, so an amount of 0 is hidden. */
  predicate AmountShown(role: Option<Role>, b: Booking)
  {
    role == Some(External) && ExternalDashboard.AmountShown(b)
  }

  lemma ZeroAmountHidden(role: Option<Role>, b: Booking)
    requires b.paymentAmount == Some(0.0) || b.paymentAmount.None? || role != Some(External)
    ensures !AmountShown(role, b)
  {
  }

  /** The buttons a row can offer. */
  datatype Action = ModifyAction | CancelAction | PayNowAction

  /** The buttons of a row: Modify and Cancel for a pending booking; Pay Now for an external user's approved, unpaid one. */
  function RowActions(role: Option<Role>, b: Booking): (r: set<Action>)
    ensures ModifyAction in r <==> b.status == Pending
    ensures CancelAction in r <==> b.status == Pending
    ensures PayNowAction in r <==> b.status == Approved && role == Some(External) && b.paymentStatus == Some(PaymentPending)
  {
    (if b.status == Pending then {ModifyAction, CancelAction} else {})
    + (if b.status == Approved && role == Some(External) && b.paymentStatus == Some(PaymentPending) then {PayNowAction} else {})
  }

  /** No row offers both editing and paying. */
  lemma EditAndPayExclusive(role: Option<Role>, b: Booking)
    ensures !(ModifyAction in RowActions(role, b) && PayNowAction in RowActions(role, b))
    ensures !(CancelAction in RowActions(role, b) && PayNowAction in RowActions(role, b))
  {
  }

  /** The page a button opens. */
  function ActionKind(a: Action): App.PageKind
  {
    match a
    case ModifyAction => App.ModifyBooking
    case CancelAction => App.CancelBooking
    case PayNowAction => App.Payment
  }

  /** The path of that page's route pattern up to its `:` parameter. */
  function ActionStem(a: Action): (stem: string)
    ensures var segment := App.PageSegment(ActionKind(a));
      |stem| < |segment| && segment[..|stem|] == stem && segment[|stem|] == ':'
  {
    match a
    case ModifyAction => "modify-booking/"
    case CancelAction => "cancel-booking/"
    case PayNowAction => "payment/"
  }

  /**
   * Where a button navigates: below the user's role prefix, the route pattern of the page
   * it opens with the booking's id in place of the parameter.
   */
  function ActionTarget(role: Option<Role>, b: Booking, a: Action): (r: string)
    ensures Strings.StartsWith(r, App.RolePrefix(role))
    ensures r[|App.RolePrefix(role)|..] == ActionStem(a) + b.id
  {
    assert (App.RolePrefix(role) + (ActionStem(a) + b.id))[|App.RolePrefix(role)|..] == ActionStem(a) + b.id;
    App.RolePath(role, ActionStem(a) + b.id)
  }

  /**
   * In every section that routes a My Bookings page, each button a row offers its signed-in
   * user opens a page of that user's own section that renders for them. In particular Pay
   * Now, which only the external section routes, is only offered to external users.
   */
  lemma RowButtonsRouted(user: App.User, role: Role, b: Booking, a: Action)
    requires App.RouteAt(App.UnderRole(role, App.MyBookings)).Some?
    requires user.role == Some(role) && a in RowActions(user.role, b)
    ensures App.Resolve(Some(user), App.UnderRole(role, ActionKind(a))).Page?
  {
    App.RoleRoutesAreGuarded(Some(user), role, ActionKind(a));
    match role
    case Internal =>
    case External =>
    case Admin =>
  }

  /** No two bookings share an id. */
  predicate UniqueIds(bookings: seq<Booking>)
  {
    forall i, j :: 0 <= i < |bookings| && 0 <= j < |bookings| && bookings[i].id == bookings[j].id ==> i == j
  }

  /**
   * When ids are unique, following a row's Modify button opens the modify page on that
   * very booking, and the page's guard lets the user stay.
   */
  lemma ModifyButtonPassesGuard(user: App.User, bookings: seq<Booking>, b: Booking)
    requires UniqueIds(bookings) && b in bookings
    requires ModifyAction in RowActions(user.role, b)
    ensures ModifyBooking.BookingFromParam(bookings, Some(b.id)) == Some(b)
    ensures ModifyBooking.ModifyGuard(user, ModifyBooking.BookingFromParam(bookings, Some(b.id))) == App.Stay
  {
    var found := ModifyBooking.BookingFromParam(bookings, Some(b.id));
    assert found.Some?;
    var i :| 0 <= i < |bookings| && bookings[i] == b;
    var j :| 0 <= j < |bookings| && bookings[j] == found.value;
  }
}
