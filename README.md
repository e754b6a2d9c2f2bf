# Lab booking portal — a verified model of its front-end logic

The lab booking portal is a React front end over a static data set. Its users are of three
kinds: internal staff, external (paying) users and administrators. They browse a catalogue of
laboratories, request, modify, cancel and pay for bookings, and administrators approve
requests and watch lab usage. Every action ends in a browser dialog or a navigation. Nothing
is stored. What the code does decide is a body of small rules:

- the record types and the lookup and statistics helpers over the data set;
- the checks the booking forms apply before "submitting";
- the search-and-filter predicates of the list pages;
- the figures on the dashboards and reports;
- which role reaches which page and which buttons a booking offers.

This project models those rules in Dafny and proves what they promise.

One module per source file:

| module | source file |
|---|---|
| `MockData` | `src/utils/mockData.ts` |
| `App` | `src/App.tsx` |
| `BookingRequest`, `ModifyBooking`, `CancelBooking` | the booking form pages |
| `UserManagement`, `BookingApproval`, `LabAvailability` | the filtered list pages |
| `InternalDashboard`, `ExternalDashboard`, `Reports`, `LabUsageMonitoring` | the figures |
| `MyBookings`, `Layout`, `PaymentConfirmation`, `LabManagement` | the gating rules and the lab editor |

The shared modules are `Wrappers` (`Option`, and the `Accepted | Refused(message)` outcome of
a handler) and `Seqs` (`Array.prototype.filter` and `find`). `Strings` models `toLowerCase`,
`includes`, `trim`, string `<`, `join` and `toString`. `Filters` models the `'all'`-or-one-value
drop-down and the case-insensitive search.

How the model maps the code:

- **The data set.** The helpers of `mockData.ts` read module-level arrays that nothing ever
  assigns. They are modelled as pure functions that take the array as a parameter. The
  shipped data is given as the constants `MockLabs`, `MockBookings`, `MockNotifications` and
  `MockUsers`. That the helpers modify nothing holds by construction.
- **Pages that hold React state.** The booking request, modify and cancel pages, the `App`
  shell and the lab management page become classes. Their fields are the `useState` variables;
  each handler is a method that states the new state in full. Handlers that only compute are
  methods that change nothing, or functions.
- **Dialogs and navigation.** An `alert` that stops a handler is a `Refused(message)` outcome.
  A `navigate` is the target path a method returns. A mount effect that alerts and navigates
  is an `App.PageGuard`.
- **The router.** Route paths are structured: one of three public pages, or a page kind below a
  role's prefix. `App.Url` gives each path's text. The route table is the public routes plus
  one map per role section. This is the same lookup as the flat `<Routes>` list, because no
  two paths below different prefixes coincide.

What the code enforces is less than the portal's design describes. The model follows the code:

- Submitting a request checks only that the end time comes after the start time. The design
  also requires an available lab, a duration of at most four hours, a 24-hour lead time and
  no conflicting booking. The code only shows the lead time and duration rules as guideline
  text.
- Cancelling a booking does not look at its status.
- Lab equipment is an ordered list: it is displayed and joined in order.
- The lab usage page counts every approved booking as "today's". So a lab is shown "In Use"
  whenever any approved booking of it exists, whatever its date
  (`LabUsageMonitoring.LabStatusIgnoresDate`).

## Model

| member | source | states |
|---|---|---|
| `MockData.GetLabById` | Lab_Booking_System_Design/src/utils/mockData.ts:259-261 | a found lab is in the catalogue and has the id asked for; nothing is found exactly when no lab has that id |
| `MockData.GetBookingById` | Lab_Booking_System_Design/src/utils/mockData.ts:263-265 | a found booking is in the list and has the id; nothing is found exactly when no booking has it |
| `MockData.GetBookingByIdFirst` | Lab_Booking_System_Design/src/utils/mockData.ts:264 | the booking found is the first with that id in list order |
| `MockData.GetUserBookings` | Lab_Booking_System_Design/src/utils/mockData.ts:267-269 | every booking returned is in the list and owned by the user, and none of the user's bookings is left out |
| `MockData.GetUserBookingsExact` | Lab_Booking_System_Design/src/utils/mockData.ts:267-269 | the user's bookings are an order-preserving subsequence of the list, all owned by the user, each of the user's bookings kept as often as it occurs |
| `MockData.GetUserNotifications` | Lab_Booking_System_Design/src/utils/mockData.ts:271-273 | every notification returned is addressed to the user, and none addressed to the user is omitted |
| `MockData.WithStatus` | Lab_Booking_System_Design/src/utils/mockData.ts:282-285 | a booking is counted under a status exactly when it is in the list with that status |
| `MockData.GetPendingBookings` | Lab_Booking_System_Design/src/utils/mockData.ts:275-277 | every result is a pending booking of the list, and there are as many as the `pending` figure of the statistics |
| `MockData.GetBookingStats` | Lab_Booking_System_Design/src/utils/mockData.ts:279-287 | the total is the number of bookings, and the four status figures add up to at most the total |
| `MockData.BookingStatusPartition` | Lab_Booking_System_Design/src/utils/mockData.ts:279-287 | the counts of the five statuses add up to the number of bookings |
| `MockData.BookingStatsUncounted` | Lab_Booking_System_Design/src/utils/mockData.ts:279-287 | pending + approved + rejected + completed is at most the total, and falls short of it by exactly the number of cancelled bookings |
| `MockData.WithLabStatus` | Lab_Booking_System_Design/src/utils/mockData.ts:290-295 | a lab is counted under a status exactly when it is in the catalogue with that status |
| `MockData.GetLabStats` | Lab_Booking_System_Design/src/utils/mockData.ts:289-296 | the total is the number of labs, and available + occupied + maintenance equals it |
| `MockData.LabStatsPartition` | Lab_Booking_System_Design/src/utils/mockData.ts:289-296 | the three status counts of the catalogue add up to the number of labs |
| `Seqs.FilterIsExactSubsequence` | Lab_Booking_System_Design/src/utils/mockData.ts:268 | `filter` keeps exactly the matching elements, in order, each as often as it occurs |
| `Seqs.FindIsFirst` | Lab_Booking_System_Design/src/utils/mockData.ts:260 | `find` returns the element at the first index where the predicate holds |
| `App.RolePath` | Lab_Booking_System_Design/src/components/shared/BookingRequest.tsx:36 | a path built as `/${user.role}/page` starts with the role's prefix |
| `App.Url` | Lab_Booking_System_Design/src/App.tsx:54-169 | the path of every role-section route starts with that role's prefix |
| `App.SectionRoutes` | Lab_Booking_System_Design/src/App.tsx:54-169 | each section has dashboard, profile and notifications routes; the administration pages are routed exactly in the admin section and the payment pages exactly in the external section |
| `App.RouteAt` | Lab_Booking_System_Design/src/App.tsx:48-170 | every public page has a route that checks nothing, and a route found below a role's prefix checks for that very role |
| `App.RenderRoute` | Lab_Booking_System_Design/src/App.tsx:56 | a route renders its page exactly when it checks nothing or the current user has the role it checks; otherwise it redirects to /login |
| `App.Resolve` | Lab_Booking_System_Design/src/App.tsx:48-170 | nothing renders exactly when no route matches the path, and a page rendered is the matched route's component |
| `App.RoleRoutesAreGuarded` | Lab_Booking_System_Design/src/App.tsx:54-169 | a role-section page renders only for a signed-in user of that role; any other user, or no user, is redirected to /login |
| `App.PublicRoutesAreOpen` | Lab_Booking_System_Design/src/App.tsx:49-51 | `/`, `/login` and `/register` render a page whoever is signed in |
| `App.RestrictedPages` | Lab_Booking_System_Design/src/App.tsx:112-169 | the administration pages have routes only below /admin/, the payment pages only below /external/ |
| `App.CommonPages` | Lab_Booking_System_Design/src/App.tsx:54-169 | every role has dashboard, profile and notifications routes |
| `App.AppState.constructor` | Lab_Booking_System_Design/src/App.tsx:36 | the app starts with no current user |
| `App.AppState.HandleLogin` | Lab_Booking_System_Design/src/App.tsx:38-40 | after login the current user is the one given |
| `App.AppState.HandleLogout` | Lab_Booking_System_Design/src/App.tsx:42-44 | after logout there is no current user |
| `App.LogoutLocksRoleRoutes` | Lab_Booking_System_Design/src/App.tsx:42-169 | after logout every role-section path either matches nothing or redirects to /login |
| `BookingRequest.WithField` | Lab_Booking_System_Design/src/components/shared/BookingRequest.tsx:39-44 | the named field takes the new value and every other field keeps its value |
| `BookingRequest.CheckTimeRange` | Lab_Booking_System_Design/src/components/shared/BookingRequest.tsx:29-32 | a refusal carries "End time must be after start time" |
| `BookingRequest.EqualTimesRefused` | Lab_Booking_System_Design/src/components/shared/BookingRequest.tsx:29 | a range that ends when it starts is refused |
| `BookingRequest.StrLessIsTimeOrder` | Lab_Booking_System_Design/src/components/shared/BookingRequest.tsx:29 | on zero-padded HH:MM strings, string order is the order of minutes since midnight |
| `BookingRequest.CheckTimeRangeAsMinutes` | Lab_Booking_System_Design/src/components/shared/BookingRequest.tsx:29-32 | for HH:MM times a request goes ahead exactly when the end is a later minute of the day than the start |
| `BookingRequest.AvailableLabs` | Lab_Booking_System_Design/src/components/shared/BookingRequest.tsx:23 | the labs offered are available labs of the catalogue, and no available lab is missing (ModifyBooking.tsx:26 builds the same list) |
| `BookingRequest.AvailableLabsExact` | Lab_Booking_System_Design/src/components/shared/BookingRequest.tsx:23 | the labs offered are exactly the available ones, in catalogue order |
| `BookingRequest.SubmitDisabledIff` | Lab_Booking_System_Design/src/components/shared/BookingRequest.tsx:158 | the submit button is disabled exactly when no lab is available |
| `BookingRequest.BookingRequestPage.constructor` | Lab_Booking_System_Design/src/components/shared/BookingRequest.tsx:15-21 | the form starts with five empty fields |
| `BookingRequest.BookingRequestPage.HandleChange` | Lab_Booking_System_Design/src/components/shared/BookingRequest.tsx:39-44 | the form becomes the old form with only the named field replaced |
| `BookingRequest.BookingRequestPage.HandleSubmit` | Lab_Booking_System_Design/src/components/shared/BookingRequest.tsx:25-37 | refused, with the message and no navigation, exactly when start >= end as strings; otherwise it navigates to the role's my-bookings; the form is not touched |
| `ModifyBooking.BookingFromParam` | Lab_Booking_System_Design/src/components/shared/ModifyBooking.tsx:15-16 | the booking found has the route's id (or "" without one); none is found exactly when no booking has that id |
| `ModifyBooking.InitialForm` | Lab_Booking_System_Design/src/components/shared/ModifyBooking.tsx:18-24 | the form holds the booking's lab, date, times and purpose, or is all empty without a booking |
| `ModifyBooking.ModifyGuard` | Lab_Booking_System_Design/src/components/shared/ModifyBooking.tsx:28-36 | the user stays exactly when the booking exists and is pending; otherwise "Booking not found" or "Only pending bookings can be modified", and a redirect to my-bookings |
| `ModifyBooking.UnknownIdNotFound` | Lab_Booking_System_Design/src/components/shared/ModifyBooking.tsx:28-31 | an id naming no booking gives "Booking not found" and the redirect |
| `ModifyBooking.ModifyBookingPage.constructor` | Lab_Booking_System_Design/src/components/shared/ModifyBooking.tsx:15-24 | the page holds the booking named by the route and the form filled from it |
| `ModifyBooking.ModifyBookingPage.RendersNothing` | Lab_Booking_System_Design/src/components/shared/ModifyBooking.tsx:57-59 | the page renders nothing exactly when its mount effect redirects with "Booking not found" |
| `ModifyBooking.ModifyBookingPage.CheckBooking` | Lab_Booking_System_Design/src/components/shared/ModifyBooking.tsx:28-36 | the mount effect does what ModifyGuard decides |
| `ModifyBooking.ModifyBookingPage.HandleChange` | Lab_Booking_System_Design/src/components/shared/ModifyBooking.tsx:50-55 | only the named field changes |
| `ModifyBooking.ModifyBookingPage.HandleSubmit` | Lab_Booking_System_Design/src/components/shared/ModifyBooking.tsx:38-48 | refused with no navigation when start >= end; otherwise it navigates to my-bookings |
| `CancelBooking.CancelGuard` | Lab_Booking_System_Design/src/components/shared/CancelBooking.tsx:19-24 | the user stays exactly when the booking exists, whatever its status; otherwise "Booking not found" and a redirect |
| `CancelBooking.ConfirmCancellation` | Lab_Booking_System_Design/src/components/shared/CancelBooking.tsx:26-30 | a refusal asks for a reason |
| `CancelBooking.ConfirmNeedsNonBlankReason` | Lab_Booking_System_Design/src/components/shared/CancelBooking.tsx:26-33 | refused exactly when the reason is empty or all whitespace; accepted exactly when some character is not whitespace |
| `CancelBooking.CancelBookingPage.constructor` | Lab_Booking_System_Design/src/components/shared/CancelBooking.tsx:15-17 | the page holds the booking named by the route and an empty reason |
| `CancelBooking.CancelBookingPage.RendersNothing` | Lab_Booking_System_Design/src/components/shared/CancelBooking.tsx:36-38 | the page renders nothing exactly when its mount effect redirects |
| `CancelBooking.CancelBookingPage.CheckBooking` | Lab_Booking_System_Design/src/components/shared/CancelBooking.tsx:19-24 | the mount effect does what CancelGuard decides |
| `CancelBooking.CancelBookingPage.SetReason` | Lab_Booking_System_Design/src/components/shared/CancelBooking.tsx:89 | the reason becomes the typed text |
| `CancelBooking.CancelBookingPage.HandleConfirm` | Lab_Booking_System_Design/src/components/shared/CancelBooking.tsx:26-34 | refused, going nowhere, exactly when the reason is blank; otherwise it navigates to my-bookings |
| `Strings.TrimEmptyIff` | Lab_Booking_System_Design/src/components/shared/CancelBooking.tsx:27 | `trim()` yields "" exactly when every character is whitespace |
| `Strings.ContainsIff` | Lab_Booking_System_Design/src/components/admin/UserManagement.tsx:18-19 | `includes` holds exactly when the term occurs at some position of the text |
| `Filters.EmptySearchMatches` | Lab_Booking_System_Design/src/components/admin/UserManagement.tsx:18-19 | the empty search term matches every text |
| `Filters.SearchIgnoresCase` | Lab_Booking_System_Design/src/components/admin/UserManagement.tsx:18-19 | the search result does not depend on the case of text or term |
| `UserManagement.FilteredUsers` | Lab_Booking_System_Design/src/components/admin/UserManagement.tsx:17-23 | a user is listed exactly when the search hits name or email and both drop-downs admit the user; a chosen role or status holds of every result |
| `UserManagement.FilteredUsersExact` | Lab_Booking_System_Design/src/components/admin/UserManagement.tsx:17 | the list is an order-preserving subsequence keeping every matching user |
| `UserManagement.UnfilteredListsEveryone` | Lab_Booking_System_Design/src/components/admin/UserManagement.tsx:13-23 | with no search and both filters on 'all', every user is listed in order |
| `UserManagement.ToggleStatus` | Lab_Booking_System_Design/src/components/admin/UserManagement.tsx:25-28 | 'active' becomes 'inactive', and anything else becomes 'active' |
| `UserManagement.ToggleInvolution` | Lab_Booking_System_Design/src/components/admin/UserManagement.tsx:26 | toggling a status names the other one, and toggling twice gives the original |
| `UserManagement.UsersWithRole` | Lab_Booking_System_Design/src/components/admin/UserManagement.tsx:129-146 | a user is counted under a role exactly when listed with it |
| `UserManagement.RoleCountsSum` | Lab_Booking_System_Design/src/components/admin/UserManagement.tsx:129-146 | the internal, external and admin counts add up to the number of users |
| `BookingApproval.FilteredBookings` | Lab_Booking_System_Design/src/components/admin/BookingApproval.tsx:16-22 | a booking is listed exactly when the status filter admits it and the search hits requester name, lab or requester email |
| `BookingApproval.FilteredBookingsExact` | Lab_Booking_System_Design/src/components/admin/BookingApproval.tsx:16 | the list is an order-preserving subsequence keeping every matching booking |
| `BookingApproval.InitialViewIsPendingQueue` | Lab_Booking_System_Design/src/components/admin/BookingApproval.tsx:13-22 | as the page opens it lists exactly `getPendingBookings()` |
| `BookingApproval.UnfilteredListsAll` | Lab_Booking_System_Design/src/components/admin/BookingApproval.tsx:16-22 | 'all' with no search lists every booking |
| `BookingApproval.ActionsFor` | Lab_Booking_System_Design/src/components/admin/BookingApproval.tsx:149-169 | Approve and Reject exactly for pending bookings; "No actions" otherwise |
| `BookingApproval.RejectMessage` | Lab_Booking_System_Design/src/components/admin/BookingApproval.tsx:28-33 | the rejection goes ahead exactly for a non-empty prompted reason, with the alert naming booking and reason |
| `BookingApproval.RejectReasonTruthiness` | Lab_Booking_System_Design/src/components/admin/BookingApproval.tsx:30 | any non-empty reason, even one of blanks only, rejects, while that same text is refused as a cancellation reason; an empty or dismissed prompt does not reject |
| `BookingApproval.StatusBadge` | Lab_Booking_System_Design/src/components/admin/BookingApproval.tsx:35-46 | only pending, approved and rejected bookings get a badge |
| `LabAvailability.FilteredLabs` | Lab_Booking_System_Design/src/components/shared/LabAvailability.tsx:18-23 | a lab is listed exactly when the search hits name or building and the drop-down admits its status |
| `LabAvailability.FilteredLabsExact` | Lab_Booking_System_Design/src/components/shared/LabAvailability.tsx:18 | the list is an order-preserving subsequence keeping every matching lab |
| `LabAvailability.UnfilteredListsAll` | Lab_Booking_System_Design/src/components/shared/LabAvailability.tsx:18-23 | no search and 'all' show the whole catalogue in order |
| `LabAvailability.ButtonFor` | Lab_Booking_System_Design/src/components/shared/LabAvailability.tsx:137-160 | each status gets exactly one of the three buttons |
| `LabAvailability.ButtonTarget` | Lab_Booking_System_Design/src/components/shared/LabAvailability.tsx:137-143 | only "Book This Lab" leads anywhere |
| `LabAvailability.OnlyAvailableLabsBookable` | Lab_Booking_System_Design/src/components/shared/LabAvailability.tsx:137-160 | a lab card offers booking exactly when the lab is available |
| `InternalDashboard.UpcomingBookings` | Lab_Booking_System_Design/src/components/internal/InternalDashboard.tsx:14-15 | the upcoming list is exactly the user's approved and pending bookings |
| `InternalDashboard.PendingCount` | Lab_Booking_System_Design/src/components/internal/InternalDashboard.tsx:16 | the pending figure is at most the number of the user's bookings |
| `InternalDashboard.ApprovedCount` | Lab_Booking_System_Design/src/components/internal/InternalDashboard.tsx:17 | the approved figure is at most the number of the user's bookings |
| `InternalDashboard.UpcomingSplit` | Lab_Booking_System_Design/src/components/internal/InternalDashboard.tsx:15-17 | in any list the approved-or-pending ones number the pending plus the approved |
| `InternalDashboard.PendingPlusApprovedIsUpcoming` | Lab_Booking_System_Design/src/components/internal/InternalDashboard.tsx:14-17 | pendingCount + approvedCount equals the length of the upcoming list |
| `InternalDashboard.UpcomingBadge` | Lab_Booking_System_Design/src/components/internal/InternalDashboard.tsx:120-137 | the Rejected badge shows exactly for a rejected status |
| `InternalDashboard.RejectedBadgeUnreachable` | Lab_Booking_System_Design/src/components/internal/InternalDashboard.tsx:132-137 | no upcoming booking ever shows the Rejected badge |
| `ExternalDashboard.AmountOrZero` | Lab_Booking_System_Design/src/components/external/ExternalDashboard.tsx:20 | a missing amount counts as 0 |
| `ExternalDashboard.SumAmounts` | Lab_Booking_System_Design/src/components/external/ExternalDashboard.tsx:18-20 | the sum is never negative when no amount is |
| `ExternalDashboard.SumAmountsAppend` | Lab_Booking_System_Design/src/components/external/ExternalDashboard.tsx:18-20 | the total over a concatenation is the sum of the two totals |
| `ExternalDashboard.DashboardFigures` | Lab_Booking_System_Design/src/components/external/ExternalDashboard.tsx:14-20 | the upcoming list is the user's approved-or-pending bookings; pendingCount is at most its length; paidBookings is at most the number of the user's bookings |
| `ExternalDashboard.FiguresSnoc` | Lab_Booking_System_Design/src/components/external/ExternalDashboard.tsx:17-20 | a booking added at the end raises paidBookings by one and totalSpent by its amount (0 when missing) exactly when it is the user's and paid, and changes neither otherwise |
| `ExternalDashboard.TotalSpentOverPaid` | Lab_Booking_System_Design/src/components/external/ExternalDashboard.tsx:17-20 | totalSpent is non-negative, and 0 when the user has no paid booking |
| `ExternalDashboard.OthersDoNotCount` | Lab_Booking_System_Design/src/components/external/ExternalDashboard.tsx:14 | adding other users' bookings before or after the list changes no figure |
| `ExternalDashboard.BadgesExclusive` | Lab_Booking_System_Design/src/components/external/ExternalDashboard.tsx:153-163 | a pending booking never shows Paid; Paid shows only for an approved, paid booking |
| `MyBookings.StatusBadge` | Lab_Booking_System_Design/src/components/shared/MyBookings.tsx:16-56 | a badge exists exactly for the five status names |
| `MyBookings.StatusBadgesDistinct` | Lab_Booking_System_Design/src/components/shared/MyBookings.tsx:16-56 | every status has a badge and different statuses have different badges |
| `MyBookings.PaymentBadge` | Lab_Booking_System_Design/src/components/shared/MyBookings.tsx:58-80 | a badge exists exactly for paid, pending and failed |
| `MyBookings.PaymentBadgeShown` | Lab_Booking_System_Design/src/components/shared/MyBookings.tsx:123 | a payment badge shows exactly for an external user's booking with a payment status |
| `MyBookings.ZeroAmountHidden` | Lab_Booking_System_Design/src/components/shared/MyBookings.tsx:142-147 | the amount is hidden when it is 0, missing, or the user is not external |
| `MyBookings.RowActions` | Lab_Booking_System_Design/src/components/shared/MyBookings.tsx:161-187 | Modify and Cancel exactly for pending; Pay Now exactly for approved, external and payment pending |
| `MyBookings.EditAndPayExclusive` | Lab_Booking_System_Design/src/components/shared/MyBookings.tsx:161-187 | no booking offers both Modify/Cancel and Pay Now |
| `MyBookings.ModifyButtonPassesGuard` | Lab_Booking_System_Design/src/components/shared/MyBookings.tsx:161-166 | with unique ids, the Modify button opens the modify page on that booking, and its guard lets the user stay |
| `MyBookings.ActionStem` | Lab_Booking_System_Design/src/components/shared/MyBookings.tsx:161-187 | the path stem of each button is its page's route pattern up to the `:` parameter |
| `MyBookings.ActionTarget` | Lab_Booking_System_Design/src/components/shared/MyBookings.tsx:161-187 | each button navigates below the user's role prefix, to its page's route pattern with the booking's id in place of the parameter |
| `MyBookings.RowButtonsRouted` | Lab_Booking_System_Design/src/components/shared/MyBookings.tsx:161-187 | in a section that routes My Bookings, every button a row offers opens a page the user's own section routes and renders for them; Pay Now is only offered where a payment route exists |
| `LabUsageMonitoring.TodayBookings` | Lab_Booking_System_Design/src/components/admin/LabUsageMonitoring.tsx:12-13 | a booking is "today's" exactly when dated today or approved |
| `LabUsageMonitoring.GetLabStatus` | Lab_Booking_System_Design/src/components/admin/LabUsageMonitoring.tsx:15-20 | "In Use" exactly when an approved booking of the lab exists, on any date; "Available" otherwise |
| `LabUsageMonitoring.LabStatusIgnoresDate` | Lab_Booking_System_Design/src/components/admin/LabUsageMonitoring.tsx:12-20 | the status does not depend on the date taken as today |
| `LabUsageMonitoring.UsagePercentage` | Lab_Booking_System_Design/src/components/admin/LabUsageMonitoring.tsx:22-26 | the percentage lies in [0, 100], is count/30·100 below 30 bookings and 100 from 30 on |
| `LabUsageMonitoring.UsageMonotone` | Lab_Booking_System_Design/src/components/admin/LabUsageMonitoring.tsx:22-26 | more bookings never give a lower percentage |
| `LabUsageMonitoring.LabUsagePercentage` | Lab_Booking_System_Design/src/components/admin/LabUsageMonitoring.tsx:22-26 | a lab's utilisation lies in [0, 100] and is 0 when no booking is for that lab |
| `LabUsageMonitoring.OtherLabsDoNotCount` | Lab_Booking_System_Design/src/components/admin/LabUsageMonitoring.tsx:22-24 | bookings of other labs, before or after the list, leave a lab's utilisation unchanged |
| `LabUsageMonitoring.UsageGrows` | Lab_Booking_System_Design/src/components/admin/LabUsageMonitoring.tsx:22-26 | one more booking never lowers a lab's utilisation |
| `LabUsageMonitoring.ColourFor` | Lab_Booking_System_Design/src/components/admin/LabUsageMonitoring.tsx:99-103 | red above 75, orange above 50 up to 75, green up to 50 |
| `LabUsageMonitoring.ColourByCount` | Lab_Booking_System_Design/src/components/admin/LabUsageMonitoring.tsx:87-103 | red from 23 bookings, orange from 16 to 22, green up to 15 |
| `Layout.MenuPath` | Lab_Booking_System_Design/src/components/shared/Layout.tsx:29-61 | every menu path starts with `/${role}/` |
| `Layout.MenuItems` | Lab_Booking_System_Design/src/components/shared/Layout.tsx:31-65 | a user with a role gets a non-empty menu and a user without one gets none; every entry names a page that the role's own section routes |
| `Layout.MenuShapes` | Lab_Booking_System_Design/src/components/shared/Layout.tsx:31-65 | internal and external menus have the same six labels, the admin menu has eight, and a user without a role gets no menu |
| `Layout.MenuLinksOpen` | Lab_Booking_System_Design/src/components/shared/Layout.tsx:31-61 | every menu entry links to a route of the user's own section, which renders for that user |
| `Layout.DistinctNames` | Lab_Booking_System_Design/src/components/shared/Layout.tsx:31-61 | no two entries of a menu share a label |
| `Layout.IsActive` | Lab_Booking_System_Design/src/components/shared/Layout.tsx:123 | when an entry is active, no other entry of the menu carries the current page's label |
| `Layout.AtMostOneActive` | Lab_Booking_System_Design/src/components/shared/Layout.tsx:123 | at most one menu entry is active |
| `Layout.RoleBadgeColor` | Lab_Booking_System_Design/src/components/shared/Layout.tsx:69-80 | grey exactly when there is no role |
| `PaymentConfirmation.ReadStatus` | Lab_Booking_System_Design/src/components/external/PaymentConfirmation.tsx:14 | a missing or empty parameter reads as "success"; any other value is kept |
| `PaymentConfirmation.SuccessIff` | Lab_Booking_System_Design/src/components/external/PaymentConfirmation.tsx:14-15 | the success view shows exactly for a missing, empty or "success" parameter |
| `LabManagement.FormFromLab` | Lab_Booking_System_Design/src/components/admin/LabManagement.tsx:41-48 | name, building, floor and status are copied, capacity is its decimal text, equipment is joined with ", " |
| `LabManagement.FormFromLabReadsBack` | Lab_Booking_System_Design/src/components/admin/LabManagement.tsx:43-46 | the capacity text reads back as the capacity, and the equipment text as the list (items without commas or leading blanks) |
| `Strings.ParseNatToString` | Lab_Booking_System_Design/src/components/admin/LabManagement.tsx:43 | `toString` of a non-negative integer reads back as that integer, without a leading zero |
| `Strings.ParseJoin` | Lab_Booking_System_Design/src/components/admin/LabManagement.tsx:46 | a list joined with ", " splits back into the same list |
| `LabManagement.LabManagementPage.constructor` | Lab_Booking_System_Design/src/components/admin/LabManagement.tsx:13-23 | the modal is closed, nothing is being edited, the form is blank with status available |
| `LabManagement.LabManagementPage.ModalTitle` | Lab_Booking_System_Design/src/components/admin/LabManagement.tsx:204 | "Edit Laboratory" exactly while a lab id is being edited |
| `LabManagement.LabManagementPage.HandleAdd` | Lab_Booking_System_Design/src/components/admin/LabManagement.tsx:25-36 | the modal closes and the form is blank; the edited id is kept |
| `LabManagement.LabManagementPage.HandleEdit` | Lab_Booking_System_Design/src/components/admin/LabManagement.tsx:38-52 | an unknown id changes nothing; a known lab fills the form from it, records its id and opens the modal |
| `LabManagement.LabManagementPage.OpenAddNew` | Lab_Booking_System_Design/src/components/admin/LabManagement.tsx:92-103 | nothing is being edited, the form is blank and the modal opens |
| `LabManagement.LabManagementPage.CloseModal` | Lab_Booking_System_Design/src/components/admin/LabManagement.tsx:293 | the modal closes and nothing else changes |
| `LabManagement.LabManagementPage.SetText` | Lab_Booking_System_Design/src/components/admin/LabManagement.tsx:216-268 | only the named text field changes |
| `LabManagement.LabManagementPage.SetStatus` | Lab_Booking_System_Design/src/components/admin/LabManagement.tsx:281 | only the status changes |
| `LabManagement.EquipmentDisplay` | Lab_Booking_System_Design/src/components/admin/LabManagement.tsx:157-166 | the first min(3, n) items are shown, and "+(n-3) more" appears exactly when n > 3 |
| `LabManagement.EquipmentAccountedFor` | Lab_Booking_System_Design/src/components/admin/LabManagement.tsx:157-166 | shown items plus the "more" count make up the whole list |
| `Reports.UserTypeData` | Lab_Booking_System_Design/src/components/admin/Reports.tsx:30-34 | three slices labelled Internal, External and Admin whose values add up to the number of users |
| `Reports.StatusData` | Lab_Booking_System_Design/src/components/admin/Reports.tsx:37-42 | each status slice equals the matching figure of `getBookingStats` |
| `Reports.StatusDataUncounted` | Lab_Booking_System_Design/src/components/admin/Reports.tsx:37-42 | the four slices add up to at most the number of bookings, short by exactly the cancelled ones |
| `Reports.ActiveUsers` | Lab_Booking_System_Design/src/components/admin/Reports.tsx:81 | the active-user figure is at most the number of users |
| `Reports.ActiveUsersAll` | Lab_Booking_System_Design/src/components/admin/Reports.tsx:81 | it equals the number of users exactly when no user is inactive |
| `Reports.ApprovalRate` | Lab_Booking_System_Design/src/components/admin/Reports.tsx:92 | undefined (NaN) exactly for an empty booking list; otherwise a whole percentage in [0, 100] |

## Left out

- Rendering: the JSX markup, styles, icons and charts are not modelled. Only the values they
  display are. In particular, for an external user's booking with amount 0 the page renders a
  bare "0" where the amount block would be (the `&&` chain yields the number 0).
  `MyBookings.ZeroAmountHidden` states only that the amount block is absent.
- Browser dialogs and navigation: `alert`, `confirm` and `prompt` are not modelled; the model
  gives the outcome or message and the target path. Handlers that only raise a dialog are left
  out: approve, delete, export and the "status changed" alert.
- The router's matching of concrete URLs against `:id` patterns is left out. Routes are
  looked up by their structured path.
- HTML `required` attributes are browser validation outside the handlers, so they are not
  modelled.
- The login page, registration, landing page, payment and payment-processing pages (timers,
  simulated card flow), the notification pages, the admin dashboard and the profile page are
  not part of this model.
- `toLowerCase` is modelled for ASCII letters only. Other characters are left as they are.
  String `<` is modelled as order on characters, which agrees with JavaScript's UTF-16 order
  inside the Basic Multilingual Plane.
- Numbers are exact: amounts and percentages are reals, so floating-point rounding is not
  modelled. `toFixed` and date formatting are display only. `Math.round` is floor(x + 0.5).
  `Math.random` usage figures and the constant monthly trend on the reports page are left out.
- The clock: "today" on the lab usage page is a parameter instead of `new Date()`.
- Status filters are modelled as `'all'` or any value of the status type. The booking
  approval drop-down offers only pending, approved and rejected, so the model admits more
  filters than the page offers.
- Statuses are typed enumerations. The `default: return null` branches of the badge switches
  stay reachable. Typed `completed` and `cancelled` bookings reach the default branch of
  `BookingApproval.StatusBadge`. Any other text reaches those of the string-keyed
  `MyBookings.StatusBadge` and `MyBookings.PaymentBadge`.
- Lab capacity is modelled as a natural number. The source types it as any `number`, so the
  edit form's `toString` of a fractional or negative capacity (such as "2.5" or "-1") is not
  modelled. `LabManagement.FormFromLabReadsBack` covers natural capacities only.
- The `useEffect` guards run once, when the page is opened (the methods `CheckBooking`).
  Re-running them when a dependency changes is not modelled.
