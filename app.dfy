/**
 * The application shell: the signed-in user held in state, and the route table in
 * which every role-prefixed page is guarded by the current user's role.
 */
module App {
  import opened Wrappers
  import opened Strings
  import opened MockData

  /** The signed-in user; the role is `null` until one is chosen. */
  datatype User = User(id: string, name: string, email: string, role: Option<Role>)

  function RoleName(role: Role): string
  {
    match role
    case Internal => "internal"
    case External => "external"
    case Admin => "admin"
  }

  /** `${user.role}` in a template string: the role's name, or "null". */
  function RoleSegment(role: Option<Role>): string
  {
    match role
    case Some(r) => RoleName(r)
    case None => "null"
  }

  /** The path prefix of a role's pages, `/${role}/`. */
  function RolePrefix(role: Option<Role>): string
  {
    "/" + RoleSegment(role) + "/"
  }

  /** `/${role}/${page}`, the path the pages navigate to. */
  function RolePath(role: Option<Role>, page: string): (p: string)
    ensures StartsWith(p, RolePrefix(role))
  {
    assert (RolePrefix(role) + page)[..|RolePrefix(role)|] == RolePrefix(role);
    RolePrefix(role) + page
  }

  /**
   * What a page's mount effect does: nothing, or alert `message` and navigate to `target`.
   */
  datatype PageGuard = Stay | Redirect(message: string, target: string)

  // ---------------------------------------------------------------- routes

  /** The public pages. */
  datatype PublicPage = Landing | Login | Register

  /** The pages that live below a role's prefix. */
  datatype PageKind =
    | Dashboard | LabAvailability | BookingRequest | MyBookings | ModifyBooking | CancelBooking
    | Payment | PaymentProcessing | PaymentConfirmation | Profile | Notifications
    | BookingApproval | LabManagement | UserManagement | Reports | LabUsageMonitoring
    | NotificationManagement

  /** The path pattern of a page kind below the role prefix; patterns keep their parameters. */
  function PageSegment(kind: PageKind): string
  {
    match kind
    case Dashboard => "dashboard"
    case LabAvailability => "lab-availability"
    case BookingRequest => "booking-request"
    case MyBookings => "my-bookings"
    case ModifyBooking => "modify-booking/:id"
    case CancelBooking => "cancel-booking/:id"
    case Payment => "payment/:bookingId"
    case PaymentProcessing => "payment-processing"
    case PaymentConfirmation => "payment-confirmation"
    case Profile => "profile"
    case Notifications => "notifications"
    case BookingApproval => "booking-approval"
    case LabManagement => "lab-management"
    case UserManagement => "user-management"
    case Reports => "reports"
    case LabUsageMonitoring => "lab-usage-monitoring"
    case NotificationManagement => "notification-management"
  }

  /** A route's path: a public page, or a page kind below a role's prefix. */
  datatype RoutePath = Public(page: PublicPage) | UnderRole(section: Role, kind: PageKind)

  /** The path pattern as written in the route table. */
  function Url(path: RoutePath): (u: string)
    ensures path.UnderRole? ==> StartsWith(u, RolePrefix(Some(path.section)))
  {
    match path
    case Public(Landing) => "/"
    case Public(Login) => "/login"
    case Public(Register) => "/register"
    case UnderRole(section, kind) => RolePath(Some(section), PageSegment(kind))
  }

  /** What a route renders: a page component, a redirect, or nothing when no route matches. */
  datatype Element = Page(component: string) | RedirectTo(target: string) | NoMatch

  /** A `<Route>`'s element: the role it checks for (None: no check) and the page it shows. */
  datatype Route = Route(guard: Option<Role>, component: string)

  /** The administration pages. */
  const AdminPages: set<PageKind> :=
    {BookingApproval, LabManagement, UserManagement, Reports, LabUsageMonitoring, NotificationManagement}

  /** The payment pages. */
  const PaymentPages: set<PageKind> := {Payment, PaymentProcessing, PaymentConfirmation}

  /** The public routes `/`, `/login` and `/register`, which check nothing. */
  const PublicRoutes: map<PublicPage, Route> := map[
    Landing := Route(None, "LandingPage"),
    Login := Route(None, "LoginPage"),
    Register := Route(None, "RegistrationPage")
  ]

  /**
   * The routes below one role's prefix, by page kind. Paths below different prefixes never
   * coincide, so the router's table is the public routes and these three sections side by side.
   */
  function SectionRoutes(role: Role): (routes: map<PageKind, Route>)
    ensures Dashboard in routes && Profile in routes && Notifications in routes
    ensures forall kind :: kind in AdminPages ==> (kind in routes <==> role == Admin)
    ensures forall kind :: kind in PaymentPages ==> (kind in routes <==> role == External)
  {
    match role
    case Internal => map[
      Dashboard := Route(Some(Internal), "InternalDashboard"),
      LabAvailability := Route(Some(Internal), "LabAvailability"),
      BookingRequest := Route(Some(Internal), "BookingRequest"),
      MyBookings := Route(Some(Internal), "MyBookings"),
      ModifyBooking := Route(Some(Internal), "ModifyBooking"),
      CancelBooking := Route(Some(Internal), "CancelBooking"),
      Profile := Route(Some(Internal), "UserProfile"),
      Notifications := Route(Some(Internal), "Notifications")
    ]
    case External => map[
      Dashboard := Route(Some(External), "ExternalDashboard"),
      LabAvailability := Route(Some(External), "LabAvailability"),
      BookingRequest := Route(Some(External), "BookingRequest"),
      MyBookings := Route(Some(External), "MyBookings"),
      ModifyBooking := Route(Some(External), "ModifyBooking"),
      CancelBooking := Route(Some(External), "CancelBooking"),
      Payment := Route(Some(External), "PaymentPage"),
      PaymentProcessing := Route(Some(External), "PaymentProcessing"),
      PaymentConfirmation := Route(Some(External), "PaymentConfirmation"),
      Profile := Route(Some(External), "UserProfile"),
      Notifications := Route(Some(External), "Notifications")
    ]
    case Admin => map[
      Dashboard := Route(Some(Admin), "AdminDashboard"),
      BookingApproval := Route(Some(Admin), "BookingApproval"),
      LabManagement := Route(Some(Admin), "LabManagement"),
      UserManagement := Route(Some(Admin), "UserManagement"),
      Reports := Route(Some(Admin), "Reports"),
      LabUsageMonitoring := Route(Some(Admin), "LabUsageMonitoring"),
      NotificationManagement := Route(Some(Admin), "NotificationManagement"),
      Profile := Route(Some(Admin), "UserProfile"),
      Notifications := Route(Some(Admin), "Notifications")
    ]
  }

  /** A route of a role's section checks for that role. */
  lemma SectionGuard(role: Role, kind: PageKind)
    requires kind in SectionRoutes(role)
    ensures SectionRoutes(role)[kind].guard == Some(role)
  {
    match role
    case Internal =>
    case External =>
    case Admin =>
  }

  /**
   * The route matching `path`, if any. Every public page has an open route, and every route
   * below a role's prefix checks for that very role.
   */
  function RouteAt(path: RoutePath): (r: Option<Route>)
    ensures path.Public? ==> r.Some? && r.value.guard == None
    ensures path.UnderRole? && r.Some? ==> r.value.guard == Some(path.section)
  {
    match path
    case Public(page) =>
      assert page in PublicRoutes by { assert page == Landing || page == Login || page == Register; }
      Some(PublicRoutes[page])
    case UnderRole(role, kind) =>
      if kind in SectionRoutes(role) then
        SectionGuard(role, kind);
        Some(SectionRoutes(role)[kind])
      else None
  }

  /** The element a matched route renders for the current user: a guarded page needs the guard's role. */
  function RenderRoute(currentUser: Option<User>, route: Route): (e: Element)
    ensures e == Page(route.component) <==> route.guard.None? || (currentUser.Some? && currentUser.value.role == route.guard)
    ensures e != Page(route.component) ==> e == RedirectTo("/login")
  {
    if route.guard.None? || (currentUser.Some? && currentUser.value.role == route.guard) then Page(route.component)
    else RedirectTo("/login")
  }

  /** The element rendered at `path`: that of its route, or nothing when no route matches. */
  function Resolve(currentUser: Option<User>, path: RoutePath): (e: Element)
    ensures e == NoMatch <==> RouteAt(path).None?
    ensures e.Page? ==> e == Page(RouteAt(path).value.component)
  {
    match RouteAt(path)
    case Some(route) => RenderRoute(currentUser, route)
    case None => NoMatch
  }

  /**
   * A page below `/internal/`, `/external/` or `/admin/` is rendered only for a signed-in
   * user of that role; for anyone else, signed in or not, the route redirects to /login.
   */
  lemma RoleRoutesAreGuarded(currentUser: Option<User>, role: Role, kind: PageKind)
    ensures var el := Resolve(currentUser, UnderRole(role, kind));
      && (el.Page? ==> currentUser.Some? && currentUser.value.role == Some(role))
      && (el != NoMatch && (currentUser.None? || currentUser.value.role != Some(role)) ==> el == RedirectTo("/login"))
      && (el != NoMatch && currentUser.Some? && currentUser.value.role == Some(role) ==> el.Page?)
  {
  }

  /** The landing, login and registration pages render whoever is signed in, or nobody. */
  lemma PublicRoutesAreOpen(currentUser: Option<User>, page: PublicPage)
    ensures Resolve(currentUser, Public(page)).Page?
  {
  }

  /**
   * The administration pages exist only below `/admin/`, and the payment pages only below
   * `/external/`: typing such a page below another prefix matches no route.
   */
  lemma RestrictedPages(role: Role, kind: PageKind)
    ensures kind in AdminPages ==> (RouteAt(UnderRole(role, kind)).Some? <==> role == Admin)
    ensures kind in PaymentPages ==> (RouteAt(UnderRole(role, kind)).Some? <==> role == External)
  {
    match role
    case Internal =>
    case External =>
    case Admin =>
  }

  /** Every role's section has a dashboard, a profile and a notifications page. */
  lemma CommonPages(role: Role)
    ensures RouteAt(UnderRole(role, Dashboard)).Some?
    ensures RouteAt(UnderRole(role, Profile)).Some?
    ensures RouteAt(UnderRole(role, Notifications)).Some?
  {
    match role
    case Internal =>
    case External =>
    case Admin =>
  }

  // ---------------------------------------------------------------- state

  /** The `App` component's state: the current user, set at login and cleared at logout. */
  class AppState {
    var currentUser: Option<User>

    constructor ()
      ensures currentUser == None
    {
      currentUser := None;
    }

    /** `handleLogin`. */
    method HandleLogin(user: User)
      modifies this
      ensures currentUser == Some(user)
    {
      currentUser := Some(user);
    }

    /** `handleLogout`. */
    method HandleLogout()
      modifies this
      ensures currentUser == None
    {
      currentUser := None;
    }

    /** What the router renders at `path` in the current state. */
    function ElementAt(path: RoutePath): Element
      reads this
    {
      Resolve(currentUser, path)
    }
  }

  /** After logout, every guarded page redirects to /login. */
  method LogoutLocksRoleRoutes(app: AppState, role: Role, kind: PageKind)
    modifies app
    ensures app.currentUser == None
    ensures app.ElementAt(UnderRole(role, kind)) in {NoMatch, RedirectTo("/login")}
  {
    app.HandleLogout();
    RoleRoutesAreGuarded(app.currentUser, role, kind);
  }
}
