/**
 * The page frame: the side menu each role gets, the rule that marks the current menu
 * entry, and the colour of the role badge.
 */
module Layout {
  import opened Wrappers
  import opened Strings
  import opened MockData
  import App

  /** A menu entry: its label and the page kind its path names. */
  datatype MenuItem = MenuItem(name: string, target: App.PageKind)

  /** The entry's path, `${baseRoute}/<page>` with `baseRoute` = `/${user.role}`. */
  function MenuPath(role: Option<Role>, item: MenuItem): (path: string)
    ensures StartsWith(path, App.RolePrefix(role))
  {
    App.RolePath(role, App.PageSegment(item.target))
  }

  /**
   * `getMenuItems`: a menu for each role, none without a role; every entry names a page
   * the role's own section routes.
   */
  function MenuItems(role: Option<Role>): (items: seq<MenuItem>)
    ensures items == [] <==> role.None?
    ensures role.Some? ==> forall i :: 0 <= i < |items| ==> App.RouteAt(App.UnderRole(role.value, items[i].target)).Some?
  {
    match role
    case Some(Internal) | Some(External) => [
      MenuItem("Dashboard", App.Dashboard),
      MenuItem("Lab Availability", App.LabAvailability),
      MenuItem("Book Lab", App.BookingRequest),
      MenuItem("My Bookings", App.MyBookings),
      MenuItem("Notifications", App.Notifications),
      MenuItem("Profile", App.Profile)
    ]
    case Some(Admin) => [
      MenuItem("Dashboard", App.Dashboard),
      MenuItem("Booking Approval", App.BookingApproval),
      MenuItem("Lab Management", App.LabManagement),
      MenuItem("User Management", App.UserManagement),
      MenuItem("Reports", App.Reports),
      MenuItem("Lab Usage", App.LabUsageMonitoring),
      MenuItem("Notifications", App.NotificationManagement),
      MenuItem("Profile", App.Profile)
    ]
    case None => []
  }

  function Names(items: seq<MenuItem>): (names: seq<string>)
    ensures |names| == |items| && forall i :: 0 <= i < |items| ==> names[i] == items[i].name
  {
    seq(|items|, i requires 0 <= i < |items| => items[i].name)
  }

  /** Internal and external users see the same six entries; administrators eight; no role, none. */
  lemma MenuShapes()
    ensures Names(MenuItems(Some(Internal))) == Names(MenuItems(Some(External)))
    ensures |MenuItems(Some(Internal))| == 6
    ensures |MenuItems(Some(Admin))| == 8
    ensures MenuItems(None) == []
  {
    assert Names(MenuItems(Some(Internal))) == ["Dashboard", "Lab Availability", "Book Lab", "My Bookings", "Notifications", "Profile"];
    assert Names(MenuItems(Some(External))) == ["Dashboard", "Lab Availability", "Book Lab", "My Bookings", "Notifications", "Profile"];
  }

  /** Every menu entry links to a route of the user's own section, which the router renders for that user. */
  lemma MenuLinksOpen(user: App.User, role: Role)
    requires user.role == Some(role)
    ensures forall i :: 0 <= i < |MenuItems(user.role)| ==>
      MenuPath(user.role, MenuItems(user.role)[i]) == App.Url(App.UnderRole(role, MenuItems(user.role)[i].target))
      && App.Resolve(Some(user), App.UnderRole(role, MenuItems(user.role)[i].target)).Page?
  {
    var items := MenuItems(user.role);
    forall i | 0 <= i < |items|
      ensures App.Resolve(Some(user), App.UnderRole(role, items[i].target)).Page?
    {
      App.RoleRoutesAreGuarded(Some(user), role, items[i].target);
    }
  }

  /**
   * `isActive` for entry `i` of the role's menu: its label is the page's `currentPage`.
   * When it holds, no other entry of the menu carries that label.
   */
  predicate IsActive(role: Option<Role>, currentPage: string, i: nat)
    requires i < |MenuItems(role)|
    ensures IsActive(role, currentPage, i) ==>
      forall j :: 0 <= j < |MenuItems(role)| && j != i ==> MenuItems(role)[j].name != currentPage
  {
    DistinctNames(role);
    currentPage == MenuItems(role)[i].name
  }

  /** No two entries of a menu have the same label. */
  lemma DistinctNames(role: Option<Role>)
    ensures forall i, j :: 0 <= i < j < |MenuItems(role)| ==> MenuItems(role)[i].name != MenuItems(role)[j].name
  {
    match role
    case Some(Internal) => MemberLabelsDistinct(MenuItems(role));
    case Some(External) => MemberLabelsDistinct(MenuItems(role));
    case Some(Admin) => AdminLabelsDistinct(MenuItems(role));
    case None =>
  }

  /** The labels of the internal and external menu are distinct. */
  lemma MemberLabelsDistinct(items: seq<MenuItem>)
    requires items == MenuItems(Some(Internal))
    ensures forall i, j :: 0 <= i < j < |items| ==> items[i].name != items[j].name
  {
    assert Names(items) == ["Dashboard", "Lab Availability", "Book Lab", "My Bookings", "Notifications", "Profile"];
  }

  /** The labels of the administrator menu are distinct. */
  lemma AdminLabelsDistinct(items: seq<MenuItem>)
    requires items == MenuItems(Some(Admin))
    ensures forall i, j :: 0 <= i < j < |items| ==> items[i].name != items[j].name
  {
    assert Names(items) == ["Dashboard", "Booking Approval", "Lab Management", "User Management", "Reports", "Lab Usage", "Notifications", "Profile"];
  }

  /** So at most one entry is active. */
  lemma AtMostOneActive(role: Option<Role>, currentPage: string, i: nat, j: nat)
    requires i < |MenuItems(role)| && j < |MenuItems(role)|
    requires IsActive(role, currentPage, i) && IsActive(role, currentPage, j)
    ensures i == j
  {
  }

  /** `getRoleBadgeColor`: one colour per role, grey without a role. */
  function RoleBadgeColor(role: Option<Role>): (c: string)
    ensures role.None? <==> c == "bg-gray-100 text-gray-700"
  {
    match role
    case Some(Admin) => "bg-purple-100 text-purple-700"
    case Some(External) => "bg-orange-100 text-orange-700"
    case Some(Internal) => "bg-blue-100 text-blue-700"
    case None => "bg-gray-100 text-gray-700"
  }
}
