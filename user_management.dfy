/**
 * The user management page: the user list filtered by a search term and by role and
 * status drop-downs, the status toggle, and the per-role counts.
 */
module UserManagement {
  import opened Seqs
  import opened MockData
  import opened Filters

  /** The filter of `filteredUsers`: the search hits the name or the email, and both drop-downs admit the user. */
  predicate MatchesUser(u: UserAccount, term: string, roleFilter: Choice<Role>, statusFilter: Choice<UserStatus>)
  {
    (MatchesSearch(u.name, term) || MatchesSearch(u.email, term))
    && Admits(roleFilter, u.role)
    && Admits(statusFilter, u.status)
  }

  /** `filteredUsers`. */
  function FilteredUsers(users: seq<UserAccount>, term: string, roleFilter: Choice<Role>, statusFilter: Choice<UserStatus>)
    : (r: seq<UserAccount>)
    ensures forall u :: u in r ==> u in users && MatchesUser(u, term, roleFilter, statusFilter)
    ensures forall u :: u in users && MatchesUser(u, term, roleFilter, statusFilter) ==> u in r
    ensures roleFilter.Only? ==> forall u :: u in r ==> u.role == roleFilter.value
    ensures statusFilter.Only? ==> forall u :: u in r ==> u.status == statusFilter.value
  {
    Filter((u: UserAccount) => MatchesUser(u, term, roleFilter, statusFilter), users)
  }

  /** The filtered list keeps the page's order and every matching user, as often as listed. */
  lemma FilteredUsersExact(users: seq<UserAccount>, term: string, roleFilter: Choice<Role>, statusFilter: Choice<UserStatus>)
    ensures IsSubsequence(FilteredUsers(users, term, roleFilter, statusFilter), users)
    ensures forall u: UserAccount :: MatchesUser(u, term, roleFilter, statusFilter) ==>
      multiset(FilteredUsers(users, term, roleFilter, statusFilter))[u] == multiset(users)[u]
  {
    FilterIsExactSubsequence((u: UserAccount) => MatchesUser(u, term, roleFilter, statusFilter), users);
  }

  /** With an empty search and both drop-downs on `'all'`, every user is listed. */
  lemma UnfilteredListsEveryone(users: seq<UserAccount>)
    ensures FilteredUsers(users, "", All, All) == users
  {
    forall u | u in users
      ensures MatchesUser(u, "", All, All)
    {
      EmptySearchMatches(u.name);
    }
    FilterAll((u: UserAccount) => MatchesUser(u, "", All, All), users);
  }

  /** How a user's status is written. */
  function StatusName(status: UserStatus): string
  {
    match status
    case Active => "active"
    case Inactive => "inactive"
  }

  /** `handleToggleStatus`'s new status: `'active'` becomes `'inactive'`, anything else `'active'`. */
  function ToggleStatus(current: string): (r: string)
    ensures r == "inactive" <==> current == "active"
    ensures r == "active" <==> current != "active"
  {
    if current == "active" then "inactive" else "active"
  }

  /** Toggling a user's status names the other status, and toggling twice returns the original. */
  lemma ToggleInvolution(status: UserStatus)
    ensures ToggleStatus(StatusName(status)) != StatusName(status)
    ensures ToggleStatus(ToggleStatus(StatusName(status))) == StatusName(status)
  {
    assert StatusName(Inactive) != "active";
  }

  /** The users of one role, in order: one stat card each. */
  function UsersWithRole(users: seq<UserAccount>, role: Role): (r: seq<UserAccount>)
    ensures forall u :: u in r ==> u in users && u.role == role
    ensures forall u :: u in users && u.role == role ==> u in r
  {
    Filter((u: UserAccount) => u.role == role, users)
  }

  /** The internal, external and admin counts add up to the number of users. */
  lemma {:induction false} RoleCountsSum(users: seq<UserAccount>)
    ensures |UsersWithRole(users, Internal)| + |UsersWithRole(users, External)| + |UsersWithRole(users, Admin)| == |users|
    decreases |users|
  {
    if users != [] {
      RoleCountsSum(users[1..]);
    }
  }
}
