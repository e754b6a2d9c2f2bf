/**
 * The reports page: the user-type and booking-status distributions, the active-user
 * count and the approval rate.
 */
module Reports {
  import opened Wrappers
  import opened Seqs
  import opened MockData
  import UserManagement

  /** A slice of a chart: its label and its value. */
  datatype Slice = Slice(name: string, value: nat)

  /**
   * `userTypeData`: the number of users of each role, labelled Internal, External and Admin.
   * The three slices cover every user exactly once.
   */
  function UserTypeData(users: seq<UserAccount>): (d: seq<Slice>)
    ensures |d| == 3 && d[0].name == "Internal" && d[1].name == "External" && d[2].name == "Admin"
    ensures d[0].value + d[1].value + d[2].value == |users|
  {
    UserManagement.RoleCountsSum(users);
    [
      Slice("Internal", |UserManagement.UsersWithRole(users, Internal)|),
      Slice("External", |UserManagement.UsersWithRole(users, External)|),
      Slice("Admin", |UserManagement.UsersWithRole(users, Admin)|)
    ]
  }

  /** `statusData`: the number of approved, pending, rejected and completed bookings. */
  function StatusData(bookings: seq<Booking>): (r: seq<Slice>)
    ensures var st := GetBookingStats(bookings);
      r == [Slice("Approved", st.approved), Slice("Pending", st.pending),
            Slice("Rejected", st.rejected), Slice("Completed", st.completed)]
  {
    [
      Slice("Approved", |WithStatus(bookings, Approved)|),
      Slice("Pending", |WithStatus(bookings, Pending)|),
      Slice("Rejected", |WithStatus(bookings, Rejected)|),
      Slice("Completed", |WithStatus(bookings, Completed)|)
    ]
  }

  /** The status chart leaves out exactly the cancelled bookings. */
  lemma StatusDataUncounted(bookings: seq<Booking>)
    ensures var d := StatusData(bookings); d[0].value + d[1].value + d[2].value + d[3].value <= |bookings|
    ensures var d := StatusData(bookings);
      |bookings| - (d[0].value + d[1].value + d[2].value + d[3].value) == |WithStatus(bookings, Cancelled)|
  {
    BookingStatsUncounted(bookings);
  }

  /** The Active Users figure. */
  function ActiveUsers(users: seq<UserAccount>): (n: nat)
    ensures n <= |users|
  {
    |Filter((u: UserAccount) => u.status == Active, users)|
  }

  /** Every user is counted as active exactly when no user is inactive. */
  lemma ActiveUsersAll(users: seq<UserAccount>)
    ensures ActiveUsers(users) == |users| <==> forall u :: u in users ==> u.status == Active
  {
    if forall u :: u in users ==> u.status == Active {
      FilterAll((u: UserAccount) => u.status == Active, users);
    } else {
      FilterCountStrict((u: UserAccount) => u.status == Active, users);
    }
  }

  /**
   * `Math.round(approved / bookings.length * 100)`, in exact arithmetic and rounding half
   * up. With no bookings the division is 0/0 (NaN), modelled as None.
   */
  function ApprovalRate(bookings: seq<Booking>): (r: Option<int>)
    ensures r.None? <==> bookings == []
    ensures r.Some? ==> 0 <= r.value <= 100
  {
    if bookings == [] then None
    else
      var approved := |WithStatus(bookings, Approved)|;
      var exact := approved as real / |bookings| as real * 100.0;
      RatioAtMostOne(approved, |bookings|);
      Some((exact + 0.5).Floor)
  }

  /** A part over a non-empty whole lies between 0 and 1. */
  lemma RatioAtMostOne(part: nat, whole: nat)
    requires 0 < whole && part <= whole
    ensures 0.0 <= part as real / whole as real <= 1.0
  {
    var q := part as real / whole as real;
    assert q * whole as real == part as real;
  }
}
