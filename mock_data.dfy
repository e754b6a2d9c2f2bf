/**
 * The entity store: the record types of the lab booking portal, the static data set
 * it ships with, and the lookup and statistics helpers every page reads it through.
 * The helpers take the record list they search as a parameter; the application
 * always passes the module-level list (MockLabs, MockBookings, ...).
 */
module MockData {
  import opened Wrappers
  import opened Seqs

  datatype LabStatus = LabAvailable | LabOccupied | LabMaintenance

  datatype BookingStatus = Pending | Approved | Rejected | Completed | Cancelled

  datatype PaymentStatus = PaymentPending | Paid | PaymentFailed

  datatype NotificationType = Info | Success | Warning | Error

  datatype Role = Internal | External | Admin

  datatype UserStatus = Active | Inactive

  datatype Lab = Lab(
    id: string,
    name: string,
    capacity: nat,
    equipment: seq<string>,
    status: LabStatus,
    building: string,
    floor: string)

  /** An amount of money; JavaScript numbers are taken as exact reals. */
  type Amount = real

  datatype Booking = Booking(
    id: string,
    userId: string,
    userName: string,
    userEmail: string,
    labId: string,
    labName: string,
    date: string,
    startTime: string,
    endTime: string,
    purpose: string,
    status: BookingStatus,
    createdAt: string,
    paymentStatus: Option<PaymentStatus>,
    paymentAmount: Option<Amount>)

  datatype Notification = Notification(
    id: string,
    userId: string,
    title: string,
    message: string,
    kind: NotificationType,
    read: bool,
    createdAt: string)

  datatype UserAccount = UserAccount(
    id: string,
    name: string,
    email: string,
    role: Role,
    status: UserStatus,
    createdAt: string,
    department: Option<string>)

  // ---------------------------------------------------------------- the data set

  const MockLabs: seq<Lab> := [
    Lab("lab-1", "Computer Science Lab A", 30, ["PCs", "Projector", "Whiteboard", "Air Conditioning"],
        LabAvailable, "Main Building", "2nd Floor"),
    Lab("lab-2", "Computer Science Lab B", 25, ["PCs", "Projector", "Interactive Board"],
        LabOccupied, "Main Building", "2nd Floor"),
    Lab("lab-3", "Physics Laboratory", 20, ["Experiment Tables", "Safety Equipment", "Instruments"],
        LabAvailable, "Science Building", "1st Floor"),
    Lab("lab-4", "Chemistry Laboratory", 20, ["Fume Hoods", "Lab Benches", "Safety Shower"],
        LabAvailable, "Science Building", "1st Floor"),
    Lab("lab-5", "Engineering Workshop", 15, ["3D Printers", "CNC Machines", "Hand Tools"],
        LabMaintenance, "Engineering Building", "Ground Floor"),
    Lab("lab-6", "Biology Laboratory", 24, ["Microscopes", "Lab Benches", "Incubators"],
        LabAvailable, "Science Building", "2nd Floor")
  ]

  const MockBookings: seq<Booking> := [
    Booking("booking-1", "1", "Demo User", "demo@example.com", "lab-1", "Computer Science Lab A",
            "2026-01-15", "09:00", "11:00", "Software Development Class", Approved,
            "2026-01-10T10:30:00", None, None),
    Booking("booking-2", "1", "Demo User", "demo@example.com", "lab-3", "Physics Laboratory",
            "2026-01-18", "14:00", "16:00", "Mechanics Experiment", Pending,
            "2026-01-11T14:20:00", None, None),
    Booking("booking-3", "2", "John Smith", "john@external.com", "lab-1", "Computer Science Lab A",
            "2026-01-20", "10:00", "12:00", "Research Data Analysis", Pending,
            "2026-01-11T09:15:00", Some(Paid), Some(150.0)),
    Booking("booking-4", "3", "Sarah Johnson", "sarah@example.com", "lab-6", "Biology Laboratory",
            "2026-01-16", "13:00", "15:00", "Cell Culture Study", Approved,
            "2026-01-09T11:00:00", None, None),
    Booking("booking-5", "1", "Demo User", "demo@example.com", "lab-2", "Computer Science Lab B",
            "2026-01-12", "09:00", "10:00", "Programming Workshop", Completed,
            "2026-01-05T08:30:00", None, None)
  ]

  const MockNotifications: seq<Notification> := [
    Notification("notif-1", "1", "Booking Approved",
                 "Your booking for Computer Science Lab A on 2026-01-15 has been approved.",
                 Success, false, "2026-01-11T10:00:00"),
    Notification("notif-2", "1", "Booking Pending",
                 "Your booking request for Physics Laboratory is pending approval.",
                 Info, false, "2026-01-11T14:25:00"),
    Notification("notif-3", "1", "Reminder",
                 "Your lab session at Computer Science Lab A starts in 24 hours.",
                 Warning, true, "2026-01-10T15:00:00")
  ]

  const MockUsers: seq<UserAccount> := [
    UserAccount("1", "Demo User", "demo@example.com", Internal, Active, "2025-09-01", Some("Computer Science")),
    UserAccount("2", "John Smith", "john@external.com", External, Active, "2025-10-15", None),
    UserAccount("3", "Sarah Johnson", "sarah@example.com", Internal, Active, "2025-08-20", Some("Biology")),
    UserAccount("4", "Admin User", "admin@example.com", Admin, Active, "2025-01-01", None),
    UserAccount("5", "Michael Brown", "michael@example.com", Internal, Active, "2025-11-10", Some("Engineering"))
  ]

  // ---------------------------------------------------------------- lookups

  /** `getLabById`: the first lab with this id, or None. */
  function GetLabById(labs: seq<Lab>, id: string): (r: Option<Lab>)
    ensures r.Some? ==> r.value in labs && r.value.id == id
    ensures r.None? <==> forall l :: l in labs ==> l.id != id
  {
    Find((l: Lab) => l.id == id, labs)
  }

  /** `getBookingById`: the first booking with this id, or None. */
  function GetBookingById(bookings: seq<Booking>, id: string): (r: Option<Booking>)
    ensures r.Some? ==> r.value in bookings && r.value.id == id
    ensures r.None? <==> forall b :: b in bookings ==> b.id != id
  {
    Find((b: Booking) => b.id == id, bookings)
  }

  /** The booking at index `i` is the first with its id, so it is the one found. */
  lemma GetBookingByIdFirst(bookings: seq<Booking>, id: string, i: nat)
    requires i < |bookings| && bookings[i].id == id
    requires forall j :: 0 <= j < i ==> bookings[j].id != id
    ensures GetBookingById(bookings, id) == Some(bookings[i])
  {
    FindIsFirst((b: Booking) => b.id == id, bookings, i);
  }

  /** `getUserBookings`: the bookings owned by `userId`, in list order. */
  function GetUserBookings(bookings: seq<Booking>, userId: string): (r: seq<Booking>)
    ensures forall b :: b in r ==> b in bookings && b.userId == userId
    ensures forall b :: b in bookings && b.userId == userId ==> b in r
  {
    Filter((b: Booking) => b.userId == userId, bookings)
  }

  /** GetUserBookings is exactly the order-preserving subsequence of the user's bookings. */
  lemma GetUserBookingsExact(bookings: seq<Booking>, userId: string)
    ensures IsSubsequence(GetUserBookings(bookings, userId), bookings)
    ensures forall b :: b in GetUserBookings(bookings, userId) ==> b.userId == userId
    ensures forall b: Booking :: b.userId == userId ==>
      multiset(GetUserBookings(bookings, userId))[b] == multiset(bookings)[b]
  {
    FilterIsExactSubsequence((b: Booking) => b.userId == userId, bookings);
  }

  /** `getUserNotifications`: the notifications addressed to `userId`, in list order. */
  function GetUserNotifications(notifications: seq<Notification>, userId: string): (r: seq<Notification>)
    ensures forall n :: n in r ==> n in notifications && n.userId == userId
    ensures forall n :: n in notifications && n.userId == userId ==> n in r
  {
    Filter((n: Notification) => n.userId == userId, notifications)
  }

  // ---------------------------------------------------------------- statistics

  function WithStatus(bookings: seq<Booking>, status: BookingStatus): (r: seq<Booking>)
    ensures forall b :: b in r ==> b in bookings && b.status == status
    ensures forall b :: b in bookings && b.status == status ==> b in r
  {
    Filter((b: Booking) => b.status == status, bookings)
  }

  /** `getPendingBookings`. */
  function GetPendingBookings(bookings: seq<Booking>): (r: seq<Booking>)
    ensures forall b :: b in r ==> b in bookings && b.status == Pending
    ensures |r| == GetBookingStats(bookings).pending
  {
    WithStatus(bookings, Pending)
  }

  datatype BookingStats = BookingStats(total: nat, pending: nat, approved: nat, rejected: nat, completed: nat)

  /** `getBookingStats`: the number of bookings and the number in four of the five statuses. */
  function GetBookingStats(bookings: seq<Booking>): (st: BookingStats)
    ensures st.total == |bookings|
    ensures st.pending + st.approved + st.rejected + st.completed <= st.total
  {
    BookingStatusPartition(bookings);
    BookingStats(
      |bookings|,
      |WithStatus(bookings, Pending)|,
      |WithStatus(bookings, Approved)|,
      |WithStatus(bookings, Rejected)|,
      |WithStatus(bookings, Completed)|)
  }

  /** Every booking is in exactly one of the five statuses. */
  lemma {:induction false} BookingStatusPartition(bookings: seq<Booking>)
    ensures |WithStatus(bookings, Pending)| + |WithStatus(bookings, Approved)|
          + |WithStatus(bookings, Rejected)| + |WithStatus(bookings, Completed)|
          + |WithStatus(bookings, Cancelled)| == |bookings|
    decreases |bookings|
  {
    if bookings != [] {
      BookingStatusPartition(bookings[1..]);
    }
  }

  /** The four counted statuses leave out exactly the cancelled bookings. */
  lemma BookingStatsUncounted(bookings: seq<Booking>)
    ensures var st := GetBookingStats(bookings);
      st.pending + st.approved + st.rejected + st.completed <= st.total
      && st.total - (st.pending + st.approved + st.rejected + st.completed)
         == |WithStatus(bookings, Cancelled)|
  {
    BookingStatusPartition(bookings);
  }

  /** The labs of the catalogue in one status, in catalogue order. */
  function WithLabStatus(labs: seq<Lab>, status: LabStatus): (r: seq<Lab>)
    ensures forall l :: l in r ==> l in labs && l.status == status
    ensures forall l :: l in labs && l.status == status ==> l in r
  {
    Filter((l: Lab) => l.status == status, labs)
  }

  datatype LabStats = LabStats(total: nat, available: nat, occupied: nat, maintenance: nat)

  /** `getLabStats`. */
  function GetLabStats(labs: seq<Lab>): (st: LabStats)
    ensures st.total == |labs|
    ensures st.available + st.occupied + st.maintenance == st.total
  {
    LabStatsPartition(labs);
    LabStats(
      |labs|,
      |WithLabStatus(labs, LabAvailable)|,
      |WithLabStatus(labs, LabOccupied)|,
      |WithLabStatus(labs, LabMaintenance)|)
  }

  /** Every lab is in exactly one of the three statuses. */
  lemma {:induction false} LabStatsPartition(labs: seq<Lab>)
    ensures |WithLabStatus(labs, LabAvailable)| + |WithLabStatus(labs, LabOccupied)|
          + |WithLabStatus(labs, LabMaintenance)| == |labs|
    decreases |labs|
  {
    if labs != [] {
      LabStatsPartition(labs[1..]);
    }
  }
}
