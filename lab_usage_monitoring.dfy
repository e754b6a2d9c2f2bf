/**
 * The lab usage monitoring page: the bookings it treats as today's, the real-time
 * status of each lab, and each lab's utilisation bar.
 */
module LabUsageMonitoring {
  import opened Wrappers
  import opened Seqs
  import opened MockData

  /** `todayBookings`: every booking dated `today`, and every approved booking whatever its date. */
  function TodayBookings(bookings: seq<Booking>, today: string): (r: seq<Booking>)
    ensures forall b :: b in r ==> b in bookings && (b.date == today || b.status == Approved)
    ensures forall b :: b in bookings && (b.date == today || b.status == Approved) ==> b in r
  {
    Filter((b: Booking) => b.date == today || b.status == Approved, bookings)
  }

  /** An approved booking of the lab is found among today's exactly when one exists at all. */
  lemma ApprovedBookingFound(bookings: seq<Booking>, today: string, labId: string)
    ensures Find((b: Booking) => b.labId == labId && b.status == Approved, TodayBookings(bookings, today)).Some?
      <==> exists b :: b in bookings && b.labId == labId && b.status == Approved
  {
    var p := (b: Booking) => b.labId == labId && b.status == Approved;
    if b :| b in bookings && b.labId == labId && b.status == Approved {
      assert b in TodayBookings(bookings, today) && p(b);
    }
  }

  /**
   * `getLabStatus`: "In Use" when one of today's bookings is an approved booking of the lab.
   * Every approved booking counts as today's, so that is exactly when some approved booking
   * of the lab exists, on any date.
   */
  function GetLabStatus(bookings: seq<Booking>, today: string, labId: string): (s: string)
    ensures s == "In Use" <==> exists b :: b in bookings && b.labId == labId && b.status == Approved
    ensures s != "In Use" ==> s == "Available"
  {
    ApprovedBookingFound(bookings, today, labId);
    if Find((b: Booking) => b.labId == labId && b.status == Approved, TodayBookings(bookings, today)).Some? then "In Use"
    else "Available"
  }

  /** The status shown for a lab does not depend on the date taken as today. */
  lemma LabStatusIgnoresDate(bookings: seq<Booking>, today: string, otherDay: string, labId: string)
    ensures GetLabStatus(bookings, today, labId) == GetLabStatus(bookings, otherDay, labId)
  {
  }

  /** The assumed capacity of a lab in bookings. */
  const MaxBookings: nat := 30

  /** `Math.min((count / 30) * 100, 100)`, in exact arithmetic. */
  function UsagePercentage(count: nat): (p: real)
    ensures 0.0 <= p <= 100.0
    ensures count >= MaxBookings ==> p == 100.0
    ensures count < MaxBookings ==> p == count as real * 100.0 / MaxBookings as real
  {
    var raw := (count as real / MaxBookings as real) * 100.0;
    if raw < 100.0 then raw else 100.0
  }

  /** More bookings never show a lower utilisation. */
  lemma UsageMonotone(m: nat, n: nat)
    requires m <= n
    ensures UsagePercentage(m) <= UsagePercentage(n)
  {
  }

  /** `getLabUsagePercentage`: the percentage of the lab's bookings, across all dates and statuses. */
  function LabUsagePercentage(bookings: seq<Booking>, labId: string): (r: real)
    ensures 0.0 <= r <= 100.0
    ensures (forall b :: b in bookings ==> b.labId != labId) ==> r == 0.0
  {
    var count := |Filter((b: Booking) => b.labId == labId, bookings)|;
    assert (forall b :: b in bookings ==> b.labId != labId) ==> count == 0 by {
      if forall b :: b in bookings ==> b.labId != labId {
        FilterNone((b: Booking) => b.labId == labId, bookings);
      }
    }
    UsagePercentage(count)
  }

  /** Bookings of other labs, before or after the list, leave a lab's utilisation as it is. */
  lemma OtherLabsDoNotCount(bookings: seq<Booking>, others: seq<Booking>, labId: string)
    requires forall b :: b in others ==> b.labId != labId
    ensures LabUsagePercentage(bookings + others, labId) == LabUsagePercentage(bookings, labId)
    ensures LabUsagePercentage(others + bookings, labId) == LabUsagePercentage(bookings, labId)
  {
    var ofLab := (b: Booking) => b.labId == labId;
    FilterAppend(ofLab, bookings, others);
    FilterAppend(ofLab, others, bookings);
    FilterNone(ofLab, others);
  }

  /** One more booking never lowers any lab's utilisation. */
  lemma UsageGrows(bookings: seq<Booking>, b: Booking, labId: string)
    ensures LabUsagePercentage(bookings, labId) <= LabUsagePercentage(bookings + [b], labId)
  {
    var ofLab := (x: Booking) => x.labId == labId;
    FilterAppend(ofLab, bookings, [b]);
    UsageMonotone(|Filter(ofLab, bookings)|, |Filter(ofLab, bookings + [b])|);
  }

  /** The colour of a utilisation bar. */
  datatype BarColour = Red | Orange | Green

  /** Red above 75%, orange above 50%, green otherwise. */
  function ColourFor(percentage: real): (c: BarColour)
    ensures c == Red <==> percentage > 75.0
    ensures c == Orange <==> 50.0 < percentage <= 75.0
    ensures c == Green <==> percentage <= 50.0
  {
    if percentage > 75.0 then Red else if percentage > 50.0 then Orange else Green
  }

  /** In bookings: red from 23 on, orange from 16 to 22, green up to 15. */
  lemma ColourByCount(count: nat)
    ensures ColourFor(UsagePercentage(count)) == Red <==> count >= 23
    ensures ColourFor(UsagePercentage(count)) == Orange <==> 16 <= count <= 22
    ensures ColourFor(UsagePercentage(count)) == Green <==> count <= 15
  {
    if count < MaxBookings {
      assert UsagePercentage(count) == count as real * 100.0 / 30.0;
    }
  }
}
