/**
 * The booking request page: a five-field form, the list of labs it offers, and the
 * submit handler that refuses a time range whose end does not come after its start.
 */
module BookingRequest {
  import opened Wrappers
  import opened Seqs
  import opened Strings
  import opened MockData
  import App

  // ---------------------------------------------------------------- the form

  /** The form state: every field holds the text of its input. */
  datatype BookingForm = BookingForm(labId: string, date: string, startTime: string, endTime: string, purpose: string)

  /** The `name` attributes of the form's inputs. */
  datatype FormField = LabIdField | DateField | StartTimeField | EndTimeField | PurposeField

  const EmptyForm := BookingForm("", "", "", "", "")

  function FieldValue(form: BookingForm, field: FormField): string
  {
    match field
    case LabIdField => form.labId
    case DateField => form.date
    case StartTimeField => form.startTime
    case EndTimeField => form.endTime
    case PurposeField => form.purpose
  }

  /** `{...formData, [name]: value}`: the named field takes the value, and only that field changes. */
  function WithField(form: BookingForm, field: FormField, value: string): (r: BookingForm)
    ensures FieldValue(r, field) == value
    ensures forall f :: f != field ==> FieldValue(r, f) == FieldValue(form, f)
  {
    match field
    case LabIdField => form.(labId := value)
    case DateField => form.(date := value)
    case StartTimeField => form.(startTime := value)
    case EndTimeField => form.(endTime := value)
    case PurposeField => form.(purpose := value)
  }

  // ---------------------------------------------------------------- the time check

  const TimeRangeMessage := "End time must be after start time"

  /** The check before submitting: `startTime >= endTime`, compared as strings, refuses. */
  function CheckTimeRange(startTime: string, endTime: string): (r: Outcome)
    ensures r.Refused? ==> r.message == TimeRangeMessage
  {
    if StrGreaterOrEqual(startTime, endTime) then Refused(TimeRangeMessage) else Accepted
  }

  /** A range that ends when it starts is refused. */
  lemma EqualTimesRefused(t: string)
    ensures CheckTimeRange(t, t) == Refused(TimeRangeMessage)
  {
    StrLessIrreflexive(t);
  }

  /** A zero-padded `HH:MM` time as the time input produces it (the minute tens digit is at most 5). */
  predicate IsTimeOfDay(s: string)
  {
    |s| == 5 && IsDigit(s[0]) && IsDigit(s[1]) && s[2] == ':' && '0' <= s[3] <= '5' && IsDigit(s[4])
  }

  /** Minutes since midnight. */
  function Minutes(s: string): (m: nat)
    requires IsTimeOfDay(s)
    ensures m == 60 * (10 * DigitValue(s[0]) + DigitValue(s[1])) + 10 * DigitValue(s[3]) + DigitValue(s[4])
  {
    600 * DigitValue(s[0]) + 60 * DigitValue(s[1]) + 10 * DigitValue(s[3]) + DigitValue(s[4])
  }

  /** On `HH:MM` strings the string order used by the check is the order of the times of day. */
  lemma StrLessIsTimeOrder(a: string, b: string)
    requires IsTimeOfDay(a) && IsTimeOfDay(b)
    ensures StrLess(a, b) <==> Minutes(a) < Minutes(b)
  {
    assert StrLess(a, b) <==> a[0] < b[0] || (a[0] == b[0] && StrLess(a[1..], b[1..]));
    assert StrLess(a[1..], b[1..]) <==> a[1] < b[1] || (a[1] == b[1] && StrLess(a[2..], b[2..]));
    assert StrLess(a[2..], b[2..]) <==> StrLess(a[3..], b[3..]);
    assert StrLess(a[3..], b[3..]) <==> a[3] < b[3] || (a[3] == b[3] && StrLess(a[4..], b[4..]));
    assert StrLess(a[4..], b[4..]) <==> a[4] < b[4];
  }

  /** So a request of `HH:MM` times goes ahead exactly when it ends at a later time of day. */
  lemma CheckTimeRangeAsMinutes(startTime: string, endTime: string)
    requires IsTimeOfDay(startTime) && IsTimeOfDay(endTime)
    ensures CheckTimeRange(startTime, endTime).Accepted? <==> Minutes(startTime) < Minutes(endTime)
  {
    StrLessIsTimeOrder(startTime, endTime);
  }

  // ---------------------------------------------------------------- the labs offered

  /** `availableLabs`: the labs whose status is `available`, in catalogue order. */
  function AvailableLabs(labs: seq<Lab>): (r: seq<Lab>)
    ensures forall l :: l in r ==> l in labs && l.status == LabAvailable
    ensures forall l :: l in labs && l.status == LabAvailable ==> l in r
  {
    WithLabStatus(labs, LabAvailable)
  }

  /** The labs offered are exactly the available ones, each as often as in the catalogue, in order. */
  lemma AvailableLabsExact(labs: seq<Lab>)
    ensures IsSubsequence(AvailableLabs(labs), labs)
    ensures forall l :: l in AvailableLabs(labs) ==> l.status == LabAvailable
    ensures forall l: Lab :: l.status == LabAvailable ==> multiset(AvailableLabs(labs))[l] == multiset(labs)[l]
  {
    FilterIsExactSubsequence((l: Lab) => l.status == LabAvailable, labs);
  }

  /** The submit button is disabled when no lab is available. */
  predicate SubmitDisabled(labs: seq<Lab>)
  {
    |AvailableLabs(labs)| == 0
  }

  lemma SubmitDisabledIff(labs: seq<Lab>)
    ensures SubmitDisabled(labs) <==> forall l :: l in labs ==> l.status != LabAvailable
  {
    AvailableLabsExact(labs);
    if !SubmitDisabled(labs) {
      assert AvailableLabs(labs)[0] in AvailableLabs(labs);
    }
  }

  // ---------------------------------------------------------------- the page

  /** The page's state: the signed-in user and the form. */
  class BookingRequestPage {
    const user: App.User
    var formData: BookingForm

    constructor (user: App.User)
      ensures this.user == user && formData == EmptyForm
    {
      this.user := user;
      formData := EmptyForm;
    }

    /** `handleChange`: the input named `field` now holds `value`. */
    method HandleChange(field: FormField, value: string)
      modifies this
      ensures formData == WithField(old(formData), field, value)
    {
      formData := WithField(formData, field, value);
    }

    /**
     * `handleSubmit`: refused when the time range is empty or reversed, and then it goes
     * nowhere; otherwise it navigates to the user's bookings. The form is left as it was.
     */
    method HandleSubmit() returns (outcome: Outcome, target: Option<string>)
      ensures outcome.Refused? <==> StrGreaterOrEqual(formData.startTime, formData.endTime)
      ensures outcome.Refused? ==> outcome.message == TimeRangeMessage && target == None
      ensures outcome.Accepted? ==> target == Some(App.RolePath(user.role, "my-bookings"))
    {
      outcome := CheckTimeRange(formData.startTime, formData.endTime);
      if outcome.Refused? {
        return outcome, None;
      }
      target := Some(App.RolePath(user.role, "my-bookings"));
    }
  }
}
