/**
 * The appointment editor's form logic: the reset performed when the dialog
 * opens, the ordered validation chain of a submission, and the end time that
 * a submission derives from the start time and the duration.
 */
module AppointmentForm {
  import opened Wrappers
  import opened Decimal
  import opened Calendar

  /** The form's state. `kind` is the source's `type` field; `date` is the `yyyy-MM-dd` text. */
  datatype FormData = FormData(
    patientName: string,
    therapistName: string,
    date: string,
    startTime: string,
    endTime: string,
    kind: AppointmentType,
    status: Status,
    location: string,
    notes: string,
    duration: string)

  /**
   * The appointment handed to the dialog for editing. Its fields may be missing;
   * `formattedDate` is the text `format(appointment.date, 'yyyy-MM-dd')` gives.
   */
  datatype EditedAppointment = EditedAppointment(
    id: Option<string>,
    patientName: Option<string>,
    therapistName: Option<string>,
    formattedDate: string,
    startTime: Option<string>,
    endTime: Option<string>,
    kind: Option<AppointmentType>,
    status: Option<Status>,
    location: Option<string>,
    notes: Option<string>,
    duration: Option<string>)

  /** What a successful submission hands to `onSave`: the form and the edited appointment's id. */
  datatype Payload = Payload(form: FormData, id: Option<string>)

  const RequiredFieldsMessage := "Please fill in all required fields"
  const PatientNameMessage := "Patient name is required"
  const TherapistNameMessage := "Therapist name is required"
  const PatientRole := "patient"

  /** `x || fallback` on an optional string: a missing value and '' both fall back. */
  function OrElse(x: Option<string>, fallback: string): (r: string)
    ensures x.Some? && x.value != "" ==> r == x.value
    ensures x.None? || x.value == "" ==> r == fallback
  {
    if x.Some? && x.value != "" then x.value else fallback
  }

  /** The state the `useState` call starts from, before the opening effect runs. */
  const InitialForm := FormData("", "", "", "", "", InPerson, Scheduled, "", "", "50")

  /**
   * The opening effect: editing copies the appointment's fields, each falling
   * back when missing or empty; a new appointment gets today's date, 10:00 to
   * 10:50, 50 minutes, in person, scheduled.
   */
  function ResetForm(appointment: Option<EditedAppointment>, today: string): (f: FormData)
    ensures f.duration != ""
    ensures appointment.None? ==>
      && f.date == today && f.startTime == "10:00" && f.endTime == "10:50" && f.duration == "50"
      && f.kind == InPerson && f.status == Scheduled
      && f.patientName == "" && f.therapistName == "" && f.location == "" && f.notes == ""
    ensures appointment.Some? ==>
      var a := appointment.value;
      && f.date == a.formattedDate
      && f.kind == a.kind.GetOr(InPerson) && f.status == a.status.GetOr(Scheduled)
      && (a.startTime.Some? && a.startTime.value != "" ==> f.startTime == a.startTime.value)
      && (a.endTime.Some? && a.endTime.value != "" ==> f.endTime == a.endTime.value)
      && (a.duration.Some? && a.duration.value != "" ==> f.duration == a.duration.value)
      && (a.duration.None? || a.duration.value == "" ==> f.duration == "50")
      && (a.startTime.None? || a.startTime.value == "" ==> f.startTime == "")
      && (a.endTime.None? || a.endTime.value == "" ==> f.endTime == "")
      && (a.patientName.Some? && a.patientName.value != "" ==> f.patientName == a.patientName.value)
      && (a.patientName.None? || a.patientName.value == "" ==> f.patientName == "")
      && (a.therapistName.Some? && a.therapistName.value != "" ==> f.therapistName == a.therapistName.value)
      && (a.therapistName.None? || a.therapistName.value == "" ==> f.therapistName == "")
      && f.location == OrElse(a.location, "") && f.notes == OrElse(a.notes, "")
  {
    match appointment
    case Some(a) =>
      FormData(OrElse(a.patientName, ""), OrElse(a.therapistName, ""), a.formattedDate,
               OrElse(a.startTime, ""), OrElse(a.endTime, ""), a.kind.GetOr(InPerson),
               a.status.GetOr(Scheduled), OrElse(a.location, ""), OrElse(a.notes, ""),
               OrElse(a.duration, "50"))
    case None =>
      FormData("", "", today, "10:00", "10:50", InPerson, Scheduled, "", "", "50")
  }

  predicate MissingRequired(f: FormData) {
    f.date == "" || f.startTime == "" || f.endTime == ""
  }

  /**
   * The validation chain of `handleSubmit`: the required date and times
   * first, then the participant name the role must supply. `None` means the
   * form passes.
   */
  function Validate(f: FormData, userRole: string): (r: Option<string>)
    ensures r.None? <==>
      && !MissingRequired(f)
      && (userRole != PatientRole ==> f.patientName != "")
      && (userRole == PatientRole ==> f.therapistName != "")
    ensures MissingRequired(f) ==> r == Some(RequiredFieldsMessage)
    ensures r == Some(PatientNameMessage) <==>
      !MissingRequired(f) && userRole != PatientRole && f.patientName == ""
    ensures r == Some(TherapistNameMessage) <==>
      !MissingRequired(f) && userRole == PatientRole && f.therapistName == ""
  {
    if MissingRequired(f) then Some(RequiredFieldsMessage)
    else if userRole != PatientRole && f.patientName == "" then Some(PatientNameMessage)
    else if userRole == PatientRole && f.therapistName == "" then Some(TherapistNameMessage)
    else None
  }

  /** JavaScript `x + y` on numbers: NaN as soon as either side is NaN. */
  function Plus(x: JsNumber, y: JsNumber): (r: JsNumber)
    ensures r.NaN? <==> x.NaN? || y.NaN?
    ensures r.Finite? ==> r.value == x.value + y.value
  {
    if x.NaN? || y.NaN? then NaN else Finite(x.value + y.value)
  }

  /**
   * `const [hours, minutes] = startTime.split(':').map(Number); hours * 60 + minutes`.
   * A missing minutes part is `undefined`, which makes the sum NaN; parts
   * after the second are ignored.
   */
  function StartMinutes(startTime: string): (r: JsNumber)
    ensures var parts := Split(startTime, ':');
      r.Finite? <==> |parts| >= 2 && IsDigits(parts[0]) && IsDigits(parts[1])
    ensures var parts := Split(startTime, ':');
      r.Finite? ==> r.value == DigitsValue(parts[0]) * 60 + DigitsValue(parts[1])
  {
    var parts := Split(startTime, ':');
    var hours := ToNumber(parts[0]);
    var minutes := if |parts| >= 2 then ToNumber(parts[1]) else NaN;
    if hours.NaN? || minutes.NaN? then NaN else Finite(hours.value * 60 + minutes.value)
  }

  /** `startMinutes + parseInt(duration)`: a number exactly when both operands are. */
  function EndMinutes(startTime: string, duration: string): (r: JsNumber)
    ensures r.Finite? <==> StartMinutes(startTime).Finite? && ParseInt(duration).Finite?
    ensures r.Finite? ==> r.value == StartMinutes(startTime).value + ParseInt(duration).value
  {
    Plus(StartMinutes(startTime), ParseInt(duration))
  }

  /**
   * Two-digit hours (no wrap at 24), ':', two-digit minutes: the text splits
   * on ':' into two digit strings, worth the hours and the minutes below 60.
   */
  function FormatClock(total: nat): (r: string)
    ensures var parts := Split(r, ':');
      && parts == [PadStart2(NatToString(total / 60)), PadStart2(NatToString(total % 60))]
      && ToNumber(parts[0]) == Finite(total / 60)
      && ToNumber(parts[1]) == Finite(total % 60) && total % 60 < 60
  {
    var hh, mm := PadStart2(NatToString(total / 60)), PadStart2(NatToString(total % 60));
    PadStart2Value(NatToString(total / 60));
    PadStart2Value(NatToString(total % 60));
    NatToStringRoundTrip(total / 60);
    NatToStringRoundTrip(total % 60);
    DigitsExclude(hh, ':');
    DigitsExclude(mm, ':');
    SplitPair(hh, mm, ':');
    hh + ":" + mm
  }

  /**
   * The end time a submission writes: NaN renders as "NaN" in both places,
   * and that text is written exactly when the sum is NaN.
   */
  function EndTimeFor(startTime: string, duration: string): (r: string)
    ensures r == "NaN:NaN" <==> EndMinutes(startTime, duration).NaN?
  {
    match EndMinutes(startTime, duration)
    case NaN => "NaN:NaN"
    case Finite(total) =>
      NaNClockText();
      FormatClock(total)
  }

  /** "NaN:NaN" is not a formatted clock: its first piece is not a number. */
  lemma NaNClockText()
    ensures ToNumber(Split("NaN:NaN", ':')[0]) == NaN
  {
    assert !IsDigit("NaN"[0]);
    SplitPair("NaN", "NaN", ':');
    assert "NaN" + [':'] + "NaN" == "NaN:NaN";
  }

  /**
   * Round trip: reading a formatted clock back with the start-time parser
   * gives the total minutes again.
   */
  lemma FormatClockRoundTrip(total: nat)
    ensures StartMinutes(FormatClock(total)) == Finite(total)
  {
    var parts := Split(FormatClock(total), ':');
    assert DigitsValue(parts[0]) == total / 60 && DigitsValue(parts[1]) == total % 60;
  }

  /** Parsing the written end time gives exactly the start minutes plus the duration. */
  lemma EndTimeRoundTrip(startTime: string, duration: string)
    requires EndMinutes(startTime, duration).Finite?
    ensures StartMinutes(EndTimeFor(startTime, duration)) == EndMinutes(startTime, duration)
    ensures StartMinutes(EndTimeFor(startTime, duration)).value
         == StartMinutes(startTime).value + ParseInt(duration).value
  {
    FormatClockRoundTrip(EndMinutes(startTime, duration).value);
  }

  /** A well-formed "HH:MM" start is `HH * 60 + MM` minutes. */
  lemma StartMinutesOfWellFormed(hh: string, mm: string)
    requires IsDigits(hh) && IsDigits(mm)
    ensures StartMinutes(hh + ":" + mm) == Finite(DigitsValue(hh) * 60 + DigitsValue(mm))
  {
    DigitsExclude(hh, ':');
    DigitsExclude(mm, ':');
    SplitPair(hh, mm, ':');
    assert Split(hh + ":" + mm, ':') == [hh, mm];
  }

  /** A well-formed "HH:MM" start and a digit duration give `HH * 60 + MM + duration` minutes. */
  lemma EndMinutesOfWellFormed(hh: string, mm: string, duration: string)
    requires IsDigits(hh) && IsDigits(mm) && IsDigits(duration) && duration != ""
    ensures EndMinutes(hh + ":" + mm, duration)
         == Finite(DigitsValue(hh) * 60 + DigitsValue(mm) + DigitsValue(duration))
  {
    StartMinutesOfWellFormed(hh, mm);
    EndMinutesOfSum(hh + ":" + mm, duration, DigitsValue(hh) * 60 + DigitsValue(mm), DigitsValue(duration));
  }

  /** The end minutes are the start minutes plus the parsed duration when both are numbers. */
  lemma EndMinutesOfSum(startTime: string, duration: string, x: nat, y: nat)
    requires StartMinutes(startTime) == Finite(x) && ParseInt(duration) == Finite(y)
    ensures EndMinutes(startTime, duration) == Finite(x + y)
  {
  }

  /** The value of a two-digit string. */
  lemma TwoDigitValue(c1: char, c2: char)
    requires IsDigit(c1) && IsDigit(c2)
    ensures DigitsValue([c1, c2]) == DigitValue(c1) * 10 + DigitValue(c2)
  {
    assert [c1, c2][..1] == [c1];
    assert [c1][..0] == [];
    assert DigitsValue([c1]) == DigitsValue([]) * 10 + DigitValue(c1);
    assert DigitsValue([c1, c2]) == DigitsValue([c1]) * 10 + DigitValue(c2);
  }

  /** The text of a two-digit number. */
  lemma TwoDigitText(n: nat)
    requires 10 <= n < 100
    ensures NatToString(n) == [DigitChar(n / 10), DigitChar(n % 10)]
  {
  }

  /** A clock with two-digit hours and minutes from 10 upward. */
  lemma FormatClockTwoByTwo(h: nat, m: nat)
    requires 10 <= h < 100 && 10 <= m < 60
    ensures FormatClock(h * 60 + m)
         == [DigitChar(h / 10), DigitChar(h % 10), ':', DigitChar(m / 10), DigitChar(m % 10)]
  {
    FormatClockOf(h, m);
    TwoDigitText(h);
    TwoDigitText(m);
    var hh, mm := NatToString(h), NatToString(m);
    assert PadStart2(hh) == hh && PadStart2(mm) == mm;
  }

  /** The clock of `h` hours and `m < 60` minutes shows `h` and `m`. */
  lemma FormatClockOf(h: nat, m: nat)
    requires m < 60
    ensures FormatClock(h * 60 + m) == PadStart2(NatToString(h)) + ":" + PadStart2(NatToString(m))
  {
    ClockParts(h, m);
  }

  lemma ClockParts(h: nat, m: nat)
    requires m < 60
    ensures (h * 60 + m) / 60 == h && (h * 60 + m) % 60 == m
  {
  }

  /** 10:00 plus 50 minutes ends at 10:50. */
  lemma DefaultEndTime()
    ensures EndTimeFor("10:00", "50") == "10:50"
  {
    assert "10" + ":" + "00" == "10:00";
    EndMinutesOfWellFormed("10", "00", "50");
    TwoDigitValue('1', '0');
    TwoDigitValue('0', '0');
    TwoDigitValue('5', '0');
    assert EndMinutes("10:00", "50") == Finite(10 * 60 + 50);
    FormatClockTwoByTwo(10, 50);
  }

  /** There is no wrap at midnight: 23:30 plus 50 minutes ends at "24:20". */
  lemma EndTimeDoesNotWrap()
    ensures EndTimeFor("23:30", "50") == "24:20"
  {
    assert "23" + ":" + "30" == "23:30";
    EndMinutesOfWellFormed("23", "30", "50");
    TwoDigitValue('2', '3');
    TwoDigitValue('3', '0');
    TwoDigitValue('5', '0');
    assert EndMinutes("23:30", "50") == Finite(24 * 60 + 20);
    FormatClockTwoByTwo(24, 20);
  }

  /**
   * The outcome of `handleSubmit` on form `f`: the first failed check's
   * message, or the payload, whose end time is recomputed whenever both
   * duration and start time are non-empty.
   */
  function Submission(f: FormData, userRole: string, id: Option<string>): (r: Result<Payload, string>)
    ensures r.Failure? <==> Validate(f, userRole).Some?
    ensures r.Failure? ==> r.error == Validate(f, userRole).value
  {
    match Validate(f, userRole)
    case Some(message) => Failure(message)
    case None =>
      var saved := if f.duration != "" && f.startTime != ""
                   then f.(endTime := EndTimeFor(f.startTime, f.duration)) else f;
      Result.Success(Payload(saved, id))
  }

  /**
   * A non-empty duration overrides any end time typed in; an empty one keeps
   * it. Every other field and the id pass through unchanged.
   */
  lemma SubmissionPayload(f: FormData, userRole: string, id: Option<string>)
    requires Validate(f, userRole).None?
    ensures Submission(f, userRole, id).Success?
    ensures var p := Submission(f, userRole, id).value;
      && p.id == id
      && p.form.(endTime := f.endTime) == f
      && p.form.endTime == if f.duration != "" then EndTimeFor(f.startTime, f.duration) else f.endTime
  {
  }

  /** A failed check reports its message and hands nothing to `onSave`. */
  lemma SubmissionFailure(f: FormData, userRole: string, id: Option<string>)
    requires MissingRequired(f)
    ensures Submission(f, userRole, id) == Failure(RequiredFieldsMessage)
  {
  }

  /** Submitting the untouched form of a new appointment saves 10:00 to 10:50 once a name is filled in. */
  lemma NewFormSubmission(today: string, name: string, userRole: string)
    requires today != "" && name != ""
    ensures var f := ResetForm(None, today).(patientName := name, therapistName := name);
      Submission(f, userRole, None) == Result.Success(Payload(f, None))
  {
    DefaultEndTime();
  }

  /** The dialog: the appointment it was opened for, the form and the error it shows. */
  class AppointmentModal {
    var appointment: Option<EditedAppointment>
    var formData: FormData
    var error: Option<string>

    /** The dialog as it first renders: initial state, then the opening effect. */
    constructor (appointment: Option<EditedAppointment>, today: string)
      ensures this.appointment == appointment
      ensures formData == ResetForm(appointment, today) && error == None
    {
      this.appointment := appointment;
      formData := InitialForm;
      error := None;
      formData := ResetForm(appointment, today);
    }

    /** `appointment?.id`. */
    function AppointmentId(): Option<string>
      reads this
    {
      if appointment.Some? then appointment.value.id else None
    }

    /** The opening effect when the dialog is (re)opened or given another appointment. */
    method Open(appointment: Option<EditedAppointment>, today: string)
      modifies this
      ensures this.appointment == appointment
      ensures formData == ResetForm(appointment, today) && error == None
    {
      this.appointment := appointment;
      formData := ResetForm(appointment, today);
      error := None;
    }

    /**
     * `handleSubmit`. `saveError` is the message `onSave` throws, if it does.
     * Returns the payload handed to `onSave`, or `None` when a check failed.
     */
    method HandleSubmit(userRole: string, saveError: Option<string>) returns (saved: Option<Payload>)
      modifies this
      ensures appointment == old(appointment)
      ensures Submission(old(formData), userRole, AppointmentId()).Failure? ==>
        && saved == None
        && error == Some(Submission(old(formData), userRole, AppointmentId()).error)
        && formData == old(formData)
      ensures Submission(old(formData), userRole, AppointmentId()).Success? ==>
        && saved == Some(Submission(old(formData), userRole, AppointmentId()).value)
        && formData == saved.value.form
        && error == saveError
    {
      error := None;
      var problem := Validate(formData, userRole);
      if problem.Some? {
        error := problem;
        saved := None;
        return;
      }
      if formData.duration != "" && formData.startTime != "" {
        formData := formData.(endTime := EndTimeFor(formData.startTime, formData.duration));
      }
      saved := Some(Payload(formData, AppointmentId()));
      if saveError.Some? {
        error := saveError;
      }
    }
  }
}
