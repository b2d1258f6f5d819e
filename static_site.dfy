/**
 * The static HTML export's script: the simulated login and logout, the appointment booking
 * form with its validation chain, and the time formatter. Browser storage is modelled as
 * fields of the `Site` object; the clock, the time zone and the form's date as the browser
 * parses it come in as parameters. Alerts, modals and the DOM are not modelled.
 */
module StaticSite {
  import opened Wrappers
  import opened Text
  import opened Seqs

  // ---------------------------------------------------------------------------
  // The booking form
  // ---------------------------------------------------------------------------

  datatype BookingForm = BookingForm(
    firstName: string, lastName: string, email: string, phone: string,
    treatment: string, date: string, time: string, message: string)

  datatype BookingField = FirstNameField | LastNameField | EmailField | PhoneField
                        | TreatmentField | DateField | TimeField | MessageField

  function BookingGet(f: BookingForm, field: BookingField): string
  {
    match field
    case FirstNameField => f.firstName
    case LastNameField => f.lastName
    case EmailField => f.email
    case PhoneField => f.phone
    case TreatmentField => f.treatment
    case DateField => f.date
    case TimeField => f.time
    case MessageField => f.message
  }

  /** `requiredFields`: everything except the message, in form order. */
  const RequiredFields: seq<BookingField> :=
    [FirstNameField, LastNameField, EmailField, PhoneField, TreatmentField, DateField, TimeField]

  /** `missingFields`: the required fields left empty, in form order. */
  function MissingFields(f: BookingForm): (missing: seq<BookingField>)
    ensures forall i :: 0 <= i < |missing| ==> missing[i] in RequiredFields && BookingGet(f, missing[i]) == ""
    ensures missing == [] <==> forall i :: 0 <= i < |RequiredFields| ==> BookingGet(f, RequiredFields[i]) != ""
  {
    Filter(RequiredFields, (g: BookingField) => BookingGet(f, g) == "")
  }

  /** Every field but the message is required, and the message is not: a form is complete
      exactly when its seven other fields are non-empty. */
  lemma CompleteIffRequiredFilled(f: BookingForm)
    ensures MissingFields(f) == [] <==> forall g :: g != MessageField ==> BookingGet(f, g) != ""
  {
    if MissingFields(f) == [] {
      forall g | g != MessageField ensures BookingGet(f, g) != ""
      {
        var i := match g
          case FirstNameField => 0 case LastNameField => 1 case EmailField => 2 case PhoneField => 3
          case TreatmentField => 4 case DateField => 5 case TimeField => 6;
        assert RequiredFields[i] == g;
      }
    }
  }

  // ---------------------------------------------------------------------------
  // The e-mail test `/^[^\s@]+@[^\s@]+\.[^\s@]+$/`
  // ---------------------------------------------------------------------------

  /** A character the class `[^\s@]` accepts. */
  predicate AddressChar(c: char)
  {
    !IsSpace(c) && c != '@'
  }

  /** A non-empty run of `[^\s@]`. */
  predicate AddressRun(s: string)
  {
    s != [] && forall i :: 0 <= i < |s| ==> AddressChar(s[i])
  }

  /** The domain part `[^\s@]+\.[^\s@]+`: a run with a dot neither first nor last. */
  predicate DottedRun(s: string)
  {
    AddressRun(s) && exists k :: 0 < k < |s| - 1 && s[k] == '.'
  }

  /** The test as the script runs it: split at the first '@'. An accepted address has at
      least five characters and no white space anywhere. */
  predicate IsEmail(s: string)
    ensures IsEmail(s) ==> |s| >= 5 && forall i :: 0 <= i < |s| ==> !IsSpace(s[i])
  {
    var (local, rest) := SplitFirst(s, '@');
    rest.Some? && AddressRun(local) && DottedRun(rest.value)
  }

  /** The pattern's own reading: three runs joined by '@' and '.'. */
  ghost predicate EmailShape(s: string)
  {
    exists a, b, c :: AddressRun(a) && AddressRun(b) && AddressRun(c) && s == a + "@" + b + "." + c
  }

  /** The split-based test accepts exactly the strings the pattern matches. */
  lemma IsEmailMatchesPattern(s: string)
    ensures IsEmail(s) <==> EmailShape(s)
  {
    if IsEmail(s) {
      AcceptedHasShape(s);
    }
    if EmailShape(s) {
      var a, b, c :| AddressRun(a) && AddressRun(b) && AddressRun(c) && s == a + "@" + b + "." + c;
      ShapeAccepted(a, b, c);
    }
  }

  /** An address the script accepts splits into the pattern's three runs. */
  lemma AcceptedHasShape(s: string)
    requires IsEmail(s)
    ensures EmailShape(s)
  {
    var (local, rest) := SplitFirst(s, '@');
    var r := rest.value;
    var k :| 0 < k < |r| - 1 && r[k] == '.';
    var b, c := r[..k], r[k + 1..];
    assert r == b + "." + c;
    assert forall i :: 0 <= i < |b| ==> b[i] == r[i];
    assert forall i :: 0 <= i < |c| ==> c[i] == r[k + 1 + i];
    assert AddressRun(b) && AddressRun(c);
    assert s == local + "@" + b + "." + c;
  }

  /** Three runs joined by '@' and '.' pass the script's test. */
  lemma ShapeAccepted(a: string, b: string, c: string)
    requires AddressRun(a) && AddressRun(b) && AddressRun(c)
    ensures IsEmail(a + "@" + b + "." + c)
  {
    var s := a + "@" + b + "." + c;
    var rest := b + "." + c;
    assert s == a + ['@'] + rest;
    assert '@' !in a by {
      forall i | 0 <= i < |a| ensures a[i] != '@' { assert AddressChar(a[i]); }
    }
    SplitFirstOfJoin(a, '@', rest);
    assert rest[|b|] == '.';
    forall i | 0 <= i < |rest| ensures AddressChar(rest[i])
    {
      if i < |b| { assert rest[i] == b[i]; }
      else if i > |b| { assert rest[i] == c[i - |b| - 1]; }
    }
    assert DottedRun(rest);
  }

  /** An accepted address holds exactly one '@'. */
  lemma EmailHasOneAt(s: string)
    requires IsEmail(s)
    ensures exists i :: 0 <= i < |s| && s[i] == '@' && '@' !in s[..i] && '@' !in s[i + 1..]
  {
    var (local, rest) := SplitFirst(s, '@');
    var i := |local|;
    assert s == local + ['@'] + rest.value;
    assert s[..i] == local && s[i + 1..] == rest.value && s[i] == '@';
    assert '@' !in rest.value by {
      forall j | 0 <= j < |rest.value| ensures rest.value[j] != '@' { assert AddressChar(rest.value[j]); }
    }
  }

  // ---------------------------------------------------------------------------
  // The date test
  // ---------------------------------------------------------------------------

  const DayMs := 86400000
  const MinuteMs := 60000

  /** `new Date("YYYY-MM-DD")` reads a date-only string as midnight UTC of that day. */
  function UtcMidnightMs(day: int): int
  {
    day * DayMs
  }

  /** `today.setHours(0, 0, 0, 0)`: midnight of the local day, for a zone `offsetMinutes` ahead
      of UTC (negative west of Greenwich). */
  function LocalMidnightMs(localDay: int, offsetMinutes: int): int
  {
    localDay * DayMs - offsetMinutes * MinuteMs
  }

  /** The check `selectedDate < today`. An invalid date (`None`) compares as NaN and is never
      earlier. */
  predicate BeforeToday(selectedMs: Option<int>, todayMidnightMs: int)
  {
    selectedMs.Some? && selectedMs.value < todayMidnightMs
  }

  /** Booking for the current local day is refused exactly west of Greenwich, where midnight
      UTC of the day comes before local midnight. */
  lemma TodayRefusedOnlyWestOfUtc(day: int, offsetMinutes: int)
    ensures BeforeToday(Some(UtcMidnightMs(day)), LocalMidnightMs(day, offsetMinutes)) <==> offsetMinutes < 0
  {
  }

  /** Every earlier day is refused in every real time zone (less than a day ahead of UTC). */
  lemma EarlierDayRefused(selectedDay: int, localDay: int, offsetMinutes: int)
    requires selectedDay < localDay && offsetMinutes < 24 * 60
    ensures BeforeToday(Some(UtcMidnightMs(selectedDay)), LocalMidnightMs(localDay, offsetMinutes))
  {
    assert UtcMidnightMs(selectedDay) <= UtcMidnightMs(localDay) - DayMs;
  }

  /** Every later day is accepted in every real time zone (less than a day behind UTC). */
  lemma LaterDayAccepted(selectedDay: int, localDay: int, offsetMinutes: int)
    requires selectedDay > localDay && offsetMinutes > -24 * 60
    ensures !BeforeToday(Some(UtcMidnightMs(selectedDay)), LocalMidnightMs(localDay, offsetMinutes))
  {
    assert UtcMidnightMs(selectedDay) >= UtcMidnightMs(localDay) + DayMs;
  }

  /** At or east of Greenwich the check reads as a comparison of day numbers: a day is
      refused exactly when it comes before the local day. */
  lemma DayReadingEastOfUtc(selectedDay: int, localDay: int, offsetMinutes: int)
    requires 0 <= offsetMinutes < 24 * 60
    ensures BeforeToday(Some(UtcMidnightMs(selectedDay)), LocalMidnightMs(localDay, offsetMinutes))
            <==> selectedDay < localDay
  {
    if selectedDay < localDay {
      EarlierDayRefused(selectedDay, localDay, offsetMinutes);
    } else if selectedDay > localDay {
      LaterDayAccepted(selectedDay, localDay, offsetMinutes);
    } else {
      TodayRefusedOnlyWestOfUtc(selectedDay, offsetMinutes);
    }
  }

  // ---------------------------------------------------------------------------
  // Booking
  // ---------------------------------------------------------------------------

  datatype BookingError = MissingRequired | InvalidEmail | PastDate

  /** The date test as the booking handler meets it, once the form has passed the required-field
      and e-mail tests: at or east of Greenwich it refuses exactly the earlier days, and the
      current day is refused exactly west of Greenwich. */
  lemma BookingDateReading(f: BookingForm, selectedDay: Option<int>, localDay: int, offsetMinutes: int)
    ensures var check := BookingCheck(f, DateFieldInstant(selectedDay), LocalMidnightMs(localDay, offsetMinutes));
            MissingFields(f) == [] && IsEmail(f.email) && selectedDay.Some? && 0 <= offsetMinutes < 24 * 60 ==>
              (check.Some? <==> selectedDay.value < localDay)
    ensures var check := BookingCheck(f, DateFieldInstant(selectedDay), LocalMidnightMs(localDay, offsetMinutes));
            MissingFields(f) == [] && IsEmail(f.email) && selectedDay == Some(localDay) ==>
              (check.Some? <==> offsetMinutes < 0)
  {
    if selectedDay.Some? {
      if 0 <= offsetMinutes < 24 * 60 {
        DayReadingEastOfUtc(selectedDay.value, localDay, offsetMinutes);
      }
      TodayRefusedOnlyWestOfUtc(localDay, offsetMinutes);
    }
  }

  /** `new Date(appointmentData.date)` for the day the date field names; a value it cannot
      read stays `None` (an invalid date). */
  function DateFieldInstant(day: Option<int>): Option<int>
  {
    if day.Some? then Some(UtcMidnightMs(day.value)) else None
  }

  /** The validation chain: the first failing test decides the message. */
  function BookingCheck(f: BookingForm, selectedMs: Option<int>, todayMidnightMs: int): (r: Option<BookingError>)
    ensures r == Some(MissingRequired) <==> MissingFields(f) != []
    ensures r == Some(InvalidEmail) <==> MissingFields(f) == [] && !IsEmail(f.email)
    ensures r == Some(PastDate) <==>
              MissingFields(f) == [] && IsEmail(f.email) && BeforeToday(selectedMs, todayMidnightMs)
  {
    if |MissingFields(f)| > 0 then Some(MissingRequired)
    else if !IsEmail(f.email) then Some(InvalidEmail)
    else if BeforeToday(selectedMs, todayMidnightMs) then Some(PastDate)
    else None
  }

  /** A stored appointment: the form, the booking time and the id. */
  datatype Appointment = Appointment(form: BookingForm, bookingTime: string, id: string)

  /** `'APT' + Date.now()` */
  function AppointmentId(nowMs: nat): (id: string)
    ensures |id| > 3 && id[..3] == "APT" && AllDigits(id[3..]) && DigitsValue(id[3..]) == nowMs
  {
    var digits := NatToString(nowMs);
    DigitsValueOfNatToString(nowMs);
    assert ("APT" + digits)[3..] == digits;
    "APT" + digits
  }

  /** Ids of bookings made at different instants differ. */
  lemma AppointmentIdsDistinct(t1: nat, t2: nat)
    requires t1 != t2
    ensures AppointmentId(t1) != AppointmentId(t2)
  {
  }

  /** `treatmentNames` */
  const TreatmentNames: map<string, string> := map[
    "vaman" := "Vaman (Therapeutic Vomiting)",
    "virechan" := "Virechan (Purgation Therapy)",
    "basti" := "Basti (Medicated Enema)",
    "nasya" := "Nasya (Nasal Therapy)",
    "raktamokshana" := "Raktamokshana (Bloodletting)"]

  /** `treatmentNames[key] || key`: the long name of a known key, the key itself otherwise. */
  function TreatmentName(key: string): (name: string)
    ensures key in TreatmentNames ==> name == TreatmentNames[key]
    ensures key !in TreatmentNames ==> name == key
    ensures name != "" <==> key != "" || key in TreatmentNames
  {
    if key in TreatmentNames && TreatmentNames[key] != "" then TreatmentNames[key] else key
  }

  /** The five select values get their long names. */
  lemma KnownTreatmentNames()
    ensures TreatmentName("vaman") == "Vaman (Therapeutic Vomiting)"
    ensures TreatmentName("basti") == "Basti (Medicated Enema)"
    ensures TreatmentName("raktamokshana") == "Raktamokshana (Bloodletting)"
    ensures TreatmentName("panchakarma") == "panchakarma"
  {
  }

  datatype BookingOutcome = Refused(error: BookingError) | Booked(appointment: Appointment, treatmentName: string)

  // ---------------------------------------------------------------------------
  // Login
  // ---------------------------------------------------------------------------

  datatype User = User(email: string, name: string, loginTime: string)

  /** `email.split('@')[0]`: everything before the first '@'. */
  function LoginName(email: string): (name: string)
    ensures '@' !in name && name <= email
    ensures '@' !in email ==> name == email
  {
    SplitFirst(email, '@').0
  }

  /** A full address logs in under its local part. */
  lemma LoginNameOfAddress(local: string, domain: string)
    requires '@' !in local
    ensures LoginName(local + "@" + domain) == local
  {
    SplitFirstOfJoin(local, '@', domain);
  }

  // ---------------------------------------------------------------------------
  // The time formatter
  // ---------------------------------------------------------------------------

  /** JavaScript's `a % b` for a positive divisor: the sign follows the dividend. */
  function JsRem(a: int, b: nat): (r: int)
    requires b > 0
    ensures -(b as int) < r < b
    ensures a >= 0 ==> r == a % b
    ensures a < 0 ==> r == -((-a) % b)
  {
    if a >= 0 then a % b else -((-a) % b)
  }

  /** `hour % 12 || 12`, NaN included: NaN and a zero remainder become 12. */
  function DisplayHour(hour: Option<int>): (d: int)
    ensures -12 < d <= 12 && d != 0
    ensures hour.Some? && 0 <= hour.value ==> 1 <= d <= 12 && d % 12 == hour.value % 12
  {
    if hour.None? then 12
    else
      var r := JsRem(hour.value, 12);
      if r == 0 then 12 else r
  }

  /** `hour >= 12 ? 'PM' : 'AM'`; NaN is not `>= 12`. */
  function Meridiem(hour: Option<int>): (m: string)
    ensures m == "PM" <==> hour.Some? && hour.value >= 12
    ensures m == "AM" <==> hour.None? || hour.value < 12
  {
    if hour.Some? && hour.value >= 12 then "PM" else "AM"
  }

  /** `const [hours, minutes] = timeString.split(':')`: the text before the first ':' and the
      one between it and the next. A string without ':' leaves `minutes` undefined, which the
      template prints as `undefined`. */
  function TimePieces(timeString: string): (pieces: (string, string))
    ensures ':' !in timeString ==> pieces == (timeString, "undefined")
  {
    var (hours, rest) := SplitFirst(timeString, ':');
    (hours, if rest.None? then "undefined" else SplitFirst(rest.value, ':').0)
  }

  /** `formatTime`: whatever the input, the text ends with the meridiem. */
  function FormatTime(timeString: string): (text: string)
    ensures |text| >= 3 && (text[|text| - 3..] == " AM" || text[|text| - 3..] == " PM")
  {
    var (hours, minutes) := TimePieces(timeString);
    var hour := ParseInt(hours);
    var front, meridiem := IntToString(DisplayHour(hour)) + ":" + minutes, Meridiem(hour);
    EndsWithMeridiem(front, meridiem);
    front + " " + meridiem
  }

  lemma EndsWithMeridiem(front: string, meridiem: string)
    requires meridiem == "AM" || meridiem == "PM"
    ensures var text := front + " " + meridiem;
            |text| >= 3 && (text[|text| - 3..] == " AM" || text[|text| - 3..] == " PM")
  {
    var text := front + " " + meridiem;
    assert text[|text| - 3..] == " " + meridiem;
  }

  /** For the "HH:MM" value of a time input the formatter gives the twelve-hour reading. */
  lemma FormatTimeOfClock(hh: string, mm: string)
    requires |hh| == 2 && AllDigits(hh) && DigitsValue(hh) < 24
    requires ':' !in mm
    ensures var h := DigitsValue(hh);
            FormatTime(hh + ":" + mm)
            == NatToString(if h % 12 == 0 then 12 else h % 12) + ":" + mm + " " + (if h >= 12 then "PM" else "AM")
  {
    assert ':' !in hh by {
      forall i | 0 <= i < |hh| ensures hh[i] != ':' { assert IsDigit(hh[i]); }
    }
    SplitFirstOfJoin(hh, ':', mm);
    SplitFirstNoSeparator(mm, ':');
    assert hh + "" == hh;
    ParseIntOfDigits(hh, "");
  }

  /** The twelve-hour reading with its meridiem determines the hour: 12 AM is 0, 12 PM is 12. */
  function To24(displayHour: int, pm: bool): int
  {
    displayHour % 12 + (if pm then 12 else 0)
  }

  lemma ClockRoundTrip(hour: int)
    requires 0 <= hour < 24
    ensures To24(DisplayHour(Some(hour)), Meridiem(Some(hour)) == "PM") == hour
  {
  }

  // ---------------------------------------------------------------------------
  // The page state
  // ---------------------------------------------------------------------------

  class Site {
    /** `ayursutra_appointments` in browser storage. */
    var appointments: seq<Appointment>
    /** `ayursutra_user` in browser storage. */
    var storedUser: Option<User>
    var currentUser: Option<User>
    var isLoggedIn: bool

    /** The logged-in flag and the user are set and cleared together, and the user in memory
        is the one in storage. */
    predicate Valid()
      reads this
    {
      (isLoggedIn <==> currentUser.Some?) && (currentUser.Some? ==> storedUser == currentUser)
    }

    /** The script as loaded, before `initializeApp`, over whatever storage holds. */
    constructor (stored: Option<User>, savedAppointments: seq<Appointment>)
      ensures Valid()
      ensures storedUser == stored && appointments == savedAppointments
      ensures currentUser.None? && !isLoggedIn
    {
      storedUser, appointments := stored, savedAppointments;
      currentUser, isLoggedIn := None, false;
    }

    /** `initializeApp`: a saved user is restored. */
    method Initialize()
      requires Valid()
      modifies this`currentUser, this`isLoggedIn
      ensures Valid()
      ensures storedUser.Some? ==> currentUser == storedUser && isLoggedIn
      ensures storedUser.None? ==> currentUser == old(currentUser) && isLoggedIn == old(isLoggedIn)
    {
      if storedUser.Some? {
        currentUser := storedUser;
        isLoggedIn := true;
      }
    }

    /** `handleLogin`: any non-empty e-mail and password log in, under the e-mail's local part. */
    method HandleLogin(email: string, password: string, nowIso: string) returns (ok: bool)
      requires Valid()
      modifies this`storedUser, this`currentUser, this`isLoggedIn
      ensures Valid()
      ensures ok <==> email != "" && password != ""
      ensures ok ==> currentUser == Some(User(email, LoginName(email), nowIso)) && isLoggedIn
      ensures !ok ==> storedUser == old(storedUser) && currentUser == old(currentUser)
                      && isLoggedIn == old(isLoggedIn)
    {
      ok := email != "" && password != "";
      if ok {
        var user := User(email, LoginName(email), nowIso);
        storedUser := Some(user);
        currentUser := Some(user);
        isLoggedIn := true;
      }
    }

    /** `logout`: storage and memory forget the user. */
    method Logout()
      requires Valid()
      modifies this`storedUser, this`currentUser, this`isLoggedIn
      ensures Valid()
      ensures storedUser.None? && currentUser.None? && !isLoggedIn
    {
      storedUser, currentUser, isLoggedIn := None, None, false;
    }

    /** `handleAppointmentBooking`: a form passing the chain is appended to storage with a
        clock-based id; a refused one changes nothing. `selectedDay` is the day the date field
        names (`None` for a value `new Date` cannot read), which `new Date` turns into midnight
        UTC; `localDay` and `offsetMinutes` are the browser's current day and time zone, from
        which `setHours(0, 0, 0, 0)` makes local midnight. */
    method HandleAppointmentBooking(f: BookingForm, selectedDay: Option<int>, localDay: int, offsetMinutes: int,
                                    nowMs: nat, nowIso: string) returns (outcome: BookingOutcome)
      requires Valid()
      modifies this`appointments
      ensures Valid()
      ensures var check := BookingCheck(f, DateFieldInstant(selectedDay), LocalMidnightMs(localDay, offsetMinutes));
              (outcome.Refused? <==> check.Some?)
              && (outcome.Refused? ==> outcome.error == check.value && appointments == old(appointments))
      ensures outcome.Booked? ==>
                outcome.appointment == Appointment(f, nowIso, AppointmentId(nowMs))
                && outcome.treatmentName == TreatmentName(f.treatment)
                && appointments == old(appointments) + [outcome.appointment]
    {
      var check := BookingCheck(f, DateFieldInstant(selectedDay), LocalMidnightMs(localDay, offsetMinutes));
      if check.Some? {
        outcome := Refused(check.value);
      } else {
        var appointment := Appointment(f, nowIso, AppointmentId(nowMs));
        appointments := appointments + [appointment];
        outcome := Booked(appointment, TreatmentName(f.treatment));
      }
    }
  }
}
