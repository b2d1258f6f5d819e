/**
 * The four-step appointment wizard: personal details, appointment details, phone
 * verification by a one-time code, confirmation. The code is drawn once when the page mounts
 * and is only ever shown in an alert; `Math.random()` and the clock come in as parameters, the data
 * service's answer to the mount fetch as the argument of `FinishLoading`.
 *
 * An action the page only offers in some states (a button rendered only on one step, an
 * input disabled after verification) is a `requires` on its method.
 */
module AppointmentWizard {
  import opened Wrappers
  import opened Text
  import opened Entities

  /** The fourteen half-hour slots of the time select. */
  const TimeSlots: seq<string> := [
    "09:00 AM", "09:30 AM", "10:00 AM", "10:30 AM", "11:00 AM", "11:30 AM",
    "02:00 PM", "02:30 PM", "03:00 PM", "03:30 PM", "04:00 PM", "04:30 PM",
    "05:00 PM", "05:30 PM"]

  /** The select offers fourteen different slots. */
  lemma TimeSlotsDistinct()
    ensures |TimeSlots| == 14
    ensures forall i, j :: 0 <= i < j < |TimeSlots| ==> TimeSlots[i] != TimeSlots[j]
  {
  }

  /** The wizard's form. The preferred date is a day number or absent (`undefined`). */
  datatype FormData = FormData(
    firstName: string, lastName: string, email: string, phone: string,
    dateOfBirth: string, address: string,
    hospital: string, treatment: string, preferredDate: Option<int>, preferredTime: string,
    symptoms: string, medicalHistory: string)

  const EmptyForm := FormData("", "", "", "", "", "", "", "", None, "", "", "")

  /** The string-valued fields; the preferred date is set by the calendar alone. */
  datatype Field = FirstName | LastName | Email | Phone | DateOfBirth | Address
                 | HospitalChoice | TreatmentChoice | PreferredTime | Symptoms | MedicalHistory

  /** The step on which a field's input is rendered. */
  function StepOf(field: Field): (step: nat)
    ensures step == 1 || step == 2
    ensures step == 1 <==> field in {FirstName, LastName, Email, Phone, DateOfBirth, Address}
  {
    match field
    case FirstName | LastName | Email | Phone | DateOfBirth | Address => 1
    case _ => 2
  }

  /** The fields typed into rather than chosen from a select. */
  predicate IsTextInput(field: Field)
  {
    field !in {HospitalChoice, TreatmentChoice, PreferredTime}
  }

  function Get(f: FormData, field: Field): string
  {
    match field
    case FirstName => f.firstName
    case LastName => f.lastName
    case Email => f.email
    case Phone => f.phone
    case DateOfBirth => f.dateOfBirth
    case Address => f.address
    case HospitalChoice => f.hospital
    case TreatmentChoice => f.treatment
    case PreferredTime => f.preferredTime
    case Symptoms => f.symptoms
    case MedicalHistory => f.medicalHistory
  }

  /** `setFormData(prev => ({ ...prev, [field]: value }))` */
  function Set(f: FormData, field: Field, value: string): (r: FormData)
    ensures r.preferredDate == f.preferredDate
    ensures forall g :: Get(r, g) == if g == field then value else Get(f, g)
  {
    match field
    case FirstName => f.(firstName := value)
    case LastName => f.(lastName := value)
    case Email => f.(email := value)
    case Phone => f.(phone := value)
    case DateOfBirth => f.(dateOfBirth := value)
    case Address => f.(address := value)
    case HospitalChoice => f.(hospital := value)
    case TreatmentChoice => f.(treatment := value)
    case PreferredTime => f.(preferredTime := value)
    case Symptoms => f.(symptoms := value)
    case MedicalHistory => f.(medicalHistory := value)
  }

  /** The fields step 1 insists on. */
  const PersonalRequired: set<Field> := {FirstName, LastName, Email, Phone}

  /** The text fields step 2 insists on; the date is required too. */
  const DetailsRequired: set<Field> := {HospitalChoice, TreatmentChoice, PreferredTime}

  /** The gate out of step 1: names, e-mail and phone; birth date and address are optional. */
  predicate PersonalComplete(f: FormData)
  {
    f.firstName != "" && f.lastName != "" && f.email != "" && f.phone != ""
  }

  /** The gate out of step 2: hospital, treatment, date and time; the notes are optional. */
  predicate DetailsComplete(f: FormData)
  {
    f.hospital != "" && f.treatment != "" && f.preferredDate.Some? && f.preferredTime != ""
  }

  /** Step 1 can be left exactly when every field it insists on is filled. */
  lemma PersonalGateFields(f: FormData)
    ensures PersonalComplete(f) <==> forall g :: g in PersonalRequired ==> Get(f, g) != ""
  {
    if forall g :: g in PersonalRequired ==> Get(f, g) != "" {
      assert Get(f, FirstName) != "" && Get(f, LastName) != "" && Get(f, Email) != "" && Get(f, Phone) != "";
    }
  }

  /** Step 2 can be left exactly when a date is chosen and every field it insists on is filled. */
  lemma DetailsGateFields(f: FormData)
    ensures DetailsComplete(f) <==> f.preferredDate.Some? && forall g :: g in DetailsRequired ==> Get(f, g) != ""
  {
    if forall g :: g in DetailsRequired ==> Get(f, g) != "" {
      assert Get(f, HospitalChoice) != "" && Get(f, TreatmentChoice) != "" && Get(f, PreferredTime) != "";
    }
  }

  /** Birth date, address, symptoms and medical history are optional: what is typed into them
      never opens or closes a gate. */
  lemma OptionalFieldsNeverGate(f: FormData, field: Field, value: string)
    requires field !in PersonalRequired && field !in DetailsRequired
    ensures PersonalComplete(Set(f, field, value)) <==> PersonalComplete(f)
    ensures DetailsComplete(Set(f, field, value)) <==> DetailsComplete(f)
  {
  }

  /** Editing a field of one step never changes whether the other step's gate is passed. */
  lemma EditKeepsOtherGate(f: FormData, field: Field, value: string)
    ensures StepOf(field) == 2 ==> (PersonalComplete(Set(f, field, value)) <==> PersonalComplete(f))
    ensures StepOf(field) == 1 ==> (DetailsComplete(Set(f, field, value)) <==> DetailsComplete(f))
  {
    var r := Set(f, field, value);
    assert Get(r, FirstName) == Get(f, FirstName) || field == FirstName;
    assert Get(r, LastName) == Get(f, LastName) || field == LastName;
    assert Get(r, Email) == Get(f, Email) || field == Email;
    assert Get(r, Phone) == Get(f, Phone) || field == Phone;
    assert Get(r, HospitalChoice) == Get(f, HospitalChoice) || field == HospitalChoice;
    assert Get(r, TreatmentChoice) == Get(f, TreatmentChoice) || field == TreatmentChoice;
    assert Get(r, PreferredTime) == Get(f, PreferredTime) || field == PreferredTime;
  }

  // ---------------------------------------------------------------------------
  // The calendar
  // ---------------------------------------------------------------------------

  const DayMs := 86400000

  /** `disabled={(date) => date < new Date()}`: a calendar day is its local midnight, compared
      with the current instant, `msSinceMidnight` into day `today`. */
  function CalendarDisabled(day: int, today: int, msSinceMidnight: nat): (disabled: bool)
    requires msSinceMidnight < DayMs
    ensures disabled <==> day * DayMs < today * DayMs + msSinceMidnight
  {
    day < today || (day == today && msSinceMidnight > 0)
  }

  /** Earlier days are never offered, later days always are. */
  lemma CalendarPastAndFuture(day: int, today: int, msSinceMidnight: nat)
    requires msSinceMidnight < DayMs
    ensures day < today ==> CalendarDisabled(day, today, msSinceMidnight)
    ensures day > today ==> !CalendarDisabled(day, today, msSinceMidnight)
  {
  }

  /** The current day itself is offered only at the stroke of midnight. */
  lemma CalendarToday(today: int, msSinceMidnight: nat)
    requires msSinceMidnight < DayMs
    ensures !CalendarDisabled(today, today, msSinceMidnight) <==> msSinceMidnight == 0
  {
  }

  // ---------------------------------------------------------------------------
  // The one-time code
  // ---------------------------------------------------------------------------

  /** `Math.floor(100000 + Math.random() * 900000)` for a draw `r` in [0, 1). */
  function OtpNumber(r: real): (n: nat)
    requires 0.0 <= r < 1.0
    ensures 100000 <= n <= 999999
  {
    (100000.0 + r * 900000.0).Floor
  }

  /** The code as the page keeps it: its decimal string, always six digits without a leading zero. */
  function OtpCode(r: real): (code: string)
    requires 0.0 <= r < 1.0
    ensures |code| == 6 && AllDigits(code) && code[0] != '0'
    ensures DigitsValue(code) == OtpNumber(r)
  {
    SixDigitNumeral(OtpNumber(r));
    DigitsValueOfNatToString(OtpNumber(r));
    NatToString(OtpNumber(r))
  }

  /** A code of six digits, as the six-character input can hold. */
  predicate WellFormedCode(code: string)
  {
    |code| == 6 && AllDigits(code)
  }

  // ---------------------------------------------------------------------------
  // The page state
  // ---------------------------------------------------------------------------

  class Wizard {
    var loading: bool
    var hospitals: seq<Hospital>
    var treatments: seq<Treatment>
    var step: nat
    var otpSent: bool
    var otpVerified: bool
    var otp: string
    const generatedOtp: string
    var formData: FormData

    /** What holds between any two user actions. */
    predicate Valid()
      reads this
    {
      && 1 <= step <= 4
      && WellFormedCode(generatedOtp)
      && |otp| <= 6
      && (otpVerified ==> otpSent && otp == generatedOtp)
      && (step >= 2 ==> PersonalComplete(formData))
      && (step >= 3 ==> DetailsComplete(formData))
      && (step == 4 ==> otpVerified)
      && (formData.preferredTime == "" || formData.preferredTime in TimeSlots)
      && (formData.hospital == "" || exists i :: 0 <= i < |hospitals| && hospitals[i].id == formData.hospital)
      && (formData.treatment == "" || exists i :: 0 <= i < |treatments| && treatments[i].id == formData.treatment)
    }

    /** Mount: step 1, an empty form, a fresh code, the spinner until the fetch ends. */
    constructor (r: real)
      requires 0.0 <= r < 1.0
      ensures Valid()
      ensures loading && hospitals == [] && treatments == []
      ensures step == 1 && !otpSent && !otpVerified && otp == "" && formData == EmptyForm
      ensures generatedOtp == OtpCode(r)
    {
      loading, hospitals, treatments := true, [], [];
      step, otpSent, otpVerified, otp := 1, false, false, "";
      generatedOtp := OtpCode(r);
      formData := EmptyForm;
    }

    /** The mount fetch ends: both lists on success, none if either call failed. */
    method FinishLoading(fetched: Option<(seq<Hospital>, seq<Treatment>)>)
      requires Valid() && loading && formData == EmptyForm
      modifies this`loading, this`hospitals, this`treatments
      ensures Valid() && !loading
      ensures fetched.Some? ==> hospitals == fetched.value.0 && treatments == fetched.value.1
      ensures fetched.None? ==> hospitals == [] && treatments == []
    {
      if fetched.Some? {
        hospitals, treatments := fetched.value.0, fetched.value.1;
      } else {
        hospitals, treatments := [], [];
      }
      loading := false;
    }

    /** `handleInputChange` from a text input, rendered only on its own step. */
    method EditField(field: Field, value: string)
      requires Valid() && !loading
      requires IsTextInput(field) && StepOf(field) == step
      modifies this`formData
      ensures Valid()
      ensures formData == Set(old(formData), field, value)
    {
      EditKeepsOtherGate(formData, field, value);
      formData := Set(formData, field, value);
    }

    /** The hospital select of step 2: its options are the fetched hospitals' ids. */
    method ChooseHospital(id: string)
      requires Valid() && !loading && step == 2
      requires exists i :: 0 <= i < |hospitals| && hospitals[i].id == id
      modifies this`formData
      ensures Valid()
      ensures formData == Set(old(formData), HospitalChoice, id)
    {
      EditKeepsOtherGate(formData, HospitalChoice, id);
      formData := Set(formData, HospitalChoice, id);
    }

    /** The treatment select of step 2: its options are the fetched treatments' ids. */
    method ChooseTreatment(id: string)
      requires Valid() && !loading && step == 2
      requires exists i :: 0 <= i < |treatments| && treatments[i].id == id
      modifies this`formData
      ensures Valid()
      ensures formData == Set(old(formData), TreatmentChoice, id)
    {
      EditKeepsOtherGate(formData, TreatmentChoice, id);
      formData := Set(formData, TreatmentChoice, id);
    }

    /** The time select of step 2. */
    method ChooseTime(slot: string)
      requires Valid() && !loading && step == 2 && slot in TimeSlots
      modifies this`formData
      ensures Valid()
      ensures formData == Set(old(formData), PreferredTime, slot)
    {
      EditKeepsOtherGate(formData, PreferredTime, slot);
      formData := Set(formData, PreferredTime, slot);
    }

    /** The calendar of step 2: a click on an enabled day selects it; a click on the selected
        day clears the selection. */
    method SelectDate(day: Option<int>, today: int, msSinceMidnight: nat)
      requires Valid() && !loading && step == 2 && msSinceMidnight < DayMs
      requires day.Some? ==> !CalendarDisabled(day.value, today, msSinceMidnight)
      modifies this`formData
      ensures Valid()
      ensures formData == old(formData).(preferredDate := day)
      ensures formData.preferredDate.Some? ==>
                formData.preferredDate.value > today
                || (formData.preferredDate.value == today && msSinceMidnight == 0)
    {
      formData := formData.(preferredDate := day);
    }

    /** `nextStep`, from the Next button of steps 1 and 2: the step's gate must pass. */
    method NextStep() returns (advanced: bool)
      requires Valid() && !loading && (step == 1 || step == 2)
      modifies this`step
      ensures Valid()
      ensures old(step) == 1 ==> (advanced <==> PersonalComplete(formData))
      ensures old(step) == 2 ==> (advanced <==> DetailsComplete(formData))
      ensures step == if advanced then old(step) + 1 else old(step)
    {
      advanced := if step == 1 then PersonalComplete(formData) else DetailsComplete(formData);
      if advanced {
        step := step + 1;
      }
    }

    /** `prevStep`, from the Previous button of steps 2 and 3: nothing of the form or the
        verification is undone. */
    method PrevStep()
      requires Valid() && !loading && (step == 2 || step == 3)
      modifies this`step
      ensures Valid()
      ensures step == old(step) - 1
    {
      step := step - 1;
    }

    /** `sendOtp`, from the button shown on step 3 until a code was sent. The phone check
        cannot fail there, since step 1's gate required a phone number. */
    method SendOtp() returns (sent: bool)
      requires Valid() && !loading && step == 3 && !otpSent
      modifies this`otpSent
      ensures Valid()
      ensures sent <==> formData.phone != ""
      ensures sent && otpSent
    {
      sent := formData.phone != "";
      if sent {
        otpSent := true;
      }
    }

    /** Typing into the code input: shown once the code was sent, disabled once verified,
        at most six characters. */
    method EnterOtp(value: string)
      requires Valid() && !loading && step == 3 && otpSent && !otpVerified && |value| <= 6
      modifies this`otp
      ensures Valid()
      ensures otp == value
    {
      otp := value;
    }

    /** `verifyOtp`: only the exact code verifies. */
    method VerifyOtp() returns (ok: bool)
      requires Valid() && !loading && step == 3 && otpSent && !otpVerified
      modifies this`otpVerified
      ensures Valid()
      ensures ok <==> otp == generatedOtp
      ensures otpVerified == ok
    {
      ok := otp == generatedOtp;
      if ok {
        otpVerified := true;
      }
    }

    /** `handleSubmit`, from the Confirm button of step 3: refused until the phone is verified. */
    method HandleSubmit() returns (booked: bool)
      requires Valid() && !loading && step == 3
      modifies this`step
      ensures Valid()
      ensures booked <==> otpVerified
      ensures step == if booked then 4 else 3
    {
      booked := otpVerified;
      if booked {
        step := 4;
      }
    }

    /** "Book Another Appointment" on step 4: back to step 1 with the form, the code and the
        verification as they were, so the next pass needs no new verification. */
    method BookAnother()
      requires Valid() && !loading && step == 4
      modifies this`step
      ensures Valid()
      ensures step == 1 && otpVerified
    {
      step := 1;
    }
  }

  /** A confirmed booking is complete: at step 4 every required field is filled, the time is
      one of the slots and the hospital and treatment are fetched records. */
  lemma ConfirmedBookingComplete(w: Wizard)
    requires w.Valid() && w.step == 4
    ensures PersonalComplete(w.formData) && DetailsComplete(w.formData)
    ensures w.formData.preferredTime in TimeSlots
    ensures exists i :: 0 <= i < |w.hospitals| && w.hospitals[i].id == w.formData.hospital
    ensures exists i :: 0 <= i < |w.treatments| && w.treatments[i].id == w.formData.treatment
    ensures w.otpVerified && w.otp == w.generatedOtp
  {
  }
}
