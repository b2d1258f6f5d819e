/**
 * The admin dashboard: the shared search box over the hospital and doctor lists, the two
 * "add" dialogs and the patient-ID generator. The data service is foreign code: the lists it
 * returns and whether a call fails come in as parameters.
 */
module AdminDashboard {
  import opened Wrappers
  import opened Text
  import opened Seqs
  import opened Entities
  import opened Search
  import HospitalsPage
  import HospitalDetail

  // ---------------------------------------------------------------------------
  // Search
  // ---------------------------------------------------------------------------

  /** The admin hospital filter looks at the name only. */
  predicate AdminHospitalMatches(h: Hospital, searchTerm: string)
  {
    FieldMatches(h.hospitalName, searchTerm)
  }

  /** The doctor filter looks at the full name and the specialization. */
  predicate DoctorMatches(d: Doctor, searchTerm: string)
  {
    FieldMatches(d.fullName, searchTerm) || FieldMatches(d.specialization, searchTerm)
  }

  /** `filteredHospitals` of the admin dashboard. */
  function FilterHospitalsByName(hospitals: seq<Hospital>, searchTerm: string): (r: seq<Hospital>)
    ensures |r| <= |hospitals|
    ensures forall i :: 0 <= i < |r| ==> r[i] in hospitals && AdminHospitalMatches(r[i], searchTerm)
    ensures forall i :: 0 <= i < |hospitals| && AdminHospitalMatches(hospitals[i], searchTerm) ==>
              hospitals[i] in r
  {
    Filter(hospitals, h => AdminHospitalMatches(h, searchTerm))
  }

  /** `filteredDoctors` of the admin dashboard. */
  function FilterDoctors(doctors: seq<Doctor>, searchTerm: string): (r: seq<Doctor>)
    ensures |r| <= |doctors|
    ensures forall i :: 0 <= i < |r| ==> r[i] in doctors && DoctorMatches(r[i], searchTerm)
    ensures forall i :: 0 <= i < |doctors| && DoctorMatches(doctors[i], searchTerm) ==>
              doctors[i] in r
  {
    Filter(doctors, d => DoctorMatches(d, searchTerm))
  }

  /** The address never decides whether the admin list shows a hospital. */
  lemma AdminFilterIgnoresAddress(h: Hospital, address: Option<string>, searchTerm: string)
    ensures AdminHospitalMatches(h.(address := address), searchTerm) <==> AdminHospitalMatches(h, searchTerm)
  {
  }

  /** The admin list is never longer than the public hospital list for the same term: it is a
      subsequence of it, because matching on the name alone is one of the public page's two tests. */
  lemma AdminListWithinPublicList(hospitals: seq<Hospital>, searchTerm: string)
    ensures IsSubsequence(FilterHospitalsByName(hospitals, searchTerm),
                          HospitalsPage.FilteredHospitals(hospitals, searchTerm))
  {
    FilterMonotone(hospitals, h => AdminHospitalMatches(h, searchTerm),
                   h => HospitalsPage.HospitalMatches(h, searchTerm));
  }

  /** A hospital found only by its address on the public page is missing from the admin list. */
  lemma AddressOnlyMatchHidden(hospitals: seq<Hospital>, searchTerm: string, i: nat)
    requires i < |hospitals|
    requires !FieldMatches(hospitals[i].hospitalName, searchTerm)
    requires FieldMatches(hospitals[i].address, searchTerm)
    ensures hospitals[i] in HospitalsPage.FilteredHospitals(hospitals, searchTerm)
    ensures hospitals[i] !in FilterHospitalsByName(hospitals, searchTerm)
  {
  }

  /** The doctor list keeps the order of the fetched doctors and only narrows as the term grows. */
  lemma DoctorSearchNarrows(doctors: seq<Doctor>, longer: string, shorter: string)
    requires Includes(longer, shorter)
    ensures IsSubsequence(FilterDoctors(doctors, longer), FilterDoctors(doctors, shorter))
    ensures IsSubsequence(FilterDoctors(doctors, longer), doctors)
  {
    forall i | 0 <= i < |doctors| && DoctorMatches(doctors[i], longer)
      ensures DoctorMatches(doctors[i], shorter)
    {
      var d := doctors[i];
      if FieldMatches(d.fullName, longer) {
        MatchNarrows(d.fullName, longer, shorter);
      } else {
        MatchNarrows(d.specialization, longer, shorter);
      }
    }
    FilterMonotone(doctors, d => DoctorMatches(d, longer), d => DoctorMatches(d, shorter));
    FilterIsSubsequence(doctors, d => DoctorMatches(d, longer));
  }

  // ---------------------------------------------------------------------------
  // The "add" forms
  // ---------------------------------------------------------------------------

  datatype HospitalDraft = HospitalDraft(
    hospitalName: string, address: string, phoneNumber: string,
    email: string, description: string, websiteUrl: string)

  datatype HospitalField = HospitalNameField | AddressField | PhoneNumberField | EmailField
                         | DescriptionField | WebsiteUrlField

  const EmptyHospitalDraft := HospitalDraft("", "", "", "", "", "")

  function HospitalDraftGet(d: HospitalDraft, f: HospitalField): string
  {
    match f
    case HospitalNameField => d.hospitalName
    case AddressField => d.address
    case PhoneNumberField => d.phoneNumber
    case EmailField => d.email
    case DescriptionField => d.description
    case WebsiteUrlField => d.websiteUrl
  }

  /** `setNewHospital({...newHospital, [field]: value})`: the named field takes the value and
      every other field keeps its own. */
  function HospitalDraftSet(d: HospitalDraft, f: HospitalField, value: string): (r: HospitalDraft)
    ensures forall g :: HospitalDraftGet(r, g) == if g == f then value else HospitalDraftGet(d, g)
  {
    match f
    case HospitalNameField => d.(hospitalName := value)
    case AddressField => d.(address := value)
    case PhoneNumberField => d.(phoneNumber := value)
    case EmailField => d.(email := value)
    case DescriptionField => d.(description := value)
    case WebsiteUrlField => d.(websiteUrl := value)
  }

  datatype DoctorDraft = DoctorDraft(
    fullName: string, specialization: string, contactEmail: string,
    yearsOfExperience: string, bio: string, hospitalAffiliation: string)

  datatype DoctorField = FullNameField | SpecializationField | ContactEmailField
                       | YearsOfExperienceField | BioField | HospitalAffiliationField

  const EmptyDoctorDraft := DoctorDraft("", "", "", "", "", "")

  function DoctorDraftGet(d: DoctorDraft, f: DoctorField): string
  {
    match f
    case FullNameField => d.fullName
    case SpecializationField => d.specialization
    case ContactEmailField => d.contactEmail
    case YearsOfExperienceField => d.yearsOfExperience
    case BioField => d.bio
    case HospitalAffiliationField => d.hospitalAffiliation
  }

  /** `setNewDoctor({...newDoctor, [field]: value})` */
  function DoctorDraftSet(d: DoctorDraft, f: DoctorField, value: string): (r: DoctorDraft)
    ensures forall g :: DoctorDraftGet(r, g) == if g == f then value else DoctorDraftGet(d, g)
  {
    match f
    case FullNameField => d.(fullName := value)
    case SpecializationField => d.(specialization := value)
    case ContactEmailField => d.(contactEmail := value)
    case YearsOfExperienceField => d.(yearsOfExperience := value)
    case BioField => d.(bio := value)
    case HospitalAffiliationField => d.(hospitalAffiliation := value)
  }

  /** `parseInt(newDoctor.yearsOfExperience) || 0`: NaN and zero both become 0. */
  function ExperienceYears(input: string): (years: int)
    ensures ParseInt(input).None? ==> years == 0
    ensures ParseInt(input).Some? ==> years == ParseInt(input).value
  {
    match ParseInt(input)
    case None => 0
    case Some(n) => if n == 0 then 0 else n
  }

  /** An entry that does not begin with a number is stored as 0 years. */
  lemma NonNumericExperienceIsZero(input: string)
    requires input == [] || (!IsSpace(input[0]) && !IsDigit(input[0]) && input[0] != '-' && input[0] != '+')
    ensures ExperienceYears(input) == 0
  {
    ParseIntNaN(input);
  }

  /** A plain number typed into the field is stored as that number, and a trailing unit such
      as " years" is ignored. */
  lemma NumericExperienceKept(n: nat, rest: string)
    requires rest == [] || !IsDigit(rest[0])
    ensures ExperienceYears(NatToString(n) + rest) == n
  {
    ParseIntOfNatToString(n, rest);
  }

  /** The field of a saved hospital record that a draft field is written to. */
  function HospitalRecordGet(h: Hospital, f: HospitalField): Option<string>
  {
    match f
    case HospitalNameField => h.hospitalName
    case AddressField => h.address
    case PhoneNumberField => h.phoneNumber
    case EmailField => h.email
    case DescriptionField => h.description
    case WebsiteUrlField => h.websiteUrl
  }

  /** The record sent to the service: the fresh id, and every draft field, empty or not, stored
      as a present string under the same name. */
  function NewHospitalRecord(d: HospitalDraft, uuid: string): (h: Hospital)
    ensures h.id == uuid
    ensures forall f :: HospitalRecordGet(h, f) == Some(HospitalDraftGet(d, f))
  {
    Hospital(uuid, Some(d.hospitalName), Some(d.address), Some(d.phoneNumber),
             Some(d.email), Some(d.description), Some(d.websiteUrl))
  }

  /** The text field of a saved doctor record that a draft field is written to; the years of
      experience are stored as a number and have no text field. */
  function DoctorRecordGet(doc: Doctor, f: DoctorField): Option<string>
    requires f != YearsOfExperienceField
  {
    match f
    case FullNameField => doc.fullName
    case SpecializationField => doc.specialization
    case ContactEmailField => doc.contactEmail
    case BioField => doc.bio
    case HospitalAffiliationField => doc.hospitalAffiliation
  }

  /** The record sent to the service: the fresh id, every text field of the draft stored under
      the same name, and the years of experience coerced to a number. */
  function NewDoctorRecord(d: DoctorDraft, uuid: string): (doc: Doctor)
    ensures doc.id == uuid
    ensures doc.yearsOfExperience == Some(ExperienceYears(d.yearsOfExperience))
    ensures forall f :: f != YearsOfExperienceField ==> DoctorRecordGet(doc, f) == Some(DoctorDraftGet(d, f))
  {
    Doctor(uuid, Some(d.fullName), Some(d.specialization), Some(d.contactEmail),
           Some(ExperienceYears(d.yearsOfExperience)), Some(d.bio), Some(d.hospitalAffiliation))
  }

  /** An added hospital is found by the admin search exactly when its name contains the term,
      whatever was typed into its other fields. */
  lemma NewHospitalFoundByName(d: HospitalDraft, uuid: string, searchTerm: string)
    ensures AdminHospitalMatches(NewHospitalRecord(d, uuid), searchTerm)
            <==> Includes(Lower(d.hospitalName), Lower(searchTerm))
  {
  }

  /** The affiliation select offers `hospital.hospitalName || ''` for each fetched hospital. */
  predicate AffiliationOffered(hospitals: seq<Hospital>, value: string)
  {
    exists i :: 0 <= i < |hospitals| && OrEmpty(hospitals[i].hospitalName) == value
  }

  /** A doctor added with a named hospital chosen in the select is listed on that hospital's
      page once the doctors are fetched again. */
  lemma NewDoctorListedAtChosenHospital(d: DoctorDraft, uuid: string, h: Hospital, allDoctors: seq<Doctor>)
    requires h.hospitalName.Some? && d.hospitalAffiliation == h.hospitalName.value
    requires NewDoctorRecord(d, uuid) in allDoctors
    ensures NewDoctorRecord(d, uuid) in HospitalDetail.AffiliatedDoctors(Some(h), allDoctors)
  {
    var rec := NewDoctorRecord(d, uuid);
    var i :| 0 <= i < |allDoctors| && allDoctors[i] == rec;
    assert allDoctors[i].hospitalAffiliation == HospitalDetail.NameOf(Some(h));
  }

  /** Choosing a hospital without a name stores the affiliation "", which that hospital's page
      (comparing with `undefined`) never lists. */
  lemma NamelessHospitalChoiceNotListed(d: DoctorDraft, uuid: string, h: Hospital, allDoctors: seq<Doctor>)
    requires h.hospitalName.None? && d.hospitalAffiliation == OrEmpty(h.hospitalName)
    ensures NewDoctorRecord(d, uuid) !in HospitalDetail.AffiliatedDoctors(Some(h), allDoctors)
  {
  }

  /** How an "add" call went: the create call threw, the refresh call threw, or both succeeded
      and the refresh returned this list. */
  datatype AddOutcome<T> = CreateFailed | RefreshFailed | Refreshed(items: seq<T>)

  // ---------------------------------------------------------------------------
  // Patient IDs
  // ---------------------------------------------------------------------------

  /** `str.slice(-6)`: the last six characters, or the whole string when it is shorter. */
  function LastSix(s: string): (r: string)
    ensures |r| == if |s| >= 6 then 6 else |s|
    ensures r == s[|s| - |r|..]
  {
    if |s| >= 6 then s[|s| - 6..] else s
  }

  /** `Math.floor(Math.random() * 1000)` for a draw `r` of `Math.random()` in [0, 1). */
  function RandomBelowThousand(r: real): (n: nat)
    requires 0.0 <= r < 1.0
    ensures n < 1000
  {
    (r * 1000.0).Floor
  }

  /** `generatePatientId`: "AYR", the last six digits of the clock in milliseconds and the
      random number padded to three digits. The clock digits read as the clock modulo 10^6, the
      last three as the random number; the ID has twelve characters exactly when the clock has
      six digits or more. */
  function PatientId(nowMs: nat, r: real): (id: string)
    requires 0.0 <= r < 1.0
    ensures 7 <= |id| <= 12 && id[..3] == "AYR" && AllDigits(id[3..])
    ensures DigitsValue(id[3..|id| - 3]) == nowMs % 1000000
    ensures DigitsValue(id[|id| - 3..]) == RandomBelowThousand(r)
    ensures |id| == 12 <==> nowMs >= 100000
  {
    var n := RandomBelowThousand(r);
    var stamp := LastSix(NatToString(nowMs));
    var pad := PadStart(NatToString(n), 3, '0');
    StampValue(nowMs);
    PadValue(n);
    IdSlices(stamp, pad);
    "AYR" + stamp + pad
  }

  /** Where the parts of an ID sit. */
  lemma IdSlices(stamp: string, pad: string)
    requires AllDigits(stamp) && AllDigits(pad) && |pad| == 3
    ensures var id := "AYR" + stamp + pad;
            |id| == |stamp| + 6 && id[..3] == "AYR" && AllDigits(id[3..])
            && id[3..|id| - 3] == stamp && id[|id| - 3..] == pad
  {
    var id := "AYR" + stamp + pad;
    assert id[3..] == stamp + pad;
    assert id[3..|id| - 3] == stamp;
    assert id[|id| - 3..] == pad;
  }

  /** The clock part of the ID: one to six digits, six exactly from 100000 on, reading as the
      clock modulo 10^6. */
  lemma StampValue(nowMs: nat)
    ensures var stamp := LastSix(NatToString(nowMs));
            1 <= |stamp| <= 6 && AllDigits(stamp) && DigitsValue(stamp) == nowMs % 1000000
            && (|stamp| == 6 <==> nowMs >= 100000)
  {
    assert Pow10(5) == 100000;
    NatToStringLength(nowMs, 5);
    if |NatToString(nowMs)| >= 6 {
      LongStampValue(nowMs);
    } else {
      DigitsValueOfNatToString(nowMs);
    }
  }

  /** A clock of six digits or more: its last six digits read as the clock modulo 10^6. */
  lemma LongStampValue(nowMs: nat)
    requires |NatToString(nowMs)| >= 6
    ensures var stamp := LastSix(NatToString(nowMs));
            AllDigits(stamp) && DigitsValue(stamp) == nowMs % 1000000
  {
    assert Pow10(6) == 1000000;
    TrailingDigitsValue(NatToString(nowMs), 6);
    DigitsValueOfNatToString(nowMs);
  }

  /** The random part of the ID: three digits reading as the number. */
  lemma PadValue(n: nat)
    requires n < 1000
    ensures var pad := PadStart(NatToString(n), 3, '0');
            |pad| == 3 && AllDigits(pad) && DigitsValue(pad) == n
  {
    assert Pow10(3) == 1000;
    NatToStringLength(n, 3);
    PaddedValue(NatToString(n), 3);
    DigitsValueOfNatToString(n);
  }

  /** The last `k` digits of a numeral read as its value modulo 10^k. */
  lemma {:induction false} TrailingDigitsValue(s: string, k: nat)
    requires AllDigits(s) && k <= |s|
    ensures AllDigits(s[|s| - k..]) && DigitsValue(s[|s| - k..]) == DigitsValue(s) % Pow10(k)
    decreases k
  {
    if k == 0 {
      assert s[|s| - k..] == [];
    } else {
      var front, c := s[..|s| - 1], s[|s| - 1];
      var tail := front[|front| - (k - 1)..];
      assert s[|s| - k..] == tail + [c];
      TrailingDigitsValue(front, k - 1);
      DigitsValueSnoc(tail, c);
      assert Pow10(k) == 10 * Pow10(k - 1);
      ModAppend(DigitsValue(front), DigitValue(c), Pow10(k - 1));
    }
  }

  /** Appending a decimal digit commutes with reduction modulo a power of ten: taking `a`
      modulo `p` and appending `d` gives `10a + d` modulo `10p`. */
  lemma ModAppend(a: nat, d: nat, p: nat)
    requires d < 10 && p >= 1
    ensures (a % p) * 10 + d == (10 * a + d) % (10 * p)
  {
    var x, b := a / p, a % p;
    assert 10 * a + d == (10 * p) * x + (10 * b + d) by {
      assert a == p * x + b;
    }
    ModUnique(10 * a + d, 10 * p, x, 10 * b + d);
  }

  /** Euclidean division is unique. */
  lemma ModUnique(n: int, m: int, a: int, c: int)
    requires m > 0 && 0 <= c < m && n == m * a + c
    ensures n % m == c
  {
    var a', c' := n / m, n % m;
    assert n == m * a' + c';
    if a > a' {
      MulAtLeast(m, a - a');
    } else if a < a' {
      MulAtLeast(m, a' - a);
    }
  }

  /** A positive multiple of `m` is at least `m`. */
  lemma {:induction false} MulAtLeast(m: int, k: int)
    requires m > 0 && k >= 1
    ensures m * k >= m
    decreases k
  {
    if k > 1 {
      MulAtLeast(m, k - 1);
      assert m * k == m * (k - 1) + m;
    }
  }

  /** Zero-padding a numeral keeps it a numeral of the same value. */
  lemma PaddedValue(s: string, width: nat)
    requires AllDigits(s)
    ensures AllDigits(PadStart(s, width, '0')) && DigitsValue(PadStart(s, width, '0')) == DigitsValue(s)
  {
    if |s| < width {
      ZeroPrefixValue(width - |s|, s);
    }
  }

  /** Leading zeros do not change what a numeral reads. */
  lemma {:induction false} ZeroPrefixValue(n: nat, s: string)
    requires AllDigits(s)
    ensures AllDigits(Repeat('0', n) + s) && DigitsValue(Repeat('0', n) + s) == DigitsValue(s)
  {
    if n == 0 {
      assert Repeat('0', 0) + s == s;
    } else {
      var tail := Repeat('0', n - 1) + s;
      ZeroPrefixValue(n - 1, s);
      assert Repeat('0', n) + s == "0" + tail;
      DigitsValueLeadingZero(tail);
    }
  }

  // ---------------------------------------------------------------------------
  // The page state
  // ---------------------------------------------------------------------------

  class Dashboard {
    var hospitals: seq<Hospital>
    var doctors: seq<Doctor>
    var searchTerm: string
    var newHospital: HospitalDraft
    var newDoctor: DoctorDraft
    var isAddHospitalOpen: bool
    var isAddDoctorOpen: bool

    /** The state at mount, before the first fetch completes. */
    constructor ()
      ensures hospitals == [] && doctors == [] && searchTerm == ""
      ensures newHospital == EmptyHospitalDraft && newDoctor == EmptyDoctorDraft
      ensures !isAddHospitalOpen && !isAddDoctorOpen
    {
      hospitals, doctors, searchTerm := [], [], "";
      newHospital, newDoctor := EmptyHospitalDraft, EmptyDoctorDraft;
      isAddHospitalOpen, isAddDoctorOpen := false, false;
    }

    /** The hospitals list shown on the hospitals tab. */
    function FilteredHospitals(): seq<Hospital>
      reads this
    {
      FilterHospitalsByName(hospitals, searchTerm)
    }

    /** The doctors list shown on the doctors tab. */
    function FilteredDoctors(): seq<Doctor>
      reads this
    {
      FilterDoctors(doctors, searchTerm)
    }

    /** The mount fetch (`Promise.all` of both lists): on success both lists are replaced; if
        either call fails, both stay as they were. */
    method FetchData(fetched: Option<(seq<Hospital>, seq<Doctor>)>)
      modifies this`hospitals, this`doctors
      ensures fetched.Some? ==> hospitals == fetched.value.0 && doctors == fetched.value.1
      ensures fetched.None? ==> hospitals == old(hospitals) && doctors == old(doctors)
    {
      if fetched.Some? {
        hospitals, doctors := fetched.value.0, fetched.value.1;
      }
    }

    /** Typing into either search box: the one term drives both lists. */
    method SetSearchTerm(term: string)
      modifies this`searchTerm
      ensures searchTerm == term
      ensures FilteredHospitals() == FilterHospitalsByName(hospitals, term)
      ensures FilteredDoctors() == FilterDoctors(doctors, term)
    {
      searchTerm := term;
    }

    method SetAddHospitalOpen(open: bool)
      modifies this`isAddHospitalOpen
      ensures isAddHospitalOpen == open
    {
      isAddHospitalOpen := open;
    }

    method SetAddDoctorOpen(open: bool)
      modifies this`isAddDoctorOpen
      ensures isAddDoctorOpen == open
    {
      isAddDoctorOpen := open;
    }

    /** An input of the "add hospital" dialog. */
    method EditHospital(f: HospitalField, value: string)
      requires isAddHospitalOpen
      modifies this`newHospital
      ensures newHospital == HospitalDraftSet(old(newHospital), f, value)
    {
      newHospital := HospitalDraftSet(newHospital, f, value);
    }

    /** An input of the "add doctor" dialog; the affiliation comes from the select, which offers
        the fetched hospitals' names. */
    method EditDoctor(f: DoctorField, value: string)
      requires isAddDoctorOpen
      requires f == HospitalAffiliationField ==> AffiliationOffered(hospitals, value)
      modifies this`newDoctor
      ensures newDoctor == DoctorDraftSet(old(newDoctor), f, value)
    {
      newDoctor := DoctorDraftSet(newDoctor, f, value);
    }

    /** `handleAddHospital`: sends the draft with a fresh id; only when the create and the
        refresh both succeed is the list replaced, the draft cleared and the dialog closed. */
    method AddHospital(uuid: string, outcome: AddOutcome<Hospital>) returns (sent: Hospital)
      requires isAddHospitalOpen
      modifies this`hospitals, this`newHospital, this`isAddHospitalOpen
      ensures sent == NewHospitalRecord(old(newHospital), uuid)
      ensures outcome.Refreshed? ==>
                hospitals == outcome.items && newHospital == EmptyHospitalDraft && !isAddHospitalOpen
      ensures !outcome.Refreshed? ==>
                hospitals == old(hospitals) && newHospital == old(newHospital)
                && isAddHospitalOpen == old(isAddHospitalOpen)
    {
      sent := NewHospitalRecord(newHospital, uuid);
      if outcome.Refreshed? {
        hospitals := outcome.items;
        newHospital := EmptyHospitalDraft;
        isAddHospitalOpen := false;
      }
    }

    /** `handleAddDoctor`: like `AddHospital`, with the years of experience coerced to a number. */
    method AddDoctor(uuid: string, outcome: AddOutcome<Doctor>) returns (sent: Doctor)
      requires isAddDoctorOpen
      modifies this`doctors, this`newDoctor, this`isAddDoctorOpen
      ensures sent == NewDoctorRecord(old(newDoctor), uuid)
      ensures sent.yearsOfExperience == Some(ExperienceYears(old(newDoctor).yearsOfExperience))
      ensures outcome.Refreshed? ==>
                doctors == outcome.items && newDoctor == EmptyDoctorDraft && !isAddDoctorOpen
      ensures !outcome.Refreshed? ==>
                doctors == old(doctors) && newDoctor == old(newDoctor)
                && isAddDoctorOpen == old(isAddDoctorOpen)
    {
      sent := NewDoctorRecord(newDoctor, uuid);
      if outcome.Refreshed? {
        doctors := outcome.items;
        newDoctor := EmptyDoctorDraft;
        isAddDoctorOpen := false;
      }
    }
  }
}
