/**
 * The hospital detail page: the hospital the URL parameter names, the doctors affiliated with
 * it, the doctor count and the booking button label. The two service calls are foreign code;
 * their results (or their failure) come in as parameters.
 */
module HospitalDetail {
  import opened Wrappers
  import opened Text
  import opened Seqs
  import opened Entities

  /** `hospitalData?.hospitalName`: undefined when the hospital was not found. */
  function NameOf(hospital: Option<Hospital>): Option<string>
  {
    if hospital.Some? then hospital.value.hospitalName else None
  }

  /** `doctor.hospitalAffiliation === hospitalData?.hospitalName` over all doctors. */
  function AffiliatedDoctors(hospital: Option<Hospital>, allDoctors: seq<Doctor>): (r: seq<Doctor>)
    ensures |r| <= |allDoctors|
    ensures forall i :: 0 <= i < |r| ==> r[i] in allDoctors && r[i].hospitalAffiliation == NameOf(hospital)
    ensures forall i :: 0 <= i < |allDoctors| && allDoctors[i].hospitalAffiliation == NameOf(hospital) ==>
              allDoctors[i] in r
  {
    Filter(allDoctors, (d: Doctor) => d.hospitalAffiliation == NameOf(hospital))
  }

  /** A named hospital lists exactly the doctors whose affiliation is that name, in fetch order. */
  lemma NamedHospitalDoctors(h: Hospital, name: string, allDoctors: seq<Doctor>)
    requires h.hospitalName == Some(name)
    ensures AffiliatedDoctors(Some(h), allDoctors)
         == Filter(allDoctors, (d: Doctor) => d.hospitalAffiliation == Some(name))
    ensures IsSubsequence(AffiliatedDoctors(Some(h), allDoctors), allDoctors)
  {
    FilterCongruent(allDoctors, (d: Doctor) => d.hospitalAffiliation == NameOf(Some(h)),
                    (d: Doctor) => d.hospitalAffiliation == Some(name));
    FilterIsSubsequence(allDoctors, (d: Doctor) => d.hospitalAffiliation == NameOf(Some(h)));
  }

  /** A hospital record without a name is credited with exactly the doctors that have no
      affiliation, since both sides of the comparison are `undefined`. */
  lemma UnnamedHospitalGetsUnaffiliated(h: Option<Hospital>, allDoctors: seq<Doctor>)
    requires h.None? || h.value.hospitalName.None?
    ensures AffiliatedDoctors(h, allDoctors) == Filter(allDoctors, (d: Doctor) => d.hospitalAffiliation.None?)
  {
    FilterCongruent(allDoctors, (d: Doctor) => d.hospitalAffiliation == NameOf(h),
                    (d: Doctor) => d.hospitalAffiliation.None?);
  }

  /** The page state once loading is over. */
  datatype HospitalPageState = HospitalPageState(loading: bool, hospital: Option<Hospital>, doctors: seq<Doctor>)

  /** The effect of `fetchHospitalData`. `byId` is the outcome of the lookup by id (`None` when it
      threw, `Some(None)` when it returned null); `allDoctors` that of the doctor fetch, which
      only runs after a lookup that did not throw. An empty parameter returns before either. */
  function LoadHospital(hospitalId: string, byId: Option<Option<Hospital>>, allDoctors: Option<seq<Doctor>>)
    : (s: HospitalPageState)
    ensures s.loading <==> hospitalId == ""
    ensures s.hospital.Some? ==> hospitalId != "" && byId == Some(s.hospital)
    ensures hospitalId != "" && byId.Some? ==> s.hospital == byId.value
    ensures s.doctors != [] ==> byId.Some? && allDoctors.Some?
                                && s.doctors == AffiliatedDoctors(byId.value, allDoctors.value)
    ensures hospitalId != "" && byId.Some? && allDoctors.Some? ==>
              s.doctors == AffiliatedDoctors(byId.value, allDoctors.value)
  {
    if hospitalId == "" then HospitalPageState(true, None, [])
    else match byId
      case None => HospitalPageState(false, None, [])
      case Some(hospital) =>
        match allDoctors
        case None => HospitalPageState(false, hospital, [])
        case Some(ds) => HospitalPageState(false, hospital, AffiliatedDoctors(hospital, ds))
  }

  /** `{doctors.length}+` */
  function DoctorCountLabel(doctors: seq<Doctor>): (caption: string)
    ensures |caption| >= 2 && caption[|caption| - 1] == '+'
    ensures AllDigits(caption[..|caption| - 1]) && DigitsValue(caption[..|caption| - 1]) == |doctors|
  {
    var digits := NatToString(|doctors|);
    DigitsValueOfNatToString(|doctors|);
    assert (digits + "+")[..|digits|] == digits;
    digits + "+"
  }

  /** `Book with Dr. {doctor.fullName?.split(' ')[0]}`: the first word of the name, and nothing
      when the doctor has no name. */
  function BookButtonLabel(fullName: Option<string>): (caption: string)
    ensures |caption| >= 14 && caption[..14] == "Book with Dr. "
    ensures fullName.None? ==> caption == "Book with Dr. "
    ensures fullName.Some? ==> ' ' !in caption[14..] && caption[14..] <= fullName.value
    ensures fullName.Some? ==> caption[14..] == fullName.value || caption[14..] + " " <= fullName.value
  {
    var word := if fullName.Some? then SplitFirst(fullName.value, ' ').0 else "";
    assert ("Book with Dr. " + word)[14..] == word;
    "Book with Dr. " + word
  }

  /** For "First Last" the button names the first name. */
  lemma BookButtonFirstName(first: string, rest: string)
    requires ' ' !in first
    ensures BookButtonLabel(Some(first + " " + rest)) == "Book with Dr. " + first
  {
    SplitFirstOfJoin(first, ' ', rest);
  }

  /** A one-word name is shown whole. */
  lemma BookButtonOneWord(name: string)
    requires ' ' !in name
    ensures BookButtonLabel(Some(name)) == "Book with Dr. " + name
  {
  }
}
