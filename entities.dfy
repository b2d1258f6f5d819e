/**
 * The records of the data collections (the three collection interfaces under src/entities)
 * and the signed-in member as the pages read it. Every field the interfaces mark optional (`field?: string`) is an `Option`:
 * reading a missing field gives `undefined`, and `undefined?.toLowerCase()` is again
 * `undefined`, which is why a missing field never matches a search.
 * The `_createdDate`, `_updatedDate` and image fields are not read by any modelled rule and
 * are left out.
 */
module Entities {
  import opened Wrappers

  datatype Treatment = Treatment(
    id: string,
    treatmentName: Option<string>,
    cardDescription: Option<string>,
    detailedExplanation: Option<string>,
    slug: Option<string>)

  datatype Hospital = Hospital(
    id: string,
    hospitalName: Option<string>,
    address: Option<string>,
    phoneNumber: Option<string>,
    email: Option<string>,
    description: Option<string>,
    websiteUrl: Option<string>)

  datatype Doctor = Doctor(
    id: string,
    fullName: Option<string>,
    specialization: Option<string>,
    contactEmail: Option<string>,
    yearsOfExperience: Option<int>,
    bio: Option<string>,
    hospitalAffiliation: Option<string>)

  /** The parts of the signed-in member that the header and the profile page read. */
  datatype Contact = Contact(firstName: Option<string>, lastName: Option<string>, phones: Option<seq<string>>)
  datatype Profile = Profile(nickname: Option<string>, title: Option<string>)
  datatype Member = Member(contact: Option<Contact>, profile: Option<Profile>, loginEmail: Option<string>)

  /** `member?.contact?.firstName` */
  function FirstNameOf(m: Option<Member>): Option<string>
  {
    if m.Some? && m.value.contact.Some? then m.value.contact.value.firstName else None
  }

  /** `member?.contact?.lastName` */
  function LastNameOf(m: Option<Member>): Option<string>
  {
    if m.Some? && m.value.contact.Some? then m.value.contact.value.lastName else None
  }

  /** `member?.profile?.nickname` */
  function NicknameOf(m: Option<Member>): Option<string>
  {
    if m.Some? && m.value.profile.Some? then m.value.profile.value.nickname else None
  }

  /** `member?.profile?.title` */
  function TitleOf(m: Option<Member>): Option<string>
  {
    if m.Some? && m.value.profile.Some? then m.value.profile.value.title else None
  }

  /** `member?.loginEmail` */
  function LoginEmailOf(m: Option<Member>): Option<string>
  {
    if m.Some? then m.value.loginEmail else None
  }

  /** `member?.contact?.phones?.[0]`: undefined also when the list is empty. */
  function FirstPhoneOf(m: Option<Member>): Option<string>
  {
    if m.Some? && m.value.contact.Some? && m.value.contact.value.phones.Some?
       && |m.value.contact.value.phones.value| > 0
    then Some(m.value.contact.value.phones.value[0])
    else None
  }

  /** `x || ''` on an optional string: `undefined` and `''` both give `''`. */
  function OrEmpty(x: Option<string>): (r: string)
    ensures x.Some? ==> r == x.value
    ensures x.None? ==> r == ""
  {
    x.GetOr("")
  }

  /** `x || fallback`: a missing or empty string falls through to the fallback. */
  function OrElse(x: Option<string>, fallback: string): (r: string)
    ensures r == fallback <==> x.None? || x.value == "" || x.value == fallback
    ensures r != fallback ==> x == Some(r)
  {
    if x.Some? && x.value != "" then x.value else fallback
  }
}
