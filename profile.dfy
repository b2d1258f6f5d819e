/**
 * The profile page: the edit form seeded from the signed-in member, the edit/cancel/save
 * toggle and the avatar initials. Saving only leaves edit mode; nothing is written back to
 * the member.
 */
module Profile {
  import opened Wrappers
  import opened Text
  import opened Entities

  datatype ProfileForm = ProfileForm(
    firstName: string, lastName: string, nickname: string, email: string,
    phone: string, title: string, bio: string, address: string)

  datatype ProfileField = FirstNameField | LastNameField | NicknameField | EmailField
                        | PhoneField | TitleField | BioField | AddressField

  function FormGet(f: ProfileForm, field: ProfileField): string
  {
    match field
    case FirstNameField => f.firstName
    case LastNameField => f.lastName
    case NicknameField => f.nickname
    case EmailField => f.email
    case PhoneField => f.phone
    case TitleField => f.title
    case BioField => f.bio
    case AddressField => f.address
  }

  /** `setFormData(prev => ({ ...prev, [field]: value }))` */
  function FormSet(f: ProfileForm, field: ProfileField, value: string): (r: ProfileForm)
    ensures forall g :: FormGet(r, g) == if g == field then value else FormGet(f, g)
  {
    match field
    case FirstNameField => f.(firstName := value)
    case LastNameField => f.(lastName := value)
    case NicknameField => f.(nickname := value)
    case EmailField => f.(email := value)
    case PhoneField => f.(phone := value)
    case TitleField => f.(title := value)
    case BioField => f.(bio := value)
    case AddressField => f.(address := value)
  }

  /** The form as first rendered: each member field or '' when it is missing; the biography and
      the address always start empty. */
  function InitialForm(m: Option<Member>): (f: ProfileForm)
    ensures f.firstName == OrEmpty(FirstNameOf(m)) && f.lastName == OrEmpty(LastNameOf(m))
    ensures f.nickname == OrEmpty(NicknameOf(m)) && f.email == OrEmpty(LoginEmailOf(m))
    ensures f.phone == OrEmpty(FirstPhoneOf(m)) && f.title == OrEmpty(TitleOf(m))
    ensures f.bio == "" && f.address == ""
    ensures m.None? ==> forall g :: FormGet(f, g) == ""
  {
    ProfileForm(OrEmpty(FirstNameOf(m)), OrEmpty(LastNameOf(m)), OrEmpty(NicknameOf(m)),
                OrEmpty(LoginEmailOf(m)), OrEmpty(FirstPhoneOf(m)), OrEmpty(TitleOf(m)), "", "")
  }

  /** `str.charAt(0)`: the first character, or '' for the empty string. */
  function CharAt0(s: string): (r: string)
    ensures |r| == if s == [] then 0 else 1
    ensures r <= s
  {
    if s == [] then "" else [s[0]]
  }

  /** `getInitials`: the first letters of the first and the last name, in capitals. */
  function Initials(m: Option<Member>): (r: string)
    ensures |r| <= 2
    ensures forall i :: 0 <= i < |r| ==> r[i] == UpperChar(r[i])
    ensures |r| == |CharAt0(OrEmpty(FirstNameOf(m)))| + |CharAt0(OrEmpty(LastNameOf(m)))|
    ensures var first, last := OrEmpty(FirstNameOf(m)), OrEmpty(LastNameOf(m));
            r == (if first != "" then [UpperChar(first[0])] else [])
                 + (if last != "" then [UpperChar(last[0])] else [])
  {
    Upper(CharAt0(OrEmpty(FirstNameOf(m))) + CharAt0(OrEmpty(LastNameOf(m))))
  }

  /** A member with both names gets two initials, the capitals of the two first letters. */
  lemma InitialsOfFullName(m: Option<Member>, first: string, last: string)
    requires FirstNameOf(m) == Some(first) && LastNameOf(m) == Some(last)
    requires first != "" && last != ""
    ensures Initials(m) == [UpperChar(first[0]), UpperChar(last[0])]
  {
    var s := CharAt0(first) + CharAt0(last);
    assert s == [first[0], last[0]];
  }

  /** The page state. */
  class ProfilePage {
    var isEditing: bool
    var formData: ProfileForm

    constructor (m: Option<Member>)
      ensures !isEditing && formData == InitialForm(m)
    {
      isEditing := false;
      formData := InitialForm(m);
    }

    /** "Edit Profile": the inputs appear. */
    method StartEditing()
      requires !isEditing
      modifies this`isEditing
      ensures isEditing
    {
      isEditing := true;
    }

    /** `handleInputChange`: only reachable while the inputs are shown. Every field but the
        e-mail has an input; the e-mail is only displayed, so it keeps its initial value. */
    method HandleInputChange(field: ProfileField, value: string)
      requires isEditing && field != EmailField
      modifies this`formData
      ensures formData == FormSet(old(formData), field, value)
      ensures FormGet(formData, field) == value
      ensures formData.email == old(formData).email
    {
      formData := FormSet(formData, field, value);
    }

    /** "Cancel" leaves edit mode but keeps the edited values: reopening the form shows them. */
    method Cancel()
      requires isEditing
      modifies this`isEditing
      ensures !isEditing && formData == old(formData)
    {
      isEditing := false;
    }

    /** `handleSave`: leaves edit mode and keeps the form as it is; nothing else is stored. */
    method HandleSave()
      requires isEditing
      modifies this`isEditing
      ensures !isEditing && formData == old(formData)
    {
      isEditing := false;
    }
  }
}
