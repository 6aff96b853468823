/** The participant record shared by the registration, edit and list pages:
    eight text fields and the gender, which the gender select supplies as a
    number (0 Male, 1 Female, 2 Other) but which may arrive as any value. */
module Participants {
  import opened Common
  import opened Strings

  datatype ParticipantForm = ParticipantForm(
    fullName: string,
    gender: JsValue,
    bloodGroup: string,
    licenseNumber: string,
    dateOfBirth: string,
    instagramID: string,
    address: string,
    email: string,
    phoneNumber: string)

  /** `emptyForm`: gender 0 and every text field empty. */
  function EmptyForm(): (f: ParticipantForm)
    ensures f.gender == Num(0)
    ensures forall t :: TextOf(f, t) == ""
  {
    ParticipantForm("", Num(0), "", "", "", "", "", "", "")
  }

  /** The inputs bound to a text value, by their `name`. */
  datatype TextField = FullName | BloodGroup | LicenseNumber | DateOfBirth | InstagramID | Address | Email | PhoneNumber

  function TextOf(f: ParticipantForm, field: TextField): string {
    match field
    case FullName => f.fullName
    case BloodGroup => f.bloodGroup
    case LicenseNumber => f.licenseNumber
    case DateOfBirth => f.dateOfBirth
    case InstagramID => f.instagramID
    case Address => f.address
    case Email => f.email
    case PhoneNumber => f.phoneNumber
  }

  /** One change event: a text input, or the gender select with its raw value. */
  datatype FieldInput = TextInput(field: TextField, text: string) | GenderInput(value: JsValue)

  /** `{ ...prev, [name]: value }` for a text field. */
  function SetText(f: ParticipantForm, field: TextField, text: string): (r: ParticipantForm)
    ensures TextOf(r, field) == text
    ensures forall g :: g != field ==> TextOf(r, g) == TextOf(f, g)
    ensures r.gender == f.gender
  {
    match field
    case FullName => f.(fullName := text)
    case BloodGroup => f.(bloodGroup := text)
    case LicenseNumber => f.(licenseNumber := text)
    case DateOfBirth => f.(dateOfBirth := text)
    case InstagramID => f.(instagramID := text)
    case Address => f.(address := text)
    case Email => f.(email := text)
    case PhoneNumber => f.(phoneNumber := text)
  }

  /** The labels of the gender select, indexed by the gender's value. */
  const GenderLabels := ["Male", "Female", "Other"]
}
