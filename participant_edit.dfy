/** The participant edit page: which record it edits, how a loaded record is
    normalised, the change handler that coerces the gender to a number, the
    save payload and where the page goes when it closes. */
module ParticipantEdit {
  import opened Common
  import opened Strings
  import opened Participants

  const ParticipantsPath := "/participants"
  const LoadFailed := "Load failed"
  const UpdateFailed := "Update failed"
  const Updated := "Updated!"

  /** `propId || paramId`: the id passed by the list when it is truthy, else
      the route's `:id` parameter. */
  function ResolveId(propId: Option<string>, paramId: Option<string>): (id: Option<string>)
    ensures propId.Some? && propId.value != "" ==> id == propId
    ensures propId.None? || propId.value == "" ==> id == paramId
  {
    if propId.Some? && propId.value != "" then propId else paramId
  }

  /** A record as the backend returns it: `dateOfBirth` may be missing, and
      `gender` may be a number or its text. */
  datatype LoadedRecord = LoadedRecord(
    fullName: string,
    gender: JsValue,
    bloodGroup: string,
    licenseNumber: string,
    dateOfBirth: Option<string>,
    instagramID: string,
    address: string,
    email: string,
    phoneNumber: string)

  /** `data.dateOfBirth?.slice(0, 10) || ""`: the day part of a stored
      timestamp, or "" when there is none. */
  function DayPart(dateOfBirth: Option<string>): (d: string)
    ensures |d| <= 10
    ensures dateOfBirth.None? ==> d == ""
    ensures dateOfBirth.Some? ==> |d| <= |dateOfBirth.value| && d == dateOfBirth.value[..|d|]
    ensures dateOfBirth.Some? && |dateOfBirth.value| >= 10 ==> |d| == 10
    ensures dateOfBirth.Some? && |dateOfBirth.value| < 10 ==> d == dateOfBirth.value
  {
    match dateOfBirth
    case None => ""
    case Some(s) => if |s| <= 10 then s else s[..10]
  }

  /** `{ ...data, gender: Number(data.gender), dateOfBirth: ... }`. */
  function Normalise(data: LoadedRecord): (f: ParticipantForm)
    ensures f.gender == ToNumber(data.gender) && !f.gender.Str?
    ensures f.dateOfBirth == DayPart(data.dateOfBirth)
    ensures f.fullName == data.fullName && f.bloodGroup == data.bloodGroup && f.licenseNumber == data.licenseNumber
    ensures f.instagramID == data.instagramID && f.address == data.address
    ensures f.email == data.email && f.phoneNumber == data.phoneNumber
  {
    ParticipantForm(data.fullName, ToNumber(data.gender), data.bloodGroup, data.licenseNumber,
                    DayPart(data.dateOfBirth), data.instagramID, data.address, data.email, data.phoneNumber)
  }

  /** `handleChange`: `[name]: name === "gender" ? Number(value) : value`. */
  function EditChange(f: ParticipantForm, input: FieldInput): (r: ParticipantForm)
    ensures input.TextInput? ==> r == SetText(f, input.field, input.text)
    ensures input.GenderInput? ==> r == f.(gender := ToNumber(input.value))
  {
    match input
    case TextInput(field, text) => SetText(f, field, text)
    case GenderInput(value) => f.(gender := ToNumber(value))
  }

  /** The gender on this page is never text: loading converts it and so does
      every change, so the form keeps it a number or NaN. */
  lemma EditChangeKeepsGenderNumeric(f: ParticipantForm, input: FieldInput)
    requires !f.gender.Str?
    ensures !EditChange(f, input).gender.Str?
  {
  }

  /** Selecting the gender a record already holds changes nothing. */
  lemma EditChangeSameGender(f: ParticipantForm)
    requires !f.gender.Str?
    ensures EditChange(f, GenderInput(f.gender)) == f
  {
  }

  /** The `dateOfBirth` sent: `null` when the field is empty, else the
      timestamp of midnight UTC of the entered day. */
  datatype DateValue = Null | MidnightUtc(day: string)

  /** The body of the save: `{ ...form, dateOfBirth: ... }`, the form's
      fields with the entered date replaced by its converted value. */
  datatype SavePayload = SavePayload(
    fullName: string,
    gender: JsValue,
    bloodGroup: string,
    licenseNumber: string,
    dateOfBirth: DateValue,
    instagramID: string,
    address: string,
    email: string,
    phoneNumber: string)

  function PayloadOf(f: ParticipantForm): (p: SavePayload)
    ensures p.fullName == f.fullName && p.gender == f.gender && p.bloodGroup == f.bloodGroup
    ensures p.licenseNumber == f.licenseNumber && p.instagramID == f.instagramID
    ensures p.address == f.address && p.email == f.email && p.phoneNumber == f.phoneNumber
    ensures p.dateOfBirth == Null <==> f.dateOfBirth == ""
    ensures p.dateOfBirth.MidnightUtc? ==> p.dateOfBirth.day == f.dateOfBirth
  {
    SavePayload(f.fullName, f.gender, f.bloodGroup, f.licenseNumber,
                if f.dateOfBirth != "" then MidnightUtc(f.dateOfBirth) else Null,
                f.instagramID, f.address, f.email, f.phoneNumber)
  }

  /** The body loses nothing of the form: two forms give the same body
      exactly when they are equal. */
  lemma PayloadDeterminesForm(f: ParticipantForm, g: ParticipantForm)
    ensures PayloadOf(f) == PayloadOf(g) <==> f == g
  {
  }

  /** How the page closes: the `onClose` callback when one was given, else a
      navigation to the participants list. */
  datatype CloseAction = CallOnClose | NavigateTo(path: string)

  function CloseTarget(hasOnClose: bool): (c: CloseAction)
    ensures hasOnClose <==> c == CallOnClose
    ensures !hasOnClose ==> c == NavigateTo(ParticipantsPath)
  {
    if hasOnClose then CallOnClose else NavigateTo(ParticipantsPath)
  }

  class ParticipantEditPage {
    const id: Option<string>
    const hasOnClose: bool
    var form: ParticipantForm
    var msg: Snackbar

    /** The gender is kept numeric (see `EditChangeKeepsGenderNumeric`). */
    predicate Valid()
      reads this
    {
      !form.gender.Str?
    }

    constructor (propId: Option<string>, paramId: Option<string>, hasOnClose: bool)
      ensures Valid()
      ensures id == ResolveId(propId, paramId) && this.hasOnClose == hasOnClose
      ensures form == EmptyForm() && !msg.open
    {
      id := ResolveId(propId, paramId);
      this.hasOnClose := hasOnClose;
      form := EmptyForm();
      msg := ClosedSnackbar(Success);
    }

    /** The fetch of record `id`. */
    method Load(outcome: Response<LoadedRecord>)
      requires Valid()
      modifies this
      ensures Valid()
      ensures outcome.Ok? ==> form == Normalise(outcome.data) && msg == old(msg)
      ensures outcome.Failed? ==> form == old(form) && msg == Show(ErrorText(outcome.message, LoadFailed), Error)
    {
      match outcome
      case Ok(data) =>
        form := Normalise(data);
      case Failed(message) =>
        msg := Show(ErrorText(message, LoadFailed), Error);
    }

    /** `handleChange`. */
    method HandleChange(input: FieldInput)
      requires Valid()
      modifies this
      ensures Valid()
      ensures form == EditChange(old(form), input) && msg == old(msg)
    {
      EditChangeKeepsGenderNumeric(form, input);
      form := EditChange(form, input);
    }

    /** `handleSave`: the payload goes out with the stored token's header; on
        success the page announces it and, after its delay, closes. */
    method HandleSave(token: Option<string>, outcome: Response<()>)
      returns (payload: SavePayload, authorization: Option<string>, close: Option<CloseAction>)
      requires Valid()
      modifies this
      ensures Valid()
      ensures payload == PayloadOf(form) && authorization == AuthHeader(token)
      ensures form == old(form)
      ensures outcome.Ok? ==> msg == Show(Updated, Success) && close == Some(CloseTarget(hasOnClose))
      ensures outcome.Failed? ==> msg == Show(ErrorText(outcome.message, UpdateFailed), Error) && close == None
    {
      payload := PayloadOf(form);
      authorization := AuthHeader(token);
      match outcome
      case Ok(_) =>
        msg := Show(Updated, Success);
        close := Some(CloseTarget(hasOnClose));
      case Failed(message) =>
        msg := Show(ErrorText(message, UpdateFailed), Error);
        close := None;
    }

    /** `handleCancel`: closes the same way as a successful save, at once. */
    function HandleCancel(): (close: CloseAction)
      reads this
      ensures close == CallOnClose <==> hasOnClose
      ensures !hasOnClose ==> close == NavigateTo(ParticipantsPath)
    {
      CloseTarget(hasOnClose)
    }
  }
}
