/** The participant registration page: the form, the stricter token check
    in front of the request, the reset on success, and the one-way switch to
    the participant list. */
module ParticipantRegistration {
  import opened Common
  import opened Strings
  import opened Participants

  const Registered := "Participant registered successfully"
  const RegistrationFailed := "Registration failed"

  /** The header of the request: a token is used only when it is truthy and is
      not the text "null" or "undefined" that storing a missing value leaves
      behind. */
  function RegistrationHeader(rawToken: Option<string>): (h: Option<string>)
    ensures h.Some? <==> rawToken.Some? && rawToken.value !in {"", "null", "undefined"}
    ensures h.Some? ==> h.value == "Bearer " + rawToken.value
  {
    if rawToken.Some? && rawToken.value != "" && rawToken.value != "null" && rawToken.value != "undefined"
    then Some("Bearer " + rawToken.value)
    else None
  }

  /** This page sends the same header as the other pages except for the two
      placeholder texts, which they send as a bearer token and it omits. */
  lemma RegistrationHeaderRefinesAuthHeader(rawToken: Option<string>)
    ensures rawToken.Some? && rawToken.value in {"null", "undefined"} ==>
              RegistrationHeader(rawToken) == None && AuthHeader(rawToken).Some?
    ensures !(rawToken.Some? && rawToken.value in {"null", "undefined"}) ==>
              RegistrationHeader(rawToken) == AuthHeader(rawToken)
  {
  }

  /** `handleChange`: `{ ...prev, [name]: value }` with no conversion, so the
      gender keeps whatever value the select gave. */
  function RegistrationChange(f: ParticipantForm, input: FieldInput): (r: ParticipantForm)
    ensures input.TextInput? ==> r == SetText(f, input.field, input.text)
    ensures input.GenderInput? ==> r == f.(gender := input.value)
  {
    match input
    case TextInput(field, text) => SetText(f, field, text)
    case GenderInput(value) => f.(gender := value)
  }

  /** Typing a field and then restoring its old text gives back the form. */
  lemma RegistrationChangeUndo(f: ParticipantForm, field: TextField, text: string)
    ensures RegistrationChange(RegistrationChange(f, TextInput(field, text)), TextInput(field, TextOf(f, field))) == f
  {
  }

  /** What the page renders. */
  datatype View = FormView | ListView

  datatype RegisterRequest = RegisterRequest(body: ParticipantForm, authorization: Option<string>)

  class ParticipantRegistrationPage {
    var formData: ParticipantForm
    var snackbar: Snackbar
    var showList: bool

    constructor ()
      ensures formData == EmptyForm() && !snackbar.open && !showList && View() == FormView
    {
      formData := EmptyForm();
      snackbar := ClosedSnackbar(Success);
      showList := false;
    }

    /** `if (showList) return <ParticipantList />`: the list replaces the form. */
    function View(): (v: View)
      reads this
      ensures v == ListView <==> showList
    {
      if showList then ListView else FormView
    }

    method HandleChange(input: FieldInput)
      modifies this
      ensures formData == RegistrationChange(old(formData), input)
      ensures snackbar == old(snackbar) && showList == old(showList)
    {
      formData := RegistrationChange(formData, input);
    }

    /** `handleSubmit`: the form as it is goes out; success resets it to the
        empty form, failure keeps it for another attempt. */
    method HandleSubmit(rawToken: Option<string>, outcome: Response<()>) returns (request: RegisterRequest)
      modifies this
      ensures request == RegisterRequest(old(formData), RegistrationHeader(rawToken))
      ensures outcome.Ok? ==> formData == EmptyForm() && snackbar == Show(Registered, Success)
      ensures outcome.Failed? ==> formData == old(formData)
                                  && snackbar == Show(ErrorText(outcome.message, RegistrationFailed), Error)
      ensures showList == old(showList)
    {
      request := RegisterRequest(formData, RegistrationHeader(rawToken));
      match outcome
      case Ok(_) =>
        snackbar := Show(Registered, Success);
        formData := EmptyForm();
      case Failed(message) =>
        snackbar := Show(ErrorText(message, RegistrationFailed), Error);
    }

    /** `handleToggleList`: there is no way back to the form. */
    method HandleToggleList()
      modifies this
      ensures showList && View() == ListView
      ensures formData == old(formData) && snackbar == old(snackbar)
    {
      showList := true;
    }
  }
}
