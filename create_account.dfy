/** The account creation page: two validation gates in front of the request,
    the renaming of the form fields into the request body and the
    `accountCreated` flag that disables the submit button. */
module CreateAccount {
  import opened Common
  import opened Forms

  const PasswordsDiffer := "Passwords do not match"
  const TermsRequired := "Please agree to terms and conditions"
  const CreateFailed := "Failed to create account. Please try again."
  const LoginPath := "/login"

  /** The form's initial state: five empty texts and an unticked box. */
  function InitialForm(): (f: FormData)
    ensures f.Keys == {"firstName", "lastName", "email", "password", "confirmPassword", "agreeToTerms"}
    ensures !Truthy(Get(f, "agreeToTerms"))
    ensures Get(f, "password") == Get(f, "confirmPassword")
  {
    map["firstName" := Text(""), "lastName" := Text(""), "email" := Text(""),
        "password" := Text(""), "confirmPassword" := Text(""), "agreeToTerms" := Flag(false)]
  }

  /** The body of the request: the five fields renamed, `agreeToTerms` left out. */
  function AccountPayload(form: FormData): (body: FormData)
    ensures body.Keys == {"FirstName", "LastName", "Email", "Password", "ConfirmPassword"}
    ensures "agreeToTerms" !in body
    ensures body["FirstName"] == Get(form, "firstName") && body["LastName"] == Get(form, "lastName")
    ensures body["Email"] == Get(form, "email")
    ensures body["Password"] == Get(form, "password") && body["ConfirmPassword"] == Get(form, "confirmPassword")
  {
    map["FirstName" := Get(form, "firstName"), "LastName" := Get(form, "lastName"),
        "Email" := Get(form, "email"), "Password" := Get(form, "password"),
        "ConfirmPassword" := Get(form, "confirmPassword")]
  }

  /** The form fields the request body is made of. */
  predicate SentField(name: string) {
    name in {"firstName", "lastName", "email", "password", "confirmPassword"}
  }

  /** Only the five sent fields reach the body: an input to any other field,
      the terms checkbox among them, leaves the body as it was. */
  lemma PayloadIgnoresOtherFields(form: FormData, e: InputEvent)
    requires !SentField(e.name)
    ensures AccountPayload(ApplyInput(form, e)) == AccountPayload(form)
  {
  }

  /** What `handleSubmit` does before any request: stop on a password
      mismatch, then stop when the terms are not agreed, else send. */
  datatype Gate = PasswordMismatch | TermsNotAgreed | Send(body: FormData)

  function SubmitGate(form: FormData): (g: Gate)
    ensures g.Send? ==> g.body == AccountPayload(form)
  {
    if Get(form, "password") != Get(form, "confirmPassword") then PasswordMismatch
    else if !Truthy(Get(form, "agreeToTerms")) then TermsNotAgreed
    else Send(AccountPayload(form))
  }

  /** A request goes out exactly when the passwords are equal and the terms
      are agreed; a mismatch wins over missing terms. */
  lemma SubmitGateDecides(form: FormData)
    ensures SubmitGate(form).Send? <==> Get(form, "password") == Get(form, "confirmPassword") && Truthy(Get(form, "agreeToTerms"))
    ensures Get(form, "password") != Get(form, "confirmPassword") ==> SubmitGate(form) == PasswordMismatch
    ensures SubmitGate(form) == TermsNotAgreed <==> Get(form, "password") == Get(form, "confirmPassword") && !Truthy(Get(form, "agreeToTerms"))
  {
  }

  /** The statuses that count as a created account. */
  predicate Created(status: int) {
    status == 200 || status == 201
  }

  class CreateAccountPage {
    var formData: FormData
    var accountCreated: bool

    constructor ()
      ensures formData == InitialForm() && !accountCreated && !SubmitDisabled()
    {
      formData := InitialForm();
      accountCreated := false;
    }

    /** `disabled={accountCreated}`. */
    predicate SubmitDisabled()
      reads this
    {
      accountCreated
    }

    /** `handleInputChange`. */
    method HandleInputChange(e: InputEvent)
      modifies this
      ensures formData == ApplyInput(old(formData), e)
      ensures accountCreated == old(accountCreated)
    {
      formData := ApplyInput(formData, e);
    }

    /** `handleSubmit`, with the request's outcome as a parameter (`Ok(status)`
        or a thrown error). It returns the alert shown, the request body sent
        (None when a gate stopped it) and where the page goes after its delay. */
    method HandleSubmit(outcome: Response<int>) returns (alert: Option<string>, request: Option<FormData>, navigateTo: Option<string>)
      modifies this
      ensures formData == old(formData)
      ensures request.Some? <==> SubmitGate(old(formData)).Send?
      ensures request.Some? ==> request.value == AccountPayload(old(formData))
      ensures SubmitGate(old(formData)) == PasswordMismatch ==> alert == Some(PasswordsDiffer)
      ensures SubmitGate(old(formData)) == TermsNotAgreed ==> alert == Some(TermsRequired)
      ensures request.Some? && outcome.Failed? ==> alert == Some(CreateFailed)
      ensures request.Some? && outcome.Ok? ==> alert == None
      ensures accountCreated <==> old(accountCreated) || (request.Some? && outcome.Ok? && Created(outcome.data))
      ensures navigateTo.Some? <==> request.Some? && outcome.Ok? && Created(outcome.data)
      ensures navigateTo.Some? ==> navigateTo.value == LoginPath
    {
      request, navigateTo := None, None;
      match SubmitGate(formData)
      case PasswordMismatch =>
        alert := Some(PasswordsDiffer);
      case TermsNotAgreed =>
        alert := Some(TermsRequired);
      case Send(body) =>
        request := Some(body);
        match outcome
        case Ok(status) =>
          alert := None;
          if Created(status) {
            accountCreated := true;
            navigateTo := Some(LoginPath);
          }
        case Failed(_) =>
          alert := Some(CreateFailed);
    }
  }

  /** Once created, the account stays created and the button stays disabled,
      whatever is typed or submitted afterwards. */
  method CreatedIsFinal(page: CreateAccountPage, e: InputEvent, outcome: Response<int>)
    requires page.accountCreated
    modifies page
    ensures page.SubmitDisabled()
  {
    page.HandleInputChange(e);
    var _, _, _ := page.HandleSubmit(outcome);
  }
}
