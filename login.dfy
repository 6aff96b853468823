/** The login page: the input handler and the loading/error cycle around the
    login request. The one-second delay before the outcome is applied is the
    step from `BeginSubmit` to `CompleteSubmit`. */
module Login {
  import opened Common
  import opened Forms

  const LoginFailed := "Failed to log in. Please try again."
  const DashboardPath := "/dashboard"

  function InitialForm(): (f: FormData)
    ensures f.Keys == {"email", "password", "rememberMe"}
    ensures !Truthy(Get(f, "rememberMe"))
  {
    map["email" := Text(""), "password" := Text(""), "rememberMe" := Flag(false)]
  }

  /** The request body: `{ email, password }`. */
  datatype LoginBody = LoginBody(email: FieldValue, password: FieldValue)

  function BodyOf(form: FormData): (b: LoginBody)
    ensures b.email == Get(form, "email") && b.password == Get(form, "password")
  {
    LoginBody(Get(form, "email"), Get(form, "password"))
  }

  /** `rememberMe`, and every field but email and password, never reaches the
      request. */
  lemma BodyIgnoresOtherFields(form: FormData, e: InputEvent)
    requires e.name != "email" && e.name != "password"
    ensures BodyOf(ApplyInput(form, e)) == BodyOf(form)
  {
  }

  class LoginPage {
    var formData: FormData
    var loading: bool
    var errorMessage: string

    constructor ()
      ensures formData == InitialForm() && !loading && errorMessage == ""
    {
      formData := InitialForm();
      loading := false;
      errorMessage := "";
    }

    /** `disabled={loading}`. */
    predicate SubmitDisabled()
      reads this
    {
      loading
    }

    /** `handleInputChange`. */
    method HandleInputChange(e: InputEvent)
      modifies this
      ensures formData == ApplyInput(old(formData), e)
      ensures loading == old(loading) && errorMessage == old(errorMessage)
    {
      formData := ApplyInput(formData, e);
    }

    /** The synchronous part of `handleSubmit`: loading on, error cleared, and
        the body of the request taken from the form as it is now. */
    method BeginSubmit() returns (body: LoginBody)
      modifies this
      ensures body == BodyOf(formData)
      ensures loading && SubmitDisabled() && errorMessage == ""
      ensures formData == old(formData)
    {
      loading := true;
      errorMessage := "";
      body := BodyOf(formData);
    }

    /** The deferred part: `outcome` is `Ok(status)` or the thrown error of
        the request whose body was `sent`. It returns what `onLogin` receives
        and where the page navigates, both None when they do not happen. */
    method CompleteSubmit(sent: LoginBody, outcome: Response<int>) returns (loggedInAs: Option<FieldValue>, navigateTo: Option<string>)
      modifies this
      ensures formData == old(formData)
      ensures outcome.Ok? && outcome.data == 200 ==>
                !loading && errorMessage == old(errorMessage)
                && loggedInAs == Some(sent.email) && navigateTo == Some(DashboardPath)
      ensures outcome.Ok? && outcome.data != 200 ==>
                loading == old(loading) && errorMessage == old(errorMessage)
                && loggedInAs == None && navigateTo == None
      ensures outcome.Failed? ==>
                !loading && errorMessage == ErrorText(outcome.message, LoginFailed) && errorMessage != ""
                && loggedInAs == None && navigateTo == None
    {
      loggedInAs, navigateTo := None, None;
      match outcome
      case Ok(status) =>
        if status == 200 {
          loading := false;
          loggedInAs := Some(sent.email);
          navigateTo := Some(DashboardPath);
        }
      case Failed(message) =>
        loading := false;
        errorMessage := ErrorText(message, LoginFailed);
    }
  }

  /** A whole submission: a success status other than 200 leaves the button
      disabled, every other outcome enables it again; a login reports the
      email entered at the time of the submit. */
  method Submit(page: LoginPage, outcome: Response<int>) returns (body: LoginBody, loggedInAs: Option<FieldValue>)
    modifies page
    ensures body == BodyOf(old(page.formData))
    ensures page.SubmitDisabled() <==> outcome.Ok? && outcome.data != 200
    ensures loggedInAs.Some? <==> outcome == Ok(200)
    ensures loggedInAs.Some? ==> loggedInAs.value == Get(old(page.formData), "email")
    ensures page.errorMessage == "" <==> outcome.Ok?
  {
    body := page.BeginSubmit();
    var navigateTo;
    loggedInAs, navigateTo := page.CompleteSubmit(body, outcome);
  }
}
