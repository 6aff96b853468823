/** Values shared by every page of the admin client: optional values, the
    outcome of one HTTP request, the transient notification (snackbar) and the
    rules every page uses to pick an error text and an Authorization header. */
module Common {

  datatype Option<+T> = None | Some(value: T)

  /** The outcome of one request to the backend: success with the decoded
      response body, or failure carrying the backend's `message` if it sent one. */
  datatype Response<+T> = Ok(data: T) | Failed(message: Option<string>)

  datatype Severity = Success | Error | Warning | Info

  /** The snackbar every page shows after a request. */
  datatype Snackbar = Snackbar(open: bool, message: string, severity: Severity)

  function ClosedSnackbar(severity: Severity): (s: Snackbar)
    ensures !s.open && s.message == ""
  {
    Snackbar(false, "", severity)
  }

  function Show(message: string, severity: Severity): (s: Snackbar)
    ensures s.open && s.message == message && s.severity == severity
  {
    Snackbar(true, message, severity)
  }

  /** `err.response?.data?.message || fallback`: the backend's text when it is
      present and non-empty (an empty string is falsy), else the fallback. */
  function ErrorText(message: Option<string>, fallback: string): (r: string)
    ensures message.Some? && message.value != "" ==> r == message.value
    ensures message.None? || message.value == "" ==> r == fallback
    ensures fallback != "" ==> r != ""
  {
    match message
    case Some(m) => if m != "" then m else fallback
    case None => fallback
  }

  /** `token ? { Authorization: `Bearer ${token}` } : {}` with the token read
      from storage: None is a missing key (null), and the empty string is falsy. */
  function AuthHeader(token: Option<string>): (h: Option<string>)
    ensures h.Some? <==> token.Some? && token.value != ""
    ensures h.Some? ==> h.value == "Bearer " + token.value
  {
    if token.Some? && token.value != "" then Some("Bearer " + token.value) else None
  }
}
