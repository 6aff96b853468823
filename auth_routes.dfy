/** The route table shown to a visitor who is not logged in: three pages and
    a catch-all redirect to the login page. Paths are matched exactly. */
module AuthRoutes {

  const LoginPath := "/login"
  const CreateAccountPath := "/create-account"
  const ForgotPasswordPath := "/forgot-password"

  /** What a path renders. The login page is handed the `onLogin` callback,
      of whatever type the caller passes. */
  datatype Element<H> = LoginPage(onLogin: H) | CreateAccountPage | ForgotPasswordPage | Redirect(to: string)

  function Route<H>(path: string, onLogin: H): (e: Element<H>)
    ensures path == LoginPath <==> e == LoginPage(onLogin)
    ensures path == CreateAccountPath <==> e == CreateAccountPage
    ensures path == ForgotPasswordPath <==> e == ForgotPasswordPage
    ensures e.Redirect? <==> path !in {LoginPath, CreateAccountPath, ForgotPasswordPath}
    ensures e.Redirect? ==> e.to == LoginPath
  {
    if path == LoginPath then LoginPage(onLogin)
    else if path == CreateAccountPath then CreateAccountPage
    else if path == ForgotPasswordPath then ForgotPasswordPage
    else Redirect(LoginPath)
  }

  /** The page finally shown: a redirect is followed once. */
  function Resolve<H>(path: string, onLogin: H): (e: Element<H>)
  {
    match Route(path, onLogin)
    case Redirect(to) => Route(to, onLogin)
    case page => page
  }

  /** Resolution never ends on a redirect: every unknown path lands on the
      login page, with the callback, after exactly one redirect, and the
      three known paths are shown as they are. */
  lemma ResolveEndsOnPage<H>(path: string, onLogin: H)
    ensures !Resolve(path, onLogin).Redirect?
    ensures path !in {CreateAccountPath, ForgotPasswordPath} ==> Resolve(path, onLogin) == LoginPage(onLogin)
    ensures path == CreateAccountPath ==> Resolve(path, onLogin) == CreateAccountPage
    ensures path == ForgotPasswordPath ==> Resolve(path, onLogin) == ForgotPasswordPage
  {
    var first := Route(path, onLogin);
    if first.Redirect? {
      assert Route(first.to, onLogin) == LoginPage(onLogin);
    }
  }
}
