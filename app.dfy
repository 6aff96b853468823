/** The application root: the logged-in flag, the two callbacks that flip
    it, and which route subtree is mounted. Browser storage is a dictionary
    of text entries. */
module App {
  import AuthRoutes

  /** The two callbacks the root hands down. */
  datatype Callback = LoginCallback | LogoutCallback

  /** The subtree mounted on every path: the auth routes, handed `handleLogin`, or
      the logged-in landing shell, handed `handleLogout`. */
  datatype Subtree = AuthSubtree(onLogin: Callback) | LandingSubtree(onLogout: Callback)

  class AppState {
    var isLoggedIn: bool
    var storage: map<string, string>

    /** The flag starts false; storage holds whatever the browser kept. */
    constructor (storage: map<string, string>)
      ensures !isLoggedIn && this.storage == storage
      ensures Mounted() == AuthSubtree(LoginCallback)
    {
      isLoggedIn := false;
      this.storage := storage;
    }

    /** Exactly one subtree is mounted, chosen by the flag. */
    function Mounted(): (s: Subtree)
      reads this
      ensures s.AuthSubtree? <==> !isLoggedIn
      ensures s.AuthSubtree? ==> s.onLogin == LoginCallback
      ensures s.LandingSubtree? ==> s.onLogout == LogoutCallback
    {
      if !isLoggedIn then AuthSubtree(LoginCallback) else LandingSubtree(LogoutCallback)
    }

    /** `handleLogin`: the flag is set and nothing else changes. */
    method HandleLogin()
      modifies this
      ensures isLoggedIn && Mounted() == LandingSubtree(LogoutCallback)
      ensures storage == old(storage)
    {
      isLoggedIn := true;
    }

    /** `handleLogout`: the flag is cleared and so is all of storage, the
        token included. */
    method HandleLogout()
      modifies this
      ensures !isLoggedIn && Mounted() == AuthSubtree(LoginCallback)
      ensures storage == map[] && "token" !in storage
    {
      isLoggedIn := false;
      storage := map[];
    }

    /** What a logged-out visitor sees at `path`: a page of the auth routes,
        the login page receiving the root's `handleLogin`. */
    function PageAt(path: string): (e: AuthRoutes.Element<Callback>)
      reads this
      requires !isLoggedIn
      ensures !e.Redirect?
      ensures e.LoginPage? ==> e.onLogin == LoginCallback
    {
      AuthRoutes.ResolveEndsOnPage(path, LoginCallback);
      AuthRoutes.Resolve(path, Mounted().onLogin)
    }
  }

  /** Logging out after logging in returns to the auth routes with empty
      storage, whatever was stored before. */
  method LoginThenLogout(app: AppState)
    modifies app
    ensures !app.isLoggedIn && app.storage == map[]
    ensures app.Mounted() == AuthSubtree(LoginCallback)
  {
    app.HandleLogin();
    app.HandleLogout();
  }
}
