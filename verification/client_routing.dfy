/** The frontend's render-or-redirect decisions: `ProtectedRoute`, which
    guards a page by login and role, and `App`, which shows a loader while
    the session is being checked and routes `/`, `/login` and `/signup`. */
module ClientRouting {
  import opened Wrappers
  import opened ClientRows

  /** The `authUser` the auth store holds (the `user` of `/auth/me`). */
  datatype AuthUser = AuthUser(id: string, name: string, email: string, role: string)

  /** What a route renders: the guarded children, a named page, a
      redirect, the loader, or nothing when no route matches. */
  datatype View = Children | Page(name: string) | Redirect(to: string) | Loader | Nothing

  /** `ProtectedRoute`: `allowedRoles` is `None` when the prop is not
      given. */
  function Protect(authUser: Option<AuthUser>, allowedRoles: Option<seq<string>>): (v: View)
    ensures v == Children <==> authUser.Some? && (allowedRoles.None? || authUser.value.role in allowedRoles.value)
    ensures authUser.None? ==> v == Redirect("/login")
    ensures authUser.Some? && allowedRoles.Some? && authUser.value.role !in allowedRoles.value ==> v == Redirect("/")
    ensures v in {Children, Redirect("/login"), Redirect("/")}
  {
    if authUser.None? then Redirect("/login")
    else if allowedRoles.Some? && authUser.value.role !in allowedRoles.value then Redirect("/")
    else Children
  }

  /** The view `App` renders at `path`. */
  function Route(authUser: Option<AuthUser>, isCheckingAuth: bool, path: string): (v: View)
    ensures v == Loader <==> isCheckingAuth && authUser.None?
    ensures v != Loader ==> match path
      case "/" => v == (if authUser.Some? then Page("HomePage") else Redirect("/login"))
      case "/login" => v == (if authUser.Some? then Redirect("/") else Page("LoginPage"))
      case "/signup" => v == (if authUser.Some? then Redirect("/") else Page("SignUpPage"))
      case _ => v == Nothing
  {
    if isCheckingAuth && authUser.None? then Loader
    else if path == "/" then (if authUser.Some? then Page("HomePage") else Redirect("/login"))
    else if path == "/login" then (if authUser.Some? then Redirect("/") else Page("LoginPage"))
    else if path == "/signup" then (if authUser.Some? then Redirect("/") else Page("SignUpPage"))
    else Nothing
  }

  /** Redirects settle after one hop: once the session check is over (or
      a user is known), every redirect `App` issues lands on a page. */
  lemma {:induction false} RedirectsSettle(authUser: Option<AuthUser>, isCheckingAuth: bool, path: string)
    requires !isCheckingAuth || authUser.Some?
    requires Route(authUser, isCheckingAuth, path).Redirect?
    ensures Route(authUser, isCheckingAuth, Route(authUser, isCheckingAuth, path).to).Page?
  {
    if authUser.Some? {
      assert Route(authUser, isCheckingAuth, path).to == "/";
    } else {
      assert Route(authUser, isCheckingAuth, path).to == "/login";
    }
  }

  /** A `ProtectedRoute` redirect lands on a page of `App` once the
      session check is over: the login page for a visitor, the home page
      for a user with the wrong role. */
  lemma ProtectedRedirectsLand(authUser: Option<AuthUser>, allowedRoles: Option<seq<string>>, isCheckingAuth: bool)
    requires !isCheckingAuth || authUser.Some?
    requires Protect(authUser, allowedRoles).Redirect?
    ensures var to := Protect(authUser, allowedRoles).to;
      Route(authUser, isCheckingAuth, to) == (if authUser.None? then Page("LoginPage") else Page("HomePage"))
  {
  }

  /** How an awaited call settles: it resolves, or it rejects with the
      error thrown inside it. */
  datatype Settled = Resolved | Rejected

  /** `try { … } catch { … }` around a step that settled as `tried`: a
      catch block that does not rethrow turns a rejection into a
      resolution. */
  function Caught(tried: Settled, rethrows: bool): (r: Settled)
    ensures r == Rejected <==> tried == Rejected && rethrows
  {
    if tried == Rejected && rethrows then Rejected else Resolved
  }

  /** The actions `useAuthStore` defines. */
  const StoreActions: set<string> := {"checkAuth", "signup", "login", "logout"}

  /** Awaiting `action(data)` taken from a store with the actions
      `actions`, where the action's own body would settle as `body`: a
      name the store does not define reads as `undefined`, and calling it
      throws a TypeError before anything is sent. */
  function CallAction(actions: set<string>, action: string, body: Settled): (r: Settled)
    ensures action !in actions ==> r == Rejected
    ensures action in actions ==> r == body
  {
    if action in actions then body else Rejected
  }

  /** The auth store as `App` and the login page use it: `checkAuth` runs
      when `App` mounts, and `login` signs a user in. */
  class Session {
    var authUser: Option<AuthUser>
    var isCheckingAuth: bool
    var isLoggingIn: bool

    constructor ()
      ensures authUser.None? && !isCheckingAuth && !isLoggingIn
    {
      authUser, isCheckingAuth, isLoggingIn := None, false, false;
    }

    /** Mounting `App` starts `checkAuth`: the loader shows until it
        settles unless a user is already known. */
    method Mount()
      modifies this
      ensures isCheckingAuth && authUser == old(authUser) && isLoggingIn == old(isLoggingIn)
      ensures authUser.None? ==> Route(authUser, isCheckingAuth, "/") == Loader
    {
      isCheckingAuth := true;
    }

    /** `checkAuth` settling: on success `authUser` becomes the `user`
        field of the `GET /auth/me` answer (`None` when the answer has
        none); on failure the user already known stays. */
    method AuthChecked(succeeded: bool, user: Option<AuthUser>)
      modifies this
      ensures !isCheckingAuth && isLoggingIn == old(isLoggingIn)
      ensures authUser == (if succeeded then user else old(authUser))
      ensures Route(authUser, isCheckingAuth, "/") != Loader
    {
      if succeeded {
        authUser := user;
      }
      isCheckingAuth := false;
    }

    /** The store's `login` given how `POST /auth/login` ended: an answer
        sets `authUser` to its `user` field, a failure is only logged and
        toasted, and `finally` clears `isLoggingIn`. The catch block does
        not rethrow, so the call resolves whatever the request did. */
    method Login(response: Fetch<AuthUser>) returns (settled: Settled)
      modifies this
      ensures authUser == (if response.Fetched? then response.value else old(authUser))
      ensures !isLoggingIn && isCheckingAuth == old(isCheckingAuth)
      ensures settled == Resolved
    {
      isLoggingIn := true;
      var tried := Rejected;
      if response.Fetched? {
        authUser := response.value;
        tried := Resolved;
      }
      settled := Caught(tried, false);
      isLoggingIn := false;
    }

    /** `login` with a catch block that rethrows after its toast, so that
        the caller learns of a failed request. */
    method LoginRethrowing(response: Fetch<AuthUser>) returns (settled: Settled)
      modifies this
      ensures authUser == (if response.Fetched? then response.value else old(authUser))
      ensures !isLoggingIn && isCheckingAuth == old(isCheckingAuth)
      ensures settled == Resolved <==> response.Fetched?
    {
      isLoggingIn := true;
      var tried := Rejected;
      if response.Fetched? {
        authUser := response.value;
        tried := Resolved;
      }
      settled := Caught(tried, true);
      isLoggingIn := false;
    }
  }
}
