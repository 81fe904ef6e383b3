/**
 * The route table of `AppRoutes` and the `RequireAuth` guard, as a
 * resolution from a path and the session's `user` to the page rendered or
 * the path redirected to. Paths match by exact equality.
 */
module App {
  import opened Wrappers
  import AuthContext

  datatype Page = Login | Register | ApplyCard | Dashboard | Transactions | Payments | Profile | Settings | Analytics

  /** `<Page />`, or `<Navigate to={to} replace />`. */
  datatype Resolution = Render(page: Page) | Redirect(to: string)

  const LoginPath: string := "/login"
  const DashboardPath: string := "/dashboard"

  /** The routes outside the guard. */
  function PublicPage(path: string): Option<Page> {
    if path == "/login" then Some(Login)
    else if path == "/register" then Some(Register)
    else if path == "/apply" then Some(ApplyCard)
    else None
  }

  /** The routes inside the guard that render a page of their own. */
  function ProtectedPage(path: string): Option<Page> {
    if path == "/dashboard" then Some(Dashboard)
    else if path == "/transactions" then Some(Transactions)
    else if path == "/payments" then Some(Payments)
    else if path == "/profile" then Some(Profile)
    else if path == "/settings" then Some(Settings)
    else if path == "/analytics" then Some(Analytics)
    else None
  }

  /** `RequireAuth`: redirect to the login page when there is no user, else its children. */
  function RequireAuth(user: Option<AuthContext.User>, children: Resolution): (r: Resolution)
    ensures user.None? ==> r == Redirect(LoginPath)
    ensures user.Some? ==> r == children
  {
    if user.None? then Redirect(LoginPath) else children
  }

  /** The nested routes under the catch-all protected route: `/` and unknown paths go to the dashboard. */
  function Guarded(path: string): (r: Resolution)
    ensures r.Render? <==> ProtectedPage(path).Some?
    ensures r.Render? ==> r.page == ProtectedPage(path).value
    ensures r.Redirect? ==> r.to == DashboardPath
  {
    if path == "/" then Redirect(DashboardPath)
    else if ProtectedPage(path).Some? then Render(ProtectedPage(path).value)
    else Redirect(DashboardPath)
  }

  /**
   * The whole table. It takes the session's `user` only, so neither `token`
   * nor `isAuthenticated` can sway it.
   */
  function Resolve(path: string, user: Option<AuthContext.User>): (r: Resolution)
    ensures PublicPage(path).Some? ==> r == Render(PublicPage(path).value)
    ensures r.Redirect? ==> r.to == LoginPath || r.to == DashboardPath
    ensures r == Redirect(LoginPath) ==> user.None?
  {
    match PublicPage(path)
    case Some(p) => Render(p)
    case None => RequireAuth(user, Guarded(path))
  }

  /** `/login`, `/register` and `/apply` render their page whatever the session. */
  lemma PublicRoutes(user: Option<AuthContext.User>)
    ensures Resolve("/login", user) == Render(Login)
    ensures Resolve("/register", user) == Render(Register)
    ensures Resolve("/apply", user) == Render(ApplyCard)
  {
  }

  /** Every other path is guarded: it redirects to the login page exactly when there is no user. */
  lemma GuardRedirectsWithoutUser(path: string, user: Option<AuthContext.User>)
    requires PublicPage(path).None?
    ensures Resolve(path, user) == Redirect(LoginPath) <==> user.None?
  {
  }

  /** With a user, `/` and unknown paths go to the dashboard and the six pages render. */
  lemma SignedInRoutes(path: string, user: Option<AuthContext.User>)
    requires user.Some?
    ensures Resolve("/", user) == Redirect(DashboardPath)
    ensures Resolve("/dashboard", user) == Render(Dashboard)
    ensures Resolve("/transactions", user) == Render(Transactions)
    ensures Resolve("/payments", user) == Render(Payments)
    ensures Resolve("/profile", user) == Render(Profile)
    ensures Resolve("/settings", user) == Render(Settings)
    ensures Resolve("/analytics", user) == Render(Analytics)
    ensures PublicPage(path).None? && ProtectedPage(path).None? ==> Resolve(path, user) == Redirect(DashboardPath)
  {
  }

  /** Every redirect lands on a page: resolution ends after at most one redirect. */
  lemma NoRedirectLoop(path: string, user: Option<AuthContext.User>)
    ensures Resolve(path, user).Redirect? ==> Resolve(Resolve(path, user).to, user).Render?
  {
  }

  /** In a coherent session the guard, which reads `user`, agrees with `isAuthenticated`, which reads `token`. */
  lemma GuardAgreesWithIsAuthenticated(s: AuthContext.Session, path: string)
    requires s.Coherent() && PublicPage(path).None?
    ensures Resolve(path, s.user) == Redirect(LoginPath) <==> !s.IsAuthenticated()
  {
  }

  /**
   * The guard has no "not yet rehydrated" state: on first render a guarded
   * path redirects to the login page even when storage holds a session that
   * the mount effect then restores.
   */
  lemma RehydrationRace(c: AuthContext.Codec, storage: map<string, string>, headers: map<string, string>, path: string)
    requires PublicPage(path).None?
    requires AuthContext.MountStep(c, AuthContext.Initial(storage, headers)).after.user.Some?
    ensures Resolve(path, AuthContext.Initial(storage, headers).user) == Redirect(LoginPath)
    ensures Resolve(path, AuthContext.MountStep(c, AuthContext.Initial(storage, headers)).after.user) != Redirect(LoginPath)
  {
  }
}
