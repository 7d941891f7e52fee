/** The route table of the application and what a visit to a path ends up showing, given
    the authentication cells. */
module Routes {
  import opened Common
  import opened Auth
  import opened Guard

  datatype Page = LandingPage | LoginPage | RegisterPage | ClientDashboard | AdminDashboard

  /** What a route renders: a page, a page behind the guard with a required role, or a redirect. */
  datatype Element = Plain(page: Page) | Protected(requiredRole: string, protectedPage: Page) | Navigate(to: string)

  /** What the visitor ends up with. */
  datatype Screen = Show(page: Page) | Spinner | Redirect(to: string) | Denied(requiredRole: string)

  const ProtectedPaths: set<string> := {"/dashboard", "/admin"}
  const PublicPaths: set<string> := {"/", "/login", "/register"}

  /** `AppRoutes`: three public pages, two guarded dashboards, and every other path sent to "/". */
  function RouteFor(path: string): (e: Element)
    ensures e.Plain? <==> path in PublicPaths
    ensures e.Protected? <==> path in ProtectedPaths
    ensures e.Navigate? <==> path !in PublicPaths && path !in ProtectedPaths
    ensures e.Navigate? ==> e.to == "/"
    ensures e.Protected? ==> (e.requiredRole == "admin" <==> path == "/admin")
    ensures e.Protected? ==> (e.requiredRole == "client" <==> path == "/dashboard")
    ensures e == Plain(LandingPage) <==> path == "/"
  {
    if path == "/" then Plain(LandingPage)
    else if path == "/login" then Plain(LoginPage)
    else if path == "/register" then Plain(RegisterPage)
    else if path == "/dashboard" then Protected("client", ClientDashboard)
    else if path == "/admin" then Protected("admin", AdminDashboard)
    else Navigate("/")
  }

  /** A visit to `path` in the state `st`: a public page is shown as it is, an unknown path
      redirects home, and a dashboard goes through the guard with its role. */
  function Visit(path: string, st: AuthState): (v: Screen)
    ensures path in PublicPaths ==> v == Show(RouteFor(path).page)
    ensures path !in PublicPaths && path !in ProtectedPaths ==> v == Redirect("/")
    ensures path in ProtectedPaths ==> (v == Spinner <==> st.loading)
    ensures path in ProtectedPaths && v.Show? ==> !st.loading && IsAuthenticatedOf(st)
    ensures path in ProtectedPaths && !st.loading && !IsAuthenticatedOf(st) ==> v == Redirect(DefaultRedirect)
  {
    match RouteFor(path)
    case Plain(p) => Show(p)
    case Navigate(to) => Redirect(to)
    case Protected(role, p) =>
      match GuardState(st, Some(role), None)
      case ShowSpinner => Spinner
      case RedirectTo(to) => Redirect(to)
      case ShowAccessDenied(r) => Denied(r)
      case RenderChildren => Show(p)
  }

  /** The public pages are shown in every state. */
  lemma PublicPagesUnguarded(st: AuthState)
    ensures Visit("/", st) == Show(LandingPage)
    ensures Visit("/login", st) == Show(LoginPage)
    ensures Visit("/register", st) == Show(RegisterPage)
  {
  }

  /** Any unknown path redirects to "/". */
  lemma UnknownPathsGoHome(path: string, st: AuthState)
    requires path !in PublicPaths && path !in ProtectedPaths
    ensures Visit(path, st) == Redirect("/")
  {
  }

  /** The admin dashboard is shown only to a loaded, authenticated admin, and the client
      dashboard only to a loaded, authenticated client. */
  lemma DashboardsNeedTheirRole(path: string, st: AuthState)
    ensures Visit(path, st) == Show(AdminDashboard) ==>
      !st.loading && IsAuthenticatedOf(st) && st.user.value.role == Admin
    ensures Visit(path, st) == Show(ClientDashboard) ==>
      !st.loading && IsAuthenticatedOf(st) && st.user.value.role == Client
  {
    if path == "/admin" && Visit(path, st) == Show(AdminDashboard) {
      ChildrenOnlyWithRole(st, Admin, None);
    }
    if path == "/dashboard" && Visit(path, st) == Show(ClientDashboard) {
      ChildrenOnlyWithRole(st, Client, None);
    }
  }

  /** Neither dashboard is shown while the state is loading. */
  lemma NothingProtectedWhileLoading(path: string, st: AuthState)
    requires st.loading
    ensures Visit(path, st) != Show(AdminDashboard) && Visit(path, st) != Show(ClientDashboard)
  {
  }

  /** With no session on start-up, the state is loaded and anonymous, and both dashboards redirect to "/login". */
  lemma AnonymousStartup(profile: ProfileLookup)
    ensures var st := Run(Initial(), [SessionRestored(SessionOk(None), profile)]);
      !st.loading && !IsAuthenticatedOf(st)
      && Visit("/dashboard", st) == Redirect("/login") && Visit("/admin", st) == Redirect("/login")
  {
    var evs := [SessionRestored(SessionOk(None), profile)];
    assert Run(Initial(), evs) == Run(Step(Initial(), evs[0]), []);
  }

  /** A user whose `users` row has `role_id` 1, signed in and with the profile fetched, is denied
      the client dashboard and shown the admin one. */
  lemma AdminDeniedClientDashboard(st: AuthState, u: AuthUser, row: UserRow)
    requires row.roleId == Some(1)
    ensures var r := Run(st, [SessionChanged(Some(Session(Some(u)))), ProfileFetched(u.id, RowFound(row))]);
      Visit("/dashboard", r) == Denied("client") && Visit("/admin", r) == Show(AdminDashboard)
  {
    var evs := [SessionChanged(Some(Session(Some(u)))), ProfileFetched(u.id, RowFound(row))];
    var signedIn := Step(st, evs[0]);
    assert evs[1..] == [ProfileFetched(u.id, RowFound(row))];
    assert Run(st, evs) == Run(signedIn, evs[1..]);
    assert Run(signedIn, evs[1..]) == Run(Step(signedIn, evs[1]), []);
  }

  /** A successful login, whose session notification arrives while `login` is still awaiting the
      backend and whose `finally` runs after it, publishes a client profile, which the admin
      dashboard denies (before the background profile fetch settles). */
  lemma ClientLoginDeniedAdmin(st: AuthState, u: AuthUser)
    ensures var r := Run(st, [SessionChanged(Some(Session(Some(u)))), CallSettled]);
      IsAuthenticatedOf(r) && r.user.value.role == Client
      && Visit("/admin", r) == Denied("admin") && Visit("/dashboard", r) == Show(ClientDashboard)
  {
    var evs := [SessionChanged(Some(Session(Some(u)))), CallSettled];
    var signedIn := Step(st, evs[0]);
    assert evs[1..] == [CallSettled];
    assert Run(st, evs) == Run(signedIn, evs[1..]);
    assert Run(signedIn, evs[1..]) == Run(Step(signedIn, evs[1]), []);
  }

  /** After a sign-out notification every protected path redirects to "/login". */
  lemma SignedOutRedirected(st: AuthState, before: seq<AuthEvent>, path: string)
    requires path in ProtectedPaths
    ensures Visit(path, Run(st, before + [SessionChanged(None)])) == Redirect("/login")
  {
    SignOutClearsState(st, before);
  }
}
