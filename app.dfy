/**
 * The route table and its guards (src/App.tsx), as a decision from the
 * resolved route and the auth context's `user` and `loading` to what is
 * shown: the spinner, a redirect, or a page.
 */
module App {
  import opened Remote
  import opened Domain
  import EmployerDashboard
  import JobSeekerDashboard
  import NotificationsPage

  /** The routes of the table, already resolved from the URL. */
  datatype Route =
    | HomeRoute
    | SignInRoute
    | SignUpRoute
    | JobsRoute
    | JobDetailRoute(id: string)
    | PostJobRoute
    | DashboardRoute
    | JobSeekerDashboardRoute
    | EmployerDashboardRoute
    | NotificationsRoute
    | Unmatched

  datatype Page =
    | HomePage
    | SignInPage
    | SignUpPage
    | JobsListPage
    | JobDetailPage(id: string)
    | PostJobPage
    | JobSeekerDashboardPage
    | EmployerDashboardPage
    | NotificationsPage

  datatype Decision = Spinner | Redirect(path: string) | Render(page: Page)

  /** What `useAuth()` provides. */
  datatype Auth = Auth(user: Option<User>, loading: bool)

  /** `ProtectedRoute`: the spinner while loading, sign-in without a user, else the children. */
  function ProtectedRoute(auth: Auth, children: Decision): (d: Decision)
    ensures auth.loading ==> d == Spinner
    ensures !auth.loading && auth.user.None? ==> d == Redirect("/signin")
    ensures !auth.loading && auth.user.Some? ==> d == children
  {
    if auth.loading then Spinner
    else if auth.user.None? then Redirect("/signin")
    else children
  }

  /** `CompanyRoute`: anyone but a company user is sent to the job seeker's dashboard. */
  function CompanyRoute(auth: Auth, page: Page): (d: Decision)
    ensures auth.loading ==> d == Spinner
    ensures !auth.loading ==>
      (d == Render(page) <==> auth.user.Some? && auth.user.value.userType == CompanyType)
    ensures !auth.loading && (auth.user.None? || auth.user.value.userType != CompanyType) ==>
      d == Redirect("/dashboard/job-seeker")
  {
    if auth.loading then Spinner
    else if auth.user.None? || auth.user.value.userType != CompanyType then Redirect("/dashboard/job-seeker")
    else Render(page)
  }

  /** `JobSeekerRoute`: anyone but an applicant is sent to the employer's dashboard. */
  function JobSeekerRoute(auth: Auth, page: Page): (d: Decision)
    ensures auth.loading ==> d == Spinner
    ensures !auth.loading ==>
      (d == Render(page) <==> auth.user.Some? && auth.user.value.userType == ApplicantType)
    ensures !auth.loading && (auth.user.None? || auth.user.value.userType != ApplicantType) ==>
      d == Redirect("/dashboard/employer")
  {
    if auth.loading then Spinner
    else if auth.user.None? || auth.user.value.userType != ApplicantType then Redirect("/dashboard/employer")
    else Render(page)
  }

  /** The element each route of the table produces. A redirect goes to the
      home page, sign-in or one of the two dashboards, and a page behind a
      guard is rendered only once auth has loaded with a user. */
  function Decide(route: Route, auth: Auth): (d: Decision)
    ensures d.Redirect? ==> d.path in {"/", "/signin", "/dashboard/employer", "/dashboard/job-seeker"}
    ensures d.Render? && !IsPublic(route) ==> !auth.loading && auth.user.Some?
  {
    match route
    case HomeRoute => Render(HomePage)
    case SignInRoute => Render(SignInPage)
    case SignUpRoute => Render(SignUpPage)
    case JobsRoute => Render(JobsListPage)
    case JobDetailRoute(id) => Render(JobDetailPage(id))
    case PostJobRoute => ProtectedRoute(auth, CompanyRoute(auth, PostJobPage))
    case DashboardRoute =>
      ProtectedRoute(auth,
        if auth.user.Some? && auth.user.value.userType == CompanyType then Redirect("/dashboard/employer")
        else Redirect("/dashboard/job-seeker"))
    case JobSeekerDashboardRoute => ProtectedRoute(auth, JobSeekerRoute(auth, JobSeekerDashboardPage))
    case EmployerDashboardRoute => ProtectedRoute(auth, CompanyRoute(auth, EmployerDashboardPage))
    case NotificationsRoute => ProtectedRoute(auth, Render(NotificationsPage))
    case Unmatched => Redirect("/")
  }

  predicate IsPublic(route: Route)
  {
    route.HomeRoute? || route.SignInRoute? || route.SignUpRoute? || route.JobsRoute? || route.JobDetailRoute?
  }

  /** The public routes render their page whatever the auth state. */
  lemma PublicRoutesRender(route: Route, auth: Auth)
    requires IsPublic(route)
    ensures Decide(route, auth).Render?
  {
  }

  /** Every other route of the table waits for the auth state, then sends a
      visitor without a user to sign in (the outer guard decides first). */
  lemma GuardedRoutesNeedLogin(route: Route, auth: Auth)
    requires !IsPublic(route) && !route.Unmatched?
    ensures auth.loading ==> Decide(route, auth) == Spinner
    ensures !auth.loading && auth.user.None? ==> Decide(route, auth) == Redirect("/signin")
  {
  }

  /** Posting a job: an applicant is sent to their dashboard, a company user
      sees the page. */
  lemma PostJobByRole(auth: Auth)
    requires !auth.loading && auth.user.Some?
    ensures auth.user.value.userType == ApplicantType ==> Decide(PostJobRoute, auth) == Redirect("/dashboard/job-seeker")
    ensures auth.user.value.userType == CompanyType ==> Decide(PostJobRoute, auth) == Render(PostJobPage)
  {
  }

  /** `/dashboard` sends each role to its own dashboard; `/notifications`
      needs only a login; any other path goes home. */
  lemma DashboardAndFallback(auth: Auth)
    requires !auth.loading && auth.user.Some?
    ensures Decide(DashboardRoute, auth) == Redirect(
      if auth.user.value.userType == CompanyType then "/dashboard/employer" else "/dashboard/job-seeker")
    ensures Decide(NotificationsRoute, auth) == Render(NotificationsPage)
    ensures Decide(Unmatched, auth) == Redirect("/")
  {
  }

  /** The route a redirect target resolves to. */
  function RouteOf(path: string): Route
  {
    if path == "/" then HomeRoute
    else if path == "/signin" then SignInRoute
    else if path == "/signup" then SignUpRoute
    else if path == "/jobs" then JobsRoute
    else if path == "/jobs/post" then PostJobRoute
    else if path == "/dashboard" then DashboardRoute
    else if path == "/dashboard/job-seeker" then JobSeekerDashboardRoute
    else if path == "/dashboard/employer" then EmployerDashboardRoute
    else if path == "/notifications" then NotificationsRoute
    else Unmatched
  }

  /** What is finally shown after following at most `steps` redirects. */
  function Settle(route: Route, auth: Auth, steps: nat): Decision
    decreases steps
  {
    var d := Decide(route, auth);
    if d.Redirect? && steps > 0 then Settle(RouteOf(d.path), auth, steps - 1) else d
  }

  /** Once the auth state is known, every route ends on a page after at most
      one redirect: a redirect target is never itself redirected, so the
      guards never send a visitor round in a loop. */
  lemma RedirectsSettle(route: Route, auth: Auth)
    requires !auth.loading
    ensures Decide(route, auth).Redirect? ==> Decide(RouteOf(Decide(route, auth).path), auth).Render?
    ensures Settle(route, auth, 1).Render?
  {
  }

  /** A page the table renders never redirects again from its own mount effect:
      the guards and the pages agree on who may see each dashboard. */
  lemma GuardsAgreeWithPages(auth: Auth)
    ensures Decide(EmployerDashboardRoute, auth).Render? ==> EmployerDashboard.Redirect(auth.user) == Stay
    ensures Decide(JobSeekerDashboardRoute, auth).Render? ==> JobSeekerDashboard.Redirect(auth.user) == Stay
    ensures Decide(NotificationsRoute, auth).Render? ==> NotificationsPage.Redirect(auth.user) == Stay
  {
  }
}
