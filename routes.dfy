/**
 * The application shell: the two route guards, the loading gate and the route table.
 *
 * A session is what the auth store exposes to the guards. A path is the location already
 * split into its non-empty segments, so "/" is [] and "/reset-password/abc" is
 * ["reset-password", "abc"].
 */
module Routes {
  import opened Wrappers

  datatype User = User(isVerified: bool)

  /** `user` is `null` before the auth check has found anyone. */
  datatype Session = Session(isAuthenticated: bool, user: Option<User>)

  /** The auth store's intended invariant: an authenticated session has a user. */
  predicate WellFormed(s: Session) {
    s.isAuthenticated ==> s.user.Some?
  }

  type Path = seq<string>

  const HomePath: Path := []
  const LoginPath: Path := ["login"]
  const VerifyEmailPath: Path := ["verify-email"]

  /** The panel that DashboardHome shows in its outlet. */
  datatype Panel = ProfilePanel | BookingsPanel | SupportPanel

  datatype Page =
    | DashboardHome(outlet: Option<Panel>)
    | SignUpPage
    | LoginPage
    | EmailVerificationPage
    | ForgotPasswordPage
    | ResetPasswordPage

  /**
   * What the application puts on the screen: the loading spinner, a `<Navigate replace>` to
   * another path, a page, or a crash (a TypeError raised while rendering).
   */
  datatype Screen = Spinner | Redirect(to: Path) | Show(page: Page) | Crash

  /**
   * ProtectedRoute: an unauthenticated session goes to the login page, an unverified user to
   * the verification page, and a verified one sees the children. Reading `user.isVerified`
   * of a `null` user throws.
   */
  function ProtectedRoute(s: Session, children: Page): (r: Screen)
    ensures r.Redirect? ==> r.to == LoginPath || r.to == VerifyEmailPath
  {
    if !s.isAuthenticated then Redirect(LoginPath)
    else if s.user.None? then Crash
    else if !s.user.value.isVerified then Redirect(VerifyEmailPath)
    else Show(children)
  }

  /**
   * RedirectAuthenticatedUser: a verified, authenticated user is sent home, everybody else
   * sees the children. The `&&` only reads `user` once the session is authenticated.
   */
  function RedirectAuthenticatedUser(s: Session, children: Page): (r: Screen)
    ensures r.Redirect? ==> r.to == HomePath
  {
    if !s.isAuthenticated then Show(children)
    else if s.user.None? then Crash
    else if s.user.value.isVerified then Redirect(HomePath)
    else Show(children)
  }

  lemma ProtectedRouteOutcomes(s: Session, children: Page)
    ensures ProtectedRoute(s, children) == Redirect(LoginPath) <==> !s.isAuthenticated
    ensures ProtectedRoute(s, children) == Redirect(VerifyEmailPath)
            <==> s.isAuthenticated && s.user.Some? && !s.user.value.isVerified
    ensures ProtectedRoute(s, children) == Show(children)
            <==> s.isAuthenticated && s.user.Some? && s.user.value.isVerified
    ensures ProtectedRoute(s, children) == Crash <==> !WellFormed(s)
  {
  }

  lemma RedirectAuthenticatedUserOutcomes(s: Session, children: Page)
    ensures RedirectAuthenticatedUser(s, children) == Redirect(HomePath)
            <==> s.isAuthenticated && s.user.Some? && s.user.value.isVerified
    ensures RedirectAuthenticatedUser(s, children) == Show(children)
            <==> !s.isAuthenticated || (s.user.Some? && !s.user.value.isVerified)
    ensures RedirectAuthenticatedUser(s, children) == Crash <==> !WellFormed(s)
  {
  }

  /** For every well-formed session exactly one of the two guards lets its children through. */
  lemma GuardsComplementary(s: Session, a: Page, b: Page)
    requires WellFormed(s)
    ensures ProtectedRoute(s, a).Show? != RedirectAuthenticatedUser(s, b).Show?
  {
  }

  // ---------------------------------------------------------------- the route table

  /** A pattern segment: a literal such as "login", or a parameter such as ":token". */
  datatype Segment = Lit(text: string) | Param

  datatype Guard = Protected | GuestOnly | Unguarded

  datatype Route = Route(pattern: seq<Segment>, guard: Guard, page: Page)

  /** A parameter matches any non-empty segment. */
  predicate SegmentMatches(seg: Segment, part: string) {
    match seg
    case Lit(t) => part == t
    case Param => part != ""
  }

  /** Segment by segment; a pattern and a path of different lengths never match. */
  predicate PatternMatches(pattern: seq<Segment>, path: Path) {
    if pattern == [] then path == []
    else path != [] && SegmentMatches(pattern[0], path[0]) && PatternMatches(pattern[1..], path[1..])
  }

  /**
   * The `<Routes>` block, with the children of "/dashboard" written out as full paths; the
   * index child renders Profile. `GuestOnly` is RedirectAuthenticatedUser.
   */
  const RouteTable: seq<Route> := [
    Route([], Protected, DashboardHome(None)),
    Route([Lit("signup")], GuestOnly, SignUpPage),
    Route([Lit("login")], GuestOnly, LoginPage),
    Route([Lit("verify-email")], Unguarded, EmailVerificationPage),
    Route([Lit("forgot-password")], GuestOnly, ForgotPasswordPage),
    Route([Lit("reset-password"), Param], GuestOnly, ResetPasswordPage),
    Route([Lit("dashboard")], Protected, DashboardHome(Some(ProfilePanel))),
    Route([Lit("dashboard"), Lit("profile")], Protected, DashboardHome(Some(ProfilePanel))),
    Route([Lit("dashboard"), Lit("bookings")], Protected, DashboardHome(Some(BookingsPanel))),
    Route([Lit("dashboard"), Lit("support")], Protected, DashboardHome(Some(SupportPanel)))
  ]

  /** The position of the first route of the table, from position `k` on, whose pattern matches `path`. */
  function FindFrom(path: Path, k: nat): (r: Option<nat>)
    requires k <= |RouteTable|
    ensures r.Some? ==> k <= r.value < |RouteTable| && PatternMatches(RouteTable[r.value].pattern, path)
    ensures r.Some? ==> forall j :: k <= j < r.value ==> !PatternMatches(RouteTable[j].pattern, path)
    ensures r.None? ==> forall j :: k <= j < |RouteTable| ==> !PatternMatches(RouteTable[j].pattern, path)
    decreases |RouteTable| - k
  {
    if k == |RouteTable| then None
    else if PatternMatches(RouteTable[k].pattern, path) then Some(k)
    else FindFrom(path, k + 1)
  }

  /** The route react-router picks for `path`: the table has no two overlapping patterns. */
  function FindRoute(path: Path): Option<Route> {
    match FindFrom(path, 0)
    case None => None
    case Some(i) => Some(RouteTable[i])
  }

  /** The element a route wraps, evaluated for the session. */
  function Guarded(g: Guard, s: Session, page: Page): Screen {
    match g
    case Protected => ProtectedRoute(s, page)
    case GuestOnly => RedirectAuthenticatedUser(s, page)
    case Unguarded => Show(page)
  }

  /**
   * App: while the auth check runs only the spinner is shown; afterwards the path is looked
   * up, and the catch-all `*` sends any path no route matches to "/".
   */
  function App(isCheckingAuth: bool, s: Session, path: Path): (r: Screen)
    ensures isCheckingAuth <==> r == Spinner
  {
    if isCheckingAuth then Spinner
    else match FindRoute(path)
      case None => Redirect(HomePath)
      case Some(rt) => Guarded(rt.guard, s, rt.page)
  }

  function GuardOf(path: Path): Option<Guard> {
    match FindRoute(path)
    case None => None
    case Some(rt) => Some(rt.guard)
  }

  predicate IsDashboardChild(part: string) {
    part == "profile" || part == "bookings" || part == "support"
  }

  /** Which guard every path gets: the whole of the route table at a glance. */
  lemma RouteGuards(path: Path)
    ensures GuardOf(path) == Some(Unguarded) <==> path == VerifyEmailPath
    ensures GuardOf(path) == Some(Protected)
            <==> path == HomePath || path == ["dashboard"]
                 || (|path| == 2 && path[0] == "dashboard" && IsDashboardChild(path[1]))
    ensures GuardOf(path) == Some(GuestOnly)
            <==> path == ["signup"] || path == LoginPath || path == ["forgot-password"]
                 || (|path| == 2 && path[0] == "reset-password" && path[1] != "")
  {
    RouteTableMatches(path);
  }

  lemma LiteralMatch(a: string, path: Path)
    ensures PatternMatches([Lit(a)], path) <==> path == [a]
  {
    assert [Lit(a)][1..] == [];
    if |path| >= 1 { assert path == [path[0]] + path[1..]; }
  }

  lemma LiteralPairMatch(a: string, b: string, path: Path)
    ensures PatternMatches([Lit(a), Lit(b)], path) <==> path == [a, b]
  {
    assert [Lit(a), Lit(b)][1..] == [Lit(b)];
    if |path| >= 1 {
      LiteralMatch(b, path[1..]);
      assert path == [path[0]] + path[1..];
    }
  }

  lemma ParamMatch(a: string, path: Path)
    ensures PatternMatches([Lit(a), Param], path) <==> |path| == 2 && path[0] == a && path[1] != ""
  {
    var rest := [Param];
    assert [Lit(a), Param][1..] == rest;
    assert rest[1..] == [];
    if |path| >= 1 {
      var tail := path[1..];
      assert PatternMatches(rest, tail) <==> |tail| >= 1 && tail[0] != "" && tail[1..] == [];
      if |tail| >= 1 {
        assert tail[0] == path[1];
        assert tail[1..] == [] <==> |path| == 2;
      }
    }
  }

  /** The second half of the table walked entry by entry. */
  lemma FindRouteWalkTail(path: Path)
    ensures FindFrom(path, 5) ==
      if PatternMatches([Lit("reset-password"), Param], path) then Some(5)
      else if PatternMatches([Lit("dashboard")], path) then Some(6)
      else if PatternMatches([Lit("dashboard"), Lit("profile")], path) then Some(7)
      else if PatternMatches([Lit("dashboard"), Lit("bookings")], path) then Some(8)
      else if PatternMatches([Lit("dashboard"), Lit("support")], path) then Some(9)
      else None
  {
  }

  /** The table walked entry by entry: the first matching position, as a chain of tests. */
  lemma FindRouteWalk(path: Path)
    ensures FindFrom(path, 0) ==
      if path == [] then Some(0)
      else if PatternMatches([Lit("signup")], path) then Some(1)
      else if PatternMatches([Lit("login")], path) then Some(2)
      else if PatternMatches([Lit("verify-email")], path) then Some(3)
      else if PatternMatches([Lit("forgot-password")], path) then Some(4)
      else FindFrom(path, 5)
  {
  }

  /** The route each path resolves to, one table entry at a time. */
  lemma RouteTableMatches(path: Path)
    ensures path == [] ==> FindRoute(path) == Some(RouteTable[0])
    ensures path == ["signup"] ==> FindRoute(path) == Some(RouteTable[1])
    ensures path == ["login"] ==> FindRoute(path) == Some(RouteTable[2])
    ensures path == ["verify-email"] ==> FindRoute(path) == Some(RouteTable[3])
    ensures path == ["forgot-password"] ==> FindRoute(path) == Some(RouteTable[4])
    ensures |path| == 2 && path[0] == "reset-password" && path[1] != "" ==> FindRoute(path) == Some(RouteTable[5])
    ensures path == ["dashboard"] ==> FindRoute(path) == Some(RouteTable[6])
    ensures path == ["dashboard", "profile"] ==> FindRoute(path) == Some(RouteTable[7])
    ensures path == ["dashboard", "bookings"] ==> FindRoute(path) == Some(RouteTable[8])
    ensures path == ["dashboard", "support"] ==> FindRoute(path) == Some(RouteTable[9])
    ensures FindRoute(path).None? <==>
      path != [] && path != ["signup"] && path != ["login"] && path != ["verify-email"]
      && path != ["forgot-password"] && !(|path| == 2 && path[0] == "reset-password" && path[1] != "")
      && path != ["dashboard"] && path != ["dashboard", "profile"]
      && path != ["dashboard", "bookings"] && path != ["dashboard", "support"]
  {
    LiteralMatch("signup", path);
    LiteralMatch("login", path);
    LiteralMatch("verify-email", path);
    LiteralMatch("forgot-password", path);
    ParamMatch("reset-password", path);
    LiteralMatch("dashboard", path);
    LiteralPairMatch("dashboard", "profile", path);
    LiteralPairMatch("dashboard", "bookings", path);
    LiteralPairMatch("dashboard", "support", path);
    FindRouteWalk(path);
    FindRouteWalkTail(path);
  }

  /** "/dashboard" shows DashboardHome with Profile in its outlet, behind ProtectedRoute. */
  lemma DashboardIndexIsProfile(s: Session)
    ensures App(false, s, ["dashboard"]) == ProtectedRoute(s, DashboardHome(Some(ProfilePanel)))
  {
    RouteTableMatches(["dashboard"]);
  }

  /** A path no route matches is redirected to "/", whatever the session. */
  lemma CatchAllRedirectsHome(s: Session, path: Path)
    requires GuardOf(path).None?
    ensures App(false, s, path) == Redirect(HomePath)
  {
  }

  /** The screen reached after following at most `hops` redirects. */
  function Navigate(s: Session, path: Path, hops: nat): Screen
    decreases hops
  {
    var screen := App(false, s, path);
    if screen.Redirect? && hops > 0 then Navigate(s, screen.to, hops - 1) else screen
  }

  /** "/login" is the guest-only login page: a verified user is sent on to "/". */
  lemma LoginTarget(s: Session)
    requires WellFormed(s)
    ensures App(false, s, LoginPath) ==
      if s.isAuthenticated && s.user.value.isVerified then Redirect(HomePath) else Show(LoginPage)
  {
    RouteTableMatches(LoginPath);
  }

  /** "/verify-email" is unguarded: it always shows the verification page. */
  lemma VerifyEmailTarget(s: Session)
    ensures App(false, s, VerifyEmailPath) == Show(EmailVerificationPage)
  {
    RouteTableMatches(VerifyEmailPath);
  }

  /** "/" is the protected dashboard with an empty outlet. */
  lemma HomeTarget(s: Session)
    ensures App(false, s, HomePath) == ProtectedRoute(s, DashboardHome(None))
  {
    RouteTableMatches(HomePath);
  }

  const GuestPages := {SignUpPage, LoginPage, ForgotPasswordPage, ResetPasswordPage}

  /** Every route to DashboardHome is protected and every route to a guest page is guest-only. */
  lemma TableGuards(i: int)
    requires 0 <= i < |RouteTable|
    ensures RouteTable[i].page.DashboardHome? ==> RouteTable[i].guard == Protected
    ensures RouteTable[i].page in GuestPages ==> RouteTable[i].guard == GuestOnly
  {
  }

  /**
   * One step of navigation for a well-formed session: a page, or a redirect to "/", "/login"
   * or "/verify-email"; DashboardHome only for an authenticated session and a guest page
   * only for a user who is not verified.
   */
  lemma AppStep(s: Session, path: Path)
    requires WellFormed(s)
    ensures App(false, s, path).Show? || App(false, s, path).Redirect?
    ensures App(false, s, path).Redirect? ==> App(false, s, path).to in {HomePath, LoginPath, VerifyEmailPath}
    ensures App(false, s, path).Show? && App(false, s, path).page.DashboardHome? ==> s.isAuthenticated
    ensures App(false, s, path).Show? && s.isAuthenticated && s.user.value.isVerified ==>
              App(false, s, path).page !in GuestPages
  {
    var found := FindFrom(path, 0);
    if found.Some? {
      TableGuards(found.value);
    }
  }

  /** From "/" a page is reached after at most one more redirect. */
  lemma HomeSettles(s: Session)
    requires WellFormed(s)
    ensures Navigate(s, HomePath, 1).Show?
    ensures !s.isAuthenticated ==> Navigate(s, HomePath, 1) == Show(LoginPage)
    ensures s.isAuthenticated && s.user.value.isVerified ==> Navigate(s, HomePath, 1) == Show(DashboardHome(None))
  {
    HomeTarget(s);
    var first := App(false, s, HomePath);
    if first.Redirect? {
      if first.to == LoginPath { LoginTarget(s); } else { VerifyEmailTarget(s); }
      assert Navigate(s, HomePath, 1) == App(false, s, first.to);
    }
  }

  /** From "/login" a page is reached after at most one more redirect. */
  lemma LoginSettles(s: Session)
    requires WellFormed(s)
    ensures Navigate(s, LoginPath, 1).Show?
    ensures !s.isAuthenticated ==> Navigate(s, LoginPath, 1) == Show(LoginPage)
    ensures s.isAuthenticated && s.user.value.isVerified ==> Navigate(s, LoginPath, 1) == Show(DashboardHome(None))
  {
    LoginTarget(s);
    if s.isAuthenticated && s.user.value.isVerified {
      HomeTarget(s);
      assert Navigate(s, LoginPath, 1) == App(false, s, HomePath);
    }
  }

  /** "/verify-email" is shown at once. */
  lemma VerifyEmailSettles(s: Session)
    ensures Navigate(s, VerifyEmailPath, 1) == Show(EmailVerificationPage)
  {
    VerifyEmailTarget(s);
  }

  /**
   * The guards and the catch-all never loop: for a well-formed session every path reaches a
   * page after at most two redirects, an unauthenticated session never reaches DashboardHome,
   * and a verified user never reaches a guest-only page.
   */
  lemma RedirectsSettle(s: Session, path: Path)
    requires WellFormed(s)
    ensures Navigate(s, path, 2).Show?
    ensures !s.isAuthenticated ==> !Navigate(s, path, 2).page.DashboardHome?
    ensures s.isAuthenticated && s.user.value.isVerified ==> Navigate(s, path, 2).page !in GuestPages
  {
    AppStep(s, path);
    var first := App(false, s, path);
    if first.Redirect? {
      if first.to == HomePath {
        HomeSettles(s);
      } else if first.to == LoginPath {
        LoginSettles(s);
      } else {
        VerifyEmailSettles(s);
      }
    }
  }
}
