/** The route table, the `PrivateRoute` guard and the `Layout` frame rule of App.tsx,
    over the two flags the session store exposes (`isAuthenticated`, `isLoading`) and the
    current path.

    The route table is matched the way React Router (version 6) matches a `<Route path>`:
    letter case is ignored and any number of trailing slashes is accepted. The frame rule
    compares the pathname exactly. */
module Routing {
  import opened Common

  datatype Page = LoginPage | RegisterPage | DashboardPage | UsersPage

  /** What `PrivateRoute` renders. */
  datatype GuardOutcome = ShowLoading | RedirectToLogin | RenderChildren

  /** The element a route of the table mounts. */
  datatype RouteElement = Public(page: Page) | Guarded(page: Page) | NavigateTo(target: string)

  /** What ends up in the content area. */
  datatype Screen = LoadingScreen | ShowPage(page: Page) | Redirect(target: string)

  const LoginPath := "/login"

  /** `PrivateRoute`: loading first, then the authentication check. */
  function PrivateRoute(isAuthenticated: bool, isLoading: bool): (r: GuardOutcome)
    ensures isLoading ==> r == ShowLoading
    ensures !isLoading ==> (r == RenderChildren <==> isAuthenticated)
    ensures !isLoading ==> (r == RedirectToLogin <==> !isAuthenticated)
  {
    if isLoading then ShowLoading
    else if isAuthenticated then RenderChildren
    else RedirectToLogin
  }

  /** `Layout`: the header and sidebar are left out for visitors and on the two public
      pages. */
  function HideLayout(isAuthenticated: bool, path: string): (hidden: bool)
    ensures hidden <==> !isAuthenticated || path == "/login" || path == "/register"
  {
    !isAuthenticated || path in ["/login", "/register"]
  }

  /** `s` without the slashes it ends in. */
  function TrimTrailingSlashes(s: string): (r: string)
    ensures |r| <= |s| && r == s[..|r|]
    ensures r == [] || r[|r| - 1] != '/'
    ensures forall k :: |r| <= k < |s| ==> s[k] == '/'
  {
    if s != [] && s[|s| - 1] == '/' then TrimTrailingSlashes(s[..|s| - 1]) else s
  }

  /** The spelling of a pathname the route table compares: lower case, without trailing
      slashes. */
  function Normalize(path: string): string {
    TrimTrailingSlashes(Lower(path))
  }

  /** A path already in normalised spelling is its own normalisation. */
  lemma NormalizeFixes(path: string)
    requires forall i :: 0 <= i < |path| ==> !('A' <= path[i] <= 'Z')
    requires path != [] && path[|path| - 1] != '/'
    ensures Normalize(path) == path
  {
    assert Lower(path) == path;
  }

  /** The paths of the table are written in their normalised spelling. */
  lemma LoginPathIsNormal()
    ensures Normalize("/login") == "/login"
  {
    NormalizeFixes("/login");
  }

  lemma GuardedPathsAreNormal()
    ensures Normalize("/dashboard") == "/dashboard" && Normalize("/users") == "/users"
  {
    NormalizeFixes("/dashboard");
    NormalizeFixes("/users");
  }

  /** Spellings the router accepts besides the one written in the table. */
  lemma RouteVariants()
    ensures Route(Normalize("/Dashboard")) == Guarded(DashboardPage)
    ensures Route(Normalize("/users/")) == Guarded(UsersPage)
    ensures Route(Normalize("/Register")) == Public(RegisterPage)
    ensures Route(Normalize("/LOGIN/")) == Public(LoginPage)
  {
    assert Normalize("/Dashboard") == "/dashboard" by {
      assert Lower("/Dashboard") == "/dashboard";
      NormalizeFixes("/dashboard");
    }
    assert Normalize("/Register") == "/register" by {
      assert Lower("/Register") == "/register";
      NormalizeFixes("/register");
    }
    assert Normalize("/users/") == "/users" by {
      assert Lower("/users/") == "/users/";
      assert "/users/"[..6] == "/users";
    }
    assert Normalize("/LOGIN/") == "/login" by {
      assert Lower("/LOGIN/") == "/login/";
      assert "/login/"[..6] == "/login";
    }
  }

  /** The `<Routes>` table, in the order its routes are listed, on a normalised path. */
  function Route(path: string): (e: RouteElement)
    ensures e.Public? <==> path == "/login" || path == "/register"
    ensures e.Guarded? <==> path == "/dashboard" || path == "/users"
    ensures e.NavigateTo? ==> e.target == LoginPath
  {
    if path == "/login" then Public(LoginPage)
    else if path == "/register" then Public(RegisterPage)
    else if path == "/dashboard" then Guarded(DashboardPage)
    else if path == "/users" then Guarded(UsersPage)
    else NavigateTo(LoginPath)
  }

  /** The content area at `path`. */
  function Render(path: string, isAuthenticated: bool, isLoading: bool): Screen {
    match Route(Normalize(path))
    case Public(p) => ShowPage(p)
    case NavigateTo(t) => Redirect(t)
    case Guarded(p) =>
      match PrivateRoute(isAuthenticated, isLoading)
      case ShowLoading => LoadingScreen
      case RedirectToLogin => Redirect(LoginPath)
      case RenderChildren => ShowPage(p)
  }

  /** The content after following at most one redirect (every redirect goes to the
      login page, which never redirects). */
  function Settle(path: string, isAuthenticated: bool, isLoading: bool): (s: Screen)
    ensures !s.Redirect?
  {
    LoginPathIsNormal();
    match Render(path, isAuthenticated, isLoading)
    case Redirect(t) => Render(t, isAuthenticated, isLoading)
    case other => other
  }

  /** A guarded page is shown only to a signed-in user once loading is over, and the
      dashboard and users pages are shown exactly on the spellings of their paths. */
  lemma GuardedPageNeedsSession(path: string, isAuthenticated: bool, isLoading: bool)
    ensures var s := Render(path, isAuthenticated, isLoading);
            s.ShowPage? && (s.page == DashboardPage || s.page == UsersPage)
            ==> isAuthenticated && !isLoading
    ensures Render(path, isAuthenticated, isLoading).ShowPage?
            ==> (Render(path, isAuthenticated, isLoading).page in {DashboardPage, UsersPage}
                 <==> Normalize(path) == "/dashboard" || Normalize(path) == "/users")
  {
  }

  /** While the session is loading, a guarded path shows the loading placeholder whether
      or not anybody is signed in. */
  lemma LoadingWins(isAuthenticated: bool)
    ensures Render("/dashboard", isAuthenticated, true) == LoadingScreen
    ensures Render("/users", isAuthenticated, true) == LoadingScreen
  {
    GuardedPathsAreNormal();
  }

  /** Any path that is no spelling of a listed route redirects to '/login', signed in or
      not. */
  lemma UnknownPathRedirects(path: string, isAuthenticated: bool, isLoading: bool)
    requires Normalize(path) !in ["/login", "/register", "/dashboard", "/users"]
    ensures Render(path, isAuthenticated, isLoading) == Redirect(LoginPath)
    ensures Settle(path, isAuthenticated, isLoading) == ShowPage(LoginPage)
  {
    LoginPathIsNormal();
  }

  /** A visitor who is not signed in ends on the register page if that is where they went
      (in any spelling), and on the login page otherwise, once loading is over. */
  lemma VisitorsEndOnPublicPage(path: string)
    ensures Settle(path, false, false)
            == (if Normalize(path) == "/register" then ShowPage(RegisterPage) else ShowPage(LoginPage))
  {
    LoginPathIsNormal();
  }

  /** As written, the frame rule compares the pathname exactly while the route table does
      not: a signed-in user at '/login/' sees the login page inside the header and
      sidebar. */
  lemma FrameAroundLoginVariant()
    ensures !HideLayout(true, "/login/")
    ensures Render("/login/", true, false) == ShowPage(LoginPage)
  {
    assert Lower("/login/") == "/login/";
    assert TrimTrailingSlashes("/login/") == "/login" by {
      assert "/login/"[..6] == "/login";
    }
  }

  /** The frame rule compared on the same spelling the route table uses. */
  function HideLayoutOnRoute(isAuthenticated: bool, path: string): (hidden: bool)
    ensures hidden <==> !isAuthenticated || Normalize(path) == "/login" || Normalize(path) == "/register"
  {
    !isAuthenticated || Normalize(path) in ["/login", "/register"]
  }

  /** With that rule the frame is never drawn around a page a visitor may see without
      signing in, and it is drawn around every guarded page a signed-in user sees. */
  lemma FrameOnlyAroundGuardedPages(path: string, isAuthenticated: bool, isLoading: bool)
    ensures !HideLayoutOnRoute(isAuthenticated, path) ==>
              Render(path, isAuthenticated, isLoading) != ShowPage(LoginPage)
              && Render(path, isAuthenticated, isLoading) != ShowPage(RegisterPage)
    ensures isAuthenticated && Render(path, isAuthenticated, isLoading) in {ShowPage(DashboardPage), ShowPage(UsersPage)}
            ==> !HideLayoutOnRoute(isAuthenticated, path)
  {
  }
}
