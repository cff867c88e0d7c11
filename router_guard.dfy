/**
 * The web front end's navigation guard: before each route change the auth
 * store is initialised once, then a route that requires authentication sends
 * an anonymous user to `/login`, and the login and register pages send an
 * authenticated user to `/`. What `init` finds out (a stored token that is
 * still valid) is a parameter.
 */
module RouterGuard {
  import opened Wrappers

  const Home := "/"
  const Login := "/login"
  const Register := "/register"
  const ProjectPrefix := "/home/"

  /** The auth store's two flags. */
  datatype Auth = Auth(initialized: bool, authenticated: bool)

  /** What the guard did: the store after it, whether `init` ran, where it redirected. */
  datatype Outcome = Outcome(auth: Auth, initRan: bool, redirect: Option<string>)

  predicate HasNoSlash(s: string) {
    forall k :: 0 <= k < |s| ==> s[k] != '/'
  }

  /** `/home/:projectId` with a non-empty segment. */
  predicate IsProjectPath(path: string) {
    |path| > |ProjectPrefix| && path[..|ProjectPrefix|] == ProjectPrefix && HasNoSlash(path[|ProjectPrefix|..])
  }

  /** `to.meta.requiresAuth`, from the route table: the project list and a project page. */
  predicate RequiresAuth(path: string) {
    path == Home || IsProjectPath(path)
  }

  predicate IsAuthPage(path: string) {
    path == Login || path == Register
  }

  /** The decision once the store is initialised. */
  function Decide(path: string, authenticated: bool): Option<string> {
    if RequiresAuth(path) && !authenticated then Some(Login)
    else if IsAuthPage(path) && authenticated then Some(Home)
    else None
  }

  /** The guard; `initAuthenticated` is what `init` finds when it runs. */
  function Guard(path: string, auth: Auth, initAuthenticated: bool): (r: Outcome)
    ensures r.auth.initialized
    ensures r.initRan <==> !auth.initialized
    ensures auth.initialized ==> r.auth == auth
    ensures !auth.initialized ==> r.auth.authenticated == initAuthenticated
  {
    var after := if auth.initialized then auth else Auth(true, initAuthenticated);
    Outcome(after, !auth.initialized, Decide(path, after.authenticated))
  }

  /** The pages the router knows, and their `requiresAuth`. */
  lemma RouteTable()
    ensures RequiresAuth(Home) && RequiresAuth("/home/42")
    ensures !RequiresAuth(Login) && !RequiresAuth(Register) && !RequiresAuth("/home/")
    ensures IsAuthPage(Login) && IsAuthPage(Register) && !IsAuthPage(Home)
  {
    assert ("/home/42")[..|ProjectPrefix|] == ProjectPrefix;
    assert Register[..|ProjectPrefix|][1] != ProjectPrefix[1];
  }

  /** The login and register pages need no authentication. */
  lemma AuthPagesArePublic(path: string)
    requires IsAuthPage(path)
    ensures !RequiresAuth(path)
  {
    RouteTable();
  }

  /** The decision uses the state `init` left, never the uninitialised one. */
  lemma InitBeforeDecision(path: string, auth: Auth, initAuthenticated: bool)
    requires !auth.initialized
    ensures var r := Guard(path, auth, initAuthenticated);
            r.initRan && r.redirect == Guard(path, Auth(true, initAuthenticated), auth.authenticated).redirect &&
            !Guard(path, r.auth, auth.authenticated).initRan
  {
  }

  /** A protected page sends an anonymous user to `/login`. */
  lemma AnonymousToLogin(path: string, auth: Auth, initAuthenticated: bool)
    requires RequiresAuth(path)
    requires !Guard(path, auth, initAuthenticated).auth.authenticated
    ensures Guard(path, auth, initAuthenticated).redirect == Some(Login)
  {
  }

  /** The login and register pages send an authenticated user to `/`. */
  lemma AuthenticatedToHome(path: string, auth: Auth, initAuthenticated: bool)
    requires IsAuthPage(path)
    requires Guard(path, auth, initAuthenticated).auth.authenticated
    ensures Guard(path, auth, initAuthenticated).redirect == Some(Home)
  {
    AuthPagesArePublic(path);
  }

  /** There is a redirect exactly in those two cases. */
  lemma RedirectOnlyThen(path: string, auth: Auth, initAuthenticated: bool)
    ensures var r := Guard(path, auth, initAuthenticated);
            r.redirect.Some? <==>
              (RequiresAuth(path) && !r.auth.authenticated) || (IsAuthPage(path) && r.auth.authenticated)
  {
  }

  /** The page a redirect leads to lets the user through: no redirect loops. */
  lemma NoRedirectLoop(path: string, auth: Auth, initAuthenticated: bool)
    ensures var r := Guard(path, auth, initAuthenticated);
            r.redirect.Some? ==>
              var next := Guard(r.redirect.value, r.auth, initAuthenticated);
              next.redirect == None && !next.initRan
  {
    RouteTable();
  }
}
