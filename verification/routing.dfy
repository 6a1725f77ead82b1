/** Route protection. Two independent checks decide whether a page may be
    shown: the edge middleware, which sees only the request path and the
    `auth-token` cookie, and the in-tree `ProtectedRoute` gate, which sees the
    auth context. Both classify paths with the same public-page list. */
module Routing {
  import opened Base

  /** The pages reachable without a session, in both gates. */
  const PublicPages: seq<string> := ["/login", "/register"]

  const LoginPath: string := "/login"

  /** `pages.some(page => pathname.startsWith(page))` */
  function SomePrefix(pages: seq<string>, pathname: string): (b: bool)
    ensures b <==> exists i :: 0 <= i < |pages| && StartsWith(pathname, pages[i])
  {
    if |pages| == 0 then false
    else StartsWith(pathname, pages[0]) || SomePrefix(pages[1..], pathname)
  }

  /** A page is public when its path merely starts with a public page, so
      `/loginx` and `/registered` are public as well. */
  function IsPublicPage(pathname: string): (b: bool)
    ensures b <==> StartsWith(pathname, "/login") || StartsWith(pathname, "/register")
  {
    var b := SomePrefix(PublicPages, pathname);
    assert PublicPages[0] == "/login" && PublicPages[1] == "/register";
    b
  }

  /** A navigation to the login page whose `redirect` query parameter holds
      the originally requested path (before URL encoding). */
  datatype LoginRedirect = LoginRedirect(redirect: string)

  // ---------------------------------------------------------------------
  // Edge middleware
  // ---------------------------------------------------------------------

  datatype EdgeResponse = Next | Redirect(to: LoginRedirect)

  /** The middleware's answer for a request to `pathname` carrying the
      cookie value `authCookie` (None when the cookie is absent). The token is
      never checked against the backend: any non-empty value lets the request
      through. */
  function Middleware(pathname: string, authCookie: Option<string>): (r: EdgeResponse)
    ensures r.Next? <==> IsPublicPage(pathname) || Truthy(authCookie)
    ensures r.Redirect? ==> r.to == LoginRedirect(pathname)
  {
    if IsPublicPage(pathname) then Next
    else if !Truthy(authCookie) then Redirect(LoginRedirect(pathname))
    else Next
  }

  /** A public page is never redirected, whatever the cookie: `/login` and
      `/register` with any suffix (a query, `x`, `ed`) pass. */
  lemma PublicPagesNeverRedirect(suffix: string, authCookie: Option<string>)
    ensures Middleware("/login" + suffix, authCookie) == Next
    ensures Middleware("/register" + suffix, authCookie) == Next
  {
    assert ("/login" + suffix)[..6] == "/login";
    assert ("/register" + suffix)[..9] == "/register";
  }

  /** The middleware's path matcher `/((?!api|_next/static|_next/image|favicon.ico|assets).*)`:
      a path is handed to the middleware when it starts with `/` and what
      follows does not start with one of the excluded prefixes. The prefixes
      are not delimited, so `/apiary` is excluded as well, and the `.` in
      `favicon.ico` stands for any one character. */
  predicate Exempt(rest: string) {
    || StartsWith(rest, "api")
    || StartsWith(rest, "_next/static")
    || StartsWith(rest, "_next/image")
    || (|rest| >= 11 && rest[..7] == "favicon" && rest[8..11] == "ico")
    || StartsWith(rest, "assets")
  }

  predicate Matched(pathname: string) {
    |pathname| >= 1 && pathname[0] == '/' && !Exempt(pathname[1..])
  }

  /** What the edge answers for a request: a path outside the matcher never
      reaches the middleware and is served as it is. */
  function Edge(pathname: string, authCookie: Option<string>): (r: EdgeResponse)
    ensures r.Next? <==> !Matched(pathname) || IsPublicPage(pathname) || Truthy(authCookie)
    ensures r.Redirect? ==> r.to == LoginRedirect(pathname) && Matched(pathname)
  {
    if Matched(pathname) then Middleware(pathname, authCookie) else Next
  }

  /** Static files, API routes and the favicon are served without a cookie,
      and so is any page whose path merely starts with an excluded prefix. */
  lemma ExemptPathsPass(rest: string, authCookie: Option<string>)
    requires StartsWith(rest, "api") || StartsWith(rest, "_next/static") || StartsWith(rest, "_next/image") || StartsWith(rest, "assets")
    ensures Edge("/" + rest, authCookie) == Next
    ensures Edge("/favicon.ico", authCookie) == Next && Edge("/favicon-ico", authCookie) == Next
  {
    assert ("/" + rest)[1..] == rest;
    assert "/favicon.ico"[1..][..7] == "favicon" && "/favicon.ico"[1..][8..11] == "ico";
    assert "/favicon-ico"[1..][..7] == "favicon" && "/favicon-ico"[1..][8..11] == "ico";
  }

  /** The dashboard and the resource screens are matched and protected:
      without a cookie, or with an empty one, they redirect back to themselves
      via login. */
  lemma ScreensAreProtected(pathname: string, authCookie: Option<string>)
    requires pathname in ["/", "/produtos", "/clientes", "/usuarios", "/mesas", "/comandas", "/forgot-password"]
    requires authCookie == None || authCookie == Some("")
    ensures Matched(pathname)
    ensures Edge(pathname, authCookie) == Redirect(LoginRedirect(pathname))
  {
    assert |pathname| < 2 || (pathname[1] != 'l' && pathname[1] != 'r');
    assert "/login"[1] == 'l' && "/register"[1] == 'r';
    assert |pathname| < 2 || (pathname[1] != 'a' && pathname[1] != '_');
    assert |pathname| < 3 || pathname[1] != 'f' || pathname[2] != 'a';
    assert "api"[0] == 'a' && "assets"[0] == 'a' && "_next/static"[0] == '_' && "_next/image"[0] == '_';
  }

  // ---------------------------------------------------------------------
  // In-tree gate
  // ---------------------------------------------------------------------

  /** What the gate reads from the auth context. */
  datatype AuthView = AuthView(isAuthenticated: bool, isLoading: bool)

  /** The gate's own state: `isChecking`, true when it mounts. */
  datatype Gate = Gate(isChecking: bool)

  /** The gate as it mounts, still checking. */
  const MountedGate: Gate := Gate(true)

  datatype GateView = Spinner | Children | Blank

  /** What the gate renders. Children are shown only once loading is over,
      the gate's effect has cleared `isChecking`, and the page is public or the
      user is authenticated. */
  function GateRender(g: Gate, auth: AuthView, pathname: string): (v: GateView)
    ensures v == Children ==> !auth.isLoading && (IsPublicPage(pathname) || auth.isAuthenticated)
    ensures v == Blank ==> !auth.isAuthenticated && !IsPublicPage(pathname)
    ensures auth.isLoading ==> v == Spinner
  {
    if auth.isLoading || g.isChecking then Spinner
    else if !auth.isAuthenticated && !IsPublicPage(pathname) then Blank
    else Children
  }

  datatype GateStep = GateStep(gate: Gate, navigate: Option<LoginRedirect>)

  /** The gate's effect: wait while loading; otherwise either finish checking
      (public page, or authenticated) or replace the location with the login
      page carrying the current path. */
  function GateEffect(g: Gate, auth: AuthView, pathname: string): (r: GateStep)
    ensures auth.isLoading ==> r == GateStep(g, None)
    ensures r.navigate.Some? <==> !auth.isLoading && !IsPublicPage(pathname) && !auth.isAuthenticated
    ensures r.navigate.Some? ==> r.navigate.value == LoginRedirect(pathname) && r.gate == g
    ensures !auth.isLoading && r.navigate.None? ==> r.gate == Gate(false)
  {
    if auth.isLoading then GateStep(g, None)
    else if IsPublicPage(pathname) then GateStep(Gate(false), None)
    else if !auth.isAuthenticated then GateStep(g, Some(LoginRedirect(pathname)))
    else GateStep(Gate(false), None)
  }

  /** One render-effect round: the effect runs, then the gate renders again
      with the state the effect left. */
  datatype Settled = Settled(view: GateView, navigate: Option<LoginRedirect>)

  function Settle(g: Gate, auth: AuthView, pathname: string): Settled {
    var step := GateEffect(g, auth, pathname);
    Settled(GateRender(step.gate, auth, pathname), step.navigate)
  }

  /** While the context is loading the gate shows the spinner, navigates
      nowhere and keeps its state. */
  lemma GateWaitsWhileLoading(g: Gate, isAuthenticated: bool, pathname: string)
    ensures Settle(g, AuthView(isAuthenticated, true), pathname) == Settled(Spinner, None)
    ensures GateEffect(g, AuthView(isAuthenticated, true), pathname).gate == g
  {
  }

  /** The gate's decision once loading is over, from any gate state: children
      exactly when the page is public or the user is authenticated, and
      otherwise a navigation to login carrying the path. On a fresh mount the
      unauthenticated case still shows the spinner, because `isChecking` is
      left set; the blank view appears only when an authenticated session is
      lost after the gate has finished checking. */
  lemma GateDecision(g: Gate, isAuthenticated: bool, pathname: string)
    ensures var s := Settle(g, AuthView(isAuthenticated, false), pathname);
      && (s.view == Children <==> IsPublicPage(pathname) || isAuthenticated)
      && (s.navigate.Some? <==> !IsPublicPage(pathname) && !isAuthenticated)
      && (s.navigate.Some? ==> s.navigate.value == LoginRedirect(pathname))
      && (s.navigate.Some? ==> s.view == (if g.isChecking then Spinner else Blank))
  {
  }

  /** With the context loaded and the cookie present exactly when the context
      is authenticated, the middleware and the in-tree gate reach the same
      decision: on a path the matcher hands it, the edge lets the request
      through exactly when the gate shows the children, and both send the
      user to the same login redirect otherwise. On a path outside the
      matcher the edge always lets the request through, so there the two
      disagree for a visitor without a session on a protected page. */
  lemma GatesAgree(g: Gate, pathname: string, authCookie: Option<string>)
    ensures var s := Settle(g, AuthView(Truthy(authCookie), false), pathname);
      && (Middleware(pathname, authCookie).Next? <==> s.view == Children)
      && (Middleware(pathname, authCookie).Redirect? <==> s.navigate.Some?)
      && (s.navigate.Some? ==> Middleware(pathname, authCookie) == Redirect(s.navigate.value))
    ensures var s := Settle(g, AuthView(Truthy(authCookie), false), pathname);
      && (Matched(pathname) ==> (Edge(pathname, authCookie).Next? <==> s.view == Children))
      && (Matched(pathname) && s.navigate.Some? ==> Edge(pathname, authCookie) == Redirect(s.navigate.value))
      && (!Matched(pathname) ==> Edge(pathname, authCookie) == Next)
      && (!Matched(pathname) && !IsPublicPage(pathname) && !Truthy(authCookie) ==> s.navigate.Some? && s.view != Children)
  {
  }

  /** A page whose path merely starts with an excluded prefix, such as
      `/apiary`, is served by the edge without a session while the in-tree
      gate sends the visitor to login. */
  lemma ExemptPageDisagreement(g: Gate)
    ensures Edge("/apiary", None) == Next
    ensures Settle(g, AuthView(false, false), "/apiary").navigate == Some(LoginRedirect("/apiary"))
  {
    assert "/apiary"[1..][..3] == "api";
    assert "/apiary"[1] != 'l' && "/apiary"[1] != 'r';
    assert "/login"[1] == 'l' && "/register"[1] == 'r';
  }

  /** A freshly mounted gate on a protected page without a session shows the
      spinner and sends the browser to login with the page as `redirect`. */
  lemma FreshMountShowsSpinner(pathname: string)
    requires !IsPublicPage(pathname)
    ensures Settle(MountedGate, AuthView(false, false), pathname) == Settled(Spinner, Some(LoginRedirect(pathname)))
    ensures Settle(MountedGate, AuthView(true, false), pathname) == Settled(Children, None)
  {
  }
}
