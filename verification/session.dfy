/** The session store (`AuthManager`): the token and the user profile kept in
    the browser's local storage, with the token mirrored into the `auth-token`
    cookie that the edge middleware reads. Every operation is a no-op when
    there is no `window` (server rendering). */
module Session {
  import opened Base
  import Routing

  /** The principal as the backend describes it. Its JSON serialisation in
      local storage is treated as lossless. */
  datatype User = User(
    id: int,
    name: string,
    email: string,
    phone: Option<string>,
    address: Option<string>,
    document: Option<string>,
    companyId: int,
    createdAt: string,
    updatedAt: string)

  const CookieName: string := "auth-token"

  /** Seven days, in seconds. */
  const SessionMaxAge: nat := 7 * 24 * 60 * 60

  /** `Thu, 01 Jan 1970 00:00:01 GMT` as seconds since the epoch. */
  const ExpiredEpoch: int := 1

  /** When a cookie written now stops being sent. */
  datatype Lifetime = MaxAge(seconds: nat) | Expires(epochSecond: int)

  /** One assignment to `document.cookie`. */
  datatype CookieWrite = CookieWrite(name: string, value: string, path: string, lifetime: Lifetime)

  /** The browser state the manager owns: whether `window` exists, the
      values under `auth-token` and `auth-user` in local storage, and the
      cookie jar (name to value). */
  datatype Store = Store(
    hasWindow: bool,
    token: Option<string>,
    user: Option<User>,
    cookies: map<string, string>)

  /** The characters a browser strips around a cookie's name and value:
      space and horizontal tab (section 5.2 of RFC 6265). */
  predicate IsCookieSpace(c: char) {
    c == ' ' || c == '\t'
  }

  /** Leading spaces and tabs removed. */
  function StripLeading(s: string): (r: string)
    ensures |r| <= |s| && r == s[|s| - |r|..]
    ensures r == [] || !IsCookieSpace(r[0])
    ensures forall i :: 0 <= i < |s| - |r| ==> IsCookieSpace(s[i])
    decreases |s|
  {
    if |s| > 0 && IsCookieSpace(s[0]) then
      var r := StripLeading(s[1..]);
      assert forall i :: 1 <= i < |s| - |r| ==> s[i] == s[1..][i - 1];
      r
    else s
  }

  /** Trailing spaces and tabs removed. */
  function StripTrailing(s: string): (r: string)
    ensures |r| <= |s| && r == s[..|r|]
    ensures r == [] || !IsCookieSpace(r[|r| - 1])
    ensures forall i :: |r| <= i < |s| ==> IsCookieSpace(s[i])
    decreases |s|
  {
    if |s| > 0 && IsCookieSpace(s[|s| - 1]) then
      var r := StripTrailing(s[..|s| - 1]);
      assert forall i :: |r| <= i < |s| - 1 ==> s[i] == s[..|s| - 1][i];
      r
    else s
  }

  /** The text of a cookie assignment up to its first `;`; what follows is
      read as attributes. */
  function BeforeSemicolon(text: string): (r: string)
    ensures ';' !in r
    ensures |r| <= |text| && r == text[..|r|]
    ensures ';' !in text ==> r == text
  {
    match SplitFirst(text, ';')
    case None => text
    case Some((head, _)) => head
  }

  /** A token the cookie carries unchanged: no `;`, and no space or tab at
      either end. */
  predicate CookieSafe(token: string) {
    ';' !in token && (token == "" || (!IsCookieSpace(token[0]) && !IsCookieSpace(token[|token| - 1])))
  }

  /** The value a browser keeps from `auth-token=<text>; path=/; …`: the text
      up to its first `;`, without the spaces and tabs around it. */
  function CookieValue(text: string): (v: string)
    ensures ';' !in v
    ensures v == "" || (!IsCookieSpace(v[0]) && !IsCookieSpace(v[|v| - 1]))
    ensures CookieSafe(text) ==> v == text
  {
    StripTrailing(StripLeading(BeforeSemicolon(text)))
  }

  /** The cookie comes out empty exactly when everything before the first
      `;` is spaces and tabs. */
  lemma CookieValueEmpty(text: string)
    ensures CookieValue(text) == "" <==>
      forall i :: 0 <= i < |BeforeSemicolon(text)| ==> IsCookieSpace(BeforeSemicolon(text)[i])
  {
    var lead := StripLeading(BeforeSemicolon(text));
    if lead != "" {
      assert lead[0] == StripTrailing(lead)[0];
    }
  }

  /** A cookie write takes effect on the jar: a live cookie is set to the
      value the browser reads from the written text, one whose lifetime is
      already over (max-age 0, or an expiry date not after `now`) is
      removed. Other cookies are untouched. */
  function ApplyCookie(jar: map<string, string>, w: CookieWrite, now: int): (r: map<string, string>)
    ensures forall n :: n in jar && n != w.name ==> n in r && r[n] == jar[n]
    ensures forall n :: n in r && n != w.name ==> n in jar
  {
    var live := match w.lifetime
      case MaxAge(s) => s > 0
      case Expires(t) => t > now;
    if live then jar[w.name := CookieValue(w.value)] else jar - {w.name}
  }

  /** The value of the cookie the middleware looks up. */
  function AuthCookie(s: Store): Option<string> {
    if CookieName in s.cookies then Some(s.cookies[CookieName]) else None
  }

  datatype Saved = Saved(store: Store, cookie: Option<CookieWrite>)

  /** `saveAuth(token, user)`: the token is written into the cookie text
      unencoded, so the cookie holds it only when it is cookie-safe. */
  function SaveAuth(s: Store, token: string, user: User, now: int): (r: Saved)
    ensures !s.hasWindow ==> r == Saved(s, None)
    ensures s.hasWindow ==> r.store.token == Some(token) && r.store.user == Some(user)
    ensures s.hasWindow ==> r.cookie == Some(CookieWrite("auth-token", token, "/", MaxAge(604800)))
    ensures s.hasWindow ==> AuthCookie(r.store) == Some(CookieValue(token))
    ensures s.hasWindow && CookieSafe(token) ==> AuthCookie(r.store) == Some(token)
    ensures r.store.hasWindow == s.hasWindow
  {
    if !s.hasWindow then Saved(s, None)
    else
      var w := CookieWrite(CookieName, token, "/", MaxAge(SessionMaxAge));
      Saved(Store(true, Some(token), Some(user), ApplyCookie(s.cookies, w, now)), Some(w))
  }

  /** `getToken()` */
  function GetToken(s: Store): Option<string> {
    if s.hasWindow then s.token else None
  }

  /** `getUser()` */
  function GetUser(s: Store): Option<User> {
    if s.hasWindow then s.user else None
  }

  /** `isAuthenticated()`: a stored token of any value, the empty string
      included. */
  function IsAuthenticated(s: Store): (b: bool)
    ensures b <==> s.hasWindow && s.token.Some?
  {
    GetToken(s) != None
  }

  /** `clearAuth()` */
  function ClearAuth(s: Store, now: int): (r: Saved)
    ensures !s.hasWindow ==> r == Saved(s, None)
    ensures s.hasWindow ==> r.cookie == Some(CookieWrite("auth-token", "", "/", Expires(1)))
    ensures GetToken(r.store) == None && GetUser(r.store) == None
    ensures s.hasWindow && now >= ExpiredEpoch ==> AuthCookie(r.store) == None
    ensures r.store.hasWindow == s.hasWindow
  {
    if !s.hasWindow then Saved(s, None)
    else
      var w := CookieWrite(CookieName, "", "/", Expires(ExpiredEpoch));
      Saved(Store(true, None, None, ApplyCookie(s.cookies, w, now)), Some(w))
  }

  datatype LoggedOut = LoggedOut(store: Store, cookie: Option<CookieWrite>, navigate: Option<string>)

  /** `logout()`: clear, then send the browser to the login page. */
  function Logout(s: Store, now: int): (r: LoggedOut)
    ensures r.store == ClearAuth(s, now).store && r.cookie == ClearAuth(s, now).cookie
    ensures r.navigate.Some? <==> s.hasWindow
    ensures r.navigate.Some? ==> r.navigate.value == Routing.LoginPath
  {
    var c := ClearAuth(s, now);
    LoggedOut(c.store, c.cookie, if s.hasWindow then Some(Routing.LoginPath) else None)
  }

  /** What was saved is what is read back, until the session is cleared. */
  lemma SaveGetRoundTrip(s: Store, token: string, user: User, now: int)
    requires s.hasWindow
    ensures GetToken(SaveAuth(s, token, user, now).store) == Some(token)
    ensures GetUser(SaveAuth(s, token, user, now).store) == Some(user)
    ensures IsAuthenticated(SaveAuth(s, token, user, now).store)
    ensures !IsAuthenticated(ClearAuth(SaveAuth(s, token, user, now).store, now).store)
  {
  }

  /** Clearing twice leaves the same store as clearing once. */
  lemma ClearIdempotent(s: Store, now: int)
    ensures ClearAuth(ClearAuth(s, now).store, now).store == ClearAuth(s, now).store
  {
    if s.hasWindow {
      ApplyTwice(s.cookies, CookieWrite(CookieName, "", "/", Expires(ExpiredEpoch)), now);
    }
  }

  /** Writing the same cookie twice leaves the jar as writing it once. */
  lemma ApplyTwice(jar: map<string, string>, w: CookieWrite, now: int)
    ensures ApplyCookie(ApplyCookie(jar, w, now), w, now) == ApplyCookie(jar, w, now)
  {
    var once := ApplyCookie(jar, w, now);
    if w.name in once {
      assert once == jar[w.name := CookieValue(w.value)];
      assert once[w.name := CookieValue(w.value)] == once;
    } else {
      assert once == jar - {w.name};
      assert once - {w.name} == once;
    }
  }

  /** Without a window nothing is read and nothing changes. */
  lemma NoWindowIsInert(s: Store, token: string, user: User, now: int)
    requires !s.hasWindow
    ensures GetToken(s) == None && GetUser(s) == None && !IsAuthenticated(s)
    ensures SaveAuth(s, token, user, now).store == s
    ensures ClearAuth(s, now).store == s
    ensures Logout(s, now).navigate == None
  {
  }

  /** The cookie mirror keeps the edge gate in step with the store: after a
      save whose token leaves a non-empty cookie (every non-empty cookie-safe
      token does) every path is let through, and after a clear every
      protected path is redirected to login. */
  lemma StoreAndEdgeAgree(s: Store, token: string, user: User, pathname: string, now: int)
    requires s.hasWindow
    requires now >= ExpiredEpoch
    ensures CookieValue(token) != "" ==> Routing.Middleware(pathname, AuthCookie(SaveAuth(s, token, user, now).store)) == Routing.Next
    ensures CookieSafe(token) && token != "" ==> CookieValue(token) != ""
    ensures !Routing.IsPublicPage(pathname) ==>
      Routing.Middleware(pathname, AuthCookie(ClearAuth(s, now).store)) == Routing.Redirect(Routing.LoginRedirect(pathname))
  {
  }

  /** The two notions of "logged in" differ on a token that leaves an empty
      cookie (the empty token, one of spaces, one starting with `;`): the
      store counts it as authenticated while the edge gate redirects. */
  lemma EmptyTokenDisagreement(s: Store, token: string, user: User, now: int)
    requires s.hasWindow
    requires CookieValue(token) == ""
    ensures var saved := SaveAuth(s, token, user, now).store;
      IsAuthenticated(saved) && Routing.Edge("/", AuthCookie(saved)) == Routing.Redirect(Routing.LoginRedirect("/"))
  {
    var saved := SaveAuth(s, token, user, now).store;
    assert AuthCookie(saved) == Some("");
    Routing.ScreensAreProtected("/", AuthCookie(saved));
  }

  /** Whatever follows the first `;` is not part of the cookie's value. */
  lemma CookieIgnoresAttributes(head: string, tail: string)
    requires ';' !in head
    ensures CookieValue(head + ";" + tail) == CookieValue(head)
  {
    SplitFirstOfJoin(head, ';', tail);
    assert head + ";" + tail == head + [';'] + tail;
  }

  /** A token of spaces and tabs leaves an empty cookie. */
  lemma BlankCookie(blank: string)
    requires forall i :: 0 <= i < |blank| ==> IsCookieSpace(blank[i])
    ensures CookieValue(blank) == ""
  {
    assert BeforeSemicolon(blank) == blank by {
      assert forall i :: 0 <= i < |blank| ==> blank[i] != ';';
    }
    CookieValueEmpty(blank);
  }

  /** A token of blanks (possibly none) followed by `;` leaves an empty
      cookie whatever follows. */
  lemma BlankBeforeAttributes(blank: string, tail: string)
    requires forall i :: 0 <= i < |blank| ==> IsCookieSpace(blank[i])
    ensures CookieValue(blank + ";" + tail) == ""
  {
    assert ';' !in blank by {
      assert forall i :: 0 <= i < |blank| ==> blank[i] != ';';
    }
    BlankCookie(blank);
    CookieIgnoresAttributes(blank, tail);
  }
}
