/** The auth context (`AuthProvider`): the process-wide `{user, isLoading}`
    state, its mount-time check against the session store, and the login and
    logout operations. API replies and the clock are inputs. */
module AuthContext {
  import opened Base
  import Session
  import Api

  datatype AuthState = AuthState(user: Option<Session.User>, isLoading: bool)

  /** The provider's state before its mount effect runs. */
  const Mounted: AuthState := AuthState(None, true)

  /** `isAuthenticated = user !== null` */
  predicate IsAuthenticated(a: AuthState) {
    a.user.Some?
  }

  /** The mount effect `checkAuth`: adopt the saved user only when a
      non-empty token is stored too; loading ends either way. The token is not
      validated against the backend. */
  function Init(store: Session.Store): (a: AuthState)
    ensures !a.isLoading
    ensures IsAuthenticated(a) <==> Session.GetUser(store).Some? && Truthy(Session.GetToken(store))
    ensures IsAuthenticated(a) ==> a.user == Session.GetUser(store)
  {
    var saved := Session.GetUser(store);
    if saved.Some? && Truthy(Session.GetToken(store)) then AuthState(saved, false) else Mounted.(isLoading := false)
  }

  datatype LoginStep = LoginStep(
    auth: AuthState,
    store: Session.Store,
    request: Api.Request,
    outcome: Result<()>)

  /** `login(email, password)`. Only a principal under `client` is adopted
      and persisted; a reply that names it `user` leaves the state as it was
      and raises nothing. A failed call is rethrown with the state untouched.
      Loading is off afterwards in every case. */
  function Login(a: AuthState, store: Session.Store, email: string, password: string,
                 reply: Api.Reply<Api.LoginJson>, now: int): (r: LoginStep)
    ensures r.request == Api.LoginRequest(email, password)
    ensures !r.auth.isLoading
    ensures r.outcome.Err? <==> !reply.OkReply?
    ensures r.outcome.Err? ==> Api.LoginResult(reply) == Err(r.outcome.thrown)
    ensures r.outcome.Err? ==> r.auth.user == a.user && r.store == store
    ensures reply.OkReply? && reply.body.client.Some? ==>
      && r.auth.user == reply.body.client
      && r.store == Session.SaveAuth(store, reply.body.token, reply.body.client.value, now).store
    ensures reply.OkReply? && reply.body.client.None? ==> r.auth.user == a.user && r.store == store
  {
    var request := Api.LoginRequest(email, password);
    match Api.LoginResult(reply)
    case Err(t) => LoginStep(a.(isLoading := false), store, request, Err(t))
    case Ok(response) =>
      if response.client.Some? then
        var saved := Session.SaveAuth(store, response.token, response.client.value, now);
        LoginStep(AuthState(response.client, false), saved.store, request, Ok(()))
      else
        LoginStep(a.(isLoading := false), store, request, Ok(()))
  }

  datatype LogoutStep = LogoutStep(auth: AuthState, store: Session.Store, request: Option<Api.Request>)

  /** `logout()`: the backend is told only when a non-empty token is stored;
      whatever it answers, the store is cleared, the user dropped and loading
      ended. */
  function Logout(a: AuthState, store: Session.Store, reply: Api.Reply<()>, now: int): (r: LogoutStep)
    ensures r.request.Some? <==> Truthy(Session.GetToken(store))
    ensures r.request.Some? ==> r.request.value == Api.LogoutRequest(Session.GetToken(store).value)
    ensures r.auth == AuthState(None, false) && !IsAuthenticated(r.auth)
    ensures r.store == Session.ClearAuth(store, now).store
  {
    var token := Session.GetToken(store);
    var request := if Truthy(token) then Some(Api.LogoutRequest(token.value)) else None;
    // The reply only reaches a log line: a failure is swallowed.
    LogoutStep(AuthState(None, false), Session.ClearAuth(store, now).store, request)
  }

  const OutsideProvider: string := "useAuth deve ser usado dentro de um AuthProvider"

  /** `useAuth()`: the provided context, or a thrown error outside a provider. */
  function UseAuth(provided: Option<AuthState>): (r: Result<AuthState>)
    ensures provided.None? ==> r == Err(ErrorThrown("useAuth deve ser usado dentro de um AuthProvider"))
    ensures provided.Some? ==> r == Ok(provided.value)
  {
    if provided.None? then Err(ErrorThrown(OutsideProvider)) else Ok(provided.value)
  }

  /** A failed logout call changes nothing: the outcome of logout does not
      depend on the reply. */
  lemma LogoutIgnoresReply(a: AuthState, store: Session.Store, r1: Api.Reply<()>, r2: Api.Reply<()>, now: int)
    ensures Logout(a, store, r1, now) == Logout(a, store, r2, now)
  {
  }

  /** The logout call, when made, authenticates with the stored token. */
  lemma LogoutSendsBearer(a: AuthState, store: Session.Store, reply: Api.Reply<()>, now: int)
    ensures var r := Logout(a, store, reply, now);
      r.request.Some? ==> r.request.value.headers["Authorization"] == "Bearer " + Session.GetToken(store).value
  {
  }

  /** Login from a fresh mount with `{client, token}` stores the token and
      authenticates, and with a non-empty token the next mount finds the same
      user again. */
  lemma LoginScenario(store: Session.Store, email: string, password: string, client: Session.User, token: string, now: int)
    requires store.hasWindow
    requires token != ""
    ensures var r := Login(Mounted, store, email, password, Api.OkReply(Api.LoginJson(Some(client), None, token, map[])), now);
      && Session.GetToken(r.store) == Some(token)
      && IsAuthenticated(r.auth)
      && Init(r.store).user == Some(client)
  {
  }

  /** A reply naming the principal `user` (not `client`) is accepted without
      error yet leaves the context's user and the store as they were, so from
      a signed-out context it signs nobody in. */
  lemma UserOnlyReplyStaysSignedOut(a: AuthState, store: Session.Store, email: string, password: string,
                                    user: Session.User, token: string, now: int)
    ensures var r := Login(a, store, email, password, Api.OkReply(Api.LoginJson(None, Some(user), token, map[])), now);
      && r.outcome.Ok? && r.auth.user == a.user && r.store == store
      && (!IsAuthenticated(a) ==> !IsAuthenticated(r.auth))
  {
  }

  /** After a successful login the context and the next mount agree exactly
      when the token is non-empty: an empty token is signed in now and signed
      out after a reload. */
  lemma LoginSurvivesReload(a: AuthState, store: Session.Store, email: string, password: string,
                            json: Api.LoginJson, now: int)
    requires store.hasWindow
    requires json.client.Some?
    ensures var r := Login(a, store, email, password, Api.OkReply(json), now);
      && IsAuthenticated(r.auth)
      && (IsAuthenticated(Init(r.store)) <==> json.token != "")
      && (json.token != "" ==> Init(r.store).user == r.auth.user)
  {
  }
}
