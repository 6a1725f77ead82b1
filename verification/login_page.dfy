/** The login screen: the credential form with its post-login redirect, the
    redirect of an already signed-in visitor, and the password-recovery flow
    embedded in the same screen. The embedded flow shares its local checks
    with the standalone recovery screen but verifies the code with the
    backend, and ends by clearing itself instead of navigating. */
module LoginPage {
  import opened Base
  import Routing
  import Session
  import Api
  import Recovery

  const LoginFallback: string := "Erro ao fazer login"
  const NoPrincipal: string := "Dados do usuário não encontrados"
  const InvalidCode: string := "Código inválido"
  const VerifyFallback: string := "Erro ao verificar código"

  /** The post-login destination: the `redirect` query parameter when it is
      present and non-empty, the dashboard otherwise. */
  function RedirectTarget(redirectParam: Option<string>): (t: string)
    ensures Truthy(redirectParam) ==> t == redirectParam.value
    ensures !Truthy(redirectParam) ==> t == "/"
    ensures t != ""
  {
    if Truthy(redirectParam) then redirectParam.value else "/"
  }

  /** The screen's state: the credential form and the embedded recovery
      flow. `pendingClears` counts the delayed clears scheduled by successful
      resets that have not fired yet. */
  datatype Form = Form(
    email: string,
    password: string,
    loading: bool,
    error: string,
    showForgotPassword: bool,
    forgotStep: Recovery.Step,
    forgotEmail: string,
    code: string,
    newPassword: string,
    confirmPassword: string,
    timeLeft: nat,
    success: string,
    pendingClears: nat)

  const Initial: Form := Form("", "", false, "", false, Recovery.EmailStep, "", "", "", "", 0, "", 0)

  /** The mount effect: a visitor the session store already counts as
      signed in is sent on to the redirect target. */
  function MountRedirect(store: Session.Store, redirectParam: Option<string>): (r: Option<string>)
    ensures r.Some? <==> Session.IsAuthenticated(store)
    ensures r.Some? ==> r.value == RedirectTarget(redirectParam)
  {
    if Session.IsAuthenticated(store) then Some(RedirectTarget(redirectParam)) else None
  }

  datatype Submitted = Submitted(form: Form, store: Session.Store, request: Api.Request, navigate: Option<string>)

  /** `handleSubmit`: sign in with the form's credentials. The principal is
      the reply's `client`, or its `user` when there is no `client`; it is
      saved with the token and the browser goes to the redirect target. With
      no principal, or when the call fails, the error's message (or the
      generic login message) is shown and nothing is saved. */
  function Submit(f: Form, store: Session.Store, redirectParam: Option<string>,
                  reply: Api.Reply<Api.LoginJson>, now: int): (r: Submitted)
    ensures r.request == Api.LoginRequest(f.email, f.password)
    ensures !r.form.loading
    ensures r.navigate.Some? <==> reply.OkReply? && (reply.body.client.Some? || reply.body.user.Some?)
    ensures r.navigate.Some? ==>
      && r.navigate.value == RedirectTarget(redirectParam)
      && r.store == Session.SaveAuth(store, reply.body.token, reply.body.client.OrElse(reply.body.user).value, now).store
      && r.form == f.(error := "", loading := false)
    ensures r.navigate.None? ==> r.store == store && r.form.error != ""
    ensures reply.OkReply? && r.navigate.None? ==> r.form.error == "Dados do usuário não encontrados"
    ensures reply.Threw? ==> r.form.error == MessageOr(reply.thrown, "Erro ao fazer login")
  {
    var request := Api.LoginRequest(f.email, f.password);
    var started := f.(error := "");
    match Api.LoginResult(reply)
    case Err(t) =>
      Submitted(started.(error := MessageOr(t, LoginFallback), loading := false), store, request, None)
    case Ok(response) =>
      var principal := response.client.OrElse(response.user);
      if principal.Some? then
        var saved := Session.SaveAuth(store, response.token, principal.value, now);
        Submitted(started.(loading := false), saved.store, request, Some(RedirectTarget(redirectParam)))
      else
        Submitted(started.(error := NoPrincipal, loading := false), store, request, None)
  }

  // ---------------------------------------------------------------------
  // Embedded recovery flow
  // ---------------------------------------------------------------------

  /** The recovery part of the state, seen as the standalone screen's state. */
  function Recovering(f: Form): Recovery.Page {
    Recovery.Page(f.forgotStep, f.forgotEmail, f.code, f.newPassword, f.confirmPassword,
                  f.loading, f.error, f.success, f.timeLeft)
  }

  /** Write a recovery state back into the form, leaving the credential form
      and the pending clears alone. */
  function WithRecovering(f: Form, p: Recovery.Page): (r: Form)
    ensures Recovering(r) == p
    ensures r.email == f.email && r.password == f.password && r.showForgotPassword == f.showForgotPassword
    ensures r.pendingClears == f.pendingClears
  {
    f.(forgotStep := p.step, forgotEmail := p.email, code := p.code, newPassword := p.newPassword,
       confirmPassword := p.confirmPassword, loading := p.loading, error := p.error,
       success := p.success, timeLeft := p.timeLeft)
  }

  /** `handleForgotPassword`: open the recovery flow at its first step. */
  function ForgotPassword(f: Form): (r: Form)
    ensures r.showForgotPassword && r.forgotStep == Recovery.EmailStep
    ensures r.error == "" && r.success == ""
    ensures r.(showForgotPassword := f.showForgotPassword, forgotStep := f.forgotStep, error := f.error, success := f.success) == f
  {
    f.(showForgotPassword := true, forgotStep := Recovery.EmailStep, error := "", success := "")
  }

  datatype Requested = Requested(form: Form, request: Option<Api.Request>)

  /** `handleRequestCode`, on the recovery email. */
  function RequestCode(f: Form, reply: Api.Reply<Api.ApiMessage>): (r: Requested)
    ensures r.request == Some(Api.PasswordResetRequest(f.forgotEmail))
    ensures Api.PasswordResetResult(reply).Ok? ==>
      r.form.forgotStep == Recovery.CodeStep && r.form.timeLeft == 30 && r.form.error == ""
    ensures Api.PasswordResetResult(reply).Err? ==> r.form.forgotStep == f.forgotStep && r.form.timeLeft == f.timeLeft
    ensures !r.form.loading && r.form.code == f.code && r.form.showForgotPassword == f.showForgotPassword
  {
    var request := Api.PasswordResetRequest(f.forgotEmail);
    var started := f.(error := "");
    match Api.PasswordResetResult(reply)
    case Ok(_) => Requested(started.(forgotStep := Recovery.CodeStep, timeLeft := Recovery.CodeLifetime, loading := false), Some(request))
    case Err(t) => Requested(started.(error := InstanceMessage(t, Recovery.RequestCodeFallback), loading := false), Some(request))
  }

  /** The code check call, made with `fetch` against a fixed backend address
      rather than through the gateway. */
  datatype VerifyCodeCall = VerifyCodeCall(url: string, verb: Method, headers: map<string, string>, email: string, code: string)

  const VerifyCodeUrl: string := "http://localhost:3333/sessions/verify-code"

  /** The fixed address is the gateway's default base URL with the code
      check's path, and it differs from the gateway's address for that path
      whenever another base URL is configured. */
  lemma VerifyCodeBypassesGateway(configured: Option<string>)
    ensures VerifyCodeUrl == Api.Url(None, Api.Request(Post, "/sessions/verify-code", map[], Api.NoBody))
    ensures Api.BaseUrl(configured) != Api.DefaultBaseUrl ==>
      VerifyCodeUrl != Api.Url(configured, Api.Request(Post, "/sessions/verify-code", map[], Api.NoBody))
  {
    var path := "/sessions/verify-code";
    assert VerifyCodeUrl == Api.DefaultBaseUrl + path;
    var base := Api.BaseUrl(configured);
    if base + path == VerifyCodeUrl {
      SameSuffixSamePrefix(base, Api.DefaultBaseUrl, path);
    }
  }

  /** Two texts that end in the same suffix are equal when the whole texts
      are. */
  lemma SameSuffixSamePrefix(a: string, b: string, suffix: string)
    requires a + suffix == b + suffix
    ensures a == b
  {
    assert |a| == |b|;
    assert a == (a + suffix)[..|a|];
    assert b == (b + suffix)[..|b|];
  }

  /** How the code check settles: the call or the reading of its JSON body
      threw, or a body was read along with the response's OK flag. */
  datatype VerifyReply = VerifyThrew(thrown: Thrown) | VerifyReplied(ok: bool, message: Option<string>)

  datatype Verified = Verified(form: Form, call: Option<VerifyCodeCall>)

  /** `handleVerifyCode`: the same local checks as the standalone screen (a
      failure there makes no call and leaves loading alone), then the backend
      is asked and the flow advances only when it answers OK. */
  function VerifyCode(f: Form, reply: VerifyReply): (r: Verified)
    ensures r.call.Some? <==> Recovery.CodeCheck(f.code, f.timeLeft).None?
    ensures r.call.None? ==> r.form == f.(error := Recovery.CodeCheck(f.code, f.timeLeft).value)
    ensures r.call.Some? ==> r.call.value == VerifyCodeCall("http://localhost:3333/sessions/verify-code", Post,
      map["Content-Type" := "application/json"], f.forgotEmail, f.code)
    ensures r.form.forgotStep == Recovery.NewPasswordStep <==>
      f.forgotStep == Recovery.NewPasswordStep || (r.call.Some? && reply.VerifyReplied? && reply.ok)
    ensures r.call.Some? && reply.VerifyReplied? && !reply.ok ==>
      r.form.error == (if Truthy(reply.message) then reply.message.value else "Código inválido")
    ensures r.call.Some? ==> !r.form.loading
  {
    match Recovery.CodeCheck(f.code, f.timeLeft)
    case Some(e) => Verified(f.(error := e), None)
    case None =>
      var call := VerifyCodeCall(VerifyCodeUrl, Post, map["Content-Type" := "application/json"], f.forgotEmail, f.code);
      var started := f.(error := "");
      match reply
      case VerifyThrew(t) => Verified(started.(error := InstanceMessage(t, VerifyFallback), loading := false), Some(call))
      case VerifyReplied(ok, message) =>
        if !ok then
          Verified(started.(error := if Truthy(message) then message.value else InvalidCode, loading := false), Some(call))
        else
          Verified(started.(forgotStep := Recovery.NewPasswordStep, loading := false), Some(call))
  }

  /** `handleResetPassword`: the same checks and call as the standalone
      screen; success schedules the delayed clear instead of a navigation. */
  function ResetPassword(f: Form, reply: Api.Reply<Api.ApiMessage>): (r: Requested)
    ensures r.request.Some? <==> Recovery.PasswordCheck(f.newPassword, f.confirmPassword).None?
    ensures r.request.Some? ==> r.request.value == Api.ResetPasswordRequest(f.forgotEmail, f.code, f.newPassword)
    ensures r.request.None? ==> r.form == f.(error := Recovery.PasswordCheck(f.newPassword, f.confirmPassword).value, loading := false)
    ensures r.form.pendingClears == f.pendingClears + (if r.request.Some? && Api.ResetPasswordResult(reply).Ok? then 1 else 0)
    ensures r.form.pendingClears > f.pendingClears ==> r.form.success == "Senha alterada com sucesso!"
    ensures !r.form.loading
  {
    var started := f.(error := "");
    match Recovery.PasswordCheck(f.newPassword, f.confirmPassword)
    case Some(e) => Requested(started.(error := e, loading := false), None)
    case None =>
      var request := Api.ResetPasswordRequest(f.forgotEmail, f.code, f.newPassword);
      match Api.ResetPasswordResult(reply)
      case Ok(_) =>
        Requested(started.(success := Recovery.ResetSucceeded, loading := false, pendingClears := f.pendingClears + 1), Some(request))
      case Err(t) =>
        Requested(started.(error := InstanceMessage(t, Recovery.ResetFallback), loading := false), Some(request))
  }

  /** The empty recovery fields: what both the delayed clear and
      `handleBackToLogin` return to. */
  predicate RecoveryCleared(f: Form) {
    && !f.showForgotPassword
    && f.forgotStep == Recovery.EmailStep
    && f.code == "" && f.newPassword == "" && f.confirmPassword == ""
    && f.forgotEmail == "" && f.success == ""
  }

  /** The delayed clear after a successful reset: back to the credential
      form with every recovery field empty. The error and the countdown are
      not touched. */
  function DelayedClear(f: Form): (r: Form)
    requires f.pendingClears > 0
    ensures RecoveryCleared(r)
    ensures r.pendingClears + 1 == f.pendingClears
    ensures r.error == f.error && r.timeLeft == f.timeLeft && r.email == f.email && r.password == f.password
  {
    f.(showForgotPassword := false, forgotStep := Recovery.EmailStep, code := "", newPassword := "",
       confirmPassword := "", forgotEmail := "", success := "", pendingClears := f.pendingClears - 1)
  }

  /** `handleBackToLogin`: as the delayed clear, and the error is cleared
      too. */
  function BackToLogin(f: Form): (r: Form)
    ensures RecoveryCleared(r) && r.error == ""
    ensures r.timeLeft == f.timeLeft && r.email == f.email && r.password == f.password
    ensures r.pendingClears == f.pendingClears
  {
    f.(showForgotPassword := false, forgotStep := Recovery.EmailStep, error := "", success := "", code := "",
       newPassword := "", confirmPassword := "", forgotEmail := "")
  }

  /** `handleResendCode`. */
  function ResendCode(f: Form): (r: Form)
    ensures Recovering(r) == Recovery.ResendCode(Recovering(f))
    ensures r == WithRecovering(f, Recovering(r))
  {
    f.(forgotStep := Recovery.EmailStep, code := "", timeLeft := 0)
  }

  function Tick(f: Form): (r: Form)
    ensures Recovering(r) == Recovery.Tick(Recovering(f))
    ensures r == WithRecovering(f, Recovering(r))
  {
    f.(timeLeft := Recovery.CountDown(f.timeLeft))
  }

  // ---------------------------------------------------------------------
  // The two recovery flows compared
  // ---------------------------------------------------------------------

  /** Requesting a code does exactly what the standalone screen does. */
  lemma RequestCodeAgrees(f: Form, reply: Api.Reply<Api.ApiMessage>)
    ensures var s := Recovery.RequestCode(Recovering(f), reply);
      && RequestCode(f, reply).form == WithRecovering(f, s.page)
      && RequestCode(f, reply).request == s.request
  {
  }

  /** Resetting sends the same request and reaches the same recovery state;
      only the follow-up differs (a delayed clear instead of a navigation). */
  lemma ResetPasswordAgrees(f: Form, reply: Api.Reply<Api.ApiMessage>)
    ensures var s := Recovery.ResetPassword(Recovering(f), reply);
      var r := ResetPassword(f, reply);
      && Recovering(r.form) == s.page
      && r.request == s.request
      && (r.form.pendingClears > f.pendingClears <==> s.scheduled.Some?)
  {
  }

  /** The two verifications agree whenever a local check fails, and differ
      otherwise: the standalone screen advances without asking anyone, the
      embedded flow asks the backend and stays on the code step unless the
      answer is OK. */
  lemma VerifyCodeComparison(f: Form, reply: VerifyReply)
    requires f.forgotStep == Recovery.CodeStep
    ensures Recovery.CodeCheck(f.code, f.timeLeft).Some? ==>
      VerifyCode(f, reply) == Verified(WithRecovering(f, Recovery.VerifyCode(Recovering(f))), None)
    ensures Recovery.CodeCheck(f.code, f.timeLeft).None? ==>
      && Recovery.VerifyCode(Recovering(f)).step == Recovery.NewPasswordStep
      && VerifyCode(f, reply).call.Some?
      && (VerifyCode(f, reply).form.forgotStep == Recovery.NewPasswordStep <==> reply.VerifyReplied? && reply.ok)
  {
  }

  /** A rejected code keeps the embedded flow on the code step although the
      standalone screen would accept the same code and countdown. */
  lemma RejectedCodeDisagreement(f: Form, message: Option<string>)
    requires f.forgotStep == Recovery.CodeStep && |f.code| == 6 && f.timeLeft > 0
    ensures Recovery.VerifyCode(Recovering(f)).step == Recovery.NewPasswordStep
    ensures VerifyCode(f, VerifyReplied(false, message)).form.forgotStep == Recovery.CodeStep
  {
  }

  // ---------------------------------------------------------------------
  // The screen as an event system
  // ---------------------------------------------------------------------

  datatype Event =
    | EditForgotEmail(email: string)
    | EditCode(code: string)
    | EditNewPassword(password: string)
    | EditConfirmPassword(password: string)
    | OpenRecovery
    | SubmitEmail(reply: Api.Reply<Api.ApiMessage>)
    | Verify(verifyReply: VerifyReply)
    | SubmitNewPassword(reply: Api.Reply<Api.ApiMessage>)
    | Resend
    | Back
    | TimerFired
    | ClearFired

  /** Whether the control behind an event is on screen (or, for the timers,
      pending). */
  predicate Available(f: Form, ev: Event) {
    match ev
    case OpenRecovery => !f.showForgotPassword
    case EditForgotEmail(_) => f.showForgotPassword && f.forgotStep == Recovery.EmailStep
    case SubmitEmail(_) => f.showForgotPassword && f.forgotStep == Recovery.EmailStep
    case EditCode(_) => f.showForgotPassword && f.forgotStep == Recovery.CodeStep
    case Verify(_) => f.showForgotPassword && f.forgotStep == Recovery.CodeStep
    case Resend => f.showForgotPassword && f.forgotStep == Recovery.CodeStep && f.timeLeft == 0
    case EditNewPassword(_) => f.showForgotPassword && f.forgotStep == Recovery.NewPasswordStep
    case EditConfirmPassword(_) => f.showForgotPassword && f.forgotStep == Recovery.NewPasswordStep
    case SubmitNewPassword(_) => f.showForgotPassword && f.forgotStep == Recovery.NewPasswordStep
    case Back => f.showForgotPassword
    case TimerFired => f.timeLeft > 0
    case ClearFired => f.pendingClears > 0
  }

  function Handle(f: Form, ev: Event): (r: Form)
    ensures !Available(f, ev) ==> r == f
  {
    if !Available(f, ev) then f
    else match ev
      case OpenRecovery => ForgotPassword(f)
      case EditForgotEmail(e) => f.(forgotEmail := e)
      case EditCode(c) => if |c| <= Recovery.CodeLength then f.(code := c) else f
      case EditNewPassword(s) => f.(newPassword := s)
      case EditConfirmPassword(s) => f.(confirmPassword := s)
      case SubmitEmail(reply) => RequestCode(f, reply).form
      case Verify(reply) => VerifyCode(f, reply).form
      case SubmitNewPassword(reply) => ResetPassword(f, reply).form
      case Resend => ResendCode(f)
      case Back => BackToLogin(f)
      case TimerFired => Tick(f)
      case ClearFired => DelayedClear(f)
  }

  function Run(f: Form, evs: seq<Event>): Form
    decreases |evs|
  {
    if |evs| == 0 then f else Run(Handle(f, evs[0]), evs[1..])
  }

  /** The standalone screen's invariant holds of the embedded flow too. */
  predicate Consistent(f: Form) {
    Recovery.Consistent(Recovering(f))
  }

  lemma HandlePreservesConsistent(f: Form, ev: Event)
    requires Consistent(f)
    ensures Consistent(Handle(f, ev))
  {
  }

  lemma {:induction false} RunPreservesConsistent(f: Form, evs: seq<Event>)
    requires Consistent(f)
    ensures Consistent(Run(f, evs))
    decreases |evs|
  {
    if |evs| > 0 {
      HandlePreservesConsistent(f, evs[0]);
      RunPreservesConsistent(Handle(f, evs[0]), evs[1..]);
    }
  }

  /** From the initial screen, a reset is only ever sent with a complete
      code, as on the standalone screen. */
  lemma ReachableResetCarriesCompleteCode(evs: seq<Event>, reply: Api.Reply<Api.ApiMessage>)
    ensures var f := Run(Initial, evs);
      f.forgotStep == Recovery.NewPasswordStep && ResetPassword(f, reply).request.Some? ==>
        |ResetPassword(f, reply).request.value.body.code| == 6
  {
    RunPreservesConsistent(Initial, evs);
  }

  // ---------------------------------------------------------------------
  // Redirects across the edge gate and the login screen
  // ---------------------------------------------------------------------

  /** The protected-page round trip: a visitor without a cookie is sent to
      login carrying the requested path, signing in there (with a token that
      leaves a non-empty cookie) sends the browser back to that path, and the
      edge gate now lets it through. */
  lemma RedirectRoundTrip(pathname: string, f: Form, store: Session.Store, json: Api.LoginJson, now: int)
    requires pathname != "" && !Routing.IsPublicPage(pathname)
    requires store.hasWindow
    requires json.client.Some? || json.user.Some?
    requires Session.CookieValue(json.token) != ""
    ensures Routing.Middleware(pathname, None) == Routing.Redirect(Routing.LoginRedirect(pathname))
    ensures var r := Submit(f, store, Some(Routing.Middleware(pathname, None).to.redirect), Api.OkReply(json), now);
      && r.navigate == Some(pathname)
      && Routing.Middleware(r.navigate.value, Session.AuthCookie(r.store)) == Routing.Next
  {
  }

  /** A token that leaves an empty cookie (the empty token, one of spaces,
      one starting with `;`) is a redirect cycle: the store counts it as
      signed in, so the login screen forwards to the dashboard at once, while
      the edge gate sends the dashboard back to login. */
  lemma EmptyTokenRedirectCycle(store: Session.Store, token: string, user: Session.User, now: int)
    requires store.hasWindow
    requires Session.CookieValue(token) == ""
    ensures var saved := Session.SaveAuth(store, token, user, now).store;
      && MountRedirect(saved, Some("/")) == Some("/")
      && Routing.Edge("/", Session.AuthCookie(saved)) == Routing.Redirect(Routing.LoginRedirect("/"))
      && MountRedirect(saved, None) == Some("/")
  {
    Session.EmptyTokenDisagreement(store, token, user, now);
  }
}
