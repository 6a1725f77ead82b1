/** The password-recovery flow of the forgot-password screen: email, then a
    six-character code that is valid for a thirty-second countdown, then the
    new password. The countdown advances in discrete one-second ticks. The
    local checks defined here are shared with the inline flow of the login
    screen. */
module Recovery {
  import opened Base
  import Api

  datatype Step = EmailStep | CodeStep | NewPasswordStep

  const CodeLength: nat := 6
  const CodeLifetime: nat := 30
  const MinPasswordLength: nat := 6
  const ResetRedirectDelayMs: nat := 2000

  const CodeLengthError: string := "O código deve ter 6 dígitos"
  const CodeExpiredError: string := "Código expirado. Solicite um novo código."
  const MismatchError: string := "As senhas não coincidem"
  const ShortPasswordError: string := "A senha deve ter pelo menos 6 caracteres"
  const RequestCodeFallback: string := "Erro ao solicitar código"
  const ResetFallback: string := "Erro ao resetar senha"
  const ResetSucceeded: string := "Senha alterada com sucesso!"

  /** The local code check: the length is checked before the countdown, and
      the code passes only with six characters and time left. */
  function CodeCheck(code: string, timeLeft: nat): (e: Option<string>)
    ensures e.None? <==> |code| == 6 && timeLeft > 0
    ensures |code| != 6 ==> e == Some("O código deve ter 6 dígitos")
    ensures |code| == 6 && timeLeft == 0 ==> e == Some("Código expirado. Solicite um novo código.")
  {
    if |code| != CodeLength then Some(CodeLengthError)
    else if timeLeft == 0 then Some(CodeExpiredError)
    else None
  }

  /** The local new-password check: a mismatch is reported before a short
      password, and the pair passes only when equal and at least six long. */
  function PasswordCheck(newPassword: string, confirmPassword: string): (e: Option<string>)
    ensures e.None? <==> newPassword == confirmPassword && |newPassword| >= 6
    ensures newPassword != confirmPassword ==> e == Some("As senhas não coincidem")
    ensures newPassword == confirmPassword && |newPassword| < 6 ==> e == Some("A senha deve ter pelo menos 6 caracteres")
  {
    if newPassword != confirmPassword then Some(MismatchError)
    else if |newPassword| < MinPasswordLength then Some(ShortPasswordError)
    else None
  }

  /** One second of the countdown: a pending timer exists only while time is
      left, so a tick at zero changes nothing. */
  function CountDown(timeLeft: nat): (r: nat)
    ensures timeLeft > 0 ==> r + 1 == timeLeft
    ensures timeLeft == 0 ==> r == 0
  {
    if timeLeft > 0 then timeLeft - 1 else 0
  }

  /** The screen's state. */
  datatype Page = Page(
    step: Step,
    email: string,
    code: string,
    newPassword: string,
    confirmPassword: string,
    loading: bool,
    error: string,
    success: string,
    timeLeft: nat)

  const Initial: Page := Page(EmailStep, "", "", "", "", false, "", "", 0)

  /** A navigation scheduled with `setTimeout`. */
  datatype Scheduled = Scheduled(delayMs: nat, target: string)

  /** A handler's result: the next state, the API request it issued (if any)
      and the navigation it scheduled (if any). */
  datatype Transition = Transition(page: Page, request: Option<Api.Request>, scheduled: Option<Scheduled>)

  function Tick(p: Page): (r: Page)
    ensures r == p.(timeLeft := CountDown(p.timeLeft))
  {
    p.(timeLeft := CountDown(p.timeLeft))
  }

  function Ticks(p: Page, n: nat): Page
    decreases n
  {
    if n == 0 then p else Ticks(Tick(p), n - 1)
  }

  /** `n` ticks take `n` seconds off the countdown, stopping at zero, and
      touch nothing else. */
  lemma {:induction false} TicksCountDown(p: Page, n: nat)
    ensures Ticks(p, n) == p.(timeLeft := if p.timeLeft >= n then p.timeLeft - n else 0)
    decreases n
  {
    if n > 0 {
      TicksCountDown(Tick(p), n - 1);
    }
  }

  /** `handleRequestCode`: ask for a code for the entered email; on success
      move to the code step with a fresh thirty-second countdown. */
  function RequestCode(p: Page, reply: Api.Reply<Api.ApiMessage>): (r: Transition)
    ensures r.request == Some(Api.PasswordResetRequest(p.email)) && r.scheduled.None?
    ensures !r.page.loading
    ensures Api.PasswordResetResult(reply).Ok? ==>
      r.page == p.(step := CodeStep, timeLeft := 30, error := "", loading := false)
    ensures Api.PasswordResetResult(reply).Err? ==>
      r.page == p.(error := InstanceMessage(Api.PasswordResetResult(reply).thrown, "Erro ao solicitar código"), loading := false)
  {
    var request := Api.PasswordResetRequest(p.email);
    var cleared := p.(error := "");
    match Api.PasswordResetResult(reply)
    case Ok(_) => Transition(cleared.(step := CodeStep, timeLeft := CodeLifetime, loading := false), Some(request), None)
    case Err(t) => Transition(cleared.(error := InstanceMessage(t, RequestCodeFallback), loading := false), Some(request), None)
  }

  /** `handleVerifyCode`: purely local, no backend call. */
  function VerifyCode(p: Page): (r: Page)
    ensures r.step == NewPasswordStep <==> p.step == NewPasswordStep || (|p.code| == 6 && p.timeLeft > 0)
    ensures CodeCheck(p.code, p.timeLeft).Some? ==> r == p.(error := CodeCheck(p.code, p.timeLeft).value)
    ensures CodeCheck(p.code, p.timeLeft).None? ==> r == p.(step := NewPasswordStep)
  {
    match CodeCheck(p.code, p.timeLeft)
    case Some(e) => p.(error := e)
    case None => p.(step := NewPasswordStep)
  }

  /** `handleResetPassword`: the local checks first (no call when they fail),
      then the reset call with exactly the email, code and password held in
      the state; on success a navigation to login is scheduled. */
  function ResetPassword(p: Page, reply: Api.Reply<Api.ApiMessage>): (r: Transition)
    ensures !r.page.loading
    ensures r.request.Some? <==> PasswordCheck(p.newPassword, p.confirmPassword).None?
    ensures r.request.Some? ==> r.request.value == Api.ResetPasswordRequest(p.email, p.code, p.newPassword)
    ensures r.request.None? ==> r == Transition(p.(error := PasswordCheck(p.newPassword, p.confirmPassword).value, loading := false), None, None)
    ensures r.scheduled.Some? <==> r.request.Some? && Api.ResetPasswordResult(reply).Ok?
    ensures r.scheduled.Some? ==> r.scheduled.value == Scheduled(2000, "/login") && r.page.success == "Senha alterada com sucesso!"
    ensures r.page.step == p.step && r.page.code == p.code && r.page.timeLeft == p.timeLeft
  {
    var started := p.(error := "");
    match PasswordCheck(p.newPassword, p.confirmPassword)
    case Some(e) => Transition(started.(error := e, loading := false), None, None)
    case None =>
      var request := Api.ResetPasswordRequest(p.email, p.code, p.newPassword);
      match Api.ResetPasswordResult(reply)
      case Ok(_) =>
        Transition(started.(success := ResetSucceeded, loading := false), Some(request), Some(Scheduled(ResetRedirectDelayMs, "/login")))
      case Err(t) =>
        Transition(started.(error := InstanceMessage(t, ResetFallback), loading := false), Some(request), None)
  }

  /** `handleResendCode`: back to the email step with the code cleared and
      the countdown stopped. */
  function ResendCode(p: Page): (r: Page)
    ensures r.step == EmailStep && r.code == "" && r.timeLeft == 0
    ensures r.(step := p.step, code := p.code, timeLeft := p.timeLeft) == p
  {
    p.(step := EmailStep, code := "", timeLeft := 0)
  }

  // ---------------------------------------------------------------------
  // The screen as an event system
  // ---------------------------------------------------------------------

  /** What the user (or the timer) can do. Edits come from the inputs; the
      code input holds at most six characters. */
  datatype Event =
    | EditEmail(email: string)
    | EditCode(code: string)
    | EditNewPassword(password: string)
    | EditConfirmPassword(password: string)
    | SubmitEmail(reply: Api.Reply<Api.ApiMessage>)
    | Verify
    | SubmitNewPassword(reply: Api.Reply<Api.ApiMessage>)
    | Resend
    | TimerFired

  /** The code input is shown only on the code step and accepts at most six
      characters. */
  function EditCodeInput(p: Page, c: string): Page {
    if p.step == CodeStep && |c| <= CodeLength then p.(code := c) else p
  }

  /** Whether the control behind an event is on screen: each form and
      button belongs to one step, the resend link appears only once the code
      has expired, and a timer is pending only while time is left. */
  predicate Available(p: Page, ev: Event) {
    match ev
    case EditEmail(_) => p.step == EmailStep
    case SubmitEmail(_) => p.step == EmailStep
    case EditCode(_) => p.step == CodeStep
    case Verify => p.step == CodeStep
    case Resend => p.step == CodeStep && p.timeLeft == 0
    case EditNewPassword(_) => p.step == NewPasswordStep
    case EditConfirmPassword(_) => p.step == NewPasswordStep
    case SubmitNewPassword(_) => p.step == NewPasswordStep
    case TimerFired => p.timeLeft > 0
  }

  /** The screen's reaction to an event; an event whose control is not on
      screen cannot happen and changes nothing. */
  function Handle(p: Page, ev: Event): (r: Transition)
    ensures !Available(p, ev) ==> r == Transition(p, None, None)
    ensures r.request.Some? ==> ev.SubmitEmail? || ev.SubmitNewPassword?
  {
    if !Available(p, ev) then Transition(p, None, None)
    else match ev
      case EditEmail(e) => Transition(p.(email := e), None, None)
      case EditCode(c) => Transition(EditCodeInput(p, c), None, None)
      case EditNewPassword(s) => Transition(p.(newPassword := s), None, None)
      case EditConfirmPassword(s) => Transition(p.(confirmPassword := s), None, None)
      case SubmitEmail(reply) => RequestCode(p, reply)
      case Verify => Transition(VerifyCode(p), None, None)
      case SubmitNewPassword(reply) => ResetPassword(p, reply)
      case Resend => Transition(ResendCode(p), None, None)
      case TimerFired => Transition(Tick(p), None, None)
  }

  function Run(p: Page, evs: seq<Event>): Page
    decreases |evs|
  {
    if |evs| == 0 then p else Run(Handle(p, evs[0]).page, evs[1..])
  }

  /** The invariant of the screen: the countdown never exceeds thirty
      seconds, the code never exceeds six characters, and the new-password
      step is only ever reached with a complete code. */
  predicate Consistent(p: Page) {
    && p.timeLeft <= CodeLifetime
    && |p.code| <= CodeLength
    && (p.step == NewPasswordStep ==> |p.code| == CodeLength)
  }

  /** Every event preserves the invariant. */
  lemma HandlePreservesConsistent(p: Page, ev: Event)
    requires Consistent(p)
    ensures Consistent(Handle(p, ev).page)
  {
  }

  /** Every screen reachable from the initial one is consistent: in
      particular a reset request is only ever sent with a complete code. */
  lemma {:induction false} RunPreservesConsistent(p: Page, evs: seq<Event>)
    requires Consistent(p)
    ensures Consistent(Run(p, evs))
    decreases |evs|
  {
    if |evs| > 0 {
      HandlePreservesConsistent(p, evs[0]);
      RunPreservesConsistent(Handle(p, evs[0]).page, evs[1..]);
    }
  }

  /** From the initial screen, any sequence of events leads to a screen on
      which a submitted new password is sent with a six-character code. */
  lemma ReachableResetCarriesCompleteCode(evs: seq<Event>, reply: Api.Reply<Api.ApiMessage>)
    ensures var p := Run(Initial, evs);
      var r := Handle(p, SubmitNewPassword(reply));
      r.request.Some? ==> |r.request.value.body.code| == 6 && r.request.value.body.code == p.code
  {
    RunPreservesConsistent(Initial, evs);
  }

  /** On the new-password step of a consistent screen, the reset request
      carries the complete six-character code. */
  lemma ResetCarriesCompleteCode(p: Page, reply: Api.Reply<Api.ApiMessage>)
    requires Consistent(p) && p.step == NewPasswordStep
    ensures var r := ResetPassword(p, reply);
      r.request.Some? ==> r.request.value.body.code == p.code && |r.request.value.body.code| == 6
  {
  }

  /** After a successful code request and thirty ticks the code has expired:
      verification fails with the expiry message even for a complete code,
      while one tick earlier it would have succeeded. */
  lemma CodeExpiresAfterThirtySeconds(p: Page, msg: Api.ApiMessage, code: string)
    requires |code| == 6
    ensures var typed := EditCodeInput(RequestCode(p, Api.OkReply(msg)).page, code);
      && VerifyCode(Ticks(typed, 30)).step == CodeStep
      && VerifyCode(Ticks(typed, 30)).error == "Código expirado. Solicite um novo código."
      && VerifyCode(Ticks(typed, 29)).step == NewPasswordStep
  {
    var typed := EditCodeInput(RequestCode(p, Api.OkReply(msg)).page, code);
    TicksCountDown(typed, 30);
    TicksCountDown(typed, 29);
  }

  /** The verify button is enabled only when the code is complete and time
      is left; then verification always advances, so its error messages are
      reachable only when the handler is invoked some other way. */
  lemma EnabledVerifyAdvances(p: Page)
    requires !(|p.code| != 6 || p.timeLeft == 0)
    ensures VerifyCode(p) == p.(step := NewPasswordStep)
  {
  }
}
