/** The API gateway (`ApiService`): request construction for the session
    endpoints and the normalisation of their replies. Transport is not
    modelled: a call is the request it would send, and its reply is an input. */
module Api {
  import opened Base
  import Session

  const DefaultBaseUrl: string := "http://localhost:3333"

  /** `process.env.NEXT_PUBLIC_API_URL || 'http://localhost:3333'` */
  function BaseUrl(configured: Option<string>): (u: string)
    ensures u != ""
    ensures Truthy(configured) ==> u == configured.value
  {
    if Truthy(configured) then configured.value else DefaultBaseUrl
  }

  const ConnectionError: string := "Erro de conexão"
  const LoginFailed: string := "Email ou senha incorretos"
  const LogoutFailed: string := "Erro ao fazer logout"
  const ResetRequestFailed: string := "Erro ao solicitar recuperação de senha"
  const ResetFailed: string := "Erro ao resetar senha"

  /** The JSON bodies the gateway sends. */
  datatype Payload =
    | NoBody
    | Credentials(email: string, password: string)
    | ResetRequest(email: string)
    | ResetConfirmation(email: string, code: string, newPassword: string)

  /** One `fetch` call, relative to the base URL. */
  datatype Request = Request(verb: Method, path: string, headers: map<string, string>, body: Payload)

  function Url(configured: Option<string>, r: Request): string {
    BaseUrl(configured) + r.path
  }

  /** `getHeaders(token)`: always JSON, and a bearer credential exactly when
      the token is a non-empty string. */
  function GetHeaders(token: Option<string>): (h: map<string, string>)
    ensures "Content-Type" in h && h["Content-Type"] == "application/json"
    ensures "Authorization" in h <==> Truthy(token)
    ensures "Authorization" in h ==> h["Authorization"] == "Bearer " + token.value
    ensures h.Keys <= {"Content-Type", "Authorization"}
  {
    var base := map["Content-Type" := "application/json"];
    if Truthy(token) then base["Authorization" := "Bearer " + token.value] else base
  }

  /** A JSON value found under `message`; the members of a nested object or
      array are not modelled. */
  datatype JsonValue = JNull | JBool(b: bool) | JInt(n: int) | JString(s: string) | JArray | JObject

  /** JavaScript truthiness of a parsed JSON value. */
  predicate JsTruthy(v: JsonValue) {
    match v
    case JNull => false
    case JBool(b) => b
    case JInt(n) => n != 0
    case JString(s) => s != ""
    case JArray => true
    case JObject => true
  }

  /** `String(v)`, as `new Error(v)` stores its argument; an array's text
      (its elements joined by commas) is not modelled and stands as "". */
  function JsText(v: JsonValue): (t: string)
    ensures v.JString? ==> t == v.s
    ensures v.JInt? ==> ParseInt(t) == Some(v.n)
  {
    match v
    case JNull => "null"
    case JBool(b) => if b then "true" else "false"
    case JInt(n) => ParseIntRoundTrip(n); IntToString(n)
    case JString(s) => s
    case JArray => ""
    case JObject => "[object Object]"
  }

  /** The error body of a non-OK response: JSON that failed to parse, the
      JSON `null`, a parsed value that is not an object (a number, string,
      boolean or array, none of which has a `message`), or an object with or
      without a `message` member. */
  datatype ErrorBody = Unparseable | NullBody | NonObject | ErrorJson(message: Option<JsonValue>)

  /** How a call settles: `fetch` (or reading a success body) threw, the
      status was not OK, or the status was OK with a parsed body. */
  datatype Reply<B> = Threw(thrown: Thrown) | NotOk(errorBody: ErrorBody) | OkReply(body: B)

  /** What V8 says when `.message` is read from `null`. */
  const NullAccessMessage: string := "Cannot read properties of null (reading 'message')"

  /** The message of the error a non-OK response is turned into:
      `(parsed body, or {message: 'Erro de conexão'}).message || fallback`,
      except that reading `message` from a `null` body throws a `TypeError`
      first. */
  function ErrorMessage(e: ErrorBody, fallback: string): (m: string)
    ensures e.Unparseable? ==> m == "Erro de conexão"
    ensures e.NullBody? ==> m == NullAccessMessage
    ensures e.ErrorJson? && e.message.Some? && JsTruthy(e.message.value) ==> m == JsText(e.message.value)
    ensures e.NonObject? || (e.ErrorJson? && !(e.message.Some? && JsTruthy(e.message.value))) ==> m == fallback
    ensures fallback != "" && !(e.ErrorJson? && e.message.Some? && e.message.value.JArray?) ==> m != ""
  {
    match e
    case Unparseable => ConnectionError
    case NullBody => NullAccessMessage
    case NonObject => fallback
    case ErrorJson(msg) => if msg.Some? && JsTruthy(msg.value) then JsText(msg.value) else fallback
  }

  /** Every non-OK response becomes a thrown `Error` (a `TypeError` for a
      `null` body) and never a value; failures of `fetch` itself propagate
      unchanged. */
  function Settle<B>(reply: Reply<B>, fallback: string): (r: Result<B>)
    ensures r.Ok? <==> reply.OkReply?
    ensures reply.OkReply? ==> r.value == reply.body
    ensures reply.Threw? ==> r == Err(reply.thrown)
    ensures reply.NotOk? ==> r == Err(ErrorThrown(ErrorMessage(reply.errorBody, fallback)))
  {
    match reply
    case Threw(t) => Err(t)
    case NotOk(e) => Err(ErrorThrown(ErrorMessage(e, fallback)))
    case OkReply(b) => Ok(b)
  }

  /** A successful login body as received; `others` stands for any further
      members the backend sends. */
  datatype LoginJson = LoginJson(
    client: Option<Session.User>,
    user: Option<Session.User>,
    token: string,
    others: map<string, string>)

  /** What `login` returns: the principal under either key, and the token. */
  datatype AuthResponse = AuthResponse(client: Option<Session.User>, user: Option<Session.User>, token: string)

  datatype ApiMessage = ApiMessage(message: string)

  function LoginRequest(email: string, password: string): Request {
    Request(Post, "/sessions", GetHeaders(None), Credentials(email, password))
  }

  /** `login`: the OK body projected onto `client`, `user` and `token`. */
  function LoginResult(reply: Reply<LoginJson>): (r: Result<AuthResponse>)
    ensures reply.OkReply? ==> r == Ok(AuthResponse(reply.body.client, reply.body.user, reply.body.token))
    ensures reply.NotOk? ==> r == Err(ErrorThrown(ErrorMessage(reply.errorBody, "Email ou senha incorretos")))
    ensures reply.Threw? ==> r == Err(reply.thrown)
  {
    match Settle(reply, LoginFailed)
    case Ok(j) => Ok(AuthResponse(j.client, j.user, j.token))
    case Err(t) => Err(t)
  }

  function LogoutRequest(token: string): Request {
    Request(Delete, "/sessions", GetHeaders(Some(token)), NoBody)
  }

  function LogoutResult(reply: Reply<()>): Result<()> {
    Settle(reply, LogoutFailed)
  }

  function PasswordResetRequest(email: string): Request {
    Request(Post, "/sessions/request-password-reset", GetHeaders(None), ResetRequest(email))
  }

  function PasswordResetResult(reply: Reply<ApiMessage>): Result<ApiMessage> {
    Settle(reply, ResetRequestFailed)
  }

  function ResetPasswordRequest(email: string, code: string, newPassword: string): Request {
    Request(Post, "/sessions/reset-password", GetHeaders(None), ResetConfirmation(email, code, newPassword))
  }

  function ResetPasswordResult(reply: Reply<ApiMessage>): Result<ApiMessage> {
    Settle(reply, ResetFailed)
  }

  /** The login error chain: a `TypeError` for a `null` body, the body's own
      message (as text) when it is truthy, the connection message when the
      body did not parse, and the login default otherwise. Every failure is
      an `Error`, so callers always find a message. */
  lemma LoginErrorChain(e: ErrorBody)
    ensures var r := LoginResult(NotOk(e));
      && r.Err? && r.thrown.ErrorThrown?
      && (e.Unparseable? ==> r.thrown.message == "Erro de conexão")
      && (e.NullBody? ==> r.thrown.message == NullAccessMessage)
      && (e.ErrorJson? && e.message.Some? && JsTruthy(e.message.value) ==> r.thrown.message == JsText(e.message.value))
      && (e.NonObject? || (e.ErrorJson? && !(e.message.Some? && JsTruthy(e.message.value))) ==>
            r.thrown.message == "Email ou senha incorretos")
  {
  }

  /** A numeric or boolean `message` is turned into its text, while `0`,
      `false`, `null` and `""` fall back to the default. */
  lemma MessageTexts(n: int)
    requires n != 0
    ensures LoginResult(NotOk(ErrorJson(Some(JInt(n))))) == Err(ErrorThrown(IntToString(n)))
    ensures LoginResult(NotOk(ErrorJson(Some(JBool(true))))) == Err(ErrorThrown("true"))
    ensures LoginResult(NotOk(ErrorJson(Some(JInt(0))))) == Err(ErrorThrown("Email ou senha incorretos"))
    ensures LoginResult(NotOk(ErrorJson(Some(JNull)))) == Err(ErrorThrown("Email ou senha incorretos"))
    ensures LoginResult(NotOk(ErrorJson(Some(JString(""))))) == Err(ErrorThrown("Email ou senha incorretos"))
  {
  }

  /** Each endpoint has its own default message: the same uninformative
      error body yields four different errors. */
  lemma DefaultMessagesPerEndpoint()
    ensures LoginResult(NotOk(ErrorJson(None))) == Err(ErrorThrown("Email ou senha incorretos"))
    ensures LogoutResult(NotOk(ErrorJson(None))) == Err(ErrorThrown("Erro ao fazer logout"))
    ensures PasswordResetResult(NotOk(NonObject)) == Err(ErrorThrown("Erro ao solicitar recuperação de senha"))
    ensures ResetPasswordResult(NotOk(ErrorJson(Some(JString(""))))) == Err(ErrorThrown("Erro ao resetar senha"))
  {
  }

  /** Only logout authenticates, with the token it is given; the other three
      endpoints send no credential. */
  lemma RequestHeaders(email: string, password: string, code: string, token: string)
    requires token != ""
    ensures LogoutRequest(token).headers["Authorization"] == "Bearer " + token
    ensures "Authorization" !in LoginRequest(email, password).headers
    ensures "Authorization" !in PasswordResetRequest(email).headers
    ensures "Authorization" !in ResetPasswordRequest(email, code, password).headers
  {
  }
}
