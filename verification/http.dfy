/** The shared axios instance (src/service/api.ts): a request interceptor
    that presents the stored token as a bearer credential, and a response
    interceptor that turns a 401 into a forced logout. The browser's
    localStorage and `window.location` become an explicit `Browser` value. */
module Http {
  import opened Wrappers
  import opened Types
  import opened Strings

  /** The two localStorage entries the application uses, 'token' and 'user'.
      The user entry holds the user record; its JSON text is abstracted. */
  datatype Storage = Storage(token: Option<string>, user: Option<User>)

  const EmptyStorage := Storage(None, None)

  /** What the interceptors can observe and change outside the request:
      durable storage and `window.location.pathname`. */
  datatype Browser = Browser(storage: Storage, path: string)

  const LoginPath := "/login"
  const RegisterPath := "/register"
  const AuthorizationKey := "Authorization"
  const BearerPrefix := "Bearer "

  /** An outgoing request as the interceptor receives it. */
  datatype RequestConfig = RequestConfig(
    verb: string,
    url: string,
    headers: map<string, string>,
    body: Option<string>)

  /** A successful response. */
  datatype Response = Response(status: int, data: string)

  /** The part of a server error response the application reads:
      the status and `data.message`. */
  datatype ErrorResponse = ErrorResponse(status: int, message: Option<string>)

  /** A rejection reaching the interceptor or a caller: an axios error, with
      the server's response if one arrived, whether the request left the
      browser, and axios's own message; or any other thrown value. */
  datatype HttpError =
    | AxiosError(response: Option<ErrorResponse>, requestSent: bool, message: string)
    | NonAxiosError

  /** Request interceptor (api.ts:8-14): a truthy stored token is written as
      the Authorization header; nothing else about the request changes. */
  function AttachToken(storage: Storage, config: RequestConfig): (r: RequestConfig)
    ensures Truthy(storage.token) ==>
      r.headers == config.headers[AuthorizationKey := BearerPrefix + storage.token.value]
    ensures !Truthy(storage.token) ==> r == config
    ensures r.verb == config.verb && r.url == config.url && r.body == config.body
    ensures forall k :: k != AuthorizationKey ==>
      (k in r.headers <==> k in config.headers) && (k in r.headers ==> r.headers[k] == config.headers[k])
  {
    match storage.token
    case Some(token) =>
      if token != "" then
        config.(headers := config.headers[AuthorizationKey := BearerPrefix + token])
      else config
    case None => config
  }

  /** The bearer token a request presents, read back from its header. */
  function PresentedToken(config: RequestConfig): Option<string> {
    if AuthorizationKey in config.headers
       && |config.headers[AuthorizationKey]| >= |BearerPrefix|
       && config.headers[AuthorizationKey][..|BearerPrefix|] == BearerPrefix
    then Some(config.headers[AuthorizationKey][|BearerPrefix|..])
    else None
  }

  /** Every request issued while a token is stored presents exactly that
      token; without one, whatever the caller set is left as it was. */
  lemma AttachTokenPresentsStoredToken(storage: Storage, config: RequestConfig)
    ensures Truthy(storage.token) ==> PresentedToken(AttachToken(storage, config)) == storage.token
    ensures !Truthy(storage.token) ==> PresentedToken(AttachToken(storage, config)) == PresentedToken(config)
  {
    if Truthy(storage.token) {
      var h := BearerPrefix + storage.token.value;
      assert h[..|BearerPrefix|] == BearerPrefix;
      assert h[|BearerPrefix|..] == storage.token.value;
    }
  }

  /** `error.response?.status`. */
  function ErrorStatus(e: HttpError): Option<int> {
    match e
    case AxiosError(Some(resp), _, _) => Some(resp.status)
    case _ => None
  }

  predicate IsAuthPage(path: string) {
    path == LoginPath || path == RegisterPath
  }

  /** What the response interceptor hands on: the browser afterwards,
      whether it started a full page load, and the outcome for the caller. */
  datatype Delivery = Delivery(browser: Browser, reloaded: bool, outcome: Result<Response, HttpError>)

  /** Response interceptor (api.ts:17-30). Successes pass through; a 401
      seen away from the login and register pages while a token is stored
      clears both entries and loads /login; every error is re-rejected as is. */
  function Intercept(b: Browser, outcome: Result<Response, HttpError>): (d: Delivery)
    ensures d.outcome == outcome
    ensures outcome.Success? ==> d == Delivery(b, false, outcome)
    ensures outcome.Failure? && ErrorStatus(outcome.error) != Some(401) ==> d.browser == b && !d.reloaded
    ensures IsAuthPage(b.path) ==> d.browser == b && !d.reloaded
    ensures !Truthy(b.storage.token) ==> d.browser == b && !d.reloaded
    ensures outcome.Failure? && ErrorStatus(outcome.error) == Some(401)
            && !IsAuthPage(b.path) && Truthy(b.storage.token) ==>
              d.reloaded && d.browser == Browser(EmptyStorage, LoginPath)
  {
    match outcome
    case Success(_) => Delivery(b, false, outcome)
    case Failure(e) =>
      if ErrorStatus(e) == Some(401) then
        var isAuthPage := b.path == LoginPath || b.path == RegisterPath;
        if !isAuthPage && Truthy(b.storage.token) then
          var cleared := b.storage.(token := None).(user := None);
          Delivery(Browser(cleared, LoginPath), true, outcome)
        else Delivery(b, false, outcome)
      else Delivery(b, false, outcome)
  }

  /** A second delivery of the same outcome changes nothing more: once a
      forced logout has happened, the token it would need is gone. */
  lemma InterceptIdempotent(b: Browser, outcome: Result<Response, HttpError>)
    ensures var once := Intercept(b, outcome);
            var twice := Intercept(once.browser, outcome);
            twice.browser == once.browser && (once.reloaded ==> !twice.reloaded)
  {
  }
}
