/** The session store (src/context/AuthContext.tsx): the `isAuthenticated`
    flag, kept beside the browser state it is derived from, and the
    `login`, `logout` and `register` transitions. `navigate(to)` is modelled
    as recording `to` as the last navigation and as the current path. */
module Auth {
  import opened Wrappers
  import opened Types
  import opened Strings
  import opened Http

  /** The provider's state together with the browser it lives in. */
  datatype Session = Session(browser: Browser, isAuthenticated: bool, lastNavigation: Option<string>)

  /** Login target after a successful login, a placeholder kept literally. */
  const AfterLoginPath := "/TODO"

  /** What `authService.login` resolves with, the wire's `access_token`
      already renamed to `token`. */
  datatype AuthResponse = AuthResponse(token: string, user: User)

  /** A transition's next state and the error it re-throws, if any. */
  datatype Outcome = Outcome(session: Session, thrown: Option<HttpError>)

  /** Mounting the provider (AuthContext.tsx:20-22), also what a full page
      load does: the flag is the truthiness of the stored token. */
  function Init(b: Browser): (s: Session)
    ensures s.isAuthenticated <==> Truthy(b.storage.token)
    ensures s.browser == b && s.lastNavigation == None
  {
    Session(b, match b.storage.token case Some(t) => t != "" case None => false, None)
  }

  function Navigate(s: Session, to: string): (r: Session)
  {
    s.(browser := s.browser.(path := to), lastNavigation := Some(to))
  }

  /** `login` (AuthContext.tsx:25-31): when the service call rejects nothing
      is written and the error propagates; otherwise token and user are
      stored, the flag is raised and the app navigates to the placeholder. */
  function Login(s: Session, response: Result<AuthResponse, HttpError>): (r: Outcome)
    ensures response.Failure? ==> r == Outcome(s, Some(response.error))
    ensures response.Success? ==>
      && r.thrown == None
      && r.session.browser.storage == Storage(Some(response.value.token), Some(response.value.user))
      && r.session.isAuthenticated
      && r.session.lastNavigation == Some(AfterLoginPath)
      && r.session.browser.path == AfterLoginPath
  {
    match response
    case Failure(e) => Outcome(s, Some(e))
    case Success(resp) =>
      var stored := s.browser.storage.(token := Some(resp.token)).(user := Some(resp.user));
      var written := s.(browser := s.browser.(storage := stored));
      Outcome(Navigate(written.(isAuthenticated := true), AfterLoginPath), None)
  }

  /** `logout` (AuthContext.tsx:33-38): both entries removed, flag lowered,
      navigation to the login page. */
  function Logout(s: Session): (r: Session)
    ensures r.browser == Browser(EmptyStorage, LoginPath)
    ensures !r.isAuthenticated
    ensures r.lastNavigation == Some(LoginPath)
  {
    var cleared := s.browser.storage.(token := None).(user := None);
    Navigate(s.(browser := s.browser.(storage := cleared), isAuthenticated := false), LoginPath)
  }

  /** Logging out twice leaves the same state as logging out once. */
  lemma LogoutIdempotent(s: Session)
    ensures Logout(Logout(s)) == Logout(s)
  {
  }

  /** `register` (AuthContext.tsx:40-43): never writes storage or the flag;
      navigates to the login page only once the service call succeeds. */
  function Register(s: Session, result: Result<(), HttpError>): (r: Outcome)
    ensures r.session.browser.storage == s.browser.storage
    ensures r.session.isAuthenticated == s.isAuthenticated
    ensures result.Failure? ==> r == Outcome(s, Some(result.error))
    ensures result.Success? ==>
      r.thrown == None && r.session.lastNavigation == Some(LoginPath) && r.session.browser.path == LoginPath
  {
    match result
    case Failure(e) => Outcome(s, Some(e))
    case Success(_) => Outcome(Navigate(s, LoginPath), None)
  }
}
