/** The session lifecycle as one state machine: the provider's transitions
    (src/context/AuthContext.tsx), full page loads, and API calls whose
    rejections pass through the response interceptor (src/service/api.ts).
    A forced logout ends in `window.location.href = '/login'`, a full page
    load, so the provider is mounted afresh: that is `Init` again. */
module Lifecycle {
  import opened Wrappers
  import opened Types
  import opened Strings
  import opened Http
  import opened Auth
  import opened Guards

  /** What can happen to a tab. `PageLoad(at)` is a full page load of the
      address `at` (a reload when `at` is the current path); `Visit(to)` is
      an in-app navigation, which keeps the mounted provider;
      `FollowGuard(isPrivate)` is the route at the current path rendering
      behind the private (true) or public (false) guard and following the
      redirect it returns, if any. */
  datatype Event =
    | PageLoad(at: string)
    | Visit(to: string)
    | FollowGuard(isPrivate: bool)
    | LoginAttempt(response: Result<AuthResponse, HttpError>)
    | LogoutClick
    | RegisterAttempt(result: Result<(), HttpError>)
    | ApiCall(outcome: Result<Response, HttpError>)

  predicate IsSuccessfulLogin(ev: Event) {
    ev.LoginAttempt? && ev.response.Success?
  }

  /** A rejection delivered through the response interceptor: when it
      forces a logout the page reloads and the provider mounts afresh;
      otherwise the session is untouched. The reload happens exactly for a
      401 received away from /login and /register while a truthy token is
      stored. */
  function Deliver(s: Session, outcome: Result<Response, HttpError>): (r: Session)
    ensures r == s || r == Init(Browser(EmptyStorage, LoginPath))
    ensures outcome.Success? ==> r == s
    ensures outcome.Failure? && ErrorStatus(outcome.error) != Some(401) ==> r == s
    ensures IsAuthPage(s.browser.path) || !Truthy(s.browser.storage.token) ==> r == s
    ensures outcome.Failure? && ErrorStatus(outcome.error) == Some(401)
            && !IsAuthPage(s.browser.path) && Truthy(s.browser.storage.token) ==>
              r == Init(Browser(EmptyStorage, LoginPath))
  {
    var d := Intercept(s.browser, outcome);
    if d.reloaded then Init(d.browser) else s
  }

  /** The redirect a guard returns for this session, followed. */
  function FollowRedirect(s: Session, guard: Render): Session {
    if guard.Redirect? then Navigate(s, guard.to) else s
  }

  /** One transition of the session. The login and register calls go
      through the same axios instance (authService.ts:6,15), so their
      rejections meet the response interceptor before the provider
      re-throws them. Storage is written only by a successful login and
      otherwise only cleared; the flag rises only on a successful login or
      on a page load that finds a truthy token; navigation moves the tab
      and touches neither storage nor the flag. */
  function Step(s: Session, ev: Event): (r: Session)
    ensures r.browser.storage != s.browser.storage ==>
      IsSuccessfulLogin(ev) || r.browser.storage == EmptyStorage
    ensures r.isAuthenticated && !s.isAuthenticated ==>
      IsSuccessfulLogin(ev) || (ev.PageLoad? && Truthy(s.browser.storage.token))
    ensures ev.PageLoad? ==> r.browser.path == ev.at && r.lastNavigation == None
    ensures ev.Visit? ==> r == s.(browser := s.browser.(path := ev.to), lastNavigation := Some(ev.to))
    ensures ev.FollowGuard? ==> r.browser.storage == s.browser.storage && r.isAuthenticated == s.isAuthenticated
    ensures ev.FollowGuard? && ev.isPrivate ==> r.browser.path == (if s.isAuthenticated then s.browser.path else LoginPath)
    ensures ev.FollowGuard? && !ev.isPrivate ==> r.browser.path == (if s.isAuthenticated then DashboardPath else s.browser.path)
  {
    match ev
    case PageLoad(at) => Init(s.browser.(path := at))
    case Visit(to) => Navigate(s, to)
    case FollowGuard(isPrivate) => FollowRedirect(s, if isPrivate then PrivateRoute(s) else PublicRoute(s))
    case LoginAttempt(response) =>
      if response.Failure? then Deliver(s, Failure(response.error)) else Login(s, response).session
    case LogoutClick => Logout(s)
    case RegisterAttempt(result) =>
      if result.Failure? then Deliver(s, Failure(result.error)) else Register(s, result).session
    case ApiCall(outcome) => Deliver(s, outcome)
  }

  function Run(s: Session, evs: seq<Event>): Session
    decreases |evs|
  {
    if |evs| == 0 then s else Run(Step(s, evs[0]), evs[1..])
  }

  /** A truthy stored token implies the flag, and the flag implies that a
      token entry is stored. The entry may be empty, so the flag does not
      imply a truthy token: see `EmptyTokenLogin`. */
  predicate Consistent(s: Session) {
    && (Truthy(s.browser.storage.token) ==> s.isAuthenticated)
    && (s.isAuthenticated ==> s.browser.storage.token.Some?)
  }

  lemma StepPreservesConsistent(s: Session, ev: Event)
    requires Consistent(s)
    ensures Consistent(Step(s, ev))
  {
  }

  /** Every session reachable from a page load is consistent. */
  lemma {:induction false} RunPreservesConsistent(s: Session, evs: seq<Event>)
    requires Consistent(s)
    ensures Consistent(Run(s, evs))
    decreases |evs|
  {
    if |evs| > 0 {
      StepPreservesConsistent(s, evs[0]);
      RunPreservesConsistent(Step(s, evs[0]), evs[1..]);
    }
  }

  lemma ReachableSessionsConsistent(b: Browser, evs: seq<Event>)
    ensures Consistent(Run(Init(b), evs))
  {
    RunPreservesConsistent(Init(b), evs);
  }

  /** From a consistent logged-out session, only a successful login raises
      the flag; a page load cannot, because no truthy token is stored. */
  lemma OnlyLoginAuthenticates(s: Session, ev: Event)
    requires Consistent(s) && !s.isAuthenticated
    requires Step(s, ev).isAuthenticated
    ensures IsSuccessfulLogin(ev)
  {
  }

  /** Over any sequence of events, a session that goes from logged out to
      logged in has seen a successful login along the way. */
  lemma {:induction false} RunAuthenticatesOnlyByLogin(s: Session, evs: seq<Event>)
    requires Consistent(s) && !s.isAuthenticated
    requires Run(s, evs).isAuthenticated
    ensures exists i :: 0 <= i < |evs| && IsSuccessfulLogin(evs[i])
    decreases |evs|
  {
    var next := Step(s, evs[0]);
    if next.isAuthenticated {
      OnlyLoginAuthenticates(s, evs[0]);
      assert IsSuccessfulLogin(evs[0]);
    } else {
      StepPreservesConsistent(s, evs[0]);
      RunAuthenticatesOnlyByLogin(next, evs[1..]);
      var i :| 0 <= i < |evs[1..]| && IsSuccessfulLogin(evs[1..][i]);
      assert IsSuccessfulLogin(evs[i + 1]);
    }
  }

  /** After a forced 401 logout the page reloads into a logged-out session
      on /login with empty storage, where the private guard redirects and
      the public guard renders the login form. The caller still receives
      the original rejection. */
  lemma ForcedLogoutReinitialisesLoggedOut(s: Session, e: HttpError)
    requires ErrorStatus(e) == Some(401)
    requires !IsAuthPage(s.browser.path) && Truthy(s.browser.storage.token)
    ensures Intercept(s.browser, Failure(e)).outcome == Failure(e)
    ensures var t := Step(s, ApiCall(Failure(e)));
            && !t.isAuthenticated
            && t.browser == Browser(EmptyStorage, LoginPath)
            && PrivateRoute(t) == Redirect(LoginPath)
            && PrivateRouteAsWritten(t) == Redirect(LoginPath)
            && PublicRoute(t) == RenderChildren
  {
  }

  /** A rejection received on the login or register page changes nothing,
      so a failed login or registration does not bounce the visitor. */
  lemma UnauthorizedOnAuthPageIsInert(s: Session, e: HttpError)
    requires IsAuthPage(s.browser.path)
    ensures Step(s, ApiCall(Failure(e))) == s
    ensures Step(s, LoginAttempt(Failure(e))) == s
    ensures Step(s, RegisterAttempt(Failure(e))) == s
  {
  }

  /** A 401 login or registration failure elsewhere, with a token stored,
      is a forced logout like any other API call. */
  lemma FailedLoginAwayFromAuthPagesLogsOut(s: Session, e: HttpError)
    requires ErrorStatus(e) == Some(401)
    requires !IsAuthPage(s.browser.path) && Truthy(s.browser.storage.token)
    ensures Step(s, LoginAttempt(Failure(e))) == Step(s, ApiCall(Failure(e)))
    ensures Step(s, RegisterAttempt(Failure(e))) == Init(Browser(EmptyStorage, LoginPath))
  {
  }

  /** Login and register rejections go through exactly the delivery an
      API call's rejection does. */
  lemma AuthFailuresDeliveredLikeApiCalls(s: Session, e: HttpError)
    ensures Step(s, LoginAttempt(Failure(e))) == Step(s, ApiCall(Failure(e)))
    ensures Step(s, RegisterAttempt(Failure(e))) == Step(s, ApiCall(Failure(e)))
  {
  }

  /** Following a guard's redirect a second time goes nowhere new: the
      session it leads to is one the same guard lets through or sends to
      the same place. */
  lemma FollowGuardIdempotent(s: Session, isPrivate: bool)
    ensures Step(Step(s, FollowGuard(isPrivate)), FollowGuard(isPrivate)) == Step(s, FollowGuard(isPrivate))
  {
  }

  /** A tab that loads /login with a truthy token stored mounts logged in,
      and the public guard moves it on to /dashboard. */
  lemma StoredTokenSkipsLoginPage(s: Session)
    requires Truthy(s.browser.storage.token)
    ensures var t := Run(s, [PageLoad(LoginPath), FollowGuard(false)]);
            && t.isAuthenticated
            && t.browser == Browser(s.browser.storage, DashboardPath)
            && t.lastNavigation == Some(DashboardPath)
  {
    var loaded := Step(s, PageLoad(LoginPath));
    var moved := Step(loaded, FollowGuard(false));
    assert [PageLoad(LoginPath), FollowGuard(false)][1..] == [FollowGuard(false)];
    assert Run(loaded, [FollowGuard(false)]) == Run(moved, []) == moved;
  }

  /** A logged-out tab that opens a private route ends on /login, where
      the public guard lets the login form render. */
  lemma LoggedOutSentToLogin(s: Session, at: string)
    requires !Truthy(s.browser.storage.token)
    ensures var t := Run(s, [PageLoad(at), FollowGuard(true)]);
            && !t.isAuthenticated
            && t.browser == Browser(s.browser.storage, LoginPath)
            && PublicRoute(t) == RenderChildren
  {
    var loaded := Step(s, PageLoad(at));
    var moved := Step(loaded, FollowGuard(true));
    assert [PageLoad(at), FollowGuard(true)][1..] == [FollowGuard(true)];
    assert Run(loaded, [FollowGuard(true)]) == Run(moved, []) == moved;
  }

  /** Logging out twice, as two events, equals logging out once. */
  lemma LogoutTwiceIsLogoutOnce(s: Session)
    ensures Run(s, [LogoutClick, LogoutClick]) == Run(s, [LogoutClick])
  {
    assert [LogoutClick, LogoutClick][1..] == [LogoutClick];
    LogoutIdempotent(s);
  }

  /** A login that resolves with an empty token raises the flag although no
      request will carry a credential, and the next page load lowers it. */
  lemma EmptyTokenLogin(s: Session, u: User)
    ensures var t := Login(s, Success(AuthResponse("", u))).session;
            && t.isAuthenticated
            && !Truthy(t.browser.storage.token)
            && !Init(t.browser).isAuthenticated
  {
  }
}
