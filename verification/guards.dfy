/** The two route guards (src/components/PrivateRoute.tsx and
    src/components/PublicRoute.tsx). Each reads only the session flag and
    either renders its children or renders a redirect; neither writes.
    PrivateRoute.tsx:9 binds the whole props object to `children`, so line 15
    hands React a plain object, which React refuses to render: that guard
    is modelled as written (`PrivateRouteAsWritten`) and as evidently meant
    (`PrivateRoute`). */
module Guards {
  import opened Http
  import opened Auth

  /** What a guard produces: its children, a redirect, or a render failure
      ("Objects are not valid as a React child"). */
  datatype Render = RenderChildren | Redirect(to: string) | RenderError

  const DashboardPath := "/dashboard"

  /** Protected views: unauthenticated visitors are sent to the login page. */
  function PrivateRoute(s: Session): (r: Render)
    ensures r == RenderChildren <==> s.isAuthenticated
    ensures !s.isAuthenticated ==> r == Redirect(LoginPath)
  {
    if !s.isAuthenticated then Redirect(LoginPath) else RenderChildren
  }

  /** PrivateRoute.tsx:9-17 as written: logged-out visitors are redirected,
      but for a logged-in one the props object is rendered as a child and
      rendering fails. */
  function PrivateRouteAsWritten(s: Session): (r: Render)
    ensures r.Redirect? <==> !s.isAuthenticated
    ensures r.Redirect? ==> r.to == LoginPath
  {
    if !s.isAuthenticated then Redirect(LoginPath) else RenderError
  }

  /** The written guard never shows its content: it differs from the
      intended one exactly for logged-in visitors, who get a render error. */
  lemma PrivateRouteAsWrittenNeverRenders(s: Session)
    ensures PrivateRouteAsWritten(s) != RenderChildren
    ensures PrivateRouteAsWritten(s) == PrivateRoute(s) <==> !s.isAuthenticated
    ensures s.isAuthenticated ==> PrivateRouteAsWritten(s) == RenderError
  {
  }

  /** Public-only views: authenticated visitors are sent to the dashboard. */
  function PublicRoute(s: Session): (r: Render)
    ensures r == RenderChildren <==> !s.isAuthenticated
    ensures s.isAuthenticated ==> r == Redirect(DashboardPath)
  {
    if s.isAuthenticated then Redirect(DashboardPath) else RenderChildren
  }

  /** The decision depends on nothing but the flag. */
  lemma GuardsDependOnlyOnFlag(s: Session, t: Session)
    requires s.isAuthenticated == t.isAuthenticated
    ensures PrivateRoute(s) == PrivateRoute(t)
    ensures PublicRoute(s) == PublicRoute(t)
  {
  }

  /** With the intended private guard, exactly one of the two guards
      renders its content in every session. With the guard as written, a
      logged-in visitor gets content from neither. */
  lemma ExactlyOneGuardRenders(s: Session)
    ensures (PrivateRoute(s) == RenderChildren) != (PublicRoute(s) == RenderChildren)
    ensures (PrivateRouteAsWritten(s) == RenderChildren || PublicRoute(s) == RenderChildren)
            <==> !s.isAuthenticated
  {
  }
}
