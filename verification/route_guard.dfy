/** The global route middleware: before every navigation it compares the
    destination with the single public path and the access token with
    nothing at all, and either lets the navigation through or redirects. */
module RouteGuard {
  import opened Wrappers
  import opened Auth

  datatype Decision = Allow | Redirect(target: string)

  predicate IsPublicPath(path: string) {
    path == LoginPath
  }

  /** The middleware's decision for a destination, given the current access
      token cookie. */
  function Guard(path: string, accessToken: Option<string>): (d: Decision)
    ensures d.Redirect? ==> d.target != path
    ensures d.Redirect? ==> d.target == LoginPath || d.target == LandingPath
    ensures d == Allow <==> (Present(accessToken) <==> !IsPublicPath(path))
  {
    var isPublic := IsPublicPath(path);
    if Present(accessToken) && isPublic then Redirect(LandingPath)
    else if !Present(accessToken) && !isPublic then Redirect(LoginPath)
    else Allow
  }

  /** The three outcomes and when each one happens. */
  lemma GuardCases(path: string, accessToken: Option<string>)
    ensures Guard(path, accessToken) == Redirect(LandingPath) <==> Present(accessToken) && path == "/login"
    ensures Guard(path, accessToken) == Redirect(LoginPath) <==> !Present(accessToken) && path != "/login"
    ensures Present(accessToken) && path != "/login" ==> Guard(path, accessToken) == Allow
    ensures !Present(accessToken) && path == "/login" ==> Guard(path, accessToken) == Allow
  {
  }

  /** Following a redirect with the same token is let through, so the guard
      cannot loop. */
  lemma GuardConverges(path: string, accessToken: Option<string>)
    ensures Guard(path, accessToken).Redirect? ==>
              Guard(Guard(path, accessToken).target, accessToken) == Allow
  {
  }

  /** The guard sees only whether the access token is present: two tokens
      that are both absent or empty, or both non-empty, get the same
      decision, and neither the refresh token nor the preference matters. */
  lemma GuardDependsOnlyOnPresence(path: string, s1: Session, s2: Session)
    requires LoggedIn(s1) == LoggedIn(s2)
    ensures Guard(path, s1.accessToken) == Guard(path, s2.accessToken)
  {
  }

  /** The guard and `loggedIn` agree: a protected page is reachable exactly
      when the session is logged in, and the login page exactly when it is
      not. */
  lemma GuardAgreesWithLoggedIn(s: Session, path: string)
    ensures path != LoginPath ==> (Guard(path, s.accessToken) == Allow <==> LoggedIn(s))
    ensures Guard(LoginPath, s.accessToken) == Allow <==> !LoggedIn(s)
  {
  }

  /** The navigation a session operation requests is let through by the
      guard on the session it leaves behind, except after a login whose
      reply carried no usable access token: that one is bounced back to the
      login page. */
  lemma NavigationAdmitted(s: Session, op: Op)
    requires Apply(s, op).nav.Some?
    ensures var r := Apply(s, op);
            (Guard(r.nav.value, r.session.accessToken) == Allow
             <==> !(op.LoginOp? && !Present(op.reply.token)))
  {
    var r := Apply(s, op);
    if op.LoginOp? {
      assert op.reply.Granted?;
      assert r.nav.value == LandingPath;
    } else if op.RefreshOp? {
      assert r.nav.value == LoginPath;
    }
  }

  /** After `logout` every protected path leads to the login page. */
  lemma LogoutLocksProtectedPaths(s: Session, path: string)
    requires path != "/login"
    ensures Guard(path, Logout(s).session.accessToken) == Redirect("/login")
  {
  }
}
