/** The session composable: a "remember me" preference cookie plus an access
    and a refresh token cookie, and the `login`, `refresh` and `logout`
    operations over them. Each operation is a transition from one `Session`
    to a `Step`, driven by the reply of an abstract authentication backend. */
module Auth {
  import opened Wrappers

  /** 60 * 60 * 24 * 30 seconds. */
  const ThirtyDays: nat := 2592000

  const LoginPath := "/login"
  const LandingPath := "/customers"

  /** A cookie either carries a max-age in seconds or lives as long as the
      browsing session. */
  datatype Lifetime = MaxAge(seconds: nat) | SessionOnly

  datatype Session = Session(remember: bool, accessToken: Option<string>, refreshToken: Option<string>)

  /** What the token endpoint did: answered with a body (whose `token` and
      `refreshToken` fields may be missing), or threw. A body that is `null`
      or `undefined` counts as `Rejected`: reading `response.token` off it
      throws, which login lets propagate and refresh catches. */
  datatype AuthReply = Granted(token: Option<string>, refreshToken: Option<string>) | Rejected

  /** What happened to the two token cookies, which are always written
      together. */
  datatype TokenWrite = Untouched | Written(lifetime: Lifetime) | Cleared

  /** The outcome of one operation: the new session, the cookie write, the
      navigation requested (if any), and whether the operation threw. */
  datatype Step = Step(session: Session, write: TokenWrite, nav: Option<string>, raised: bool)

  /** JavaScript truthiness of a `string | null` cookie value. */
  predicate Present(t: Option<string>) {
    t.Some? && t.value != ""
  }

  /** `loggedIn`: derived from the access token alone. */
  predicate LoggedIn(s: Session) {
    Present(s.accessToken)
  }

  /** The session as read from the cookies at start-up; an unset preference
      cookie reads as `false`. */
  function LoadSession(remember: Option<bool>, access: Option<string>, refresh: Option<string>): (s: Session)
    ensures remember.None? ==> !s.remember
    ensures remember.Some? ==> s.remember == remember.value
    ensures s.accessToken == access && s.refreshToken == refresh
  {
    Session(match remember case Some(b) => b case None => false, access, refresh)
  }

  /** The token-cookie options derived from a preference. */
  function CookieLifetime(remember: bool): (l: Lifetime)
    ensures remember <==> l.MaxAge?
    ensures l.MaxAge? ==> l.seconds == 60 * 60 * 24 * 30
  {
    if remember then MaxAge(ThirtyDays) else SessionOnly
  }

  /** `login(email, password, remember)`: the preference is stored before the
      backend is called, so it changes even when the call throws; the tokens
      change only when the call answers. */
  function Login(s: Session, remember: bool, reply: AuthReply): (r: Step)
    ensures r.session.remember == remember
    ensures reply.Rejected? ==>
              && r.raised && r.nav.None? && r.write == Untouched
              && r.session.accessToken == s.accessToken
              && r.session.refreshToken == s.refreshToken
    ensures reply.Granted? ==>
              && !r.raised && r.nav == Some(LandingPath)
              && r.write == Written(CookieLifetime(remember))
              && r.session.accessToken == reply.token
              && r.session.refreshToken == reply.refreshToken
  {
    var preferred := s.(remember := remember);
    match reply
    case Rejected => Step(preferred, Untouched, None, true)
    case Granted(token, refreshToken) =>
      Step(preferred.(accessToken := token, refreshToken := refreshToken),
           Written(CookieLifetime(remember)), Some(LandingPath), false)
  }

  /** `refresh()`: nothing happens without a refresh token; otherwise the
      tokens are rotated under the stored preference, or cleared with a
      redirect to the login page when the backend throws. It never throws
      itself and never touches the preference. */
  function Refresh(s: Session, reply: AuthReply): (r: Step)
    ensures !r.raised
    ensures r.session.remember == s.remember
    ensures !Present(s.refreshToken) ==> r.session == s && r.write == Untouched && r.nav.None?
    ensures Present(s.refreshToken) && reply.Granted? ==>
              && r.session.accessToken == reply.token
              && r.session.refreshToken == reply.refreshToken
              && r.write == Written(CookieLifetime(s.remember))
              && r.nav.None?
    ensures Present(s.refreshToken) && reply.Rejected? ==>
              && r.session.accessToken.None? && r.session.refreshToken.None?
              && r.write == Cleared
              && r.nav == Some(LoginPath)
  {
    if !Present(s.refreshToken) then Step(s, Untouched, None, false)
    else
      match reply
      case Granted(token, refreshToken) =>
        Step(s.(accessToken := token, refreshToken := refreshToken),
             Written(CookieLifetime(s.remember)), None, false)
      case Rejected =>
        Step(s.(accessToken := None, refreshToken := None), Cleared, Some(LoginPath), false)
  }

  /** `logout()`: resets the preference, clears both tokens and goes to the
      login page, whatever the session was. */
  function Logout(s: Session): (r: Step)
    ensures !LoggedIn(r.session) && !r.session.remember
    ensures r.session.accessToken.None? && r.session.refreshToken.None?
    ensures r.write == Cleared && r.nav == Some(LoginPath) && !r.raised
  {
    Step(Session(false, None, None), Cleared, Some(LoginPath), false)
  }

  /** One call into the composable. */
  datatype Op = LoginOp(remember: bool, reply: AuthReply) | RefreshOp(reply: AuthReply) | LogoutOp

  function Apply(s: Session, op: Op): Step {
    match op
    case LoginOp(remember, reply) => Login(s, remember, reply)
    case RefreshOp(reply) => Refresh(s, reply)
    case LogoutOp => Logout(s)
  }

  /** The session after a sequence of calls, each taken as atomic. */
  function Run(s: Session, ops: seq<Op>): Session
    decreases |ops|
  {
    if |ops| == 0 then s else Run(Apply(s, ops[0]).session, ops[1..])
  }

  // ----- The two-state view of a session -----

  datatype AuthState = Anonymous | Authenticated

  function StateOf(s: Session): AuthState {
    if LoggedIn(s) then Authenticated else Anonymous
  }

  /** The state a successful reply leads to. */
  function StateGranted(token: Option<string>): AuthState {
    if Present(token) then Authenticated else Anonymous
  }

  /** The reference state machine: a failed login changes nothing, a granted
      reply moves to the state its access token denotes, a failed refresh
      ends the session, logout always ends it, and a refresh without a
      refresh token stays put. */
  ghost predicate Permitted(from: AuthState, op: Op, to: AuthState) {
    match op
    case LoginOp(_, Rejected) => to == from
    case LoginOp(_, Granted(token, _)) => to == StateGranted(token)
    case RefreshOp(Rejected) => to == from || to == Anonymous
    case RefreshOp(Granted(token, _)) => to == from || to == StateGranted(token)
    case LogoutOp => to == Anonymous
  }

  lemma TransitionsPermitted(s: Session, op: Op)
    ensures Permitted(StateOf(s), op, StateOf(Apply(s, op).session))
    ensures op.RefreshOp? && Present(s.refreshToken) && op.reply.Rejected? ==>
              StateOf(Apply(s, op).session) == Anonymous
    ensures op.RefreshOp? && !Present(s.refreshToken) ==>
              StateOf(Apply(s, op).session) == StateOf(s)
  {
  }

  /** `loggedIn` reads only the access token; `null` and `""` are both
      logged out. */
  lemma LoggedInOnlyForNonEmptyToken(s: Session)
    ensures LoggedIn(s) <==> exists t :: s.accessToken == Some(t) && t != ""
    ensures s.accessToken == None || s.accessToken == Some("") ==> !LoggedIn(s)
  {
    if LoggedIn(s) {
      assert s.accessToken == Some(s.accessToken.value);
    }
  }

  lemma LogoutIdempotent(s: Session)
    ensures Logout(Logout(s).session) == Logout(s)
  {
  }

  /** A refresh without a refresh token does not consult the backend: its
      result is the same whatever the backend would have answered. */
  lemma RefreshWithoutTokenIgnoresBackend(s: Session, a: AuthReply, b: AuthReply)
    requires !Present(s.refreshToken)
    ensures Refresh(s, a) == Refresh(s, b)
    ensures Refresh(s, a).session == s
  {
  }

  /** Tokens written through the explicitly built options get the lifetime
      of the preference the session holds afterwards: the `remember`
      argument on login, the stored preference on refresh. */
  lemma WrittenLifetimeMatchesPreference(s: Session, op: Op)
    ensures Apply(s, op).write.Written? ==>
              Apply(s, op).write.lifetime == CookieLifetime(Apply(s, op).session.remember)
  {
  }

  /** Every operation replaces both tokens or neither. */
  lemma TokensChangeTogether(s: Session, op: Op)
    ensures var r := Apply(s, op);
            r.write == Untouched <==>
              (r.session.accessToken == s.accessToken && r.session.refreshToken == s.refreshToken
               && (op.LoginOp? ==> op.reply.Rejected?)
               && (op.RefreshOp? ==> !Present(s.refreshToken))
               && !op.LogoutOp?)
  {
  }

  // ----- Token pairing -----

  /** Both tokens are set or both are unset. */
  predicate Paired(s: Session) {
    s.accessToken.Some? == s.refreshToken.Some?
  }

  predicate ReplyPaired(op: Op) {
    (op.LoginOp? || op.RefreshOp?) && op.reply.Granted? ==>
      op.reply.token.Some? == op.reply.refreshToken.Some?
  }

  /** As long as the backend answers with both tokens or neither, no sequence
      of calls leaves one token set without the other. */
  lemma {:induction false} RunKeepsTokensPaired(s: Session, ops: seq<Op>)
    requires Paired(s)
    requires forall i :: 0 <= i < |ops| ==> ReplyPaired(ops[i])
    ensures Paired(Run(s, ops))
    decreases |ops|
  {
    if |ops| > 0 {
      var next := Apply(s, ops[0]).session;
      assert ReplyPaired(ops[0]);
      assert Paired(next);
      assert forall i :: 0 <= i < |ops[1..]| ==> ReplyPaired(ops[1..][i]) by {
        forall i | 0 <= i < |ops[1..]|
          ensures ReplyPaired(ops[1..][i])
        {
          assert ops[1..][i] == ops[i + 1];
        }
      }
      RunKeepsTokensPaired(next, ops[1..]);
    }
  }

  /** Whatever was there before, the user's last logout decides: after a
      logout at the end of any sequence the session is fully reset. */
  lemma {:induction false} RunEndingInLogout(s: Session, ops: seq<Op>)
    requires |ops| > 0 && ops[|ops| - 1] == LogoutOp
    ensures Run(s, ops) == Session(false, None, None)
    decreases |ops|
  {
    if |ops| > 1 {
      RunEndingInLogout(Apply(s, ops[0]).session, ops[1..]);
    }
  }

  // ----- Scenarios -----

  /** A login followed by two refreshes against a backend that
      always answers with non-empty tokens: logged in after every step, and
      the access token is the latest one. */
  lemma LoginThenTwoRefreshes(s: Session, remember: bool, t1: string, r1: string, t2: string, r2: string, t3: string, r3: string)
    requires t1 != "" && r1 != "" && t2 != "" && r2 != "" && t3 != ""
    ensures var a := Login(s, remember, Granted(Some(t1), Some(r1))).session;
            var b := Refresh(a, Granted(Some(t2), Some(r2))).session;
            var c := Refresh(b, Granted(Some(t3), Some(r3))).session;
            && LoggedIn(a) && a.accessToken == Some(t1)
            && LoggedIn(b) && b.accessToken == Some(t2)
            && LoggedIn(c) && c.accessToken == Some(t3)
            && c.remember == remember
  {
  }

  lemma RememberedLoginScenario(s: Session)
    ensures var r := Login(s, true, Granted(Some("T1"), Some("R1")));
            && r.session == Session(true, Some("T1"), Some("R1"))
            && r.write == Written(MaxAge(2592000))
            && r.nav == Some("/customers")
  {
  }
}
