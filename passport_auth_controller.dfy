/** The mounted authentication handlers. Registration, e-mail verification and refresh are the same
    code as in the hand-rolled controller; login goes through the local strategy, the Google
    callback through the Google resolver, and logout revokes the token the JWT gate attached. */
module PassportAuthController {
  import opened Wrappers
  import opened Errors
  import opened UserModel
  import opened Requests
  import opened PassportConfig
  import AuthController
  import Http
  import TokenService
  import BL = TokenBlacklistModel
  import TokenBlacklistService
  import Env
  import Crypto
  import ErrorHandler

  method Register(users: UserCollection, firstName: Option<string>, lastName: Option<string>, email: Option<string>,
                  password: Option<string>, salt: string, random: seq<TokenService.Byte>,
                  smtpError: Option<string>, crypto: Crypto.Primitives, now: nat)
    returns (r: Result<Http.Response, Thrown>, mailed: Option<(string, string)>)
    modifies users
    ensures (r, users.State()) == AuthController.RegisterOutcome(old(users.State()), firstName, lastName, email, password, salt, random, smtpError, crypto, now)
    ensures mailed.Some? <==> users.State().nextId != old(users.State()).nextId
  {
    r, mailed := AuthController.Register(users, firstName, lastName, email, password, salt, random, smtpError, crypto, now);
  }

  method VerifyEmail(users: UserCollection, token: Option<string>, crypto: Crypto.Primitives, now: nat)
    returns (r: Result<Http.Response, Thrown>)
    modifies users
    ensures (r, users.State()) == AuthController.VerifyEmailOutcome(old(users.State()), token, crypto, now)
  {
    r := AuthController.VerifyEmail(users, token, crypto, now);
  }

  // ---- settling a passport callback ----

  /** How a request through one of these two handlers ends. Their custom callbacks are `async`, and
      `passport.authenticate` drops the promise a callback returns. So an error reaches Express only
      when the callback hands it to `next`. A throw inside the callback rejects a promise that
      nobody awaits: `asyncHandler`'s catch never sees it, and no response is sent. */
  datatype Settled = Sent(response: Http.Response) | Forwarded(error: Thrown) | Unhandled(error: Thrown)

  /** A response the callback builds, or the error it throws while building it. */
  function Thrower(r: Result<Http.Response, Thrown>): Settled {
    match r
    case Success(x) => Sent(x)
    case Failure(e) => Unhandled(e)
  }

  /** Where a forwarded error ends, given the error handler's arity; a sent response is final and
      an unhandled rejection gets no answer at all. */
  function Answer(o: Settled, arity: nat, stack: string, env: Env.NodeEnv): Option<ErrorHandler.Delivered>
    requires !o.Sent?
  {
    if o.Forwarded? then Some(ErrorHandler.Deliver(arity, o.error, stack, env)) else None
  }

  // ---- login ----

  /** `info?.message || 'Invalid credentials'` */
  function RejectionMessage(m: Option<string>): string {
    if m.Some? && m.value != "" then m.value else "Invalid credentials"
  }

  /** The callback as written: a strategy error goes to `next`, while the rejection's throw and a
      failing `user.save()` are unhandled rejections. */
  function LoginOutcome(s: Store, email: Option<string>, password: Option<string>,
                        config: Env.Config, crypto: Crypto.Primitives, now: nat): (Settled, Store)
  {
    LoginCallback(LocalVerify(s, email, password, crypto), s, config, crypto, now)
  }

  /** The written callback, given the strategy's verdict. */
  function LoginCallback(v: Verdict, s: Store, config: Env.Config, crypto: Crypto.Primitives, now: nat): (Settled, Store) {
    match v
    case Errored(e) => (Forwarded(e), s)
    case Rejected(m) => (Unhandled(App(AuthenticationError(Some(RejectionMessage(m))))), s)
    case Accepted(p) =>
      match SaveOutcome(s, p.user.(lastLoginAt := Some(now)), {LastLoginAt})
      case Failure(e) => (Unhandled(e), s)
      case Success(t) => (Sent(AuthController.SessionResponse(p.user, config, crypto, now)), t)
  }

  /** `login`: the local strategy, then the callback that sets lastLoginAt and issues tokens. */
  method Login(users: UserCollection, email: Option<string>, password: Option<string>,
               config: Env.Config, crypto: Crypto.Primitives, now: nat) returns (r: Settled)
    modifies users
    ensures (r, users.State()) == LoginOutcome(old(users.State()), email, password, config, crypto, now)
  {
    ghost var s0 := users.State();
    var v := LocalVerify(users.State(), email, password, crypto);
    match v {
      case Errored(e) => return Forwarded(e);
      case Rejected(info) =>
        return Unhandled(App(AuthenticationError(Some(RejectionMessage(info)))));
      case Accepted(p) =>
        var user := p.user;
        user := user.(lastLoginAt := Some(now));
        ghost var o := SaveOutcome(s0, user, {LastLoginAt});
        assert LoginOutcome(s0, email, password, config, crypto, now)
            == if o.Success? then (Sent(AuthController.SessionResponse(p.user, config, crypto, now)), o.value)
               else (Unhandled(o.error), s0);
        var saved := users.Save(user, {LastLoginAt});
        match saved {
          case Fail(e) => r := Unhandled(e);
          case Pass => r := Sent(AuthController.SessionResponse(p.user, config, crypto, now));
        }
    }
  }

  /** A strategy error is the only error passed on, and it is passed on unchanged. A rejection
      throws an authentication error with the strategy's message. Nothing is written unless the
      login succeeds. */
  lemma LoginFailures(s: Store, email: Option<string>, password: Option<string>,
                      config: Env.Config, crypto: Crypto.Primitives, now: nat)
    ensures var (r, t) := LoginOutcome(s, email, password, config, crypto, now);
      var v := LocalVerify(s, email, password, crypto);
      && (!r.Sent? ==> t == s)
      && (r.Forwarded? <==> v.Errored?)
      && (v.Errored? ==> r == Forwarded(v.err))
      && (v.Rejected? ==> r.Unhandled? && r.error.App? && r.error.err == AuthenticationError(Some(RejectionMessage(v.message))))
      && (Blank(email) || Blank(password) ==> r == Unhandled(App(AuthenticationError(Some("Missing credentials")))))
  {
  }

  /** A wrong address is answered by no one: the authentication error is thrown inside the callback,
      so neither the error handler nor Express's final handler sees it. */
  lemma LoginRejectionUnhandled(s: Store, email: string, password: string, stack: string, env: Env.NodeEnv,
                                config: Env.Config, crypto: Crypto.Primitives, now: nat)
    requires s.available && email != "" && password != ""
    requires First(s, ByEmail(Some(email))).None?
    ensures var (r, t) := LoginOutcome(s, Some(email), Some(password), config, crypto, now);
      && r == Unhandled(App(AuthenticationError(Some("Invalid credentials")))) && t == s
      && Answer(r, 4, stack, env).None?
  {
    LocalRejections(s, email, password, crypto);
  }

  /** The callback as evidently intended: `return next(new AuthenticationError(…))` on a rejection,
      and the save's failure caught and handed to `next`. */
  function ForwardingLoginOutcome(s: Store, email: Option<string>, password: Option<string>,
                                  config: Env.Config, crypto: Crypto.Primitives, now: nat): (Settled, Store)
  {
    ForwardingCallback(LocalVerify(s, email, password, crypto), s, config, crypto, now)
  }

  /** The intended callback, given the strategy's verdict. */
  function ForwardingCallback(v: Verdict, s: Store, config: Env.Config, crypto: Crypto.Primitives, now: nat): (Settled, Store) {
    match v
    case Errored(e) => (Forwarded(e), s)
    case Rejected(m) => (Forwarded(App(AuthenticationError(Some(RejectionMessage(m))))), s)
    case Accepted(p) =>
      match SaveOutcome(s, p.user.(lastLoginAt := Some(now)), {LastLoginAt})
      case Failure(e) => (Forwarded(e), s)
      case Success(t) => (Sent(AuthController.SessionResponse(p.user, config, crypto, now)), t)
  }

  /** What the intended callback does where the written one throws: it hands the error to `next`. */
  function Forwarding(o: Settled): (r: Settled)
    ensures !r.Unhandled?
  {
    if o.Unhandled? then Forwarded(o.error) else o
  }

  /** The intended callback leaves nothing unhandled. It sends and writes what the written one does,
      and forwards every error the written one throws. */
  lemma ForwardingLoginForwards(s: Store, email: Option<string>, password: Option<string>,
                                config: Env.Config, crypto: Crypto.Primitives, now: nat)
    ensures ForwardingLoginOutcome(s, email, password, config, crypto, now)
         == (Forwarding(LoginOutcome(s, email, password, config, crypto, now).0), LoginOutcome(s, email, password, config, crypto, now).1)
  {
    CallbackForwards(LocalVerify(s, email, password, crypto), s, config, crypto, now);
  }

  lemma CallbackForwards(v: Verdict, s: Store, config: Env.Config, crypto: Crypto.Primitives, now: nat)
    ensures ForwardingCallback(v, s, config, crypto, now)
         == (Forwarding(LoginCallback(v, s, config, crypto, now).0), LoginCallback(v, s, config, crypto, now).1)
  {
  }

  /** With the intended callback and the four-parameter error handler, a wrong address is answered
      401 'Invalid credentials'. */
  lemma ForwardingLoginAnswers(s: Store, email: string, password: string, stack: string, env: Env.NodeEnv,
                               config: Env.Config, crypto: Crypto.Primitives, now: nat)
    requires s.available && email != "" && password != ""
    requires First(s, ByEmail(Some(email))).None?
    ensures var r := ForwardingLoginOutcome(s, Some(email), Some(password), config, crypto, now).0;
      && r == Forwarded(App(AuthenticationError(Some("Invalid credentials"))))
      && Answer(r, 4, stack, env) == Some(ErrorHandler.Answered(ErrorHandler.Handle(r.error, stack, env)))
      && ErrorHandler.Handle(r.error, stack, env).status == Http.UNAUTHORIZED
      && ErrorHandler.Handle(r.error, stack, env).message == "Invalid credentials"
  {
    LocalRejections(s, email, password, crypto);
    assert LocalVerify(s, Some(email), Some(password), crypto) == Rejected(Some("Invalid credentials"));
    ErrorHandler.FourParameterHandlerAnswers(App(AuthenticationError(Some("Invalid credentials"))), stack, env);
  }

  /** This path issues tokens for whatever the local strategy accepts: an unverified address or a
      record with 2FA on logs in with the password alone, where the hand-rolled login refuses. */
  lemma LoginSkipsVerificationAnd2FA(s: Store, k: UserId, email: string, password: string, code: Option<string>,
                                     config: Env.Config, crypto: Crypto.Primitives, now: nat)
    requires Invariant(s) && s.available
    requires email != "" && password != ""
    requires k in s.users && s.users[k].email == NormalizeEmail(email)
    requires s.users[k].password.Some? && s.users[k].password.value != ""
    requires crypto.bcryptCompare(password, s.users[k].password.value)
    ensures var (r, t) := LoginOutcome(s, Some(email), Some(password), config, crypto, now);
      && r == Sent(AuthController.SessionResponse(Project(s.users[k], CREDENTIALS), config, crypto, now))
      && t == s.(users := s.users[k := s.users[k].(lastLoginAt := Some(now))])
    ensures !s.users[k].emailVerified ==>
      AuthController.LoginOutcome(s, Some(email), Some(password), code, config, crypto, now).0 == Failure(App(AuthController.UNVERIFIED))
  {
    LocalAcceptsUnverified(s, k, email, password, crypto);
    SaveLastLogin(s, k, CREDENTIALS, now);
    if !s.users[k].emailVerified {
      AuthController.LoginOnRecord(s, k, email, password, code, config, crypto, now);
    }
  }

  // ---- Google callback ----

  /** Reading `config.frontend.url` while `config.frontend` is undefined. */
  const NO_FRONTEND: Thrown := Raw("TypeError", "Cannot read properties of undefined (reading 'url')", NoInfo)

  /** `res.redirect(`${config.frontend.url}${path}`)` */
  function FrontendRedirect(config: Env.Config, path: string): (r: Result<Http.Response, Thrown>) {
    match config.frontend
    case None => Failure(NO_FRONTEND)
    case Some(url) => Success(Http.Redirect(url + path))
  }

  const OAUTH_FAILED := "/auth/login?error=oauth_failed"

  function SuccessPath(u: User, config: Env.Config, crypto: Crypto.Primitives, now: nat): string {
    var p := TokenService.Payload(u.id, u.email);
    "/auth/oauth/success?accessToken=" + TokenService.GenerateAccessToken(p, config, crypto, now)
      + "&refreshToken=" + TokenService.GenerateRefreshToken(p, config, crypto, now)
  }

  /** The resolver runs first; on error or no user the callback redirects to the login page, and
      otherwise it saves lastLoginAt, issues both tokens and redirects with them. The callback never
      calls `next`: whatever it throws is unhandled. */
  function GoogleCallbackOutcome(s: Store, p: Profile, config: Env.Config, crypto: Crypto.Primitives, now: nat)
    : (Settled, Store)
  {
    var (v, s1) := GoogleResolution(s, p);
    AfterResolution(v, s1, config, crypto, now)
  }

  /** The callback proper, given the resolver's verdict and the store it left. */
  function AfterResolution(v: Verdict, s1: Store, config: Env.Config, crypto: Crypto.Primitives, now: nat)
    : (Settled, Store)
  {
    match v
    case Accepted(a) =>
      (match SaveOutcome(s1, a.user.(lastLoginAt := Some(now)), {LastLoginAt})
       case Failure(e) => (Unhandled(e), s1)
       case Success(t) => (Thrower(FrontendRedirect(config, SuccessPath(a.user, config, crypto, now))), t))
    case _ => (Thrower(FrontendRedirect(config, OAUTH_FAILED)), s1)
  }

  method GoogleCallback(users: UserCollection, p: Profile, config: Env.Config, crypto: Crypto.Primitives, now: nat)
    returns (r: Settled)
    modifies users
    ensures (r, users.State()) == GoogleCallbackOutcome(old(users.State()), p, config, crypto, now)
  {
    var v := GoogleResolve(users, p);
    match v {
      case Accepted(a) =>
        var user := a.user;
        user := user.(lastLoginAt := Some(now));
        var saved := users.Save(user, {LastLoginAt});
        match saved {
          case Fail(e) => r := Unhandled(e);
          case Pass => r := Thrower(FrontendRedirect(config, SuccessPath(a.user, config, crypto, now)));
        }
      case Errored(_) => r := Thrower(FrontendRedirect(config, OAUTH_FAILED));
      case Rejected(_) => r := Thrower(FrontendRedirect(config, OAUTH_FAILED));
    }
  }

  /** With the configuration as loaded there is no `frontend` group, so the callback never
      redirects: apart from a failed lastLoginAt save it always ends in a TypeError. Either way
      the error is an unhandled rejection and the client gets no answer. */
  lemma GoogleCallbackAsWritten(s: Store, p: Profile, raw: Env.RawEnv, crypto: Crypto.Primitives, now: nat)
    requires Env.Load(raw).Some?
    ensures var (r, t) := GoogleCallbackOutcome(s, p, Env.Load(raw).value, crypto, now);
      && r.Unhandled?
      && (r.error == NO_FRONTEND
          || (GoogleResolution(s, p).0.Accepted? && t == GoogleResolution(s, p).1
              && var a := GoogleResolution(s, p).0.principal.user;
              SaveOutcome(t, a.(lastLoginAt := Some(now)), {LastLoginAt}) == Failure(r.error)))
  {
  }

  /** A returning Google user gets the TypeError although the store already records the login. */
  lemma GoogleCallbackCrashesAfterWrite(s: Store, p: Profile, raw: Env.RawEnv, crypto: Crypto.Primitives, now: nat)
    requires Env.Load(raw).Some?
    requires Invariant(s) && s.available && First(s, ByGoogleId(p.id)).Some?
    ensures var (r, t) := GoogleCallbackOutcome(s, p, Env.Load(raw).value, crypto, now);
      var k := First(s, ByGoogleId(p.id)).value;
      r == Unhandled(NO_FRONTEND) && t == s.(users := s.users[k := s.users[k].(lastLoginAt := Some(now))])
  {
    GoogleKnownUser(s, p);
    var k := First(s, ByGoogleId(p.id)).value;
    assert s.users[k].id == k;
    assert Overlay(s.users[k], Project(s.users[k], {}).(lastLoginAt := Some(now)), {LastLoginAt}) == s.users[k].(lastLoginAt := Some(now));
  }

  /** With a `frontend` group the callback behaves as intended: a failed resolution redirects to the
      login page with `error=oauth_failed` and writes nothing. */
  lemma GoogleCallbackFailureRedirect(s: Store, p: Profile, env: Env.NodeEnv, jwt: Env.JwtConfig, url: string,
                                      crypto: Crypto.Primitives, now: nat)
    requires !GoogleResolution(s, p).0.Accepted?
    ensures GoogleCallbackOutcome(s, p, Env.WithFrontend(env, jwt, url), crypto, now) == (Sent(Http.Redirect(url + OAUTH_FAILED)), s)
  {
    GoogleErrorsWriteNothing(s, p);
  }

  /** With a `frontend` group a resolved user has lastLoginAt set and is sent to the success page
      carrying an access and a refresh token that verify as that user. */
  lemma GoogleCallbackSuccessRedirect(s: Store, p: Profile, env: Env.NodeEnv, jwt: Env.JwtConfig, url: string,
                                      crypto: Crypto.Primitives, now: nat, later: nat)
    requires Crypto.Sound(crypto)
    requires later / 1000 < now / 1000 + jwt.expiresIn && later / 1000 < now / 1000 + jwt.refreshExpiresIn
    requires GoogleResolution(s, p).0.Accepted?
    requires GoogleCallbackOutcome(s, p, Env.WithFrontend(env, jwt, url), crypto, now).0.Sent?
    ensures var config := Env.WithFrontend(env, jwt, url);
      var (r, t) := GoogleCallbackOutcome(s, p, config, crypto, now);
      var (v, s1) := GoogleResolution(s, p);
      var u := v.principal.user;
      && r.response == Http.Redirect(url + SuccessPath(u, config, crypto, now))
      && t == s1.(users := s1.users[u.id := s1.users[u.id].(lastLoginAt := Some(now))])
      && SessionTokensVerify(u, config, crypto, now, later)
  {
    var config := Env.WithFrontend(env, jwt, url);
    var (v, s1) := GoogleResolution(s, p);
    AfterAcceptance(v.principal, s1, config, crypto, now, later);
  }

  /** Both tokens issued for a user at `now` still verify, as that user, at `later`. */
  ghost predicate SessionTokensVerify(u: User, config: Env.Config, crypto: Crypto.Primitives, now: nat, later: nat) {
    var p := TokenService.Payload(u.id, u.email);
    var a := TokenService.VerifyToken(TokenService.GenerateAccessToken(p, config, crypto, now), false, config, crypto, later);
    var r := TokenService.VerifyToken(TokenService.GenerateRefreshToken(p, config, crypto, now), true, config, crypto, later);
    a.Success? && a.value.userId == u.id && a.value.email == u.email
    && r.Success? && r.value.userId == u.id && r.value.email == u.email
  }

  lemma AfterAcceptance(a: AuthUser, s1: Store, config: Env.Config, crypto: Crypto.Primitives, now: nat, later: nat)
    requires Crypto.Sound(crypto) && config.frontend.Some?
    requires later / 1000 < now / 1000 + config.jwt.expiresIn && later / 1000 < now / 1000 + config.jwt.refreshExpiresIn
    requires AfterResolution(Accepted(a), s1, config, crypto, now).0.Sent?
    ensures var (r, t) := AfterResolution(Accepted(a), s1, config, crypto, now);
      && r.response == Http.Redirect(config.frontend.value + SuccessPath(a.user, config, crypto, now))
      && t == s1.(users := s1.users[a.user.id := s1.users[a.user.id].(lastLoginAt := Some(now))])
      && SessionTokensVerify(a.user, config, crypto, now, later)
  {
    var u := a.user;
    TokenService.AccessTokenRoundTrip(TokenService.Payload(u.id, u.email), config, crypto, now, later);
    TokenService.RefreshTokenRoundTrip(TokenService.Payload(u.id, u.email), config, crypto, now, later);
  }

  // ---- refresh ----

  /** `refresh`: the same code as the hand-rolled handler. */
  function Refresh(refreshToken: Option<string>, config: Env.Config, crypto: Crypto.Primitives, now: nat)
    : (r: Result<Http.Response, Thrown>)
    ensures Blank(refreshToken) ==> r == Failure(App(ValidationError("Refresh token is required", NoDetails)))
    ensures !Blank(refreshToken) && TokenService.VerifyToken(refreshToken.value, true, config, crypto, now).Failure? ==>
      r == Failure(App(AuthenticationError(Some("Invalid or expired refresh token"))))
    ensures r.Success? ==> r.value.Json? && r.value.status == Http.OK && r.value.data.Refreshed?
  {
    AuthController.Refresh(refreshToken, config, crypto, now)
  }

  // ---- logout ----

  /** `logout`: the access token is the one the JWT gate attached to `req.user`. */
  method Logout(req: Request, store: BL.BlacklistCollection, refreshToken: Option<string>,
                config: Env.Config, crypto: Crypto.Primitives, now: nat) returns (r: Result<Http.Response, Thrown>)
    modifies store
    ensures req.user.None? ==> r == Failure(App(AuthController.NOT_AUTHENTICATED)) && store.State() == old(store.State())
    ensures req.user.Some? ==>
      && r == Success(Http.Json(Http.OK, AuthController.LOGGED_OUT, Http.NoData))
      && store.State() == AuthController.LoggedOut(old(store.State()), IdString(req.user.value.user.id), req.user.value.token,
                                                   refreshToken, config, crypto, now)
  {
    if req.user.None? {
      return Failure(App(AuthController.NOT_AUTHENTICATED));
    }
    AuthController.RevokeSession(store, IdString(req.user.value.user.id), req.user.value.token, refreshToken, config, crypto, now);
    r := Success(Http.Json(Http.OK, AuthController.LOGGED_OUT, Http.NoData));
  }

  /** A token the JWT gate accepted is revoked by this logout, and from then on the gate turns it
      away, whatever the refresh token was and whoever is in the user store. */
  lemma LogoutClosesTheGate(header: Option<string>, b: BL.Blacklist, s: Store, s': Store, refreshToken: Option<string>,
                            config: Env.Config, crypto: Crypto.Primitives, now: nat, later: nat)
    requires JwtAuthenticate(header, b, s, config, crypto, now).Accepted?
    ensures var a := JwtAuthenticate(header, b, s, config, crypto, now).principal;
      var b' := AuthController.LoggedOut(b, IdString(a.user.id), a.token, refreshToken, config, crypto, now);
      && TokenBlacklistService.IsBlacklisted(b', BearerToken(header).value)
      && !JwtAuthenticate(header, b', s', config, crypto, later).Accepted?
  {
    JwtAcceptance(header, b, s, config, crypto, now);
    var token := BearerToken(header).value;
    assert token != "";
  }
}
