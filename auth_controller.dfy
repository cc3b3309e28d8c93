/** The hand-rolled authentication handlers: registration, e-mail verification, login with the
    verified-address and 2FA checks, token refresh, 2FA on and off, and logout. Each handler is a
    specification function giving the response (or the error it throws) and the store it leaves,
    and a method over the shared collections proved to follow it. */
module AuthController {
  import opened Wrappers
  import opened Errors
  import opened UserModel
  import opened Requests
  import Http
  import TokenService
  import BL = TokenBlacklistModel
  import TokenBlacklistService
  import Mongo
  import Env
  import Crypto

  const BCRYPT_COST: nat := 12
  const REGISTERED := "Registration successful. Please check your email to verify your account."
  const VERIFIED := "Email verified successfully. You can now log in."

  /** The response of a successful login: both tokens for `{userId, email}` and the user summary. */
  function SessionResponse(u: User, config: Env.Config, crypto: Crypto.Primitives, now: nat): Http.Response {
    var p := TokenService.Payload(u.id, u.email);
    Http.Json(Http.OK, "Login successful",
      Http.Session(TokenService.GenerateAccessToken(p, config, crypto, now),
                   TokenService.GenerateRefreshToken(p, config, crypto, now),
                   Http.PublicProfile(u.id, u.email, u.firstName, u.lastName, u.businessName)))
  }

  // ---- register ----

  /** The record `register` creates: the password hashed only when one is given, and the digest of
      the mailed token with its expiry. */
  function RegisterDraft(firstName: Option<string>, lastName: Option<string>, email: Option<string>,
                         password: Option<string>, salt: string, mail: TokenService.EmailToken,
                         crypto: Crypto.Primitives): Draft {
    Draft(firstName, lastName, email,
          if Blank(password) then None else Some(crypto.bcryptHash(password.value, BCRYPT_COST, salt)),
          None, None, None, Some(mail.hash), Some(mail.expires))
  }

  /** What `sendVerificationEmail` rethrows when the transport fails. */
  function MailFailed(smtpMessage: string): Thrown {
    Raw("Error", "Error sending verification email: " + smtpMessage, NoInfo)
  }

  /** `smtpError` is the transport's failure message when sending the verification mail fails,
      `None` when it is sent. The record is created before the mail is sent, so a failed mail
      leaves it stored. */
  function RegisterOutcome(s: Store, firstName: Option<string>, lastName: Option<string>, email: Option<string>,
                           password: Option<string>, salt: string, random: seq<TokenService.Byte>,
                           smtpError: Option<string>, crypto: Crypto.Primitives, now: nat)
    : (Result<Http.Response, Thrown>, Store)
  {
    match FindOne(s, ByEmail(email), {})
    case Failure(e) => (Failure(e), s)
    case Success(Some(_)) => (Failure(App(ValidationError("Email already in use", NoDetails))), s)
    case Success(None) =>
      var mail := TokenService.GenerateEmailToken(random, crypto, now);
      match CreateOutcome(s, RegisterDraft(firstName, lastName, email, password, salt, mail, crypto))
      case Failure(e) => (Failure(e), s)
      case Success(u) =>
        if smtpError.Some? then (Failure(MailFailed(smtpError.value)), Inserted(s, u))
        else (Success(Http.Json(Http.CREATED, REGISTERED, Http.NoData)), Inserted(s, u))
  }

  /** `register`; `mailed` is the (address, token) pair handed to the verification mailer, whose
      outcome is `smtpError`. */
  method Register(users: UserCollection, firstName: Option<string>, lastName: Option<string>, email: Option<string>,
                  password: Option<string>, salt: string, random: seq<TokenService.Byte>,
                  smtpError: Option<string>, crypto: Crypto.Primitives, now: nat)
    returns (r: Result<Http.Response, Thrown>, mailed: Option<(string, string)>)
    modifies users
    ensures (r, users.State()) == RegisterOutcome(old(users.State()), firstName, lastName, email, password, salt, random, smtpError, crypto, now)
    ensures mailed.Some? <==> users.State().nextId != old(users.State()).nextId
    ensures mailed.Some? ==> mailed.value == (email.value, TokenService.GenerateEmailToken(random, crypto, now).token)
  {
    mailed := None;
    var existing := FindOne(users.State(), ByEmail(email), {});
    match existing {
      case Failure(e) => return Failure(e), None;
      case Success(Some(_)) => return Failure(App(ValidationError("Email already in use", NoDetails))), None;
      case Success(None) =>
    }
    var hashed: Option<string> := None;
    if !Blank(password) {
      hashed := Some(crypto.bcryptHash(password.value, BCRYPT_COST, salt));
    }
    var mail := TokenService.GenerateEmailToken(random, crypto, now);
    var draft := Draft(firstName, lastName, email, hashed, None, None, None, Some(mail.hash), Some(mail.expires));
    assert draft == RegisterDraft(firstName, lastName, email, password, salt, mail, crypto);
    var created := users.Create(draft);
    match created {
      case Failure(e) => r := Failure(e);
      case Success(_) =>
        mailed := Some((email.value, mail.token));
        if smtpError.Some? {
          r := Failure(MailFailed(smtpError.value));
        } else {
          r := Success(Http.Json(Http.CREATED, REGISTERED, Http.NoData));
        }
    }
  }

  /** An address already registered (in any case or padding) is refused with a validation error
      and nothing is created. */
  lemma RegisterRefusesTakenEmail(s: Store, firstName: Option<string>, lastName: Option<string>, email: string,
                                  password: Option<string>, salt: string, random: seq<TokenService.Byte>,
                                  smtpError: Option<string>, crypto: Crypto.Primitives, now: nat)
    requires Invariant(s) && s.available
    requires EmailTaken(s.users, NormalizeEmail(email))
    ensures RegisterOutcome(s, firstName, lastName, Some(email), password, salt, random, smtpError, crypto, now)
         == (Failure(App(ValidationError("Email already in use", NoDetails))), s)
  {
    FirstIsSmallestMatch(s, ByEmail(Some(email)));
    var k :| k in s.users && s.users[k].email == NormalizeEmail(email);
    assert Matches(s.users[k], ByEmail(Some(email)));
  }

  /** A fresh address with both names is registered: the new record is unverified, without 2FA,
      holds the bcrypt hash (cost 12) of the password only when one was given, and the SHA-256
      digest of a 64-digit mailed token that expires 24 hours from now; the store keeps its
      invariant. The answer is 201, or, when the mail fails, the mailer's error, with the record
      stored all the same. */
  lemma RegisterCreates(s: Store, firstName: string, lastName: string, email: string,
                        password: Option<string>, salt: string, random: seq<TokenService.Byte>,
                        smtpError: Option<string>, crypto: Crypto.Primitives, now: nat)
    requires Invariant(s) && s.available
    requires firstName != "" && lastName != "" && NormalizeEmail(email) != ""
    requires !EmailTaken(s.users, NormalizeEmail(email))
    requires |random| == TokenService.EMAIL_TOKEN_BYTES
    ensures var (r, t) := RegisterOutcome(s, Some(firstName), Some(lastName), Some(email), password, salt, random, smtpError, crypto, now);
      var mail := TokenService.GenerateEmailToken(random, crypto, now);
      && r == (if smtpError.None? then Success(Http.Json(Http.CREATED, REGISTERED, Http.NoData)) else Failure(MailFailed(smtpError.value)))
      && t.users.Keys == s.users.Keys + {s.nextId} && Invariant(t) && t.available
      && var u := t.users[s.nextId];
      && u.email == NormalizeEmail(email) && u.firstName == firstName && u.lastName == lastName
      && !u.emailVerified && !u.twoFactorEnabled && u.googleId.None?
      && u.password == (if Blank(password) then None else Some(crypto.bcryptHash(password.value, BCRYPT_COST, salt)))
      && |mail.token| == 64 && u.emailVerificationToken == Some(crypto.sha256Hex(mail.token))
      && u.emailVerificationExpires == Some(now + 86400000)
  {
    FirstIsSmallestMatch(s, ByEmail(Some(email)));
    var mail := TokenService.GenerateEmailToken(random, crypto, now);
    var d := RegisterDraft(Some(firstName), Some(lastName), Some(email), password, salt, mail, crypto);
    assert MissingPaths(d) == [];
    assert CreateOutcome(s, d) == Success(FromDraft(d, s.nextId));
    CreatePreservesInvariant(s, d);
  }

  /** Whatever became of the mail, the address is then taken: registering it again is refused and
      changes nothing, so a user whose verification mail failed cannot register anew. */
  lemma RegisterThenRetryRefused(s: Store, firstName: string, lastName: string, email: string,
                                 password: Option<string>, salt: string, random: seq<TokenService.Byte>,
                                 smtpError: Option<string>, crypto: Crypto.Primitives, now: nat,
                                 password2: Option<string>, random2: seq<TokenService.Byte>,
                                 smtpError2: Option<string>, now2: nat)
    requires Invariant(s) && s.available
    requires firstName != "" && lastName != "" && NormalizeEmail(email) != ""
    requires !EmailTaken(s.users, NormalizeEmail(email))
    requires |random| == TokenService.EMAIL_TOKEN_BYTES
    ensures var t := RegisterOutcome(s, Some(firstName), Some(lastName), Some(email), password, salt, random, smtpError, crypto, now).1;
      RegisterOutcome(t, Some(firstName), Some(lastName), Some(email), password2, salt, random2, smtpError2, crypto, now2)
        == (Failure(App(ValidationError("Email already in use", NoDetails))), t)
  {
    RegisterLeavesTaken(s, firstName, lastName, email, password, salt, random, smtpError, crypto, now);
    var t := RegisterOutcome(s, Some(firstName), Some(lastName), Some(email), password, salt, random, smtpError, crypto, now).1;
    RegisterRefusesTakenEmail(t, Some(firstName), Some(lastName), email, password2, salt, random2, smtpError2, crypto, now2);
  }

  lemma RegisterLeavesTaken(s: Store, firstName: string, lastName: string, email: string,
                            password: Option<string>, salt: string, random: seq<TokenService.Byte>,
                            smtpError: Option<string>, crypto: Crypto.Primitives, now: nat)
    requires Invariant(s) && s.available
    requires firstName != "" && lastName != "" && NormalizeEmail(email) != ""
    requires !EmailTaken(s.users, NormalizeEmail(email))
    requires |random| == TokenService.EMAIL_TOKEN_BYTES
    ensures var t := RegisterOutcome(s, Some(firstName), Some(lastName), Some(email), password, salt, random, smtpError, crypto, now).1;
      Invariant(t) && t.available && EmailTaken(t.users, NormalizeEmail(email))
  {
    RegisterCreates(s, firstName, lastName, email, password, salt, random, smtpError, crypto, now);
    var t := RegisterOutcome(s, Some(firstName), Some(lastName), Some(email), password, salt, random, smtpError, crypto, now).1;
    assert t.users[s.nextId].email == NormalizeEmail(email);
  }

  // ---- verifyEmail ----

  /** The record after verification: verified, with neither token field. */
  function Verified(u: User): User {
    u.(emailVerified := true, emailVerificationToken := None, emailVerificationExpires := None)
  }

  const VERIFY_DIRTY: set<Path> := {EmailVerified, VerificationToken, VerificationExpires}

  function VerifyEmailOutcome(s: Store, token: Option<string>, crypto: Crypto.Primitives, now: nat)
    : (Result<Http.Response, Thrown>, Store)
  {
    if Blank(token) then (Failure(App(ValidationError("Verification token is required", NoDetails))), s)
    else
      match FindOne(s, ByVerification(crypto.sha256Hex(token.value), now), {})
      case Failure(e) => (Failure(e), s)
      case Success(None) => (Failure(App(ValidationError("Invalid or expired verification token", NoDetails))), s)
      case Success(Some(u)) =>
        match SaveOutcome(s, Verified(u), VERIFY_DIRTY)
        case Failure(e) => (Failure(e), s)
        case Success(t) => (Success(Http.Json(Http.OK, VERIFIED, Http.NoData)), t)
  }

  /** `verifyEmail` with `req.query.token`. */
  method VerifyEmail(users: UserCollection, token: Option<string>, crypto: Crypto.Primitives, now: nat)
    returns (r: Result<Http.Response, Thrown>)
    modifies users
    ensures (r, users.State()) == VerifyEmailOutcome(old(users.State()), token, crypto, now)
  {
    var t := token.GetOr("");
    if t == "" {
      return Failure(App(ValidationError("Verification token is required", NoDetails)));
    }
    var hash := crypto.sha256Hex(t);
    var found := FindOne(users.State(), ByVerification(hash, now), {});
    match found {
      case Failure(e) => return Failure(e);
      case Success(None) => return Failure(App(ValidationError("Invalid or expired verification token", NoDetails)));
      case Success(Some(user)) =>
        var doc := user;
        doc := doc.(emailVerified := true);
        doc := doc.(emailVerificationToken := None);
        doc := doc.(emailVerificationExpires := None);
        var saved := users.Save(doc, VERIFY_DIRTY);
        match saved {
          case Fail(e) => r := Failure(e);
          case Pass => r := Success(Http.Json(Http.OK, VERIFIED, Http.NoData));
        }
    }
  }

  /** Verification succeeds exactly when some record carries the token's digest with an expiry
      strictly after now; that record, and only it, becomes verified and loses both token fields. */
  lemma VerifyEmailSucceedsIff(s: Store, token: string, crypto: Crypto.Primitives, now: nat)
    requires Invariant(s) && s.available && token != ""
    ensures var (r, t) := VerifyEmailOutcome(s, Some(token), crypto, now);
      r.Success? <==> exists k :: k in s.users && Matches(s.users[k], ByVerification(crypto.sha256Hex(token), now))
    ensures var (r, t) := VerifyEmailOutcome(s, Some(token), crypto, now);
      r.Success? ==> var k := First(s, ByVerification(crypto.sha256Hex(token), now)).value;
        && r.value == Http.Json(Http.OK, VERIFIED, Http.NoData)
        && t == s.(users := s.users[k := Verified(s.users[k])])
  {
    var f := ByVerification(crypto.sha256Hex(token), now);
    FirstIsSmallestMatch(s, f);
    if First(s, f).Some? {
      var k := First(s, f).value;
      assert s.users[k].id == k;
      assert Overlay(s.users[k], Verified(Project(s.users[k], {})), VERIFY_DIRTY) == Verified(s.users[k]);
    }
  }

  /** A verification token works once: after it succeeds the record matches no verification query,
      so replaying the token fails unless another record carries the same digest. */
  lemma VerifyEmailOneShot(s: Store, token: string, crypto: Crypto.Primitives, now: nat, later: nat)
    requires Invariant(s) && s.available && token != ""
    requires VerifyEmailOutcome(s, Some(token), crypto, now).0.Success?
    requires forall j, k :: (j in s.users && k in s.users && s.users[j].emailVerificationToken == Some(crypto.sha256Hex(token))
               && s.users[k].emailVerificationToken == Some(crypto.sha256Hex(token))) ==> j == k
    ensures var t := VerifyEmailOutcome(s, Some(token), crypto, now).1;
      VerifyEmailOutcome(t, Some(token), crypto, later)
        == (Failure(App(ValidationError("Invalid or expired verification token", NoDetails))), t)
  {
    var f := ByVerification(crypto.sha256Hex(token), now);
    VerifyEmailSucceedsIff(s, token, crypto, now);
    var k := First(s, f).value;
    var t := VerifyEmailOutcome(s, Some(token), crypto, now).1;
    assert t == s.(users := s.users[k := Verified(s.users[k])]);
    var g := ByVerification(crypto.sha256Hex(token), later);
    assert forall j :: j in t.users ==> !Matches(t.users[j], g) by {
      forall j | j in t.users ensures !Matches(t.users[j], g) {
        if j != k {
          assert t.users[j] == s.users[j];
          assert s.users[k].emailVerificationToken == Some(crypto.sha256Hex(token));
        }
      }
    }
  }

  // ---- login ----

  const INVALID_CREDENTIALS: AppError := AuthenticationError(Some("Invalid credentials"))
  const UNVERIFIED: AppError := AuthenticationError(Some("Please verify your email before logging in"))
  const CODE_REQUIRED: AppError := AuthenticationError(Some("2FA code required"))
  const CODE_INVALID: AppError := AuthenticationError(Some("Invalid 2FA code"))
  /** bcrypt.compare rejects a password that is not a string. */
  const COMPARE_ILLEGAL: Thrown := Raw("Error", "Illegal arguments: undefined, string", NoInfo)
  const TOTP_WINDOW: nat := 1

  /** The checks after a record with a password hash is found, in the handler's order. */
  function LoginChecks(u: User, password: Option<string>, code: Option<string>, crypto: Crypto.Primitives, now: nat)
    : Outcome<Thrown>
    requires u.password.Some?
  {
    if password.None? then Fail(COMPARE_ILLEGAL)
    else if !crypto.bcryptCompare(password.value, u.password.value) then Fail(App(INVALID_CREDENTIALS))
    else if !u.emailVerified then Fail(App(UNVERIFIED))
    else if u.twoFactorEnabled && Blank(code) then Fail(App(CODE_REQUIRED))
    else if u.twoFactorEnabled && !crypto.totpVerify(u.twoFactorSecret.GetOr(""), code.value, now, TOTP_WINDOW) then
      Fail(App(CODE_INVALID))
    else Pass
  }

  function LoginOutcome(s: Store, email: Option<string>, password: Option<string>, code: Option<string>,
                        config: Env.Config, crypto: Crypto.Primitives, now: nat): (Result<Http.Response, Thrown>, Store)
  {
    match FindOne(s, ByEmail(email), CREDENTIALS)
    case Failure(e) => (Failure(e), s)
    case Success(found) =>
      if found.None? || Blank(found.value.password) then (Failure(App(INVALID_CREDENTIALS)), s)
      else
        var u := found.value;
        match LoginChecks(u, password, code, crypto, now)
        case Fail(e) => (Failure(e), s)
        case Pass =>
          match SaveOutcome(s, u.(lastLoginAt := Some(now)), {LastLoginAt})
          case Failure(e) => (Failure(e), s)
          case Success(t) => (Success(SessionResponse(u, config, crypto, now)), t)
  }

  /** `login` with the body's email, password and twoFactorCode. */
  method Login(users: UserCollection, email: Option<string>, password: Option<string>, code: Option<string>,
               config: Env.Config, crypto: Crypto.Primitives, now: nat) returns (r: Result<Http.Response, Thrown>)
    modifies users
    ensures (r, users.State()) == LoginOutcome(old(users.State()), email, password, code, config, crypto, now)
  {
    var found := FindOne(users.State(), ByEmail(email), CREDENTIALS);
    var user: User;
    match found {
      case Failure(e) => return Failure(e);
      case Success(None) => return Failure(App(INVALID_CREDENTIALS));
      case Success(Some(u)) => user := u;
    }
    if Blank(user.password) {
      return Failure(App(INVALID_CREDENTIALS));
    }
    if password.None? {
      return Failure(COMPARE_ILLEGAL);
    }
    if !crypto.bcryptCompare(password.value, user.password.value) {
      return Failure(App(INVALID_CREDENTIALS));
    }
    if !user.emailVerified {
      return Failure(App(UNVERIFIED));
    }
    if user.twoFactorEnabled {
      if Blank(code) {
        return Failure(App(CODE_REQUIRED));
      }
      if !crypto.totpVerify(user.twoFactorSecret.GetOr(""), code.value, now, TOTP_WINDOW) {
        return Failure(App(CODE_INVALID));
      }
    }
    var doc := user.(lastLoginAt := Some(now));
    var saved := users.Save(doc, {LastLoginAt});
    match saved {
      case Fail(e) => r := Failure(e);
      case Pass => r := Success(SessionResponse(user, config, crypto, now));
    }
  }

  /** A failed login writes nothing. */
  lemma LoginFailureWritesNothing(s: Store, email: Option<string>, password: Option<string>, code: Option<string>,
                                  config: Env.Config, crypto: Crypto.Primitives, now: nat)
    ensures var (r, t) := LoginOutcome(s, email, password, code, config, crypto, now);
      r.Failure? ==> t == s
  {
  }

  /** An unknown address, a record without a password hash and a wrong password give one and the
      same error. */
  lemma LoginCredentialFailures(s: Store, email: string, password: string, code: Option<string>,
                                config: Env.Config, crypto: Crypto.Primitives, now: nat)
    requires Invariant(s) && s.available
    requires forall k :: k in s.users && s.users[k].email == NormalizeEmail(email) ==>
               Blank(s.users[k].password) || !crypto.bcryptCompare(password, s.users[k].password.value)
    ensures LoginOutcome(s, Some(email), Some(password), code, config, crypto, now) == (Failure(App(INVALID_CREDENTIALS)), s)
  {
    var f := ByEmail(Some(email));
    FirstIsSmallestMatch(s, f);
    if First(s, f).Some? {
      var k := First(s, f).value;
      assert s.users[k].email == NormalizeEmail(email);
      assert Project(s.users[k], CREDENTIALS).password == s.users[k].password;
    }
  }

  /** The checks run in order: a record whose credentials pass but whose address is unverified is
      refused for that reason whatever 2FA says; a verified record with 2FA on needs a code the
      authenticator check accepts with a window of one step; with 2FA off the code is ignored. */
  lemma LoginCheckOrder(u: User, password: string, code: Option<string>, crypto: Crypto.Primitives, now: nat)
    requires u.password.Some? && crypto.bcryptCompare(password, u.password.value)
    ensures !u.emailVerified ==> LoginChecks(u, Some(password), code, crypto, now) == Fail(App(UNVERIFIED))
    ensures u.emailVerified && u.twoFactorEnabled ==>
      (LoginChecks(u, Some(password), code, crypto, now) == Fail(App(CODE_REQUIRED)) <==> Blank(code))
    ensures u.emailVerified && u.twoFactorEnabled && !Blank(code) ==>
      (LoginChecks(u, Some(password), code, crypto, now) == Pass <==> crypto.totpVerify(u.twoFactorSecret.GetOr(""), code.value, now, 1))
    ensures u.emailVerified && !u.twoFactorEnabled ==> LoginChecks(u, Some(password), code, crypto, now) == Pass
  {
  }

  /** A login succeeds exactly for the record of that address when every check passes; it then
      writes nothing but that record's lastLoginAt and returns tokens that verify as that user. */
  lemma LoginSucceeds(s: Store, k: UserId, email: string, password: string, code: Option<string>,
                      config: Env.Config, crypto: Crypto.Primitives, now: nat, later: nat)
    requires Invariant(s) && s.available && Crypto.Sound(crypto)
    requires k in s.users && s.users[k].email == NormalizeEmail(email) && !Blank(s.users[k].password)
    requires later / 1000 < now / 1000 + config.jwt.expiresIn
    ensures var (r, t) := LoginOutcome(s, Some(email), Some(password), code, config, crypto, now);
      && (r.Success? <==> LoginChecks(s.users[k], Some(password), code, crypto, now) == Pass)
      && (r.Success? ==>
            && t == s.(users := s.users[k := s.users[k].(lastLoginAt := Some(now))])
            && r.value.data.user == Http.PublicProfile(k, s.users[k].email, s.users[k].firstName, s.users[k].lastName, s.users[k].businessName)
            && var c := TokenService.VerifyToken(r.value.data.accessToken, false, config, crypto, later);
            && c.Success? && c.value.userId == k && c.value.email == s.users[k].email)
  {
    LoginOnRecord(s, k, email, password, code, config, crypto, now);
    TokenService.AccessTokenRoundTrip(TokenService.Payload(k, s.users[k].email), config, crypto, now, later);
  }

  /** The login of a stored record with a password: its checks decide, and success writes only
      lastLoginAt. */
  lemma LoginOnRecord(s: Store, k: UserId, email: string, password: string, code: Option<string>,
                      config: Env.Config, crypto: Crypto.Primitives, now: nat)
    requires Invariant(s) && s.available
    requires k in s.users && s.users[k].email == NormalizeEmail(email) && !Blank(s.users[k].password)
    ensures var u := Project(s.users[k], CREDENTIALS);
      var checks := LoginChecks(s.users[k], Some(password), code, crypto, now);
      LoginOutcome(s, Some(email), Some(password), code, config, crypto, now)
        == if checks.Pass? then (Success(SessionResponse(u, config, crypto, now)), s.(users := s.users[k := s.users[k].(lastLoginAt := Some(now))]))
           else (Failure(checks.error), s)
  {
    FirstByEmail(s, k, email);
    var u := Project(s.users[k], CREDENTIALS);
    assert FindOne(s, ByEmail(Some(email)), CREDENTIALS) == Success(Some(u));
    assert LoginChecks(u, Some(password), code, crypto, now) == LoginChecks(s.users[k], Some(password), code, crypto, now);
    SaveLastLogin(s, k, CREDENTIALS, now);
  }

  // ---- refresh ----

  function Refresh(refreshToken: Option<string>, config: Env.Config, crypto: Crypto.Primitives, now: nat)
    : Result<Http.Response, Thrown>
  {
    if Blank(refreshToken) then Failure(App(ValidationError("Refresh token is required", NoDetails)))
    else match TokenService.VerifyToken(refreshToken.value, true, config, crypto, now)
      case Failure(_) => Failure(App(AuthenticationError(Some("Invalid or expired refresh token"))))
      case Success(c) =>
        Success(Http.Json(Http.OK, "Token refreshed successfully",
          Http.Refreshed(TokenService.GenerateAccessToken(TokenService.Payload(c.userId, c.email), config, crypto, now))))
  }

  /** A missing token is a validation error, and every verification failure collapses into one
      authentication error; nothing else fails. */
  lemma RefreshFailures(refreshToken: Option<string>, config: Env.Config, crypto: Crypto.Primitives, now: nat)
    ensures var r := Refresh(refreshToken, config, crypto, now);
      && (Blank(refreshToken) ==> r == Failure(App(ValidationError("Refresh token is required", NoDetails))))
      && (!Blank(refreshToken) ==>
            (r == Failure(App(AuthenticationError(Some("Invalid or expired refresh token"))))
             <==> TokenService.VerifyToken(refreshToken.value, true, config, crypto, now).Failure?))
  {
  }

  /** Refreshing an unexpired refresh token yields an access token for the same user and address;
      while the secrets differ an access token cannot be used to refresh. */
  lemma RefreshRoundTrip(p: TokenService.Payload, config: Env.Config, crypto: Crypto.Primitives, issued: nat, now: nat, later: nat)
    requires Crypto.Sound(crypto)
    requires now / 1000 < issued / 1000 + config.jwt.refreshExpiresIn
    requires later / 1000 < now / 1000 + config.jwt.expiresIn
    ensures var r := Refresh(Some(TokenService.GenerateRefreshToken(p, config, crypto, issued)), config, crypto, now);
      && r.Success? && r.value.data.Refreshed?
      && var c := TokenService.VerifyToken(r.value.data.accessToken, false, config, crypto, later);
      && c.Success? && c.value.userId == p.userId && c.value.email == p.email && c.value.kind == Crypto.Access
    ensures Env.SecretsDiffer(config) ==>
      Refresh(Some(TokenService.GenerateAccessToken(p, config, crypto, issued)), config, crypto, now)
        == Failure(App(AuthenticationError(Some("Invalid or expired refresh token"))))
  {
    TokenService.RefreshTokenRoundTrip(p, config, crypto, issued, now);
    var c := TokenService.VerifyToken(TokenService.GenerateRefreshToken(p, config, crypto, issued), true, config, crypto, now).value;
    assert TokenService.Payload(c.userId, c.email) == p;
    TokenService.AccessTokenRoundTrip(p, config, crypto, now, later);
    if Env.SecretsDiffer(config) {
      TokenService.CrossKindRejected(p, config, crypto, issued, now);
    }
  }

  // ---- 2FA ----

  const NOT_AUTHENTICATED: AppError := AuthenticationError(Some("User not authenticated"))
  const TWO_FACTOR_DIRTY: set<Path> := {TwoFactorSecret, TwoFactorEnabled}

  function Enabled(u: User, secret: string): User {
    u.(twoFactorSecret := Some(secret), twoFactorEnabled := true)
  }

  function Disabled(u: User): User {
    u.(twoFactorEnabled := false, twoFactorSecret := None)
  }

  /** The account name speakeasy gives the secret: `URA (<email>)`. */
  function TwoFactorLabel(email: string): string {
    "URA (" + email + ")"
  }

  /** The QR code of the key URI of `secret` for that user. */
  function SetupQr(u: User, secret: string, crypto: Crypto.Primitives): string {
    crypto.qrDataUrl(crypto.otpauthUrl(secret, TwoFactorLabel(u.email)))
  }

  /** `enable2FA`: `secret` is the base32 secret speakeasy generates at random. */
  function Enable2FAOutcome(principal: Option<AuthUser>, s: Store, secret: string,
                            crypto: Crypto.Primitives): (Result<Http.Response, Thrown>, Store)
  {
    if principal.None? then (Failure(App(NOT_AUTHENTICATED)), s)
    else match SaveOutcome(s, Enabled(principal.value.user, secret), TWO_FACTOR_DIRTY)
      case Failure(e) => (Failure(e), s)
      case Success(t) =>
        (Success(Http.Json(Http.OK, "2FA enabled successfully", Http.TwoFactorSetup(SetupQr(principal.value.user, secret, crypto), secret))), t)
  }

  function Disable2FAOutcome(principal: Option<AuthUser>, s: Store): (Result<Http.Response, Thrown>, Store) {
    if principal.None? then (Failure(App(NOT_AUTHENTICATED)), s)
    else match SaveOutcome(s, Disabled(principal.value.user), TWO_FACTOR_DIRTY)
      case Failure(e) => (Failure(e), s)
      case Success(t) => (Success(Http.Json(Http.OK, "2FA disabled successfully", Http.NoData)), t)
  }

  /** The handler assigns the paths on `req.user` itself before saving. */
  method Enable2FA(req: Request, users: UserCollection, secret: string, crypto: Crypto.Primitives)
    returns (r: Result<Http.Response, Thrown>)
    modifies req`user, users
    ensures (r, users.State()) == Enable2FAOutcome(old(req.user), old(users.State()), secret, crypto)
    ensures req.user == if old(req.user).None? then None else Some(old(req.user).value.(user := Enabled(old(req.user).value.user, secret)))
  {
    if req.user.None? {
      return Failure(App(NOT_AUTHENTICATED));
    }
    var qr := crypto.qrDataUrl(crypto.otpauthUrl(secret, TwoFactorLabel(req.user.value.user.email)));
    var doc := req.user.value.user;
    doc := doc.(twoFactorSecret := Some(secret));
    doc := doc.(twoFactorEnabled := true);
    req.user := Some(req.user.value.(user := doc));
    var saved := users.Save(doc, TWO_FACTOR_DIRTY);
    match saved {
      case Fail(e) => r := Failure(e);
      case Pass => r := Success(Http.Json(Http.OK, "2FA enabled successfully", Http.TwoFactorSetup(qr, secret)));
    }
  }

  method Disable2FA(req: Request, users: UserCollection) returns (r: Result<Http.Response, Thrown>)
    modifies req`user, users
    ensures (r, users.State()) == Disable2FAOutcome(old(req.user), old(users.State()))
    ensures req.user == if old(req.user).None? then None else Some(old(req.user).value.(user := Disabled(old(req.user).value.user)))
  {
    if req.user.None? {
      return Failure(App(NOT_AUTHENTICATED));
    }
    var doc := req.user.value.user;
    doc := doc.(twoFactorEnabled := false);
    doc := doc.(twoFactorSecret := None);
    req.user := Some(req.user.value.(user := doc));
    var saved := users.Save(doc, TWO_FACTOR_DIRTY);
    match saved {
      case Fail(e) => r := Failure(e);
      case Pass => r := Success(Http.Json(Http.OK, "2FA disabled successfully", Http.NoData));
    }
  }

  /** A save that writes the 2FA paths together and consistently, or neither, keeps every record's
      secret present exactly when its 2FA is on. */
  lemma SaveKeepsTwoFactorConsistent(s: Store, doc: User, dirty: set<Path>)
    requires TwoFactorConsistent(s)
    requires SaveOutcome(s, doc, dirty).Success?
    requires (TwoFactorSecret in dirty <==> TwoFactorEnabled in dirty)
    requires TwoFactorSecret in dirty ==> (doc.twoFactorSecret.Some? <==> doc.twoFactorEnabled)
    ensures TwoFactorConsistent(SaveOutcome(s, doc, dirty).value)
  {
    var t := SaveOutcome(s, doc, dirty).value;
    forall k | k in t.users ensures t.users[k].twoFactorSecret.Some? <==> t.users[k].twoFactorEnabled {
      if k != doc.id { assert t.users[k] == s.users[k]; }
    }
  }

  /** After enabling, the saved record has exactly the new secret and 2FA on; after disabling, no
      secret and 2FA off; every handler that saves keeps the secret present iff 2FA is on. */
  lemma TwoFactorToggles(principal: AuthUser, s: Store, secret: string, crypto: Crypto.Primitives)
    requires TwoFactorConsistent(s)
    ensures var (r, t) := Enable2FAOutcome(Some(principal), s, secret, crypto);
      r.Success? ==> && TwoFactorConsistent(t)
                     && r.value.data == Http.TwoFactorSetup(crypto.qrDataUrl(crypto.otpauthUrl(secret, "URA (" + principal.user.email + ")")), secret)
                     && var u := t.users[principal.user.id]; u.twoFactorEnabled && u.twoFactorSecret == Some(secret)
    ensures var (r, t) := Disable2FAOutcome(Some(principal), s);
      r.Success? ==> && TwoFactorConsistent(t)
                     && var u := t.users[principal.user.id]; !u.twoFactorEnabled && u.twoFactorSecret.None?
    ensures Enable2FAOutcome(None, s, secret, crypto) == (Failure(App(NOT_AUTHENTICATED)), s)
    ensures Disable2FAOutcome(None, s) == (Failure(App(NOT_AUTHENTICATED)), s)
  {
    if SaveOutcome(s, Enabled(principal.user, secret), TWO_FACTOR_DIRTY).Success? {
      SaveKeepsTwoFactorConsistent(s, Enabled(principal.user, secret), TWO_FACTOR_DIRTY);
    }
    if SaveOutcome(s, Disabled(principal.user), TWO_FACTOR_DIRTY).Success? {
      SaveKeepsTwoFactorConsistent(s, Disabled(principal.user), TWO_FACTOR_DIRTY);
    }
  }

  /** After 2FA is enabled, a login with the right password and the code an authenticator shows
      for the new secret passes every check, and one without a code is refused as missing it. */
  lemma EnableThenLoginChecks(principal: AuthUser, s: Store, secret: string, password: string,
                              crypto: Crypto.Primitives, now: nat)
    requires Crypto.Sound(crypto)
    requires Enable2FAOutcome(Some(principal), s, secret, crypto).0.Success?
    requires var k := principal.user.id;
      k in s.users && s.users[k].emailVerified && s.users[k].password.Some?
      && crypto.bcryptCompare(password, s.users[k].password.value)
    ensures var t := Enable2FAOutcome(Some(principal), s, secret, crypto).1;
      var u := Project(t.users[principal.user.id], CREDENTIALS);
      && u.password.Some?
      && LoginChecks(u, Some(password), Some(crypto.totpCode(secret, now)), crypto, now) == Pass
      && LoginChecks(u, Some(password), None, crypto, now) == Fail(App(CODE_REQUIRED))
  {
    var k := principal.user.id;
    var t := Enable2FAOutcome(Some(principal), s, secret, crypto).1;
    assert t.users[k] == Overlay(s.users[k], Enabled(principal.user, secret), TWO_FACTOR_DIRTY);
    assert crypto.totpCode(secret, now) != "";
    assert crypto.totpVerify(secret, crypto.totpCode(secret, now), now, TOTP_WINDOW);
  }

  /** Login does not touch the 2FA paths. */
  lemma LoginKeepsTwoFactorConsistent(s: Store, email: Option<string>, password: Option<string>, code: Option<string>,
                                      config: Env.Config, crypto: Crypto.Primitives, now: nat)
    requires TwoFactorConsistent(s)
    ensures TwoFactorConsistent(LoginOutcome(s, email, password, code, config, crypto, now).1)
  {
    var (r, t) := LoginOutcome(s, email, password, code, config, crypto, now);
    if r.Failure? {
      LoginFailureWritesNothing(s, email, password, code, config, crypto, now);
    } else {
      var u := FindOne(s, ByEmail(email), CREDENTIALS).value.value;
      var doc := u.(lastLoginAt := Some(now));
      assert t == SaveOutcome(s, doc, {LastLoginAt}).value;
      SaveKeepsTwoFactorConsistent(s, doc, {LastLoginAt});
    }
  }

  /** E-mail verification does not touch the 2FA paths. */
  lemma VerifyEmailKeepsTwoFactorConsistent(s: Store, token: Option<string>, crypto: Crypto.Primitives, now: nat)
    requires TwoFactorConsistent(s)
    ensures TwoFactorConsistent(VerifyEmailOutcome(s, token, crypto, now).1)
  {
    if !Blank(token) {
      var found := FindOne(s, ByVerification(crypto.sha256Hex(token.value), now), {});
      if found.Success? && found.value.Some? && SaveOutcome(s, Verified(found.value.value), VERIFY_DIRTY).Success? {
        SaveKeepsTwoFactorConsistent(s, Verified(found.value.value), VERIFY_DIRTY);
      }
    }
  }

  // ---- logout ----

  /** One `verifyToken` then `blacklistToken` step: the new revocation store, or None when either
      throws. The entry expires with the token (`exp * 1000` ms). */
  function Revoke(b: BL.Blacklist, token: string, refresh: bool, userId: string, config: Env.Config,
                  crypto: Crypto.Primitives, now: nat): Option<BL.Blacklist>
  {
    match TokenService.VerifyToken(token, refresh, config, crypto, now)
    case Failure(_) => None
    case Success(c) =>
      match BL.CreateOutcome(b, token, if refresh then Crypto.Refresh else Crypto.Access, userId, c.exp * 1000, now)
      case Failure(_) => None
      case Success(e) => Some(BL.Inserted(b, e))
  }

  /** The revocation store after logout's try block: the access token first; a throw there reaches
      the outer catch and skips the refresh token; a throw on the refresh token is swallowed. */
  function LoggedOut(b: BL.Blacklist, userId: string, accessToken: Option<string>, refreshToken: Option<string>,
                     config: Env.Config, crypto: Crypto.Primitives, now: nat): BL.Blacklist
  {
    var afterAccess := if Blank(accessToken) then Some(b) else Revoke(b, accessToken.value, false, userId, config, crypto, now);
    match afterAccess
    case None => b
    case Some(b1) =>
      if Blank(refreshToken) then b1
      else Revoke(b1, refreshToken.value, true, userId, config, crypto, now).GetOr(b1)
  }

  /** The try block shared by both logout handlers. */
  method RevokeSession(store: BL.BlacklistCollection, userId: string, accessToken: Option<string>, refreshToken: Option<string>,
                       config: Env.Config, crypto: Crypto.Primitives, now: nat)
    modifies store
    ensures store.State() == LoggedOut(old(store.State()), userId, accessToken, refreshToken, config, crypto, now)
  {
    var caught := false;
    if !Blank(accessToken) {
      var decoded := TokenService.VerifyToken(accessToken.value, false, config, crypto, now);
      match decoded {
        case Failure(_) => caught := true;
        case Success(c) =>
          var done := TokenBlacklistService.BlacklistToken(store, accessToken.value, Crypto.Access, userId, c.exp * 1000, now);
          caught := done.Fail?;
      }
    }
    if !caught && !Blank(refreshToken) {
      var decoded := TokenService.VerifyToken(refreshToken.value, true, config, crypto, now);
      match decoded {
        case Failure(_) =>
        case Success(c) =>
          var _ := TokenBlacklistService.BlacklistToken(store, refreshToken.value, Crypto.Refresh, userId, c.exp * 1000, now);
      }
    }
  }

  const LOGGED_OUT := "Logged out successfully"

  /** The hand-rolled `logout`: the access token is read from `req.token`. */
  method Logout(req: Request, store: BL.BlacklistCollection, refreshToken: Option<string>,
                config: Env.Config, crypto: Crypto.Primitives, now: nat) returns (r: Result<Http.Response, Thrown>)
    modifies store
    ensures req.user.None? ==> r == Failure(App(NOT_AUTHENTICATED)) && store.State() == old(store.State())
    ensures req.user.Some? ==>
      && r == Success(Http.Json(Http.OK, LOGGED_OUT, Http.NoData))
      && store.State() == LoggedOut(old(store.State()), IdString(req.user.value.user.id), req.token, refreshToken, config, crypto, now)
  {
    if req.user.None? {
      return Failure(App(NOT_AUTHENTICATED));
    }
    RevokeSession(store, IdString(req.user.value.user.id), req.token, refreshToken, config, crypto, now);
    r := Success(Http.Json(Http.OK, LOGGED_OUT, Http.NoData));
  }

  /** With two distinct unexpired tokens not yet revoked, logout revokes both, each expiring with
      its token, and changes nothing else. */
  lemma LogoutRevokesBoth(b: BL.Blacklist, userId: string, access: string, refresh: string,
                          config: Env.Config, crypto: Crypto.Primitives, now: nat)
    requires b.available && userId != "" && access != "" && refresh != "" && access != refresh
    requires !TokenBlacklistService.IsBlacklisted(b, access) && !TokenBlacklistService.IsBlacklisted(b, refresh)
    requires TokenService.VerifyToken(access, false, config, crypto, now).Success?
    requires TokenService.VerifyToken(refresh, true, config, crypto, now).Success?
    ensures var t := LoggedOut(b, userId, Some(access), Some(refresh), config, crypto, now);
      && t.entries.Keys == b.entries.Keys + {access, refresh}
      && (forall x :: x in b.entries ==> t.entries[x] == b.entries[x])
      && t.entries[access] == BL.Entry(access, Crypto.Access, userId, TokenService.VerifyToken(access, false, config, crypto, now).value.exp * 1000, now)
      && t.entries[refresh] == BL.Entry(refresh, Crypto.Refresh, userId, TokenService.VerifyToken(refresh, true, config, crypto, now).value.exp * 1000, now)
  {
    var e1 := BL.Entry(access, Crypto.Access, userId, TokenService.VerifyToken(access, false, config, crypto, now).value.exp * 1000, now);
    RevokeInserts(b, access, false, userId, config, crypto, now);
    var b1 := BL.Inserted(b, e1);
    RevokeInserts(b1, refresh, true, userId, config, crypto, now);
    var e2 := BL.Entry(refresh, Crypto.Refresh, userId, TokenService.VerifyToken(refresh, true, config, crypto, now).value.exp * 1000, now);
    assert LoggedOut(b, userId, Some(access), Some(refresh), config, crypto, now) == BL.Inserted(b1, e2);
    InsertedTwice(b, e1, e2);
  }

  lemma InsertedTwice(b: BL.Blacklist, e1: BL.Entry, e2: BL.Entry)
    requires e1.token != e2.token && e1.token !in b.entries && e2.token !in b.entries
    ensures var t := BL.Inserted(BL.Inserted(b, e1), e2);
      && t.entries.Keys == b.entries.Keys + {e1.token, e2.token}
      && (forall x :: x in b.entries ==> t.entries[x] == b.entries[x])
      && t.entries[e1.token] == e1 && t.entries[e2.token] == e2
  {
  }

  /** A live token not yet revoked is inserted with its kind, its owner and its expiry in milliseconds. */
  lemma RevokeInserts(b: BL.Blacklist, token: string, refresh: bool, userId: string,
                      config: Env.Config, crypto: Crypto.Primitives, now: nat)
    requires b.available && token != "" && userId != "" && token !in b.entries
    requires TokenService.VerifyToken(token, refresh, config, crypto, now).Success?
    ensures Revoke(b, token, refresh, userId, config, crypto, now)
      == Some(BL.Inserted(b, BL.Entry(token, if refresh then Crypto.Refresh else Crypto.Access, userId,
                                      TokenService.VerifyToken(token, refresh, config, crypto, now).value.exp * 1000, now)))
  {
  }

  /** When the access token does not verify the outer catch is reached first, so the refresh token
      is not revoked either; an invalid refresh token is simply skipped. */
  lemma LogoutFailureHandling(b: BL.Blacklist, userId: string, access: string, refreshToken: Option<string>,
                              config: Env.Config, crypto: Crypto.Primitives, now: nat)
    requires access != ""
    ensures TokenService.VerifyToken(access, false, config, crypto, now).Failure? ==>
      LoggedOut(b, userId, Some(access), refreshToken, config, crypto, now) == b
    ensures !Blank(refreshToken) && TokenService.VerifyToken(refreshToken.value, true, config, crypto, now).Failure? ==>
      LoggedOut(b, userId, Some(access), refreshToken, config, crypto, now) == LoggedOut(b, userId, Some(access), None, config, crypto, now)
  {
  }

  /** Logout only ever adds entries, and only for the tokens it was given. */
  lemma LogoutOnlyAdds(b: BL.Blacklist, userId: string, access: Option<string>, refresh: Option<string>,
                       config: Env.Config, crypto: Crypto.Primitives, now: nat, other: string)
    requires access != Some(other) && refresh != Some(other)
    ensures var t := LoggedOut(b, userId, access, refresh, config, crypto, now);
      && b.entries.Keys <= t.entries.Keys
      && TokenBlacklistService.IsBlacklisted(t, other) == TokenBlacklistService.IsBlacklisted(b, other)
  {
  }

  /** Neither gate of this core sets `req.token`, so behind either of them this handler never
      revokes the access token, only (at most) the refresh token. */
  lemma HandRolledLogoutKeepsAccessToken(b: BL.Blacklist, userId: string, access: string, refreshToken: Option<string>,
                                         config: Env.Config, crypto: Crypto.Primitives, now: nat)
    requires refreshToken != Some(access)
    ensures TokenBlacklistService.IsBlacklisted(LoggedOut(b, userId, None, refreshToken, config, crypto, now), access)
         == TokenBlacklistService.IsBlacklisted(b, access)
  {
  }
}
