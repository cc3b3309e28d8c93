/** The cryptographic and library primitives the authentication core calls but does not define:
    jsonwebtoken's sign/verify, bcryptjs's hash/compare, Node's sha256 digest, speakeasy's TOTP and key URI,
    and the QR-code renderer. They are uninterpreted: a `Primitives` value supplies them, and `Sound` states
    the few facts about them that the core relies on. */
module Crypto {
  import opened Wrappers

  type Secret = string

  /** A user's identifier, as carried in token payloads. */
  type UserId = nat

  /** The `type` claim of a token, and the `type` of a revocation entry. */
  datatype TokenKind = Access | Refresh

  /** The claims of a signed token: the payload the service signs, plus `iat` and `exp` in seconds. */
  datatype Claims = Claims(userId: UserId, email: string, kind: TokenKind, iat: nat, exp: nat)

  /** Why jsonwebtoken's verify throws: a `JsonWebTokenError` (bad signature, malformed token) or a
      `TokenExpiredError` (good signature, clock at or past `exp`). */
  datatype JwtFailure = JsonWebTokenError(reason: string) | TokenExpiredError {
    function Name(): string {
      if JsonWebTokenError? then "JsonWebTokenError" else "TokenExpiredError"
    }
    function Message(): string {
      if JsonWebTokenError? then reason else "jwt expired"
    }
  }

  datatype Primitives = Primitives(
    /** jwt.sign(claims, secret) with HS256 */
    jwtSign: (Claims, Secret) -> string,
    /** jwt.verify(token, secret) at a clock given in whole seconds */
    jwtVerify: (string, Secret, nat) -> Result<Claims, JwtFailure>,
    /** bcrypt.hash(password, cost) with the given salt */
    bcryptHash: (string, nat, string) -> string,
    /** bcrypt.compare(password, hash) */
    bcryptCompare: (string, string) -> bool,
    /** createHash('sha256').update(s).digest('hex') */
    sha256Hex: string -> string,
    /** speakeasy.totp.verify({secret, encoding: 'base32', token, window}) at a clock in milliseconds */
    totpVerify: (string, string, nat, nat) -> bool,
    /** the code an authenticator app shows for a secret at a clock in milliseconds */
    totpCode: (string, nat) -> string,
    /** speakeasy's `otpauth_url`: the key URI of a base32 secret for an account name */
    otpauthUrl: (string, string) -> string,
    /** QRCode.toDataURL(otpauthUrl) */
    qrDataUrl: string -> string)

  /** The facts about the primitives the model relies on. */
  ghost predicate Sound(p: Primitives) {
    // a signed token is a non-empty string
    && (forall c: Claims, s: Secret :: p.jwtSign(c, s) != "")
    // a token verifies, with its own claims, under the secret it was signed with until its expiry
    && (forall c: Claims, s: Secret, t: nat :: t < c.exp ==> p.jwtVerify(p.jwtSign(c, s), s, t) == Success(c))
    // from its expiry on it fails with TokenExpiredError
    && (forall c: Claims, s: Secret, t: nat :: c.exp <= t ==> p.jwtVerify(p.jwtSign(c, s), s, t) == Failure(TokenExpiredError))
    // under any other secret its signature does not check
    && (forall c: Claims, s: Secret, s': Secret, t: nat ::
          s != s' ==> p.jwtVerify(p.jwtSign(c, s), s', t).Failure? && p.jwtVerify(p.jwtSign(c, s), s', t).error.JsonWebTokenError?)
    // only tokens signed with the secret verify under it (HS256 is deterministic and unforgeable)
    && (forall tok: string, s: Secret, t: nat ::
          p.jwtVerify(tok, s, t).Success? ==> tok == p.jwtSign(p.jwtVerify(tok, s, t).value, s))
    // a bcrypt hash matches the password it was made from, and is a 60-character string
    && (forall pw: string, cost: nat, salt: string :: p.bcryptCompare(pw, p.bcryptHash(pw, cost, salt)))
    && (forall pw: string, cost: nat, salt: string :: |p.bcryptHash(pw, cost, salt)| == 60)
    // the current code of a secret is a non-empty string that verifies, whatever the window
    && (forall s: string, t: nat :: p.totpCode(s, t) != "")
    && (forall s: string, t: nat, w: nat :: p.totpVerify(s, p.totpCode(s, t), t, w))
  }

  /** A token that verifies was signed with that secret, and the clock is before its expiry. */
  lemma VerifiedTokenIsGenuine(p: Primitives, tok: string, s: Secret, t: nat)
    requires Sound(p)
    requires p.jwtVerify(tok, s, t).Success?
    ensures tok == p.jwtSign(p.jwtVerify(tok, s, t).value, s)
    ensures t < p.jwtVerify(tok, s, t).value.exp
  {
    var c := p.jwtVerify(tok, s, t).value;
    assert tok == p.jwtSign(c, s);
    if c.exp <= t {
      assert false;
    }
  }
}
