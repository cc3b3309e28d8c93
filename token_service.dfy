/** Issuing and checking the service's tokens: access and refresh JWTs under two secrets, and the
    e-mail verification token stored as its SHA-256 digest. */
module TokenService {
  import opened Wrappers
  import opened Crypto
  import Env

  /** The payload handlers sign: `{userId, email}`. */
  datatype Payload = Payload(userId: UserId, email: string)

  /** What jsonwebtoken signs for a payload of the given kind at `now` (milliseconds):
      `iat` is the clock in whole seconds, and `exp` lies `expiresIn` seconds later. */
  function ClaimsAt(p: Payload, kind: TokenKind, expiresIn: nat, now: nat): Claims {
    Claims(p.userId, p.email, kind, now / 1000, now / 1000 + expiresIn)
  }

  function GenerateAccessToken(p: Payload, config: Env.Config, crypto: Primitives, now: nat): string {
    crypto.jwtSign(ClaimsAt(p, Access, config.jwt.expiresIn, now), config.jwt.secret)
  }

  function GenerateRefreshToken(p: Payload, config: Env.Config, crypto: Primitives, now: nat): string {
    crypto.jwtSign(ClaimsAt(p, Refresh, config.jwt.refreshExpiresIn, now), config.jwt.refreshSecret)
  }

  /** The secret `verifyToken` checks against. */
  function SecretFor(refresh: bool, config: Env.Config): Secret {
    if refresh then config.jwt.refreshSecret else config.jwt.secret
  }

  /** `verifyToken(token, refresh)`: the decoded claims, or the failure jsonwebtoken throws. The
      `type` claim is not inspected. */
  function VerifyToken(token: string, refresh: bool, config: Env.Config, crypto: Primitives, now: nat): Result<Claims, JwtFailure> {
    crypto.jwtVerify(token, SecretFor(refresh, config), now / 1000)
  }

  /** An access token verifies as an access token with exactly the payload it was issued for, until
      `expiresIn` seconds after issue. */
  lemma AccessTokenRoundTrip(p: Payload, config: Env.Config, crypto: Primitives, issued: nat, now: nat)
    requires Sound(crypto)
    requires now / 1000 < issued / 1000 + config.jwt.expiresIn
    ensures var r := VerifyToken(GenerateAccessToken(p, config, crypto, issued), false, config, crypto, now);
      r.Success? && r.value.userId == p.userId && r.value.email == p.email && r.value.kind == Access
      && r.value.exp == issued / 1000 + config.jwt.expiresIn
  {
  }

  /** A refresh token verifies as a refresh token with exactly its payload until its own expiry. */
  lemma RefreshTokenRoundTrip(p: Payload, config: Env.Config, crypto: Primitives, issued: nat, now: nat)
    requires Sound(crypto)
    requires now / 1000 < issued / 1000 + config.jwt.refreshExpiresIn
    ensures var r := VerifyToken(GenerateRefreshToken(p, config, crypto, issued), true, config, crypto, now);
      r.Success? && r.value.userId == p.userId && r.value.email == p.email && r.value.kind == Refresh
      && r.value.exp == issued / 1000 + config.jwt.refreshExpiresIn
  {
  }

  /** From its expiry on, either token fails verification with TokenExpiredError. */
  lemma TokensExpire(p: Payload, config: Env.Config, crypto: Primitives, issued: nat, now: nat)
    requires Sound(crypto)
    ensures now / 1000 >= issued / 1000 + config.jwt.expiresIn ==>
      VerifyToken(GenerateAccessToken(p, config, crypto, issued), false, config, crypto, now) == Failure(TokenExpiredError)
    ensures now / 1000 >= issued / 1000 + config.jwt.refreshExpiresIn ==>
      VerifyToken(GenerateRefreshToken(p, config, crypto, issued), true, config, crypto, now) == Failure(TokenExpiredError)
  {
  }

  /** While the two secrets differ, neither kind of token verifies as the other kind. */
  lemma CrossKindRejected(p: Payload, config: Env.Config, crypto: Primitives, issued: nat, now: nat)
    requires Sound(crypto) && Env.SecretsDiffer(config)
    ensures VerifyToken(GenerateRefreshToken(p, config, crypto, issued), false, config, crypto, now).Failure?
    ensures VerifyToken(GenerateAccessToken(p, config, crypto, issued), true, config, crypto, now).Failure?
  {
  }

  /** Since the `type` claim is never checked, a configuration that reuses one secret accepts an
      unexpired refresh token wherever an access token is expected. */
  lemma SharedSecretAcceptsRefreshAsAccess(p: Payload, config: Env.Config, crypto: Primitives, issued: nat, now: nat)
    requires Sound(crypto) && !Env.SecretsDiffer(config)
    requires now / 1000 < issued / 1000 + config.jwt.refreshExpiresIn
    ensures var r := VerifyToken(GenerateRefreshToken(p, config, crypto, issued), false, config, crypto, now);
      r.Success? && r.value.kind == Refresh && r.value.userId == p.userId
  {
  }

  /** Whatever verifies is a token the service itself signed, with the secret of the kind asked for. */
  lemma VerifiedTokenWasIssued(token: string, refresh: bool, config: Env.Config, crypto: Primitives, now: nat)
    requires Sound(crypto)
    requires VerifyToken(token, refresh, config, crypto, now).Success?
    ensures var c := VerifyToken(token, refresh, config, crypto, now).value;
      token == crypto.jwtSign(c, SecretFor(refresh, config)) && now / 1000 < c.exp
  {
    VerifiedTokenIsGenuine(crypto, token, SecretFor(refresh, config), now / 1000);
  }

  /** A token whose claims verify, re-checked at the moment a blacklist entry would expire
      (`exp * 1000` milliseconds), has expired. */
  lemma ExpiryInMilliseconds(c: Claims, now: nat)
    ensures now / 1000 < c.exp <==> now < c.exp * 1000
  {
  }

  // ---- the e-mail verification token ----

  type Byte = b: nat | b < 256

  const EMAIL_TOKEN_BYTES: nat := 32
  const EMAIL_TOKEN_LIFETIME: nat := 24 * 60 * 60 * 1000

  function HexDigit(n: nat): (c: char)
    requires n < 16
    ensures IsLowerHex(c)
  {
    if n < 10 then ('0' as int + n) as char else ('a' as int + n - 10) as char
  }

  predicate IsLowerHex(c: char) {
    ('0' <= c <= '9') || ('a' <= c <= 'f')
  }

  function HexValue(c: char): (n: nat)
    requires IsLowerHex(c)
    ensures n < 16
  {
    if c <= '9' then c as int - '0' as int else c as int - 'a' as int + 10
  }

  /** `buffer.toString('hex')`: two lowercase hex digits per byte, high nibble first. */
  function Hex(bytes: seq<Byte>): (s: string)
    ensures |s| == 2 * |bytes|
    ensures forall i :: 0 <= i < |s| ==> IsLowerHex(s[i])
  {
    if |bytes| == 0 then "" else [HexDigit(bytes[0] / 16), HexDigit(bytes[0] % 16)] + Hex(bytes[1..])
  }

  /** Reading a lowercase hex string back into bytes. */
  function Unhex(s: string): seq<Byte>
    requires |s| % 2 == 0
    requires forall i :: 0 <= i < |s| ==> IsLowerHex(s[i])
  {
    if |s| == 0 then [] else [HexValue(s[0]) * 16 + HexValue(s[1])] + Unhex(s[2..])
  }

  lemma {:induction false} UnhexHex(bytes: seq<Byte>)
    ensures Unhex(Hex(bytes)) == bytes
  {
    if |bytes| > 0 {
      var b := bytes[0];
      assert HexValue(HexDigit(b / 16)) == b / 16;
      assert HexValue(HexDigit(b % 16)) == b % 16;
      var s := Hex(bytes);
      assert s[2..] == Hex(bytes[1..]);
      UnhexHex(bytes[1..]);
    }
  }

  /** Different random bytes give different mailed tokens. */
  lemma HexInjective(a: seq<Byte>, b: seq<Byte>)
    requires Hex(a) == Hex(b)
    ensures a == b
  {
    UnhexHex(a);
    UnhexHex(b);
  }

  datatype EmailToken = EmailToken(token: string, hash: string, expires: nat)

  /** `generateEmailToken()` over the 32 random bytes it draws and the clock. */
  function GenerateEmailToken(random: seq<Byte>, crypto: Primitives, now: nat): (e: EmailToken)
    ensures |e.token| == 2 * |random| && forall i :: 0 <= i < |e.token| ==> IsLowerHex(e.token[i])
    ensures e.hash == crypto.sha256Hex(e.token)
    ensures e.expires == now + EMAIL_TOKEN_LIFETIME
  {
    var token := Hex(random);
    EmailToken(token, crypto.sha256Hex(token), now + EMAIL_TOKEN_LIFETIME)
  }

  /** The mailed token is 64 lowercase hex digits that encode the random bytes, the stored hash is
      its digest, and it stays valid for exactly 24 hours. */
  lemma EmailTokenShape(random: seq<Byte>, crypto: Primitives, now: nat)
    requires |random| == EMAIL_TOKEN_BYTES
    ensures var e := GenerateEmailToken(random, crypto, now);
      |e.token| == 64 && Unhex(e.token) == random
      && e.hash == crypto.sha256Hex(e.token) && e.expires - now == 86400000
  {
    UnhexHex(random);
  }
}
