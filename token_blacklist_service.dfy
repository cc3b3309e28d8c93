/** The revocation service: insert, membership test, the per-user placeholder and the expiry sweep. */
module TokenBlacklistService {
  import opened Wrappers
  import opened Errors
  import opened TokenBlacklistModel
  import Crypto
  import Http
  import ErrorHandler
  import Env

  /** The membership test the JWT gate relies on: any entry with that token string, whatever its
      kind, owner or expiry. */
  predicate IsBlacklisted(b: Blacklist, token: string) {
    token in b.entries
  }

  method BlacklistToken(store: BlacklistCollection, token: string, kind: Crypto.TokenKind, userId: string, expiresAt: nat, now: nat)
    returns (r: Outcome<Thrown>)
    modifies store
    ensures var o := CreateOutcome(old(store.State()), token, kind, userId, expiresAt, now);
      && (r.Pass? <==> o.Success?)
      && (r.Fail? ==> r.error == o.error)
      && store.State() == if o.Success? then Inserted(old(store.State()), o.value) else old(store.State())
  {
    var created := store.Create(token, kind, userId, expiresAt, now);
    r := if created.Success? then Pass else Fail(created.error);
  }

  method IsTokenBlacklisted(store: BlacklistCollection, token: string) returns (r: Result<bool, Thrown>)
    ensures r.Failure? <==> !store.available
    ensures r.Success? ==> (r.value <==> IsBlacklisted(store.State(), token))
  {
    var found := store.FindOne(token);
    r := if found.Failure? then Failure(found.error) else Success(found.value.Some?);
  }

  /** Only logs; no entry is written. */
  method BlacklistAllUserTokens(store: BlacklistCollection, userId: string) returns (log: string)
    ensures log == "Blacklisting all tokens for user: " + userId
    ensures store.State() == old(store.State())
  {
    log := "Blacklisting all tokens for user: " + userId;
  }

  method CleanupExpiredTokens(store: BlacklistCollection, now: nat) returns (r: Outcome<Thrown>)
    modifies store
    ensures r.Fail? <==> !store.available
    ensures store.State() == if store.available then old(store.State()).(entries := Swept(old(store.entries), now)) else old(store.State())
  {
    r := store.DeleteExpired(now);
  }

  /** After a successful blacklisting the token is revoked. */
  lemma BlacklistedAfterInsert(b: Blacklist, token: string, kind: Crypto.TokenKind, userId: string, expiresAt: nat, now: nat)
    requires CreateOutcome(b, token, kind, userId, expiresAt, now).Success?
    ensures IsBlacklisted(Inserted(b, CreateOutcome(b, token, kind, userId, expiresAt, now).value), token)
    ensures CreateOutcome(b, token, kind, userId, expiresAt, now).value == Entry(token, kind, userId, expiresAt, now)
  {
  }

  /** Blacklisting a token that is already revoked fails with a duplicate-key error, answered 409,
      whatever kind, owner or expiry the second call gives. */
  lemma BlacklistNotIdempotent(b: Blacklist, token: string, kind: Crypto.TokenKind, userId: string, expiresAt: nat, now: nat, stack: string, env: Env.NodeEnv)
    requires IsBlacklisted(b, token) && b.available && token != "" && userId != ""
    ensures CreateOutcome(b, token, kind, userId, expiresAt, now).Failure?
    ensures ErrorHandler.Handle(CreateOutcome(b, token, kind, userId, expiresAt, now).error, stack, env).status == Http.CONFLICT
  {
  }

  /** Inserting one token never changes whether any other token is revoked. */
  lemma InsertLeavesOthers(b: Blacklist, e: Entry, other: string)
    requires other != e.token
    ensures IsBlacklisted(Inserted(b, e), other) == IsBlacklisted(b, other)
  {
  }

  /** The sweep revokes nothing new, and a token whose entry has not expired stays revoked. */
  lemma SweepLeavesUnexpired(b: Blacklist, now: nat, token: string)
    ensures IsBlacklisted(b.(entries := Swept(b.entries, now)), token) ==> IsBlacklisted(b, token)
    ensures IsBlacklisted(b, token) && !Expired(b.entries[token], now) ==> IsBlacklisted(b.(entries := Swept(b.entries, now)), token)
  {
  }

  /** An entry written at logout expires at the token's own `exp` (`exp * 1000` ms). Once the sweep
      or the TTL monitor may remove it, the token no longer verifies anyway, so removal never
      re-admits a revoked token. */
  lemma RemovedEntriesAreDeadTokens(crypto: Crypto.Primitives, c: Crypto.Claims, s: Crypto.Secret, e: Entry, now: nat)
    requires Crypto.Sound(crypto)
    requires e.expiresAt == c.exp * 1000 && Expired(e, now)
    ensures crypto.jwtVerify(crypto.jwtSign(c, s), s, now / 1000) == Failure(Crypto.TokenExpiredError)
  {
  }
}
