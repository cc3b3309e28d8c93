/** The hand-rolled `requireAuth` gate: a Bearer header, an access-token check and a user lookup,
    with every failure collapsed into one 401. */
module AuthMiddleware {
  import opened Wrappers
  import opened Strings
  import opened Errors
  import opened UserModel
  import opened Requests
  import TokenService
  import PassportConfig
  import BL = TokenBlacklistModel
  import TokenBlacklistService
  import Env
  import Crypto

  /** `authHeader.startsWith('Bearer ') ? authHeader.substring(7) : undefined`, where an empty
      remainder counts as missing. */
  function HeaderToken(header: Option<string>): Option<string> {
    var h := header.GetOr("");
    if StartsWith(h, "Bearer ") && |h| > 7 then Some(h[7..]) else None
  }

  /** A token is taken exactly from a header that is "Bearer " followed by it. */
  lemma HeaderTokenExact(header: Option<string>, token: string)
    ensures HeaderToken(header) == Some(token) <==> header == Some("Bearer " + token) && token != ""
  {
    if header == Some("Bearer " + token) && token != "" {
      assert ("Bearer " + token)[..7] == "Bearer ";
      assert ("Bearer " + token)[7..] == token;
    }
    if HeaderToken(header) == Some(token) {
      assert header.value == header.value[..7] + header.value[7..];
    }
  }

  /** The user the gate admits, if any. */
  function Admitted(header: Option<string>, s: Store, config: Env.Config, crypto: Crypto.Primitives, now: nat): Option<User> {
    match HeaderToken(header)
    case None => None
    case Some(token) =>
      match TokenService.VerifyToken(token, false, config, crypto, now)
      case Failure(_) => None
      case Success(claims) =>
        match FindById(s, claims.userId)
        case Success(Some(u)) => Some(u)
        case _ => None
  }

  const UNAUTHORIZED: AppError := AuthenticationError(Some("Unauthorized"))

  method RequireAuth(req: Request, users: UserCollection, config: Env.Config, crypto: Crypto.Primitives, now: nat)
    returns (next: Next)
    modifies req
    ensures var a := Admitted(req.authorization, users.State(), config, crypto, now);
      && next == (if a.Some? then Continue else Forward(App(UNAUTHORIZED)))
      && req.user == (if a.Some? then Some(AuthUser(a.value, None)) else old(req.user))
      && req.token == old(req.token)
  {
    var failed := false;
    var token := HeaderToken(req.authorization);
    if token.None? {
      failed := true;
    } else {
      var decoded := TokenService.VerifyToken(token.value, false, config, crypto, now);
      if decoded.Failure? {
        failed := true;
      } else {
        var user := FindById(users.State(), decoded.value.userId);
        if user.Failure? || user.value.None? {
          failed := true;
        } else {
          req.user := Some(AuthUser(user.value.value, None));
        }
      }
    }
    next := if failed then Forward(App(UNAUTHORIZED)) else Continue;
  }

  /** The gate admits exactly the holder of an unexpired access-secret token naming a stored user,
      and every other request gets the same 401. */
  lemma AdmissionIff(header: Option<string>, s: Store, config: Env.Config, crypto: Crypto.Primitives, now: nat)
    ensures var a := Admitted(header, s, config, crypto, now);
      a.Some? <==>
        && HeaderToken(header).Some?
        && TokenService.VerifyToken(HeaderToken(header).value, false, config, crypto, now).Success?
        && s.available
        && TokenService.VerifyToken(HeaderToken(header).value, false, config, crypto, now).value.userId in s.users
    ensures var a := Admitted(header, s, config, crypto, now);
      a.Some? ==> a.value == Project(s.users[TokenService.VerifyToken(HeaderToken(header).value, false, config, crypto, now).value.userId], {})
    ensures UNAUTHORIZED.statusCode == 401 && UNAUTHORIZED.message == "Unauthorized"
  {
  }

  /** The two gates part ways on a revoked token: an unexpired access token whose entry is in the
      revocation store is still admitted here, while the JWT strategy turns it away. */
  lemma RevokedTokenPassesHandRolledGate(token: string, b: BL.Blacklist, s: Store, config: Env.Config,
                                         crypto: Crypto.Primitives, now: nat)
    requires PassportConfig.IsWord(token)
    requires TokenService.VerifyToken(token, false, config, crypto, now).Success?
    requires TokenService.VerifyToken(token, false, config, crypto, now).value.userId in s.users && s.available
    requires b.available && TokenBlacklistService.IsBlacklisted(b, token)
    ensures Admitted(Some("Bearer " + token), s, config, crypto, now).Some?
    ensures PassportConfig.JwtAuthenticate(Some("Bearer " + token), b, s, config, crypto, now)
         == PassportConfig.Rejected(Some("Token has been revoked"))
  {
    HeaderTokenExact(Some("Bearer " + token), token);
    assert "Bearer" + " " + token == "Bearer " + token;
    PassportConfig.BearerHeader("Bearer", token);
    PassportConfig.JwtRevokedBeforeLookup(Some("Bearer " + token), b, s, s, config, crypto, now);
  }

  /** The scheme is case-sensitive here and not in the JWT strategy. */
  lemma SchemeCaseDiffers(token: string)
    requires PassportConfig.IsWord(token)
    ensures HeaderToken(Some("bearer " + token)).None?
    ensures PassportConfig.BearerToken(Some("bearer " + token)) == Some(token)
  {
    assert ("bearer " + token)[..7] != "Bearer " by {
      assert ("bearer " + token)[0] == 'b';
    }
    assert "bearer" + " " + token == "bearer " + token;
    PassportConfig.BearerHeader("bearer", token);
  }

  /** Everything after "Bearer " is the token here, while the JWT strategy stops at the next space. */
  lemma TrailingWordsDiffer(token: string, rest: string)
    requires PassportConfig.IsWord(token)
    ensures HeaderToken(Some("Bearer " + token + " " + rest)) == Some(token + " " + rest)
    ensures PassportConfig.BearerToken(Some("Bearer " + token + " " + rest)) == Some(token)
  {
    HeaderTokenExact(Some("Bearer " + (token + " " + rest)), token + " " + rest);
    assert "Bearer " + token + " " + rest == "Bearer " + (token + " " + rest);
    PassportConfig.BearerIgnoresRest(token, rest);
  }
}
