/** The mounted `requireAuth`: the JWT strategy's outcome turned into `next` and `req.user`. */
module PassportAuthMiddleware {
  import opened Wrappers
  import opened Errors
  import opened Requests
  import opened PassportConfig
  import UserModel
  import BL = TokenBlacklistModel
  import ErrorHandler
  import Env
  import Crypto

  /** The authenticate callback's choice: the strategy's error unchanged, a 401 carrying the
      strategy's message (or 'Unauthorized' when it gave none), or `next()`. */
  function Decide(v: Verdict): Next {
    match v
    case Errored(e) => Forward(e)
    case Rejected(m) => Forward(App(AuthenticationError(Some(if m.Some? && m.value != "" then m.value else "Unauthorized"))))
    case Accepted(_) => Continue
  }

  method RequireAuth(req: Request, users: UserModel.UserCollection, blacklist: BL.BlacklistCollection,
                     config: Env.Config, crypto: Crypto.Primitives, now: nat) returns (next: Next)
    modifies req`user
    ensures var v := JwtAuthenticate(req.authorization, blacklist.State(), users.State(), config, crypto, now);
      && next == Decide(v)
      && req.user == (if v.Accepted? then Some(v.principal) else old(req.user))
  {
    var v := JwtAuthenticate(req.authorization, blacklist.State(), users.State(), config, crypto, now);
    match v {
      case Errored(e) =>
        next := Forward(e);
      case Rejected(info) =>
        next := Forward(App(AuthenticationError(Some(if info.Some? && info.value != "" then info.value else "Unauthorized"))));
      case Accepted(user) =>
        req.user := Some(user);
        next := Continue;
    }
  }

  /** A rejection is always answered as 401 AUTHENTICATION_ERROR with the strategy's
      message; an error is forwarded untouched; only acceptance continues. */
  lemma DecideAnswers(v: Verdict, stack: string, env: Env.NodeEnv)
    ensures Decide(v).Continue? <==> v.Accepted?
    ensures v.Errored? ==> Decide(v) == Forward(v.err)
    ensures v.Rejected? ==> var r := ErrorHandler.Handle(Decide(v).err, stack, env);
      && r.status == 401 && r.code == "AUTHENTICATION_ERROR"
      && r.message == (if v.message.Some? && v.message.value != "" then v.message.value else "Unauthorized")
  {
  }

  /** A revoked token is answered 401 'Token has been revoked'. */
  lemma RevokedAnswer(header: Option<string>, b: BL.Blacklist, s: UserModel.Store, config: Env.Config,
                      crypto: Crypto.Primitives, now: nat, stack: string, env: Env.NodeEnv)
    requires JwtAuthenticate(header, b, s, config, crypto, now) == Rejected(Some("Token has been revoked"))
    ensures var r := ErrorHandler.Handle(Decide(JwtAuthenticate(header, b, s, config, crypto, now)).err, stack, env);
      r.status == 401 && r.message == "Token has been revoked"
  {
  }

  /** An expired token is answered 401 with the token library's own message. */
  lemma ExpiredAnswer(header: Option<string>, b: BL.Blacklist, s: UserModel.Store, config: Env.Config,
                      crypto: Crypto.Primitives, now: nat, stack: string, env: Env.NodeEnv)
    requires BearerToken(header).Some?
    requires crypto.jwtVerify(BearerToken(header).value, config.jwt.secret, now / 1000) == Failure(Crypto.TokenExpiredError)
    ensures var r := ErrorHandler.Handle(Decide(JwtAuthenticate(header, b, s, config, crypto, now)).err, stack, env);
      r.status == 401 && r.message == "jwt expired"
  {
  }
}
