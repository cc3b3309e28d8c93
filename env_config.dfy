/** The part of the validated environment configuration the authentication core reads. */
module Env {
  import opened Wrappers

  datatype NodeEnv = Development | Production | Test

  /** Expiry durations are carried as whole seconds (the defaults are '7d' and '30d'). */
  datatype JwtConfig = JwtConfig(secret: string, expiresIn: nat, refreshSecret: string, refreshExpiresIn: nat)

  /** `frontend` is the `config.frontend` group, which the exported configuration object does
      not define. */
  datatype Config = Config(env: NodeEnv, jwt: JwtConfig, frontend: Option<string>)

  const DEFAULT_EXPIRES_IN: nat := 7 * 24 * 60 * 60
  const DEFAULT_REFRESH_EXPIRES_IN: nat := 30 * 24 * 60 * 60
  const SECRET_MIN_LENGTH: nat := 32

  /** What environment validation guarantees: each JWT secret has at least 32 characters. */
  predicate Valid(c: Config) {
    |c.jwt.secret| >= SECRET_MIN_LENGTH && |c.jwt.refreshSecret| >= SECRET_MIN_LENGTH
  }

  /** The deployment assumption on which access/refresh separation rests; validation does not
      enforce it. */
  predicate SecretsDiffer(c: Config) {
    c.jwt.secret != c.jwt.refreshSecret
  }

  /** The environment variables the authentication core reads, each as set or absent. The
      expiry strings ('7d', '30d') are carried already converted to seconds. */
  datatype RawEnv = RawEnv(nodeEnv: Option<string>, jwtSecret: Option<string>, jwtExpiresIn: Option<nat>,
                           jwtRefreshSecret: Option<string>, jwtRefreshExpiresIn: Option<nat>)

  /** `NODE_ENV`: one of three names, 'development' when unset. */
  function ParseNodeEnv(v: Option<string>): Option<NodeEnv> {
    match v
    case None => Some(Development)
    case Some(name) =>
      if name == "development" then Some(Development)
      else if name == "production" then Some(Production)
      else if name == "test" then Some(Test)
      else None
  }

  /** A required secret of at least 32 characters. */
  predicate SecretAdmitted(v: Option<string>) {
    v.Some? && |v.value| >= SECRET_MIN_LENGTH
  }

  /** The configuration object the loader exports: no `frontend` group. */
  function Loaded(env: NodeEnv, jwt: JwtConfig): Config {
    Config(env, jwt, None)
  }

  /** The configuration the OAuth callback evidently expects: the loaded one plus a `frontend`
      group holding the front end's base URL. */
  function WithFrontend(env: NodeEnv, jwt: JwtConfig, url: string): Config {
    Config(env, jwt, Some(url))
  }

  /** Validation with defaults, then the exported object; `None` is the `Config validation error`
      thrown while the module loads. */
  function Load(raw: RawEnv): Option<Config> {
    var env := ParseNodeEnv(raw.nodeEnv);
    if env.None? || !SecretAdmitted(raw.jwtSecret) || !SecretAdmitted(raw.jwtRefreshSecret) then None
    else Some(Loaded(env.value, JwtConfig(raw.jwtSecret.value, raw.jwtExpiresIn.GetOr(DEFAULT_EXPIRES_IN),
                                          raw.jwtRefreshSecret.value, raw.jwtRefreshExpiresIn.GetOr(DEFAULT_REFRESH_EXPIRES_IN))))
  }

  /** Loading succeeds exactly when NODE_ENV is unset or one of the three names and both secrets
      are set with at least 32 characters; what it exports is then valid, carries the secrets as
      given, falls back to 'development', '7d' and '30d', and has no `frontend` group. */
  lemma LoadValidates(raw: RawEnv)
    ensures Load(raw).Some? <==>
      (raw.nodeEnv.None? || raw.nodeEnv.value in {"development", "production", "test"})
      && SecretAdmitted(raw.jwtSecret) && SecretAdmitted(raw.jwtRefreshSecret)
    ensures Load(raw).Some? ==> var c := Load(raw).value;
      && Valid(c) && c.frontend.None?
      && c.jwt.secret == raw.jwtSecret.value && c.jwt.refreshSecret == raw.jwtRefreshSecret.value
      && (raw.nodeEnv.None? ==> c.env == Development)
      && (raw.jwtExpiresIn.None? ==> c.jwt.expiresIn == DEFAULT_EXPIRES_IN)
      && (raw.jwtRefreshExpiresIn.None? ==> c.jwt.refreshExpiresIn == DEFAULT_REFRESH_EXPIRES_IN)
  {
  }

  /** Validation admits one and the same string as both secrets. */
  lemma ValidDoesNotSeparateSecrets(s: string)
    requires |s| >= SECRET_MIN_LENGTH
    ensures var c := Load(RawEnv(Some("production"), Some(s), None, Some(s), None));
      c.Some? && Valid(c.value) && !SecretsDiffer(c.value)
  {
  }
}
