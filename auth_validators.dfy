/** The request schemas of validators/auth.validators.ts, each with what it accepts stated
    directly. */
module AuthValidators {
  import opened Wrappers
  import opened Strings
  import opened Http
  import opened Joi
  import opened Validation
  import opened ValidationRules
  import opened CommonSchemas
  import UserModel
  import Crypto
  import Errors
  import AuthController

  /** `Joi.string().required()` with its own "is required" text. */
  function RequiredText(missing: string): (sch: StringSchema)
    ensures sch.required && sch.rules == [] && !sch.allowEmpty && !sch.allowNull
  {
    StringSchema(None, false, [], true, false, false, map["any.required" := missing])
  }

  /** `nameSchema` of this file: trimmed, 1 to 100 characters, required. */
  const NAME := StringSchema(None, true, [Min(1), Max(NAME_MAX_LENGTH)], true, false, false,
    map["string.min" := "Name cannot be empty", "string.max" := "Name cannot exceed 100 characters",
        "any.required" := "Name is required"])

  /** `usernameSchema`: trimmed, 3 to 30 characters of `[a-zA-Z0-9_]`, optional. */
  const USERNAME := StringSchema(None, true, [Min(USERNAME_MIN_LENGTH), Max(USERNAME_MAX_LENGTH), Matches(Username)],
    false, false, false,
    map["string.min" := "Username must be at least 3 characters long",
        "string.max" := "Username cannot exceed 30 characters",
        "string.pattern.base" := "Username can only contain letters, numbers, and underscores"])

  const REGISTER_BODY := ObjectSchema([
    ("email", EMAIL), ("password", PASSWORD),
    ("firstName", NAME.(display := Some("First name"))), ("lastName", NAME.(display := Some("Last name"))),
    ("username", USERNAME)], 0, map[])

  const LOGIN_BODY := ObjectSchema([("email", EMAIL), ("password", RequiredText(PASSWORD_REQUIRED))], 0, map[])

  const REFRESH_TOKEN_BODY := ObjectSchema([("refreshToken", RequiredText("Refresh token is required"))], 0, map[])

  const FORGOT_PASSWORD_BODY := ObjectSchema([("email", EMAIL)], 0, map[])

  const RESET_PASSWORD_BODY := ObjectSchema([("token", RequiredText("Reset token is required")), ("password", PASSWORD)], 0, map[])

  const CHANGE_PASSWORD_BODY := ObjectSchema([
    ("currentPassword", RequiredText("Current password is required")),
    ("newPassword", PASSWORD.(display := Some("New password")))], 0, map[])

  const BIO := StringSchema(None, false, [Max(BIO_MAX_LENGTH)], false, true, false,
    map["string.max" := "Bio cannot exceed 500 characters"])

  const UPDATE_PROFILE_BODY := ObjectSchema([
    ("firstName", NAME.(display := Some("First name"), required := false)),
    ("lastName", NAME.(display := Some("Last name"), required := false)),
    ("username", USERNAME), ("bio", BIO)], 1, map["object.min" := "At least one field is required for update"])

  const REGISTER := RequestSchema(Some(REGISTER_BODY), None, None)
  const LOGIN := RequestSchema(Some(LOGIN_BODY), None, None)
  const REFRESH_TOKEN := RequestSchema(Some(REFRESH_TOKEN_BODY), None, None)
  const FORGOT_PASSWORD := RequestSchema(Some(FORGOT_PASSWORD_BODY), None, None)
  const RESET_PASSWORD := RequestSchema(Some(RESET_PASSWORD_BODY), None, None)
  const CHANGE_PASSWORD := RequestSchema(Some(CHANGE_PASSWORD_BODY), None, None)
  const UPDATE_PROFILE := RequestSchema(Some(UPDATE_PROFILE_BODY), None, None)

  /** A string whose trimmed text has 1 to 100 characters. */
  predicate NameText(s: string) {
    0 < |Trim(s)| <= NAME_MAX_LENGTH
  }

  /** 3 to 30 letters, digits and underscores once trimmed. */
  predicate UsernameText(s: string) {
    var t := Trim(s);
    USERNAME_MIN_LENGTH <= |t| <= USERNAME_MAX_LENGTH && forall i :: 0 <= i < |t| ==> IsUsernameChar(t[i])
  }

  predicate TextWith(v: Option<Value>, p: string -> bool) {
    IsText(v) && p(v.value.s)
  }

  lemma NameAccepts(sch: StringSchema, v: Option<Value>)
    requires sch == NAME.(display := sch.display, required := sch.required)
    ensures StringAccepts(sch, v) <==> (v.None? && !sch.required) || TextWith(v, NameText)
  {
    if IsText(v) {
      var t := Trim(v.value.s);
      assert Converted(sch, v.value.s) == t;
      assert sch.rules == NAME.rules;
      RulesHold(NAME.rules, t);
    }
  }

  /** `usernameSchema`, or the same rules with other messages. */
  lemma UsernameAccepts(sch: StringSchema, v: Option<Value>)
    requires sch == USERNAME.(messages := sch.messages)
    ensures StringAccepts(sch, v) <==> v.None? || TextWith(v, UsernameText)
  {
    if IsText(v) {
      var t := Trim(v.value.s);
      assert Converted(sch, v.value.s) == t;
      assert sch.rules == USERNAME.rules;
      UsernameRulesHold(t);
    }
  }

  /** The three rules of `usernameSchema` on an already trimmed value. */
  lemma UsernameRulesHold(t: string)
    ensures (forall i :: 0 <= i < |USERNAME.rules| ==> RuleHolds(USERNAME.rules[i], t))
      <==> USERNAME_MIN_LENGTH <= |t| <= USERNAME_MAX_LENGTH && forall i :: 0 <= i < |t| ==> IsUsernameChar(t[i])
  {
    RulesHold(USERNAME.rules, t);
  }

  lemma RequiredTextAccepts(missing: string, v: Option<Value>)
    ensures StringAccepts(RequiredText(missing), v) <==> IsText(v) && v.value.s != ""
  {
  }

  /** register: a valid address, a strong password, both names and an optional username. */
  predicate RegisterValues(f: Fields) {
    && TextWith(Lookup(f, "email"), IsEmail)
    && TextWith(Lookup(f, "password"), StrongPasswordText)
    && TextWith(Lookup(f, "firstName"), NameText)
    && TextWith(Lookup(f, "lastName"), NameText)
    && (Lookup(f, "username").None? || TextWith(Lookup(f, "username"), UsernameText))
  }

  const REGISTER_KEYS := {"email", "password", "firstName", "lastName", "username"}

  lemma RegisterValuesAccepted(f: Fields)
    ensures ValuesAccepted(REGISTER_BODY.keys, f) <==> RegisterValues(f)
  {
    var keys := REGISTER_BODY.keys;
    KeysAccept(keys, f);
    EmailAccepts(Lookup(f, "email"));
    PasswordAccepts(Lookup(f, "password"));
    NameAccepts(keys[2].1, Lookup(f, "firstName"));
    NameAccepts(keys[3].1, Lookup(f, "lastName"));
    UsernameAccepts(USERNAME, Lookup(f, "username"));
  }

  lemma RegisterAccepts(f: Fields)
    ensures ObjectErrors(REGISTER_BODY, f) == [] <==> RegisterValues(f) && OnlyKeys(f, REGISTER_KEYS)
  {
    RegisterValuesAccepted(f);
    RegisterKeyNames();
    ObjectErrorsByParts(REGISTER_BODY, f, REGISTER_KEYS);
  }

  lemma RegisterKeyNames()
    ensures KeyNames(REGISTER_BODY.keys) == REGISTER_KEYS
  {
    var keys := REGISTER_BODY.keys;
    assert keys[0].0 == "email" && keys[1].0 == "password" && keys[2].0 == "firstName";
    assert keys[3].0 == "lastName" && keys[4].0 == "username";
  }

  /** login: a valid address and a non-empty password string. */
  predicate LoginValues(f: Fields) {
    TextWith(Lookup(f, "email"), IsEmail) && IsText(Lookup(f, "password")) && Lookup(f, "password").value.s != ""
  }

  const LOGIN_KEYS := {"email", "password"}

  lemma LoginAccepts(f: Fields)
    ensures ObjectErrors(LOGIN_BODY, f) == [] <==> LoginValues(f) && OnlyKeys(f, LOGIN_KEYS)
  {
    var keys := LOGIN_BODY.keys;
    ObjectErrorsIff(LOGIN_BODY, f);
    KeysAccept(keys, f);
    EmailAccepts(Lookup(f, "email"));
    RequiredTextAccepts(PASSWORD_REQUIRED, Lookup(f, "password"));
    assert KeyNames(keys) == LOGIN_KEYS by {
      assert keys[0].0 == "email" && keys[1].0 == "password";
    }
    NoUnknownKeysIff(keys, f, LOGIN_KEYS);
  }

  /** A login body that carries `twoFactorCode` is refused, with Joi's unknown-key message. */
  lemma LoginRejectsTwoFactorCode(f: Fields, query: Fields, params: Fields, k: nat)
    requires k < |f| && f[k].0 == "twoFactorCode"
    ensures Detail(["twoFactorCode"], Quoted("twoFactorCode") + " is not allowed") in ObjectErrors(LOGIN_BODY, f)
    ensures Verdict(Collected(LOGIN, f, query, params)).Forward?
  {
    assert LOGIN_BODY.keys[0].0 == "email" && LOGIN_BODY.keys[1].0 == "password";
    assert !Declared(LOGIN_BODY.keys, f[k].0);
    UnknownKeyReported(LOGIN_BODY, f, k);
    BodyErrorsStop(LOGIN, f, query, params);
  }

  /** As written, no request that passes the login validation carries a 2FA code, so the
      hand-rolled login refuses every account with 2FA enabled once its password checks out. */
  lemma TwoFactorLoginAsWritten(f: Fields, u: UserModel.User, crypto: Crypto.Primitives, now: nat)
    requires ObjectErrors(LOGIN_BODY, f) == []
    requires u.password.Some? && IsText(Lookup(f, "password"))
    requires crypto.bcryptCompare(Lookup(f, "password").value.s, u.password.value)
    requires u.emailVerified && u.twoFactorEnabled
    ensures Lookup(f, "twoFactorCode").None?
    ensures AuthController.LoginChecks(u, Some(Lookup(f, "password").value.s), None, crypto, now)
      == Fail(Errors.App(AuthController.CODE_REQUIRED))
  {
    LoginAccepts(f);
    AbsentKey(f, LOGIN_KEYS, "twoFactorCode");
  }

  /** A part with only the given keys has no value for any other key. */
  lemma AbsentKey(f: Fields, names: set<string>, key: string)
    requires OnlyKeys(f, names) && key !in names
    ensures Lookup(f, key).None?
  {
  }

  /** `Joi.string()`: optional, and a non-empty string when present. */
  const TWO_FACTOR_CODE := StringSchema(None, false, [], false, false, false, map[])

  /** The login body the controller needs: the same keys plus an optional `twoFactorCode`. */
  const LOGIN_WITH_CODE_BODY := ObjectSchema(LOGIN_BODY.keys + [("twoFactorCode", TWO_FACTOR_CODE)], 0, map[])

  const LOGIN_WITH_CODE_KEYS := {"email", "password", "twoFactorCode"}

  /** login with the code declared: the same values, and a non-empty code string when present. */
  predicate LoginWithCodeValues(f: Fields) {
    && LoginValues(f)
    && (Lookup(f, "twoFactorCode").None? || (IsText(Lookup(f, "twoFactorCode")) && Lookup(f, "twoFactorCode").value.s != ""))
  }

  /** With the code declared, a body passes exactly when its values are valid and it has no other key. */
  lemma LoginWithCodeAccepts(f: Fields)
    ensures ObjectErrors(LOGIN_WITH_CODE_BODY, f) == [] <==> LoginWithCodeValues(f) && OnlyKeys(f, LOGIN_WITH_CODE_KEYS)
  {
    var keys := LOGIN_WITH_CODE_BODY.keys;
    ObjectErrorsIff(LOGIN_WITH_CODE_BODY, f);
    KeysAccept(keys, f);
    EmailAccepts(Lookup(f, "email"));
    RequiredTextAccepts(PASSWORD_REQUIRED, Lookup(f, "password"));
    assert keys[2].1 == TWO_FACTOR_CODE;
    LoginWithCodeKeyNames();
    NoUnknownKeysIff(keys, f, LOGIN_WITH_CODE_KEYS);
  }

  lemma LoginWithCodeKeyNames()
    ensures KeyNames(LOGIN_WITH_CODE_BODY.keys) == LOGIN_WITH_CODE_KEYS
  {
    var keys := LOGIN_WITH_CODE_BODY.keys;
    assert keys[0].0 == "email" && keys[1].0 == "password" && keys[2].0 == "twoFactorCode";
  }

  /** With the code declared, a body carrying an account's password and its current code passes
      validation, and the hand-rolled login's checks pass for an account with 2FA enabled. */
  lemma TwoFactorLoginCorrected(f: Fields, code: string, u: UserModel.User, crypto: Crypto.Primitives, now: nat)
    requires LoginValues(f) && OnlyKeys(f, LOGIN_WITH_CODE_KEYS) && Lookup(f, "twoFactorCode") == Some(Str(code))
    requires u.password.Some? && crypto.bcryptCompare(Lookup(f, "password").value.s, u.password.value)
    requires u.emailVerified && u.twoFactorEnabled && code != ""
    requires crypto.totpVerify(u.twoFactorSecret.GetOr(""), code, now, AuthController.TOTP_WINDOW)
    ensures ObjectErrors(LOGIN_WITH_CODE_BODY, f) == []
    ensures AuthController.LoginChecks(u, Some(Lookup(f, "password").value.s), Some(code), crypto, now) == Pass
  {
    LoginWithCodeAccepts(f);
  }

  /** refresh: a non-empty refresh token, nothing else. */
  lemma RefreshTokenAccepts(f: Fields)
    ensures ObjectErrors(REFRESH_TOKEN_BODY, f) == []
      <==> IsText(Lookup(f, "refreshToken")) && Lookup(f, "refreshToken").value.s != "" && OnlyKeys(f, {"refreshToken"})
  {
    var keys := REFRESH_TOKEN_BODY.keys;
    ObjectErrorsIff(REFRESH_TOKEN_BODY, f);
    KeysAccept(keys, f);
    RequiredTextAccepts("Refresh token is required", Lookup(f, "refreshToken"));
    assert KeyNames(keys) == {"refreshToken"} by {
      assert keys[0].0 == "refreshToken";
    }
    NoUnknownKeysIff(keys, f, {"refreshToken"});
  }

  /** forgot-password: a valid address, nothing else. */
  lemma ForgotPasswordAccepts(f: Fields)
    ensures ObjectErrors(FORGOT_PASSWORD_BODY, f) == [] <==> TextWith(Lookup(f, "email"), IsEmail) && OnlyKeys(f, {"email"})
  {
    var keys := FORGOT_PASSWORD_BODY.keys;
    ObjectErrorsIff(FORGOT_PASSWORD_BODY, f);
    KeysAccept(keys, f);
    EmailAccepts(Lookup(f, "email"));
    assert KeyNames(keys) == {"email"} by {
      assert keys[0].0 == "email";
    }
    NoUnknownKeysIff(keys, f, {"email"});
  }

  /** reset-password: a non-empty token and a strong password, nothing else. */
  lemma ResetPasswordAccepts(f: Fields)
    ensures ObjectErrors(RESET_PASSWORD_BODY, f) == []
      <==> (&& IsText(Lookup(f, "token")) && Lookup(f, "token").value.s != ""
            && TextWith(Lookup(f, "password"), StrongPasswordText)
            && OnlyKeys(f, {"token", "password"}))
  {
    var keys := RESET_PASSWORD_BODY.keys;
    ObjectErrorsIff(RESET_PASSWORD_BODY, f);
    KeysAccept(keys, f);
    RequiredTextAccepts("Reset token is required", Lookup(f, "token"));
    PasswordAccepts(Lookup(f, "password"));
    assert KeyNames(keys) == {"token", "password"} by {
      assert keys[0].0 == "token" && keys[1].0 == "password";
    }
    NoUnknownKeysIff(keys, f, {"token", "password"});
  }

  /** change-password: a non-empty current password and a strong new one, nothing else. */
  lemma ChangePasswordAccepts(f: Fields)
    ensures ObjectErrors(CHANGE_PASSWORD_BODY, f) == []
      <==> (&& IsText(Lookup(f, "currentPassword")) && Lookup(f, "currentPassword").value.s != ""
            && TextWith(Lookup(f, "newPassword"), StrongPasswordText)
            && OnlyKeys(f, {"currentPassword", "newPassword"}))
  {
    var keys := CHANGE_PASSWORD_BODY.keys;
    ObjectErrorsIff(CHANGE_PASSWORD_BODY, f);
    KeysAccept(keys, f);
    RequiredTextAccepts("Current password is required", Lookup(f, "currentPassword"));
    assert keys[1].1 == PASSWORD.(display := Some("New password"));
    PasswordAccepts(Lookup(f, "newPassword"));
    assert KeyNames(keys) == {"currentPassword", "newPassword"} by {
      assert keys[0].0 == "currentPassword" && keys[1].0 == "newPassword";
    }
    NoUnknownKeysIff(keys, f, {"currentPassword", "newPassword"});
  }

  /** A bio: any string of at most 500 characters, the empty one included. */
  predicate BioText(s: string) {
    |s| <= BIO_MAX_LENGTH
  }

  lemma BioAccepts(v: Option<Value>)
    ensures StringAccepts(BIO, v) <==> v.None? || TextWith(v, BioText)
  {
    if IsText(v) && v.value.s != "" {
      RulesHold(BIO.rules, v.value.s);
    }
  }

  /** update-profile: each key optional and valid when present. */
  predicate UpdateProfileValues(f: Fields) {
    && (Lookup(f, "firstName").None? || TextWith(Lookup(f, "firstName"), NameText))
    && (Lookup(f, "lastName").None? || TextWith(Lookup(f, "lastName"), NameText))
    && (Lookup(f, "username").None? || TextWith(Lookup(f, "username"), UsernameText))
    && (Lookup(f, "bio").None? || TextWith(Lookup(f, "bio"), BioText))
  }

  const UPDATE_PROFILE_KEYS := {"firstName", "lastName", "username", "bio"}

  lemma UpdateProfileValuesAccepted(f: Fields)
    ensures ValuesAccepted(UPDATE_PROFILE_BODY.keys, f) <==> UpdateProfileValues(f)
  {
    var keys := UPDATE_PROFILE_BODY.keys;
    KeysAccept(keys, f);
    NameAccepts(keys[0].1, Lookup(f, "firstName"));
    NameAccepts(keys[1].1, Lookup(f, "lastName"));
    UsernameAccepts(USERNAME, Lookup(f, "username"));
    BioAccepts(Lookup(f, "bio"));
  }

  /** update-profile: valid values, no other key, and at least one key. */
  lemma UpdateProfileAccepts(f: Fields)
    ensures ObjectErrors(UPDATE_PROFILE_BODY, f) == [] <==> UpdateProfileValues(f) && OnlyKeys(f, UPDATE_PROFILE_KEYS) && |f| >= 1
  {
    UpdateProfileValuesAccepted(f);
    UpdateKeyNames();
    ObjectErrorsByParts(UPDATE_PROFILE_BODY, f, UPDATE_PROFILE_KEYS);
  }

  lemma UpdateKeyNames()
    ensures KeyNames(UPDATE_PROFILE_BODY.keys) == UPDATE_PROFILE_KEYS
  {
    var keys := UPDATE_PROFILE_BODY.keys;
    assert keys[0].0 == "firstName" && keys[1].0 == "lastName" && keys[2].0 == "username" && keys[3].0 == "bio";
  }

  /** An empty update is refused with the schema's own message, under the empty path. */
  lemma EmptyUpdateRefused()
    ensures ObjectErrors(UPDATE_PROFILE_BODY, []) == [Detail([], "At least one field is required for update")]
  {
    UpdateProfileValuesAccepted([]);
    KeyErrorsEmptyIff(UPDATE_PROFILE_BODY.keys, []);
  }
}
