/** `VALIDATION_RULES` of config/constants.ts. */
module ValidationRules {
  const PASSWORD_MIN_LENGTH: nat := 8
  const USERNAME_MIN_LENGTH: nat := 3
  const USERNAME_MAX_LENGTH: nat := 30
  const NAME_MAX_LENGTH: nat := 100
  const BIO_MAX_LENGTH: nat := 500
}

/** The shared field schemas of validators/common.schemas.ts. validators/auth.validators.ts declares
    its own e-mail and password schemas with the very same definitions; both use these. */
module CommonSchemas {
  import opened Wrappers
  import opened Strings
  import opened Http
  import opened Joi
  import opened ValidationRules

  const EMAIL_INVALID := "Please provide a valid email address"
  const EMAIL_REQUIRED := "Email is required"
  const PASSWORD_TOO_SHORT := "Password must be at least 8 characters long"
  const PASSWORD_TOO_WEAK :=
    "Password must contain at least one uppercase letter, one lowercase letter, one number, and one special character"
  const PASSWORD_REQUIRED := "Password is required"

  /** `emailSchema` */
  const EMAIL := StringSchema(None, false, [Email], true, false, false,
    map["string.email" := EMAIL_INVALID, "any.required" := EMAIL_REQUIRED])

  /** `passwordSchema` */
  const PASSWORD := StringSchema(None, false, [Min(PASSWORD_MIN_LENGTH), Matches(StrongPassword)], true, false, false,
    map["string.min" := PASSWORD_TOO_SHORT, "string.pattern.base" := PASSWORD_TOO_WEAK, "any.required" := PASSWORD_REQUIRED])

  /** `nameSchema`: optional, since it is not marked required. */
  const NAME := StringSchema(None, true, [Min(2), Max(50), Matches(LettersAndSpaces)], false, false, false,
    map["string.pattern.base" := "Name can only contain letters and spaces"])

  /** A present string value. */
  predicate IsText(v: Option<Value>) {
    v.Some? && v.value.Str?
  }

  /** The password policy: at least 8 characters, starting with a letter, digit or one of `@$!%*?&`,
      with a lower-case letter, an upper-case letter, a digit and one of `@$!%*?&` on its first line. */
  predicate StrongPasswordText(s: string) {
    |s| >= PASSWORD_MIN_LENGTH && PatternHolds(StrongPassword, s)
  }

  /** 2 to 50 letters and white space once trimmed. */
  predicate PersonName(s: string) {
    var t := Trim(s);
    2 <= |t| <= 50 && forall i :: 0 <= i < |t| ==> IsAsciiLetter(t[i]) || IsSpace(t[i])
  }

  lemma EmailAccepts(v: Option<Value>)
    ensures StringAccepts(EMAIL, v) <==> IsText(v) && IsEmail(v.value.s)
  {
    if IsText(v) {
      if v.value.s == "" {
        assert !IsEmail(v.value.s);
      } else {
        RulesHold(EMAIL.rules, v.value.s);
      }
    }
  }

  /** Either error message, depending on what is wrong. */
  lemma EmailMessages(key: string, s: string)
    ensures StringErrors(key, EMAIL, None) == [Detail([key], EMAIL_REQUIRED)]
    ensures s != "" && !IsEmail(s) ==> StringErrors(key, EMAIL, Some(Str(s))) == [Detail([key], EMAIL_INVALID)]
  {
  }

  lemma PasswordAccepts(v: Option<Value>)
    ensures StringAccepts(PASSWORD, v) <==> IsText(v) && StrongPasswordText(v.value.s)
  {
    if IsText(v) && v.value.s != "" {
      RulesHold(PASSWORD.rules, v.value.s);
    }
  }

  /** A short password that also misses a character class gets both messages, length first. */
  lemma PasswordMessages(key: string, s: string)
    requires 0 < |s| < PASSWORD_MIN_LENGTH && !PatternHolds(StrongPassword, s)
    ensures StringErrors(key, PASSWORD, Some(Str(s))) == [Detail([key], PASSWORD_TOO_SHORT), Detail([key], PASSWORD_TOO_WEAK)]
  {
    var rules := PASSWORD.rules;
    assert rules[1..][1..] == [];
    assert RuleErrors(key, PASSWORD, s, rules[1..]) == [Detail([key], PASSWORD_TOO_WEAK)];
  }

  /** Appending to a strong password keeps it strong: the pattern has no end anchor. */
  lemma StrongPasswordExtends(s: string, t: string)
    requires StrongPasswordText(s)
    ensures StrongPasswordText(s + t)
  {
    Joi.StrongPasswordExtends(s, t);
  }

  /** `nameSchema`, or the same rules with other messages. */
  lemma NameAccepts(sch: StringSchema, v: Option<Value>)
    requires sch == NAME.(messages := sch.messages)
    ensures StringAccepts(sch, v) <==> v.None? || (IsText(v) && PersonName(v.value.s))
  {
    if IsText(v) {
      var t := Trim(v.value.s);
      assert Converted(sch, v.value.s) == t;
      assert sch.rules == NAME.rules;
      if t != "" {
        NameRulesHold(t);
      }
    }
  }

  /** The three rules of `nameSchema` on an already trimmed value. */
  lemma NameRulesHold(t: string)
    ensures (forall i :: 0 <= i < |NAME.rules| ==> RuleHolds(NAME.rules[i], t))
      <==> 2 <= |t| <= 50 && forall i :: 0 <= i < |t| ==> IsAsciiLetter(t[i]) || IsSpace(t[i])
  {
    RulesHold(NAME.rules, t);
  }
}
