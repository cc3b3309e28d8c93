/** `updateProfileSchema` of validators/user.validators.ts (the schema the profile route uses),
    with what it accepts stated directly. */
module UserValidators {
  import opened Wrappers
  import opened Strings
  import opened Http
  import opened Joi
  import opened Validation
  import opened ValidationRules
  import opened CommonSchemas
  import AuthValidators

  const FIRST_NAME := NAME.(messages := map[
    "string.pattern.base" := "First name can only contain letters and spaces",
    "string.min" := "First name must be at least 2 characters long",
    "string.max" := "First name cannot exceed 50 characters"])

  const LAST_NAME := NAME.(messages := map[
    "string.pattern.base" := "Last name can only contain letters and spaces",
    "string.min" := "Last name must be at least 2 characters long",
    "string.max" := "Last name cannot exceed 50 characters"])

  const USERNAME := AuthValidators.USERNAME.(messages := map[
    "string.pattern.base" := "Username can only contain letters, numbers, and underscores"])

  /** trimmed, 2 to 100 characters, and also '' or null */
  const BUSINESS_NAME := StringSchema(None, true, [Min(2), Max(100)], false, true, true, map[])

  /** a URI, '' or null */
  const IMAGE := StringSchema(None, false, [Uri], false, true, true, map[])

  const PERSONAL_KEYS := [("firstName", FIRST_NAME), ("lastName", LAST_NAME), ("username", USERNAME), ("bio", AuthValidators.BIO)]
  const BUSINESS_KEYS := [("businessName", BUSINESS_NAME), ("profilePicture", IMAGE), ("coverImage", IMAGE)]

  const UPDATE_PROFILE_BODY := ObjectSchema(PERSONAL_KEYS + BUSINESS_KEYS, 1,
    map["object.min" := "At least one field is required for update"])

  const UPDATE_PROFILE := RequestSchema(Some(UPDATE_PROFILE_BODY), None, None)

  const UPDATE_PROFILE_KEYS := {"firstName", "lastName", "username", "bio", "businessName", "profilePicture", "coverImage"}

  /** Empty once trimmed, or 2 to 100 characters. */
  predicate BusinessNameText(s: string) {
    var t := Trim(s);
    t == "" || 2 <= |t| <= 100
  }

  /** Empty, or a URI. */
  predicate ImageText(s: string) {
    s == "" || IsUri(s)
  }

  /** Absent, null, or a string meeting `p`. */
  predicate Nullable(v: Option<Value>, p: string -> bool) {
    v.None? || v == Some(Null) || AuthValidators.TextWith(v, p)
  }

  lemma BusinessNameAccepts(v: Option<Value>)
    ensures StringAccepts(BUSINESS_NAME, v) <==> Nullable(v, BusinessNameText)
  {
    if IsText(v) {
      var t := Trim(v.value.s);
      assert Converted(BUSINESS_NAME, v.value.s) == t;
      RulesHold(BUSINESS_NAME.rules, t);
    }
  }

  lemma ImageAccepts(v: Option<Value>)
    ensures StringAccepts(IMAGE, v) <==> Nullable(v, ImageText)
  {
    if IsText(v) && v.value.s != "" {
      RulesHold(IMAGE.rules, v.value.s);
    }
  }

  /** Names, username and bio: each optional and valid when present. */
  predicate PersonalValues(f: Fields) {
    && (Lookup(f, "firstName").None? || AuthValidators.TextWith(Lookup(f, "firstName"), PersonName))
    && (Lookup(f, "lastName").None? || AuthValidators.TextWith(Lookup(f, "lastName"), PersonName))
    && (Lookup(f, "username").None? || AuthValidators.TextWith(Lookup(f, "username"), AuthValidators.UsernameText))
    && (Lookup(f, "bio").None? || AuthValidators.TextWith(Lookup(f, "bio"), AuthValidators.BioText))
  }

  /** Business name and images: each optional, nullable, and valid when a string. */
  predicate BusinessValues(f: Fields) {
    && Nullable(Lookup(f, "businessName"), BusinessNameText)
    && Nullable(Lookup(f, "profilePicture"), ImageText)
    && Nullable(Lookup(f, "coverImage"), ImageText)
  }

  lemma PersonalValuesAccepted(f: Fields)
    ensures ValuesAccepted(PERSONAL_KEYS, f) <==> PersonalValues(f)
  {
    KeysAccept(PERSONAL_KEYS, f);
    NameAccepts(FIRST_NAME, Lookup(f, "firstName"));
    NameAccepts(LAST_NAME, Lookup(f, "lastName"));
    AuthValidators.UsernameAccepts(USERNAME, Lookup(f, "username"));
    AuthValidators.BioAccepts(Lookup(f, "bio"));
  }

  lemma BusinessValuesAccepted(f: Fields)
    ensures ValuesAccepted(BUSINESS_KEYS, f) <==> BusinessValues(f)
  {
    KeysAccept(BUSINESS_KEYS, f);
    BusinessNameAccepts(Lookup(f, "businessName"));
    ImageAccepts(Lookup(f, "profilePicture"));
    ImageAccepts(Lookup(f, "coverImage"));
  }

  /** The profile update passes exactly when every value present is valid, no other key is
      present, and at least one key is. */
  lemma UpdateProfileAccepts(f: Fields)
    ensures ObjectErrors(UPDATE_PROFILE_BODY, f) == []
      <==> PersonalValues(f) && BusinessValues(f) && OnlyKeys(f, UPDATE_PROFILE_KEYS) && |f| >= 1
  {
    UpdateValuesAccepted(f);
    UpdateKeyNames();
    ObjectErrorsByParts(UPDATE_PROFILE_BODY, f, UPDATE_PROFILE_KEYS);
  }

  lemma UpdateValuesAccepted(f: Fields)
    ensures ValuesAccepted(UPDATE_PROFILE_BODY.keys, f) <==> PersonalValues(f) && BusinessValues(f)
  {
    ValuesAcceptedConcat(PERSONAL_KEYS, BUSINESS_KEYS, f);
    PersonalValuesAccepted(f);
    BusinessValuesAccepted(f);
  }

  lemma UpdateKeyNames()
    ensures KeyNames(UPDATE_PROFILE_BODY.keys) == UPDATE_PROFILE_KEYS
  {
    var keys := UPDATE_PROFILE_BODY.keys;
    assert keys[0].0 == "firstName" && keys[1].0 == "lastName" && keys[2].0 == "username" && keys[3].0 == "bio";
    assert keys[4].0 == "businessName" && keys[5].0 == "profilePicture" && keys[6].0 == "coverImage";
  }

  /** This schema is the stricter of the two profile schemas: an update of the keys both declare
      that passes it also passes the one in auth.validators.ts. */
  lemma StricterThanAuthSchema(f: Fields)
    requires ObjectErrors(UPDATE_PROFILE_BODY, f) == [] && OnlyKeys(f, AuthValidators.UPDATE_PROFILE_KEYS)
    ensures ObjectErrors(AuthValidators.UPDATE_PROFILE_BODY, f) == []
  {
    UpdateProfileAccepts(f);
    PersonalImpliesAuth(f);
    AuthValidators.UpdateProfileAccepts(f);
  }

  lemma PersonalImpliesAuth(f: Fields)
    requires PersonalValues(f)
    ensures AuthValidators.UpdateProfileValues(f)
  {
  }

  /** and strictly so: a name of one character once trimmed passes there and fails here. */
  lemma OneCharacterName(name: string)
    requires |Trim(name)| == 1
    ensures AuthValidators.NameText(name) && !PersonName(name)
  {
  }
}
