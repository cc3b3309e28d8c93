/** The part of Joi's string and object validation the request schemas use, with
    `abortEarly: false`: for each declared key in schema order, then for each unknown key in the
    order the request carries them, the error details Joi reports, and the object's minimum key
    count when nothing else failed. */
module Joi {
  import opened Wrappers
  import opened Strings
  import opened Http

  /** One entry of `error.details`: the path of the offending value and the message. */
  datatype Detail = Detail(path: seq<string>, message: string)

  /** The regular expressions the schemas use. */
  datatype Pattern =
    /** `/^(?=.*[a-z])(?=.*[A-Z])(?=.*\d)(?=.*[@$!%*?&])[A-Za-z\d@$!%*?&]/` */
    | StrongPassword
    /** `/^[a-zA-Z0-9_]+$/` */
    | Username
    /** `/^[a-zA-Z\s]+$/` */
    | LettersAndSpaces

  datatype Rule = Min(limit: nat) | Max(limit: nat) | Matches(pattern: Pattern) | Email | Uri

  /** `Joi.string()` with its modifiers: `display` is the `.label()` given, if any (Joi labels a
      value by its key otherwise), and `messages` maps error codes to the schema's own texts. */
  datatype StringSchema = StringSchema(
    display: Option<string>,
    trim: bool,
    rules: seq<Rule>,
    required: bool,
    allowEmpty: bool,
    allowNull: bool,
    messages: map<string, string>)

  /** `Joi.object(keys).min(minKeys)`; unknown keys are refused, Joi's default. */
  datatype ObjectSchema = ObjectSchema(keys: seq<(string, StringSchema)>, minKeys: nat, messages: map<string, string>)

  predicate IsSpecial(c: char) {
    c == '@' || c == '$' || c == '!' || c == '%' || c == '*' || c == '?' || c == '&'
  }

  predicate IsPasswordChar(c: char) {
    IsAsciiLetter(c) || IsAsciiDigit(c) || IsSpecial(c)
  }

  predicate IsUsernameChar(c: char) {
    IsAsciiLetter(c) || IsAsciiDigit(c) || c == '_'
  }

  /** The text a `.*` lookahead can scan: everything before the first line terminator. */
  function FirstLine(s: string): (r: string)
    ensures |r| <= |s| && r == s[..|r|]
    ensures forall i :: 0 <= i < |r| ==> !IsLineTerminator(r[i])
    ensures |r| < |s| ==> IsLineTerminator(s[|r|])
  {
    if |s| == 0 || IsLineTerminator(s[0]) then "" else [s[0]] + FirstLine(s[1..])
  }

  /** A lookahead `(?=.*[class])`: a character of the class before the first line terminator. */
  predicate Ahead(s: string, inClass: char -> bool) {
    exists i :: 0 <= i < |FirstLine(s)| && inClass(FirstLine(s)[i])
  }

  /** `RegExp.prototype.test` for the three patterns. The password pattern has no end anchor: it
      constrains the first character only, and looks ahead on the first line for the rest. */
  predicate PatternHolds(p: Pattern, s: string) {
    match p
    case StrongPassword =>
      |s| > 0 && IsPasswordChar(s[0])
      && Ahead(s, IsAsciiLower) && Ahead(s, IsAsciiUpper) && Ahead(s, IsAsciiDigit) && Ahead(s, IsSpecial)
    case Username => |s| > 0 && forall i :: 0 <= i < |s| ==> IsUsernameChar(s[i])
    case LettersAndSpaces => |s| > 0 && forall i :: 0 <= i < |s| ==> IsAsciiLetter(s[i]) || IsSpace(s[i])
  }

  lemma {:induction false} FirstLineOfConcat(s: string, t: string)
    ensures FirstLine(s) <= FirstLine(s + t)
    decreases |s|
  {
    if |s| > 0 && !IsLineTerminator(s[0]) {
      assert (s + t)[1..] == s[1..] + t;
      FirstLineOfConcat(s[1..], t);
    }
  }

  lemma AheadExtends(s: string, t: string, inClass: char -> bool)
    requires Ahead(s, inClass)
    ensures Ahead(s + t, inClass)
  {
    var i :| 0 <= i < |FirstLine(s)| && inClass(FirstLine(s)[i]);
    FirstLineOfConcat(s, t);
    assert FirstLine(s + t)[i] == FirstLine(s)[i];
  }

  /** With no end anchor, whatever follows a password that matches keeps it matching. */
  lemma StrongPasswordExtends(s: string, t: string)
    requires PatternHolds(StrongPassword, s)
    ensures PatternHolds(StrongPassword, s + t)
  {
    AheadExtends(s, t, IsAsciiLower);
    AheadExtends(s, t, IsAsciiUpper);
    AheadExtends(s, t, IsAsciiDigit);
    AheadExtends(s, t, IsSpecial);
  }

  /** The lookaheads stop at the first line break: a special character on the second line does not
      count, although every character class occurs in the text. */
  lemma SecondLineNotScanned()
    ensures !PatternHolds(StrongPassword, "Abcdefg1\n@")
    ensures IsSpecial("Abcdefg1\n@"[9]) && IsAsciiUpper("Abcdefg1\n@"[0])
    ensures IsAsciiLower("Abcdefg1\n@"[1]) && IsAsciiDigit("Abcdefg1\n@"[7])
  {
    var s := "Abcdefg1\n@";
    assert IsLineTerminator(s[8]);
    FirstLineStopsAt(s, 8);
    assert FirstLine(s) == "Abcdefg1";
    assert forall i :: 0 <= i < 8 ==> !IsSpecial("Abcdefg1"[i]);
  }

  lemma {:induction false} FirstLineStopsAt(s: string, k: nat)
    requires k < |s| && IsLineTerminator(s[k]) && forall i :: 0 <= i < k ==> !IsLineTerminator(s[i])
    ensures FirstLine(s) == s[..k]
    decreases k
  {
    if k > 0 {
      FirstLineStopsAt(s[1..], k - 1);
      assert s[..k] == [s[0]] + s[1..][..k - 1];
    }
  }

  function PatternSource(p: Pattern): string {
    match p
    case StrongPassword => "/^(?=.*[a-z])(?=.*[A-Z])(?=.*\\d)(?=.*[@$!%*?&])[A-Za-z\\d@$!%*?&]/"
    case Username => "/^[a-zA-Z0-9_]+$/"
    case LettersAndSpaces => "/^[a-zA-Z\\s]+$/"
  }

  predicate NoSpaceOrAt(s: string) {
    forall i :: 0 <= i < |s| ==> !IsSpace(s[i]) && s[i] != '@'
  }

  /** `.email()`, read as the address pattern `/^[^\s@]+@[^\s@]+\.[^\s@]+$/`. */
  predicate IsEmail(s: string) {
    exists i, j :: 0 < i && i + 1 < j && j + 1 < |s| && s[i] == '@' && s[j] == '.'
      && NoSpaceOrAt(s[..i]) && NoSpaceOrAt(s[i + 1..])
  }

  /** The three `+` runs are non-empty: a dot right after the `@`, or a dot or `@` at either end,
      is refused. */
  lemma EmailPartsNonEmpty()
    ensures IsEmail("a@b.c")
    ensures !IsEmail("a@.b") && !IsEmail("@b.c") && !IsEmail("a@b.")
  {
    var s := "a@b.c";
    assert s[1] == '@' && s[3] == '.' && NoSpaceOrAt(s[..1]) && NoSpaceOrAt(s[2..]);
  }

  predicate IsSchemeChar(c: char) {
    IsAsciiLetter(c) || IsAsciiDigit(c) || c == '+' || c == '-' || c == '.'
  }

  /** `.uri()`, read as a scheme (a letter, then letters, digits, `+`, `-`, `.`), a colon, and a
      non-empty rest without white space. */
  predicate IsUri(s: string) {
    exists i :: 0 < i && i + 1 < |s| && s[i] == ':' && IsAsciiLetter(s[0])
      && (forall k :: 0 < k < i ==> IsSchemeChar(s[k]))
      && (forall k :: i < k < |s| ==> !IsSpace(s[k]))
  }

  function Quoted(name: string): string {
    "\"" + name + "\""
  }

  /** The schema's own message for a code, or Joi's default text. */
  function Message(messages: map<string, string>, code: string, fallback: string): string {
    if code in messages then messages[code] else fallback
  }

  predicate RuleHolds(r: Rule, s: string) {
    match r
    case Min(n) => |s| >= n
    case Max(n) => |s| <= n
    case Matches(p) => PatternHolds(p, s)
    case Email => IsEmail(s)
    case Uri => IsUri(s)
  }

  function Label(key: string, sch: StringSchema): string {
    Quoted(sch.display.GetOr(key))
  }

  function RuleMessage(key: string, sch: StringSchema, r: Rule, s: string): string {
    var l := Label(key, sch);
    match r
    case Min(n) => Message(sch.messages, "string.min", l + " length must be at least " + NatToString(n) + " characters long")
    case Max(n) => Message(sch.messages, "string.max", l + " length must be less than or equal to " + NatToString(n) + " characters long")
    case Matches(p) => Message(sch.messages, "string.pattern.base", l + " with value \"" + s + "\" fails to match the required pattern: " + PatternSource(p))
    case Email => Message(sch.messages, "string.email", l + " must be a valid email")
    case Uri => Message(sch.messages, "string.uri", l + " must be a valid uri")
  }

  /** All of one to three rules hold exactly when each one does. */
  lemma RulesHold(rules: seq<Rule>, s: string)
    requires 1 <= |rules| <= 3
    ensures (forall i :: 0 <= i < |rules| ==> RuleHolds(rules[i], s))
      <==> (RuleHolds(rules[0], s) && (|rules| >= 2 ==> RuleHolds(rules[1], s)) && (|rules| == 3 ==> RuleHolds(rules[2], s)))
  {
  }

  /** Every failing rule reports, in the order the rules were added. */
  function RuleErrors(key: string, sch: StringSchema, s: string, rules: seq<Rule>): (ds: seq<Detail>)
    ensures |ds| <= |rules|
    ensures ds == [] <==> forall i :: 0 <= i < |rules| ==> RuleHolds(rules[i], s)
    ensures forall d :: d in ds ==> d.path == [key]
  {
    if |rules| == 0 then []
    else
      (if RuleHolds(rules[0], s) then [] else [Detail([key], RuleMessage(key, sch, rules[0], s))])
      + RuleErrors(key, sch, s, rules[1..])
  }

  /** The value a string schema validates: trimmed first when the schema trims. */
  function Converted(sch: StringSchema, raw: string): string {
    if sch.trim then Trim(raw) else raw
  }

  /** The details Joi reports for one key: a missing required key, a value that is not a string
      (null only where allowed), an empty string (only where allowed), and otherwise every failing
      rule. */
  function StringErrors(key: string, sch: StringSchema, v: Option<Value>): (ds: seq<Detail>)
    ensures forall d :: d in ds ==> d.path == [key]
  {
    var l := Label(key, sch);
    match v
    case None => if sch.required then [Detail([key], Message(sch.messages, "any.required", l + " is required"))] else []
    case Some(Null) => if sch.allowNull then [] else [Detail([key], Message(sch.messages, "string.base", l + " must be a string"))]
    case Some(Other) => [Detail([key], Message(sch.messages, "string.base", l + " must be a string"))]
    case Some(Str(raw)) =>
      var s := Converted(sch, raw);
      if s == "" then
        (if sch.allowEmpty then [] else [Detail([key], Message(sch.messages, "string.empty", l + " is not allowed to be empty"))])
      else RuleErrors(key, sch, s, sch.rules)
  }

  /** What a string schema accepts, stated directly. */
  predicate StringAccepts(sch: StringSchema, v: Option<Value>) {
    match v
    case None => !sch.required
    case Some(Null) => sch.allowNull
    case Some(Other) => false
    case Some(Str(raw)) =>
      if Converted(sch, raw) == "" then sch.allowEmpty
      else forall i :: 0 <= i < |sch.rules| ==> RuleHolds(sch.rules[i], Converted(sch, raw))
  }

  lemma StringErrorsIff(key: string, sch: StringSchema, v: Option<Value>)
    ensures StringErrors(key, sch, v) == [] <==> StringAccepts(sch, v)
  {
  }

  function KeyErrors(keys: seq<(string, StringSchema)>, f: Fields): (ds: seq<Detail>)
    ensures forall d :: d in ds ==> exists i :: 0 <= i < |keys| && d.path == [keys[i].0]
  {
    if |keys| == 0 then []
    else
      var rest := KeyErrors(keys[1..], f);
      assert forall d :: d in rest ==> exists i :: 0 <= i < |keys| && d.path == [keys[i].0] by {
        forall d | d in rest ensures exists i :: 0 <= i < |keys| && d.path == [keys[i].0] {
          var i :| 0 <= i < |keys[1..]| && d.path == [keys[1..][i].0];
          assert d.path == [keys[i + 1].0];
        }
      }
      StringErrors(keys[0].0, keys[0].1, Lookup(f, keys[0].0)) + rest
  }

  predicate Declared(keys: seq<(string, StringSchema)>, key: string) {
    exists i :: 0 <= i < |keys| && keys[i].0 == key
  }

  /** The declared key names. */
  function KeyNames(keys: seq<(string, StringSchema)>): (names: set<string>)
    ensures forall k :: k in names <==> Declared(keys, k)
  {
    set i | 0 <= i < |keys| :: keys[i].0
  }

  /** Every key of the part is one of `names`. */
  predicate OnlyKeys(f: Fields, names: set<string>) {
    forall i :: 0 <= i < |f| ==> f[i].0 in names
  }

  /** The declared keys, one to five, are all accepted exactly when each one is. */
  lemma KeysAccept(keys: seq<(string, StringSchema)>, f: Fields)
    requires 1 <= |keys| <= 5
    ensures ValuesAccepted(keys, f)
      <==> (&& StringAccepts(keys[0].1, Lookup(f, keys[0].0))
            && (|keys| >= 2 ==> StringAccepts(keys[1].1, Lookup(f, keys[1].0)))
            && (|keys| >= 3 ==> StringAccepts(keys[2].1, Lookup(f, keys[2].0)))
            && (|keys| >= 4 ==> StringAccepts(keys[3].1, Lookup(f, keys[3].0)))
            && (|keys| == 5 ==> StringAccepts(keys[4].1, Lookup(f, keys[4].0))))
  {
  }

  /** `"key" is not allowed` for each key the schema does not declare, in request order. */
  function UnknownErrors(f: Fields, keys: seq<(string, StringSchema)>): (ds: seq<Detail>)
    ensures |ds| <= |f|
    ensures ds == [] <==> forall i :: 0 <= i < |f| ==> Declared(keys, f[i].0)
  {
    if |f| == 0 then []
    else
      (if Declared(keys, f[0].0) then [] else [Detail([f[0].0], Quoted(f[0].0) + " is not allowed")])
      + UnknownErrors(f[1..], keys)
  }

  /** `schema.validate(part, {abortEarly: false}).error?.details ?? []` */
  function ObjectErrors(o: ObjectSchema, f: Fields): seq<Detail> {
    var ds := KeyErrors(o.keys, f) + UnknownErrors(f, o.keys);
    if ds != [] then ds
    else if |f| < o.minKeys then
      [Detail([], Message(o.messages, "object.min",
         "\"value\" must have at least " + NatToString(o.minKeys) + " key" + (if o.minKeys == 1 then "" else "s")))]
    else []
  }

  /** What an object schema accepts: every declared key's value, no undeclared key, and enough keys. */
  predicate ObjectAccepts(o: ObjectSchema, f: Fields) {
    ValuesAccepted(o.keys, f) && NoUnknownKeys(o.keys, f) && |f| >= o.minKeys
  }

  predicate ValuesAccepted(keys: seq<(string, StringSchema)>, f: Fields) {
    forall i :: 0 <= i < |keys| ==> StringAccepts(keys[i].1, Lookup(f, keys[i].0))
  }

  lemma ValuesAcceptedConcat(a: seq<(string, StringSchema)>, b: seq<(string, StringSchema)>, f: Fields)
    ensures ValuesAccepted(a + b, f) <==> ValuesAccepted(a, f) && ValuesAccepted(b, f)
  {
    if ValuesAccepted(a, f) && ValuesAccepted(b, f) {
      forall i | 0 <= i < |a + b| ensures StringAccepts((a + b)[i].1, Lookup(f, (a + b)[i].0)) {
        if i >= |a| {
          assert (a + b)[i] == b[i - |a|];
        }
      }
    }
    if ValuesAccepted(a + b, f) {
      forall i | 0 <= i < |a| ensures StringAccepts(a[i].1, Lookup(f, a[i].0)) {
        assert (a + b)[i] == a[i];
      }
      forall i | 0 <= i < |b| ensures StringAccepts(b[i].1, Lookup(f, b[i].0)) {
        assert (a + b)[|a| + i] == b[i];
      }
    }
  }

  predicate NoUnknownKeys(keys: seq<(string, StringSchema)>, f: Fields) {
    forall i :: 0 <= i < |f| ==> Declared(keys, f[i].0)
  }

  /** No unknown key means every key is one of the declared names. */
  lemma NoUnknownKeysIff(keys: seq<(string, StringSchema)>, f: Fields, names: set<string>)
    requires KeyNames(keys) == names
    ensures NoUnknownKeys(keys, f) <==> OnlyKeys(f, names)
  {
  }

  lemma {:induction false} KeyErrorsEmptyIff(keys: seq<(string, StringSchema)>, f: Fields)
    ensures KeyErrors(keys, f) == [] <==> ValuesAccepted(keys, f)
    decreases |keys|
  {
    if |keys| > 0 {
      StringErrorsIff(keys[0].0, keys[0].1, Lookup(f, keys[0].0));
      KeyErrorsEmptyIff(keys[1..], f);
      assert forall i :: 1 <= i < |keys| ==> keys[i] == keys[1..][i - 1];
    }
  }

  /** A part passes exactly when the object schema accepts it. */
  lemma ObjectErrorsIff(o: ObjectSchema, f: Fields)
    ensures ObjectErrors(o, f) == [] <==> ObjectAccepts(o, f)
  {
    KeyErrorsEmptyIff(o.keys, f);
  }

  /** A part passes exactly when its values are accepted, its keys are among the declared names,
      and it has enough of them. */
  lemma ObjectErrorsByParts(o: ObjectSchema, f: Fields, names: set<string>)
    requires KeyNames(o.keys) == names
    ensures ObjectErrors(o, f) == [] <==> ValuesAccepted(o.keys, f) && OnlyKeys(f, names) && |f| >= o.minKeys
  {
    ObjectErrorsIff(o, f);
    NoUnknownKeysIff(o.keys, f, names);
  }

  /** A key of the part that the schema does not declare is always reported, whatever else is
      wrong, and with Joi's `"key" is not allowed`. */
  lemma {:induction false} UnknownKeyReported(o: ObjectSchema, f: Fields, k: nat)
    requires k < |f| && !Declared(o.keys, f[k].0)
    ensures Detail([f[k].0], Quoted(f[k].0) + " is not allowed") in ObjectErrors(o, f)
  {
    UnknownListed(f, o.keys, k);
  }

  lemma {:induction false} UnknownListed(f: Fields, keys: seq<(string, StringSchema)>, k: nat)
    requires k < |f| && !Declared(keys, f[k].0)
    ensures Detail([f[k].0], Quoted(f[k].0) + " is not allowed") in UnknownErrors(f, keys)
    decreases k
  {
    if k > 0 {
      UnknownListed(f[1..], keys, k - 1);
    }
  }
}
