/** The three passport strategies: the local credential check, the JWT gate that consults the
    revocation store, and the Google link-or-create resolver. */
module PassportConfig {
  import opened Wrappers
  import opened Strings
  import opened Errors
  import opened UserModel
  import opened Requests
  import BL = TokenBlacklistModel
  import TokenBlacklistService
  import TokenService
  import Mongo
  import Env
  import Crypto

  /** How a strategy finishes: `done(err)`, `done(null, false, info)` (or a library `fail(info)`),
      or `done(null, user)`. */
  datatype Verdict = Errored(err: Thrown) | Rejected(message: Option<string>) | Accepted(principal: AuthUser)

  // ---- local strategy ----

  /** passport-local's own precheck, then the verify callback. A failed lookup is an error; an
      unknown email, a record without a password hash and a wrong password are one and the same
      rejection. */
  function LocalVerify(s: Store, email: Option<string>, password: Option<string>, crypto: Crypto.Primitives): Verdict {
    if Blank(email) || Blank(password) then Rejected(Some("Missing credentials"))
    else match FindOne(s, ByEmail(email), CREDENTIALS)
      case Failure(e) => Errored(e)
      case Success(None) => Rejected(Some("Invalid credentials"))
      case Success(Some(u)) =>
        if Blank(u.password) || !crypto.bcryptCompare(password.value, u.password.value) then Rejected(Some("Invalid credentials"))
        else Accepted(AuthUser(u, None))
  }

  /** The three ways a credential check fails are indistinguishable to the caller; a database
      failure is passed on as an error. */
  lemma LocalRejections(s: Store, email: string, password: string, crypto: Crypto.Primitives)
    requires email != "" && password != ""
    ensures var v := LocalVerify(s, Some(email), Some(password), crypto);
      && (v.Errored? <==> !s.available)
      && (v.Errored? ==> v.err == Mongo.Unavailable())
      && (v == Rejected(Some("Invalid credentials")) <==>
            s.available &&
            (First(s, ByEmail(Some(email))).None?
             || Blank(s.users[First(s, ByEmail(Some(email))).value].password)
             || !crypto.bcryptCompare(password, s.users[First(s, ByEmail(Some(email))).value].password.value)))
  {
  }

  /** The strategy accepts a user whose password matches, whether or not the address is verified
      and whether or not 2FA is on; the user comes with its password hash and 2FA secret. */
  lemma LocalAcceptsUnverified(s: Store, k: UserId, email: string, password: string, crypto: Crypto.Primitives)
    requires Invariant(s) && s.available
    requires email != "" && password != ""
    requires k in s.users && s.users[k].email == NormalizeEmail(email)
    requires s.users[k].password.Some? && s.users[k].password.value != ""
    requires crypto.bcryptCompare(password, s.users[k].password.value)
    ensures LocalVerify(s, Some(email), Some(password), crypto) == Accepted(AuthUser(Project(s.users[k], CREDENTIALS), None))
  {
    FirstIsSmallestMatch(s, ByEmail(Some(email)));
    var id := First(s, ByEmail(Some(email))).value;
    EmailFilterMatchesOne(s, email, id, k);
  }

  // ---- JWT strategy ----

  function SkipSpace(s: string, i: nat): (j: nat)
    requires i <= |s|
    ensures i <= j <= |s| && (j == |s| || !IsSpace(s[j]))
    ensures forall k :: i <= k < j ==> IsSpace(s[k])
    decreases |s| - i
  {
    if i == |s| || !IsSpace(s[i]) then i else SkipSpace(s, i + 1)
  }

  function SkipWord(s: string, i: nat): (j: nat)
    requires i <= |s|
    ensures i <= j <= |s| && (j == |s| || IsSpace(s[j]))
    ensures forall k :: i <= k < j ==> !IsSpace(s[k])
    decreases |s| - i
  {
    if i == |s| || IsSpace(s[i]) then i else SkipWord(s, i + 1)
  }

  predicate IsWord(w: string) {
    w != [] && forall i :: 0 <= i < |w| ==> !IsSpace(w[i])
  }

  /** The header parser's `(\S+)\s+(\S+)` match: the first two words of the header. */
  function FirstTwoWords(s: string): (r: Option<(string, string)>)
    ensures r.Some? ==> IsWord(r.value.0) && IsWord(r.value.1)
  {
    var a := SkipSpace(s, 0);
    var b := SkipWord(s, a);
    var c := SkipSpace(s, b);
    var d := SkipWord(s, c);
    if a < b && b < c && c < d then Some((s[a..b], s[c..d])) else None
  }

  /** `ExtractJwt.fromAuthHeaderAsBearerToken()`: the second word of the header when the first is
      "bearer" in any letter case. */
  function BearerToken(header: Option<string>): (r: Option<string>)
    ensures r.Some? ==> IsWord(r.value)
  {
    if header.None? || header.value == "" then None
    else match FirstTwoWords(header.value)
      case None => None
      case Some(words) => if Lower(words.0) == "bearer" then Some(words.1) else None
  }

  /** The standard header form yields its token, and so does a lower-case scheme. */
  lemma BearerHeader(scheme: string, token: string)
    requires scheme == "Bearer" || scheme == "bearer"
    requires IsWord(token)
    ensures BearerToken(Some(scheme + " " + token)) == Some(token)
  {
    var s := scheme + " " + token;
    assert Lower(scheme) == "bearer" by {
      assert forall i :: 0 <= i < 6 ==> LowerChar(scheme[i]) == "bearer"[i];
    }
    assert SkipSpace(s, 0) == 0;
    assert SkipWord(s, 0) == 6 by {
      assert forall k :: 0 <= k < 6 ==> !IsSpace(s[k]);
    }
    assert SkipSpace(s, 6) == 7 by {
      assert IsSpace(s[6]) && !IsSpace(s[7]);
    }
    assert SkipWord(s, 7) == |s| by {
      assert forall k :: 7 <= k < |s| ==> s[k] == token[k - 7];
    }
    assert s[0..6] == scheme && s[7..|s|] == token;
    assert FirstTwoWords(s) == Some((scheme, token));
  }

  /** Anything after the second word is ignored. */
  lemma BearerIgnoresRest(token: string, rest: string)
    requires IsWord(token)
    ensures BearerToken(Some("Bearer " + token + " " + rest)) == Some(token)
  {
    var s := "Bearer " + token + " " + rest;
    var e := 7 + |token|;
    assert SkipSpace(s, 0) == 0;
    assert SkipWord(s, 0) == 6 by {
      assert forall k :: 0 <= k < 6 ==> !IsSpace(s[k]);
    }
    assert SkipSpace(s, 6) == 7 by {
      assert IsSpace(s[6]) && !IsSpace(s[7]);
    }
    assert SkipWord(s, 7) == e by {
      assert forall k :: 7 <= k < e ==> s[k] == token[k - 7];
      assert IsSpace(s[e]);
    }
    assert s[..6] == "Bearer" && s[7..e] == token;
    assert Lower("Bearer") == "bearer" by {
      assert forall i :: 0 <= i < 6 ==> LowerChar("Bearer"[i]) == "bearer"[i];
    }
  }

  /** The JWT strategy at `now`: passport-jwt extracts the token and verifies it with the access
      secret; the verify callback then checks the revocation store and looks the user up, and
      attaches the raw token to the user it accepts. */
  function JwtAuthenticate(header: Option<string>, b: BL.Blacklist, s: Store, config: Env.Config,
                           crypto: Crypto.Primitives, now: nat): Verdict
  {
    match BearerToken(header)
    case None => Rejected(Some("No auth token"))
    case Some(token) =>
      match TokenService.VerifyToken(token, false, config, crypto, now)
      case Failure(f) => Rejected(Some(f.Message()))
      case Success(claims) =>
        if !b.available then Errored(Mongo.Unavailable())
        else if TokenBlacklistService.IsBlacklisted(b, token) then Rejected(Some("Token has been revoked"))
        else match FindById(s, claims.userId)
          case Failure(e) => Errored(e)
          case Success(None) => Rejected(None)
          case Success(Some(u)) => Accepted(AuthUser(u, Some(token)))
  }

  /** The gate accepts exactly an unrevoked, unexpired access-secret token of an existing user,
      and hands on that user's default document together with the token. */
  lemma JwtAcceptance(header: Option<string>, b: BL.Blacklist, s: Store, config: Env.Config, crypto: Crypto.Primitives, now: nat)
    ensures var v := JwtAuthenticate(header, b, s, config, crypto, now);
      v.Accepted? <==>
        && BearerToken(header).Some?
        && TokenService.VerifyToken(BearerToken(header).value, false, config, crypto, now).Success?
        && b.available && s.available
        && !TokenBlacklistService.IsBlacklisted(b, BearerToken(header).value)
        && TokenService.VerifyToken(BearerToken(header).value, false, config, crypto, now).value.userId in s.users
    ensures var v := JwtAuthenticate(header, b, s, config, crypto, now);
      v.Accepted? ==> v.principal == AuthUser(
        Project(s.users[TokenService.VerifyToken(BearerToken(header).value, false, config, crypto, now).value.userId], {}),
        BearerToken(header))
  {
  }

  /** A revoked token is turned away before the user store is consulted: the outcome is the same
      whatever the store holds. */
  lemma JwtRevokedBeforeLookup(header: Option<string>, b: BL.Blacklist, s1: Store, s2: Store, config: Env.Config, crypto: Crypto.Primitives, now: nat)
    requires BearerToken(header).Some? && TokenService.VerifyToken(BearerToken(header).value, false, config, crypto, now).Success?
    requires b.available && TokenBlacklistService.IsBlacklisted(b, BearerToken(header).value)
    ensures JwtAuthenticate(header, b, s1, config, crypto, now) == Rejected(Some("Token has been revoked"))
    ensures JwtAuthenticate(header, b, s1, config, crypto, now) == JwtAuthenticate(header, b, s2, config, crypto, now)
  {
  }

  /** While the secrets differ, no token signed with the refresh secret authenticates. */
  lemma JwtRejectsRefreshSecret(header: Option<string>, b: BL.Blacklist, s: Store, config: Env.Config,
                                crypto: Crypto.Primitives, now: nat, c: Crypto.Claims)
    requires Crypto.Sound(crypto) && Env.SecretsDiffer(config)
    requires BearerToken(header) == Some(crypto.jwtSign(c, config.jwt.refreshSecret))
    ensures !JwtAuthenticate(header, b, s, config, crypto, now).Accepted?
  {
  }

  /** A store failure is reported as an error and never lets the request through. */
  lemma JwtStoreFailures(header: Option<string>, b: BL.Blacklist, s: Store, config: Env.Config, crypto: Crypto.Primitives, now: nat)
    requires BearerToken(header).Some? && TokenService.VerifyToken(BearerToken(header).value, false, config, crypto, now).Success?
    requires !b.available || (!TokenBlacklistService.IsBlacklisted(b, BearerToken(header).value) && !s.available)
    ensures JwtAuthenticate(header, b, s, config, crypto, now) == Errored(Mongo.Unavailable())
  {
  }

  // ---- Google strategy ----

  /** The parts of a Google profile the resolver reads; `emails` and `photos` are the `value`s of
      the profile's arrays, in order. */
  datatype Profile = Profile(id: string, emails: seq<string>, photos: seq<string>,
                             givenName: Option<string>, familyName: Option<string>, displayName: Option<string>)

  function FirstOf(xs: seq<string>): Option<string> {
    if |xs| == 0 then None else Some(xs[0])
  }

  /** JavaScript truthiness of an optional string. */
  predicate Truthy(o: Option<string>) {
    o.Some? && o.value != ""
  }

  /** `givenName || displayName.split(' ')[0] || 'User'` */
  function GivenName(p: Profile): string {
    if Truthy(p.givenName) then p.givenName.value
    else if p.displayName.Some? && Split(p.displayName.value, ' ')[0] != "" then Split(p.displayName.value, ' ')[0]
    else "User"
  }

  /** `familyName || displayName.split(' ')[1] || ''` */
  function FamilyName(p: Profile): string {
    if Truthy(p.familyName) then p.familyName.value
    else if p.displayName.Some? && |Split(p.displayName.value, ' ')| > 1 && Split(p.displayName.value, ' ')[1] != "" then
      Split(p.displayName.value, ' ')[1]
    else ""
  }

  /** The record created for a new Google user: verified, linked, no password. */
  function GoogleDraft(p: Profile): Draft {
    Draft(Some(GivenName(p)), Some(FamilyName(p)), FirstOf(p.emails), None, Some(p.id), FirstOf(p.photos), Some(true), None, None)
  }

  /** The paths that linking modifies: googleId and emailVerified always, profilePicture only when
      the record has none and the profile offers one. */
  function LinkDirty(u: User, p: Profile): set<Path> {
    {GoogleId, EmailVerified} + (if !Truthy(u.profilePicture) && Truthy(FirstOf(p.photos)) then {ProfilePicture} else {})
  }

  function Linked(u: User, p: Profile): User {
    u.(googleId := Some(p.id), emailVerified := true,
       profilePicture := if ProfilePicture in LinkDirty(u, p) then FirstOf(p.photos) else u.profilePicture)
  }

  /** The resolver's decision and the store it leaves behind. */
  function GoogleResolution(s: Store, p: Profile): (Verdict, Store) {
    match FindOne(s, ByGoogleId(p.id), {})
    case Failure(e) => (Errored(e), s)
    case Success(Some(u)) => (Accepted(AuthUser(u, None)), s)
    case Success(None) =>
      match FindOne(s, ByEmail(FirstOf(p.emails)), {})
      case Failure(e) => (Errored(e), s)
      case Success(Some(u)) =>
        var doc := Linked(u, p);
        (match SaveOutcome(s, doc, LinkDirty(u, p))
         case Failure(e) => (Errored(e), s)
         case Success(t) => (Accepted(AuthUser(doc, None)), t))
      case Success(None) =>
        match CreateOutcome(s, GoogleDraft(p))
        case Failure(e) => (Errored(e), s)
        case Success(u) => (Accepted(AuthUser(u, None)), Inserted(s, u))
  }

  /** The resolver writes only when it returns a user. */
  lemma GoogleErrorsWriteNothing(s: Store, p: Profile)
    ensures !GoogleResolution(s, p).0.Accepted? ==> GoogleResolution(s, p).1 == s
    ensures !GoogleResolution(s, p).0.Rejected?
  {
  }

  /** The Google verify callback: `let user` is looked up by googleId, then by the first e-mail,
      and is either linked in place and saved or created. */
  method GoogleResolve(users: UserCollection, p: Profile) returns (v: Verdict)
    modifies users
    ensures (v, users.State()) == GoogleResolution(old(users.State()), p)
  {
    var user: Option<User>;
    match FindOne(users.State(), ByGoogleId(p.id), {}) {
      case Failure(e) => return Errored(e);
      case Success(found) => user := found;
    }
    if user.None? {
      match FindOne(users.State(), ByEmail(FirstOf(p.emails)), {}) {
        case Failure(e) => return Errored(e);
        case Success(found) => user := found;
      }
      if user.Some? {
        var doc := user.value;
        var dirty := {GoogleId, EmailVerified};
        doc := doc.(googleId := Some(p.id));
        doc := doc.(emailVerified := true);
        if !Truthy(doc.profilePicture) && Truthy(FirstOf(p.photos)) {
          doc := doc.(profilePicture := FirstOf(p.photos));
          dirty := dirty + {ProfilePicture};
        }
        assert doc == Linked(user.value, p) && dirty == LinkDirty(user.value, p);
        var saved := users.Save(doc, dirty);
        match saved {
          case Fail(e) => return Errored(e);
          case Pass => user := Some(doc);
        }
      } else {
        var created := users.Create(GoogleDraft(p));
        match created {
          case Failure(e) => return Errored(e);
          case Success(u) => user := Some(u);
        }
      }
    }
    v := Accepted(AuthUser(user.value, None));
  }

  /** Step 1: a user already linked to the Google id is returned as read, with no write. */
  lemma GoogleKnownUser(s: Store, p: Profile)
    requires s.available && First(s, ByGoogleId(p.id)).Some?
    ensures GoogleResolution(s, p) == (Accepted(AuthUser(Project(s.users[First(s, ByGoogleId(p.id)).value], {}), None)), s)
  {
  }

  /** Step 2: otherwise a user with the profile's first e-mail is linked: googleId set,
      emailVerified set, profilePicture filled only when it was empty and a photo is offered;
      nothing else in the store changes. */
  lemma GoogleLinksByEmail(s: Store, p: Profile)
    requires Invariant(s) && s.available
    requires First(s, ByGoogleId(p.id)).None? && First(s, ByEmail(FirstOf(p.emails))).Some?
    ensures var id := First(s, ByEmail(FirstOf(p.emails))).value;
      var stored := s.users[id];
      var (v, t) := GoogleResolution(s, p);
      && v.Accepted? && v.principal.user.id == id
      && t == s.(users := s.users[id := stored.(
           googleId := Some(p.id), emailVerified := true,
           profilePicture := if !Truthy(stored.profilePicture) && Truthy(FirstOf(p.photos)) then FirstOf(p.photos) else stored.profilePicture)])
  {
    var id := First(s, ByEmail(FirstOf(p.emails))).value;
    var u := Project(s.users[id], {});
    assert FindOne(s, ByGoogleId(p.id), {}) == Success(None);
    assert FindOne(s, ByEmail(FirstOf(p.emails)), {}) == Success(Some(u));
    LinkSaves(s, p, id);
  }

  /** Saving the linked document writes exactly the linked paths over the stored record. */
  lemma LinkSaves(s: Store, p: Profile, id: UserId)
    requires Invariant(s) && s.available && id in s.users
    requires First(s, ByGoogleId(p.id)).None?
    ensures var stored := s.users[id];
      var u := Project(stored, {});
      SaveOutcome(s, Linked(u, p), LinkDirty(u, p)) == Success(s.(users := s.users[id := stored.(
           googleId := Some(p.id), emailVerified := true,
           profilePicture := if !Truthy(stored.profilePicture) && Truthy(FirstOf(p.photos)) then FirstOf(p.photos) else stored.profilePicture)]))
  {
    var stored := s.users[id];
    var u := Project(stored, {});
    FirstIsSmallestMatch(s, ByGoogleId(p.id));
    assert !GoogleIdTaken(s.users, p.id, Some(id));
    assert Linked(u, p).id == id;
  }

  /** Step 3: otherwise a new, verified, password-less user is created from the profile. */
  lemma GoogleCreates(s: Store, p: Profile)
    requires Invariant(s) && s.available
    requires First(s, ByGoogleId(p.id)).None? && First(s, ByEmail(FirstOf(p.emails))).None?
    ensures var (v, t) := GoogleResolution(s, p);
      && (v.Accepted? <==> CreateOutcome(s, GoogleDraft(p)).Success?)
      && (v.Accepted? ==> var u := v.principal.user;
            && t == Inserted(s, u) && u.id == s.nextId
            && u.googleId == Some(p.id) && u.emailVerified && u.password.None?
            && u.firstName == GivenName(p) && u.lastName == FamilyName(p)
            && Some(u.email) == Some(NormalizeEmail(FirstOf(p.emails).value)))
      && (v.Errored? ==> t == s)
  {
    if CreateOutcome(s, GoogleDraft(p)).Success? {
      CreateDefaults(s, GoogleDraft(p));
    }
  }

  /** Without a family name, a one-word display name leaves lastName empty, and the create fails
      on that required path: the sign-in is an error and nothing is stored. */
  lemma GoogleOneWordNameFails(s: Store, p: Profile)
    requires s.available && First(s, ByGoogleId(p.id)).None? && First(s, ByEmail(FirstOf(p.emails))).None?
    requires !Truthy(p.familyName) && p.displayName.Some? && ' ' !in p.displayName.value
    ensures FamilyName(p) == ""
    ensures GoogleResolution(s, p).0.Errored? && GoogleResolution(s, p).1 == s
    ensures "lastName" in MissingPaths(GoogleDraft(p))
  {
    SplitNoSep(p.displayName.value, ' ');
  }

  /** A profile without an e-mail, for a Google id not yet linked, is never linked to a stored
      record: the lookup by an undefined address finds none, and the create fails on the required
      email, writing nothing. */
  lemma GoogleWithoutEmailFails(s: Store, p: Profile)
    requires s.available && |p.emails| == 0 && First(s, ByGoogleId(p.id)).None?
    ensures First(s, ByEmail(FirstOf(p.emails))).None?
    ensures "email" in MissingPaths(GoogleDraft(p))
    ensures GoogleResolution(s, p) == (Errored(Mongo.RequiredPaths(MissingPaths(GoogleDraft(p)))), s)
  {
    NoAddressMatchesNothing(s);
  }

  /** Resolving the same profile again, on the store the first resolution left, takes step 1:
      the same user, and no further write. */
  lemma GoogleIdempotent(s: Store, p: Profile)
    requires Invariant(s)
    requires GoogleResolution(s, p).0.Accepted?
    ensures GoogleResolution(GoogleResolution(s, p).1, p) == GoogleResolution(s, p)
  {
    if First(s, ByGoogleId(p.id)).None? {
      var byEmail := First(s, ByEmail(FirstOf(p.emails)));
      if byEmail.Some? {
        RelinkIsLookup(s, p, byEmail.value);
      } else {
        RecreateIsLookup(s, p);
      }
    }
  }

  lemma RelinkIsLookup(s: Store, p: Profile, id: UserId)
    requires Invariant(s) && s.available
    requires First(s, ByGoogleId(p.id)).None? && First(s, ByEmail(FirstOf(p.emails))) == Some(id)
    ensures GoogleResolution(GoogleResolution(s, p).1, p) == GoogleResolution(s, p)
  {
    LinkResolution(s, p, id);
    var t := s.(users := s.users[id := LinkedRecord(s.users[id], p)]);
    LinkedIsFound(s, p, id);
    LinkedProjects(s.users[id], p);
    GoogleKnownUser(t, p);
  }

  /** The stored record once linking has been saved. */
  function LinkedRecord(stored: User, p: Profile): User {
    stored.(googleId := Some(p.id), emailVerified := true,
            profilePicture := if !Truthy(stored.profilePicture) && Truthy(FirstOf(p.photos)) then FirstOf(p.photos) else stored.profilePicture)
  }

  lemma LinkResolution(s: Store, p: Profile, id: UserId)
    requires Invariant(s) && s.available
    requires First(s, ByGoogleId(p.id)).None? && First(s, ByEmail(FirstOf(p.emails))) == Some(id)
    ensures GoogleResolution(s, p)
      == (Accepted(AuthUser(Linked(Project(s.users[id], {}), p), None)), s.(users := s.users[id := LinkedRecord(s.users[id], p)]))
  {
    var u := Project(s.users[id], {});
    assert FindOne(s, ByGoogleId(p.id), {}) == Success(None);
    assert FindOne(s, ByEmail(FirstOf(p.emails)), {}) == Success(Some(u));
    LinkSaves(s, p, id);
  }

  /** After linking, the Google id lookup finds the linked record. */
  lemma LinkedIsFound(s: Store, p: Profile, id: UserId)
    requires Invariant(s) && s.available && id in s.users
    requires First(s, ByGoogleId(p.id)).None?
    ensures var t := s.(users := s.users[id := LinkedRecord(s.users[id], p)]);
      t.available && First(t, ByGoogleId(p.id)) == Some(id)
  {
    var t := s.(users := s.users[id := LinkedRecord(s.users[id], p)]);
    FirstIsSmallestMatch(s, ByGoogleId(p.id));
    forall j | 0 <= j < id && j in t.users ensures !Matches(t.users[j], ByGoogleId(p.id)) {
      assert t.users[j] == s.users[j];
    }
    ScanFinds(t.users, ByGoogleId(p.id), 0, t.nextId, id);
  }

  /** What the lookup returns of the linked record is the linked document. */
  lemma LinkedProjects(stored: User, p: Profile)
    ensures Project(LinkedRecord(stored, p), {}) == Linked(Project(stored, {}), p)
  {
  }

  lemma RecreateIsLookup(s: Store, p: Profile)
    requires s.available && First(s, ByGoogleId(p.id)).None? && First(s, ByEmail(FirstOf(p.emails))).None?
    requires GoogleResolution(s, p).0.Accepted?
    ensures GoogleResolution(GoogleResolution(s, p).1, p) == GoogleResolution(s, p)
  {
    CreatedRecord(s, GoogleDraft(p));
    var u := CreateOutcome(s, GoogleDraft(p)).value;
    assert FindOne(s, ByGoogleId(p.id), {}) == Success(None);
    assert FindOne(s, ByEmail(FirstOf(p.emails)), {}) == Success(None);
    var t := Inserted(s, u);
    assert GoogleResolution(s, p) == (Accepted(AuthUser(u, None)), t);
    forall j | 0 <= j < u.id && j in t.users ensures !Matches(t.users[j], ByGoogleId(p.id)) {
      assert t.users[j] == s.users[j];
    }
    ScanFinds(t.users, ByGoogleId(p.id), 0, t.nextId, u.id);
    assert Project(u, {}) == u;
    GoogleKnownUser(t, p);
  }
}
