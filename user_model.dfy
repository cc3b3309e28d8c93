/** The user collection: the record schema with its defaults, required paths, normalised and
    unique keys and hidden paths, and the four operations the authentication core performs on it
    (findOne, findById, create and save). */
module UserModel {
  import opened Wrappers
  import opened Strings
  import opened Errors
  import Mongo
  import Crypto

  type UserId = Crypto.UserId

  /** A stored user record (the profile, bookmark and follower arrays and the timestamps are not
      part of this model). Expiry and login times are milliseconds. */
  datatype User = User(
    id: UserId,
    firstName: string,
    lastName: string,
    email: string,
    password: Option<string>,
    googleId: Option<string>,
    appleId: Option<string>,
    profilePicture: Option<string>,
    businessName: Option<string>,
    emailVerified: bool,
    emailVerificationToken: Option<string>,
    emailVerificationExpires: Option<nat>,
    twoFactorEnabled: bool,
    twoFactorSecret: Option<string>,
    lastLoginAt: Option<nat>)

  /** The paths declared `select: false`: absent from a read unless selected with `+path`. */
  datatype Hidden = PasswordPath | VerificationTokenPath | VerificationExpiresPath | TwoFactorSecretPath

  /** `select('+password +twoFactorSecret')`. */
  const CREDENTIALS: set<Hidden> := {PasswordPath, TwoFactorSecretPath}

  /** The document a read returns: the hidden paths not selected are missing. */
  function Project(u: User, plus: set<Hidden>): User {
    u.(password := if PasswordPath in plus then u.password else None,
       emailVerificationToken := if VerificationTokenPath in plus then u.emailVerificationToken else None,
       emailVerificationExpires := if VerificationExpiresPath in plus then u.emailVerificationExpires else None,
       twoFactorSecret := if TwoFactorSecretPath in plus then u.twoFactorSecret else None)
  }

  /** A default read carries no secret at all; the credential selection restores exactly the
      password and the 2FA secret. */
  lemma ProjectionHidesSecrets(u: User)
    ensures var d := Project(u, {});
      d.password.None? && d.twoFactorSecret.None? && d.emailVerificationToken.None? && d.emailVerificationExpires.None?
      && d.(password := u.password, twoFactorSecret := u.twoFactorSecret,
            emailVerificationToken := u.emailVerificationToken, emailVerificationExpires := u.emailVerificationExpires) == u
    ensures var d := Project(u, CREDENTIALS);
      d.password == u.password && d.twoFactorSecret == u.twoFactorSecret && d.emailVerificationToken.None?
    ensures Project(u, CREDENTIALS) == Project(u, {}).(password := u.password, twoFactorSecret := u.twoFactorSecret)
  {
  }

  /** The `lowercase` and `trim` setters of the email path, applied on assignment and to query values. */
  function NormalizeEmail(s: string): string {
    Trim(Lower(s))
  }

  lemma {:induction false} LowerIdempotent(s: string)
    ensures Lower(Lower(s)) == Lower(s)
  {
    assert forall i :: 0 <= i < |s| ==> LowerChar(LowerChar(s[i])) == LowerChar(s[i]);
  }

  lemma NormalizeEmailIdempotent(s: string)
    ensures NormalizeEmail(NormalizeEmail(s)) == NormalizeEmail(s)
  {
    calc {
      Trim(Lower(Trim(Lower(s))));
      { TrimLower(Trim(Lower(s))); }
      Lower(Trim(Trim(Lower(s))));
      { TrimIdempotent(Lower(s)); }
      Lower(Trim(Lower(s)));
      { TrimLower(s); }
      Lower(Lower(Trim(s)));
      { LowerIdempotent(Trim(s)); }
      Lower(Trim(s));
      { TrimLower(s); }
      Trim(Lower(s));
    }
  }

  /** The query filters the core uses. A missing e-mail value matches no record. */
  datatype Filter =
    | ByEmail(email: Option<string>)
    | ByGoogleId(googleId: string)
    /** `{emailVerificationToken: hash, emailVerificationExpires: {$gt: now}}` */
    | ByVerification(hash: string, now: nat)

  predicate Matches(u: User, f: Filter) {
    match f
    case ByEmail(e) => e.Some? && u.email == NormalizeEmail(e.value)
    case ByGoogleId(g) => u.googleId == Some(g)
    case ByVerification(h, now) =>
      u.emailVerificationToken == Some(h) && u.emailVerificationExpires.Some? && u.emailVerificationExpires.value > now
  }

  /** The collection: its records by id, the next id to hand out (ids grow with insertion, so
      id order is the natural order), and whether the database can be reached. */
  datatype Store = Store(users: map<UserId, User>, nextId: nat, available: bool)

  /** The first id in `[lo, hi)` whose record matches. */
  function Scan(users: map<UserId, User>, f: Filter, lo: nat, hi: nat): (r: Option<UserId>)
    decreases hi - lo
    ensures r.Some? ==> lo <= r.value < hi && r.value in users && Matches(users[r.value], f)
    ensures r.Some? ==> forall k :: lo <= k < r.value && k in users ==> !Matches(users[k], f)
    ensures r.None? ==> forall k :: lo <= k < hi && k in users ==> !Matches(users[k], f)
  {
    if lo >= hi then None
    else if lo in users && Matches(users[lo], f) then Some(lo)
    else Scan(users, f, lo + 1, hi)
  }

  function First(s: Store, f: Filter): Option<UserId> {
    Scan(s.users, f, 0, s.nextId)
  }

  /** `findOne({email: undefined})`: the driver sends the undefined value as null, which no stored
      record's required email equals, so the lookup finds nothing. */
  lemma NoAddressMatchesNothing(s: Store)
    ensures First(s, ByEmail(None)).None?
  {
  }

  /** Every record has its own id, below the next one, and satisfies the schema; email is unique,
      and googleId and appleId are unique among the records that have one. */
  ghost predicate Invariant(s: Store) {
    RecordsWellFormed(s) && UniqueEmails(s.users) && UniqueGoogleIds(s.users) && UniqueAppleIds(s.users)
  }

  ghost predicate RecordsWellFormed(s: Store) {
    forall k :: k in s.users ==> k < s.nextId && s.users[k].id == k && WellFormed(s.users[k])
  }

  ghost predicate UniqueEmails(users: map<UserId, User>) {
    forall j, k :: j in users && k in users && j != k ==> users[j].email != users[k].email
  }

  ghost predicate UniqueGoogleIds(users: map<UserId, User>) {
    forall j, k :: j in users && k in users && j != k && users[j].googleId.Some? ==> users[j].googleId != users[k].googleId
  }

  ghost predicate UniqueAppleIds(users: map<UserId, User>) {
    forall j, k :: j in users && k in users && j != k && users[j].appleId.Some? ==> users[j].appleId != users[k].appleId
  }

  /** The required paths are non-empty. */
  predicate WellFormed(u: User) {
    u.firstName != "" && u.lastName != "" && u.email != ""
  }

  /** In a consistent store, `findOne` returns the record with the smallest id among all that
      match, and nothing exactly when none matches. */
  lemma FirstIsSmallestMatch(s: Store, f: Filter)
    requires Invariant(s)
    ensures First(s, f).None? <==> forall k :: k in s.users ==> !Matches(s.users[k], f)
    ensures First(s, f).Some? ==> var id := First(s, f).value;
      id in s.users && Matches(s.users[id], f) && forall k :: k in s.users && k < id ==> !Matches(s.users[k], f)
  {
  }

  /** A matching record with no earlier match is the one the scan returns. */
  lemma {:induction false} ScanFinds(users: map<UserId, User>, f: Filter, lo: nat, hi: nat, k: UserId)
    requires lo <= k < hi && k in users && Matches(users[k], f)
    requires forall j :: lo <= j < k && j in users ==> !Matches(users[j], f)
    ensures Scan(users, f, lo, hi) == Some(k)
  {
    var r := Scan(users, f, lo, hi);
    assert r.Some? && !(r.value < k) && !(k < r.value);
  }

  /** One user at most matches an e-mail filter. */
  lemma EmailFilterMatchesOne(s: Store, e: string, j: UserId, k: UserId)
    requires Invariant(s)
    requires j in s.users && k in s.users && Matches(s.users[j], ByEmail(Some(e))) && Matches(s.users[k], ByEmail(Some(e)))
    ensures j == k
  {
  }

  /** In a consistent store, looking up a stored record's address by any spelling finds that record. */
  lemma FirstByEmail(s: Store, k: UserId, email: string)
    requires Invariant(s) && k in s.users && s.users[k].email == NormalizeEmail(email)
    ensures First(s, ByEmail(Some(email))) == Some(k)
  {
    var f := ByEmail(Some(email));
    FirstIsSmallestMatch(s, f);
    EmailFilterMatchesOne(s, email, First(s, f).value, k);
  }

  /** `Model.findOne(filter).select(...)`. */
  function FindOne(s: Store, f: Filter, plus: set<Hidden>): (r: Result<Option<User>, Thrown>)
    ensures r.Failure? <==> !s.available
    ensures r.Success? && r.value.Some? ==> First(s, f).Some? && r.value.value == Project(s.users[First(s, f).value], plus)
    ensures r.Success? ==> (r.value.None? <==> First(s, f).None?)
  {
    if !s.available then Failure(Mongo.Unavailable())
    else match First(s, f)
      case None => Success(None)
      case Some(id) => Success(Some(Project(s.users[id], plus)))
  }

  /** `Model.findById(id)` with the default projection. */
  function FindById(s: Store, id: UserId): (r: Result<Option<User>, Thrown>)
    ensures r.Failure? <==> !s.available
    ensures r.Success? ==> (r.value.Some? <==> id in s.users)
    ensures r.Success? && r.value.Some? ==> r.value.value == Project(s.users[id], {})
  {
    if !s.available then Failure(Mongo.Unavailable())
    else if id in s.users then Success(Some(Project(s.users[id], {})))
    else Success(None)
  }

  /** The fields handed to `Model.create`; absent ones take the schema's defaults. */
  datatype Draft = Draft(
    firstName: Option<string>,
    lastName: Option<string>,
    email: Option<string>,
    password: Option<string>,
    googleId: Option<string>,
    profilePicture: Option<string>,
    emailVerified: Option<bool>,
    emailVerificationToken: Option<string>,
    emailVerificationExpires: Option<nat>)

  /** A required string path fails validation when absent or empty (after its setters). */
  predicate Blank(v: Option<string>) {
    v.None? || v.value == ""
  }

  /** The required paths a draft leaves blank, in schema order. */
  function MissingPaths(d: Draft): (r: seq<string>)
    ensures |r| <= 3
    ensures "firstName" in r <==> Blank(d.firstName)
    ensures "lastName" in r <==> Blank(d.lastName)
    ensures "email" in r <==> d.email.None? || NormalizeEmail(d.email.value) == ""
  {
    (if Blank(d.firstName) then ["firstName"] else [])
    + (if Blank(d.lastName) then ["lastName"] else [])
    + (if d.email.None? || NormalizeEmail(d.email.value) == "" then ["email"] else [])
  }

  function FromDraft(d: Draft, id: UserId): User
    requires MissingPaths(d) == []
  {
    User(id, d.firstName.value, d.lastName.value, NormalizeEmail(d.email.value), d.password, d.googleId, None,
         d.profilePicture, None, d.emailVerified.GetOr(false), d.emailVerificationToken,
         d.emailVerificationExpires, false, None, None)
  }

  predicate EmailTaken(users: map<UserId, User>, email: string) {
    exists k :: k in users && users[k].email == email
  }

  predicate GoogleIdTaken(users: map<UserId, User>, googleId: string, except: Option<UserId>) {
    exists k :: k in users && Some(k) != except && users[k].googleId == Some(googleId)
  }

  /** `Model.create(draft)`: validation first, then the insert, which the unique indexes on email
      and googleId may refuse. */
  function CreateOutcome(s: Store, d: Draft): Result<User, Thrown> {
    var missing := MissingPaths(d);
    if |missing| > 0 then Failure(Mongo.RequiredPaths(missing))
    else if !s.available then Failure(Mongo.Unavailable())
    else
      var u := FromDraft(d, s.nextId);
      if EmailTaken(s.users, u.email) then Failure(Mongo.DuplicateKey("email"))
      else if u.googleId.Some? && GoogleIdTaken(s.users, u.googleId.value, None) then Failure(Mongo.DuplicateKey("googleId"))
      else Success(u)
  }

  function Inserted(s: Store, u: User): Store {
    Store(s.users[u.id := u], s.nextId + 1, s.available)
  }

  /** A created record has a fresh id, the normalised email, the given names and password hash, and
      the schema defaults: not verified unless the draft says so, 2FA off and no secret. */
  lemma CreateDefaults(s: Store, d: Draft)
    requires Invariant(s)
    requires CreateOutcome(s, d).Success?
    ensures var u := CreateOutcome(s, d).value;
      && u.id !in s.users && u.id == s.nextId
      && Some(u.firstName) == d.firstName && Some(u.lastName) == d.lastName
      && u.email == NormalizeEmail(d.email.value) && u.password == d.password && u.googleId == d.googleId
      && u.emailVerified == (d.emailVerified == Some(true))
      && !u.twoFactorEnabled && u.twoFactorSecret.None? && u.lastLoginAt.None?
  {
  }

  /** A record whose normalised email is already stored is refused, and so is a blank required path. */
  lemma CreateRefusals(s: Store, d: Draft)
    ensures MissingPaths(d) != [] ==> CreateOutcome(s, d) == Failure(Mongo.RequiredPaths(MissingPaths(d)))
    ensures MissingPaths(d) == [] && s.available && EmailTaken(s.users, NormalizeEmail(d.email.value)) ==>
      CreateOutcome(s, d) == Failure(Mongo.DuplicateKey("email"))
  {
  }

  /** Any number of records may lack a googleId: one without it is refused only for its email. */
  lemma SparseGoogleId(s: Store, d: Draft)
    requires s.available && MissingPaths(d) == [] && d.googleId.None?
    requires !EmailTaken(s.users, NormalizeEmail(d.email.value))
    ensures CreateOutcome(s, d).Success?
  {
  }

  lemma CreatePreservesInvariant(s: Store, d: Draft)
    requires Invariant(s)
    requires CreateOutcome(s, d).Success?
    ensures Invariant(Inserted(s, CreateOutcome(s, d).value))
  {
    InsertFreshRecord(s, CreateOutcome(s, d).value);
  }

  /** Emails are stored in their normalised form. */
  ghost predicate EmailsNormalized(s: Store) {
    forall k :: k in s.users ==> NormalizeEmail(s.users[k].email) == s.users[k].email
  }

  lemma CreateKeepsEmailsNormalized(s: Store, d: Draft)
    requires EmailsNormalized(s)
    requires CreateOutcome(s, d).Success?
    ensures EmailsNormalized(Inserted(s, CreateOutcome(s, d).value))
  {
    var u := CreateOutcome(s, d).value;
    CreatedRecord(s, d);
    NormalizeEmailIdempotent(d.email.value);
    InsertNormalized(s, u);
  }

  /** A successful create inserts the draft's record under the next id. */
  lemma CreatedRecord(s: Store, d: Draft)
    requires CreateOutcome(s, d).Success?
    ensures MissingPaths(d) == [] && s.available
    ensures CreateOutcome(s, d).value == FromDraft(d, s.nextId)
    ensures !EmailTaken(s.users, FromDraft(d, s.nextId).email)
  {
  }

  lemma InsertNormalized(s: Store, u: User)
    requires EmailsNormalized(s) && NormalizeEmail(u.email) == u.email
    ensures EmailsNormalized(Inserted(s, u))
  {
    var t := Inserted(s, u);
    forall k | k in t.users ensures NormalizeEmail(t.users[k].email) == t.users[k].email {
      if k != u.id { assert t.users[k] == s.users[k]; }
    }
  }

  lemma SaveKeepsEmailsNormalized(s: Store, doc: User, dirty: set<Path>)
    requires EmailsNormalized(s)
    requires SaveOutcome(s, doc, dirty).Success?
    ensures EmailsNormalized(SaveOutcome(s, doc, dirty).value)
  {
  }

  /** A record created with one spelling of an address is found by any spelling that normalises
      to the same string. */
  lemma EmailLookupNormalizes(s: Store, d: Draft, query: string)
    requires CreateOutcome(s, d).Success?
    ensures var u := CreateOutcome(s, d).value;
      Matches(u, ByEmail(Some(query))) <==> NormalizeEmail(query) == NormalizeEmail(d.email.value)
  {
    CreatedRecord(s, d);
    assert CreateOutcome(s, d).value.email == NormalizeEmail(d.email.value);
  }

  lemma InsertFreshRecord(s: Store, u: User)
    requires Invariant(s)
    requires u.id == s.nextId && WellFormed(u) && u.appleId.None?
    requires !EmailTaken(s.users, u.email)
    requires u.googleId.Some? ==> !GoogleIdTaken(s.users, u.googleId.value, None)
    ensures Invariant(Inserted(s, u))
  {
    var t := Inserted(s, u);
    forall k | k in t.users ensures k < t.nextId && t.users[k].id == k && WellFormed(t.users[k]) {
      if k != u.id { assert t.users[k] == s.users[k]; }
    }
    forall j, k | j in t.users && k in t.users && j != k ensures t.users[j].email != t.users[k].email {
      if j == u.id { assert s.users[k].email != u.email; }
      else if k == u.id { assert s.users[j].email != u.email; }
    }
    forall j, k | j in t.users && k in t.users && j != k && t.users[j].googleId.Some?
      ensures t.users[j].googleId != t.users[k].googleId
    {
      if j == u.id { assert s.users[k].googleId != u.googleId; }
      else if k == u.id { assert s.users[j].googleId != u.googleId; }
    }
  }

  /** `user.id`: the string form of an id, in decimal. */
  function IdString(id: UserId): (r: string)
    ensures r != ""
  {
    NatToString(id)
  }

  /** The paths handlers assign before `save()`. */
  datatype Path = LastLoginAt | EmailVerified | VerificationToken | VerificationExpires
                | TwoFactorEnabled | TwoFactorSecret | GoogleId | ProfilePicture

  /** What `save()` writes: the modified paths of the document over the stored record. */
  function Overlay(stored: User, doc: User, dirty: set<Path>): User {
    stored.(
      lastLoginAt := if LastLoginAt in dirty then doc.lastLoginAt else stored.lastLoginAt,
      emailVerified := if EmailVerified in dirty then doc.emailVerified else stored.emailVerified,
      emailVerificationToken := if VerificationToken in dirty then doc.emailVerificationToken else stored.emailVerificationToken,
      emailVerificationExpires := if VerificationExpires in dirty then doc.emailVerificationExpires else stored.emailVerificationExpires,
      twoFactorEnabled := if TwoFactorEnabled in dirty then doc.twoFactorEnabled else stored.twoFactorEnabled,
      twoFactorSecret := if TwoFactorSecret in dirty then doc.twoFactorSecret else stored.twoFactorSecret,
      googleId := if GoogleId in dirty then doc.googleId else stored.googleId,
      profilePicture := if ProfilePicture in dirty then doc.profilePicture else stored.profilePicture)
  }

  /** `doc.save()` on a document read earlier. */
  function SaveOutcome(s: Store, doc: User, dirty: set<Path>): Result<Store, Thrown> {
    if !s.available then Failure(Mongo.Unavailable())
    else if doc.id !in s.users then Failure(Mongo.DocumentNotFound())
    else
      var merged := Overlay(s.users[doc.id], doc, dirty);
      if GoogleId in dirty && merged.googleId.Some? && GoogleIdTaken(s.users, merged.googleId.value, Some(doc.id)) then
        Failure(Mongo.DuplicateKey("googleId"))
      else Success(s.(users := s.users[doc.id := merged]))
  }

  /** A successful save changes only the saved record, and in it only the modified paths, which
      take the document's values; a read with hidden paths missing therefore does not erase them. */
  lemma SaveWritesOnlyDirtyPaths(s: Store, doc: User, dirty: set<Path>)
    requires SaveOutcome(s, doc, dirty).Success?
    ensures var t := SaveOutcome(s, doc, dirty).value;
      && t.nextId == s.nextId && t.available == s.available && t.users.Keys == s.users.Keys
      && (forall k :: k in s.users && k != doc.id ==> t.users[k] == s.users[k])
      && var old_, new_ := s.users[doc.id], t.users[doc.id];
      && new_.(lastLoginAt := old_.lastLoginAt, emailVerified := old_.emailVerified,
               emailVerificationToken := old_.emailVerificationToken,
               emailVerificationExpires := old_.emailVerificationExpires,
               twoFactorEnabled := old_.twoFactorEnabled, twoFactorSecret := old_.twoFactorSecret,
               googleId := old_.googleId, profilePicture := old_.profilePicture) == old_
      && (LastLoginAt in dirty ==> new_.lastLoginAt == doc.lastLoginAt)
      && (EmailVerified in dirty ==> new_.emailVerified == doc.emailVerified)
      && (VerificationToken in dirty ==> new_.emailVerificationToken == doc.emailVerificationToken)
      && (VerificationExpires in dirty ==> new_.emailVerificationExpires == doc.emailVerificationExpires)
      && (TwoFactorEnabled in dirty ==> new_.twoFactorEnabled == doc.twoFactorEnabled)
      && (TwoFactorSecret in dirty ==> new_.twoFactorSecret == doc.twoFactorSecret)
      && (GoogleId in dirty ==> new_.googleId == doc.googleId)
      && (ProfilePicture in dirty ==> new_.profilePicture == doc.profilePicture)
      && (dirty == {} ==> t == s)
  {
  }

  /** Saving a read of a record with only lastLoginAt modified stamps that record and nothing else. */
  lemma SaveLastLogin(s: Store, k: UserId, plus: set<Hidden>, now: nat)
    requires RecordsWellFormed(s) && s.available && k in s.users
    ensures SaveOutcome(s, Project(s.users[k], plus).(lastLoginAt := Some(now)), {LastLoginAt})
      == Success(s.(users := s.users[k := s.users[k].(lastLoginAt := Some(now))]))
  {
    var doc := Project(s.users[k], plus).(lastLoginAt := Some(now));
    assert doc.id == k;
    assert Overlay(s.users[k], doc, {LastLoginAt}) == s.users[k].(lastLoginAt := Some(now));
  }

  lemma SavePreservesInvariant(s: Store, doc: User, dirty: set<Path>)
    requires Invariant(s)
    requires SaveOutcome(s, doc, dirty).Success?
    ensures Invariant(SaveOutcome(s, doc, dirty).value)
  {
    var old_ := s.users[doc.id];
    var m := Overlay(old_, doc, dirty);
    assert (m.id, m.firstName, m.lastName, m.email, m.appleId) == (old_.id, old_.firstName, old_.lastName, old_.email, old_.appleId);
    assert m.googleId.Some? && m.googleId != old_.googleId ==> !GoogleIdTaken(s.users, m.googleId.value, Some(doc.id));
    ReplaceRecord(s, m);
  }

  lemma ReplaceRecord(s: Store, m: User)
    requires Invariant(s)
    requires m.id in s.users
    requires var o := s.users[m.id]; (m.firstName, m.lastName, m.email, m.appleId) == (o.firstName, o.lastName, o.email, o.appleId)
    requires m.googleId.Some? && m.googleId != s.users[m.id].googleId ==> !GoogleIdTaken(s.users, m.googleId.value, Some(m.id))
    ensures Invariant(s.(users := s.users[m.id := m]))
  {
    var t := s.(users := s.users[m.id := m]);
    forall k | k in t.users ensures k < t.nextId && t.users[k].id == k && WellFormed(t.users[k]) {
      if k != m.id { assert t.users[k] == s.users[k]; }
    }
    forall j, k | j in t.users && k in t.users && j != k ensures t.users[j].email != t.users[k].email {
      if j == m.id { assert s.users[j].email != s.users[k].email; }
      else if k == m.id { assert s.users[j].email != s.users[k].email; }
    }
    forall j, k | j in t.users && k in t.users && j != k && t.users[j].googleId.Some?
      ensures t.users[j].googleId != t.users[k].googleId
    {
      if j == m.id { assert t.users[k] == s.users[k]; }
      else if k == m.id { assert t.users[j] == s.users[j]; }
    }
    forall j, k | j in t.users && k in t.users && j != k && t.users[j].appleId.Some?
      ensures t.users[j].appleId != t.users[k].appleId
    {
      if j == m.id { assert s.users[j].appleId != s.users[k].appleId; }
      else if k == m.id { assert s.users[j].appleId != s.users[k].appleId; }
    }
  }

  /** A record has its 2FA secret exactly when 2FA is enabled. */
  ghost predicate TwoFactorConsistent(s: Store) {
    forall k :: k in s.users ==> (s.users[k].twoFactorSecret.Some? <==> s.users[k].twoFactorEnabled)
  }

  lemma CreateKeepsTwoFactorConsistent(s: Store, d: Draft)
    requires TwoFactorConsistent(s)
    requires CreateOutcome(s, d).Success?
    ensures TwoFactorConsistent(Inserted(s, CreateOutcome(s, d).value))
  {
    CreatedRecord(s, d);
    var u := FromDraft(d, s.nextId);
    var t := Inserted(s, u);
    forall k | k in t.users ensures t.users[k].twoFactorSecret.Some? <==> t.users[k].twoFactorEnabled {
      if k != u.id { assert t.users[k] == s.users[k]; }
    }
  }

  /** The collection object the handlers share. */
  class UserCollection {
    var users: map<UserId, User>
    var nextId: nat
    const available: bool

    function State(): Store
      reads this
    {
      Store(users, nextId, available)
    }

    constructor (available: bool)
      ensures State() == Store(map[], 0, available)
    {
      users := map[];
      nextId := 0;
      this.available := available;
    }

    method Create(d: Draft) returns (r: Result<User, Thrown>)
      modifies this
      ensures r == CreateOutcome(old(State()), d)
      ensures State() == if r.Success? then Inserted(old(State()), r.value) else old(State())
    {
      r := CreateOutcome(State(), d);
      if r.Success? {
        users := users[r.value.id := r.value];
        nextId := nextId + 1;
      }
    }

    method Save(doc: User, dirty: set<Path>) returns (r: Outcome<Thrown>)
      modifies this
      ensures var o := SaveOutcome(old(State()), doc, dirty);
        && (r.Pass? <==> o.Success?)
        && (r.Fail? ==> r.error == o.error)
        && State() == if o.Success? then o.value else old(State())
    {
      var o := SaveOutcome(State(), doc, dirty);
      if o.Success? {
        users := o.value.users;
        r := Pass;
      } else {
        r := Fail(o.error);
      }
    }
  }
}
