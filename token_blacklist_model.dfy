/** The revocation collection: one entry per revoked token string, with its kind, owner and
    expiry, removable once expired. */
module TokenBlacklistModel {
  import opened Wrappers
  import opened Errors
  import Mongo
  import Crypto

  datatype Entry = Entry(token: string, kind: Crypto.TokenKind, userId: string, expiresAt: nat, createdAt: nat)

  /** The collection's entries keyed by token; `available` says the database can be reached. */
  datatype Blacklist = Blacklist(entries: map<string, Entry>, available: bool)

  /** The schema constraints: the key is the entry's token, and token and userId are present. The
      kind is one of the two enum values by construction. */
  ghost predicate Keyed(b: Blacklist) {
    forall t :: t in b.entries ==> b.entries[t].token == t && t != "" && b.entries[t].userId != ""
  }

  /** The required string paths an entry leaves empty, in schema order. */
  function MissingPaths(token: string, userId: string): (r: seq<string>)
    ensures r == [] <==> token != "" && userId != ""
  {
    (if token == "" then ["token"] else []) + (if userId == "" then ["userId"] else [])
  }

  /** `TokenBlacklist.create({token, type, userId, expiresAt})` at `now`: validation, then the
      insert, which the unique index on token refuses for a token already present. */
  function CreateOutcome(b: Blacklist, token: string, kind: Crypto.TokenKind, userId: string, expiresAt: nat, now: nat): Result<Entry, Thrown> {
    var missing := MissingPaths(token, userId);
    if |missing| > 0 then Failure(Mongo.RequiredPaths(missing))
    else if !b.available then Failure(Mongo.Unavailable())
    else if token in b.entries then Failure(Mongo.DuplicateKey("token"))
    else Success(Entry(token, kind, userId, expiresAt, now))
  }

  function Inserted(b: Blacklist, e: Entry): Blacklist {
    b.(entries := b.entries[e.token := e])
  }

  /** `deleteMany({expiresAt: {$lt: now}})`: the entries kept. */
  function Swept(entries: map<string, Entry>, now: nat): map<string, Entry> {
    map t | t in entries && entries[t].expiresAt >= now :: entries[t]
  }

  /** The TTL index (expireAfterSeconds 0) lets the server remove an entry only once its expiry has
      passed; which eligible entries are gone at a given moment is not determined. */
  predicate Expired(e: Entry, now: nat) {
    e.expiresAt < now
  }

  lemma CreatePreservesKeyed(b: Blacklist, token: string, kind: Crypto.TokenKind, userId: string, expiresAt: nat, now: nat)
    requires Keyed(b)
    requires CreateOutcome(b, token, kind, userId, expiresAt, now).Success?
    ensures Keyed(Inserted(b, CreateOutcome(b, token, kind, userId, expiresAt, now).value))
  {
  }

  /** The sweep keeps exactly the entries not yet expired, unchanged, and preserves the constraints. */
  lemma SweepIsExact(b: Blacklist, now: nat)
    ensures forall t :: t in Swept(b.entries, now) <==> t in b.entries && !Expired(b.entries[t], now)
    ensures forall t :: t in Swept(b.entries, now) ==> Swept(b.entries, now)[t] == b.entries[t]
    ensures Keyed(b) ==> Keyed(b.(entries := Swept(b.entries, now)))
  {
  }

  /** Sweeping twice at the same moment removes nothing more than sweeping once. */
  lemma SweepIdempotent(entries: map<string, Entry>, now: nat)
    ensures Swept(Swept(entries, now), now) == Swept(entries, now)
  {
  }

  /** A sweep at a later moment subsumes an earlier one. */
  lemma SweepMonotone(entries: map<string, Entry>, earlier: nat, later: nat)
    requires earlier <= later
    ensures Swept(Swept(entries, earlier), later) == Swept(entries, later)
  {
  }

  /** The class the revocation service writes through. */
  class BlacklistCollection {
    var entries: map<string, Entry>
    const available: bool

    function State(): Blacklist
      reads this
    {
      Blacklist(entries, available)
    }

    constructor (available: bool)
      ensures State() == Blacklist(map[], available)
    {
      entries := map[];
      this.available := available;
    }

    method Create(token: string, kind: Crypto.TokenKind, userId: string, expiresAt: nat, now: nat) returns (r: Result<Entry, Thrown>)
      modifies this
      ensures r == CreateOutcome(old(State()), token, kind, userId, expiresAt, now)
      ensures State() == if r.Success? then Inserted(old(State()), r.value) else old(State())
    {
      r := CreateOutcome(State(), token, kind, userId, expiresAt, now);
      if r.Success? {
        entries := entries[token := r.value];
      }
    }

    /** `findOne({token})` */
    function FindOne(token: string): (r: Result<Option<Entry>, Thrown>)
      reads this
      ensures r.Failure? <==> !available
      ensures r.Success? ==> (r.value.Some? <==> token in entries)
      ensures r.Success? && r.value.Some? ==> r.value.value == entries[token]
    {
      if !available then Failure(Mongo.Unavailable())
      else if token in entries then Success(Some(entries[token]))
      else Success(None)
    }

    /** `deleteMany({expiresAt: {$lt: now}})` */
    method DeleteExpired(now: nat) returns (r: Outcome<Thrown>)
      modifies this
      ensures r.Fail? <==> !available
      ensures entries == if available then Swept(old(entries), now) else old(entries)
    {
      if !available {
        return Fail(Mongo.Unavailable());
      }
      entries := Swept(entries, now);
      r := Pass;
    }

    /** The TTL monitor running at `now` and removing some of the expired entries. */
    method Reap(now: nat, victims: set<string>)
      requires forall t :: t in victims && t in entries ==> Expired(entries[t], now)
      modifies this
      ensures entries == map t | t in old(entries) && t !in victims :: old(entries)[t]
      ensures forall t :: t in old(entries) && !Expired(old(entries)[t], now) ==> t in entries
    {
      entries := map t | t in entries && t !in victims :: entries[t];
    }
  }
}
