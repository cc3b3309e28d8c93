/** HTTP status codes of config/constants.ts and the shapes of what a handler sends back. */
module Http {
  import opened Wrappers

  const OK: nat := 200
  const CREATED: nat := 201
  const BAD_REQUEST: nat := 400
  const UNAUTHORIZED: nat := 401
  const FORBIDDEN: nat := 403
  const NOT_FOUND: nat := 404
  const CONFLICT: nat := 409
  const TOO_MANY_REQUESTS: nat := 429
  const INTERNAL_SERVER_ERROR: nat := 500
  const SERVICE_UNAVAILABLE: nat := 503

  /** A JSON value in a request part; only strings and null are told apart by the validators. */
  datatype Value = Str(s: string) | Null | Other

  /** A request part (body, query or params): its keys, in the order they arrived, with their values. */
  type Fields = seq<(string, Value)>

  /** The value of a key, if the part has it: the value at the key's first occurrence. */
  function Lookup(f: Fields, key: string): (r: Option<Value>)
    ensures r.Some? <==> exists i :: 0 <= i < |f| && f[i].0 == key
    ensures r.Some? ==> exists i :: 0 <= i < |f| && f[i] == (key, r.value) && forall k :: 0 <= k < i ==> f[k].0 != key
  {
    if |f| == 0 then None
    else if f[0].0 == key then Some(f[0].1)
    else
      var r := Lookup(f[1..], key);
      if r.Some? then
        var i :| 0 <= i < |f[1..]| && f[1..][i] == (key, r.value) && forall k :: 0 <= k < i ==> f[1..][k].0 != key;
        assert f[i + 1] == (key, r.value) && forall k :: 0 <= k < i + 1 ==> f[k].0 != key by {
          forall k | 0 < k < i + 1 ensures f[k].0 != key { assert f[k] == f[1..][k - 1]; }
        }
        r
      else r
  }

  /** A parsed JSON object names each key once. */
  predicate UniqueKeys(f: Fields) {
    forall i, j :: 0 <= i < j < |f| ==> f[i].0 != f[j].0
  }

  /** On a part with each key once, every key's lookup is its own value. */
  lemma {:induction false} LookupUnique(f: Fields, i: nat)
    requires UniqueKeys(f) && i < |f|
    ensures Lookup(f, f[i].0) == Some(f[i].1)
  {
    if i > 0 {
      assert UniqueKeys(f[1..]) by {
        forall a, b | 0 <= a < b < |f[1..]| ensures f[1..][a].0 != f[1..][b].0 { assert f[1..][a] == f[a + 1] && f[1..][b] == f[b + 1]; }
      }
      LookupUnique(f[1..], i - 1);
      assert f[1..][i - 1] == f[i];
    }
  }

  /** The user summary returned by a successful login. */
  datatype PublicProfile = PublicProfile(id: nat, email: string, firstName: string, lastName: string, businessName: Option<string>)

  datatype Data =
    | NoData
    | Session(accessToken: string, refreshToken: string, user: PublicProfile)
    | Refreshed(accessToken: string)
    | TwoFactorSetup(qrDataUrl: string, secret: string)

  /** `res.status(s).json({success: true, message, data})`, or `res.redirect(location)`. */
  datatype Response = Json(status: nat, message: string, data: Data) | Redirect(location: string)
}
