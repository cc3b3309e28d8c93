/** `validateRequest` of middleware/validation.ts: validate body, query and params against the
    schemas given, collect every detail with its location, and throw one ValidationError when
    any was found. */
module Validation {
  import opened Wrappers
  import opened Strings
  import opened Http
  import opened Errors
  import opened Joi

  /** The `{body?, query?, params?}` argument. */
  datatype RequestSchema = RequestSchema(body: Option<ObjectSchema>, query: Option<ObjectSchema>, params: Option<ObjectSchema>)

  /** `{field: detail.path.join('.'), message: detail.message, location}` */
  function Located(d: Detail, location: string): Issue {
    Issue(Join(d.path, "."), d.message, Some(location))
  }

  /** `details.map(...)`: every detail, in order, with the location attached. */
  function LocateAll(ds: seq<Detail>, location: string): (issues: seq<Issue>)
    ensures |issues| == |ds|
    ensures forall i :: 0 <= i < |ds| ==> issues[i] == Located(ds[i], location)
  {
    if |ds| == 0 then [] else [Located(ds[0], location)] + LocateAll(ds[1..], location)
  }

  /** What one part contributes: nothing without a schema. */
  function PartIssues(schema: Option<ObjectSchema>, part: Fields, location: string): (issues: seq<Issue>)
    ensures schema.None? ==> issues == []
    ensures forall i :: 0 <= i < |issues| ==> issues[i].location == Some(location)
  {
    if schema.None? then [] else LocateAll(ObjectErrors(schema.value, part), location)
  }

  /** The `errors` array once the three blocks have run. */
  function Collected(schema: RequestSchema, body: Fields, query: Fields, params: Fields): seq<Issue> {
    PartIssues(schema.body, body, "body") + PartIssues(schema.query, query, "query")
      + PartIssues(schema.params, params, "params")
  }

  const VALIDATION_FAILED := "Validation failed"

  /** What becomes of the request: `next()`, or the thrown ValidationError. */
  function Verdict(errors: seq<Issue>): Next {
    if |errors| > 0 then Forward(App(ValidationError(VALIDATION_FAILED, IssueList(errors)))) else Continue
  }

  /** `errors.push(...details.map(...))` */
  method PushLocated(errors: seq<Issue>, details: seq<Detail>, location: string) returns (r: seq<Issue>)
    ensures r == errors + LocateAll(details, location)
  {
    r := errors;
    var i := 0;
    while i < |details|
      invariant 0 <= i <= |details|
      invariant |r| == |errors| + i && r[..|errors|] == errors
      invariant forall k :: 0 <= k < i ==> r[|errors| + k] == Located(details[k], location)
    {
      r := r + [Located(details[i], location)];
      i := i + 1;
    }
    assert r == errors + LocateAll(details, location) by {
      forall k | |errors| <= k < |r| ensures r[k] == (errors + LocateAll(details, location))[k] {
        assert r[|errors| + (k - |errors|)] == Located(details[k - |errors|], location);
      }
    }
  }

  /** The middleware. The request is only read: values Joi would convert are not written back. */
  method ValidateRequest(schema: RequestSchema, body: Fields, query: Fields, params: Fields)
    returns (next: Next)
    ensures next == Verdict(Collected(schema, body, query, params))
  {
    var errors := [];
    if schema.body.Some? {
      var details := ObjectErrors(schema.body.value, body);
      if |details| > 0 {
        errors := PushLocated(errors, details, "body");
      }
    }
    assert errors == PartIssues(schema.body, body, "body");
    ghost var before := errors;
    if schema.query.Some? {
      var details := ObjectErrors(schema.query.value, query);
      if |details| > 0 {
        errors := PushLocated(errors, details, "query");
      }
    }
    assert errors == before + PartIssues(schema.query, query, "query");
    before := errors;
    if schema.params.Some? {
      var details := ObjectErrors(schema.params.value, params);
      if |details| > 0 {
        errors := PushLocated(errors, details, "params");
      }
    }
    assert errors == before + PartIssues(schema.params, params, "params");
    assert errors == Collected(schema, body, query, params);
    if |errors| > 0 {
      next := Forward(App(ValidationError(VALIDATION_FAILED, IssueList(errors))));
    } else {
      next := Continue;
    }
  }

  /** A part passes when it has no schema or its schema accepts it. */
  predicate PartAccepts(schema: Option<ObjectSchema>, part: Fields) {
    schema.None? || ObjectAccepts(schema.value, part)
  }

  /** The request goes on exactly when every part with a schema is accepted by it. */
  lemma ContinuesIff(schema: RequestSchema, body: Fields, query: Fields, params: Fields)
    ensures Verdict(Collected(schema, body, query, params)).Continue?
      <==> PartAccepts(schema.body, body) && PartAccepts(schema.query, query) && PartAccepts(schema.params, params)
  {
    if schema.body.Some? { ObjectErrorsIff(schema.body.value, body); }
    if schema.query.Some? { ObjectErrorsIff(schema.query.value, query); }
    if schema.params.Some? { ObjectErrorsIff(schema.params.value, params); }
  }

  /** Any detail on the body stops the request. */
  lemma BodyErrorsStop(schema: RequestSchema, body: Fields, query: Fields, params: Fields)
    requires schema.body.Some? && ObjectErrors(schema.body.value, body) != []
    ensures Verdict(Collected(schema, body, query, params)).Forward?
  {
    assert |PartIssues(schema.body, body, "body")| > 0;
  }

  /** A failure carries all the issues, as a 400 with code VALIDATION_ERROR. */
  lemma FailureCarriesIssues(errors: seq<Issue>)
    requires |errors| > 0
    ensures Verdict(errors).Forward? && Verdict(errors).err.App?
    ensures var e := Verdict(errors).err.err;
      e.cls == ValidationErrorClass && e.statusCode == 400 && e.code == "VALIDATION_ERROR"
      && e.message == "Validation failed" && e.details == IssueList(errors)
  {
  }

  function Rank(location: Option<string>): nat {
    if location == Some("body") then 0 else if location == Some("query") then 1 else 2
  }

  /** Body issues come first, then query issues, then params issues. */
  lemma CollectedInOrder(schema: RequestSchema, body: Fields, query: Fields, params: Fields, i: nat, j: nat)
    requires i <= j < |Collected(schema, body, query, params)|
    ensures var c := Collected(schema, body, query, params);
      Rank(c[i].location) <= Rank(c[j].location)
  {
    PartsInOrder(PartIssues(schema.body, body, "body"), PartIssues(schema.query, query, "query"),
                 PartIssues(schema.params, params, "params"), i, j);
  }

  lemma PartsInOrder(b: seq<Issue>, q: seq<Issue>, p: seq<Issue>, i: nat, j: nat)
    requires forall k :: 0 <= k < |b| ==> b[k].location == Some("body")
    requires forall k :: 0 <= k < |q| ==> q[k].location == Some("query")
    requires forall k :: 0 <= k < |p| ==> p[k].location == Some("params")
    requires i <= j < |b + q + p|
    ensures Rank((b + q + p)[i].location) <= Rank((b + q + p)[j].location)
  {
    var c := b + q + p;
    assert forall k :: 0 <= k < |b| ==> c[k] == b[k];
    assert forall k :: |b| <= k < |b| + |q| ==> c[k] == q[k - |b|];
    assert forall k :: |b| + |q| <= k < |c| ==> c[k] == p[k - |b| - |q|];
  }

  /** A key error on a body key is reported under that key's name, located in the body. */
  lemma BodyKeyIssue(schema: RequestSchema, body: Fields, query: Fields, params: Fields, d: Detail, key: string)
    requires schema.body.Some? && d in ObjectErrors(schema.body.value, body) && d.path == [key]
    ensures Issue(key, d.message, Some("body")) in Collected(schema, body, query, params)
  {
    var ds := ObjectErrors(schema.body.value, body);
    var k :| 0 <= k < |ds| && ds[k] == d;
    assert PartIssues(schema.body, body, "body")[k] == Located(d, "body");
  }
}
