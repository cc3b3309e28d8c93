/** The error-to-response mapping of the Express error middleware, and the 404 handler. */
module ErrorHandler {
  import opened Wrappers
  import opened Http
  import opened Errors
  import Env
  import Crypto

  /** The response body `{success: false, message, error: {code, details?, stack?}}` with its status;
      `details == NoDetails` means the key is absent. */
  datatype ErrorResponse = ErrorResponse(status: nat, message: string, code: string, details: Details, stack: Option<string>)

  /** The four variables the handler settles on before building the response. */
  datatype Classified = Classified(status: nat, message: string, code: string, details: Details)

  /** `Object.keys(keyPattern)[0]`. A duplicate-key error always names the key it violated, so the
      pattern is never empty in practice. For an empty one the model writes the string "undefined".
      That matches the message the handler builds, but JSON serialisation would drop the `field` entry
      rather than send that string. */
  function FirstKey(keyPattern: seq<string>): string {
    if |keyPattern| == 0 then "undefined" else keyPattern[0]
  }

  function MulterMessage(code: string): string {
    if code == "LIMIT_FILE_SIZE" then "File too large"
    else if code == "LIMIT_FILE_COUNT" then "Too many files"
    else if code == "LIMIT_UNEXPECTED_FILE" then "Unexpected file field"
    else "File upload error"
  }

  function FieldIssues(errors: seq<PathError>): (r: seq<Issue>)
    ensures |r| == |errors|
    ensures forall i :: 0 <= i < |r| ==> r[i] == Issue(errors[i].path, errors[i].message, None)
  {
    if |errors| == 0 then [] else [Issue(errors[0].path, errors[0].message, None)] + FieldIssues(errors[1..])
  }

  /** The if/else chain: AppError first, then the error's `name`; anything unrecognised keeps the
      500 defaults. */
  function Classify(e: Thrown): Classified {
    match e
    case App(a) => Classified(a.statusCode, a.message, a.code, a.details)
    case Raw(name, _, info) =>
      if name == "ValidationError" then
        Classified(BAD_REQUEST, "Validation error", "VALIDATION_ERROR",
                   IssueList(if info.PathErrors? then FieldIssues(info.errors) else []))
      else if name == "MongoServerError" && info.ServerCode? && info.code == 11000 then
        var field := FirstKey(info.keyPattern);
        Classified(CONFLICT, "Duplicate field value", "DUPLICATE_ERROR",
                   Record([("field", field), ("message", field + " already exists")]))
      else if name == "CastError" then
        Classified(BAD_REQUEST, "Invalid data format", "CAST_ERROR",
                   Record(if info.CastInfo? then [("field", info.path), ("value", info.value)] else []))
      else if name == "JsonWebTokenError" then
        Classified(UNAUTHORIZED, "Invalid token", "INVALID_TOKEN", NoDetails)
      else if name == "TokenExpiredError" then
        Classified(UNAUTHORIZED, "Token expired", "TOKEN_EXPIRED", NoDetails)
      else if name == "MulterError" then
        Classified(BAD_REQUEST, MulterMessage(if info.UploadCode? then info.uploadCode else ""),
                   "FILE_UPLOAD_ERROR", NoDetails)
      else
        Classified(INTERNAL_SERVER_ERROR, "Internal server error", "INTERNAL_SERVER_ERROR", NoDetails)
  }

  /** `errorHandler(error)`: `stack` is `error.stack`, and `env` is `config.env`. */
  function Handle(e: Thrown, stack: string, env: Env.NodeEnv): (r: ErrorResponse)
    ensures (r.status, r.message, r.code) == (Classify(e).status, Classify(e).message, Classify(e).code)
    ensures r.details != NoDetails <==> (env == Env.Development || r.status == BAD_REQUEST) && Truthy(Classify(e).details)
    ensures r.details != NoDetails ==> r.details == Classify(e).details
    ensures r.stack.Some? <==> env == Env.Development && stack != ""
    ensures r.stack.Some? ==> r.stack.value == stack
  {
    var c := Classify(e);
    var shown := env == Env.Development || c.status == BAD_REQUEST;
    ErrorResponse(c.status, c.message, c.code,
                  if shown && Truthy(c.details) then c.details else NoDetails,
                  if env == Env.Development && stack != "" then Some(stack) else None)
  }

  /** `errorHandler` step by step: the four variables start at the 500 defaults and the if/else
      chain overwrites them; the response then gains details and stack in place. */
  method Respond(e: Thrown, stack: string, env: Env.NodeEnv) returns (r: ErrorResponse)
    ensures r == Handle(e, stack, env)
  {
    var statusCode := INTERNAL_SERVER_ERROR;
    var message := "Internal server error";
    var code := "INTERNAL_SERVER_ERROR";
    var details := NoDetails;
    match e {
      case App(a) =>
        statusCode, message, code, details := a.statusCode, a.message, a.code, a.details;
      case Raw(name, _, info) =>
        if name == "ValidationError" {
          statusCode, message, code := BAD_REQUEST, "Validation error", "VALIDATION_ERROR";
          details := IssueList(if info.PathErrors? then FieldIssues(info.errors) else []);
        } else if name == "MongoServerError" && info.ServerCode? && info.code == 11000 {
          statusCode, message, code := CONFLICT, "Duplicate field value", "DUPLICATE_ERROR";
          var field := FirstKey(info.keyPattern);
          details := Record([("field", field), ("message", field + " already exists")]);
        } else if name == "CastError" {
          statusCode, message, code := BAD_REQUEST, "Invalid data format", "CAST_ERROR";
          details := Record(if info.CastInfo? then [("field", info.path), ("value", info.value)] else []);
        } else if name == "JsonWebTokenError" {
          statusCode, message, code := UNAUTHORIZED, "Invalid token", "INVALID_TOKEN";
        } else if name == "TokenExpiredError" {
          statusCode, message, code := UNAUTHORIZED, "Token expired", "TOKEN_EXPIRED";
        } else if name == "MulterError" {
          statusCode, code := BAD_REQUEST, "FILE_UPLOAD_ERROR";
          var uploadCode := if info.UploadCode? then info.uploadCode else "";
          if uploadCode == "LIMIT_FILE_SIZE" {
            message := "File too large";
          } else if uploadCode == "LIMIT_FILE_COUNT" {
            message := "Too many files";
          } else if uploadCode == "LIMIT_UNEXPECTED_FILE" {
            message := "Unexpected file field";
          } else {
            message := "File upload error";
          }
        }
    }
    r := ErrorResponse(statusCode, message, code, NoDetails, None);
    if env == Env.Development || statusCode == BAD_REQUEST {
      if Truthy(details) {
        r := r.(details := details);
      }
      if env == Env.Development && stack != "" {
        r := r.(stack := Some(stack));
      }
    }
  }

  /** The names the handler recognises besides AppError. */
  predicate KnownName(name: string) {
    name in {"ValidationError", "MongoServerError", "CastError", "JsonWebTokenError", "TokenExpiredError", "MulterError"}
  }

  /** An AppError is answered with its own status, message and code, whatever its name-like
      class, and its details are answered exactly when details are shown at that status. */
  lemma AppErrorTakesPrecedence(a: AppError, stack: string, env: Env.NodeEnv)
    ensures var r := Handle(App(a), stack, env);
      && r.status == a.statusCode && r.message == a.message && r.code == a.code
      && (r.details == a.details <==> (env == Env.Development || a.statusCode == BAD_REQUEST || !Truthy(a.details)))
  {
  }

  /** An error the handler does not recognise reveals nothing but a generic 500 outside development. */
  lemma UnknownErrorsAreOpaque(name: string, message: string, info: Info, stack: string, env: Env.NodeEnv)
    requires !KnownName(name)
    requires env != Env.Development
    ensures Handle(Raw(name, message, info), stack, env)
         == ErrorResponse(500, "Internal server error", "INTERNAL_SERVER_ERROR", NoDetails, None)
  {
  }

  /** A raw (non-AppError) error is always answered with one of four statuses. */
  lemma RawStatuses(name: string, message: string, info: Info, stack: string, env: Env.NodeEnv)
    ensures Handle(Raw(name, message, info), stack, env).status in {400, 401, 409, 500}
  {
  }

  /** The stack trace never leaves a production or test server. */
  lemma StackOnlyInDevelopment(e: Thrown, stack: string, env: Env.NodeEnv)
    requires env != Env.Development
    ensures Handle(e, stack, env).stack.None?
  {
  }

  /** Request-validation failures are answered with their issues in every environment. */
  lemma ValidationIssuesAlwaysShown(message: string, issues: seq<Issue>, stack: string, env: Env.NodeEnv)
    ensures var r := Handle(App(ValidationError(message, IssueList(issues))), stack, env);
      r.status == 400 && r.code == "VALIDATION_ERROR" && r.message == message && r.details == IssueList(issues)
  {
  }

  /** A database validation error lists one issue per failing path, in order, without a location. */
  lemma MongooseValidationIssues(message: string, errors: seq<PathError>, stack: string, env: Env.NodeEnv)
    ensures var r := Handle(Raw("ValidationError", message, PathErrors(errors)), stack, env);
      && r.status == 400 && r.message == "Validation error" && r.code == "VALIDATION_ERROR"
      && r.details.IssueList? && |r.details.issues| == |errors|
      && forall i :: 0 <= i < |errors| ==>
           r.details.issues[i].field == errors[i].path && r.details.issues[i].message == errors[i].message
           && r.details.issues[i].location.None?
  {
  }

  /** A duplicate-key error names the first key of the violated index, and the details are hidden
      outside development because the status is 409. */
  lemma DuplicateKeyResponse(message: string, field: string, rest: seq<string>, stack: string, env: Env.NodeEnv)
    ensures var r := Handle(Raw("MongoServerError", message, ServerCode(11000, [field] + rest)), stack, env);
      && r.status == 409 && r.code == "DUPLICATE_ERROR" && r.message == "Duplicate field value"
      && (env == Env.Development ==> r.details == Record([("field", field), ("message", field + " already exists")]))
      && (env != Env.Development ==> r.details == NoDetails)
  {
  }

  /** Any other MongoServerError code is a plain 500. */
  lemma OtherServerErrors(message: string, code: int, keys: seq<string>, stack: string, env: Env.NodeEnv)
    requires code != 11000
    ensures Handle(Raw("MongoServerError", message, ServerCode(code, keys)), stack, env).status == 500
  {
  }

  /** A token-library failure that escapes is answered 401, with a code telling expiry apart. */
  lemma JwtFailureResponse(f: Crypto.JwtFailure, stack: string, env: Env.NodeEnv)
    ensures var r := Handle(Raw(f.Name(), f.Message(), NoInfo), stack, env);
      && r.status == 401 && r.details == NoDetails
      && (r.code == "TOKEN_EXPIRED" <==> f.TokenExpiredError?)
      && (r.code == "INVALID_TOKEN" <==> f.JsonWebTokenError?)
  {
  }

  /** An upload error is 400 FILE_UPLOAD_ERROR, with the three known codes told apart. */
  lemma MulterResponse(message: string, code: string, stack: string, env: Env.NodeEnv)
    ensures var r := Handle(Raw("MulterError", message, UploadCode(code)), stack, env);
      && r.status == 400 && r.code == "FILE_UPLOAD_ERROR"
      && (r.message == "File upload error" <==> code !in {"LIMIT_FILE_SIZE", "LIMIT_FILE_COUNT", "LIMIT_UNEXPECTED_FILE"})
  {
  }

  /** `notFoundHandler`: 404 ROUTE_NOT_FOUND naming the method and the original URL. */
  function NotFound(verb: string, originalUrl: string): (r: ErrorResponse)
    ensures r.status == NOT_FOUND && r.code == "ROUTE_NOT_FOUND" && r.details == NoDetails && r.stack.None?
    ensures |r.message| == 17 + |verb| + |originalUrl|
    ensures r.message[..6] == "Route " && r.message[6..6 + |verb|] == verb
    ensures r.message[7 + |verb|..|r.message| - 10] == originalUrl
    ensures r.message[|r.message| - 10..] == " not found"
  {
    ErrorResponse(NOT_FOUND, "Route " + verb + " " + originalUrl + " not found", "ROUTE_NOT_FOUND", NoDetails, None)
  }

  // ---- mounting ----

  /** `errorHandler.length`: the handler declares `(error, req, res)`. */
  const ERROR_HANDLER_ARITY: nat := 3

  /** How a request whose error was passed to `next` ends: answered by the mapping, or by Express's
      final handler with the status it picks. */
  datatype Delivered = Answered(response: ErrorResponse) | FinalHandler(status: nat)

  /** Express hands an error only to middleware declaring four parameters. Past a function of any
      other arity the error falls through to the final handler, which answers with the error's own
      `statusCode` when that is a 4xx or 5xx status and with 500 otherwise. */
  function Deliver(arity: nat, e: Thrown, stack: string, env: Env.NodeEnv): Delivered {
    if arity == 4 then Answered(Handle(e, stack, env))
    else
      match e
      case App(a) => FinalHandler(if 400 <= a.statusCode < 600 then a.statusCode else 500)
      case Raw(_, _, _) => FinalHandler(500)
  }

  /** As mounted, the mapping never answers an error: each one gets Express's final handler. An
      AppError keeps its status there, but not its message, code or details, and a request
      validation error keeps none of its issues. */
  lemma MountedHandlerSkipped(e: Thrown, stack: string, env: Env.NodeEnv)
    ensures Deliver(ERROR_HANDLER_ARITY, e, stack, env).FinalHandler?
    ensures e.App? && 400 <= e.err.statusCode < 600 ==> Deliver(ERROR_HANDLER_ARITY, e, stack, env) == FinalHandler(e.err.statusCode)
    ensures e.Raw? ==> Deliver(ERROR_HANDLER_ARITY, e, stack, env) == FinalHandler(500)
  {
  }

  /** Declared with the fourth `next` parameter, the handler answers every error as `Handle` maps it. */
  lemma FourParameterHandlerAnswers(e: Thrown, stack: string, env: Env.NodeEnv)
    ensures Deliver(4, e, stack, env) == Answered(Handle(e, stack, env))
  {
  }
}
