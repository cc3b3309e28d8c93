/** The error taxonomy of utils/errors.ts, and every other kind of error the core lets escape. */
module Errors {
  import opened Wrappers
  import opened Http

  /** The subclasses of AppError; `ClassName` is each one's `constructor.name`. */
  datatype ErrorClass =
    | AppErrorClass | ValidationErrorClass | AuthenticationErrorClass | AuthorizationErrorClass
    | NotFoundErrorClass | ConflictErrorClass | RateLimitErrorClass | DatabaseErrorClass
    | ExternalServiceErrorClass | FileUploadErrorClass | TokenErrorClass

  function ClassName(c: ErrorClass): string {
    match c
    case AppErrorClass => "AppError"
    case ValidationErrorClass => "ValidationError"
    case AuthenticationErrorClass => "AuthenticationError"
    case AuthorizationErrorClass => "AuthorizationError"
    case NotFoundErrorClass => "NotFoundError"
    case ConflictErrorClass => "ConflictError"
    case RateLimitErrorClass => "RateLimitError"
    case DatabaseErrorClass => "DatabaseError"
    case ExternalServiceErrorClass => "ExternalServiceError"
    case FileUploadErrorClass => "FileUploadError"
    case TokenErrorClass => "TokenError"
  }

  /** One problem with one field; `location` is absent for database validation failures. */
  datatype Issue = Issue(field: string, message: string, location: Option<string>)

  /** The `details` an error carries: nothing, an array of issues, or a plain object. */
  datatype Details = NoDetails | IssueList(issues: seq<Issue>) | Record(entries: seq<(string, string)>)

  /** JavaScript truthiness of `details`: only `undefined` is falsy (an empty array is truthy). */
  predicate Truthy(d: Details) {
    !d.NoDetails?
  }

  datatype AppError = AppError(cls: ErrorClass, message: string, statusCode: nat, code: string,
                               isOperational: bool, details: Details)

  /** The AppError constructor: status 500 unless given, code the class name unless a non-empty one
      is given, always operational, details kept as given. */
  function MakeAppError(cls: ErrorClass, message: string, statusCode: Option<nat>, code: Option<string>,
                        details: Details): AppError
  {
    AppError(cls, message, statusCode.GetOr(INTERNAL_SERVER_ERROR),
             if code.Some? && code.value != "" then code.value else ClassName(cls), true, details)
  }

  function NewAppError(message: string, statusCode: Option<nat>, code: Option<string>, details: Details): AppError {
    MakeAppError(AppErrorClass, message, statusCode, code, details)
  }

  function ValidationError(message: string, details: Details): AppError {
    MakeAppError(ValidationErrorClass, message, Some(BAD_REQUEST), Some("VALIDATION_ERROR"), details)
  }

  function AuthenticationError(message: Option<string>): AppError {
    MakeAppError(AuthenticationErrorClass, message.GetOr("Authentication failed"), Some(UNAUTHORIZED),
                 Some("AUTHENTICATION_ERROR"), NoDetails)
  }

  function AuthorizationError(message: Option<string>): AppError {
    MakeAppError(AuthorizationErrorClass, message.GetOr("Access denied"), Some(FORBIDDEN),
                 Some("AUTHORIZATION_ERROR"), NoDetails)
  }

  function NotFoundError(message: Option<string>): AppError {
    MakeAppError(NotFoundErrorClass, message.GetOr("Resource not found"), Some(NOT_FOUND),
                 Some("NOT_FOUND_ERROR"), NoDetails)
  }

  function ConflictError(message: string, details: Details): AppError {
    MakeAppError(ConflictErrorClass, message, Some(CONFLICT), Some("CONFLICT_ERROR"), details)
  }

  function RateLimitError(message: Option<string>): AppError {
    MakeAppError(RateLimitErrorClass, message.GetOr("Too many requests"), Some(TOO_MANY_REQUESTS),
                 Some("RATE_LIMIT_ERROR"), NoDetails)
  }

  function DatabaseError(message: string, details: Details): AppError {
    MakeAppError(DatabaseErrorClass, message, Some(INTERNAL_SERVER_ERROR), Some("DATABASE_ERROR"), details)
  }

  function ExternalServiceError(service: string, message: string, details: Details): AppError {
    MakeAppError(ExternalServiceErrorClass, service + " service error: " + message, Some(SERVICE_UNAVAILABLE),
                 Some("EXTERNAL_SERVICE_ERROR"), details)
  }

  function FileUploadError(message: string, details: Details): AppError {
    MakeAppError(FileUploadErrorClass, message, Some(BAD_REQUEST), Some("FILE_UPLOAD_ERROR"), details)
  }

  function TokenError(message: Option<string>): AppError {
    MakeAppError(TokenErrorClass, message.GetOr("Invalid or expired token"), Some(UNAUTHORIZED),
                 Some("TOKEN_ERROR"), NoDetails)
  }

  /** The subclass table: the status and code each subclass constructor fixes. */
  function Table(c: ErrorClass): (nat, string)
    requires c != AppErrorClass
  {
    match c
    case ValidationErrorClass => (400, "VALIDATION_ERROR")
    case AuthenticationErrorClass => (401, "AUTHENTICATION_ERROR")
    case AuthorizationErrorClass => (403, "AUTHORIZATION_ERROR")
    case NotFoundErrorClass => (404, "NOT_FOUND_ERROR")
    case ConflictErrorClass => (409, "CONFLICT_ERROR")
    case RateLimitErrorClass => (429, "RATE_LIMIT_ERROR")
    case DatabaseErrorClass => (500, "DATABASE_ERROR")
    case ExternalServiceErrorClass => (503, "EXTERNAL_SERVICE_ERROR")
    case FileUploadErrorClass => (400, "FILE_UPLOAD_ERROR")
    case TokenErrorClass => (401, "TOKEN_ERROR")
  }

  /** A subclass error, built by its own constructor from the given message (or the default one)
      and details (where the constructor takes them). */
  function Build(c: ErrorClass, message: Option<string>, details: Details): AppError
    requires c != AppErrorClass
  {
    match c
    case ValidationErrorClass => ValidationError(message.GetOr(""), details)
    case AuthenticationErrorClass => AuthenticationError(message)
    case AuthorizationErrorClass => AuthorizationError(message)
    case NotFoundErrorClass => NotFoundError(message)
    case ConflictErrorClass => ConflictError(message.GetOr(""), details)
    case RateLimitErrorClass => RateLimitError(message)
    case DatabaseErrorClass => DatabaseError(message.GetOr(""), details)
    case ExternalServiceErrorClass => ExternalServiceError("", message.GetOr(""), details)
    case FileUploadErrorClass => FileUploadError(message.GetOr(""), details)
    case TokenErrorClass => TokenError(message)
  }

  /** Every subclass constructor produces its class's row of the table, is operational and
      records its own class. */
  lemma SubclassesFollowTable(c: ErrorClass, message: Option<string>, details: Details)
    requires c != AppErrorClass
    ensures Build(c, message, details).cls == c
    ensures (Build(c, message, details).statusCode, Build(c, message, details).code) == Table(c)
    ensures Build(c, message, details).isOperational
  {
  }

  /** `new AppError(message)`: status 500, code "AppError", operational, details as given. */
  lemma AppErrorDefaults(message: string, details: Details)
    ensures NewAppError(message, None, None, details)
         == AppError(AppErrorClass, message, 500, "AppError", true, details)
  {
  }

  /** A code that is given and non-empty is kept; an empty one falls back to the class name. */
  lemma AppErrorCode(message: string, status: Option<nat>, code: string, details: Details)
    ensures NewAppError(message, status, Some(code), details).code == if code == "" then "AppError" else code
  {
  }

  /** The subclasses with a default message use it only when no message is passed; a custom message
      changes nothing else. */
  lemma CustomMessageReplacesDefault(c: ErrorClass, m: string)
    requires c in {AuthenticationErrorClass, AuthorizationErrorClass, NotFoundErrorClass, RateLimitErrorClass, TokenErrorClass}
    ensures Build(c, Some(m), NoDetails).message == m
    ensures Build(c, Some(m), NoDetails) == Build(c, None, NoDetails).(message := m)
    ensures Build(c, None, NoDetails).message ==
      match c
      case AuthenticationErrorClass => "Authentication failed"
      case AuthorizationErrorClass => "Access denied"
      case NotFoundErrorClass => "Resource not found"
      case RateLimitErrorClass => "Too many requests"
      case _ => "Invalid or expired token"
  {
  }

  /** The service name and the original message can both be read back from an ExternalServiceError. */
  lemma ExternalServiceMessage(service: string, message: string, details: Details)
    ensures var e := ExternalServiceError(service, message, details);
      && e.statusCode == 503
      && StartsWithAt(e.message, service, 0)
      && e.message[|service|..|service| + 16] == " service error: "
      && e.message[|service| + 16..] == message
  {
  }

  predicate StartsWithAt(s: string, p: string, k: nat) {
    k + |p| <= |s| && s[k..k + |p|] == p
  }

  /** Every error a handler can let escape: an AppError, or any other Error identified by its
      `name` with the properties the error handler inspects. */
  datatype Thrown = App(err: AppError) | Raw(name: string, message: string, info: Info)

  datatype PathError = PathError(path: string, message: string)

  datatype Info =
    | NoInfo
    /** a Mongoose ValidationError's `errors` */
    | PathErrors(errors: seq<PathError>)
    /** a MongoServerError's numeric `code` and the `keyPattern` keys of a duplicate-key error */
    | ServerCode(code: int, keyPattern: seq<string>)
    /** a Mongoose CastError's `path` and `value` */
    | CastInfo(path: string, value: string)
    /** a MulterError's `code` */
    | UploadCode(uploadCode: string)

  /** How a middleware hands on: `next()` or `next(err)`. */
  datatype Next = Continue | Forward(err: Thrown)
}
