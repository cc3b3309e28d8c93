/** The errors the database layer raises, as the error handler sees them. */
module Mongo {
  import opened Errors
  import opened Http
  import ErrorHandler
  import Env

  /** Any operation while the database cannot be reached. */
  function Unavailable(): Thrown {
    Raw("MongooseError", "Operation buffering timed out", NoInfo)
  }

  /** An insert or update that would give two documents the same value of a unique index. */
  function DuplicateKey(field: string): Thrown {
    Raw("MongoServerError", "E11000 duplicate key error index: " + field + "_1", ServerCode(11000, [field]))
  }

  /** Document validation failing on required paths, one per path in schema order. */
  function RequiredPaths(paths: seq<string>): (e: Thrown)
    ensures e.Raw? && e.info.PathErrors? && |e.info.errors| == |paths|
    ensures forall i :: 0 <= i < |paths| ==> e.info.errors[i].path == paths[i]
  {
    Raw("ValidationError", "validation failed", PathErrors(RequiredErrors(paths)))
  }

  function RequiredErrors(paths: seq<string>): (r: seq<PathError>)
    ensures |r| == |paths|
    ensures forall i :: 0 <= i < |paths| ==> r[i] == PathError(paths[i], "Path `" + paths[i] + "` is required.")
  {
    if |paths| == 0 then [] else [PathError(paths[0], "Path `" + paths[0] + "` is required.")] + RequiredErrors(paths[1..])
  }

  /** Saving a document that is no longer stored. */
  function DocumentNotFound(): Thrown {
    Raw("DocumentNotFoundError", "No document found for query", NoInfo)
  }

  /** How the error handler answers each database error. */
  lemma DatabaseErrorResponses(field: string, paths: seq<string>, stack: string, env: Env.NodeEnv)
    ensures ErrorHandler.Handle(Unavailable(), stack, env).status == INTERNAL_SERVER_ERROR
    ensures ErrorHandler.Handle(DocumentNotFound(), stack, env).status == INTERNAL_SERVER_ERROR
    ensures ErrorHandler.Handle(DuplicateKey(field), stack, env).status == CONFLICT
    ensures ErrorHandler.Handle(DuplicateKey(field), stack, env).code == "DUPLICATE_ERROR"
    ensures var r := ErrorHandler.Handle(RequiredPaths(paths), stack, env);
      r.status == BAD_REQUEST && r.details.IssueList? && |r.details.issues| == |paths|
      && forall i :: 0 <= i < |paths| ==> r.details.issues[i].field == paths[i]
  {
  }
}
