/**
 * The JSON envelope every backend handler answers with, and the shape of a
 * database driver error as the handlers read it.
 */
module Http {
  import opened Json

  /** An HTTP status together with the `{status, message, result}` envelope;
      `result` is `Undefined` where the handler leaves the key out. */
  datatype Response = Response(code: int, status: string, message: string, result: Value)

  function Failure(code: int, message: string, result: Value): Response {
    Response(code, "failure", message, result)
  }

  function Success(code: int, message: string, result: Value): Response {
    Response(code, "success", message, result)
  }

  /** A PostgreSQL error as the driver reports it: SQLSTATE, message, detail. */
  datatype DbError = DbError(code: string, message: string, detail: Value)

  /** SQLSTATE 23505, `unique_violation`, in class 23 (integrity constraint violation). */
  const UniqueViolation: string := "23505"

  /** The error object itself, as it appears when a handler falls back to `error`. */
  function ErrorValue(e: DbError): Value {
    Obj([Field("code", Str(e.code)), Field("message", Str(e.message)), Field("detail", e.detail)])
  }

  /** `error.message || error`, the result carried by a 500 answer. */
  function MessageOrError(e: DbError): (r: Value)
    ensures Truthy(r)
    ensures e.message != "" ==> r == Str(e.message)
  {
    Or(Str(e.message), ErrorValue(e))
  }
}
