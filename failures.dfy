/**
 * The raw failures a handler can return, and the two gRPC library calls the interceptors
 * apply to them: `status.Error` and `status.FromError`.
 */
module Failures {
  import opened Wrappers
  import opened Grpc
  import opened Ungerr

  /** One `validator.FieldError`, with the text its `Error()` method returns. */
  datatype FieldError = FieldError(field: string, message: string)

  /** The shapes of the cause that `eris.Unwrap` can extract from a wrapped error. */
  datatype Cause =
    | ValidationErrors(violations: seq<FieldError>)  // validator.ValidationErrors
    | JsonSyntaxError                                 // *json.SyntaxError
    | JsonTypeError(field: string)                    // *json.UnmarshalTypeError
    | EndOfInput                                      // the io.EOF sentinel
    | OtherCause(message: string)                     // any other error, seen through Error()

  /**
   * The `Error()` text of a cause that reaches the default branch of the type switch; the
   * validator and JSON causes are matched by type before and never reach it.
   */
  function CauseText(c: Cause): string
    requires c.EndOfInput? || c.OtherCause?
  {
    if c.EndOfInput? then "EOF" else c.message
  }

  /** The `Error()` text of an error that is not a gRPC status. */
  function ErrorText(e: Error): string
    requires !e.GrpcStatus?
  {
    if e.App? then e.app.message else e.plain.message
  }

  /**
   * An error that is neither a gRPC status nor an AppError: its dynamic type (`%T`), its
   * `Error()` text, its full rendering (`%+v`, `eris.ToString(err, true)`), and what
   * `eris.Unwrap` yields for it (None when it was not wrapped).
   */
  datatype PlainError = PlainError(typeName: string, message: string, trace: string, cause: Option<Cause>)

  /** A non-nil Go `error` value, by the shape the interceptor tests for. */
  datatype Error =
    | GrpcStatus(status: Status)  // recognised by status.FromError
    | App(app: AppError)          // implements ungerr.AppError
    | Plain(plain: PlainError)

  /** `status.Error(code, msg)`: an error carrying the status, or nil when the code is OK. */
  function StatusError(code: Code, message: string): (e: Option<Error>)
    ensures e.None? <==> code == OK
    ensures e.Some? ==> e.value == GrpcStatus(Status(code, message))
  {
    if code == OK then None else Some(GrpcStatus(Status(code, message)))
  }

  /**
   * `status.FromError(err)`: the status an error carries and whether it carried one. A nil
   * error reads as OK; any other error reads as Unknown with its `Error()` text.
   */
  function FromError(err: Option<Error>): (r: (Status, bool))
    ensures r.1 <==> err.None? || err.value.GrpcStatus?
    ensures err.None? ==> r.0.code == OK
    ensures err.Some? && err.value.GrpcStatus? ==> r.0 == err.value.status
    ensures err.Some? && !r.1 ==> r.0.code == Unknown
    ensures err.Some? && err.value.App? ==> r.0.message == err.value.app.message
    ensures err.Some? && err.value.Plain? ==> r.0.message == err.value.plain.message
  {
    match err
    case None => (Status(OK, ""), true)
    case Some(GrpcStatus(st)) => (st, true)
    case Some(App(a)) => (Status(Unknown, a.message), false)
    case Some(Plain(p)) => (Status(Unknown, p.message), false)
  }
}
