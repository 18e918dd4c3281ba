/**
 * The application-error capability (`ungerr.AppError`): a value exposing a gRPC status
 * code (`GrpcStatus()`), a display message (`Error()`) and, for validation errors, the
 * list of per-field messages. Only the codes the interceptor relies on are fixed; the
 * display texts below stand in for the library's own wording.
 */
module Ungerr {
  import opened Grpc

  datatype AppError = AppError(grpcStatus: Code, message: string, details: seq<string>)

  const INTERNAL_SERVER_MESSAGE: string := "internal server error"
  const VALIDATION_MESSAGE: string := "validation failed"

  /** `ungerr.BadRequestError(msg)`. */
  function BadRequestError(message: string): AppError
  {
    AppError(InvalidArgument, message, [])
  }

  /** `ungerr.ValidationError(errors)`. */
  function ValidationError(details: seq<string>): AppError
  {
    AppError(InvalidArgument, VALIDATION_MESSAGE, details)
  }

  /** `ungerr.InternalServerError()`: the generic, caller-safe failure. */
  function InternalServerError(): AppError
  {
    AppError(Internal, INTERNAL_SERVER_MESSAGE, [])
  }
}
