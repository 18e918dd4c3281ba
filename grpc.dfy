/** The parts of gRPC the interceptors see: status codes, statuses and per-call metadata. */
module Grpc {
  import opened Wrappers

  /** A gRPC status code (`codes.Code`, an unsigned 32-bit integer). */
  type Code = c: int | 0 <= c < 0x1_0000_0000

  const OK: Code := 0
  const Unknown: Code := 2
  const InvalidArgument: Code := 3
  const Internal: Code := 13

  /** A gRPC status: a code and a caller-visible message. */
  datatype Status = Status(code: Code, message: string)

  /** `grpc.UnaryServerInfo`: the full method name and the service implementation, as `%s` renders it. */
  datatype ServerInfo = ServerInfo(fullMethod: string, server: string)

  /** What `context.Context` exposes to the panic diagnostics: its deadline and its error, each rendered with `%v`. */
  datatype CallContext = CallContext(deadline: Option<string>, err: Option<string>)
}
