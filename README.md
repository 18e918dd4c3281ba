# gerpc interceptors in Dafny

A model of the two unary-call interceptors of `gerpc`, a gRPC server helper library.

- **Error interceptor.** `Handle` runs the handler once. It turns whatever comes out into
  either the handler's own success or one normalised gRPC status error. The rule is first
  match wins:
  1. A nil error passes through.
  2. An error that already is a gRPC status passes through.
  3. An `ungerr.AppError` keeps its own code and message.
  4. Any other error is unwrapped one level with `eris.Unwrap`, and the cause is matched
     against known shapes: validator field errors, JSON syntax error, JSON type mismatch,
     EOF, and four network/context substrings.

  Unrecognised failures are logged in full and masked as the generic internal error. This
  covers a missing cause, an unknown cause, and a recovered panic of any value.
- **Logging interceptor.** A pure observer. It runs the handler once and writes exactly one
  line: error level with method, duration, code and message, or info level with the OK
  marker. It then returns the handler's outcome untouched.

How the model is built:

- **Handler.** A `Handler` object whose invocation ends in a fixed `Outcome`:
  `Returned(resp, err)` or `Panicked(value, stack)`. Its counter records that each
  interceptor invokes it exactly once.
- **Logger.** A `Logger` object that records each write as a structured line: level,
  format or message, and arguments. These are exactly what the source passes to
  `Error`/`Errorf`/`Infof`.
- **Specification functions.** Each interceptor's `Handle` is proved against pure functions
  of the handler's outcome. `ErrorInterception.Intercepted` and
  `ErrorInterception.InterceptLog` give the error interceptor's result and log.
  `LoggingInterception.CallLog` gives the logging interceptor's log. The lemmas and
  function contracts state the properties of these functions.

Files:

- `strings.dfy`: Go's `strings.Contains`.
- `grpc.dfy`: status codes, statuses and call metadata.
- `ungerr.dfy`: the application-error capability.
- `failures.dfy`: raw errors, `status.Error` and `status.FromError`.
- `log.dfy`: the logger.
- `calls.dfy`: handlers and outcomes.
- `error_interceptor.dfy` and `logging_interceptor.dfy`: the two interceptors.
- `wrappers.dfy`: `Option`.

Status codes are gRPC's standard ones: OK = 0, Unknown = 2, InvalidArgument = 3,
Internal = 13. `status.Error` with code OK yields a nil error, as grpc-go does, and the
model keeps that case. As in the code, the handler's response is returned alongside the
normalised error rather than discarded (lines 53 and 58 return `resp`). After a panic the
response is nil, because the named result was never assigned.

## Model

| member | source | states |
|---|---|---|
| Strings.ContainsIff | internal/error_interceptor.go:96-99 | the substring test used for the network causes and panic strings holds exactly when the needle occurs at some index (the empty needle everywhere) |
| Strings.Contains | internal/error_interceptor.go:96-99 | Go's `strings.Contains`: a prefix is always found, and a needle longer than the text never is |
| Failures.StatusError | internal/error_interceptor.go:53 | `status.Error` gives nil exactly for code OK, otherwise a status error carrying that code and message |
| Failures.FromError | internal/logging_interceptor.go:30 | `status.FromError` succeeds exactly for nil and status errors; nil reads as OK, a status as itself, anything else as Unknown with the error's own `Error()` text as message |
| Calls.Handler.Invoke | internal/error_interceptor.go:41 | one handler call yields the handler's outcome and counts one invocation |
| Log.Logger.Error | internal/error_interceptor.go:112 | an error-level write appends exactly that message, without arguments |
| Log.Logger.Errorf | internal/error_interceptor.go:113 | a formatted error-level write appends exactly that format and those arguments |
| Log.Logger.Infof | internal/logging_interceptor.go:41-45 | a formatted info-level write appends exactly that format and those arguments |
| ErrorInterception.Construct | internal/error_interceptor.go:62-107 | the AppError is the generic internal error exactly when no cause was extracted or the cause is unrecognised; otherwise it is InvalidArgument; its message is never empty |
| ErrorInterception.ClassifyCause | internal/error_interceptor.go:72-106 | the type switch on an extracted cause gives the generic internal error exactly for an unrecognised cause, and otherwise an invalid-argument error with a non-empty message |
| ErrorInterception.Classify | internal/error_interceptor.go:46-58 | the result is nil or a status; a status passes through unchanged; an AppError keeps its exact code and message; any other error gets InvalidArgument or Internal with a non-empty message |
| ErrorInterception.ClassifyLog | internal/error_interceptor.go:64-69 | classification writes lines exactly on the unwrapped and unrecognised paths, and only error-level ones; recognised paths, statuses and AppErrors write nothing |
| ErrorInterception.PanicShapeLog | internal/error_interceptor.go:155-183 | the panic type switch adds one or two error-level lines for every panic value |
| ErrorInterception.ContextLog | internal/error_interceptor.go:143-149 | one line for a deadline and one for a context error, each carrying that value, at error level |
| ErrorInterception.Intercepted | internal/error_interceptor.go:31-59 | no panic escapes; the error is nil or a status; a success passes through unchanged; a returned response is kept; any panic gives no response and the Internal status |
| ErrorInterception.InterceptLog | internal/error_interceptor.go:31-59 | `Handle` logs nothing for a success or a recognised failure, logs something for every masked error, and logs at least eight lines for a panic |
| ErrorInterception.MessagesOnePerViolation | internal/error_interceptor.go:74-77 | one message per field violation, in order, none dropped |
| ErrorInterception.MessagesAppend | internal/error_interceptor.go:76 | appending a violation appends its message |
| ErrorInterception.ReclassifyIsNoOp | internal/error_interceptor.go:46-49 | classifying again what Handle returned changes nothing and logs nothing |
| ErrorInterception.MaskingHidesTheError | internal/error_interceptor.go:103-105 | any two errors with a missing or unrecognised cause yield the same Internal status, whatever their type, text, trace or cause |
| ErrorInterception.ValidationCarriesEveryViolation | internal/error_interceptor.go:73-78 | a validator cause yields InvalidArgument whose details are the violations' messages, one each, in order |
| ErrorInterception.PayloadCausesAreBadRequests | internal/error_interceptor.go:80-93 | JSON syntax gives "invalid json", a type mismatch "invalid value for field F", the EOF sentinel or the text "EOF" gives "missing request body", and none of them is logged |
| ErrorInterception.ConnectionErrorIsBadRequest | internal/error_interceptor.go:95-101 | a cause whose text contains any of "connection reset by peer", "broken pipe", "context canceled", "context deadline exceeded", anywhere, gives InvalidArgument "connection error" and no log, for every call |
| ErrorInterception.UnwrappedErrorIsLogged | internal/error_interceptor.go:110-123 | an error without a cause is masked as Internal, and its log names its type, text, method, server and trace |
| ErrorInterception.UnrecognisedCauseIsLogged | internal/error_interceptor.go:126-131 | an error whose cause is unrecognised is masked as Internal, and its log names the error's type and gives the full trace right after the "Full stack trace:" heading |
| ErrorInterception.PanicIsContained | internal/error_interceptor.go:33-38 | a panic of any value ends in no response and the Internal status; the outcome does not depend on the panic value or stack |
| ErrorInterception.PanicIsLogged | internal/error_interceptor.go:135-153 | a panic's log is all error level; it names the method, the server, the value, the type and any context deadline or error; and the stack follows the "Stack trace:" heading |
| ErrorInterception.PanicShapeDescribesPanic | internal/error_interceptor.go:155-183 | a string panic naming a bounds failure gets the bounds line; one naming only a nil dereference gets the nil-pointer line; any other string panic is logged with its own text; a runtime error is logged with its message first, then the nil-pointer, index or slice line for the three known messages and nothing more for any other; any other value is logged with its type and value |
| ErrorInterception.BadRequestBecomesInvalidArgument | internal/error_interceptor.go:51-54 | an AppError built as a bad request reaches the caller as InvalidArgument with its own message |
| ErrorInterception.ViolationMessages | internal/error_interceptor.go:74-77 | the loop collects exactly the violations' messages |
| ErrorInterception.ErrorInterceptor.constructor | internal/error_interceptor.go:26-28 | the interceptor writes to the logger it was given |
| ErrorInterception.ErrorInterceptor.Handle | internal/error_interceptor.go:31-59 | invokes the handler once, returns `Intercepted` of its outcome and appends exactly `InterceptLog` to the log |
| ErrorInterception.ErrorInterceptor.ConstructAppError | internal/error_interceptor.go:62-107 | returns `Construct` of the error and appends exactly the classification log |
| ErrorInterception.ErrorInterceptor.LogUnwrappedError | internal/error_interceptor.go:110-123 | writes the unwrapped-error block and returns the generic internal error |
| ErrorInterception.ErrorInterceptor.LogAndMaskError | internal/error_interceptor.go:126-132 | writes the type and full trace and returns the generic internal error |
| ErrorInterception.ErrorInterceptor.HandlePanic | internal/error_interceptor.go:135-184 | appends exactly the panic diagnostic block |
| ErrorInterception.ErrorInterceptor.LogPanicHeader | internal/error_interceptor.go:137-141 | appends the header lines: method, server, panic value and panic type |
| ErrorInterception.ErrorInterceptor.LogContext | internal/error_interceptor.go:143-149 | appends the context lines |
| ErrorInterception.ErrorInterceptor.LogStack | internal/error_interceptor.go:151-153 | appends the stack trace heading and the stack |
| ErrorInterception.ErrorInterceptor.LogPanicShape | internal/error_interceptor.go:155-183 | appends the line or lines describing the panic's shape |
| LoggingInterception.AccessLine | internal/logging_interceptor.go:30-46 | error level exactly when there is an error; always the method and the duration; for an error, the error format with the code and message `status.FromError` yields: a status's own code and message, or Unknown and the error's `Error()` text for a non-status error; for success, the OK format and nothing else |
| LoggingInterception.CallLog | internal/logging_interceptor.go:20-49 | one access line for every call that returns and none for a panic that passes through it; the line is at error level exactly when there is an error, and it names the method and the duration |
| LoggingInterception.ErrorInterceptorInsideLogging | internal/logging_interceptor.go:24-39 | with the error interceptor innermost, exactly one line is written per call and it reports the normalised status |
| LoggingInterception.LoggingInterceptor.constructor | internal/logging_interceptor.go:16-18 | the interceptor writes to the logger it was given |
| LoggingInterception.LoggingInterceptor.Handle | internal/logging_interceptor.go:20-49 | invokes the handler once, returns its outcome untouched, and appends one line for a returned call and none when the handler panics |

## Left out

- Wall-clock time: the elapsed duration is a parameter (nanoseconds) of the logging `Handle`.
- The contents of `debug.Stack()`: a string carried by the `Panicked` outcome.
- Go's panic/recover control flow: a panic is the `Panicked` outcome. The deferred recover is the panic branch of `Handle`. The logging interceptor passes a panic through before writing anything.
- Text rendering of log arguments (`%v`, `%T`, `%+v`, `Duration.String`, `codes.Code.String`): lines keep the format and the unrendered arguments. `%T`, `Error()`, `%+v` and `eris.ToString(err, true)` of an error are fields of the error value.
- `eris.Unwrap` is not computed: it is the `cause` field of an error, None when the error was not wrapped.
- Status errors wrapped deeper in an error chain: newer grpc-go's `status.FromError` also finds these through `errors.As`, but the model treats such errors as non-status errors.
- `ungerr`'s wording: the texts of `InternalServerError()` and `ValidationError(...)` are fixed stand-ins ("internal server error", "validation failed"). The codes are those the library gives: BadRequest and Validation give InvalidArgument, InternalServer gives Internal. How `ungerr` renders a validation error's detail list into `Error()` is not modelled. The model's `Error()` is the error's message, and the detail list is stated on the AppError that `constructAppError` returns.
- The validator's message wording: each field violation carries its `Error()` text as data.
- The request value and `context.Context` beyond its deadline and error, which the handler model does not need.
- The `Interceptor` interface, the adapters that expose `Handle` as a `grpc.UnaryServerInterceptor`, the server lifecycle and the timestamp mapper: no logic of their own to model, or process I/O.
- Panics raised by the interceptor's own steps, rather than by the handler, are not modelled. One example is an AppError value whose `GrpcStatus()` panics; in the source the deferred recover would catch it and return the handler's response with the Internal status. Another is a panic inside `handlePanic` itself, which would escape. The model assumes a non-nil `info` and a logger whose writes do not panic.
- The chain order in which the server registers the interceptors is not part of this model. `ErrorInterceptorInsideLogging` states what the innermost placement of the error interceptor guarantees.
