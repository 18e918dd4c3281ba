/**
 * The error-classification interceptor. `Handle` runs the handler once and turns whatever
 * comes out of it into either the handler's own success or a gRPC status error, first match
 * wins: a nil error, an error that already is a status, an AppError, then the cause that
 * `eris.Unwrap` extracts. Unrecognised failures and panics are logged in full and masked as
 * the generic internal error.
 */
module ErrorInterception {
  import opened Wrappers
  import opened Strings
  import opened Grpc
  import opened Ungerr
  import opened Failures
  import opened Log
  import opened Calls

  // ---------------------------------------------------------------------------------------
  // Specification: what one call returns and what it writes to the log
  // ---------------------------------------------------------------------------------------

  /** The `Error()` text of each field violation, in order. */
  function Messages(violations: seq<FieldError>): seq<string>
  {
    if violations == [] then [] else [violations[0].message] + Messages(violations[1..])
  }

  /** A message that names a network or context failure on the client's side. */
  predicate IsConnectionError(text: string)
  {
    Contains(text, "connection reset by peer") || Contains(text, "broken pipe") ||
    Contains(text, "context canceled") || Contains(text, "context deadline exceeded")
  }

  /** The cause shapes that map to a caller-facing error rather than the masked internal one. */
  predicate Recognised(c: Cause)
  {
    c.ValidationErrors? || c.JsonSyntaxError? || c.JsonTypeError? || c.EndOfInput? ||
    (c.OtherCause? && (c.message == "EOF" || IsConnectionError(c.message)))
  }

  /**
   * The first-match dispatch of `constructAppError` on an extracted cause: the generic
   * internal error exactly when the cause is not recognised, otherwise an invalid-argument
   * error with a non-empty message.
   */
  function ClassifyCause(c: Cause): (a: AppError)
    ensures a.grpcStatus == Internal <==> !Recognised(c)
    ensures !Recognised(c) ==> a == InternalServerError()
    ensures Recognised(c) ==> a.grpcStatus == InvalidArgument && |a.message| > 0
  {
    match c
    case ValidationErrors(violations) => ValidationError(Messages(violations))
    case JsonSyntaxError => BadRequestError("invalid json")
    case JsonTypeError(field) => BadRequestError("invalid value for field " + field)
    case _ =>
      var text := CauseText(c);
      if c == EndOfInput || text == "EOF" then BadRequestError("missing request body")
      else if IsConnectionError(text) then BadRequestError("connection error")
      else InternalServerError()
  }

  /**
   * The AppError `constructAppError` builds for an error that is neither a status nor an
   * AppError. It is the generic internal error exactly when no cause was extracted or the
   * cause is not recognised; otherwise it is an invalid-argument error. Its message is never
   * empty.
   */
  function Construct(p: PlainError): (a: AppError)
    ensures a.grpcStatus == Internal <==> p.cause.None? || !Recognised(p.cause.value)
    ensures a.grpcStatus == Internal ==> a == InternalServerError()
    ensures a.grpcStatus in {InvalidArgument, Internal}
    ensures |a.message| > 0
  {
    match p.cause
    case None => InternalServerError()
    case Some(c) => ClassifyCause(c)
  }

  /**
   * The error `Handle` returns for a non-nil handler error. The result is nil or a status
   * error. A status passes through unchanged; an AppError keeps its exact code and message;
   * any other error yields an invalid-argument or internal status with a non-empty message.
   */
  function Classify(e: Error): (r: Option<Error>)
    ensures r.None? || r.value.GrpcStatus?
    ensures e.GrpcStatus? ==> r == Some(e)
    ensures e.App? ==> (r.None? <==> e.app.grpcStatus == OK)
    ensures e.App? && r.Some? ==> r.value.status == Status(e.app.grpcStatus, e.app.message)
    ensures e.Plain? ==> r.Some? && r.value.status.code in {InvalidArgument, Internal}
    ensures e.Plain? ==> |r.value.status.message| > 0
  {
    match e
    case GrpcStatus(_) => Some(e)
    case App(a) => StatusError(a.grpcStatus, a.message)
    case Plain(p) =>
      var a := Construct(p);
      StatusError(a.grpcStatus, a.message)
  }

  /** The diagnostic block `logUnwrappedError` writes. */
  function UnwrappedLog(p: PlainError, info: ServerInfo): seq<LogLine>
  {
    [ LogLine(ErrorLevel, "UNWRAPPED ERROR DETECTED - Please add eris.Wrap() or return ungerr.AppError", []),
      LogLine(ErrorLevel, "Error type: %T", [Text(p.typeName)]),
      LogLine(ErrorLevel, "Error message: %s", [Text(p.message)]),
      LogLine(ErrorLevel, "gRPC method: %s", [Text(info.fullMethod)]),
      LogLine(ErrorLevel, "Server: %s", [Text(info.server)]),
      LogLine(ErrorLevel, "Stack trace from error location:", []),
      LogLine(ErrorLevel, "%+v", [Text(p.trace)]) ]
  }

  /** The diagnostic block `logAndMaskError` writes. */
  function MaskLog(p: PlainError): seq<LogLine>
  {
    [ LogLine(ErrorLevel, "Unhandled eris-wrapped error of type: %T", [Text(p.typeName)]),
      LogLine(ErrorLevel, "Full stack trace:", []),
      LogLine(ErrorLevel, p.trace, []) ]
  }

  /**
   * The lines `Handle` writes while classifying a non-nil handler error: nothing on every
   * recognised path, a diagnostic block at error level on every masked one.
   */
  function ClassifyLog(e: Error, info: ServerInfo): (lines: seq<LogLine>)
    ensures lines != [] <==> e.Plain? && (e.plain.cause.None? || !Recognised(e.plain.cause.value))
    ensures AllAtErrorLevel(lines)
  {
    match e
    case Plain(p) =>
      (match p.cause
       case None => UnwrappedLog(p, info)
       case Some(c) => if Recognised(c) then [] else MaskLog(p))
    case _ => []
  }

  /** `%v` of a panic value. */
  function PanicText(v: PanicValue): string
  {
    match v
    case StringPanic(s) => s
    case RuntimePanic(_, m) => m
    case OtherPanic(_, t) => t
  }

  /** `%T` of a panic value. */
  function PanicType(v: PanicValue): string
  {
    match v
    case StringPanic(_) => "string"
    case RuntimePanic(t, _) => t
    case OtherPanic(t, _) => t
  }

  /** The best-effort shape lines at the end of `handlePanic`. */
  function PanicShapeLog(v: PanicValue): (lines: seq<LogLine>)
    ensures 1 <= |lines| <= 2
    ensures AllAtErrorLevel(lines)
  {
    match v
    case StringPanic(s) =>
      if Contains(s, "index out of range") || Contains(s, "slice bounds out of range") then
        [LogLine(ErrorLevel, "Array/slice bounds panic detected", [])]
      else if Contains(s, "nil pointer dereference") then
        [LogLine(ErrorLevel, "Nil pointer dereference panic detected", [])]
      else
        [LogLine(ErrorLevel, "String panic: %s", [Text(s)])]
    case RuntimePanic(_, m) =>
      [LogLine(ErrorLevel, "Runtime error panic: %v", [Text(m)])] +
      (if m == "runtime error: invalid memory address or nil pointer dereference" then
         [LogLine(ErrorLevel, "Nil pointer dereference detected", [])]
       else if m == "runtime error: index out of range" then
         [LogLine(ErrorLevel, "Index out of range detected", [])]
       else if m == "runtime error: slice bounds out of range" then
         [LogLine(ErrorLevel, "Slice bounds out of range detected", [])]
       else [])
    case OtherPanic(t, text) =>
      [LogLine(ErrorLevel, "Unknown panic type: %T, value: %v", [Text(t), Text(text)])]
  }

  /** The lines `handlePanic` writes about the context, when it has a deadline or an error. */
  function ContextLog(ctx: CallContext): (lines: seq<LogLine>)
    ensures |lines| == (if ctx.deadline.Some? then 1 else 0) + (if ctx.err.Some? then 1 else 0)
    ensures AllAtErrorLevel(lines)
    ensures ctx.deadline.Some? ==> lines[0].args == [Text(ctx.deadline.value)]
    ensures ctx.err.Some? ==> lines[|lines| - 1].args == [Text(ctx.err.value)]
  {
    (if ctx.deadline.Some? then [LogLine(ErrorLevel, "Context deadline: %v", [Text(ctx.deadline.value)])] else []) +
    (if ctx.err.Some? then [LogLine(ErrorLevel, "Context error: %v", [Text(ctx.err.value)])] else [])
  }

  /** The opening lines of `handlePanic`: the method, the server, the panic value and its type. */
  function PanicHeader(v: PanicValue, info: ServerInfo): seq<LogLine>
  {
    [ LogLine(ErrorLevel, "PANIC RECOVERED in gRPC handler", []),
      LogLine(ErrorLevel, "gRPC method: %s", [Text(info.fullMethod)]),
      LogLine(ErrorLevel, "Server: %s", [Text(info.server)]),
      LogLine(ErrorLevel, "Panic value: %v", [Text(PanicText(v))]),
      LogLine(ErrorLevel, "Panic type: %T", [Text(PanicType(v))]) ]
  }

  /** The stack trace lines of `handlePanic`. */
  function StackLog(stack: string): seq<LogLine>
  {
    [ LogLine(ErrorLevel, "Stack trace:", []),
      LogLine(ErrorLevel, stack, []) ]
  }

  /** The diagnostic block `handlePanic` writes. */
  function PanicLog(v: PanicValue, stack: string, ctx: CallContext, info: ServerInfo): seq<LogLine>
  {
    PanicHeader(v, info) + ContextLog(ctx) + StackLog(stack) + PanicShapeLog(v)
  }

  /**
   * What `Handle` returns for the handler outcome `o`. No panic escapes; the error is nil
   * or a status; a success passes through as it is; a returned response is kept; a panic
   * of any value yields no response and the generic internal status.
   */
  function Intercepted(o: Outcome): (r: Outcome)
    ensures r.Returned?
    ensures r.err.None? || r.err.value.GrpcStatus?
    ensures o.Returned? ==> r.resp == o.resp
    ensures o.Returned? && o.err.None? ==> r == o
    ensures o.Panicked? ==> r == Returned(Nil, Some(GrpcStatus(Status(Internal, INTERNAL_SERVER_MESSAGE))))
  {
    match o
    case Returned(_, None) => o
    case Returned(resp, Some(e)) => Returned(resp, Classify(e))
    case Panicked(_, _) =>
      var a := InternalServerError();
      Returned(Nil, StatusError(a.grpcStatus, a.message))
  }

  /**
   * What `Handle` writes to the log for the handler outcome `o`: nothing for a success or a
   * recognised failure, something for every masked error, and for a panic at least the
   * header, the stack and one line on the panic's shape.
   */
  function InterceptLog(o: Outcome, ctx: CallContext, info: ServerInfo): (lines: seq<LogLine>)
    ensures lines != [] <==>
      o.Panicked? ||
      (o.err.Some? && o.err.value.Plain? &&
       (o.err.value.plain.cause.None? || !Recognised(o.err.value.plain.cause.value)))
    ensures o.Panicked? ==> |lines| >= 8
  {
    match o
    case Returned(_, None) => []
    case Returned(_, Some(e)) => ClassifyLog(e, info)
    case Panicked(v, stack) => PanicLog(v, stack, ctx, info)
  }

  /** Every line of `lines` is written at error level. */
  predicate AllAtErrorLevel(lines: seq<LogLine>)
  {
    forall i :: 0 <= i < |lines| ==> lines[i].level == ErrorLevel
  }

  /** Some line of `lines` carries the argument `a`. */
  ghost predicate Mentions(lines: seq<LogLine>, a: Arg)
  {
    exists i :: 0 <= i < |lines| && a in lines[i].args
  }

  // ---------------------------------------------------------------------------------------
  // Properties
  // ---------------------------------------------------------------------------------------

  /** Each field violation contributes its own message, in order; none is dropped. */
  lemma {:induction false} MessagesOnePerViolation(violations: seq<FieldError>)
    ensures |Messages(violations)| == |violations|
    ensures forall i :: 0 <= i < |violations| ==> Messages(violations)[i] == violations[i].message
  {
    if violations != [] {
      MessagesOnePerViolation(violations[1..]);
    }
  }

  /** Appending a violation appends its message. */
  lemma {:induction false} MessagesAppend(violations: seq<FieldError>, v: FieldError)
    ensures Messages(violations + [v]) == Messages(violations) + [v.message]
  {
    if violations == [] {
      assert violations + [v] == [v];
    } else {
      assert (violations + [v])[1..] == violations[1..] + [v];
      MessagesAppend(violations[1..], v);
    }
  }

  /**
   * Classifying again what `Handle` returned changes nothing and logs nothing: its error
   * already is a status, and a status passes through.
   */
  lemma ReclassifyIsNoOp(o: Outcome, ctx: CallContext, info: ServerInfo)
    ensures Intercepted(Intercepted(o)) == Intercepted(o)
    ensures InterceptLog(Intercepted(o), ctx, info) == []
  {
  }

  /**
   * The caller-visible result of a masked error does not depend on the error: two errors
   * whose causes are missing or unrecognised yield the very same status, whatever their
   * type, text, trace or cause.
   */
  lemma MaskingHidesTheError(p: PlainError, q: PlainError)
    requires p.cause.None? || !Recognised(p.cause.value)
    requires q.cause.None? || !Recognised(q.cause.value)
    ensures Classify(Plain(p)) == Classify(Plain(q)) == Some(GrpcStatus(Status(Internal, INTERNAL_SERVER_MESSAGE)))
  {
  }

  /** A validation cause yields one detail per violation, in order, under an invalid-argument code. */
  lemma ValidationCarriesEveryViolation(p: PlainError)
    requires p.cause.Some? && p.cause.value.ValidationErrors?
    ensures var a := Construct(p);
      a.grpcStatus == InvalidArgument &&
      |a.details| == |p.cause.value.violations| &&
      forall i :: 0 <= i < |a.details| ==> a.details[i] == p.cause.value.violations[i].message
  {
    MessagesOnePerViolation(p.cause.value.violations);
  }

  /**
   * The payload shapes map to fixed bad-request messages and are not logged; an end of
   * input is recognised by the sentinel or by the exact text "EOF".
   */
  lemma PayloadCausesAreBadRequests(p: PlainError, info: ServerInfo)
    requires p.cause.Some?
    ensures p.cause.value.JsonSyntaxError? ==> Construct(p) == BadRequestError("invalid json")
    ensures p.cause.value.JsonTypeError? ==>
      Construct(p) == BadRequestError("invalid value for field " + p.cause.value.field)
    ensures p.cause.value in {EndOfInput, OtherCause("EOF")} ==>
      Construct(p) == BadRequestError("missing request body")
    ensures (p.cause.value.JsonSyntaxError? || p.cause.value.JsonTypeError? ||
             p.cause.value in {EndOfInput, OtherCause("EOF")}) ==> ClassifyLog(Plain(p), info) == []
  {
  }

  /** The four texts that mark a failed connection or a cancelled call on the client's side. */
  const CONNECTION_MARKERS: set<string> :=
    {"connection reset by peer", "broken pipe", "context canceled", "context deadline exceeded"}

  /**
   * A cause whose text contains any of the four connection markers, wherever in the text, is
   * the client's fault: a bad request with the message "connection error", and nothing logged.
   */
  lemma ConnectionErrorIsBadRequest(p: PlainError, marker: string, before: string, after: string, info: ServerInfo)
    requires marker in CONNECTION_MARKERS
    requires p.cause == Some(OtherCause(before + marker + after))
    ensures Construct(p) == BadRequestError("connection error")
    ensures Classify(Plain(p)) == Some(GrpcStatus(Status(InvalidArgument, "connection error")))
    ensures ClassifyLog(Plain(p), info) == []
  {
    var text := before + marker + after;
    assert text[|before|..|before| + |marker|] == marker;
    assert OccursAt(text, marker, |before|);
    ContainsIff(text, marker);
    assert text != "EOF" by {
      assert |text| >= |marker| >= 11;
    }
  }

  /**
   * The panic type switch only describes the panic: a string panic naming a bounds failure
   * gets the bounds line, one naming a nil dereference (and no bounds failure) the nil-pointer
   * line, any other string panic its own text; a runtime error is logged with its message
   * first; any other value with its type and value.
   */
  lemma {:induction false} PanicShapeDescribesPanic(v: PanicValue)
    ensures v.StringPanic? && (Occurs(v.text, "index out of range") || Occurs(v.text, "slice bounds out of range")) ==>
      PanicShapeLog(v) == [LogLine(ErrorLevel, "Array/slice bounds panic detected", [])]
    ensures (v.StringPanic? && !Occurs(v.text, "index out of range") && !Occurs(v.text, "slice bounds out of range") &&
             Occurs(v.text, "nil pointer dereference")) ==>
      PanicShapeLog(v) == [LogLine(ErrorLevel, "Nil pointer dereference panic detected", [])]
    ensures (v.StringPanic? && !Occurs(v.text, "index out of range") && !Occurs(v.text, "slice bounds out of range") &&
             !Occurs(v.text, "nil pointer dereference")) ==>
      PanicShapeLog(v) == [LogLine(ErrorLevel, "String panic: %s", [Text(v.text)])]
    ensures v.RuntimePanic? ==>
      PanicShapeLog(v)[0] == LogLine(ErrorLevel, "Runtime error panic: %v", [Text(v.message)]) &&
      (|PanicShapeLog(v)| == 2 <==> v.message in {"runtime error: invalid memory address or nil pointer dereference",
                                                   "runtime error: index out of range",
                                                   "runtime error: slice bounds out of range"})
    ensures (v.RuntimePanic? && v.message == "runtime error: invalid memory address or nil pointer dereference") ==>
      PanicShapeLog(v)[1] == LogLine(ErrorLevel, "Nil pointer dereference detected", [])
    ensures (v.RuntimePanic? && v.message == "runtime error: index out of range") ==>
      PanicShapeLog(v)[1] == LogLine(ErrorLevel, "Index out of range detected", [])
    ensures (v.RuntimePanic? && v.message == "runtime error: slice bounds out of range") ==>
      PanicShapeLog(v)[1] == LogLine(ErrorLevel, "Slice bounds out of range detected", [])
    ensures v.OtherPanic? ==>
      PanicShapeLog(v) == [LogLine(ErrorLevel, "Unknown panic type: %T, value: %v", [Text(v.typeName), Text(v.text)])]
  {
    if v.StringPanic? {
      ContainsIff(v.text, "index out of range");
      ContainsIff(v.text, "slice bounds out of range");
      ContainsIff(v.text, "nil pointer dereference");
    }
  }

  /** An unwrapped error is masked, and its diagnostic block names its type, text, method, server and trace. */
  lemma UnwrappedErrorIsLogged(p: PlainError, info: ServerInfo)
    requires p.cause.None?
    ensures Classify(Plain(p)) == Some(GrpcStatus(Status(Internal, INTERNAL_SERVER_MESSAGE)))
    ensures var lines := ClassifyLog(Plain(p), info);
      Mentions(lines, Text(p.typeName)) && Mentions(lines, Text(p.message)) &&
      Mentions(lines, Text(info.fullMethod)) && Mentions(lines, Text(info.server)) &&
      Mentions(lines, Text(p.trace))
  {
    var lines := ClassifyLog(Plain(p), info);
    assert lines == UnwrappedLog(p, info);
    assert Text(p.typeName) in lines[1].args;
    assert Text(p.message) in lines[2].args;
    assert Text(info.fullMethod) in lines[3].args;
    assert Text(info.server) in lines[4].args;
    assert Text(p.trace) in lines[6].args;
  }

  /**
   * An error whose cause is not recognised is masked, and its diagnostic block names the
   * error's type and carries its full trace after the "Full stack trace:" heading.
   */
  lemma UnrecognisedCauseIsLogged(p: PlainError, info: ServerInfo)
    requires p.cause.Some? && !Recognised(p.cause.value)
    ensures Classify(Plain(p)) == Some(GrpcStatus(Status(Internal, INTERNAL_SERVER_MESSAGE)))
    ensures var lines := ClassifyLog(Plain(p), info);
      Mentions(lines, Text(p.typeName)) &&
      exists i :: 0 < i < |lines| &&
        lines[i - 1] == LogLine(ErrorLevel, "Full stack trace:", []) &&
        lines[i] == LogLine(ErrorLevel, p.trace, [])
  {
    var lines := ClassifyLog(Plain(p), info);
    assert lines == MaskLog(p);
    assert Text(p.typeName) in lines[0].args;
    assert lines[1] == LogLine(ErrorLevel, "Full stack trace:", []);
    assert lines[2] == LogLine(ErrorLevel, p.trace, []);
  }

  /** Appending four blocks one after the other appends their concatenation. */
  lemma AppendFour<T>(s: seq<T>, a: seq<T>, b: seq<T>, c: seq<T>, d: seq<T>)
    ensures s + a + b + c + d == s + (a + b + c + d)
  {
  }

  /** Wherever the stack block is placed, the stack follows its "Stack trace:" heading. */
  lemma StackFollowsHeading(before: seq<LogLine>, stack: string, after: seq<LogLine>)
    ensures var lines := before + StackLog(stack) + after;
      exists i :: 0 < i < |lines| &&
        lines[i - 1] == LogLine(ErrorLevel, "Stack trace:", []) &&
        lines[i] == LogLine(ErrorLevel, stack, [])
  {
    var lines := before + StackLog(stack) + after;
    assert lines[|before|] == LogLine(ErrorLevel, "Stack trace:", []);
    assert lines[|before| + 1] == LogLine(ErrorLevel, stack, []);
  }

  /** Concatenating lines written at error level keeps them all at error level. */
  lemma ErrorLevelAppend(a: seq<LogLine>, b: seq<LogLine>)
    requires AllAtErrorLevel(a) && AllAtErrorLevel(b)
    ensures AllAtErrorLevel(a + b)
  {
  }

  /** A panic of any value, with any stack, ends in the same Internal status and no response. */
  lemma PanicIsContained(v: PanicValue, stack: string, w: PanicValue, other: string)
    ensures Intercepted(Panicked(v, stack)) == Intercepted(Panicked(w, other))
    ensures Intercepted(Panicked(v, stack)) == Returned(Nil, Some(GrpcStatus(Status(Internal, INTERNAL_SERVER_MESSAGE))))
  {
  }

  /**
   * A panic is logged at error level only, with the method, the server, the panic value and
   * its type, the stack, and the context's deadline and error when there are any.
   */
  lemma PanicIsLogged(v: PanicValue, stack: string, ctx: CallContext, info: ServerInfo)
    ensures var lines := InterceptLog(Panicked(v, stack), ctx, info);
      AllAtErrorLevel(lines) &&
      Mentions(lines, Text(info.fullMethod)) && Mentions(lines, Text(info.server)) &&
      Mentions(lines, Text(PanicText(v))) && Mentions(lines, Text(PanicType(v))) &&
      (ctx.deadline.Some? ==> Mentions(lines, Text(ctx.deadline.value))) &&
      (ctx.err.Some? ==> Mentions(lines, Text(ctx.err.value))) &&
      exists i :: 0 < i < |lines| &&
        lines[i - 1] == LogLine(ErrorLevel, "Stack trace:", []) &&
        lines[i] == LogLine(ErrorLevel, stack, [])
  {
    var head, c, trace, shape := PanicHeader(v, info), ContextLog(ctx), StackLog(stack), PanicShapeLog(v);
    var lines := InterceptLog(Panicked(v, stack), ctx, info);
    assert lines == head + c + trace + shape;
    ErrorLevelAppend(head, c);
    ErrorLevelAppend(head + c, trace);
    ErrorLevelAppend(head + c + trace, shape);
    assert Text(info.fullMethod) in lines[1].args;
    assert Text(info.server) in lines[2].args;
    assert Text(PanicText(v)) in lines[3].args;
    assert Text(PanicType(v)) in lines[4].args;
    if ctx.deadline.Some? {
      assert lines[5] == c[0];
    }
    if ctx.err.Some? {
      assert lines[5 + |c| - 1] == c[|c| - 1];
    }
    StackFollowsHeading(head + c, stack, shape);
  }

  /** The test scenario: an AppError built as a bad request reaches the caller as InvalidArgument. */
  lemma BadRequestBecomesInvalidArgument(resp: Response, message: string)
    ensures Intercepted(Returned(resp, Some(App(BadRequestError(message))))).err
      == Some(GrpcStatus(Status(InvalidArgument, message)))
  {
  }

  // ---------------------------------------------------------------------------------------
  // Implementation
  // ---------------------------------------------------------------------------------------

  /** The loop of `constructAppError` that collects the violation messages. */
  method ViolationMessages(violations: seq<FieldError>) returns (errors: seq<string>)
    ensures errors == Messages(violations)
  {
    errors := [];
    for i := 0 to |violations|
      invariant errors == Messages(violations[..i])
    {
      assert violations[..i + 1] == violations[..i] + [violations[i]];
      MessagesAppend(violations[..i], violations[i]);
      errors := errors + [violations[i].message];
    }
    assert violations[..|violations|] == violations;
  }

  class ErrorInterceptor {
    const logger: Logger

    constructor (logger: Logger)
      ensures this.logger == logger
    {
      this.logger := logger;
    }

    /** Runs the handler once and normalises its outcome; a panic is recovered and overwrites the error. */
    method Handle(ctx: CallContext, info: ServerInfo, handler: Handler) returns (out: Outcome)
      modifies logger, handler
      ensures handler.calls == old(handler.calls) + 1
      ensures out == Intercepted(handler.outcome)
      ensures logger.lines == old(logger.lines) + InterceptLog(handler.outcome, ctx, info)
    {
      var o := handler.Invoke();
      match o {
        case Panicked(value, stack) =>
          // the deferred recover: log, then overwrite the named result err
          HandlePanic(value, stack, ctx, info);
          var appError := InternalServerError();
          out := Returned(Nil, StatusError(appError.grpcStatus, appError.message));
        case Returned(resp, err) =>
          if err.None? {
            out := Returned(resp, None);
          } else if FromError(err).1 {
            out := Returned(resp, err);
          } else if err.value.App? {
            var appErr := err.value.app;
            out := Returned(resp, StatusError(appErr.grpcStatus, appErr.message));
          } else {
            var appError := ConstructAppError(err.value.plain, info);
            out := Returned(resp, StatusError(appError.grpcStatus, appError.message));
          }
      }
    }

    /** Unwraps the error one level and maps the cause; logs and masks what it cannot map. */
    method ConstructAppError(p: PlainError, info: ServerInfo) returns (a: AppError)
      modifies logger
      ensures a == Construct(p)
      ensures logger.lines == old(logger.lines) + ClassifyLog(Plain(p), info)
    {
      match p.cause {
        case None =>
          a := LogUnwrappedError(p, info);
        case Some(cause) =>
          if cause.ValidationErrors? {
            var errors := ViolationMessages(cause.violations);
            a := ValidationError(errors);
          } else if cause.JsonSyntaxError? {
            a := BadRequestError("invalid json");
          } else if cause.JsonTypeError? {
            a := BadRequestError("invalid value for field " + cause.field);
          } else {
            var text := CauseText(cause);
            if cause == EndOfInput || text == "EOF" {
              a := BadRequestError("missing request body");
            } else if Contains(text, "connection reset by peer") ||
                      Contains(text, "broken pipe") ||
                      Contains(text, "context canceled") ||
                      Contains(text, "context deadline exceeded") {
              a := BadRequestError("connection error");
            } else {
              a := LogAndMaskError(p);
            }
          }
      }
    }

    method LogUnwrappedError(p: PlainError, info: ServerInfo) returns (a: AppError)
      modifies logger
      ensures a == InternalServerError()
      ensures logger.lines == old(logger.lines) + UnwrappedLog(p, info)
    {
      logger.Error("UNWRAPPED ERROR DETECTED - Please add eris.Wrap() or return ungerr.AppError");
      logger.Errorf("Error type: %T", [Text(p.typeName)]);
      logger.Errorf("Error message: %s", [Text(p.message)]);
      logger.Errorf("gRPC method: %s", [Text(info.fullMethod)]);
      logger.Errorf("Server: %s", [Text(info.server)]);
      logger.Error("Stack trace from error location:");
      logger.Errorf("%+v", [Text(p.trace)]);
      a := InternalServerError();
    }

    method LogAndMaskError(p: PlainError) returns (a: AppError)
      modifies logger
      ensures a == InternalServerError()
      ensures logger.lines == old(logger.lines) + MaskLog(p)
    {
      logger.Errorf("Unhandled eris-wrapped error of type: %T", [Text(p.typeName)]);
      logger.Error("Full stack trace:");
      logger.Error(p.trace);
      a := InternalServerError();
    }

    method HandlePanic(v: PanicValue, stack: string, ctx: CallContext, info: ServerInfo)
      modifies logger
      ensures logger.lines == old(logger.lines) + PanicLog(v, stack, ctx, info)
    {
      ghost var start := logger.lines;
      LogPanicHeader(v, info);
      LogContext(ctx);
      LogStack(stack);
      LogPanicShape(v);
      AppendFour(start, PanicHeader(v, info), ContextLog(ctx), StackLog(stack), PanicShapeLog(v));
    }

    /** The stack trace lines of `handlePanic`. */
    method LogStack(stack: string)
      modifies logger
      ensures logger.lines == old(logger.lines) + StackLog(stack)
    {
      logger.Error("Stack trace:");
      logger.Error(stack);
    }

    /** The opening lines of `handlePanic`. */
    method LogPanicHeader(v: PanicValue, info: ServerInfo)
      modifies logger
      ensures logger.lines == old(logger.lines) + PanicHeader(v, info)
    {
      logger.Error("PANIC RECOVERED in gRPC handler");
      logger.Errorf("gRPC method: %s", [Text(info.fullMethod)]);
      logger.Errorf("Server: %s", [Text(info.server)]);
      logger.Errorf("Panic value: %v", [Text(PanicText(v))]);
      logger.Errorf("Panic type: %T", [Text(PanicType(v))]);
    }

    /** The context part of `handlePanic`: its deadline and its error, when present. */
    method LogContext(ctx: CallContext)
      modifies logger
      ensures logger.lines == old(logger.lines) + ContextLog(ctx)
    {
      if ctx.deadline.Some? {
        logger.Errorf("Context deadline: %v", [Text(ctx.deadline.value)]);
      }
      if ctx.err.Some? {
        logger.Errorf("Context error: %v", [Text(ctx.err.value)]);
      }
    }

    /** The type switch at the end of `handlePanic`, which only adds a line describing the panic. */
    method LogPanicShape(v: PanicValue)
      modifies logger
      ensures logger.lines == old(logger.lines) + PanicShapeLog(v)
    {
      match v {
        case StringPanic(s) =>
          if Contains(s, "index out of range") || Contains(s, "slice bounds out of range") {
            logger.Error("Array/slice bounds panic detected");
          } else if Contains(s, "nil pointer dereference") {
            logger.Error("Nil pointer dereference panic detected");
          } else {
            logger.Errorf("String panic: %s", [Text(s)]);
          }
        case RuntimePanic(_, m) =>
          logger.Errorf("Runtime error panic: %v", [Text(m)]);
          if m == "runtime error: invalid memory address or nil pointer dereference" {
            logger.Error("Nil pointer dereference detected");
          } else if m == "runtime error: index out of range" {
            logger.Error("Index out of range detected");
          } else if m == "runtime error: slice bounds out of range" {
            logger.Error("Slice bounds out of range detected");
          }
        case OtherPanic(t, text) =>
          logger.Errorf("Unknown panic type: %T, value: %v", [Text(t), Text(text)]);
      }
    }
  }
}
