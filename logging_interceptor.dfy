/**
 * The logging interceptor: a pure observer that runs the handler once, writes one line
 * about the call, and hands back exactly what the handler returned.
 */
module LoggingInterception {
  import opened Wrappers
  import opened Grpc
  import opened Failures
  import opened Log
  import opened Calls
  import ErrorInterception

  const ERROR_FORMAT: string := "[gRPC] method=%s duration=%s status=%s error=%v"
  const OK_FORMAT: string := "[gRPC] method=%s duration=%s status=OK"

  /**
   * The one line written for a call that returned `err` after `elapsed` nanoseconds: at
   * error level, with the method, the duration and the code and message `status.FromError`
   * yields, exactly when there is an error; otherwise at info level with the method, the
   * duration and the OK marker.
   */
  function AccessLine(info: ServerInfo, elapsed: nat, err: Option<Error>): (line: LogLine)
    ensures line.level == ErrorLevel <==> err.Some?
    ensures |line.args| >= 2 && line.args[0] == Text(info.fullMethod) && line.args[1] == Duration(elapsed)
    ensures err.None? ==> line.format == OK_FORMAT && |line.args| == 2
    ensures err.Some? && err.value.GrpcStatus? ==>
      line.args[2..] == [StatusCode(err.value.status.code), Text(err.value.status.message)]
    ensures err.Some? ==> line.format == ERROR_FORMAT && |line.args| == 4
    ensures err.Some? && !err.value.GrpcStatus? ==>
      line.args[2..] == [StatusCode(Unknown), Text(ErrorText(err.value))]
  {
    var (st, _) := FromError(err);
    if err.Some? then
      LogLine(ErrorLevel, ERROR_FORMAT, [Text(info.fullMethod), Duration(elapsed), StatusCode(st.code), Text(st.message)])
    else
      LogLine(InfoLevel, OK_FORMAT, [Text(info.fullMethod), Duration(elapsed)])
  }

  /** The lines one call writes: its access line, or none when the handler panicked past it. */
  function CallLog(o: Outcome, info: ServerInfo, elapsed: nat): (lines: seq<LogLine>)
    ensures |lines| == (if o.Returned? then 1 else 0)
    ensures o.Returned? ==> (lines[0].level == ErrorLevel <==> o.err.Some?)
    ensures o.Returned? ==> |lines[0].args| >= 2 && lines[0].args[0] == Text(info.fullMethod) && lines[0].args[1] == Duration(elapsed)
  {
    match o
    case Returned(_, err) => [AccessLine(info, elapsed, err)]
    case Panicked(_, _) => []
  }

  /**
   * With the error interceptor innermost, the logging interceptor always writes exactly one
   * line, and that line reports the normalised status: never the Unknown code that
   * `status.FromError` gives an unclassified error.
   */
  lemma ErrorInterceptorInsideLogging(o: Outcome, info: ServerInfo, elapsed: nat)
    ensures var r := ErrorInterception.Intercepted(o);
      var lines := CallLog(r, info, elapsed);
      |lines| == 1 &&
      (r.err.Some? ==> lines[0].args[2..] == [StatusCode(r.err.value.status.code), Text(r.err.value.status.message)])
  {
  }

  class LoggingInterceptor {
    const logger: Logger

    constructor (logger: Logger)
      ensures this.logger == logger
    {
      this.logger := logger;
    }

    /**
     * Runs the handler once and returns its outcome untouched; a returned call writes exactly
     * one line, a panic passes through before any line is written.
     */
    method Handle(info: ServerInfo, handler: Handler, elapsed: nat) returns (out: Outcome)
      modifies logger, handler
      ensures handler.calls == old(handler.calls) + 1
      ensures out == handler.outcome
      ensures logger.lines == old(logger.lines) + CallLog(handler.outcome, info, elapsed)
    {
      out := handler.Invoke();
      if out.Panicked? {
        return;
      }
      var (st, _) := FromError(out.err);
      if out.err.Some? {
        logger.Errorf(ERROR_FORMAT, [Text(info.fullMethod), Duration(elapsed), StatusCode(st.code), Text(st.message)]);
      } else {
        logger.Infof(OK_FORMAT, [Text(info.fullMethod), Duration(elapsed)]);
      }
    }
  }
}
