/** The leveled log sink the interceptors write to (`ezutil.Logger`). */
module Log {
  import opened Grpc

  datatype Level = InfoLevel | ErrorLevel

  /** One argument of a formatted write, kept unrendered. */
  datatype Arg =
    | Text(text: string)
    | Duration(nanos: nat)
    | StatusCode(code: Code)

  /** One write: its level, its format (or plain message) and its arguments. */
  datatype LogLine = LogLine(level: Level, format: string, args: seq<Arg>)

  /** A sink that records every write, in order. */
  class Logger {
    var lines: seq<LogLine>

    constructor ()
      ensures lines == []
    {
      lines := [];
    }

    method Error(message: string)
      modifies this
      ensures lines == old(lines) + [LogLine(ErrorLevel, message, [])]
    {
      lines := lines + [LogLine(ErrorLevel, message, [])];
    }

    method Errorf(format: string, args: seq<Arg>)
      modifies this
      ensures lines == old(lines) + [LogLine(ErrorLevel, format, args)]
    {
      lines := lines + [LogLine(ErrorLevel, format, args)];
    }

    method Infof(format: string, args: seq<Arg>)
      modifies this
      ensures lines == old(lines) + [LogLine(InfoLevel, format, args)]
    {
      lines := lines + [LogLine(InfoLevel, format, args)];
    }
  }
}
