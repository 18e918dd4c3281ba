/** A unary handler and what one invocation of it produces. */
module Calls {
  import opened Wrappers
  import opened Failures

  /** The handler's response value (`any`): nil or some message. */
  datatype Response = Nil | Payload(body: string)

  /** A value passed to `panic`, by the shape `handlePanic` tests for. */
  datatype PanicValue =
    | StringPanic(text: string)                        // panic("...")
    | RuntimePanic(typeName: string, message: string)  // a runtime.Error and its Error() text
    | OtherPanic(typeName: string, text: string)       // anything else: its %T and %v

  /** How one handler invocation ends: it returns, or it panics with a stack trace. */
  datatype Outcome =
    | Returned(resp: Response, err: Option<Error>)
    | Panicked(value: PanicValue, stack: string)

  /** A handler whose invocation ends in `outcome`; `calls` counts the invocations. */
  class Handler {
    const outcome: Outcome
    var calls: nat

    constructor (outcome: Outcome)
      ensures this.outcome == outcome && calls == 0
    {
      this.outcome := outcome;
      calls := 0;
    }

    method Invoke() returns (o: Outcome)
      modifies this
      ensures o == outcome
      ensures calls == old(calls) + 1
    {
      o := outcome;
      calls := calls + 1;
    }
  }
}
