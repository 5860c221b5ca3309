/**
 * What the handler produces: the `ErroInfo` and `BindExceptionInfo`
 * response bodies, the HTTP status that goes with them, and the error log.
 */
module Bodies {
  import opened Wrappers
  import opened Failures

  /** The body of every single-error response. */
  datatype ErroInfo = ErroInfo(
    timestamp: Instant,
    code: int,
    exception: string,
    message: string,
    path: string)

  /** One field error of a validation response. */
  datatype BindError = BindError(
    defaultMessage: Option<string>,
    objectName: string,
    field: string,
    code: Option<string>)

  /**
   * The body of a validation response. The first three fields are only
   * assigned while the binding result is walked, so they stay null
   * (`None`) when it is empty; there is no request path.
   */
  datatype BindExceptionInfo = BindExceptionInfo(
    timestamp: Option<Instant>,
    status: Option<int>,
    exception: Option<string>,
    erros: seq<BindError>)

  /** A response: the status from the handler's annotation, and its body. */
  datatype Response =
    | Single(status: int, body: ErroInfo)
    | Validation(status: int, info: BindExceptionInfo)

  /** An error-level log record: the message and the exception it carries. */
  datatype LogRecord = LogError(message: Option<string>, cause: Throwable)

  /**
   * The `ClassCastException` a validation handler throws at the `index`-th
   * entry of a binding result when that entry is not a field error.
   */
  datatype CastFailure = CastFailure(index: nat)

  /**
   * The effect of handling one exception: the response, or the exception
   * that escapes the handler, and the records it logged.
   */
  datatype Handled = Handled(outcome: Result<Response, CastFailure>, log: seq<LogRecord>)
}
