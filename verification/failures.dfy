/**
 * The failures that reach the gateway's exception handler: the Heimdall
 * domain exceptions, the transport exceptions it names, the two validation
 * exceptions with their binding results, and everything else.
 */
module Failures {
  import opened Wrappers

  /** A reading of the wall clock (`LocalDateTime`), abstracted to a number. */
  type Instant = int

  /** One entry of `ExceptionMessage`: the HTTP code and the text it carries. */
  datatype MessageEnum = MessageEnum(httpCode: int, message: string)

  /** The `HeimdallException` subclasses that have a handler of their own. */
  datatype DomainKind =
    | NotFoundException
    | ServerErrorException
    | BadRequestException
    | UnauthorizedException
    | ForbiddenException

  /** `getClass().getSimpleName()` of a domain exception. */
  function SimpleName(k: DomainKind): string
  {
    match k
    case NotFoundException => "NotFoundException"
    case ServerErrorException => "ServerErrorException"
    case BadRequestException => "BadRequestException"
    case UnauthorizedException => "UnauthorizedException"
    case ForbiddenException => "ForbiddenException"
  }

  /**
   * An entry of a binding result (`getAllErrors()`): either a `FieldError`
   * or a global `ObjectError` that is not about a field. `codes` is the
   * resolvable's message-code array (an absent array is an empty one).
   */
  datatype ObjectError =
    | FieldError(objectName: string, field: string, codes: seq<string>,
                 defaultMessage: Option<string>)
    | GlobalError(objectName: string, codes: seq<string>,
                  defaultMessage: Option<string>)
  {
    /**
     * `getCode()` of Spring's `DefaultMessageSourceResolvable`: the last,
     * most general, message code, or null when there is none.
     */
    function Code(): Option<string>
    {
      if |codes| == 0 then None else Some(codes[|codes| - 1])
    }
  }

  /** Every entry of a binding result is a field error. */
  predicate AllFieldErrors(errors: seq<ObjectError>)
  {
    forall i :: 0 <= i < |errors| ==> errors[i].FieldError?
  }

  /**
   * A thrown exception, by the handler Spring selects for it. `detail` is
   * the exception's own `getMessage()`, which may be null.
   */
  datatype Throwable =
    | Domain(kind: DomainKind, msgEnum: MessageEnum, message: string)
    | SocketTimeout(detail: Option<string>)
    | Zuul(detail: Option<string>)
    | NoHttpResponse(detail: Option<string>)
    | Bind(errors: seq<ObjectError>)
    | MethodArgumentNotValid(errors: seq<ObjectError>)
      /** Any other exception, including a `HeimdallException` of a kind without a handler. */
    | Other(className: string, detail: Option<string>)
  {
    /** Handled by `handleException`, `zuulExceptionServerError` or `noHttpResponseExceptionServerError`. */
    predicate IsGeneric()
    {
      Zuul? || NoHttpResponse? || Other?
    }

    /** Handled by one of the two validation handlers. */
    predicate IsValidation()
    {
      Bind? || MethodArgumentNotValid?
    }
  }
}
