/**
 * The error taxonomy the gateway presents to clients: each kind of
 * non-validation failure with its HTTP status and the exception label the
 * body reports.
 */
module Taxonomy {
  import opened Wrappers
  import opened Failures

  datatype ErrorKind =
    | NotFound
    | BadRequest
    | Unauthorized
    | Forbidden
    | Timeout
    | ServerError
    | UpstreamTransportError
    | Generic

  /** The status table of the gateway's error responses. */
  function HttpStatus(k: ErrorKind): int
  {
    match k
    case NotFound => 404
    case BadRequest => 400
    case Unauthorized => 401
    case Forbidden => 403
    case Timeout => 408
    case ServerError => 500
    case UpstreamTransportError => 500
    case Generic => 500
  }

  /** The `exception` label a response of each kind carries. */
  function Label(k: ErrorKind): string
  {
    match k
    case NotFound => "NotFoundException"
    case BadRequest => "BadRequestException"
    case Unauthorized => "UnauthorizedException"
    case Forbidden => "ForbiddenException"
    case Timeout => "TimeoutException"
    case ServerError => "ServerErrorException"
    case UpstreamTransportError => "HeimdallException"
    case Generic => "HeimdallException"
  }

  /**
   * The kind of a failure; validation failures have none, they are
   * aggregated instead.
   */
  function KindOf(t: Throwable): (r: Option<ErrorKind>)
    ensures r.None? <==> t.IsValidation()
    ensures t.Domain? ==> Label(r.value) == SimpleName(t.kind)
    ensures t.SocketTimeout? ==> r == Some(Timeout)
    ensures t.IsGeneric() ==> HttpStatus(r.value) == 500 && Label(r.value) == "HeimdallException"
  {
    match t
    case Domain(k, _, _) =>
      Some(match k
           case NotFoundException => NotFound
           case ServerErrorException => ServerError
           case BadRequestException => BadRequest
           case UnauthorizedException => Unauthorized
           case ForbiddenException => Forbidden)
    case SocketTimeout(_) => Some(Timeout)
    case Zuul(_) => Some(UpstreamTransportError)
    case NoHttpResponse(_) => Some(UpstreamTransportError)
    case Bind(_) => None
    case MethodArgumentNotValid(_) => None
    case Other(_, _) => Some(Generic)
  }
}
