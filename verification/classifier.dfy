/**
 * The single-error handlers of `GlobalExceptionHandler`: the five domain
 * handlers, the socket-timeout handler and the three catch-all handlers,
 * with the two builders of the `ErroInfo` body they share.
 */
module Classifier {
  import opened Wrappers
  import opened Failures
  import opened Bodies
  import opened Collaborators
  import opened Taxonomy

  /** Spring `HttpStatus` values named by the handlers' `@ResponseStatus`. */
  const BAD_REQUEST := 400
  const UNAUTHORIZED := 401
  const FORBIDDEN := 403
  const NOT_FOUND := 404
  const REQUEST_TIMEOUT := 408
  const INTERNAL_SERVER_ERROR := 500

  /** The `@ResponseStatus` of the handler of each domain exception. */
  function DomainStatus(k: DomainKind): int
  {
    match k
    case NotFoundException => NOT_FOUND
    case ServerErrorException => INTERNAL_SERVER_ERROR
    case BadRequestException => BAD_REQUEST
    case UnauthorizedException => UNAUTHORIZED
    case ForbiddenException => FORBIDDEN
  }

  /**
   * `buildErrorInfo`: the body of a domain exception passes through its
   * message-enum code, its class name and its own message.
   */
  function BuildErrorInfo(env: Env, t: Throwable): (r: ErroInfo)
    requires t.Domain?
    ensures r.code == t.msgEnum.httpCode
    ensures r.exception == Label(KindOf(t).value)
    ensures r.message == t.message
    ensures r.path == env.url && r.timestamp == env.clock(0)
  {
    ErroInfo(env.clock(0), t.msgEnum.httpCode, SimpleName(t.kind), t.message, env.url)
  }

  /**
   * `buildErrorInfoException`: the body of every catch-all failure is that
   * of a fresh `HeimdallException(GLOBAL_ERROR_ZUUL)`, whatever failed.
   */
  function BuildErrorInfoException(env: Env): (r: ErroInfo)
    ensures r.code == env.globalErrorZuul.httpCode
    ensures r.exception == Label(Generic) && r.exception == Label(UpstreamTransportError)
    ensures r.message == env.globalErrorZuul.message
    ensures r.path == env.url && r.timestamp == env.clock(0)
  {
    ErroInfo(env.clock(0), env.globalErrorZuul.httpCode, "HeimdallException",
             env.globalErrorZuul.message, env.url)
  }

  /**
   * `handleExceptionNotFound`, `handleExceptionServerError`,
   * `handleExceptionBadRequest`, `handleExceptionUnauthorized` and
   * `handleExceptionForbidden`: the annotated status with the
   * pass-through body, and nothing logged.
   */
  function HandleDomain(env: Env, t: Throwable): (h: Handled)
    requires t.Domain?
    ensures h.outcome.Success? && h.outcome.value.Single?
    ensures h.outcome.value.status == HttpStatus(KindOf(t).value)
    ensures h.outcome.value.body == BuildErrorInfo(env, t)
    ensures h.log == []
  {
    Handled(Success(Single(DomainStatus(t.kind), BuildErrorInfo(env, t))), [])
  }

  /**
   * `handleExceptionTimeout`: a socket timeout becomes a fresh
   * `TimeoutException(GLOBAL_TIMEOUT)`; the original is neither shown nor
   * logged.
   */
  function HandleTimeout(env: Env, t: Throwable): (h: Handled)
    requires t.SocketTimeout?
    ensures h.outcome.Success? && h.outcome.value.Single?
    ensures h.outcome.value.status == HttpStatus(Timeout)
    ensures h.outcome.value.body.exception == Label(Timeout)
    ensures h.outcome.value.body.code == env.globalTimeout.httpCode
    ensures h.outcome.value.body.message == env.globalTimeout.message
    ensures h.outcome.value.body.path == env.url
    ensures h.log == []
  {
    var body := ErroInfo(env.clock(0), env.globalTimeout.httpCode, "TimeoutException",
                         env.globalTimeout.message, env.url);
    Handled(Success(Single(REQUEST_TIMEOUT, body)), [])
  }

  /**
   * `handleException`, `zuulExceptionServerError` and
   * `noHttpResponseExceptionServerError`: status 500 with the fixed body,
   * and one error record carrying the original exception and its message.
   */
  function HandleGeneric(env: Env, t: Throwable): (h: Handled)
    requires t.IsGeneric()
    ensures h.outcome.Success? && h.outcome.value.Single?
    ensures h.outcome.value.status == HttpStatus(KindOf(t).value)
    ensures h.outcome.value.body == BuildErrorInfoException(env)
    ensures h.log == [LogError(t.detail, t)]
  {
    Handled(Success(Single(INTERNAL_SERVER_ERROR, BuildErrorInfoException(env))),
            [LogError(t.detail, t)])
  }
}
