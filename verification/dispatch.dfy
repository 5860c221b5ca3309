/**
 * The exception dispatch of `GlobalExceptionHandler`: Spring routes each
 * exception to the handler declared for its class, and everything without
 * a handler of its own to `handleException`.
 */
module Dispatch {
  import opened Wrappers
  import opened Failures
  import opened Bodies
  import opened Collaborators
  import opened Taxonomy
  import opened Classifier
  import opened Aggregator

  /**
   * `validationBindException` and
   * `validationMethodArgumentNotValidException`: status 400 whatever the
   * body holds, nothing logged.
   */
  function HandleValidation(env: Env, t: Throwable): (h: Handled)
    requires t.IsValidation()
    ensures h.log == []
    ensures h.outcome.Success? <==> AllFieldErrors(t.errors)
    ensures h.outcome.Failure? ==> h.outcome.error == CastFailure(FirstNonField(t.errors).value)
    ensures h.outcome.Success? ==> h.outcome.value.Validation? && h.outcome.value.status == BAD_REQUEST
    ensures h.outcome.Success? ==> |h.outcome.value.info.erros| == |t.errors|
    // `validationBindException` consults the catalog for every entry
    ensures t.Bind? && h.outcome.Success? ==>
              forall i :: 0 <= i < |t.errors| ==>
                h.outcome.value.info.erros[i] == Entry(BindPath, env.catalog, i, t.errors[i])
    // `validationMethodArgumentNotValidException` builds the same entries
    // without the catalog, so each default message is copied verbatim
    ensures t.MethodArgumentNotValid? && h.outcome.Success? ==>
              forall i :: 0 <= i < |t.errors| ==>
                h.outcome.value.info.erros[i] == Entry(MethodArgumentPath, env.catalog, i, t.errors[i])
    ensures h.outcome.Success? && |t.errors| > 0 ==>
              && h.outcome.value.info.status == Some(BAD_REQUEST)
              && h.outcome.value.info.exception
                 == Some(if t.Bind? then "BindExceptionPIER" else "MethodArgumentNotValidException")
              && h.outcome.value.info.timestamp == Some(env.clock(|t.errors| - 1))
    ensures h.outcome.Success? && |t.errors| == 0 ==>
              h.outcome.value.info == BindExceptionInfo(None, None, None, [])
  {
    var p := if t.Bind? then BindPath else MethodArgumentPath;
    match Aggregate(p, t.errors, env)
    case Success(info) => Handled(Success(Validation(BAD_REQUEST, info)), [])
    case Failure(cast) => Handled(Failure(cast), [])
  }

  /** The handler chosen for `t`, applied. */
  function Handle(env: Env, t: Throwable): (h: Handled)
    ensures !t.IsValidation() ==>
              && h.outcome.Success? && h.outcome.value.Single?
              && h.outcome.value.status == HttpStatus(KindOf(t).value)
              && h.outcome.value.body.exception == Label(KindOf(t).value)
              && h.outcome.value.body.path == env.url
              && h.outcome.value.body.timestamp == env.clock(0)
    // the body's code and message: from the exception for a domain error,
    // from the two catalogue entries otherwise
    ensures t.Domain? ==> h.outcome.value.body == BuildErrorInfo(env, t)
    ensures t.SocketTimeout? ==>
              && h.outcome.value.body.code == env.globalTimeout.httpCode
              && h.outcome.value.body.message == env.globalTimeout.message
    ensures t.IsGeneric() ==> h.outcome.value.body == BuildErrorInfoException(env)
    ensures h.outcome.Failure? <==> t.IsValidation() && !AllFieldErrors(t.errors)
    ensures h.outcome.Failure? ==> h.outcome.error == CastFailure(FirstNonField(t.errors).value)
    ensures t.IsValidation() && h.outcome.Success? ==>
              && h.outcome.value.Validation? && h.outcome.value.status == BAD_REQUEST
              && |h.outcome.value.info.erros| == |t.errors|
    ensures t.Bind? && h.outcome.Success? ==>
              forall i :: 0 <= i < |t.errors| ==>
                h.outcome.value.info.erros[i] == Entry(BindPath, env.catalog, i, t.errors[i])
    ensures t.MethodArgumentNotValid? && h.outcome.Success? ==>
              forall i :: 0 <= i < |t.errors| ==>
                h.outcome.value.info.erros[i] == Entry(MethodArgumentPath, env.catalog, i, t.errors[i])
    ensures t.IsValidation() && h.outcome.Success? && |t.errors| > 0 ==>
              && h.outcome.value.info.status == Some(BAD_REQUEST)
              && h.outcome.value.info.exception
                 == Some(if t.Bind? then "BindExceptionPIER" else "MethodArgumentNotValidException")
              && h.outcome.value.info.timestamp == Some(env.clock(|t.errors| - 1))
    ensures t.IsValidation() && h.outcome.Success? && |t.errors| == 0 ==>
              h.outcome.value.info == BindExceptionInfo(None, None, None, [])
    ensures |h.log| == (if t.IsGeneric() then 1 else 0)
    ensures t.IsGeneric() ==> h.log[0] == LogError(t.detail, t)
  {
    match t
    case Domain(_, _, _) => HandleDomain(env, t)
    case SocketTimeout(_) => HandleTimeout(env, t)
    case Bind(_) => HandleValidation(env, t)
    case MethodArgumentNotValid(_) => HandleValidation(env, t)
    case Zuul(_) => HandleGeneric(env, t)
    case NoHttpResponse(_) => HandleGeneric(env, t)
    case Other(_, _) => HandleGeneric(env, t)
  }

  /** A domain exception's message, message-enum code and class name reach the client. */
  lemma DomainPassesThrough(env: Env, k: DomainKind, e: MessageEnum, message: string)
    ensures var h := Handle(env, Domain(k, e, message));
            && h.outcome.value.body.message == message
            && h.outcome.value.body.code == e.httpCode
            && h.outcome.value.body.exception == SimpleName(k)
            && h.log == []
  {
  }

  /**
   * The body code comes from the message enum and the status from the
   * handler, and nothing makes them agree.
   */
  lemma BodyCodeMayDifferFromStatus(env: Env)
    ensures var h := Handle(env, Domain(NotFoundException, MessageEnum(400, "bad"), "bad"));
            h.outcome.value.status == 404 && h.outcome.value.body.code == 400
  {
  }

  /** Classifying a not-found failure at a given path. */
  lemma NotFoundExample(env: Env, e: MessageEnum)
    requires env.url == "/v1/x" && e.httpCode == 404
    ensures Handle(env, Domain(NotFoundException, e, "resource missing")).outcome
            == Success(Single(404, ErroInfo(env.clock(0), 404, "NotFoundException", "resource missing", "/v1/x")))
  {
  }

  /** A socket timeout's own message never matters: every timeout is handled alike. */
  lemma TimeoutDiscardsOriginal(env: Env, d1: Option<string>, d2: Option<string>)
    ensures Handle(env, SocketTimeout(d1)) == Handle(env, SocketTimeout(d2))
    ensures Handle(env, SocketTimeout(d1)).outcome.value.body.message == env.globalTimeout.message
  {
  }

  /**
   * Every catch-all failure gets the same response, whatever it was; only
   * its log record tells them apart.
   */
  lemma GenericFailuresLookAlike(env: Env, t1: Throwable, t2: Throwable)
    requires t1.IsGeneric() && t2.IsGeneric()
    ensures Handle(env, t1).outcome == Handle(env, t2).outcome
    ensures Handle(env, t1).outcome.value.body.message == env.globalErrorZuul.message
    ensures Handle(env, t1).log == [LogError(t1.detail, t1)]
  {
  }

  /** A validation response has status 400 even when its body header was never set. */
  lemma EmptyValidationStatus(env: Env, t: Throwable)
    requires t.IsValidation() && t.errors == []
    ensures Handle(env, t).outcome == Success(Validation(400, BindExceptionInfo(None, None, None, [])))
  {
  }
}
