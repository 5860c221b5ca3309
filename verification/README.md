# Heimdall gateway error translation, modelled in Dafny

This project models the request-boundary error translation of the Heimdall
API gateway, `GlobalExceptionHandler`. That class turns any exception
raised while serving a request into one of two JSON bodies, each with an
HTTP status:

- `ErroInfo` is the single-error body. It is used for the Heimdall domain
  exceptions (`NotFoundException`, `ServerErrorException`,
  `BadRequestException`, `UnauthorizedException`, `ForbiddenException`),
  for socket timeouts, and for every other exception, including
  `ZuulException` and `NoHttpResponseException`.
- `BindExceptionInfo` is the validation body. It holds one `BindError` per
  field error of a `BindException` or a `MethodArgumentNotValidException`.

Spring's annotation-driven dispatch becomes one `match` over the
`Failures.Throwable` datatype in `Dispatch.Handle`. Its `Other` arm is the
catch-all.

The handler's collaborators are fields of `Collaborators.Env`:

- the clock: `clock(k)` is the k-th `LocalDateTime.now()` reading in one handler call;
- the request URL;
- the message catalog for the caller's locale, read call by call:
  `catalog(i, code)` is what the lookup made for the i-th entry answers, and
  `None` means that `MessageSource.getMessage` threw. Each lookup is a separate
  call, so the same code may fail for one entry and resolve for a later one;
- the two `ExceptionMessage` entries `GLOBAL_TIMEOUT` and `GLOBAL_ERROR_ZUUL`.
  They are defined in heimdall-core's `ExceptionMessage`, outside this class,
  so they are left abstract.

Logging becomes a sequence of `LogError` records returned with the response.

Files and modules:

- `wrappers.dfy` (`Wrappers`): the `Option` and `Result` types.
- `failures.dfy` (`Failures`): the exceptions and binding-result entries.
- `bodies.dfy` (`Bodies`): the response bodies, the responses and the log records.
- `collaborators.dfy` (`Collaborators`): the environment described above.
- `taxonomy.dfy` (`Taxonomy`): the client-facing error kinds with their status table and labels.
- `classifier.dfy` (`Classifier`): the single-error handlers and the two body builders.
- `aggregator.dfy` (`Aggregator`): the validation walk over a binding result.
- `aggregator_properties.dfy` (`AggregatorProperties`): lemmas about that walk.
- `dispatch.dfy` (`Dispatch`): the dispatch and the lemmas about classification.

The code is weaker than one might expect in three places, and the model keeps each of them:

- The body `code` of a domain exception is its message enum's `httpCode`. The
  HTTP status comes from the handler's `@ResponseStatus`. Nothing makes the two
  agree, so they are separate outputs here (`Dispatch.BodyCodeMayDifferFromStatus`).
- A validation body's `timestamp`, `status` and `exception` are only assigned
  inside the loop over the binding result. An empty binding result leaves them
  null, and the timestamp is the clock reading of the last entry, not a single
  reading for the whole batch. The response status is still 400, because it
  comes from the annotation (`Dispatch.EmptyValidationStatus`).
- A validation body carries no request path.

## Model

| member | source | states |
|---|---|---|
| Taxonomy.KindOf | heimdall-gateway/src/main/java/br/com/conductor/heimdall/gateway/configuration/GlobalExceptionHandler.java:85-256 | Exactly the two validation exceptions have no error kind. A domain exception's kind is labelled with its class name, a socket timeout is a `Timeout`, and every catch-all failure has status 500 and label `HeimdallException`. |
| Classifier.BuildErrorInfo | heimdall-gateway/src/main/java/br/com/conductor/heimdall/gateway/configuration/GlobalExceptionHandler.java:361-366 | A domain body passes through the exception's message-enum code, its class name (the label of its kind) and its own message, with the request URL and the clock reading. |
| Classifier.BuildErrorInfoException | heimdall-gateway/src/main/java/br/com/conductor/heimdall/gateway/configuration/GlobalExceptionHandler.java:377-382 | The catch-all body is fixed: code and message of `GLOBAL_ERROR_ZUUL`, label `HeimdallException`, whatever failed. |
| Classifier.HandleDomain | heimdall-gateway/src/main/java/br/com/conductor/heimdall/gateway/configuration/GlobalExceptionHandler.java:85-235 | Each domain handler's status is the table status of its kind (404, 500, 400, 401, 403), its body is the pass-through body, and it logs nothing. |
| Classifier.HandleTimeout | heimdall-gateway/src/main/java/br/com/conductor/heimdall/gateway/configuration/GlobalExceptionHandler.java:248-256 | A socket timeout gets status 408 and label `TimeoutException`, with the code and message of `GLOBAL_TIMEOUT` and the request URL, and nothing is logged. |
| Classifier.HandleGeneric | heimdall-gateway/src/main/java/br/com/conductor/heimdall/gateway/configuration/GlobalExceptionHandler.java:125-175 | `Exception`, `ZuulException` and `NoHttpResponseException` get status 500 and the fixed catch-all body, and exactly one error record carrying the original exception and its message. |
| Aggregator.Entry | heimdall-gateway/src/main/java/br/com/conductor/heimdall/gateway/configuration/GlobalExceptionHandler.java:298-302 | Object name, field and code (the last message code) are copied. The default message differs from the field's only through a non-blank catalog answer for the first code on the bind path, and such an answer is always used. |
| Aggregator.FirstNonField | heimdall-gateway/src/main/java/br/com/conductor/heimdall/gateway/configuration/GlobalExceptionHandler.java:280-281 | The cast to `FieldError` fails exactly when some entry is a global error, and then at a global error with only field errors before it. |
| Aggregator.FirstNonFieldIsFirst | heimdall-gateway/src/main/java/br/com/conductor/heimdall/gateway/configuration/GlobalExceptionHandler.java:280-281 | The cast fails at the first global error and at no other position. |
| Aggregator.Aggregate | heimdall-gateway/src/main/java/br/com/conductor/heimdall/gateway/configuration/GlobalExceptionHandler.java:274-310 | A binding result of field errors yields a list of the same length and order, entry i built from error i with the i-th catalog lookup; any global error makes a `ClassCastException` escape at the first one. |
| Aggregator.AggregateInPlace | heimdall-gateway/src/main/java/br/com/conductor/heimdall/gateway/configuration/GlobalExceptionHandler.java:327-349 | The loop as written, which re-assigns the header fields on every iteration, builds exactly the closed-form result: header unset when empty, otherwise status 400, the path's label and the last clock reading. |
| Dispatch.HandleValidation | heimdall-gateway/src/main/java/br/com/conductor/heimdall/gateway/configuration/GlobalExceptionHandler.java:272-350 | Both validation handlers answer 400 with one entry per binding error, or let the cast failure escape at the first global error, and log nothing. A `BindException` entry is built with the catalog lookup and the label `BindExceptionPIER`. A `MethodArgumentNotValidException` entry is the same field copy with its default message kept verbatim, never consulting the catalog, under the label `MethodArgumentNotValidException`. For a non-empty result the header is status 400 with the last clock reading; for an empty one it stays unset. |
| Dispatch.Handle | heimdall-gateway/src/main/java/br/com/conductor/heimdall/gateway/configuration/GlobalExceptionHandler.java:85-350 | Every non-validation failure gets a single-error response whose status and label are its kind's table entries, with the request path. Its body's code and message come from the exception for a domain error, from the timeout catalogue entry for a socket timeout, and from the Zuul catalogue entry for every catch-all failure. A validation failure gets 400 and one entry per error: catalog-resolved for `BindException`, verbatim for `MethodArgumentNotValidException`. A non-empty body's header carries status 400, the pathway's own label and the last clock reading; an empty body's header stays unset. Only catch-all failures log, exactly once, with the original exception. Only a validation failure with a global error escapes, at the position of the first one. |
| Dispatch.DomainPassesThrough | heimdall-gateway/src/main/java/br/com/conductor/heimdall/gateway/configuration/GlobalExceptionHandler.java:361-366 | A domain exception's message, message-enum code and class name reach the client unchanged. |
| Dispatch.BodyCodeMayDifferFromStatus | heimdall-gateway/src/main/java/br/com/conductor/heimdall/gateway/configuration/GlobalExceptionHandler.java:85-92 | A not-found exception whose message enum says 400 is answered with status 404 and body code 400. |
| Dispatch.NotFoundExample | heimdall-gateway/src/main/java/br/com/conductor/heimdall/gateway/configuration/GlobalExceptionHandler.java:85-92 | A not-found failure with message "resource missing" at "/v1/x" gives 404, `NotFoundException`, that message and that path. |
| Dispatch.TimeoutDiscardsOriginal | heimdall-gateway/src/main/java/br/com/conductor/heimdall/gateway/configuration/GlobalExceptionHandler.java:250-254 | Two socket timeouts are handled identically whatever their messages, and the body message is that of `GLOBAL_TIMEOUT`. |
| Dispatch.GenericFailuresLookAlike | heimdall-gateway/src/main/java/br/com/conductor/heimdall/gateway/configuration/GlobalExceptionHandler.java:125-175 | Any two catch-all failures get the same response; the single log record is the only trace of the original. |
| Dispatch.EmptyValidationStatus | heimdall-gateway/src/main/java/br/com/conductor/heimdall/gateway/configuration/GlobalExceptionHandler.java:272-310 | An empty binding result is answered 400 with an empty list and an unset header. |
| AggregatorProperties.EntriesAppend | heimdall-gateway/src/main/java/br/com/conductor/heimdall/gateway/configuration/GlobalExceptionHandler.java:277-305 | The entries of a concatenation are the entries of the first run followed by those of the second, whose lookups start where the first run's end: no reordering, no deduplication. |
| AggregatorProperties.CatalogFallback | heimdall-gateway/src/main/java/br/com/conductor/heimdall/gateway/configuration/GlobalExceptionHandler.java:283-299 | On the bind path an entry keeps the field's default message when it has no code, when the catalog lookup of its first code fails, or when the answer is blank; a non-blank answer replaces it. |
| AggregatorProperties.TransientFailureExample | heimdall-gateway/src/main/java/br/com/conductor/heimdall/gateway/configuration/GlobalExceptionHandler.java:285-292 | Each entry's lookup is its own call: a code whose lookup fails for the first entry still resolves for a second entry with the same code. |
| AggregatorProperties.LookupIsPerEntry | heimdall-gateway/src/main/java/br/com/conductor/heimdall/gateway/configuration/GlobalExceptionHandler.java:285-292 | Entry i depends on the catalog only through its own lookup, so a failed lookup for another entry never changes it. |
| AggregatorProperties.MethodArgumentIgnoresCatalog | heimdall-gateway/src/main/java/br/com/conductor/heimdall/gateway/configuration/GlobalExceptionHandler.java:338-342 | The method-argument path gives the same result under any catalog; its messages are the default messages verbatim. |
| AggregatorProperties.PathwaysShareShape | heimdall-gateway/src/main/java/br/com/conductor/heimdall/gateway/configuration/GlobalExceptionHandler.java:274-350 | Both paths accept the same binding results and give lists of the same length whose entries differ at most in the message, with the same timestamp and status. |
| AggregatorProperties.EmptyBindingResult | heimdall-gateway/src/main/java/br/com/conductor/heimdall/gateway/configuration/GlobalExceptionHandler.java:276-307 | An empty binding result gives an empty list and leaves timestamp, status and label unset. |
| AggregatorProperties.HeaderOfNonEmpty | heimdall-gateway/src/main/java/br/com/conductor/heimdall/gateway/configuration/GlobalExceptionHandler.java:294-296 | A non-empty binding result has status 400, the path's label, and the clock reading of its last entry. |
| AggregatorProperties.AggregateAppend | heimdall-gateway/src/main/java/br/com/conductor/heimdall/gateway/configuration/GlobalExceptionHandler.java:329-347 | The list for a concatenated binding result is the list for the first part followed by the entries of the second part, built with the lookups that come after those of the first part. |
| AggregatorProperties.ThreeViolationsExample | heimdall-gateway/src/main/java/br/com/conductor/heimdall/gateway/configuration/GlobalExceptionHandler.java:283-304 | Three violations whose second lookup fails give three entries in order: catalog text, default message, catalog text. |
| AggregatorProperties.GlobalErrorRejected | heimdall-gateway/src/main/java/br/com/conductor/heimdall/gateway/configuration/GlobalExceptionHandler.java:280-281 | A global error after field errors makes the handler fail at exactly its position. |

## Left out

- Spring machinery: `@ControllerAdvice` / `@ExceptionHandler` dispatch and the servlet request and response objects are replaced by `Dispatch.Handle` and `Env`. Subclasses of the domain exceptions are not modelled. Each domain kind carries the simple name of the class its handler is declared for.
- JSON serialisation and field order are not modelled; the bodies are plain records. The misspelt field name `erros` is kept.
- The logger is an output sequence of records. The stack trace is represented only by the exception value the record carries.
- `LocalDateTime.now()` is an integer-valued clock parameter. `UrlUtil.getCurrentUrl` is the `url` parameter. `LocaleContextHolder` is folded into the catalog, which is the catalog for the caller's locale.
- The contents of `ExceptionMessage` are not part of this model. `GLOBAL_TIMEOUT` and `GLOBAL_ERROR_ZUUL` are abstract entries. The message of a fresh `TimeoutException` or `HeimdallException` is taken to be its entry's message.
- Aggregator.NotBlank: `Objeto.notBlank` is not part of this model. It is taken to mean "present and containing a character that is not Java whitespace", with whitespace restricted to the ASCII characters `Character.isWhitespace` accepts.
- What Spring does with the `ClassCastException` that escapes a validation handler when a binding result holds a global `ObjectError` is not modelled. The model only reports where it escapes. This case is an outcome, not a precondition.
- `getCode()` is taken to be the last message code, or null when there is none, as in Spring's `DefaultMessageSourceResolvable`. That class is not part of this model.
- What Spring does with a null `getCodes()` array is not modelled separately: it is treated as an empty array, because both throw inside the guarded block and lead to the same fallback.
- `heimdall-frontend/src/actions/access-tokens/index.js` is left out. It is asynchronous UI dispatch plumbing with no logic of its own.
- `heimdall-api/.../security/CredentialSecurity.java` is left out. It is a two-getter interface with no behaviour.
