/**
 * The collaborators the exception handler consults, as plain values: the
 * clock, the request URL, the message catalog of the caller's locale, and
 * the two `ExceptionMessage` entries it raises on its own.
 */
module Collaborators {
  import opened Wrappers
  import opened Failures

  /** A message catalog, read lookup by lookup: the answer to the i-th lookup of a code. */
  type Catalog = (nat, string) -> Option<string>

  /**
   * `clock(k)` is what the k-th `LocalDateTime.now()` of one handler call
   * answers; `url` is `UrlUtil.getCurrentUrl(request)`; `catalog(i, code)`
   * is what `messageSource.getMessage(code, null, locale)` answers when a
   * validation handler calls it for its i-th entry, `None` when that call
   * throws or answers null (each call is separate, so the same code may
   * fail once and resolve later); `globalTimeout` and `globalErrorZuul` are
   * the `GLOBAL_TIMEOUT` and `GLOBAL_ERROR_ZUUL` entries.
   */
  datatype Env = Env(
    clock: nat -> Instant,
    url: string,
    catalog: Catalog,
    globalTimeout: MessageEnum,
    globalErrorZuul: MessageEnum)
}
