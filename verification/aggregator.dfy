/**
 * The two validation handlers of `GlobalExceptionHandler`: they walk a
 * binding result in order and turn every field error into a `BindError`,
 * `validationBindException` first trying the message catalog,
 * `validationMethodArgumentNotValidException` copying the default message.
 */
module Aggregator {
  import opened Wrappers
  import opened Failures
  import opened Bodies
  import opened Collaborators

  /** Which of the two validation handlers is walking the binding result. */
  datatype Pathway = BindPath | MethodArgumentPath

  /** The `exception` label each handler writes into the body. */
  function PathwayLabel(p: Pathway): string
  {
    match p
    case BindPath => "BindExceptionPIER"
    case MethodArgumentPath => "MethodArgumentNotValidException"
  }

  /** Java's `Character.isWhitespace`, restricted to the ASCII range. */
  predicate IsWhitespace(c: char)
  {
    c == ' ' || '\t' <= c <= '\r' || '\U{1C}' <= c <= '\U{1F}'
  }

  /** `Objeto.notBlank`: present, with a character that is not whitespace. */
  predicate NotBlank(m: Option<string>)
  {
    m.Some? && exists k :: 0 <= k < |m.value| && !IsWhitespace(m.value[k])
  }

  /**
   * The guarded lookup of the i-th entry: the catalog's answer for the
   * first message code. An empty code array throws, and that, like
   * anything the catalog throws, is caught and leaves the message null.
   */
  function LookupMessage(catalog: Catalog, i: nat, codes: seq<string>): Option<string>
  {
    if |codes| == 0 then None else catalog(i, codes[0])
  }

  /** The `BindError` the i-th entry, a field error, becomes. */
  function Entry(p: Pathway, catalog: Catalog, i: nat, e: ObjectError): (r: BindError)
    requires e.FieldError?
    ensures r.objectName == e.objectName && r.field == e.field && r.code == e.Code()
    // the default message changes only through a non-blank catalog answer on the bind path
    ensures r.defaultMessage != e.defaultMessage ==>
              p.BindPath? && |e.codes| > 0 && NotBlank(r.defaultMessage)
              && r.defaultMessage == catalog(i, e.codes[0])
    ensures p.BindPath? && |e.codes| > 0 && NotBlank(catalog(i, e.codes[0])) ==>
              r.defaultMessage == catalog(i, e.codes[0])
  {
    var message :=
      match p
      case BindPath =>
        var found := LookupMessage(catalog, i, e.codes);
        if NotBlank(found) then found else e.defaultMessage
      case MethodArgumentPath => e.defaultMessage;
    BindError(message, e.objectName, e.field, e.Code())
  }

  /**
   * The entries of a run of field errors, in order, the first of them
   * being entry `start` of the binding result.
   */
  function Entries(p: Pathway, catalog: Catalog, start: nat, errors: seq<ObjectError>): (r: seq<BindError>)
    requires AllFieldErrors(errors)
  {
    seq(|errors|, k requires 0 <= k < |errors| => Entry(p, catalog, start + k, errors[k]))
  }

  /** The position of the first entry the cast to `FieldError` rejects. */
  function FirstNonField(errors: seq<ObjectError>): (r: Option<nat>)
    ensures r.None? <==> AllFieldErrors(errors)
    ensures r.Some? ==> r.value < |errors| && errors[r.value].GlobalError?
    ensures r.Some? ==> forall k :: 0 <= k < r.value ==> errors[k].FieldError?
  {
    if |errors| == 0 then None
    else if errors[0].GlobalError? then Some(0)
    else match FirstNonField(errors[1..])
      case None => None
      case Some(j) => Some(j + 1)
  }

  /** The cast fails at the first global error, and at no other. */
  lemma {:induction false} FirstNonFieldIsFirst(errors: seq<ObjectError>, i: nat)
    requires i < |errors| && errors[i].GlobalError?
    requires forall k :: 0 <= k < i ==> errors[k].FieldError?
    ensures FirstNonField(errors) == Some(i)
  {
    if i > 0 {
      FirstNonFieldIsFirst(errors[1..], i - 1);
    }
  }

  /**
   * The body a validation handler returns for a binding result, or the
   * cast failure that escapes it. The header is that of the last
   * iteration; an empty binding result leaves it unset.
   */
  function Aggregate(p: Pathway, errors: seq<ObjectError>, env: Env): (r: Result<BindExceptionInfo, CastFailure>)
    ensures r.Success? <==> AllFieldErrors(errors)
    ensures r.Failure? ==> r.error.index < |errors| && errors[r.error.index].GlobalError?
    ensures r.Failure? ==> forall k :: 0 <= k < r.error.index ==> errors[k].FieldError?
    ensures r.Success? ==> |r.value.erros| == |errors|
    ensures r.Success? ==> forall i :: 0 <= i < |errors| ==> r.value.erros[i] == Entry(p, env.catalog, i, errors[i])
  {
    match FirstNonField(errors)
    case Some(i) => Failure(CastFailure(i))
    case None =>
      var n := |errors|;
      Success(BindExceptionInfo(
        if n == 0 then None else Some(env.clock(n - 1)),
        if n == 0 then None else Some(400),
        if n == 0 then None else Some(PathwayLabel(p)),
        Entries(p, env.catalog, 0, errors)))
  }

  /**
   * The handler's `forEach` as written: cast, look up, overwrite the
   * header fields, append the entry.
   */
  method AggregateInPlace(p: Pathway, errors: seq<ObjectError>, env: Env)
    returns (r: Result<BindExceptionInfo, CastFailure>)
    ensures r == Aggregate(p, errors, env)
  {
    var timestamp: Option<Instant> := None;
    var status: Option<int> := None;
    var exception: Option<string> := None;
    var erros: seq<BindError> := [];
    var i := 0;
    while i < |errors|
      invariant 0 <= i <= |errors|
      invariant forall k :: 0 <= k < i ==> errors[k].FieldError?
      invariant |erros| == i
      invariant forall k :: 0 <= k < i ==> erros[k] == Entry(p, env.catalog, k, errors[k])
      invariant i == 0 ==> timestamp.None? && status.None? && exception.None?
      invariant i > 0 ==> timestamp == Some(env.clock(i - 1)) && status == Some(400)
                          && exception == Some(PathwayLabel(p))
    {
      if errors[i].GlobalError? {
        FirstNonFieldIsFirst(errors, i);
        return Failure(CastFailure(i));
      }
      timestamp := Some(env.clock(i));
      status := Some(400);
      exception := Some(PathwayLabel(p));
      erros := erros + [Entry(p, env.catalog, i, errors[i])];
      i := i + 1;
    }
    assert erros == Entries(p, env.catalog, 0, errors);
    r := Success(BindExceptionInfo(timestamp, status, exception, erros));
  }
}
