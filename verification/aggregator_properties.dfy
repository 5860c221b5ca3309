/** What the two validation handlers promise about the entries they build. */
module AggregatorProperties {
  import opened Wrappers
  import opened Failures
  import opened Bodies
  import opened Collaborators
  import opened Aggregator

  /** Entries of a concatenation are the concatenated entries: nothing is reordered or merged. */
  lemma EntriesAppend(p: Pathway, catalog: Catalog, start: nat, mid: nat,
                      a: seq<ObjectError>, b: seq<ObjectError>)
    requires AllFieldErrors(a) && AllFieldErrors(b)
    requires mid == start + |a|
    ensures AllFieldErrors(a + b)
    ensures Entries(p, catalog, start, a + b)
            == Entries(p, catalog, start, a) + Entries(p, catalog, mid, b)
  {
    assert forall i :: 0 <= i < |a| ==> (a + b)[i] == a[i];
    assert forall i :: |a| <= i < |a + b| ==> (a + b)[i] == b[i - |a|];
  }

  /** The entry of field error `i`, when the binding result has only field errors. */
  function EntryAt(p: Pathway, errors: seq<ObjectError>, env: Env, i: nat): BindError
    requires AllFieldErrors(errors) && i < |errors|
  {
    Aggregate(p, errors, env).value.erros[i]
  }

  /**
   * On the bind path an entry's message is the catalog's text for its
   * first code when that lookup answers something not blank, and its own
   * default message when there is no code, the lookup fails, or the
   * answer is blank.
   */
  lemma CatalogFallback(errors: seq<ObjectError>, env: Env, i: nat)
    requires AllFieldErrors(errors) && i < |errors|
    ensures var e := errors[i];
            var r := EntryAt(BindPath, errors, env, i);
            && (|e.codes| == 0 ==> r.defaultMessage == e.defaultMessage)
            && (|e.codes| > 0 && env.catalog(i, e.codes[0]).None? ==> r.defaultMessage == e.defaultMessage)
            && ((|e.codes| > 0 && env.catalog(i, e.codes[0]).Some? && !NotBlank(env.catalog(i, e.codes[0])))
                ==> r.defaultMessage == e.defaultMessage)
            && ((|e.codes| > 0 && NotBlank(env.catalog(i, e.codes[0])))
                ==> r.defaultMessage == env.catalog(i, e.codes[0]))
  {
  }

  /**
   * A lookup only touches its own entry: two catalogs that answer the
   * lookup of entry `i` alike give the same entry `i`, whatever they
   * answer, or fail, elsewhere.
   */
  lemma LookupIsPerEntry(p: Pathway, errors: seq<ObjectError>, env: Env, other: Catalog, i: nat)
    requires AllFieldErrors(errors) && i < |errors|
    requires |errors[i].codes| > 0 ==> other(i, errors[i].codes[0]) == env.catalog(i, errors[i].codes[0])
    ensures EntryAt(p, errors, env.(catalog := other), i) == EntryAt(p, errors, env, i)
  {
  }

  /**
   * Each lookup is a call of its own: a code whose lookup fails for one
   * entry may resolve for a later entry with the same code.
   */
  lemma TransientFailureExample(env: Env)
    requires env.catalog(0, "c").None? && env.catalog(1, "c") == Some("ok")
    ensures var e := FieldError("o", "f", ["c"], Some("d"));
            var erros := Aggregate(BindPath, [e, e], env).value.erros;
            erros[0].defaultMessage == Some("d") && erros[1].defaultMessage == Some("ok")
  {
    assert !IsWhitespace("ok"[0]);
  }

  /** The method-argument path never consults the catalog. */
  lemma MethodArgumentIgnoresCatalog(errors: seq<ObjectError>, env: Env, other: Catalog)
    ensures Aggregate(MethodArgumentPath, errors, env.(catalog := other))
            == Aggregate(MethodArgumentPath, errors, env)
  {
    if AllFieldErrors(errors) {
      assert Aggregate(MethodArgumentPath, errors, env.(catalog := other)).value.erros
             == Aggregate(MethodArgumentPath, errors, env).value.erros;
    }
  }

  /**
   * Both paths accept and reject the same binding results and build
   * entries that differ at most in their message; the header differs only
   * in its label.
   */
  lemma PathwaysShareShape(errors: seq<ObjectError>, env: Env)
    ensures Aggregate(BindPath, errors, env).Success? == Aggregate(MethodArgumentPath, errors, env).Success?
    ensures AllFieldErrors(errors) ==>
              var b := Aggregate(BindPath, errors, env).value;
              var m := Aggregate(MethodArgumentPath, errors, env).value;
              && b.timestamp == m.timestamp && b.status == m.status
              && |b.erros| == |m.erros|
              && forall i :: 0 <= i < |b.erros| ==>
                   b.erros[i].(defaultMessage := None) == m.erros[i].(defaultMessage := None)
  {
  }

  /** An empty binding result gives an empty list and leaves the header unset. */
  lemma EmptyBindingResult(p: Pathway, env: Env)
    ensures Aggregate(p, [], env) == Success(BindExceptionInfo(None, None, None, []))
  {
  }

  /**
   * A non-empty binding result of field errors has status 400 and the
   * path's label, stamped with the clock reading of its last entry.
   */
  lemma HeaderOfNonEmpty(p: Pathway, errors: seq<ObjectError>, env: Env)
    requires AllFieldErrors(errors) && |errors| > 0
    ensures Aggregate(p, errors, env).value.status == Some(400)
    ensures Aggregate(p, errors, env).value.exception == Some(PathwayLabel(p))
    ensures Aggregate(p, errors, env).value.timestamp == Some(env.clock(|errors| - 1))
  {
  }

  /**
   * Order is kept across any split of the binding result: the list of the
   * whole is the list of the first part followed by the entries of the
   * second, answered by the lookups that come after those of the first.
   */
  lemma AggregateAppend(p: Pathway, a: seq<ObjectError>, b: seq<ObjectError>, env: Env)
    requires AllFieldErrors(a) && AllFieldErrors(b)
    ensures AllFieldErrors(a + b)
    ensures Aggregate(p, a + b, env).value.erros
            == Aggregate(p, a, env).value.erros + Entries(p, env.catalog, |a|, b)
  {
    EntriesAppend(p, env.catalog, 0, |a|, a, b);
  }

  /**
   * Three violations whose second lookup fails: three entries in order,
   * the second with its own default message, the others with the
   * catalog's text.
   */
  lemma ThreeViolationsExample(env: Env)
    requires env.catalog(0, "c1") == Some("first") && env.catalog(1, "c2").None?
    requires env.catalog(2, "c3") == Some("third")
    ensures var e1 := FieldError("o", "a", ["c1", "k1"], Some("d1"));
            var e2 := FieldError("o", "b", ["c2", "k2"], Some("d2"));
            var e3 := FieldError("o", "c", ["c3", "k3"], Some("d3"));
            Aggregate(BindPath, [e1, e2, e3], env).value.erros
            == [BindError(Some("first"), "o", "a", Some("k1")),
                BindError(Some("d2"), "o", "b", Some("k2")),
                BindError(Some("third"), "o", "c", Some("k3"))]
  {
    assert !IsWhitespace("first"[0]);
    assert !IsWhitespace("third"[0]);
  }

  /** The cast rejects a global error wherever it stands, after the field errors before it. */
  lemma GlobalErrorRejected(p: Pathway, a: seq<ObjectError>, g: ObjectError, b: seq<ObjectError>, env: Env)
    requires AllFieldErrors(a) && g.GlobalError?
    ensures Aggregate(p, a + [g] + b, env) == Failure(CastFailure(|a|))
  {
    var errors := a + [g] + b;
    assert errors[|a|] == g;
    assert forall k :: 0 <= k < |a| ==> errors[k] == a[k];
    FirstNonFieldIsFirst(errors, |a|);
  }
}
