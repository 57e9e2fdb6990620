/**
 * What a model serializer does before any declared validator runs: it
 * filters data by its declared field lists (on input the declared fields
 * that are not read-only, on output those that are not write-only), and
 * each text field trims its value and refuses a blank one unless the model
 * field allows blanks.
 */
module SerializerFields {
  import opened Wrappers
  import opened Strings

  /** Field errors keyed by field name, as a serializer reports them. */
  type FieldErrors = map<string, string>

  const FieldRequired: string := "This field is required."
  const FieldBlank: string := "This field may not be blank."
  const NullCharacters: string := "Null characters are not allowed."

  /** U+0000, which no text field accepts. */
  const Nul: char := '\0'

  /** U+0000 is not whitespace, so it survives trimming, and a blank value never holds it. */
  lemma NulIsNotSpace(value: string)
    ensures Nul in Strip(value) <==> Nul in value
    ensures AllSpace(value) ==> Nul !in value
  {
    assert !IsSpace(Nul);
    StripKeepsNonSpace(value, Nul);
  }

  /** The entries of `data` under a declared field that is not excluded. */
  function Project<V>(data: map<string, V>, fields: set<string>, excluded: set<string>): (r: map<string, V>)
    ensures r.Keys == data.Keys * (fields - excluded)
    ensures forall k | k in r :: r[k] == data[k]
  {
    map k | k in data && k in fields && k !in excluded :: data[k]
  }

  /** The error entry a field contributes: its error under its name, or nothing. */
  function FieldError<T>(field: string, r: Result<T, string>): (e: FieldErrors)
    ensures e.Keys == if r.Failure? then {field} else {}
    ensures field in e ==> e[field] == r.error
  {
    if r.Failure? then map[field := r.error] else map[]
  }

  /** The errors of three fields checked one after another: every failing field, under its name. */
  function Collect<T1, T2, T3>(f1: string, r1: Result<T1, string>, f2: string, r2: Result<T2, string>,
                               f3: string, r3: Result<T3, string>): (e: FieldErrors)
    requires f1 != f2 && f1 != f3 && f2 != f3
    ensures e.Keys <= {f1, f2, f3}
    ensures e.Keys == {} <==> r1.Success? && r2.Success? && r3.Success?
    ensures (f1 in e <==> r1.Failure?) && (f1 in e ==> e[f1] == r1.error)
    ensures (f2 in e <==> r2.Failure?) && (f2 in e ==> e[f2] == r2.error)
    ensures (f3 in e <==> r3.Failure?) && (f3 in e ==> e[f3] == r3.error)
  {
    FieldError(f1, r1) + FieldError(f2, r2) + FieldError(f3, r3)
  }

  /** `errors` with a field's error added under its name, if it has one. */
  function With<T>(errors: FieldErrors, field: string, r: Result<T, string>): FieldErrors {
    if r.Failure? then errors[field := r.error] else errors
  }

  /** Five field verdicts collected into one set of field errors. */
  function Collect5<T1, T2, T3, T4, T5>(
    f1: string, r1: Result<T1, string>, f2: string, r2: Result<T2, string>, f3: string, r3: Result<T3, string>,
    f4: string, r4: Result<T4, string>, f5: string, r5: Result<T5, string>)
    : (e: FieldErrors)
    requires f1 != f2 && f1 != f3 && f1 != f4 && f1 != f5
    requires f2 != f3 && f2 != f4 && f2 != f5
    requires f3 != f4 && f3 != f5 && f4 != f5
    ensures e.Keys <= {f1, f2, f3, f4, f5}
    ensures (f1 in e <==> r1.Failure?) && (f1 in e ==> e[f1] == r1.error)
    ensures (f2 in e <==> r2.Failure?) && (f2 in e ==> e[f2] == r2.error)
    ensures (f3 in e <==> r3.Failure?) && (f3 in e ==> e[f3] == r3.error)
    ensures (f4 in e <==> r4.Failure?) && (f4 in e ==> e[f4] == r4.error)
    ensures (f5 in e <==> r5.Failure?) && (f5 in e ==> e[f5] == r5.error)
  {
    With(With(With(With(With(map[], f1, r1), f2, r2), f3, r3), f4, r4), f5, r5)
  }

  /** The errors of six fields checked one after another: every failing field, under its name. */
  function Collect6<T1, T2, T3, T4, T5, T6>(
    f1: string, r1: Result<T1, string>, f2: string, r2: Result<T2, string>, f3: string, r3: Result<T3, string>,
    f4: string, r4: Result<T4, string>, f5: string, r5: Result<T5, string>, f6: string, r6: Result<T6, string>)
    : (e: FieldErrors)
    requires f1 != f2 && f1 != f3 && f1 != f4 && f1 != f5 && f1 != f6
    requires f2 != f3 && f2 != f4 && f2 != f5 && f2 != f6
    requires f3 != f4 && f3 != f5 && f3 != f6
    requires f4 != f5 && f4 != f6 && f5 != f6
    ensures e.Keys <= {f1, f2, f3, f4, f5, f6}
    ensures (f1 in e <==> r1.Failure?) && (f1 in e ==> e[f1] == r1.error)
    ensures (f2 in e <==> r2.Failure?) && (f2 in e ==> e[f2] == r2.error)
    ensures (f3 in e <==> r3.Failure?) && (f3 in e ==> e[f3] == r3.error)
    ensures (f4 in e <==> r4.Failure?) && (f4 in e ==> e[f4] == r4.error)
    ensures (f5 in e <==> r5.Failure?) && (f5 in e ==> e[f5] == r5.error)
    ensures (f6 in e <==> r6.Failure?) && (f6 in e ==> e[f6] == r6.error)
  {
    With(With(With(With(With(With(map[], f1, r1), f2, r2), f3, r3), f4, r4), f5, r5), f6, r6)
  }

  /**
   * A text field's own cleaning (`CharField`, `EmailField`, with the
   * default `trim_whitespace`): a blank value (empty or whitespace only) is
   * refused unless the model field is `blank=True`, in which case it
   * becomes the empty string and no validator runs; any other value is
   * trimmed and then refused if it holds U+0000, as the validator every
   * `CharField` carries does. (That validator is about the only one shared
   * by all text fields; its sibling for surrogate code points can never
   * fire here, since a `char` is a Unicode scalar value.)
   */
  function CleanText(value: string, allowBlank: bool): (r: Result<string, string>)
    ensures r.Success? <==> (allowBlank || !AllSpace(value)) && Nul !in value
    ensures r.Failure? ==> r.error == if AllSpace(value) && !allowBlank then FieldBlank else NullCharacters
    ensures r.Success? ==> r.value == Strip(value) && IsStripped(r.value) && Nul !in r.value
    ensures r.Success? ==> (r.value == [] <==> AllSpace(value))
  {
    StripEmptyIffAllSpace(value);
    NulIsNotSpace(value);
    if Strip(value) == [] then
      if allowBlank then Success([]) else Failure(FieldBlank)
    else if Nul in Strip(value) then Failure(NullCharacters)
    else Success(Strip(value))
  }
}
