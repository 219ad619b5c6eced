/**
 * Fields of a parsed JSON request body and the JavaScript truthiness tests that the
 * handlers apply to them (`if (!x)`, `x || null`).
 */
module Json {
  import opened Wrappers

  /** One field of a JSON body: missing (`undefined`), `null`, or a value. */
  datatype Field<+T> = Absent | Null | Value(v: T)

  /** A string field is truthy when it is present and not the empty string. */
  predicate TruthyStr(f: Field<string>) {
    f.Value? && f.v != ""
  }

  /** A numeric field is truthy when it is present and not zero (NaN is not modelled). */
  predicate TruthyNum(f: Field<int>) {
    f.Value? && f.v != 0
  }

  /** A session attribute such as `session?.user?.id` is truthy when present and non-empty. */
  predicate TruthyOpt(o: Option<string>) {
    o.Some? && o.value != ""
  }

  /** `x || null` on a string field, as stored by the handlers. */
  function OrNull(f: Field<string>): (r: Option<string>)
    ensures r.Some? <==> TruthyStr(f)
    ensures r.Some? ==> r.value == f.v
  {
    if TruthyStr(f) then Some(f.v) else None
  }

  /** `s || null` on a form string and how it is sent in a JSON body. */
  function NonEmptyOrNull(s: string): (r: Field<string>)
    ensures r == Null <==> s == ""
    ensures r != Null ==> r == Value(s)
  {
    if s == "" then Null else Value(s)
  }

  /** A JSON value that is `null` when the model has none (NaN serialises as `null` too). */
  function FromOption<T>(o: Option<T>): (r: Field<T>)
    ensures o.None? <==> r == Null
    ensures o.Some? ==> r == Value(o.value)
  {
    match o
    case Some(v) => Value(v)
    case None => Null
  }
}
