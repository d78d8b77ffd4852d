/**
 * JSON request bodies and the zod primitives the routes validate them with.
 * A JSON number is a JavaScript double; it is modelled as a real, and zod's
 * `.int()` as "the real has no fractional part".
 */
module Schema {
  import opened Wrappers

  datatype Json =
    | JNull
    | JBool(b: bool)
    | JNum(n: real)
    | JStr(s: string)
    | JArr(items: seq<Json>)
    | JObj(fields: map<string, Json>)

  /** A missing key reads as `undefined`, here None. */
  function Get(fields: map<string, Json>, key: string): Option<Json>
  {
    if key in fields then Some(fields[key]) else None
  }

  predicate IsInteger(n: real)
  {
    n.Floor as real == n
  }

  /** The JSON form of a stored optional string (None is an absent key). */
  function OptStrJson(o: Option<string>): Option<Json>
  {
    match o
    case None => None
    case Some(s) => Some(JStr(s))
  }

  /** What `z.string().min(1)` accepts. */
  predicate IsNonEmptyString(v: Option<Json>)
  {
    v.Some? && v.value.JStr? && |v.value.s| >= 1
  }

  /** What `z.string().optional()` accepts. */
  predicate IsOptionalString(v: Option<Json>)
  {
    v.None? || v.value.JStr?
  }

  /** What `z.number().int().positive()` accepts. */
  predicate IsPositiveInt(v: Option<Json>)
  {
    v.Some? && v.value.JNum? && IsInteger(v.value.n) && v.value.n > 0.0
  }

  /** What `z.number().int().nonnegative()` accepts. */
  predicate IsNonNegativeInt(v: Option<Json>)
  {
    v.Some? && v.value.JNum? && IsInteger(v.value.n) && v.value.n >= 0.0
  }

  /** `z.string().min(1)`: a present string of at least one character. */
  function NonEmptyString(v: Option<Json>): (r: Result<string>)
    ensures r.Success? <==> IsNonEmptyString(v)
    ensures r.Success? ==> v == Some(JStr(r.value)) && r.value != ""
  {
    match v
    case Some(JStr(s)) => if |s| >= 1 then Success(s) else Failure(ValidationError)
    case _ => Failure(ValidationError)
  }

  /** `z.string().optional()`: absent, or a string; `null` is rejected. */
  function OptionalString(v: Option<Json>): (r: Result<Option<string>>)
    ensures r.Success? <==> IsOptionalString(v)
    ensures r.Success? ==> v == OptStrJson(r.value)
  {
    match v
    case None => Success(None)
    case Some(JStr(s)) => Success(Some(s))
    case _ => Failure(ValidationError)
  }

  /** `z.number().int().positive()`. */
  function PositiveInt(v: Option<Json>): (r: Result<int>)
    ensures r.Success? <==> IsPositiveInt(v)
    ensures r.Success? ==> r.value > 0 && v == Some(JNum(r.value as real))
  {
    match v
    case Some(JNum(n)) => if IsInteger(n) && n > 0.0 then Success(n.Floor) else Failure(ValidationError)
    case _ => Failure(ValidationError)
  }

  /** `z.number().int().nonnegative()`: zero is accepted. */
  function NonNegativeInt(v: Option<Json>): (r: Result<int>)
    ensures r.Success? <==> IsNonNegativeInt(v)
    ensures r.Success? ==> r.value >= 0 && v == Some(JNum(r.value as real))
  {
    match v
    case Some(JNum(n)) => if IsInteger(n) && n >= 0.0 then Success(n.Floor) else Failure(ValidationError)
    case _ => Failure(ValidationError)
  }

  /** The JSON form of a stored optional integer. */
  function OptIntJson(o: Option<int>): Option<Json>
  {
    match o
    case None => None
    case Some(n) => Some(JNum(n as real))
  }

  /** `z.number().int().nonnegative().optional()`. */
  function OptionalNonNegativeInt(v: Option<Json>): (r: Result<Option<int>>)
    ensures r.Success? <==> (v.None? || IsNonNegativeInt(v))
    ensures r.Success? ==> v == OptIntJson(r.value)
    ensures r.Success? && r.value.Some? ==> r.value.value >= 0
  {
    match v
    case None => Success(None)
    case Some(_) =>
      match NonNegativeInt(v)
      case Success(n) => Success(Some(n))
      case Failure(e) => Failure(e)
  }
}
