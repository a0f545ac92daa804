/**
 * The untagged number and value wrappers `JsonNumber` and `JsonAny`, used
 * as having-spec thresholds, dimension-selector values and post-aggregator
 * constants. Both try their variants in declared order when reading, and
 * an `f32` accepts every JSON number: a value read back is never an
 * `Integer`.
 */
module Scalars {
  import opened Json

  /** `JsonNumber`: an `f32` or an `isize`, written as the bare number. */
  datatype JsonNumber = Float(f: real) | Integer(i: Isize)

  function EncodeJsonNumber(n: JsonNumber): Json
  {
    match n
    case Float(f) => EncodeF32(f)
    case Integer(i) => Num(Int(i))
  }

  /** Tries `Float`, then `Integer`; the first succeeds on every number. */
  function DecodeJsonNumber(j: Json): (r: Result<JsonNumber>)
    ensures r.Ok? <==> j.Num?
    ensures r.Ok? ==> r.value.Float? && r.value.f == NumberValue(j.n)
  {
    match DecodeF32(j)
    case Ok(f) => Ok(JsonNumber.Float(f))
    case Err(_) =>
      match DecodeIsize(j)
      case Ok(i) => Ok(JsonNumber.Integer(i))
      case Err(_) => Err(NoVariantMatched)
  }

  /** `From<f32>` and `From<isize>` for `JsonNumber`. */
  function NumberFromF32(f: real): (n: JsonNumber)
    ensures EncodeJsonNumber(n) == EncodeF32(f)
  {
    JsonNumber.Float(f)
  }

  function NumberFromIsize(i: Isize): (n: JsonNumber)
    ensures EncodeJsonNumber(n) == Num(Int(i))
  {
    JsonNumber.Integer(i)
  }

  /**
   * A float reads back as itself; an integer reads back as the float of
   * the same value, so only floats round-trip.
   */
  lemma JsonNumberRoundTrip(n: JsonNumber)
    ensures n.Float? ==> DecodeJsonNumber(EncodeJsonNumber(n)) == Ok(n)
    ensures n.Integer? ==> DecodeJsonNumber(EncodeJsonNumber(n)) == Ok(JsonNumber.Float(n.i as real))
    ensures DecodeJsonNumber(EncodeJsonNumber(n)) == Ok(n) <==> n.Float?
  {
  }

  /** `JsonAny`: a number, a string or a boolean, written bare. */
  datatype JsonAny = Float(f: real) | Integer(i: Isize) | STRING(s: string) | Boolean(b: bool)

  function EncodeJsonAny(a: JsonAny): Json
  {
    match a
    case Float(f) => EncodeF32(f)
    case Integer(i) => Num(Int(i))
    case STRING(s) => Str(s)
    case Boolean(b) => Bool(b)
  }

  /** Tries `Float`, `Integer`, `STRING`, `Boolean` in that order. */
  function DecodeJsonAny(j: Json): (r: Result<JsonAny>)
    ensures r.Ok? <==> j.Num? || j.Str? || j.Bool?
    ensures j.Num? ==> r == Ok(JsonAny.Float(NumberValue(j.n)))
    ensures j.Str? ==> r == Ok(STRING(j.s))
    ensures j.Bool? ==> r == Ok(Boolean(j.b))
  {
    match DecodeF32(j)
    case Ok(f) => Ok(JsonAny.Float(f))
    case Err(_) =>
      match DecodeIsize(j)
      case Ok(i) => Ok(JsonAny.Integer(i))
      case Err(_) =>
        match DecodeString(j)
        case Ok(s) => Ok(STRING(s))
        case Err(_) =>
          match DecodeBool(j)
          case Ok(b) => Ok(Boolean(b))
          case Err(_) => Err(NoVariantMatched)
  }

  /** The `From` impls of `JsonAny`: each picks the variant of its source type. */
  function AnyFromF32(f: real): (a: JsonAny)
    ensures EncodeJsonAny(a) == EncodeF32(f)
  {
    JsonAny.Float(f)
  }

  function AnyFromIsize(i: Isize): (a: JsonAny)
    ensures EncodeJsonAny(a) == Num(Int(i))
  {
    JsonAny.Integer(i)
  }

  function AnyFromBool(b: bool): (a: JsonAny)
    ensures EncodeJsonAny(a) == Bool(b)
  {
    Boolean(b)
  }

  /** `From<String>` and `From<&str>`, which the model does not tell apart. */
  function AnyFromString(s: string): (a: JsonAny)
    ensures EncodeJsonAny(a) == Str(s)
  {
    STRING(s)
  }

  /** Every value but an integer reads back as itself; an integer reads back as a float. */
  lemma JsonAnyRoundTrip(a: JsonAny)
    ensures !a.Integer? ==> DecodeJsonAny(EncodeJsonAny(a)) == Ok(a)
    ensures a.Integer? ==> DecodeJsonAny(EncodeJsonAny(a)) == Ok(JsonAny.Float(a.i as real))
    ensures DecodeJsonAny(EncodeJsonAny(a)) == Ok(a) <==> !a.Integer?
  {
  }
}
