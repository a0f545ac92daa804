/**
 * An abstract JSON value tree (section 3 of RFC 8259) together with the
 * decoding primitives the serde-derived codecs of the query model are built
 * from. An object is a map from keys to values: the derived decoders look
 * every field up by its name, and the order in which an encoder writes its
 * fields is left open.
 */
module Json {

  datatype Option<+T> = None | Some(value: T)

  /** Why a value could not be decoded; the model only distinguishes success from failure. */
  datatype DecodeError =
    | MissingField(field: string)
    | InvalidType(expected: string)
    | UnknownVariant(tag: string)
    | NoVariantMatched
    | OutOfRange

  /** The outcome of decoding, usable with `:-`. */
  datatype Result<+T> = Ok(value: T) | Err(error: DecodeError) {
    predicate IsFailure() { Err? }
    function PropagateFailure<U>(): Result<U>
      requires Err?
    {
      Err(error)
    }
    function Extract(): T
      requires Ok?
    {
      value
    }
  }

  /** A JSON number: written in integer form, or with a fraction or exponent. */
  datatype Number = Int(i: int) | Float(f: real)

  datatype Json =
    | Null
    | Bool(b: bool)
    | Num(n: Number)
    | Str(s: string)
    | Arr(items: seq<Json>)
    | Obj(fields: map<string, Json>)

  /** Rust's `usize` on a 64-bit target. */
  type Usize = n: int | 0 <= n < 0x1_0000_0000_0000_0000

  /** Rust's `isize` on a 64-bit target. */
  type Isize = n: int | -0x8000_0000_0000_0000 <= n < 0x8000_0000_0000_0000

  // ---------------------------------------------------------------------------
  // Object fields
  // ---------------------------------------------------------------------------

  /** A required field: its absence is an error, its value is read with `decode`. */
  function Field<T>(fields: map<string, Json>, key: string, decode: Json -> Result<T>): (r: Result<T>)
    ensures key !in fields ==> r == Err(MissingField(key))
    ensures key in fields ==> r == decode(fields[key])
  {
    if key in fields then decode(fields[key]) else Err(MissingField(key))
  }

  /** An `Option<T>` field: absent or `null` both read as `None`, anything else as `Some` of its decoding. */
  function OptField<T>(fields: map<string, Json>, key: string, decode: Json -> Result<T>): (r: Result<Option<T>>)
    ensures key !in fields || fields[key] == Null ==> r == Ok(None)
    ensures key in fields && fields[key] != Null ==>
      (r.Ok? <==> decode(fields[key]).Ok?) && (r.Ok? ==> r.value == Some(decode(fields[key]).value))
  {
    if key in fields && fields[key] != Null then
      var v :- decode(fields[key]);
      Ok(Some(v))
    else Ok(None)
  }

  /** An `Option<T>` is written as `null` when absent. */
  function EncodeOpt<T>(o: Option<T>, encode: T -> Json): Json
  {
    match o
    case None => Null
    case Some(v) => encode(v)
  }

  /** Reading an optional field written with `EncodeOpt` gives the option back. */
  lemma OptFieldRoundTrip<T>(fields: map<string, Json>, key: string, o: Option<T>,
                             encode: T -> Json, decode: Json -> Result<T>)
    requires key in fields && fields[key] == EncodeOpt(o, encode)
    requires o.Some? ==> encode(o.value) != Null && decode(encode(o.value)) == Ok(o.value)
    ensures OptField(fields, key, decode) == Ok(o)
  {
  }

  /** Reading a required field written with `encode` gives the value back. */
  lemma FieldRoundTrip<T>(fields: map<string, Json>, key: string, v: T,
                          encode: T -> Json, decode: Json -> Result<T>)
    requires key in fields && fields[key] == encode(v)
    requires decode(encode(v)) == Ok(v)
    ensures Field(fields, key, decode) == Ok(v)
  {
  }

  /** The only key of a one-entry object. */
  function OnlyKey(fields: map<string, Json>): (k: string)
    requires |fields| == 1
    ensures fields.Keys == {k}
  {
    SingletonKeys(fields);
    var k :| k in fields; k
  }

  lemma SingletonKeys(fields: map<string, Json>)
    requires |fields| == 1
    ensures forall a, b :: a in fields && b in fields ==> a == b
  {
    forall a, b | a in fields && b in fields ensures a == b {
      var rest := fields.Keys - {a};
      assert |rest| == 0;
      assert b !in rest;
    }
  }

  // ---------------------------------------------------------------------------
  // Scalars
  // ---------------------------------------------------------------------------

  function DecodeString(j: Json): (r: Result<string>)
    ensures r.Ok? <==> j.Str?
    ensures r.Ok? ==> r.value == j.s
  {
    if j.Str? then Ok(j.s) else Err(InvalidType("string"))
  }

  function DecodeBool(j: Json): (r: Result<bool>)
    ensures r.Ok? <==> j.Bool?
    ensures r.Ok? ==> r.value == j.b
  {
    if j.Bool? then Ok(j.b) else Err(InvalidType("boolean"))
  }

  /** A `usize` accepts only integer-form numbers in its range. */
  function DecodeUsize(j: Json): (r: Result<Usize>)
    ensures r.Ok? <==> j.Num? && j.n.Int? && 0 <= j.n.i < 0x1_0000_0000_0000_0000
    ensures r.Ok? ==> r.value == j.n.i
  {
    if j.Num? && j.n.Int? && 0 <= j.n.i < 0x1_0000_0000_0000_0000 then Ok(j.n.i)
    else if j.Num? && j.n.Int? then Err(OutOfRange)
    else Err(InvalidType("usize"))
  }

  /** An `isize` accepts only integer-form numbers in its range. */
  function DecodeIsize(j: Json): (r: Result<Isize>)
    ensures r.Ok? <==> j.Num? && j.n.Int? && -0x8000_0000_0000_0000 <= j.n.i < 0x8000_0000_0000_0000
    ensures r.Ok? ==> r.value == j.n.i
  {
    if j.Num? && j.n.Int? && -0x8000_0000_0000_0000 <= j.n.i < 0x8000_0000_0000_0000 then Ok(j.n.i)
    else if j.Num? && j.n.Int? then Err(OutOfRange)
    else Err(InvalidType("isize"))
  }

  /** The value an `f32` holds after reading a number of either form (precision is not modelled). */
  function NumberValue(n: Number): real
  {
    match n
    case Int(i) => i as real
    case Float(f) => f
  }

  /** An `f32` accepts every JSON number, the integer form included. */
  function DecodeF32(j: Json): (r: Result<real>)
    ensures r.Ok? <==> j.Num?
    ensures j.Num? && j.n.Float? ==> r == Ok(j.n.f)
    ensures j.Num? && j.n.Int? ==> r == Ok(j.n.i as real)
  {
    if j.Num? then Ok(NumberValue(j.n)) else Err(InvalidType("f32"))
  }

  function EncodeString(s: string): Json { Str(s) }

  function EncodeUsize(n: Usize): Json { Num(Int(n)) }

  /** An `f32` is written with a fraction, so it reads back as a float-form number. */
  function EncodeF32(f: real): Json { Num(Float(f)) }

  // ---------------------------------------------------------------------------
  // Sequences
  // ---------------------------------------------------------------------------

  /** All results succeed, or the whole fails: how a `Vec<T>` is decoded element by element. */
  function Collect<T>(rs: seq<Result<T>>): (r: Result<seq<T>>)
    ensures r.Ok? <==> forall i :: 0 <= i < |rs| ==> rs[i].Ok?
    ensures r.Ok? ==> |r.value| == |rs| && forall i :: 0 <= i < |rs| ==> rs[i] == Ok(r.value[i])
  {
    if |rs| == 0 then Ok([])
    else
      var rest := Collect(rs[1..]);
      if rs[0].Err? then Err(rs[0].error)
      else if rest.Err? then Err(rest.error)
      else
        assert forall i :: 1 <= i < |rs| ==> rs[i] == rs[1..][i - 1];
        Ok([rs[0].value] + rest.value)
  }

  /** A list of successes collects to the list of their values. */
  lemma CollectAllOk<T>(rs: seq<Result<T>>, xs: seq<T>)
    requires |rs| == |xs| && forall i :: 0 <= i < |rs| ==> rs[i] == Ok(xs[i])
    ensures Collect(rs) == Ok(xs)
  {
    var c := Collect(rs);
    assert c.value == xs;
  }

  function EncodeStrings(ss: seq<string>): (j: Json)
    ensures j.Arr? && |j.items| == |ss|
    ensures forall i :: 0 <= i < |ss| ==> j.items[i] == Str(ss[i])
  {
    Arr(seq(|ss|, i requires 0 <= i < |ss| => Str(ss[i])))
  }

  function DecodeStrings(j: Json): (r: Result<seq<string>>)
    ensures r.Ok? <==> j.Arr? && forall i :: 0 <= i < |j.items| ==> j.items[i].Str?
    ensures r.Ok? ==> |r.value| == |j.items| && forall i :: 0 <= i < |j.items| ==> j.items[i] == Str(r.value[i])
  {
    if j.Arr? then
      var rs := seq(|j.items|, i requires 0 <= i < |j.items| => DecodeString(j.items[i]));
      assert forall i :: 0 <= i < |j.items| ==> rs[i] == DecodeString(j.items[i]);
      Collect(rs)
    else Err(InvalidType("sequence"))
  }

  /** `Vec<Vec<String>>`, as in inline rows and subtotal specs. */
  function EncodeStringRows(rows: seq<seq<string>>): Json
  {
    Arr(seq(|rows|, i requires 0 <= i < |rows| => EncodeStrings(rows[i])))
  }

  function DecodeStringRows(j: Json): (r: Result<seq<seq<string>>>)
    ensures r.Ok? ==> j.Arr? && |r.value| == |j.items|
  {
    if j.Arr? then Collect(seq(|j.items|, i requires 0 <= i < |j.items| => DecodeStrings(j.items[i])))
    else Err(InvalidType("sequence"))
  }

  lemma StringsRoundTrip(ss: seq<string>)
    ensures DecodeStrings(EncodeStrings(ss)) == Ok(ss)
  {
    var r := DecodeStrings(EncodeStrings(ss));
    assert r.value == ss;
  }

  lemma StringRowsRoundTrip(rows: seq<seq<string>>)
    ensures DecodeStringRows(EncodeStringRows(rows)) == Ok(rows)
  {
    var j := EncodeStringRows(rows);
    var rs := seq(|j.items|, i requires 0 <= i < |j.items| => DecodeStrings(j.items[i]));
    forall i | 0 <= i < |rows| ensures rs[i] == Ok(rows[i]) {
      assert j.items[i] == EncodeStrings(rows[i]);
      StringsRoundTrip(rows[i]);
    }
    var c := Collect(rs);
    assert c.value == rows;
  }

  /** A `Vec<T>`, each element written with `encode`. */
  function EncodeSeq<T>(xs: seq<T>, encode: T -> Json): (j: Json)
    ensures j.Arr? && |j.items| == |xs|
    ensures forall i :: 0 <= i < |xs| ==> j.items[i] == encode(xs[i])
  {
    Arr(seq(|xs|, i requires 0 <= i < |xs| => encode(xs[i])))
  }

  /** A `Vec<T>`, each element read with `decode`; one failure fails the whole. */
  function DecodeSeq<T>(j: Json, decode: Json -> Result<T>): (r: Result<seq<T>>)
    ensures r.Ok? <==> j.Arr? && forall i :: 0 <= i < |j.items| ==> decode(j.items[i]).Ok?
    ensures r.Ok? ==> |r.value| == |j.items| && forall i :: 0 <= i < |j.items| ==> decode(j.items[i]) == Ok(r.value[i])
  {
    if j.Arr? then
      var rs := seq(|j.items|, i requires 0 <= i < |j.items| => decode(j.items[i]));
      assert forall i :: 0 <= i < |j.items| ==> rs[i] == decode(j.items[i]);
      Collect(rs)
    else Err(InvalidType("sequence"))
  }

  /** A list whose elements each read back as themselves reads back as itself. */
  lemma SeqRoundTrip<T>(xs: seq<T>, encode: T -> Json, decode: Json -> Result<T>)
    requires forall i :: 0 <= i < |xs| ==> decode(encode(xs[i])) == Ok(xs[i])
    ensures DecodeSeq(EncodeSeq(xs, encode), decode) == Ok(xs)
  {
    var r := DecodeSeq(EncodeSeq(xs, encode), decode);
    assert r.value == xs;
  }

  // ---------------------------------------------------------------------------
  // String-keyed maps (`HashMap<String, String>`)
  // ---------------------------------------------------------------------------

  /** A `HashMap<String, String>` is written as an object of strings (in an order the model leaves open). */
  function EncodeStringMap(m: map<string, string>): (j: Json)
    ensures j.Obj? && j.fields.Keys == m.Keys
    ensures forall k :: k in m ==> j.fields[k] == Str(m[k])
  {
    Obj(map k | k in m :: Str(m[k]))
  }

  /** Every entry must hold a string. */
  function DecodeStringMap(j: Json): (r: Result<map<string, string>>)
    ensures r.Ok? <==> j.Obj? && forall k :: k in j.fields ==> j.fields[k].Str?
    ensures r.Ok? ==> r.value.Keys == j.fields.Keys && forall k :: k in r.value ==> j.fields[k] == Str(r.value[k])
  {
    if j.Obj? && forall k :: k in j.fields ==> j.fields[k].Str? then
      Ok(map k | k in j.fields :: j.fields[k].s)
    else if j.Obj? then Err(InvalidType("string"))
    else Err(InvalidType("map"))
  }

  lemma StringMapRoundTrip(m: map<string, string>)
    ensures DecodeStringMap(EncodeStringMap(m)) == Ok(m)
  {
    var r := DecodeStringMap(EncodeStringMap(m));
    assert r.value == m;
  }

  // ---------------------------------------------------------------------------
  // Enumerations of unit variants
  // ---------------------------------------------------------------------------

  /**
   * A unit variant of an externally tagged enum reads from its name as a
   * string, or from a one-entry object mapping its name to `null`;
   * `fromName` recognises the names.
   */
  function DecodeUnit<T>(j: Json, fromName: string -> Option<T>): (r: Result<T>)
    ensures j.Str? ==> (r.Ok? <==> fromName(j.s).Some?)
    ensures j.Str? && r.Ok? ==> r.value == fromName(j.s).value
    ensures j.Obj? && |j.fields| == 1 && j.fields[OnlyKey(j.fields)] == Null ==>
      (r.Ok? <==> fromName(OnlyKey(j.fields)).Some?) && (r.Ok? ==> r.value == fromName(OnlyKey(j.fields)).value)
    ensures r.Ok? ==> j.Str? || (j.Obj? && |j.fields| == 1 && j.fields[OnlyKey(j.fields)] == Null)
  {
    match j
    case Str(s) => FromName(s, fromName)
    case Obj(fields) =>
      if |fields| == 1 && fields[OnlyKey(fields)] == Null then FromName(OnlyKey(fields), fromName)
      else Err(InvalidType("unit variant"))
    case _ => Err(InvalidType("unit variant"))
  }

  function FromName<T>(s: string, fromName: string -> Option<T>): (r: Result<T>)
    ensures r.Ok? <==> fromName(s).Some?
    ensures r.Ok? ==> r.value == fromName(s).value
  {
    match fromName(s)
    case Some(v) => Ok(v)
    case None => Err(UnknownVariant(s))
  }

  /** The `"type"` entry of an internally tagged value, which must be a string. */
  function TagOf(fields: map<string, Json>): (r: Result<string>)
    ensures r.Ok? <==> "type" in fields && fields["type"].Str?
    ensures r.Ok? ==> r.value == fields["type"].s
  {
    Field(fields, "type", DecodeString)
  }
}
