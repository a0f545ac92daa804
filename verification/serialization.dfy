/**
 * The two lenient decoding helpers of the serialization module:
 * `default_for_null`, which reads a JSON null as the type's default value,
 * and `tagged_or_untagged`, which reads a unit variant from a bare string,
 * from an object carrying a `"type"` entry, or from null.
 */
module Serialization {
  import opened Json

  /**
   * `default_for_null`: null decodes to the default value, any other value
   * exactly as the target type itself decodes it.
   */
  function DefaultForNull<T>(j: Json, decode: Json -> Result<T>, default: T): (r: Result<T>)
    ensures j == Null ==> r == Ok(default)
    ensures j != Null ==> r == decode(j)
  {
    if j.Null? then Ok(default) else decode(j)
  }

  /** A `Vec<String>` field read with `default_for_null`: null gives the empty list. */
  lemma NullStringListIsEmpty()
    ensures DefaultForNull(Null, DecodeStrings, []) == Ok([])
    ensures DefaultForNull(EncodeStrings(["a"]), DecodeStrings, []) == Ok(["a"])
  {
    StringsRoundTrip(["a"]);
  }

  /** ASCII lower-casing of one character. */
  function LowerChar(c: char): (d: char)
    ensures 'A' <= c <= 'Z' ==> d as int == c as int + 32
    ensures !('A' <= c <= 'Z') ==> d == c
    ensures !('A' <= d <= 'Z')
  {
    if 'A' <= c <= 'Z' then (c as int + 32) as char else c
  }

  /** `str::to_lowercase`, restricted to ASCII letters. */
  function Lower(s: string): (t: string)
    ensures |t| == |s|
    ensures forall i :: 0 <= i < |s| ==> t[i] == LowerChar(s[i])
  {
    seq(|s|, i requires 0 <= i < |s| => LowerChar(s[i]))
  }

  /** Lower-casing a lower-cased string changes nothing. */
  lemma LowerIdempotent(s: string)
    ensures Lower(Lower(s)) == Lower(s)
  {
    assert forall i :: 0 <= i < |s| ==> LowerChar(LowerChar(s[i])) == LowerChar(s[i]);
  }

  /** No string lower-cases to a name that holds an upper-case letter. */
  lemma LowerHasNoUpper(s: string, name: string, k: nat)
    requires k < |name| && 'A' <= name[k] <= 'Z'
    ensures Lower(s) != name
  {
  }

  /** `visit_str`: the whole string is lower-cased, then read as a variant name. */
  function VisitStr<T>(s: string, variant: string -> Option<T>): (r: Result<T>)
    ensures r.Ok? <==> variant(Lower(s)).Some?
    ensures r.Ok? ==> r.value == variant(Lower(s)).value
  {
    match variant(Lower(s))
    case Some(v) => Ok(v)
    case None => Err(UnknownVariant(Lower(s)))
  }

  /**
   * What `deserialize_any` hands the visitor: a string, an object as its
   * entries in document order, a unit (JSON null), or anything else.
   */
  datatype Input = Text(s: string) | Entries(entries: seq<(string, Json)>) | Unit | Other(value: Json)

  /** The position of the first entry with key `key`, or the entry count when there is none. */
  function FirstIndex(entries: seq<(string, Json)>, key: string): (i: nat)
    ensures i <= |entries|
    ensures i < |entries| ==> entries[i].0 == key
    ensures forall k :: 0 <= k < i ==> entries[k].0 != key
  {
    if |entries| == 0 then 0
    else if entries[0].0 == key then 0
    else 1 + FirstIndex(entries[1..], key)
  }

  /**
   * `visit_map`: entries are read in order as string-to-string pairs; the
   * first `"type"` entry is handled as a bare string.
   */
  function VisitMap<T>(entries: seq<(string, Json)>, variant: string -> Option<T>): Result<T>
  {
    if |entries| == 0 then Err(MissingField("type"))
    else if !entries[0].1.Str? then Err(InvalidType("string"))
    else if entries[0].0 == "type" then VisitStr(entries[0].1.s, variant)
    else VisitMap(entries[1..], variant)
  }

  /**
   * `tagged_or_untagged`: a bare string, an object with a `"type"` entry,
   * or null (the unit case, giving the default). `variant` reads a unit
   * variant from its exact name.
   */
  function TaggedOrUntagged<T>(input: Input, variant: string -> Option<T>, default: T): (r: Result<T>)
    ensures input == Unit ==> r == Ok(default)
    ensures input.Text? ==> r == VisitStr(input.s, variant)
    ensures input.Other? ==> r.Err?
  {
    match input
    case Text(s) => VisitStr(s, variant)
    case Entries(entries) => VisitMap(entries, variant)
    case Unit => Ok(default)
    case Other(_) => Err(InvalidType("string or map"))
  }

  /** Decoding a bare string is insensitive to its case. */
  lemma StringCaseInsensitive<T>(s: string, variant: string -> Option<T>, default: T)
    ensures TaggedOrUntagged(Text(s), variant, default) == TaggedOrUntagged(Text(Lower(s)), variant, default)
  {
    LowerIdempotent(s);
  }

  /** A variant whose name holds an upper-case letter cannot be chosen through a string. */
  lemma UpperCaseNameUnreachable<T>(s: string, variant: string -> Option<T>, default: T, name: string, k: nat)
    requires k < |name| && 'A' <= name[k] <= 'Z'
    requires forall x :: variant(x).Some? ==> x == name
    ensures TaggedOrUntagged(Text(s), variant, default).Err?
  {
    LowerHasNoUpper(s, name, k);
  }

  /**
   * On an object whose entries up to and including the first `"type"` key
   * all hold strings, the result is that of the `"type"` value read as a
   * bare string; later entries are never looked at.
   */
  lemma {:induction false} FirstTypeEntryDecides<T>(entries: seq<(string, Json)>, variant: string -> Option<T>, default: T)
    requires FirstIndex(entries, "type") < |entries|
    requires forall k :: 0 <= k <= FirstIndex(entries, "type") ==> entries[k].1.Str?
    ensures TaggedOrUntagged(Entries(entries), variant, default)
         == TaggedOrUntagged(Text(entries[FirstIndex(entries, "type")].1.s), variant, default)
  {
    if entries[0].0 != "type" {
      assert FirstIndex(entries[1..], "type") == FirstIndex(entries, "type") - 1;
      FirstTypeEntryDecides(entries[1..], variant, default);
    }
  }

  /** Without a `"type"` key an object is rejected. */
  lemma {:induction false} MissingTypeRejected<T>(entries: seq<(string, Json)>, variant: string -> Option<T>, default: T)
    requires FirstIndex(entries, "type") == |entries|
    ensures TaggedOrUntagged(Entries(entries), variant, default).Err?
  {
    if |entries| > 0 && entries[0].1.Str? {
      assert FirstIndex(entries[1..], "type") == |entries| - 1;
      MissingTypeRejected(entries[1..], variant, default);
    }
  }

  /** An entry holding a non-string value before the first `"type"` key makes the object fail. */
  lemma {:induction false} NonStringBeforeTypeRejected<T>(entries: seq<(string, Json)>, variant: string -> Option<T>, default: T, k: nat)
    requires k <= FirstIndex(entries, "type") && k < |entries| && !entries[k].1.Str?
    ensures TaggedOrUntagged(Entries(entries), variant, default).Err?
  {
    if k > 0 && entries[0].1.Str? {
      assert FirstIndex(entries[1..], "type") == FirstIndex(entries, "type") - 1;
      NonStringBeforeTypeRejected(entries[1..], variant, default, k - 1);
    }
  }

  /** The source's own example: a two-variant enum with camelCase names and `One` as default. */
  datatype Tagged = One | Two

  function TaggedVariant(name: string): Option<Tagged>
  {
    if name == "one" then Some(One) else if name == "two" then Some(Two) else None
  }

  lemma TaggedExamples()
    ensures TaggedOrUntagged(Text("One"), TaggedVariant, One) == Ok(One)
    ensures TaggedOrUntagged(Entries([("type", Str("Two"))]), TaggedVariant, One) == Ok(Two)
    ensures TaggedOrUntagged(Unit, TaggedVariant, One) == Ok(One)
    ensures TaggedOrUntagged(Entries([("kind", Str("two"))]), TaggedVariant, One).Err?
  {
    assert Lower("One") == "one";
    assert Lower("Two") == "two";
  }
}
