/**
 * The building blocks shared by the native queries: dimension specs,
 * aggregations, granularities, extraction functions, filters and their
 * search specs, and the small enumerations they use, each with its JSON
 * encoding (as the serde derives write it) and decoding (as they read it).
 */
module Definitions {
  import opened Json

  // ---------------------------------------------------------------------------
  // Unit enumerations
  // ---------------------------------------------------------------------------

  /** `OutputType`: written with its Rust name as is. */
  datatype OutputType = STRING | LONG | FLOAT

  function OutputTypeName(t: OutputType): string
  {
    match t
    case STRING => "STRING"
    case LONG => "LONG"
    case FLOAT => "FLOAT"
  }

  function OutputTypeFromName(s: string): (r: Option<OutputType>)
    ensures r.Some? ==> OutputTypeName(r.value) == s
  {
    if s == "STRING" then Some(STRING)
    else if s == "LONG" then Some(LONG)
    else if s == "FLOAT" then Some(FLOAT)
    else None
  }

  function EncodeOutputType(t: OutputType): Json { Str(OutputTypeName(t)) }

  function DecodeOutputType(j: Json): Result<OutputType> { DecodeUnit(j, OutputTypeFromName) }

  /** `HllType`: written with its Rust name as is. */
  datatype HllType = HLL_4 | HLL_6 | HLL_8

  function HllTypeName(t: HllType): string
  {
    match t
    case HLL_4 => "HLL_4"
    case HLL_6 => "HLL_6"
    case HLL_8 => "HLL_8"
  }

  function HllTypeFromName(s: string): (r: Option<HllType>)
    ensures r.Some? ==> HllTypeName(r.value) == s
  {
    if s == "HLL_4" then Some(HLL_4)
    else if s == "HLL_6" then Some(HLL_6)
    else if s == "HLL_8" then Some(HLL_8)
    else None
  }

  function EncodeHllType(t: HllType): Json { Str(HllTypeName(t)) }

  function DecodeHllType(j: Json): Result<HllType> { DecodeUnit(j, HllTypeFromName) }

  /** `NullHandling`: camelCase names. */
  datatype NullHandling = NullString | EmptyString | ReturnNull

  function NullHandlingName(h: NullHandling): string
  {
    match h
    case NullString => "nullString"
    case EmptyString => "emptyString"
    case ReturnNull => "returnNull"
  }

  function NullHandlingFromName(s: string): (r: Option<NullHandling>)
    ensures r.Some? ==> NullHandlingName(r.value) == s
  {
    if s == "nullString" then Some(NullString)
    else if s == "emptyString" then Some(EmptyString)
    else if s == "returnNull" then Some(ReturnNull)
    else None
  }

  function EncodeNullHandling(h: NullHandling): Json { Str(NullHandlingName(h)) }

  function DecodeNullHandling(j: Json): Result<NullHandling> { DecodeUnit(j, NullHandlingFromName) }

  /** `Ordering`: camelCase names; the source's `None` variant is `Unordered` here. */
  datatype Ordering = Ascending | Descending | Unordered

  function OrderingName(o: Ordering): string
  {
    match o
    case Ascending => "ascending"
    case Descending => "descending"
    case Unordered => "none"
  }

  function OrderingFromName(s: string): (r: Option<Ordering>)
    ensures r.Some? ==> OrderingName(r.value) == s
  {
    if s == "ascending" then Some(Ascending)
    else if s == "descending" then Some(Descending)
    else if s == "none" then Some(Unordered)
    else None
  }

  function EncodeOrdering(o: Ordering): Json { Str(OrderingName(o)) }

  function DecodeOrdering(j: Json): Result<Ordering> { DecodeUnit(j, OrderingFromName) }

  /** `SortingOrder`: camelCase names. */
  datatype SortingOrder = Lexicographic | Alphanumeric | Strlen | Numeric

  function SortingOrderName(o: SortingOrder): string
  {
    match o
    case Lexicographic => "lexicographic"
    case Alphanumeric => "alphanumeric"
    case Strlen => "strlen"
    case Numeric => "numeric"
  }

  function SortingOrderFromName(s: string): (r: Option<SortingOrder>)
    ensures r.Some? ==> SortingOrderName(r.value) == s
  {
    if s == "lexicographic" then Some(Lexicographic)
    else if s == "alphanumeric" then Some(Alphanumeric)
    else if s == "strlen" then Some(SortingOrder.Strlen)
    else if s == "numeric" then Some(Numeric)
    else None
  }

  function EncodeSortingOrder(o: SortingOrder): Json { Str(SortingOrderName(o)) }

  function DecodeSortingOrder(j: Json): Result<SortingOrder> { DecodeUnit(j, SortingOrderFromName) }

  // ---------------------------------------------------------------------------
  // Granularity
  // ---------------------------------------------------------------------------

  /**
   * `Granularity`: snake_case unit variants, plus `Duration`, written as
   * `{"duration": {"duration": n}}`. The source's `None` is `NoGranularity`.
   */
  datatype Granularity =
    | All | NoGranularity | Second | Minute | FifteenMinute | ThirtyMinute
    | Hour | Day | Week | Month | Quarter | Year
    | Duration(duration: Usize)

  /** The wire name of a variant (for `Duration`, the key of its one-entry object). */
  function GranularityName(g: Granularity): string
  {
    match g
    case All => "all"
    case NoGranularity => "none"
    case Second => "second"
    case Minute => "minute"
    case FifteenMinute => "fifteen_minute"
    case ThirtyMinute => "thirty_minute"
    case Hour => "hour"
    case Day => "day"
    case Week => "week"
    case Month => "month"
    case Quarter => "quarter"
    case Year => "year"
    case Duration(_) => "duration"
  }

  /** Recognises the names of the unit variants only. */
  function GranularityFromName(s: string): (r: Option<Granularity>)
    ensures r.Some? ==> !r.value.Duration? && GranularityName(r.value) == s
  {
    if s == "all" then Some(All)
    else if s == "none" then Some(NoGranularity)
    else if s == "second" then Some(Second)
    else if s == "minute" then Some(Minute)
    else if s == "fifteen_minute" then Some(FifteenMinute)
    else if s == "thirty_minute" then Some(ThirtyMinute)
    else if s == "hour" then Some(Hour)
    else if s == "day" then Some(Day)
    else if s == "week" then Some(Week)
    else if s == "month" then Some(Month)
    else if s == "quarter" then Some(Quarter)
    else if s == "year" then Some(Year)
    else None
  }

  function EncodeGranularity(g: Granularity): Json
  {
    match g
    case Duration(d) => Obj(map["duration" := Obj(map["duration" := EncodeUsize(d)])])
    case _ => Str(GranularityName(g))
  }

  function DecodeGranularity(j: Json): (r: Result<Granularity>)
    ensures r.Ok? && r.value.Duration? ==> j.Obj? && |j.fields| == 1 && "duration" in j.fields
  {
    if j.Obj? && |j.fields| == 1 && "duration" in j.fields then
      var body := j.fields["duration"];
      if body.Obj? then
        var d :- Field(body.fields, "duration", DecodeUsize);
        Ok(Duration(d))
      else Err(InvalidType("struct variant"))
    else DecodeUnit(j, GranularityFromName)
  }

  // ---------------------------------------------------------------------------
  // Lookup maps
  // ---------------------------------------------------------------------------

  /**
   * `LookupMap`: written as `{"type": "map", "map": {..}, "isOneToOne": b}`.
   * The `"type"` entry is only written: reading ignores it like any other
   * unknown key.
   */
  datatype LookupMapSpec = LookupMapSpec(entries: map<string, string>, isOneToOne: bool)

  function EncodeLookupMap(l: LookupMapSpec): Json
  {
    Obj(map["type" := Str("map"), "map" := EncodeStringMap(l.entries), "isOneToOne" := Bool(l.isOneToOne)])
  }

  function DecodeLookupMap(j: Json): Result<LookupMapSpec>
  {
    if j.Obj? then
      var entries :- Field(j.fields, "map", DecodeStringMap);
      var isOneToOne :- Field(j.fields, "isOneToOne", DecodeBool);
      Ok(LookupMapSpec(entries, isOneToOne))
    else Err(InvalidType("struct LookupMap"))
  }

  // ---------------------------------------------------------------------------
  // Extraction functions
  // ---------------------------------------------------------------------------

  /**
   * `ExtractFN`, externally tagged with camelCase variant names: `Strlen`
   * is the bare string `"strlen"`, every other variant a one-entry object
   * from its name to its camelCase fields. Field names that Dafny reserves
   * or that two variants use with different types are renamed here
   * (`script` is the wire key `function`, `template` the key `format` of
   * `stringFormat`, `lookupName` the key `lookup` of `registeredLookup`,
   * `replaceWith` the key `replaceMissingValueWith` of `lookup`).
   */
  datatype ExtractFn =
    | Regex(expr: string, index: Usize, replaceMissingValue: bool, replaceMissingValueWith: Option<string>)
    | Partial(expr: string)
    | Substring(index: Usize, length: Option<Usize>)
    | Strlen
    | TimeFormat(format: Option<string>, timeZone: Option<string>, locale: Option<string>,
                 granularity: Option<Granularity>, asMillis: bool)
    | Time(timeFormat: string, resultFormat: string, joda: bool)
    | Javascript(script: string)
    | RegisteredLookup(lookupName: string, retainMissingValue: bool)
    | Lookup(lookup: LookupMapSpec, retainMissingValue: bool, injective: bool, replaceWith: string)
    | Cascade(extractionFns: seq<ExtractFn>)
    | StringFormat(template: string, nullHandling: Option<NullHandling>)
    | Upper(locale: Option<string>)
    | Lower(locale: Option<string>)
    | Bucket(size: Usize, offset: Usize)

  function ExtractFnName(e: ExtractFn): string
  {
    match e
    case Regex(_, _, _, _) => "regex"
    case Partial(_) => "partial"
    case Substring(_, _) => "substring"
    case Strlen => "strlen"
    case TimeFormat(_, _, _, _, _) => "timeFormat"
    case Time(_, _, _) => "time"
    case Javascript(_) => "javascript"
    case RegisteredLookup(_, _) => "registeredLookup"
    case Lookup(_, _, _, _) => "lookup"
    case Cascade(_) => "cascade"
    case StringFormat(_, _) => "stringFormat"
    case Upper(_) => "upper"
    case Lower(_) => "lower"
    case Bucket(_, _) => "bucket"
  }

  function EncodeExtractFn(e: ExtractFn): Json
    decreases e, 1
  {
    match e
    case Strlen => Str("strlen")
    case _ => Obj(map[ExtractFnName(e) := EncodeExtractFnBody(e)])
  }

  /** The object of fields a struct variant of `ExtractFN` is written as. */
  function EncodeExtractFnBody(e: ExtractFn): Json
    decreases e, 0
  {
    match e
    case Regex(expr, index, replaceMissingValue, replaceMissingValueWith) =>
      Obj(map[
        "expr" := Str(expr),
        "index" := EncodeUsize(index),
        "replaceMissingValue" := Bool(replaceMissingValue),
        "replaceMissingValueWith" := EncodeOpt(replaceMissingValueWith, EncodeString)])
    case Partial(expr) => Obj(map["expr" := Str(expr)])
    case Substring(index, length) => Obj(map["index" := EncodeUsize(index), "length" := EncodeOpt(length, EncodeUsize)])
    case Strlen => Null
    case TimeFormat(format, timeZone, locale, granularity, asMillis) =>
      Obj(map[
        "format" := EncodeOpt(format, EncodeString),
        "timeZone" := EncodeOpt(timeZone, EncodeString),
        "locale" := EncodeOpt(locale, EncodeString),
        "granularity" := EncodeOpt(granularity, EncodeGranularity),
        "asMillis" := Bool(asMillis)])
    case Time(timeFormat, resultFormat, joda) =>
      Obj(map["timeFormat" := Str(timeFormat), "resultFormat" := Str(resultFormat), "joda" := Bool(joda)])
    case Javascript(script) => Obj(map["function" := Str(script)])
    case RegisteredLookup(lookupName, retainMissingValue) =>
      Obj(map["lookup" := Str(lookupName), "retainMissingValue" := Bool(retainMissingValue)])
    case Lookup(lookup, retainMissingValue, injective, replaceWith) =>
      Obj(map[
        "lookup" := EncodeLookupMap(lookup),
        "retainMissingValue" := Bool(retainMissingValue),
        "injective" := Bool(injective),
        "replaceMissingValueWith" := Str(replaceWith)])
    case Cascade(fns) =>
      Obj(map["extractionFns" := Arr(seq(|fns|, i requires 0 <= i < |fns| => EncodeExtractFn(fns[i])))])
    case StringFormat(template, nullHandling) =>
      Obj(map["format" := Str(template), "nullHandling" := EncodeOpt(nullHandling, EncodeNullHandling)])
    case Upper(locale) => Obj(map["locale" := EncodeOpt(locale, EncodeString)])
    case Lower(locale) => Obj(map["locale" := EncodeOpt(locale, EncodeString)])
    case Bucket(size, offset) => Obj(map["size" := EncodeUsize(size), "offset" := EncodeUsize(offset)])
  }

  function DecodeExtractFn(j: Json): Result<ExtractFn>
    decreases j, 2
  {
    match j
    case Str(s) => if s == "strlen" then Ok(ExtractFn.Strlen) else Err(UnknownVariant(s))
    case Obj(fields) =>
      if |fields| != 1 then Err(InvalidType("map with a single key"))
      else
        var name := OnlyKey(fields);
        if name == "strlen" then
          if fields[name] == Null then Ok(ExtractFn.Strlen) else Err(InvalidType("unit variant"))
        else if fields[name].Obj? then DecodeExtractFnAs(name, fields[name])
        else Err(InvalidType("struct variant"))
    case _ => Err(InvalidType("string or map"))
  }

  /** The fields of the struct variant named `name`. */
  function DecodeExtractFnAs(name: string, body: Json): Result<ExtractFn>
    requires body.Obj?
    decreases body, 1
  {
    var f := body.fields;
    if name == "regex" then DecodeRegexFn(f)
    else if name == "partial" then DecodePartialFn(f)
    else if name == "substring" then DecodeSubstringFn(f)
    else if name == "timeFormat" then DecodeTimeFormatFn(f)
    else if name == "time" then DecodeTimeFn(f)
    else if name == "javascript" then DecodeJavascriptFn(f)
    else if name == "registeredLookup" then DecodeRegisteredLookupFn(f)
    else if name == "lookup" then DecodeLookupFn(f)
    else if name == "cascade" then DecodeCascadeFn(body)
    else if name == "stringFormat" then DecodeStringFormatFn(f)
    else if name == "upper" then DecodeUpperFn(f)
    else if name == "lower" then DecodeLowerFn(f)
    else if name == "bucket" then DecodeBucketFn(f)
    else Err(UnknownVariant(name))
  }

  function DecodeRegexFn(f: map<string, Json>): Result<ExtractFn>
  {
    var expr :- Field(f, "expr", DecodeString);
    var index :- Field(f, "index", DecodeUsize);
    var replaceMissingValue :- Field(f, "replaceMissingValue", DecodeBool);
    var replaceMissingValueWith :- OptField(f, "replaceMissingValueWith", DecodeString);
    Ok(ExtractFn.Regex(expr, index, replaceMissingValue, replaceMissingValueWith))
  }

  function DecodePartialFn(f: map<string, Json>): Result<ExtractFn>
  {
    var expr :- Field(f, "expr", DecodeString);
    Ok(Partial(expr))
  }

  function DecodeSubstringFn(f: map<string, Json>): Result<ExtractFn>
  {
    var index :- Field(f, "index", DecodeUsize);
    var length :- OptField(f, "length", DecodeUsize);
    Ok(Substring(index, length))
  }

  function DecodeTimeFormatFn(f: map<string, Json>): Result<ExtractFn>
  {
    var format :- OptField(f, "format", DecodeString);
    var timeZone :- OptField(f, "timeZone", DecodeString);
    var locale :- OptField(f, "locale", DecodeString);
    var granularity :- OptField(f, "granularity", DecodeGranularity);
    var asMillis :- Field(f, "asMillis", DecodeBool);
    Ok(TimeFormat(format, timeZone, locale, granularity, asMillis))
  }

  function DecodeTimeFn(f: map<string, Json>): Result<ExtractFn>
  {
    var timeFormat :- Field(f, "timeFormat", DecodeString);
    var resultFormat :- Field(f, "resultFormat", DecodeString);
    var joda :- Field(f, "joda", DecodeBool);
    Ok(Time(timeFormat, resultFormat, joda))
  }

  function DecodeJavascriptFn(f: map<string, Json>): Result<ExtractFn>
  {
    var script :- Field(f, "function", DecodeString);
    Ok(ExtractFn.Javascript(script))
  }

  function DecodeRegisteredLookupFn(f: map<string, Json>): Result<ExtractFn>
  {
    var lookupName :- Field(f, "lookup", DecodeString);
    var retainMissingValue :- Field(f, "retainMissingValue", DecodeBool);
    Ok(RegisteredLookup(lookupName, retainMissingValue))
  }

  function DecodeLookupFn(f: map<string, Json>): Result<ExtractFn>
  {
    var lookup :- Field(f, "lookup", DecodeLookupMap);
    var retainMissingValue :- Field(f, "retainMissingValue", DecodeBool);
    var injective :- Field(f, "injective", DecodeBool);
    var replaceWith :- Field(f, "replaceMissingValueWith", DecodeString);
    Ok(ExtractFn.Lookup(lookup, retainMissingValue, injective, replaceWith))
  }

  function DecodeCascadeFn(body: Json): Result<ExtractFn>
    requires body.Obj?
    decreases body, 0
  {
    var f := body.fields;
    if "extractionFns" !in f then Err(MissingField("extractionFns"))
    else
    var v := f["extractionFns"];
    if v.Arr? then
      var fns :- Collect(seq(|v.items|, k requires 0 <= k < |v.items| => DecodeExtractFn(v.items[k])));
      Ok(Cascade(fns))
    else Err(InvalidType("sequence"))
  }

  function DecodeStringFormatFn(f: map<string, Json>): Result<ExtractFn>
  {
    var template :- Field(f, "format", DecodeString);
    var nullHandling :- OptField(f, "nullHandling", DecodeNullHandling);
    Ok(StringFormat(template, nullHandling))
  }

  function DecodeUpperFn(f: map<string, Json>): Result<ExtractFn>
  {
    var locale :- OptField(f, "locale", DecodeString);
    Ok(Upper(locale))
  }

  function DecodeLowerFn(f: map<string, Json>): Result<ExtractFn>
  {
    var locale :- OptField(f, "locale", DecodeString);
    Ok(Lower(locale))
  }

  function DecodeBucketFn(f: map<string, Json>): Result<ExtractFn>
  {
    var size :- Field(f, "size", DecodeUsize);
    var offset :- Field(f, "offset", DecodeUsize);
    Ok(Bucket(size, offset))
  }

  // ---------------------------------------------------------------------------
  // Dimension specs
  // ---------------------------------------------------------------------------

  /**
   * `Dimension`, internally tagged by `"type"` with camelCase variant names.
   * The fields of `Extraction` keep the source's spelling `dimenstion`;
   * `Lookup` has no field renaming, so its output name is `output_name` on
   * the wire. `LookupMap` is written with the tag `"lookup"` but read from
   * the tag `"lookupMap"`.
   */
  datatype Dimension =
    | Default(dimension: string, outputName: string, outputType: OutputType)
    | Extraction(dimenstion: string, outputName: string, outputType: OutputType, extractionFn: ExtractFn)
    | ListFiltered(delegate: Dimension, values: seq<string>, isWhitelist: bool)
    | RegexFiltered(delegate: Dimension, pattern: string)
    | PrefixFiltered(delegate: Dimension, prefix: string)
    | LookupMap(dimension: string, outputName: string, replaceMissingValueWith: string,
                retainMissingValue: bool, lookup: LookupMapSpec)
    | Lookup(dimension: string, outputName: string, name: string)

  /** The tag a dimension spec is written with. */
  function DimensionTag(d: Dimension): string
  {
    match d
    case Default(_, _, _) => "default"
    case Extraction(_, _, _, _) => "extraction"
    case ListFiltered(_, _, _) => "listFiltered"
    case RegexFiltered(_, _) => "regexFiltered"
    case PrefixFiltered(_, _) => "prefixFiltered"
    case LookupMap(_, _, _, _, _) => "lookup"
    case Lookup(_, _, _) => "lookup"
  }

  function EncodeDimension(d: Dimension): Json
  {
    var tag := Str(DimensionTag(d));
    match d
    case Default(dimension, outputName, outputType) =>
      Obj(map[
        "type" := tag,
        "dimension" := Str(dimension),
        "outputName" := Str(outputName),
        "outputType" := EncodeOutputType(outputType)])
    case Extraction(dimenstion, outputName, outputType, extractionFn) =>
      Obj(map[
        "type" := tag,
        "dimenstion" := Str(dimenstion),
        "outputName" := Str(outputName),
        "outputType" := EncodeOutputType(outputType),
        "extractionFn" := EncodeExtractFn(extractionFn)])
    case ListFiltered(delegate, values, isWhitelist) =>
      Obj(map[
        "type" := tag,
        "delegate" := EncodeDimension(delegate),
        "values" := EncodeStrings(values),
        "isWhitelist" := Bool(isWhitelist)])
    case RegexFiltered(delegate, pattern) =>
      Obj(map["type" := tag, "delegate" := EncodeDimension(delegate), "pattern" := Str(pattern)])
    case PrefixFiltered(delegate, prefix) =>
      Obj(map["type" := tag, "delegate" := EncodeDimension(delegate), "prefix" := Str(prefix)])
    case LookupMap(dimension, outputName, replaceMissingValueWith, retainMissingValue, lookup) =>
      Obj(map[
        "type" := tag,
        "dimension" := Str(dimension),
        "outputName" := Str(outputName),
        "replaceMissingValueWith" := Str(replaceMissingValueWith),
        "retainMissingValue" := Bool(retainMissingValue),
        "lookup" := EncodeLookupMap(lookup)])
    case Lookup(dimension, outputName, name) =>
      Obj(map[
        "type" := tag,
        "dimension" := Str(dimension),
        "output_name" := Str(outputName),
        "name" := Str(name)])
  }

  function DecodeDimension(j: Json): Result<Dimension>
    decreases j, 1
  {
    if j.Obj? then
      var tag :- TagOf(j.fields);
      DecodeDimensionAs(tag, j)
    else Err(InvalidType("internally tagged enum"))
  }

  function DecodeDimensionAs(tag: string, j: Json): Result<Dimension>
    requires j.Obj?
    decreases j, 0
  {
    var f := j.fields;
    if tag == "default" then
      var dimension :- Field(f, "dimension", DecodeString);
      var outputName :- Field(f, "outputName", DecodeString);
      var outputType :- Field(f, "outputType", DecodeOutputType);
      Ok(Default(dimension, outputName, outputType))
    else if tag == "extraction" then
      var dimenstion :- Field(f, "dimenstion", DecodeString);
      var outputName :- Field(f, "outputName", DecodeString);
      var outputType :- Field(f, "outputType", DecodeOutputType);
      var extractionFn :- Field(f, "extractionFn", DecodeExtractFn);
      Ok(Extraction(dimenstion, outputName, outputType, extractionFn))
    else if tag == "listFiltered" then
      if "delegate" !in f then Err(MissingField("delegate"))
      else
      var delegate :- DecodeDimension(f["delegate"]);
      var values :- Field(f, "values", DecodeStrings);
      var isWhitelist :- Field(f, "isWhitelist", DecodeBool);
      Ok(ListFiltered(delegate, values, isWhitelist))
    else if tag == "regexFiltered" then
      if "delegate" !in f then Err(MissingField("delegate"))
      else
      var delegate :- DecodeDimension(f["delegate"]);
      var pattern :- Field(f, "pattern", DecodeString);
      Ok(RegexFiltered(delegate, pattern))
    else if tag == "prefixFiltered" then
      if "delegate" !in f then Err(MissingField("delegate"))
      else
      var delegate :- DecodeDimension(f["delegate"]);
      var prefix :- Field(f, "prefix", DecodeString);
      Ok(PrefixFiltered(delegate, prefix))
    else if tag == "lookupMap" then
      var dimension :- Field(f, "dimension", DecodeString);
      var outputName :- Field(f, "outputName", DecodeString);
      var replaceMissingValueWith :- Field(f, "replaceMissingValueWith", DecodeString);
      var retainMissingValue :- Field(f, "retainMissingValue", DecodeBool);
      var lookup :- Field(f, "lookup", DecodeLookupMap);
      Ok(LookupMap(dimension, outputName, replaceMissingValueWith, retainMissingValue, lookup))
    else if tag == "lookup" then
      var dimension :- Field(f, "dimension", DecodeString);
      var outputName :- Field(f, "output_name", DecodeString);
      var name :- Field(f, "name", DecodeString);
      Ok(Dimension.Lookup(dimension, outputName, name))
    else Err(UnknownVariant(tag))
  }

  /** `Dimension::default`: the output name is the dimension itself, typed as a string. */
  function DefaultDimension(dimension: string): (d: Dimension)
    ensures d.Default? && d.dimension == dimension && d.outputName == dimension && d.outputType == STRING
  {
    Default(dimension, dimension, STRING)
  }

  /** `Dimension::regex`: keeps the values of `delegate` that match `pattern`. */
  function RegexDimension(delegate: Dimension, pattern: string): (d: Dimension)
    ensures d.RegexFiltered? && d.delegate == delegate && d.pattern == pattern
  {
    RegexFiltered(delegate, pattern)
  }

  /** `Dimension::prefix`: keeps the values of `delegate` that start with `prefix`. */
  function PrefixDimension(delegate: Dimension, prefix: string): (d: Dimension)
    ensures d.PrefixFiltered? && d.delegate == delegate && d.prefix == prefix
  {
    PrefixFiltered(delegate, prefix)
  }

  // ---------------------------------------------------------------------------
  // Filters
  // ---------------------------------------------------------------------------

  /** `FilterQuerySpec`, internally tagged with snake_case names and camelCase fields. */
  datatype FilterQuerySpec =
    | Contains(value: string, caseSensitive: bool)
    | InsensitiveContains(value: string)
    | Fragment(values: seq<string>, caseSensitive: bool)

  function EncodeFilterQuerySpec(q: FilterQuerySpec): Json
  {
    match q
    case Contains(value, caseSensitive) =>
      Obj(map["type" := Str("contains"), "value" := Str(value), "caseSensitive" := Bool(caseSensitive)])
    case InsensitiveContains(value) =>
      Obj(map["type" := Str("insensitive_contains"), "value" := Str(value)])
    case Fragment(values, caseSensitive) =>
      Obj(map[
        "type" := Str("fragment"),
        "values" := EncodeStrings(values),
        "caseSensitive" := Bool(caseSensitive)])
  }

  function DecodeFilterQuerySpec(j: Json): Result<FilterQuerySpec>
  {
    if j.Obj? then
      var f := j.fields;
      var tag :- TagOf(f);
      if tag == "contains" then
        var value :- Field(f, "value", DecodeString);
        var caseSensitive :- Field(f, "caseSensitive", DecodeBool);
        Ok(Contains(value, caseSensitive))
      else if tag == "insensitive_contains" then
        var value :- Field(f, "value", DecodeString);
        Ok(InsensitiveContains(value))
      else if tag == "fragment" then
        var values :- Field(f, "values", DecodeStrings);
        var caseSensitive :- Field(f, "caseSensitive", DecodeBool);
        Ok(Fragment(values, caseSensitive))
      else Err(UnknownVariant(tag))
    else Err(InvalidType("internally tagged enum"))
  }

  /**
   * `Filter`, internally tagged by `"type"` with camelCase variant names;
   * `script` is the wire key `function` of the JavaScript filter.
   */
  datatype Filter =
    | Selector(dimension: string, value: string, extractFn: Option<ExtractFn>)
    | ColumnComparison(dimensions: seq<string>)
    | Regex(dimension: string, pattern: string)
    | And(fields: seq<Filter>)
    | Or(fields: seq<Filter>)
    | Not(field: Filter)
    | Javascript(dimension: string, script: string)
    | Search(dimension: string, query: FilterQuerySpec)
    | In(dimension: string, values: seq<string>)
    | Like(dimension: string, pattern: string, escape: Option<string>, extractionFn: Option<ExtractFn>)
    | Bound(dimension: string, lower: string, upper: string, lowerStrict: bool, upperStrict: bool,
            ordering: SortingOrder, extractionFn: Option<ExtractFn>)
    | Interval(dimension: string, intervals: seq<string>, extractionFn: Option<ExtractFn>)
    | True

  function FilterTag(f: Filter): string
  {
    match f
    case Selector(_, _, _) => "selector"
    case ColumnComparison(_) => "columnComparison"
    case Regex(_, _) => "regex"
    case And(_) => "and"
    case Or(_) => "or"
    case Not(_) => "not"
    case Javascript(_, _) => "javascript"
    case Search(_, _) => "search"
    case In(_, _) => "in"
    case Like(_, _, _, _) => "like"
    case Bound(_, _, _, _, _, _, _) => "bound"
    case Interval(_, _, _) => "interval"
    case True => "true"
  }

  function EncodeFilter(f: Filter): Json
  {
    var tag := Str(FilterTag(f));
    match f
    case Selector(dimension, value, extractFn) =>
      Obj(map[
        "type" := tag,
        "dimension" := Str(dimension),
        "value" := Str(value),
        "extractFn" := EncodeOpt(extractFn, EncodeExtractFn)])
    case ColumnComparison(dimensions) => Obj(map["type" := tag, "dimensions" := EncodeStrings(dimensions)])
    case Regex(dimension, pattern) =>
      Obj(map["type" := tag, "dimension" := Str(dimension), "pattern" := Str(pattern)])
    case And(fs) =>
      Obj(map["type" := tag, "fields" := Arr(seq(|fs|, i requires 0 <= i < |fs| => EncodeFilter(fs[i])))])
    case Or(fs) =>
      Obj(map["type" := tag, "fields" := Arr(seq(|fs|, i requires 0 <= i < |fs| => EncodeFilter(fs[i])))])
    case Not(field) => Obj(map["type" := tag, "field" := EncodeFilter(field)])
    case Javascript(dimension, script) =>
      Obj(map["type" := tag, "dimension" := Str(dimension), "function" := Str(script)])
    case Search(dimension, query) =>
      Obj(map["type" := tag, "dimension" := Str(dimension), "query" := EncodeFilterQuerySpec(query)])
    case In(dimension, values) =>
      Obj(map["type" := tag, "dimension" := Str(dimension), "values" := EncodeStrings(values)])
    case Like(dimension, pattern, escape, extractionFn) =>
      Obj(map[
        "type" := tag,
        "dimension" := Str(dimension),
        "pattern" := Str(pattern),
        "escape" := EncodeOpt(escape, EncodeString),
        "extractionFn" := EncodeOpt(extractionFn, EncodeExtractFn)])
    case Bound(dimension, lower, upper, lowerStrict, upperStrict, ordering, extractionFn) =>
      Obj(map[
        "type" := tag,
        "dimension" := Str(dimension),
        "lower" := Str(lower),
        "upper" := Str(upper),
        "lowerStrict" := Bool(lowerStrict),
        "upperStrict" := Bool(upperStrict),
        "ordering" := EncodeSortingOrder(ordering),
        "extractionFn" := EncodeOpt(extractionFn, EncodeExtractFn)])
    case Interval(dimension, intervals, extractionFn) =>
      Obj(map[
        "type" := tag,
        "dimension" := Str(dimension),
        "intervals" := EncodeStrings(intervals),
        "extractionFn" := EncodeOpt(extractionFn, EncodeExtractFn)])
    case True => Obj(map["type" := tag])
  }

  function DecodeFilter(j: Json): Result<Filter>
    decreases j, 1
  {
    if j.Obj? then
      var tag :- TagOf(j.fields);
      DecodeFilterAs(tag, j)
    else Err(InvalidType("internally tagged enum"))
  }

  function DecodeFilterAs(tag: string, j: Json): Result<Filter>
    requires j.Obj?
    decreases j, 0
  {
    var f := j.fields;
    if tag == "selector" then
      var dimension :- Field(f, "dimension", DecodeString);
      var value :- Field(f, "value", DecodeString);
      var extractFn :- OptField(f, "extractFn", DecodeExtractFn);
      Ok(Selector(dimension, value, extractFn))
    else if tag == "columnComparison" then
      var dimensions :- Field(f, "dimensions", DecodeStrings);
      Ok(ColumnComparison(dimensions))
    else if tag == "regex" then
      var dimension :- Field(f, "dimension", DecodeString);
      var pattern :- Field(f, "pattern", DecodeString);
      Ok(Filter.Regex(dimension, pattern))
    else if tag == "and" || tag == "or" then
      if "fields" !in f then Err(MissingField("fields"))
      else
      var v := f["fields"];
      if v.Arr? then
        var fs :- Collect(seq(|v.items|, k requires 0 <= k < |v.items| => DecodeFilter(v.items[k])));
        Ok(if tag == "and" then And(fs) else Or(fs))
      else Err(InvalidType("sequence"))
    else if tag == "not" then
      if "field" !in f then Err(MissingField("field"))
      else
      var field :- DecodeFilter(f["field"]);
      Ok(Not(field))
    else if tag == "javascript" then
      var dimension :- Field(f, "dimension", DecodeString);
      var script :- Field(f, "function", DecodeString);
      Ok(Filter.Javascript(dimension, script))
    else if tag == "search" then
      var dimension :- Field(f, "dimension", DecodeString);
      var query :- Field(f, "query", DecodeFilterQuerySpec);
      Ok(Search(dimension, query))
    else if tag == "in" then
      var dimension :- Field(f, "dimension", DecodeString);
      var values :- Field(f, "values", DecodeStrings);
      Ok(In(dimension, values))
    else if tag == "like" then
      var dimension :- Field(f, "dimension", DecodeString);
      var pattern :- Field(f, "pattern", DecodeString);
      var escape :- OptField(f, "escape", DecodeString);
      var extractionFn :- OptField(f, "extractionFn", DecodeExtractFn);
      Ok(Like(dimension, pattern, escape, extractionFn))
    else if tag == "bound" then
      var dimension :- Field(f, "dimension", DecodeString);
      var lower :- Field(f, "lower", DecodeString);
      var upper :- Field(f, "upper", DecodeString);
      var lowerStrict :- Field(f, "lowerStrict", DecodeBool);
      var upperStrict :- Field(f, "upperStrict", DecodeBool);
      var ordering :- Field(f, "ordering", DecodeSortingOrder);
      var extractionFn :- OptField(f, "extractionFn", DecodeExtractFn);
      Ok(Bound(dimension, lower, upper, lowerStrict, upperStrict, ordering, extractionFn))
    else if tag == "interval" then
      var dimension :- Field(f, "dimension", DecodeString);
      var intervals :- Field(f, "intervals", DecodeStrings);
      var extractionFn :- OptField(f, "extractionFn", DecodeExtractFn);
      Ok(Interval(dimension, intervals, extractionFn))
    else if tag == "true" then Ok(True)
    else Err(UnknownVariant(tag))
  }

  /** `Filter::selector`: matches rows whose `dimension` equals `value`, with no extraction. */
  function SelectorFilter(dimension: string, value: string): (f: Filter)
    ensures f.Selector? && f.dimension == dimension && f.value == value && f.extractFn == None
  {
    Selector(dimension, value, None)
  }

  /** `Filter::column_comparison`: the listed columns must hold equal values. */
  function ColumnComparisonFilter(dimensions: seq<string>): (f: Filter)
    ensures f.ColumnComparison? && f.dimensions == dimensions
  {
    ColumnComparison(dimensions)
  }

  /** `Filter::regex`. */
  function RegexFilter(dimension: string, pattern: string): (f: Filter)
    ensures f.Regex? && f.dimension == dimension && f.pattern == pattern
  {
    Filter.Regex(dimension, pattern)
  }

  /** `Filter::javascript`: the script is the filter's `function`. */
  function JavascriptFilter(dimension: string, script: string): (f: Filter)
    ensures f.Javascript? && f.dimension == dimension && f.script == script
  {
    Filter.Javascript(dimension, script)
  }

  /** `Filter::in_values`. */
  function InFilter(dimension: string, values: seq<string>): (f: Filter)
    ensures f.In? && f.dimension == dimension && f.values == values
  {
    In(dimension, values)
  }

  /** `Filter::like`: no escape character and no extraction function. */
  function LikeFilter(dimension: string, pattern: string): (f: Filter)
    ensures f.Like? && f.dimension == dimension && f.pattern == pattern
    ensures f.escape == None && f.extractionFn == None
  {
    Like(dimension, pattern, None, None)
  }

  // ---------------------------------------------------------------------------
  // Aggregations
  // ---------------------------------------------------------------------------

  /**
   * The nineteen `Aggregation` variants whose only fields are `name` and
   * `fieldName`; they differ only in their tag.
   */
  datatype FieldAggregator =
    | LongSum | DoubleSum | FloatSum
    | LongMax | DoubleMax | FloatMax
    | LongMin | FloatMin | DoubleMin
    | LongFirst | FloatFirst | DoubleFirst
    | LongLast | FloatLast | DoubleLast
    | DoubleAny | FloatAny | LongAny | StringAny

  function FieldAggregatorName(k: FieldAggregator): string
  {
    match k
    case LongSum => "longSum"
    case DoubleSum => "doubleSum"
    case FloatSum => "floatSum"
    case LongMax => "longMax"
    case DoubleMax => "doubleMax"
    case FloatMax => "floatMax"
    case LongMin => "longMin"
    case FloatMin => "floatMin"
    case DoubleMin => "doubleMin"
    case LongFirst => "longFirst"
    case FloatFirst => "floatFirst"
    case DoubleFirst => "doubleFirst"
    case LongLast => "longLast"
    case FloatLast => "floatLast"
    case DoubleLast => "doubleLast"
    case DoubleAny => "doubleAny"
    case FloatAny => "floatAny"
    case LongAny => "longAny"
    case StringAny => "stringAny"
  }

  function FieldAggregatorFromName(s: string): (r: Option<FieldAggregator>)
    ensures r.Some? ==> FieldAggregatorName(r.value) == s
  {
    if s == "longSum" then Some(LongSum)
    else if s == "doubleSum" then Some(DoubleSum)
    else if s == "floatSum" then Some(FloatSum)
    else if s == "longMax" then Some(LongMax)
    else if s == "doubleMax" then Some(DoubleMax)
    else if s == "floatMax" then Some(FloatMax)
    else if s == "longMin" then Some(LongMin)
    else if s == "floatMin" then Some(FloatMin)
    else if s == "doubleMin" then Some(DoubleMin)
    else if s == "longFirst" then Some(LongFirst)
    else if s == "floatFirst" then Some(FloatFirst)
    else if s == "doubleFirst" then Some(DoubleFirst)
    else if s == "longLast" then Some(LongLast)
    else if s == "floatLast" then Some(FloatLast)
    else if s == "doubleLast" then Some(DoubleLast)
    else if s == "doubleAny" then Some(DoubleAny)
    else if s == "floatAny" then Some(FloatAny)
    else if s == "longAny" then Some(LongAny)
    else if s == "stringAny" then Some(StringAny)
    else None
  }

  /** `Aggregation`, internally tagged by `"type"` with camelCase variant and field names. */
  datatype Aggregation =
    | Count(name: string)
    | OverField(kind: FieldAggregator, name: string, fieldName: string)
    | StringFirst(name: string, fieldName: string, maxStringBytes: Usize)
    | StringLast(name: string, fieldName: string, maxStringBytes: Usize)
    | Javascript(name: string, fieldNames: seq<string>, fnAggregate: string, fnCombine: string, fnReset: string)
    | ThetaSketch(name: string, fieldName: string, isInputThetaSketch: bool, size: Usize)
    | HLLSketchBuild(name: string, fieldName: string, lgK: Usize, lgtHllType: HllType, round: bool)
    | Cardinality(name: string, fields: seq<string>, byRow: bool, round: bool)
    | HyperUnique(name: string, fieldName: string, isInputHyperUnique: bool, round: bool)
    | Filtered(filter: Filter, aggregator: Aggregation)

  function AggregationTag(a: Aggregation): string
  {
    match a
    case Count(_) => "count"
    case OverField(kind, _, _) => FieldAggregatorName(kind)
    case StringFirst(_, _, _) => "stringFirst"
    case StringLast(_, _, _) => "stringLast"
    case Javascript(_, _, _, _, _) => "javascript"
    case ThetaSketch(_, _, _, _) => "thetaSketch"
    case HLLSketchBuild(_, _, _, _, _) => "hLLSketchBuild"
    case Cardinality(_, _, _, _) => "cardinality"
    case HyperUnique(_, _, _, _) => "hyperUnique"
    case Filtered(_, _) => "filtered"
  }

  function EncodeAggregation(a: Aggregation): Json
  {
    var tag := Str(AggregationTag(a));
    match a
    case Count(name) => Obj(map["type" := tag, "name" := Str(name)])
    case OverField(_, name, fieldName) => Obj(map[
      "type" := tag,
      "name" := Str(name),
      "fieldName" := Str(fieldName)])
    case StringFirst(name, fieldName, maxStringBytes) =>
      Obj(map[
        "type" := tag,
        "name" := Str(name),
        "fieldName" := Str(fieldName),
        "maxStringBytes" := EncodeUsize(maxStringBytes)])
    case StringLast(name, fieldName, maxStringBytes) =>
      Obj(map[
        "type" := tag,
        "name" := Str(name),
        "fieldName" := Str(fieldName),
        "maxStringBytes" := EncodeUsize(maxStringBytes)])
    case Javascript(name, fieldNames, fnAggregate, fnCombine, fnReset) =>
      Obj(map[
        "type" := tag,
        "name" := Str(name),
        "fieldNames" := EncodeStrings(fieldNames),
        "fnAggregate" := Str(fnAggregate),
        "fnCombine" := Str(fnCombine),
        "fnReset" := Str(fnReset)])
    case ThetaSketch(name, fieldName, isInputThetaSketch, size) =>
      Obj(map[
        "type" := tag,
        "name" := Str(name),
        "fieldName" := Str(fieldName),
        "isInputThetaSketch" := Bool(isInputThetaSketch),
        "size" := EncodeUsize(size)])
    case HLLSketchBuild(name, fieldName, lgK, lgtHllType, round) =>
      Obj(map[
        "type" := tag,
        "name" := Str(name),
        "fieldName" := Str(fieldName),
        "lgK" := EncodeUsize(lgK),
        "lgtHllType" := EncodeHllType(lgtHllType),
        "round" := Bool(round)])
    case Cardinality(name, fields, byRow, round) =>
      Obj(map[
        "type" := tag,
        "name" := Str(name),
        "fields" := EncodeStrings(fields),
        "byRow" := Bool(byRow),
        "round" := Bool(round)])
    case HyperUnique(name, fieldName, isInputHyperUnique, round) =>
      Obj(map[
        "type" := tag,
        "name" := Str(name),
        "fieldName" := Str(fieldName),
        "isInputHyperUnique" := Bool(isInputHyperUnique),
        "round" := Bool(round)])
    case Filtered(filter, aggregator) =>
      Obj(map["type" := tag, "filter" := EncodeFilter(filter), "aggregator" := EncodeAggregation(aggregator)])
  }

  function DecodeAggregation(j: Json): Result<Aggregation>
    decreases j, 1
  {
    if j.Obj? then
      var tag :- TagOf(j.fields);
      DecodeAggregationAs(tag, j)
    else Err(InvalidType("internally tagged enum"))
  }

  function DecodeAggregationAs(tag: string, j: Json): Result<Aggregation>
    requires j.Obj?
    decreases j, 0
  {
    var f := j.fields;
    if tag == "count" then
      var name :- Field(f, "name", DecodeString);
      Ok(Count(name))
    else if FieldAggregatorFromName(tag).Some? then
      var name :- Field(f, "name", DecodeString);
      var fieldName :- Field(f, "fieldName", DecodeString);
      Ok(OverField(FieldAggregatorFromName(tag).value, name, fieldName))
    else if tag == "stringFirst" || tag == "stringLast" then
      var name :- Field(f, "name", DecodeString);
      var fieldName :- Field(f, "fieldName", DecodeString);
      var maxStringBytes :- Field(f, "maxStringBytes", DecodeUsize);
      Ok(if tag == "stringFirst" then StringFirst(name, fieldName, maxStringBytes)
         else StringLast(name, fieldName, maxStringBytes))
    else if tag == "javascript" then
      var name :- Field(f, "name", DecodeString);
      var fieldNames :- Field(f, "fieldNames", DecodeStrings);
      var fnAggregate :- Field(f, "fnAggregate", DecodeString);
      var fnCombine :- Field(f, "fnCombine", DecodeString);
      var fnReset :- Field(f, "fnReset", DecodeString);
      Ok(Aggregation.Javascript(name, fieldNames, fnAggregate, fnCombine, fnReset))
    else if tag == "thetaSketch" then
      var name :- Field(f, "name", DecodeString);
      var fieldName :- Field(f, "fieldName", DecodeString);
      var isInputThetaSketch :- Field(f, "isInputThetaSketch", DecodeBool);
      var size :- Field(f, "size", DecodeUsize);
      Ok(ThetaSketch(name, fieldName, isInputThetaSketch, size))
    else if tag == "hLLSketchBuild" then
      var name :- Field(f, "name", DecodeString);
      var fieldName :- Field(f, "fieldName", DecodeString);
      var lgK :- Field(f, "lgK", DecodeUsize);
      var lgtHllType :- Field(f, "lgtHllType", DecodeHllType);
      var round :- Field(f, "round", DecodeBool);
      Ok(HLLSketchBuild(name, fieldName, lgK, lgtHllType, round))
    else if tag == "cardinality" then
      var name :- Field(f, "name", DecodeString);
      var fields :- Field(f, "fields", DecodeStrings);
      var byRow :- Field(f, "byRow", DecodeBool);
      var round :- Field(f, "round", DecodeBool);
      Ok(Cardinality(name, fields, byRow, round))
    else if tag == "hyperUnique" then
      var name :- Field(f, "name", DecodeString);
      var fieldName :- Field(f, "fieldName", DecodeString);
      var isInputHyperUnique :- Field(f, "isInputHyperUnique", DecodeBool);
      var round :- Field(f, "round", DecodeBool);
      Ok(HyperUnique(name, fieldName, isInputHyperUnique, round))
    else if tag == "filtered" then
      var filter :- Field(f, "filter", DecodeFilter);
      if "aggregator" !in f then Err(MissingField("aggregator"))
      else
      var aggregator :- DecodeAggregation(f["aggregator"]);
      Ok(Filtered(filter, aggregator))
    else Err(UnknownVariant(tag))
  }

  /** `Aggregation::count`. */
  function CountAggregation(name: string): (a: Aggregation)
    ensures a.Count? && a.name == name
  {
    Count(name)
  }

  /** The field aggregators the source has a constructor helper for (`long_sum` … `float_first`). */
  const HelperKinds: set<FieldAggregator> :=
    {LongSum, DoubleSum, FloatSum, LongMax, DoubleMax, FloatMax, LongMin, FloatMin, DoubleMin, LongFirst, FloatFirst}

  /** `Aggregation::long_sum`, `double_sum`, … `float_first`: aggregate column `fieldName` into `name`. */
  function FieldAggregation(kind: FieldAggregator, name: string, fieldName: string): (a: Aggregation)
    requires kind in HelperKinds
    ensures a.OverField? && a.kind == kind && a.name == name && a.fieldName == fieldName
  {
    OverField(kind, name, fieldName)
  }
}
