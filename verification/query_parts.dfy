/**
 * The small enumerations and specs the native queries carry: join types,
 * scan result formats, search query specs, time-boundary bounds and the
 * column and analysis selections of segment-metadata queries.
 */
module QueryParts {
  import opened Json

  // ---------------------------------------------------------------------------
  // Join types
  // ---------------------------------------------------------------------------

  /** `JoinType`, written in upper case. */
  datatype JoinType = Inner | Left

  function JoinTypeName(t: JoinType): string
  {
    match t
    case Inner => "INNER"
    case Left => "LEFT"
  }

  function JoinTypeFromName(s: string): (r: Option<JoinType>)
    ensures r.Some? ==> JoinTypeName(r.value) == s
  {
    if s == "INNER" then Some(Inner) else if s == "LEFT" then Some(Left) else None
  }

  function EncodeJoinType(t: JoinType): Json { Str(JoinTypeName(t)) }

  function DecodeJoinType(j: Json): Result<JoinType> { DecodeUnit(j, JoinTypeFromName) }

  /** A join type is recognised from its upper-case name, and only from it. */
  lemma JoinTypeNames(s: string, t: JoinType)
    ensures JoinTypeFromName(s) == Some(t) <==> JoinTypeName(t) == s
    ensures JoinTypeName(t) == "INNER" || JoinTypeName(t) == "LEFT"
  {
  }

  lemma JoinTypeRoundTrip(t: JoinType)
    ensures DecodeJoinType(EncodeJoinType(t)) == Ok(t)
  {
  }

  // ---------------------------------------------------------------------------
  // Scan result formats
  // ---------------------------------------------------------------------------

  /** `ResultFormat`, written in camelCase. */
  datatype ResultFormat = List | CompactedList | ValueVector

  function ResultFormatName(f: ResultFormat): string
  {
    match f
    case List => "list"
    case CompactedList => "compactedList"
    case ValueVector => "valueVector"
  }

  function ResultFormatFromName(s: string): (r: Option<ResultFormat>)
    ensures r.Some? ==> ResultFormatName(r.value) == s
  {
    if s == "list" then Some(List)
    else if s == "compactedList" then Some(CompactedList)
    else if s == "valueVector" then Some(ValueVector)
    else None
  }

  function EncodeResultFormat(f: ResultFormat): Json { Str(ResultFormatName(f)) }

  function DecodeResultFormat(j: Json): Result<ResultFormat> { DecodeUnit(j, ResultFormatFromName) }

  lemma ResultFormatNames(s: string, f: ResultFormat)
    ensures ResultFormatFromName(s) == Some(f) <==> ResultFormatName(f) == s
  {
  }

  lemma ResultFormatRoundTrip(f: ResultFormat)
    ensures DecodeResultFormat(EncodeResultFormat(f)) == Ok(f)
  {
  }

  // ---------------------------------------------------------------------------
  // Search query specs
  // ---------------------------------------------------------------------------

  /** `SearchQuerySpec`, internally tagged by `"type"` with snake_case names and camelCase fields. */
  datatype SearchQuerySpec =
    | InsensitiveContains(value: string)
    | Fragment(caseSensitive: bool, values: seq<string>)
    | Contains(caseSensitive: bool, value: string)
    | Regex(pattern: string)

  function SearchQuerySpecTag(q: SearchQuerySpec): string
  {
    match q
    case InsensitiveContains(_) => "insensitive_contains"
    case Fragment(_, _) => "fragment"
    case Contains(_, _) => "contains"
    case Regex(_) => "regex"
  }

  function EncodeSearchQuerySpec(q: SearchQuerySpec): Json
  {
    var tag := Str(SearchQuerySpecTag(q));
    match q
    case InsensitiveContains(value) => Obj(map["type" := tag, "value" := Str(value)])
    case Fragment(caseSensitive, values) =>
      Obj(map["type" := tag, "caseSensitive" := Bool(caseSensitive), "values" := EncodeStrings(values)])
    case Contains(caseSensitive, value) =>
      Obj(map["type" := tag, "caseSensitive" := Bool(caseSensitive), "value" := Str(value)])
    case Regex(pattern) => Obj(map["type" := tag, "pattern" := Str(pattern)])
  }

  function DecodeSearchQuerySpec(j: Json): Result<SearchQuerySpec>
  {
    if j.Obj? then
      var f := j.fields;
      var tag :- TagOf(f);
      if tag == "insensitive_contains" then
        var value :- Field(f, "value", DecodeString);
        Ok(InsensitiveContains(value))
      else if tag == "fragment" then
        var caseSensitive :- Field(f, "caseSensitive", DecodeBool);
        var values :- Field(f, "values", DecodeStrings);
        Ok(Fragment(caseSensitive, values))
      else if tag == "contains" then
        var caseSensitive :- Field(f, "caseSensitive", DecodeBool);
        var value :- Field(f, "value", DecodeString);
        Ok(Contains(caseSensitive, value))
      else if tag == "regex" then
        var pattern :- Field(f, "pattern", DecodeString);
        Ok(Regex(pattern))
      else Err(UnknownVariant(tag))
    else Err(InvalidType("internally tagged enum"))
  }

  /** Every spec is written under its snake_case tag and reads back as itself. */
  lemma SearchQuerySpecRoundTrip(q: SearchQuerySpec)
    ensures EncodeSearchQuerySpec(q).fields["type"] == Str(SearchQuerySpecTag(q))
    ensures DecodeSearchQuerySpec(EncodeSearchQuerySpec(q)) == Ok(q)
  {
    if q.Fragment? {
      StringsRoundTrip(q.values);
    }
  }

  /** `SearchQuerySpec::contains_insensitive`. */
  function ContainsInsensitiveSpec(value: string): (q: SearchQuerySpec)
    ensures q.InsensitiveContains? && q.value == value
  {
    InsensitiveContains(value)
  }

  /** `SearchQuerySpec::constain` (so spelled in the source). */
  function ContainsSpec(value: string, caseSensitive: bool): (q: SearchQuerySpec)
    ensures q.Contains? && q.value == value && q.caseSensitive == caseSensitive
  {
    Contains(caseSensitive, value)
  }

  /** `SearchQuerySpec::fragment`: the values are kept in order. */
  function FragmentSpec(values: seq<string>, caseSensitive: bool): (q: SearchQuerySpec)
    ensures q.Fragment? && q.caseSensitive == caseSensitive
    ensures |q.values| == |values| && forall i :: 0 <= i < |values| ==> q.values[i] == values[i]
  {
    Fragment(caseSensitive, seq(|values|, i requires 0 <= i < |values| => values[i]))
  }

  /** `SearchQuerySpec::regrex` (so spelled in the source). */
  function RegexSpec(pattern: string): (q: SearchQuerySpec)
    ensures q.Regex? && q.pattern == pattern
  {
    Regex(pattern)
  }

  // ---------------------------------------------------------------------------
  // Time-boundary bounds
  // ---------------------------------------------------------------------------

  /** `TimeBoundType`, written in camelCase. */
  datatype TimeBoundType = MaxTime | MinTime | MinMaxTime

  function TimeBoundTypeName(t: TimeBoundType): string
  {
    match t
    case MaxTime => "maxTime"
    case MinTime => "minTime"
    case MinMaxTime => "minMaxTime"
  }

  function TimeBoundTypeFromName(s: string): (r: Option<TimeBoundType>)
    ensures r.Some? ==> TimeBoundTypeName(r.value) == s
  {
    if s == "maxTime" then Some(MaxTime)
    else if s == "minTime" then Some(MinTime)
    else if s == "minMaxTime" then Some(MinMaxTime)
    else None
  }

  function EncodeTimeBoundType(t: TimeBoundType): Json { Str(TimeBoundTypeName(t)) }

  function DecodeTimeBoundType(j: Json): Result<TimeBoundType> { DecodeUnit(j, TimeBoundTypeFromName) }

  /** `TimeBoundType::is_both`: the bound asks for both ends of the time range. */
  predicate IsBoth(t: TimeBoundType)
  {
    match t
    case MinMaxTime => true
    case _ => false
  }

  /** `is_both` holds for `MinMaxTime` and for no other bound. */
  lemma IsBothExactly(t: TimeBoundType)
    ensures IsBoth(t) <==> t == MinMaxTime
    ensures !IsBoth(MaxTime) && !IsBoth(MinTime)
  {
  }

  lemma TimeBoundTypeNames(s: string, t: TimeBoundType)
    ensures TimeBoundTypeFromName(s) == Some(t) <==> TimeBoundTypeName(t) == s
  {
  }

  lemma TimeBoundTypeRoundTrip(t: TimeBoundType)
    ensures DecodeTimeBoundType(EncodeTimeBoundType(t)) == Ok(t)
  {
  }

  // ---------------------------------------------------------------------------
  // Segment-metadata selections
  // ---------------------------------------------------------------------------

  /** `ToInclude`, internally tagged by `"type"`; the source's `None` is `NoColumns`. */
  datatype ToInclude = AllColumns | NoColumns | ListColumns(columns: seq<string>)

  function EncodeToInclude(t: ToInclude): Json
  {
    match t
    case AllColumns => Obj(map["type" := Str("all")])
    case NoColumns => Obj(map["type" := Str("none")])
    case ListColumns(columns) => Obj(map["type" := Str("list"), "columns" := EncodeStrings(columns)])
  }

  function DecodeToInclude(j: Json): Result<ToInclude>
  {
    if j.Obj? then
      var tag :- TagOf(j.fields);
      if tag == "all" then Ok(AllColumns)
      else if tag == "none" then Ok(NoColumns)
      else if tag == "list" then
        var columns :- Field(j.fields, "columns", DecodeStrings);
        Ok(ListColumns(columns))
      else Err(UnknownVariant(tag))
    else Err(InvalidType("internally tagged enum"))
  }

  /** `{"type":"all"}`, `{"type":"none"}`, or `{"type":"list","columns":[..]}`, each read back as itself. */
  lemma ToIncludeRoundTrip(t: ToInclude)
    ensures t.AllColumns? ==> EncodeToInclude(t).fields == map["type" := Str("all")]
    ensures t.NoColumns? ==> EncodeToInclude(t).fields == map["type" := Str("none")]
    ensures t.ListColumns? ==> EncodeToInclude(t).fields.Keys == {"type", "columns"}
    ensures DecodeToInclude(EncodeToInclude(t)) == Ok(t)
  {
    if t.ListColumns? {
      StringsRoundTrip(t.columns);
    }
  }

  /** `AnalysisType`, written in camelCase. */
  datatype AnalysisType =
    | Cardinality | Minmax | Size | Interval | TimestampSpec | QueryGranularity | Aggregators | Rollup

  function AnalysisTypeName(t: AnalysisType): string
  {
    match t
    case Cardinality => "cardinality"
    case Minmax => "minmax"
    case Size => "size"
    case Interval => "interval"
    case TimestampSpec => "timestampSpec"
    case QueryGranularity => "queryGranularity"
    case Aggregators => "aggregators"
    case Rollup => "rollup"
  }

  function AnalysisTypeFromName(s: string): (r: Option<AnalysisType>)
    ensures r.Some? ==> AnalysisTypeName(r.value) == s
  {
    if s == "cardinality" then Some(Cardinality)
    else if s == "minmax" then Some(Minmax)
    else if s == "size" then Some(Size)
    else if s == "interval" then Some(Interval)
    else if s == "timestampSpec" then Some(TimestampSpec)
    else if s == "queryGranularity" then Some(QueryGranularity)
    else if s == "aggregators" then Some(Aggregators)
    else if s == "rollup" then Some(Rollup)
    else None
  }

  function EncodeAnalysisType(t: AnalysisType): Json { Str(AnalysisTypeName(t)) }

  function DecodeAnalysisType(j: Json): Result<AnalysisType> { DecodeUnit(j, AnalysisTypeFromName) }

  lemma AnalysisTypeNames(s: string, t: AnalysisType)
    ensures AnalysisTypeFromName(s) == Some(t) <==> AnalysisTypeName(t) == s
  {
  }

  function EncodeAnalysisTypes(ts: seq<AnalysisType>): (j: Json)
    ensures j.Arr? && |j.items| == |ts|
    ensures forall i :: 0 <= i < |ts| ==> j.items[i] == EncodeAnalysisType(ts[i])
  {
    Arr(seq(|ts|, i requires 0 <= i < |ts| => EncodeAnalysisType(ts[i])))
  }

  function DecodeAnalysisTypes(j: Json): Result<seq<AnalysisType>>
  {
    if j.Arr? then Collect(seq(|j.items|, i requires 0 <= i < |j.items| => DecodeAnalysisType(j.items[i])))
    else Err(InvalidType("sequence"))
  }

  /** A list of analysis types reads back as itself, in order. */
  lemma AnalysisTypesRoundTrip(ts: seq<AnalysisType>)
    ensures DecodeAnalysisTypes(EncodeAnalysisTypes(ts)) == Ok(ts)
  {
    var j := EncodeAnalysisTypes(ts);
    var rs := seq(|j.items|, i requires 0 <= i < |j.items| => DecodeAnalysisType(j.items[i]));
    forall i | 0 <= i < |ts| ensures rs[i] == Ok(ts[i]) {
      AnalysisTypeNames(AnalysisTypeName(ts[i]), ts[i]);
    }
    CollectAllOk(rs, ts);
  }
}
