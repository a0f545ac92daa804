/**
 * The envelopes the engine's answers are read into. The row or event
 * type of the list-style envelopes is chosen by the caller, so their
 * decoders take the row decoder as a parameter. The segment-metadata
 * answer reads a null or absent list or map of its own as empty, and
 * the column and aggregator definitions read their kind from `"type"`
 * but write it back under another name.
 */
module Response {
  import opened Json
  import opened Scalars
  import opened Serialization

  // ---------------------------------------------------------------------------
  // String-keyed maps of decoded values (`HashMap<String, T>`)
  // ---------------------------------------------------------------------------

  /** Every entry of the object read with `decode`; one failure fails the whole. */
  function DecodeMap<T>(j: Json, decode: Json -> Result<T>): (r: Result<map<string, T>>)
    ensures r.Ok? <==> j.Obj? && forall k :: k in j.fields ==> decode(j.fields[k]).Ok?
    ensures r.Ok? ==> r.value.Keys == j.fields.Keys && forall k :: k in r.value ==> decode(j.fields[k]) == Ok(r.value[k])
  {
    if j.Obj? && forall k :: k in j.fields ==> decode(j.fields[k]).Ok? then
      Ok(map k | k in j.fields :: decode(j.fields[k]).value)
    else if j.Obj? then Err(InvalidType("map value"))
    else Err(InvalidType("map"))
  }

  function EncodeMap<T>(m: map<string, T>, encode: T -> Json): (j: Json)
    ensures j.Obj? && j.fields.Keys == m.Keys
    ensures forall k :: k in m ==> j.fields[k] == encode(m[k])
  {
    Obj(map k | k in m :: encode(m[k]))
  }

  /**
   * A field declared with `#[serde(default, deserialize_with =
   * "default_for_null")]`: absent gives the default, present is read
   * with `default_for_null`.
   */
  function NullTolerantField<T>(fields: map<string, Json>, key: string, decode: Json -> Result<T>, default: T): (r: Result<T>)
    ensures key !in fields || fields[key] == Null ==> r == Ok(default)
    ensures key in fields && fields[key] != Null ==> r == decode(fields[key])
  {
    if key in fields then DefaultForNull(fields[key], decode, default) else Ok(default)
  }

  // ---------------------------------------------------------------------------
  // Envelopes generic over the row type
  // ---------------------------------------------------------------------------

  /** `DruidListResponse<T>`, also used as `TopNResponse<T>` and, with `DimValue` rows, as `SearchResponse`. */
  datatype ListResponse<T> = ListResponse(timestamp: string, result: seq<T>)

  function EncodeListResponse<T>(l: ListResponse<T>, encodeRow: T -> Json): Json
  {
    Obj(map["timestamp" := Str(l.timestamp), "result" := EncodeSeq(l.result, encodeRow)])
  }

  /** Both fields are required; `result` is a list of rows, so a null there is an error. */
  function DecodeListResponse<T>(j: Json, decodeRow: Json -> Result<T>): (r: Result<ListResponse<T>>)
    ensures r.Ok? <==> j.Obj? && "timestamp" in j.fields && j.fields["timestamp"].Str?
                        && "result" in j.fields && DecodeSeq(j.fields["result"], decodeRow).Ok?
    ensures r.Ok? ==> (r.value.timestamp == j.fields["timestamp"].s
                       && r.value.result == DecodeSeq(j.fields["result"], decodeRow).value)
  {
    if !j.Obj? then Err(InvalidType("struct DruidListResponse"))
    else
      var timestamp :- Field(j.fields, "timestamp", DecodeString);
      var result :- Field(j.fields, "result", (x: Json) => DecodeSeq(x, decodeRow));
      Ok(ListResponse(timestamp, result))
  }

  /** A list envelope reads back whenever each of its rows does. */
  lemma ListResponseRoundTrip<T>(l: ListResponse<T>, encodeRow: T -> Json, decodeRow: Json -> Result<T>)
    requires forall i :: 0 <= i < |l.result| ==> decodeRow(encodeRow(l.result[i])) == Ok(l.result[i])
    ensures DecodeListResponse(EncodeListResponse(l, encodeRow), decodeRow) == Ok(l)
  {
    SeqRoundTrip(l.result, encodeRow, decodeRow);
  }

  /** `MetadataResponse<T>`: a timestamp and one result value. */
  datatype MetadataResponse<T> = MetadataResponse(timestamp: string, result: T)

  function DecodeMetadataResponse<T>(j: Json, decodeResult: Json -> Result<T>): (r: Result<MetadataResponse<T>>)
    ensures r.Ok? <==> j.Obj? && "timestamp" in j.fields && j.fields["timestamp"].Str?
                        && "result" in j.fields && decodeResult(j.fields["result"]).Ok?
    ensures r.Ok? ==> r.value == MetadataResponse(j.fields["timestamp"].s, decodeResult(j.fields["result"]).value)
  {
    if !j.Obj? then Err(InvalidType("struct MetadataResponse"))
    else
      var timestamp :- Field(j.fields, "timestamp", DecodeString);
      var result :- Field(j.fields, "result", decodeResult);
      Ok(MetadataResponse(timestamp, result))
  }

  /** `GroupByResponse<T>`: a timestamp and one event. */
  datatype GroupByResponse<T> = GroupByResponse(timestamp: string, event: T)

  function DecodeGroupByResponse<T>(j: Json, decodeEvent: Json -> Result<T>): (r: Result<GroupByResponse<T>>)
    ensures r.Ok? <==> j.Obj? && "timestamp" in j.fields && j.fields["timestamp"].Str?
                        && "event" in j.fields && decodeEvent(j.fields["event"]).Ok?
    ensures r.Ok? ==> r.value == GroupByResponse(j.fields["timestamp"].s, decodeEvent(j.fields["event"]).value)
  {
    if !j.Obj? then Err(InvalidType("struct GroupByResponse"))
    else
      var timestamp :- Field(j.fields, "timestamp", DecodeString);
      var event :- Field(j.fields, "event", decodeEvent);
      Ok(GroupByResponse(timestamp, event))
  }

  /** `ScanResponse<T>`, camelCase: `segmentId`, `columns` and the list of `events`. */
  datatype ScanResponse<T> = ScanResponse(segmentId: string, columns: seq<string>, events: seq<T>)

  function EncodeScanResponse<T>(s: ScanResponse<T>, encodeEvent: T -> Json): Json
  {
    Obj(map[
      "segmentId" := Str(s.segmentId),
      "columns" := EncodeStrings(s.columns),
      "events" := EncodeSeq(s.events, encodeEvent)])
  }

  function DecodeScanResponse<T>(j: Json, decodeEvent: Json -> Result<T>): (r: Result<ScanResponse<T>>)
    ensures r.Ok? <==> j.Obj? && "segmentId" in j.fields && j.fields["segmentId"].Str?
                        && "columns" in j.fields && DecodeStrings(j.fields["columns"]).Ok?
                        && "events" in j.fields && DecodeSeq(j.fields["events"], decodeEvent).Ok?
    ensures r.Ok? ==> (r.value.segmentId == j.fields["segmentId"].s
                       && r.value.columns == DecodeStrings(j.fields["columns"]).value
                       && r.value.events == DecodeSeq(j.fields["events"], decodeEvent).value)
  {
    if !j.Obj? then Err(InvalidType("struct ScanResponse"))
    else
      var segmentId :- Field(j.fields, "segmentId", DecodeString);
      var columns :- Field(j.fields, "columns", DecodeStrings);
      var events :- Field(j.fields, "events", (x: Json) => DecodeSeq(x, decodeEvent));
      Ok(ScanResponse(segmentId, columns, events))
  }

  /** A scan envelope reads back whenever each of its events does. */
  lemma ScanResponseRoundTrip<T>(s: ScanResponse<T>, encodeEvent: T -> Json, decodeEvent: Json -> Result<T>)
    requires forall i :: 0 <= i < |s.events| ==> decodeEvent(encodeEvent(s.events[i])) == Ok(s.events[i])
    ensures DecodeScanResponse(EncodeScanResponse(s, encodeEvent), decodeEvent) == Ok(s)
  {
    StringsRoundTrip(s.columns);
    SeqRoundTrip(s.events, encodeEvent, decodeEvent);
  }

  // ---------------------------------------------------------------------------
  // Search rows and time boundaries
  // ---------------------------------------------------------------------------

  /** `DimValue`, the row of a search answer. */
  datatype DimValue = DimValue(dimension: string, value: JsonAny, count: Usize)

  function DecodeDimValue(j: Json): (r: Result<DimValue>)
    ensures r.Ok? <==> j.Obj? && "dimension" in j.fields && j.fields["dimension"].Str?
                        && "value" in j.fields && DecodeJsonAny(j.fields["value"]).Ok?
                        && "count" in j.fields && DecodeUsize(j.fields["count"]).Ok?
    ensures r.Ok? ==> r.value == DimValue(j.fields["dimension"].s, DecodeJsonAny(j.fields["value"]).value,
                                          DecodeUsize(j.fields["count"]).value)
  {
    if !j.Obj? then Err(InvalidType("struct DimValue"))
    else
      var dimension :- Field(j.fields, "dimension", DecodeString);
      var value :- Field(j.fields, "value", DecodeJsonAny);
      var count :- Field(j.fields, "count", DecodeUsize);
      Ok(DimValue(dimension, value, count))
  }

  /** `MinMaxTime`, camelCase; either bound may be absent or null. */
  datatype MinMaxTime = MinMaxTime(maxTime: Option<string>, minTime: Option<string>)

  function EncodeMinMaxTime(m: MinMaxTime): Json
  {
    Obj(map["maxTime" := EncodeOpt(m.maxTime, EncodeString), "minTime" := EncodeOpt(m.minTime, EncodeString)])
  }

  function DecodeMinMaxTime(j: Json): (r: Result<MinMaxTime>)
    ensures r.Ok? <==> j.Obj? && OptField(j.fields, "maxTime", DecodeString).Ok?
                        && OptField(j.fields, "minTime", DecodeString).Ok?
    ensures r.Ok? ==> (r.value.maxTime == OptField(j.fields, "maxTime", DecodeString).value
                       && r.value.minTime == OptField(j.fields, "minTime", DecodeString).value)
  {
    if !j.Obj? then Err(InvalidType("struct MinMaxTime"))
    else
      var maxTime :- OptField(j.fields, "maxTime", DecodeString);
      var minTime :- OptField(j.fields, "minTime", DecodeString);
      Ok(MinMaxTime(maxTime, minTime))
  }

  /** Both bounds read back as written, and an empty object reads as neither bound. */
  lemma MinMaxTimeRoundTrip(m: MinMaxTime)
    ensures DecodeMinMaxTime(EncodeMinMaxTime(m)) == Ok(m)
    ensures DecodeMinMaxTime(Obj(map[])) == Ok(MinMaxTime(None, None))
  {
    var f := EncodeMinMaxTime(m).fields;
    OptFieldRoundTrip(f, "maxTime", m.maxTime, EncodeString, DecodeString);
    OptFieldRoundTrip(f, "minTime", m.minTime, EncodeString, DecodeString);
  }

  /** `TimeBoundaryResponse`: a timestamp and the bounds. */
  datatype TimeBoundaryResponse = TimeBoundaryResponse(timestamp: string, result: MinMaxTime)

  function DecodeTimeBoundaryResponse(j: Json): (r: Result<TimeBoundaryResponse>)
    ensures r.Ok? <==> j.Obj? && "timestamp" in j.fields && j.fields["timestamp"].Str?
                        && "result" in j.fields && DecodeMinMaxTime(j.fields["result"]).Ok?
    ensures r.Ok? ==> r.value == TimeBoundaryResponse(j.fields["timestamp"].s, DecodeMinMaxTime(j.fields["result"]).value)
  {
    if !j.Obj? then Err(InvalidType("struct TimeBoundaryResponse"))
    else
      var timestamp :- Field(j.fields, "timestamp", DecodeString);
      var result :- Field(j.fields, "result", DecodeMinMaxTime);
      Ok(TimeBoundaryResponse(timestamp, result))
  }

  // ---------------------------------------------------------------------------
  // Segment metadata
  // ---------------------------------------------------------------------------

  /** `ColumnDefinition`: its kind is read from `"type"` and written as `"columnType"`. */
  datatype ColumnDefinition = ColumnDefinition(
    columnType: string,
    hasMultipleValues: bool,
    size: Usize,
    cardinality: Option<real>,
    minValue: Option<JsonAny>,
    maxValue: Option<JsonAny>,
    errorMessage: Option<string>)

  function EncodeColumnDefinition(c: ColumnDefinition): Json
  {
    Obj(map[
      "columnType" := Str(c.columnType),
      "hasMultipleValues" := Bool(c.hasMultipleValues),
      "size" := EncodeUsize(c.size),
      "cardinality" := EncodeOpt(c.cardinality, EncodeF32),
      "minValue" := EncodeOpt(c.minValue, EncodeJsonAny),
      "maxValue" := EncodeOpt(c.maxValue, EncodeJsonAny),
      "errorMessage" := EncodeOpt(c.errorMessage, EncodeString)])
  }

  function DecodeColumnDefinition(j: Json): (r: Result<ColumnDefinition>)
    ensures r.Ok? ==> j.Obj? && "type" in j.fields && "hasMultipleValues" in j.fields && "size" in j.fields
    ensures r.Ok? ==> j.fields["type"] == Str(r.value.columnType)
  {
    if !j.Obj? then Err(InvalidType("struct ColumnDefinition"))
    else
      var f := j.fields;
      var columnType :- Field(f, "type", DecodeString);
      var hasMultipleValues :- Field(f, "hasMultipleValues", DecodeBool);
      var size :- Field(f, "size", DecodeUsize);
      var cardinality :- OptField(f, "cardinality", DecodeF32);
      var minValue :- OptField(f, "minValue", DecodeJsonAny);
      var maxValue :- OptField(f, "maxValue", DecodeJsonAny);
      var errorMessage :- OptField(f, "errorMessage", DecodeString);
      Ok(ColumnDefinition(columnType, hasMultipleValues, size, cardinality, minValue, maxValue, errorMessage))
  }

  /** A written column definition has no `"type"` entry, so it never reads back. */
  lemma ColumnDefinitionNotReadable(c: ColumnDefinition)
    ensures DecodeColumnDefinition(EncodeColumnDefinition(c)) == Err(MissingField("type"))
  {
  }

  /**
   * With its `"columnType"` entry also written under `"type"`, a column
   * definition reads back, unless a min or max value is an integer, which
   * reads as a float.
   */
  lemma ColumnDefinitionReadsUnderType(c: ColumnDefinition)
    requires c.minValue.Some? ==> !c.minValue.value.Integer?
    requires c.maxValue.Some? ==> !c.maxValue.value.Integer?
    ensures DecodeColumnDefinition(Obj(EncodeColumnDefinition(c).fields["type" := Str(c.columnType)])) == Ok(c)
  {
    var f := EncodeColumnDefinition(c).fields["type" := Str(c.columnType)];
    assert Field(f, "type", DecodeString) == Ok(c.columnType);
    assert Field(f, "hasMultipleValues", DecodeBool) == Ok(c.hasMultipleValues);
    assert Field(f, "size", DecodeUsize) == Ok(c.size);
    OptFieldRoundTrip(f, "cardinality", c.cardinality, EncodeF32, DecodeF32);
    if c.minValue.Some? {
      JsonAnyRoundTrip(c.minValue.value);
    }
    OptFieldRoundTrip(f, "minValue", c.minValue, EncodeJsonAny, DecodeJsonAny);
    if c.maxValue.Some? {
      JsonAnyRoundTrip(c.maxValue.value);
    }
    OptFieldRoundTrip(f, "maxValue", c.maxValue, EncodeJsonAny, DecodeJsonAny);
    OptFieldRoundTrip(f, "errorMessage", c.errorMessage, EncodeString, DecodeString);
  }

  /** `AggregatorDefinition`: its kind is read from `"type"` and written as `"aggrType"`. */
  datatype AggregatorDefinition = AggregatorDefinition(aggrType: string, name: string, fieldName: string, expression: Option<string>)

  function EncodeAggregatorDefinition(a: AggregatorDefinition): Json
  {
    Obj(map[
      "aggrType" := Str(a.aggrType),
      "name" := Str(a.name),
      "fieldName" := Str(a.fieldName),
      "expression" := EncodeOpt(a.expression, EncodeString)])
  }

  function DecodeAggregatorDefinition(j: Json): (r: Result<AggregatorDefinition>)
    ensures r.Ok? ==> j.Obj? && "type" in j.fields && "name" in j.fields && "fieldName" in j.fields
    ensures r.Ok? ==> (j.fields["type"] == Str(r.value.aggrType) && j.fields["name"] == Str(r.value.name)
                       && j.fields["fieldName"] == Str(r.value.fieldName))
  {
    if !j.Obj? then Err(InvalidType("struct AggregatorDefinition"))
    else
      var aggrType :- Field(j.fields, "type", DecodeString);
      var name :- Field(j.fields, "name", DecodeString);
      var fieldName :- Field(j.fields, "fieldName", DecodeString);
      var expression :- OptField(j.fields, "expression", DecodeString);
      Ok(AggregatorDefinition(aggrType, name, fieldName, expression))
  }

  /** A written aggregator definition has no `"type"` entry, so it never reads back. */
  lemma AggregatorDefinitionNotReadable(a: AggregatorDefinition)
    ensures DecodeAggregatorDefinition(EncodeAggregatorDefinition(a)) == Err(MissingField("type"))
  {
  }

  /** With its `"aggrType"` entry also written under `"type"`, an aggregator definition reads back. */
  lemma AggregatorDefinitionReadsUnderType(a: AggregatorDefinition)
    ensures DecodeAggregatorDefinition(Obj(EncodeAggregatorDefinition(a).fields["type" := Str(a.aggrType)])) == Ok(a)
  {
    var f := EncodeAggregatorDefinition(a).fields["type" := Str(a.aggrType)];
    OptFieldRoundTrip(f, "expression", a.expression, EncodeString, DecodeString);
  }

  /** `TimestampSpec`, camelCase. */
  datatype TimestampSpec = TimestampSpec(column: string, format: string, missingValue: Option<string>)

  function DecodeTimestampSpec(j: Json): (r: Result<TimestampSpec>)
    ensures r.Ok? <==> j.Obj? && "column" in j.fields && j.fields["column"].Str?
                        && "format" in j.fields && j.fields["format"].Str?
                        && OptField(j.fields, "missingValue", DecodeString).Ok?
    ensures r.Ok? ==> r.value == TimestampSpec(j.fields["column"].s, j.fields["format"].s,
                                               OptField(j.fields, "missingValue", DecodeString).value)
  {
    if !j.Obj? then Err(InvalidType("struct TimestampSpec"))
    else
      var column :- Field(j.fields, "column", DecodeString);
      var format :- Field(j.fields, "format", DecodeString);
      var missingValue :- OptField(j.fields, "missingValue", DecodeString);
      Ok(TimestampSpec(column, format, missingValue))
  }

  /** `SegmentMetadataResponse`, camelCase. */
  datatype SegmentMetadataResponse = SegmentMetadataResponse(
    id: string,
    intervals: seq<string>,
    columns: map<string, ColumnDefinition>,
    queryGranularity: Option<string>,
    rollup: Option<bool>,
    size: Option<Usize>,
    numRows: Option<Usize>,
    timestampSpec: TimestampSpec,
    aggregators: map<string, AggregatorDefinition>)

  function DecodeColumns(j: Json): Result<map<string, ColumnDefinition>> { DecodeMap(j, DecodeColumnDefinition) }

  function DecodeAggregators(j: Json): Result<map<string, AggregatorDefinition>> { DecodeMap(j, DecodeAggregatorDefinition) }

  /**
   * `intervals` and `aggregators` are null-tolerant and may be absent;
   * `id`, `columns` and `timestampSpec` are required; the four optional
   * fields read absent or null as `None`.
   */
  function DecodeSegmentMetadataResponse(j: Json): (r: Result<SegmentMetadataResponse>)
    ensures r.Ok? ==> j.Obj? && "id" in j.fields && "columns" in j.fields && "timestampSpec" in j.fields
    ensures r.Ok? && ("intervals" !in j.fields || j.fields["intervals"] == Null) ==> r.value.intervals == []
    ensures r.Ok? && ("aggregators" !in j.fields || j.fields["aggregators"] == Null) ==> r.value.aggregators == map[]
    ensures r.Ok? && ("queryGranularity" !in j.fields || j.fields["queryGranularity"] == Null) ==> r.value.queryGranularity.None?
    ensures r.Ok? && ("rollup" !in j.fields || j.fields["rollup"] == Null) ==> r.value.rollup.None?
    ensures r.Ok? && ("size" !in j.fields || j.fields["size"] == Null) ==> r.value.size.None?
    ensures r.Ok? && ("numRows" !in j.fields || j.fields["numRows"] == Null) ==> r.value.numRows.None?
  {
    if !j.Obj? then Err(InvalidType("struct SegmentMetadataResponse"))
    else
      var f := j.fields;
      var id :- Field(f, "id", DecodeString);
      var intervals :- NullTolerantField(f, "intervals", DecodeStrings, []);
      var columns :- Field(f, "columns", DecodeColumns);
      var queryGranularity :- OptField(f, "queryGranularity", DecodeString);
      var rollup :- OptField(f, "rollup", DecodeBool);
      var size :- OptField(f, "size", DecodeUsize);
      var numRows :- OptField(f, "numRows", DecodeUsize);
      var timestampSpec :- Field(f, "timestampSpec", DecodeTimestampSpec);
      var aggregators :- NullTolerantField(f, "aggregators", DecodeAggregators, map[]);
      Ok(SegmentMetadataResponse(id, intervals, columns, queryGranularity, rollup, size, numRows, timestampSpec, aggregators))
  }

  /** Two objects that differ at most under `key`, one of the two null-tolerant keys. */
  ghost predicate SameOutside(a: map<string, Json>, b: map<string, Json>, key: string)
  {
    && (forall k :: k != key ==> (k in a <==> k in b))
    && (forall k :: k != key && k in a ==> a[k] == b[k])
  }

  /** Objects that agree outside a null-tolerant key, and read the same under it, give the same answer. */
  lemma SameOutsideSameAnswer(a: map<string, Json>, b: map<string, Json>, key: string)
    requires key == "intervals" || key == "aggregators"
    requires SameOutside(a, b, key)
    requires NullTolerantField(a, "intervals", DecodeStrings, []) == NullTolerantField(b, "intervals", DecodeStrings, [])
    requires NullTolerantField(a, "aggregators", DecodeAggregators, map[]) == NullTolerantField(b, "aggregators", DecodeAggregators, map[])
    ensures DecodeSegmentMetadataResponse(Obj(a)) == DecodeSegmentMetadataResponse(Obj(b))
  {
    assert ("id" in a <==> "id" in b) && ("id" in a ==> a["id"] == b["id"]);
    assert Field(a, "id", DecodeString) == Field(b, "id", DecodeString);
    assert ("columns" in a <==> "columns" in b) && ("columns" in a ==> a["columns"] == b["columns"]);
    assert Field(a, "columns", DecodeColumns) == Field(b, "columns", DecodeColumns);
    assert ("queryGranularity" in a <==> "queryGranularity" in b) && ("queryGranularity" in a ==> a["queryGranularity"] == b["queryGranularity"]);
    assert OptField(a, "queryGranularity", DecodeString) == OptField(b, "queryGranularity", DecodeString);
    assert ("rollup" in a <==> "rollup" in b) && ("rollup" in a ==> a["rollup"] == b["rollup"]);
    assert OptField(a, "rollup", DecodeBool) == OptField(b, "rollup", DecodeBool);
    assert ("size" in a <==> "size" in b) && ("size" in a ==> a["size"] == b["size"]);
    assert OptField(a, "size", DecodeUsize) == OptField(b, "size", DecodeUsize);
    assert ("numRows" in a <==> "numRows" in b) && ("numRows" in a ==> a["numRows"] == b["numRows"]);
    assert OptField(a, "numRows", DecodeUsize) == OptField(b, "numRows", DecodeUsize);
    assert ("timestampSpec" in a <==> "timestampSpec" in b) && ("timestampSpec" in a ==> a["timestampSpec"] == b["timestampSpec"]);
    assert Field(a, "timestampSpec", DecodeTimestampSpec) == Field(b, "timestampSpec", DecodeTimestampSpec);
  }

  /**
   * A null `intervals` reads exactly as an absent one and as an empty
   * list: whether the rest of the answer reads, and what it reads as,
   * does not depend on which of the three the engine sent.
   */
  lemma NullIntervalsReadAsEmpty(f: map<string, Json>)
    ensures DecodeSegmentMetadataResponse(Obj(f["intervals" := Null]))
         == DecodeSegmentMetadataResponse(Obj(f - {"intervals"}))
    ensures DecodeSegmentMetadataResponse(Obj(f["intervals" := Null]))
         == DecodeSegmentMetadataResponse(Obj(f["intervals" := Arr([])]))
  {
    var n := f["intervals" := Null];
    var a := f - {"intervals"};
    var e := f["intervals" := Arr([])];
    assert DecodeStrings(Arr([])).value == [];
    assert SameOutside(n, a, "intervals");
    SameOutsideSameAnswer(n, a, "intervals");
    assert SameOutside(n, e, "intervals");
    SameOutsideSameAnswer(n, e, "intervals");
  }

  /** A null `aggregators` reads exactly as an absent one and as an empty object. */
  lemma NullAggregatorsReadAsEmpty(f: map<string, Json>)
    ensures DecodeSegmentMetadataResponse(Obj(f["aggregators" := Null]))
         == DecodeSegmentMetadataResponse(Obj(f - {"aggregators"}))
    ensures DecodeSegmentMetadataResponse(Obj(f["aggregators" := Null]))
         == DecodeSegmentMetadataResponse(Obj(f["aggregators" := Obj(map[])]))
  {
    var n := f["aggregators" := Null];
    var a := f - {"aggregators"};
    var e := f["aggregators" := Obj(map[])];
    assert DecodeAggregators(Obj(map[])).value == map[];
    assert SameOutside(n, a, "aggregators");
    SameOutsideSameAnswer(n, a, "aggregators");
    assert SameOutside(n, e, "aggregators");
    SameOutsideSameAnswer(n, e, "aggregators");
  }

  /** The smallest answer the engine may send: the three required fields, everything else null or absent. */
  lemma MinimalSegmentMetadataResponse(id: string)
    ensures DecodeSegmentMetadataResponse(Obj(map[
              "id" := Str(id),
              "intervals" := Null,
              "columns" := Obj(map[]),
              "timestampSpec" := Obj(map["column" := Str("__time"), "format" := Str("auto")]),
              "aggregators" := Null]))
         == Ok(SegmentMetadataResponse(id, [], map[], None, None, None, None,
                                       TimestampSpec("__time", "auto", None), map[]))
  {
    var ts := Obj(map["column" := Str("__time"), "format" := Str("auto")]);
    assert DecodeTimestampSpec(ts) == Ok(TimestampSpec("__time", "auto", None));
    assert DecodeColumns(Obj(map[])).value == map[];
  }
}
