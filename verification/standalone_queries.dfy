/**
 * The two query structs outside the untagged `Query`: `Timeseries` and
 * `DataSourceMetadata`. No client call sends a `Timeseries` (its file is
 * not declared in the query module); `DataSourceMetadata` is the request
 * that `datasource_metadata` sends. Like every query struct they are
 * written with a `"queryType"` entry and camelCase field names, and that
 * entry is never checked when reading.
 */
module StandaloneQueries {
  import opened Json
  import opened Definitions
  import opened DefinitionsRoundTrip
  import opened GroupBySpecs
  import opened Queries
  import opened QueriesRoundTrip

  /** `Timeseries`, written with `"queryType": "timeseries"`; its post-aggregations are those of `GroupBy`. */
  datatype Timeseries = Timeseries(
    dataSource: DataSource,
    granularity: Granularity,
    descending: bool,
    intervals: seq<string>,
    filter: Option<Filter>,
    aggregations: seq<Aggregation>,
    postAggregations: seq<PostAggregation>,
    limit: Option<Usize>,
    context: map<string, string>)

  /** `DataSourceMetadata`, written with `"queryType": "dataSourceMetadata"`. */
  datatype DataSourceMetadata = DataSourceMetadata(dataSource: DataSource, context: map<string, string>)

  // ---------------------------------------------------------------------------
  // Timeseries
  // ---------------------------------------------------------------------------

  function TimeseriesFields(t: Timeseries): map<string, Json>
  {
    map[
      "queryType" := Str("timeseries"),
      "dataSource" := EncodeDataSource(t.dataSource),
      "granularity" := EncodeGranularity(t.granularity),
      "descending" := Bool(t.descending),
      "intervals" := EncodeStrings(t.intervals),
      "filter" := EncodeOpt(t.filter, EncodeFilter),
      "aggregations" := EncodeSeq(t.aggregations, EncodeAggregation),
      "postAggregations" := EncodeSeq(t.postAggregations, EncodePostAggregation),
      "limit" := EncodeOpt(t.limit, EncodeUsize),
      "context" := EncodeStringMap(t.context)]
  }

  function EncodeTimeseries(t: Timeseries): Json { Obj(TimeseriesFields(t)) }

  function DecodeTimeseries(j: Json): (r: Result<Timeseries>)
    ensures r.Ok? ==> j.Obj? && "dataSource" in j.fields && "postAggregations" in j.fields
  {
    if !j.Obj? then Err(InvalidType("struct Timeseries"))
    else
      var f := j.fields;
      var dataSource :- Field(f, "dataSource", DecodeDataSource);
      var granularity :- Field(f, "granularity", DecodeGranularity);
      var descending :- Field(f, "descending", DecodeBool);
      var intervals :- Field(f, "intervals", DecodeStrings);
      var filter :- OptField(f, "filter", DecodeFilter);
      var aggregations :- Field(f, "aggregations", DecodeAggregations);
      var postAggregations :- Field(f, "postAggregations", DecodePostAggregations);
      var limit :- OptField(f, "limit", DecodeUsize);
      var context :- Field(f, "context", DecodeStringMap);
      Ok(Timeseries(dataSource, granularity, descending, intervals, filter, aggregations,
                    postAggregations, limit, context))
  }

  /** What a written `Timeseries` holds under the keys whose contents may fail to read back. */
  lemma TimeseriesPartEntries(t: Timeseries)
    ensures var f := TimeseriesFields(t);
      && "queryType" in f && f["queryType"] == Str("timeseries")
      && "dataSource" in f && f["dataSource"] == EncodeDataSource(t.dataSource)
      && "postAggregations" in f && f["postAggregations"] == EncodeSeq(t.postAggregations, EncodePostAggregation)
      && "filter" in f && f["filter"] == EncodeOpt(t.filter, EncodeFilter)
      && "limit" in f && f["limit"] == EncodeOpt(t.limit, EncodeUsize)
  {
  }

  /** What a written `Timeseries` holds under its other keys. */
  lemma TimeseriesPlainEntries(t: Timeseries)
    ensures var f := TimeseriesFields(t);
      && "granularity" in f && f["granularity"] == EncodeGranularity(t.granularity)
      && "descending" in f && f["descending"] == Bool(t.descending)
      && "intervals" in f && f["intervals"] == EncodeStrings(t.intervals)
      && "aggregations" in f && f["aggregations"] == EncodeSeq(t.aggregations, EncodeAggregation)
      && "context" in f && f["context"] == EncodeStringMap(t.context)
  {
  }

  /**
   * An object whose plain entries read as those of `t` reads as `t`
   * exactly when its data source and its post-aggregations do.
   */
  lemma TimeseriesObject(j: Json, t: Timeseries)
    requires j.Obj?
    requires Field(j.fields, "granularity", DecodeGranularity) == Ok(t.granularity)
    requires Field(j.fields, "descending", DecodeBool) == Ok(t.descending)
    requires Field(j.fields, "intervals", DecodeStrings) == Ok(t.intervals)
    requires OptField(j.fields, "filter", DecodeFilter) == Ok(t.filter)
    requires Field(j.fields, "aggregations", DecodeAggregations) == Ok(t.aggregations)
    requires OptField(j.fields, "limit", DecodeUsize) == Ok(t.limit)
    requires Field(j.fields, "context", DecodeStringMap) == Ok(t.context)
    ensures DecodeTimeseries(j) == Ok(t) <==>
      (Field(j.fields, "dataSource", DecodeDataSource) == Ok(t.dataSource)
       && Field(j.fields, "postAggregations", DecodePostAggregations) == Ok(t.postAggregations))
  {
  }

  /**
   * A timeseries query reads back exactly when its data source does and
   * it holds no arithmetic post-aggregation, which is written under
   * `"fn"` but read from `"function"`.
   */
  lemma TimeseriesRoundTrip(t: Timeseries)
    ensures DecodeTimeseries(EncodeTimeseries(t)) == Ok(t)
        <==> DataSourceReadsBack(t.dataSource) && PostAggregationsReadBack(t.postAggregations)
  {
    var f := TimeseriesFields(t);
    TimeseriesPartEntries(t);
    TimeseriesPlainEntries(t);
    DataSourceRoundTrip(t.dataSource);
    PostAggregationsRoundTrip(t.postAggregations);
    GranularityRoundTrip(t.granularity);
    StringsRoundTrip(t.intervals);
    if t.filter.Some? {
      FilterRoundTrip(t.filter.value);
    }
    OptFieldRoundTrip(f, "filter", t.filter, EncodeFilter, DecodeFilter);
    AggregationsRoundTrip(t.aggregations);
    OptFieldRoundTrip(f, "limit", t.limit, EncodeUsize, DecodeUsize);
    StringMapRoundTrip(t.context);
    TimeseriesObject(EncodeTimeseries(t), t);
  }

  /** One arithmetic post-aggregation anywhere in the list keeps a timeseries query from reading back. */
  lemma TimeseriesArithmeticUnreadable(t: Timeseries, i: nat)
    requires i < |t.postAggregations| && t.postAggregations[i].Arithmetic?
    ensures DecodeTimeseries(EncodeTimeseries(t)) != Ok(t)
  {
    TimeseriesRoundTrip(t);
  }

  // ---------------------------------------------------------------------------
  // DataSourceMetadata
  // ---------------------------------------------------------------------------

  function EncodeDataSourceMetadata(m: DataSourceMetadata): (j: Json)
    ensures j.Obj? && j.fields.Keys == {"queryType", "dataSource", "context"}
    ensures j.fields["queryType"] == Str("dataSourceMetadata")
    ensures j.fields["dataSource"] == EncodeDataSource(m.dataSource)
    ensures j.fields["context"] == EncodeStringMap(m.context)
  {
    Obj(map[
      "queryType" := Str("dataSourceMetadata"),
      "dataSource" := EncodeDataSource(m.dataSource),
      "context" := EncodeStringMap(m.context)])
  }

  function DecodeDataSourceMetadata(j: Json): (r: Result<DataSourceMetadata>)
    ensures r.Ok? ==> j.Obj? && "dataSource" in j.fields && "context" in j.fields
    ensures r.Ok? ==> DecodeDataSource(j.fields["dataSource"]) == Ok(r.value.dataSource)
    ensures r.Ok? ==> DecodeStringMap(j.fields["context"]) == Ok(r.value.context)
  {
    if !j.Obj? then Err(InvalidType("struct DataSourceMetadata"))
    else
      var dataSource :- Field(j.fields, "dataSource", DecodeDataSource);
      var context :- Field(j.fields, "context", DecodeStringMap);
      Ok(DataSourceMetadata(dataSource, context))
  }

  /** A metadata query reads back exactly when its data source does. */
  lemma DataSourceMetadataRoundTrip(m: DataSourceMetadata)
    ensures DecodeDataSourceMetadata(EncodeDataSourceMetadata(m)) == Ok(m) <==> DataSourceReadsBack(m.dataSource)
  {
    DataSourceRoundTrip(m.dataSource);
    StringMapRoundTrip(m.context);
  }
}
