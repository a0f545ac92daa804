/**
 * The native queries and their data sources. A data source can be a
 * query, so `DataSource` and `Query` are one recursive family, and every
 * query struct carries a data source. Each struct is written with a
 * `"queryType"` entry and camelCase field names; as for every serde
 * struct, that entry is only written and never checked when reading.
 * `Query` is untagged: it is written as the wrapped struct, and reading
 * tries the variants in declared order, keeping the first that succeeds.
 */
module Queries {
  import opened Json
  import opened Definitions
  import opened GroupBySpecs
  import opened QueryParts

  // ---------------------------------------------------------------------------
  // Data types
  // ---------------------------------------------------------------------------

  /**
   * `DataSource`, internally tagged by `"type"` with camelCase names and
   * fields. The source's `Query` variant is `Subquery` here.
   */
  datatype DataSource =
    | Table(name: string)
    | Lookup(lookup: string)
    | Union(dataSources: seq<string>)
    | Inline(columnNames: seq<string>, rows: seq<seq<string>>)
    | Subquery(query: Query)
    | Join(left: DataSource, right: DataSource, rightPrefix: string, condition: string, joinType: JoinType)

  /** `Query`, untagged. */
  datatype Query =
    | TopNQuery(topN: TopN)
    | GroupByQuery(groupBy: GroupBy)
    | ScanQuery(scan: Scan)
    | SearchQuery(search: Search)
    | TimeBoundaryQuery(timeBoundary: TimeBoundary)
    | SegmentMetadataQuery(segmentMetadata: SegmentMetadata)

  /** `TopN`, written with `"queryType": "topN"`. */
  datatype TopN = TopN(
    dataSource: DataSource,
    dimension: Dimension,
    threshold: Usize,
    metric: string,
    aggregations: seq<Aggregation>,
    intervals: seq<string>,
    granularity: Granularity,
    context: map<string, string>)

  /** `GroupBy`, written with `"queryType": "groupBy"`. */
  datatype GroupBy = GroupBy(
    dataSource: DataSource,
    dimensions: seq<Dimension>,
    limitSpec: Option<LimitSpec>,
    having: Option<HavingSpec>,
    granularity: Granularity,
    filter: Option<Filter>,
    aggregations: seq<Aggregation>,
    postAggregations: seq<PostAggregation>,
    intervals: seq<string>,
    subtotalSpec: seq<seq<string>>,
    context: map<string, string>)

  /** `Scan`, written with `"queryType": "scan"`. */
  datatype Scan = Scan(
    dataSource: DataSource,
    intervals: seq<string>,
    resultFormat: ResultFormat,
    filter: Option<Filter>,
    columns: seq<string>,
    batchSize: Usize,
    limit: Option<Usize>,
    ordering: Option<Ordering>,
    context: map<string, string>)

  /** `Search`, written with `"queryType": "search"`. */
  datatype Search = Search(
    dataSource: DataSource,
    granularity: Granularity,
    filter: Option<Filter>,
    limit: Usize,
    intervals: seq<string>,
    searchDimensions: seq<string>,
    query: SearchQuerySpec,
    sort: Option<SortingOrder>,
    context: map<string, string>)

  /** `TimeBoundary`, written with `"queryType": "timeBoundary"`; `bound` is left out when it is `MinMaxTime`. */
  datatype TimeBoundary = TimeBoundary(
    dataSource: DataSource,
    bound: TimeBoundType,
    filter: Option<Filter>,
    context: map<string, string>)

  /** `SegmentMetadata`, written with `"queryType": "segmentMetadata"`; an empty `analysisTypes` is left out. */
  datatype SegmentMetadata = SegmentMetadata(
    dataSource: DataSource,
    intervals: seq<string>,
    toInclude: ToInclude,
    merge: bool,
    analysisTypes: seq<AnalysisType>,
    lenientAggregatorMerge: bool)

  // ---------------------------------------------------------------------------
  // Encoding
  // ---------------------------------------------------------------------------

  function DataSourceTag(ds: DataSource): string
  {
    match ds
    case Table(_) => "table"
    case Lookup(_) => "lookup"
    case Union(_) => "union"
    case Inline(_, _) => "inline"
    case Subquery(_) => "query"
    case Join(_, _, _, _, _) => "join"
  }

  function EncodeDataSource(ds: DataSource): Json
  {
    var tag := Str(DataSourceTag(ds));
    match ds
    case Table(name) => Obj(map["type" := tag, "name" := Str(name)])
    case Lookup(lookup) => Obj(map["type" := tag, "lookup" := Str(lookup)])
    case Union(dataSources) => Obj(map["type" := tag, "dataSources" := EncodeStrings(dataSources)])
    case Inline(columnNames, rows) =>
      Obj(map["type" := tag, "columnNames" := EncodeStrings(columnNames), "rows" := EncodeStringRows(rows)])
    case Subquery(query) => Obj(map["type" := tag, "query" := EncodeQuery(query)])
    case Join(left, right, rightPrefix, condition, joinType) =>
      Obj(map[
        "type" := tag,
        "left" := EncodeDataSource(left),
        "right" := EncodeDataSource(right),
        "rightPrefix" := Str(rightPrefix),
        "condition" := Str(condition),
        "joinType" := EncodeJoinType(joinType)])
  }

  /** Untagged: a query is written exactly as the struct it wraps. */
  function EncodeQuery(q: Query): (j: Json)
    ensures j.Obj? && "dataSource" in j.fields && j.fields["dataSource"] == EncodeDataSource(QueryDataSource(q))
  {
    match q
    case TopNQuery(t) => EncodeTopN(t)
    case GroupByQuery(g) => EncodeGroupBy(g)
    case ScanQuery(s) => EncodeScan(s)
    case SearchQuery(s) => EncodeSearch(s)
    case TimeBoundaryQuery(t) => EncodeTimeBoundary(t)
    case SegmentMetadataQuery(s) => EncodeSegmentMetadata(s)
  }

  /*
   * Each struct is written through a function of the struct and its data
   * source already written, and read through a function of the object's
   * fields and its data source already read; only the data source ties a
   * struct to the recursive family. The contracts of the field functions
   * list the entries written, and which keys of the structs tried before
   * it in `Query` are absent.
   */

  function EncodeTopN(t: TopN): Json { Obj(TopNFields(t, EncodeDataSource(t.dataSource))) }

  function TopNFields(t: TopN, dataSource: Json): (f: map<string, Json>)
    ensures "queryType" in f && f["queryType"] == Str("topN")
    ensures "dataSource" in f && f["dataSource"] == dataSource
    ensures "dimension" in f && f["dimension"] == EncodeDimension(t.dimension)
    ensures "threshold" in f && f["threshold"] == EncodeUsize(t.threshold)
    ensures "metric" in f && f["metric"] == Str(t.metric)
    ensures "aggregations" in f && f["aggregations"] == EncodeSeq(t.aggregations, EncodeAggregation)
    ensures "intervals" in f && f["intervals"] == EncodeStrings(t.intervals)
    ensures "granularity" in f && f["granularity"] == EncodeGranularity(t.granularity)
    ensures "context" in f && f["context"] == EncodeStringMap(t.context)
  {
    map[
      "queryType" := Str("topN"),
      "dataSource" := dataSource,
      "dimension" := EncodeDimension(t.dimension),
      "threshold" := EncodeUsize(t.threshold),
      "metric" := Str(t.metric),
      "aggregations" := EncodeSeq(t.aggregations, EncodeAggregation),
      "intervals" := EncodeStrings(t.intervals),
      "granularity" := EncodeGranularity(t.granularity),
      "context" := EncodeStringMap(t.context)]
  }

  function EncodeGroupBy(g: GroupBy): Json { Obj(GroupByFields(g, EncodeDataSource(g.dataSource))) }

  function GroupByFields(g: GroupBy, dataSource: Json): map<string, Json>
  {
    map[
      "queryType" := Str("groupBy"),
      "dataSource" := dataSource,
      "dimensions" := EncodeSeq(g.dimensions, EncodeDimension),
      "limitSpec" := EncodeOpt(g.limitSpec, EncodeLimitSpec),
      "having" := EncodeOpt(g.having, EncodeHavingSpec),
      "granularity" := EncodeGranularity(g.granularity),
      "filter" := EncodeOpt(g.filter, EncodeFilter),
      "aggregations" := EncodeSeq(g.aggregations, EncodeAggregation),
      "postAggregations" := EncodeSeq(g.postAggregations, EncodePostAggregation),
      "intervals" := EncodeStrings(g.intervals),
      "subtotalSpec" := EncodeStringRows(g.subtotalSpec),
      "context" := EncodeStringMap(g.context)]
  }

  function EncodeScan(s: Scan): Json { Obj(ScanFields(s, EncodeDataSource(s.dataSource))) }

  function ScanFields(s: Scan, dataSource: Json): (f: map<string, Json>)
    ensures "queryType" in f && f["queryType"] == Str("scan")
    ensures "dataSource" in f && f["dataSource"] == dataSource
    ensures "intervals" in f && f["intervals"] == EncodeStrings(s.intervals)
    ensures "resultFormat" in f && f["resultFormat"] == EncodeResultFormat(s.resultFormat)
    ensures "filter" in f && f["filter"] == EncodeOpt(s.filter, EncodeFilter)
    ensures "columns" in f && f["columns"] == EncodeStrings(s.columns)
    ensures "batchSize" in f && f["batchSize"] == EncodeUsize(s.batchSize)
    ensures "limit" in f && f["limit"] == EncodeOpt(s.limit, EncodeUsize)
    ensures "ordering" in f && f["ordering"] == EncodeOpt(s.ordering, EncodeOrdering)
    ensures "context" in f && f["context"] == EncodeStringMap(s.context)
    ensures "dimension" !in f && "dimensions" !in f
  {
    map[
      "queryType" := Str("scan"),
      "dataSource" := dataSource,
      "intervals" := EncodeStrings(s.intervals),
      "resultFormat" := EncodeResultFormat(s.resultFormat),
      "filter" := EncodeOpt(s.filter, EncodeFilter),
      "columns" := EncodeStrings(s.columns),
      "batchSize" := EncodeUsize(s.batchSize),
      "limit" := EncodeOpt(s.limit, EncodeUsize),
      "ordering" := EncodeOpt(s.ordering, EncodeOrdering),
      "context" := EncodeStringMap(s.context)]
  }

  function EncodeSearch(s: Search): Json { Obj(SearchFields(s, EncodeDataSource(s.dataSource))) }

  function SearchFields(s: Search, dataSource: Json): (f: map<string, Json>)
    ensures "queryType" in f && f["queryType"] == Str("search")
    ensures "dataSource" in f && f["dataSource"] == dataSource
    ensures "granularity" in f && f["granularity"] == EncodeGranularity(s.granularity)
    ensures "filter" in f && f["filter"] == EncodeOpt(s.filter, EncodeFilter)
    ensures "limit" in f && f["limit"] == EncodeUsize(s.limit)
    ensures "intervals" in f && f["intervals"] == EncodeStrings(s.intervals)
    ensures "searchDimensions" in f && f["searchDimensions"] == EncodeStrings(s.searchDimensions)
    ensures "query" in f && f["query"] == EncodeSearchQuerySpec(s.query)
    ensures "sort" in f && f["sort"] == EncodeOpt(s.sort, EncodeSortingOrder)
    ensures "context" in f && f["context"] == EncodeStringMap(s.context)
  {
    map[
      "queryType" := Str("search"),
      "dataSource" := dataSource,
      "granularity" := EncodeGranularity(s.granularity),
      "filter" := EncodeOpt(s.filter, EncodeFilter),
      "limit" := EncodeUsize(s.limit),
      "intervals" := EncodeStrings(s.intervals),
      "searchDimensions" := EncodeStrings(s.searchDimensions),
      "query" := EncodeSearchQuerySpec(s.query),
      "sort" := EncodeOpt(s.sort, EncodeSortingOrder),
      "context" := EncodeStringMap(s.context)]
  }

  function EncodeTimeBoundary(t: TimeBoundary): Json { Obj(TimeBoundaryFields(t, EncodeDataSource(t.dataSource))) }

  /** `bound` is skipped when it is `MinMaxTime`. */
  function TimeBoundaryFields(t: TimeBoundary, dataSource: Json): (f: map<string, Json>)
    ensures "queryType" in f && f["queryType"] == Str("timeBoundary")
    ensures "dataSource" in f && f["dataSource"] == dataSource
    ensures "bound" in f <==> !IsBoth(t.bound)
    ensures "bound" in f ==> f["bound"] == EncodeTimeBoundType(t.bound)
    ensures "filter" in f && f["filter"] == EncodeOpt(t.filter, EncodeFilter)
    ensures "context" in f && f["context"] == EncodeStringMap(t.context)
    ensures "dimension" !in f && "dimensions" !in f && "resultFormat" !in f && "searchDimensions" !in f
    ensures "analysisTypes" !in f
  {
    var fields := map[
      "queryType" := Str("timeBoundary"),
      "dataSource" := dataSource,
      "filter" := EncodeOpt(t.filter, EncodeFilter),
      "context" := EncodeStringMap(t.context)];
    if IsBoth(t.bound) then fields else fields["bound" := EncodeTimeBoundType(t.bound)]
  }

  function EncodeSegmentMetadata(s: SegmentMetadata): Json { Obj(SegmentMetadataFields(s, EncodeDataSource(s.dataSource))) }

  /** `analysisTypes` is skipped when empty. */
  function SegmentMetadataFields(s: SegmentMetadata, dataSource: Json): (f: map<string, Json>)
    ensures "queryType" in f && f["queryType"] == Str("segmentMetadata")
    ensures "dataSource" in f && f["dataSource"] == dataSource
    ensures "intervals" in f && f["intervals"] == EncodeStrings(s.intervals)
    ensures "toInclude" in f && f["toInclude"] == EncodeToInclude(s.toInclude)
    ensures "merge" in f && f["merge"] == Bool(s.merge)
    ensures "analysisTypes" in f <==> |s.analysisTypes| > 0
    ensures "analysisTypes" in f ==> f["analysisTypes"] == EncodeAnalysisTypes(s.analysisTypes)
    ensures "lenientAggregatorMerge" in f && f["lenientAggregatorMerge"] == Bool(s.lenientAggregatorMerge)
    ensures "dimension" !in f && "dimensions" !in f && "resultFormat" !in f && "searchDimensions" !in f && "bound" !in f
  {
    var fields := map[
      "queryType" := Str("segmentMetadata"),
      "dataSource" := dataSource,
      "intervals" := EncodeStrings(s.intervals),
      "toInclude" := EncodeToInclude(s.toInclude),
      "merge" := Bool(s.merge),
      "lenientAggregatorMerge" := Bool(s.lenientAggregatorMerge)];
    if |s.analysisTypes| == 0 then fields else fields["analysisTypes" := EncodeAnalysisTypes(s.analysisTypes)]
  }

  // ---------------------------------------------------------------------------
  // Decoding
  // ---------------------------------------------------------------------------

  function DecodeDataSource(j: Json): Result<DataSource>
    decreases j, 1
  {
    if j.Obj? then
      var tag :- TagOf(j.fields);
      DecodeDataSourceAs(tag, j)
    else Err(InvalidType("internally tagged enum"))
  }

  function DecodeDataSourceAs(tag: string, j: Json): Result<DataSource>
    requires j.Obj?
    decreases j, 0
  {
    var f := j.fields;
    if tag == "table" then
      var name :- Field(f, "name", DecodeString);
      Ok(Table(name))
    else if tag == "lookup" then
      var lookup :- Field(f, "lookup", DecodeString);
      Ok(DataSource.Lookup(lookup))
    else if tag == "union" then
      var dataSources :- Field(f, "dataSources", DecodeStrings);
      Ok(Union(dataSources))
    else if tag == "inline" then
      var columnNames :- Field(f, "columnNames", DecodeStrings);
      var rows :- Field(f, "rows", DecodeStringRows);
      Ok(Inline(columnNames, rows))
    else if tag == "query" then
      if "query" !in f then Err(MissingField("query"))
      else
      var query :- DecodeQuery(f["query"]);
      Ok(Subquery(query))
    else if tag == "join" then
      if "left" !in f then Err(MissingField("left"))
      else
      var left :- DecodeDataSource(f["left"]);
      if "right" !in f then Err(MissingField("right"))
      else
      var right :- DecodeDataSource(f["right"]);
      var rightPrefix :- Field(f, "rightPrefix", DecodeString);
      var condition :- Field(f, "condition", DecodeString);
      var joinType :- Field(f, "joinType", DecodeJoinType);
      Ok(Join(left, right, rightPrefix, condition, joinType))
    else Err(UnknownVariant(tag))
  }

  /** The `dataSource` field every query struct starts with. */
  function DecodeDataSourceField(f: map<string, Json>, j: Json): Result<DataSource>
    requires j.Obj? && f == j.fields
    decreases j, 0
  {
    if "dataSource" !in f then Err(MissingField("dataSource")) else DecodeDataSource(f["dataSource"])
  }

  /**
   * Untagged: the first struct that reads successfully, in declared order,
   * and a failure when none does. Every struct starts with its data
   * source, so each attempt reads the same data source the same way; it
   * is read once here, and the remaining fields of each struct are then
   * tried in turn.
   */
  function DecodeQuery(j: Json): (r: Result<Query>)
    ensures r.Err? ==> r == Err(NoVariantMatched)
    decreases j, 1
  {
    if j.Obj? then
      match DecodeDataSourceField(j.fields, j)
      case Ok(dataSource) => DecodeQueryFrom(j.fields, dataSource, 0)
      case Err(_) => Err(NoVariantMatched)
    else Err(NoVariantMatched)
  }

  /** The data source every query carries. */
  function QueryDataSource(q: Query): DataSource
  {
    match q
    case TopNQuery(t) => t.dataSource
    case GroupByQuery(g) => g.dataSource
    case ScanQuery(s) => s.dataSource
    case SearchQuery(s) => s.dataSource
    case TimeBoundaryQuery(t) => t.dataSource
    case SegmentMetadataQuery(s) => s.dataSource
  }

  /** The number of structs `Query` tries. */
  const QueryVariants := 6

  /** The position of a query's struct among the variants of `Query`. */
  function QueryIndex(q: Query): (k: nat)
    ensures k < QueryVariants
  {
    match q
    case TopNQuery(_) => 0
    case GroupByQuery(_) => 1
    case ScanQuery(_) => 2
    case SearchQuery(_) => 3
    case TimeBoundaryQuery(_) => 4
    case SegmentMetadataQuery(_) => 5
  }

  /** The `k`-th struct of `Query` in declared order, read from the fields after the data source. */
  function DecodeQueryVariant(f: map<string, Json>, dataSource: DataSource, k: nat): (r: Result<Query>)
    requires k < QueryVariants
    ensures r.Ok? ==> QueryIndex(r.value) == k
  {
    if k == 0 then
      (match DecodeTopNFields(f, dataSource) case Ok(t) => Ok(TopNQuery(t)) case Err(e) => Err(e))
    else if k == 1 then
      (match DecodeGroupByFields(f, dataSource) case Ok(g) => Ok(GroupByQuery(g)) case Err(e) => Err(e))
    else if k == 2 then
      (match DecodeScanFields(f, dataSource) case Ok(s) => Ok(ScanQuery(s)) case Err(e) => Err(e))
    else if k == 3 then
      (match DecodeSearchFields(f, dataSource) case Ok(s) => Ok(SearchQuery(s)) case Err(e) => Err(e))
    else if k == 4 then
      (match DecodeTimeBoundaryFields(f, dataSource) case Ok(t) => Ok(TimeBoundaryQuery(t)) case Err(e) => Err(e))
    else
      (match DecodeSegmentMetadataFields(f, dataSource) case Ok(s) => Ok(SegmentMetadataQuery(s)) case Err(e) => Err(e))
  }

  /**
   * Untagged: the first struct from the `k`-th on whose fields read, and
   * a failure naming no struct when none does.
   */
  function DecodeQueryFrom(f: map<string, Json>, dataSource: DataSource, k: nat): (r: Result<Query>)
    requires k <= QueryVariants
    ensures r.Ok? ==> k <= QueryIndex(r.value) && DecodeQueryVariant(f, dataSource, QueryIndex(r.value)) == r
    ensures r.Err? ==> r == Err(NoVariantMatched)
    decreases QueryVariants - k
  {
    if k == QueryVariants then Err(NoVariantMatched)
    else
      match DecodeQueryVariant(f, dataSource, k)
      case Ok(q) => Ok(q)
      case Err(_) => DecodeQueryFrom(f, dataSource, k + 1)
  }

  /** The list-valued fields, each element read with its own decoder. */
  function DecodeDimensions(j: Json): Result<seq<Dimension>> { DecodeSeq(j, DecodeDimension) }

  function DecodeAggregations(j: Json): Result<seq<Aggregation>> { DecodeSeq(j, DecodeAggregation) }

  function DecodePostAggregations(j: Json): Result<seq<PostAggregation>> { DecodeSeq(j, DecodePostAggregation) }

  function DecodeTopNFields(f: map<string, Json>, dataSource: DataSource): (r: Result<TopN>)
    ensures r.Ok? ==> "dimension" in f && "threshold" in f && "metric" in f && "aggregations" in f && "intervals" in f && "granularity" in f && "context" in f
    ensures r.Ok? ==> r.value.dataSource == dataSource
  {
    var dimension :- Field(f, "dimension", DecodeDimension);
    var threshold :- Field(f, "threshold", DecodeUsize);
    var metric :- Field(f, "metric", DecodeString);
    var aggregations :- Field(f, "aggregations", DecodeAggregations);
    var intervals :- Field(f, "intervals", DecodeStrings);
    var granularity :- Field(f, "granularity", DecodeGranularity);
    var context :- Field(f, "context", DecodeStringMap);
    Ok(TopN(dataSource, dimension, threshold, metric, aggregations, intervals, granularity, context))
  }

  function DecodeGroupByFields(f: map<string, Json>, dataSource: DataSource): (r: Result<GroupBy>)
    ensures r.Ok? ==> "dimensions" in f && "granularity" in f && "aggregations" in f && "postAggregations" in f && "intervals" in f && "subtotalSpec" in f && "context" in f
    ensures r.Ok? ==> r.value.dataSource == dataSource
  {
    var dimensions :- Field(f, "dimensions", DecodeDimensions);
    var limitSpec :- OptField(f, "limitSpec", DecodeLimitSpec);
    var having :- OptField(f, "having", DecodeHavingSpec);
    var granularity :- Field(f, "granularity", DecodeGranularity);
    var filter :- OptField(f, "filter", DecodeFilter);
    var aggregations :- Field(f, "aggregations", DecodeAggregations);
    var postAggregations :- Field(f, "postAggregations", DecodePostAggregations);
    var intervals :- Field(f, "intervals", DecodeStrings);
    var subtotalSpec :- Field(f, "subtotalSpec", DecodeStringRows);
    var context :- Field(f, "context", DecodeStringMap);
    Ok(GroupBy(dataSource, dimensions, limitSpec, having, granularity, filter, aggregations,
               postAggregations, intervals, subtotalSpec, context))
  }

  function DecodeScanFields(f: map<string, Json>, dataSource: DataSource): (r: Result<Scan>)
    ensures r.Ok? ==> "intervals" in f && "resultFormat" in f && "columns" in f && "batchSize" in f && "context" in f
    ensures r.Ok? ==> r.value.dataSource == dataSource
  {
    var intervals :- Field(f, "intervals", DecodeStrings);
    var resultFormat :- Field(f, "resultFormat", DecodeResultFormat);
    var filter :- OptField(f, "filter", DecodeFilter);
    var columns :- Field(f, "columns", DecodeStrings);
    var batchSize :- Field(f, "batchSize", DecodeUsize);
    var limit :- OptField(f, "limit", DecodeUsize);
    var ordering :- OptField(f, "ordering", DecodeOrdering);
    var context :- Field(f, "context", DecodeStringMap);
    Ok(Scan(dataSource, intervals, resultFormat, filter, columns, batchSize, limit, ordering, context))
  }

  function DecodeSearchFields(f: map<string, Json>, dataSource: DataSource): (r: Result<Search>)
    ensures r.Ok? ==> "granularity" in f && "limit" in f && "intervals" in f && "searchDimensions" in f && "query" in f && "context" in f
    ensures r.Ok? ==> r.value.dataSource == dataSource
  {
    var granularity :- Field(f, "granularity", DecodeGranularity);
    var filter :- OptField(f, "filter", DecodeFilter);
    var limit :- Field(f, "limit", DecodeUsize);
    var intervals :- Field(f, "intervals", DecodeStrings);
    var searchDimensions :- Field(f, "searchDimensions", DecodeStrings);
    var query :- Field(f, "query", DecodeSearchQuerySpec);
    var sort :- OptField(f, "sort", DecodeSortingOrder);
    var context :- Field(f, "context", DecodeStringMap);
    Ok(Search.Search(dataSource, granularity, filter, limit, intervals, searchDimensions, query, sort, context))
  }

  /** `bound` has no default: an object without it fails. */
  function DecodeTimeBoundaryFields(f: map<string, Json>, dataSource: DataSource): (r: Result<TimeBoundary>)
    ensures r.Ok? ==> "bound" in f && "context" in f
    ensures r.Ok? ==> r.value.dataSource == dataSource
  {
    var bound :- Field(f, "bound", DecodeTimeBoundType);
    var filter :- OptField(f, "filter", DecodeFilter);
    var context :- Field(f, "context", DecodeStringMap);
    Ok(TimeBoundary(dataSource, bound, filter, context))
  }

  /** `analysisTypes` has no default: an object without it fails. */
  function DecodeSegmentMetadataFields(f: map<string, Json>, dataSource: DataSource): (r: Result<SegmentMetadata>)
    ensures r.Ok? ==> "intervals" in f && "toInclude" in f && "merge" in f && "analysisTypes" in f && "lenientAggregatorMerge" in f
    ensures r.Ok? ==> r.value.dataSource == dataSource
  {
    var intervals :- Field(f, "intervals", DecodeStrings);
    var toInclude :- Field(f, "toInclude", DecodeToInclude);
    var merge :- Field(f, "merge", DecodeBool);
    var analysisTypes :- Field(f, "analysisTypes", DecodeAnalysisTypes);
    var lenientAggregatorMerge :- Field(f, "lenientAggregatorMerge", DecodeBool);
    Ok(SegmentMetadata(dataSource, intervals, toInclude, merge, analysisTypes, lenientAggregatorMerge))
  }

  // ---------------------------------------------------------------------------
  // Constructor helpers
  // ---------------------------------------------------------------------------

  /** `DataSource::table`. */
  function TableSource(name: string): (ds: DataSource)
    ensures ds.Table? && ds.name == name
  {
    Table(name)
  }

  /** `DataSource::lookup`: the name goes to the `lookup` field. */
  function LookupSource(name: string): (ds: DataSource)
    ensures ds.Lookup? && ds.lookup == name
  {
    DataSource.Lookup(name)
  }

  /** `DataSource::union`: the names are kept in order. */
  function UnionSource(sources: seq<string>): (ds: DataSource)
    ensures ds.Union? && |ds.dataSources| == |sources|
    ensures forall i :: 0 <= i < |sources| ==> ds.dataSources[i] == sources[i]
  {
    Union(seq(|sources|, i requires 0 <= i < |sources| => sources[i]))
  }

  /** `DataSource::query`. */
  function QuerySource(query: Query): (ds: DataSource)
    ensures ds.Subquery? && ds.query == query
  {
    Subquery(query)
  }
}
