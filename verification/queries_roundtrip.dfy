/**
 * Which queries read back as themselves. A query struct does exactly
 * when its data source does and its own parts do: no lookup-map
 * dimension, no integer having value, no arithmetic post-aggregation, a
 * time-boundary bound other than `MinMaxTime` and a non-empty list of
 * analysis types. The untagged `Query` then reads back as the variant it
 * was written from, because each struct tried before it lacks a field the
 * written object does not hold.
 */
module QueriesRoundTrip {
  import opened Json
  import opened Definitions
  import opened DefinitionsRoundTrip
  import opened GroupBySpecs
  import opened GroupBySpecsRoundTrip
  import opened QueryParts
  import opened Queries

  // ---------------------------------------------------------------------------
  // Lists of parts
  // ---------------------------------------------------------------------------

  /** No dimension spec of the list is a lookup-map spec. */
  predicate DimensionsReadBack(dimensions: seq<Dimension>)
  {
    forall i :: 0 <= i < |dimensions| ==> WithoutLookupMap(dimensions[i])
  }

  /** No post-aggregation of the list is an arithmetic one. */
  predicate PostAggregationsReadBack(postAggregations: seq<PostAggregation>)
  {
    forall i :: 0 <= i < |postAggregations| ==> WithoutArithmetic(postAggregations[i])
  }

  lemma AggregationsRoundTrip(aggregations: seq<Aggregation>)
    ensures DecodeAggregations(EncodeSeq(aggregations, EncodeAggregation)) == Ok(aggregations)
  {
    forall i | 0 <= i < |aggregations|
      ensures DecodeAggregation(EncodeAggregation(aggregations[i])) == Ok(aggregations[i])
    {
      AggregationRoundTrip(aggregations[i]);
    }
    SeqRoundTrip(aggregations, EncodeAggregation, DecodeAggregation);
  }

  /** A list of dimension specs reads back exactly when none holds a lookup-map spec. */
  lemma DimensionsRoundTrip(dimensions: seq<Dimension>)
    ensures DecodeDimensions(EncodeSeq(dimensions, EncodeDimension)) == Ok(dimensions)
        <==> DimensionsReadBack(dimensions)
  {
    forall i | 0 <= i < |dimensions|
      ensures WithoutLookupMap(dimensions[i]) ==> DecodeDimension(EncodeDimension(dimensions[i])) == Ok(dimensions[i])
      ensures !WithoutLookupMap(dimensions[i]) ==> DecodeDimension(EncodeDimension(dimensions[i])).Err?
    {
      DimensionRoundTrip(dimensions[i]);
    }
    if DimensionsReadBack(dimensions) {
      SeqRoundTrip(dimensions, EncodeDimension, DecodeDimension);
    }
  }

  /** A list of post-aggregations reads back exactly when none holds an arithmetic one. */
  lemma PostAggregationsRoundTrip(postAggregations: seq<PostAggregation>)
    ensures DecodePostAggregations(EncodeSeq(postAggregations, EncodePostAggregation)) == Ok(postAggregations)
        <==> PostAggregationsReadBack(postAggregations)
  {
    forall i | 0 <= i < |postAggregations|
      ensures WithoutArithmetic(postAggregations[i]) ==>
        DecodePostAggregation(EncodePostAggregation(postAggregations[i])) == Ok(postAggregations[i])
      ensures !WithoutArithmetic(postAggregations[i]) ==>
        DecodePostAggregation(EncodePostAggregation(postAggregations[i])).Err?
    {
      PostAggregationRoundTrip(postAggregations[i]);
    }
    if PostAggregationsReadBack(postAggregations) {
      SeqRoundTrip(postAggregations, EncodePostAggregation, DecodePostAggregation);
    }
  }

  /** An optional having spec reads back exactly when it is absent or reads back itself. */
  lemma OptHavingRoundTrip(f: map<string, Json>, having: Option<HavingSpec>)
    requires "having" in f && f["having"] == EncodeOpt(having, EncodeHavingSpec)
    ensures OptField(f, "having", DecodeHavingSpec) == Ok(having)
        <==> (having.Some? ==> HavingReadsBack(having.value))
  {
    if having.Some? {
      HavingSpecRoundTrip(having.value);
    }
  }

  // ---------------------------------------------------------------------------
  // Struct fields, with the data source set aside
  // ---------------------------------------------------------------------------

  lemma TopNFieldsRoundTrip(t: TopN, dataSource: Json)
    ensures DecodeTopNFields(TopNFields(t, dataSource), t.dataSource) == Ok(t) <==> WithoutLookupMap(t.dimension)
  {
    var f := TopNFields(t, dataSource);
    DimensionRoundTrip(t.dimension);
    AggregationsRoundTrip(t.aggregations);
    StringsRoundTrip(t.intervals);
    GranularityRoundTrip(t.granularity);
    StringMapRoundTrip(t.context);
  }

  /** The parts of a `GroupBy` other than its data source that decide whether it reads back. */
  predicate GroupByPartsReadBack(g: GroupBy)
  {
    && DimensionsReadBack(g.dimensions)
    && (g.having.Some? ==> HavingReadsBack(g.having.value))
    && PostAggregationsReadBack(g.postAggregations)
  }

  /** What a written `GroupBy` holds under the keys whose contents may fail to read back, and that it has no `dimension`. */
  lemma GroupByFieldsPartEntries(g: GroupBy, dataSource: Json)
    ensures var f := GroupByFields(g, dataSource);
      && "queryType" in f && f["queryType"] == Str("groupBy")
      && "dataSource" in f && f["dataSource"] == dataSource
      && "dimensions" in f && f["dimensions"] == EncodeSeq(g.dimensions, EncodeDimension)
      && "having" in f && f["having"] == EncodeOpt(g.having, EncodeHavingSpec)
      && "postAggregations" in f && f["postAggregations"] == EncodeSeq(g.postAggregations, EncodePostAggregation)
      && "dimension" !in f
  {
  }

  /** What a written `GroupBy` holds under its other keys. */
  lemma GroupByFieldsPlainEntries(g: GroupBy, dataSource: Json)
    ensures var f := GroupByFields(g, dataSource);
      && "limitSpec" in f && f["limitSpec"] == EncodeOpt(g.limitSpec, EncodeLimitSpec)
      && "granularity" in f && f["granularity"] == EncodeGranularity(g.granularity)
      && "filter" in f && f["filter"] == EncodeOpt(g.filter, EncodeFilter)
      && "aggregations" in f && f["aggregations"] == EncodeSeq(g.aggregations, EncodeAggregation)
      && "intervals" in f && f["intervals"] == EncodeStrings(g.intervals)
      && "subtotalSpec" in f && f["subtotalSpec"] == EncodeStringRows(g.subtotalSpec)
      && "context" in f && f["context"] == EncodeStringMap(g.context)
  {
  }

  /** The fields of a `GroupBy` that may fail to read back, each read from what was written. */
  lemma GroupByPartsRead(g: GroupBy, dataSource: Json)
    ensures var f := GroupByFields(g, dataSource);
      && (Field(f, "dimensions", DecodeDimensions) == Ok(g.dimensions)
          <==> DimensionsReadBack(g.dimensions))
      && (OptField(f, "having", DecodeHavingSpec) == Ok(g.having)
          <==> (g.having.Some? ==> HavingReadsBack(g.having.value)))
      && (Field(f, "postAggregations", DecodePostAggregations) == Ok(g.postAggregations)
          <==> PostAggregationsReadBack(g.postAggregations))
  {
    var f := GroupByFields(g, dataSource);
    GroupByFieldsPartEntries(g, dataSource);
    DimensionsRoundTrip(g.dimensions);
    OptHavingRoundTrip(f, g.having);
    PostAggregationsRoundTrip(g.postAggregations);
  }

  /** The other fields of a `GroupBy`, each of which always reads back. */
  lemma GroupByPlainFieldsRead(g: GroupBy, dataSource: Json)
    ensures var f := GroupByFields(g, dataSource);
      && OptField(f, "limitSpec", DecodeLimitSpec) == Ok(g.limitSpec)
      && Field(f, "granularity", DecodeGranularity) == Ok(g.granularity)
      && OptField(f, "filter", DecodeFilter) == Ok(g.filter)
      && Field(f, "aggregations", DecodeAggregations) == Ok(g.aggregations)
      && Field(f, "intervals", DecodeStrings) == Ok(g.intervals)
      && Field(f, "subtotalSpec", DecodeStringRows) == Ok(g.subtotalSpec)
      && Field(f, "context", DecodeStringMap) == Ok(g.context)
  {
    var f := GroupByFields(g, dataSource);
    GroupByFieldsPlainEntries(g, dataSource);
    if g.limitSpec.Some? {
      LimitSpecRoundTrip(g.limitSpec.value);
    }
    OptFieldRoundTrip(f, "limitSpec", g.limitSpec, EncodeLimitSpec, DecodeLimitSpec);
    if g.filter.Some? {
      FilterRoundTrip(g.filter.value);
    }
    OptFieldRoundTrip(f, "filter", g.filter, EncodeFilter, DecodeFilter);
    GranularityRoundTrip(g.granularity);
    AggregationsRoundTrip(g.aggregations);
    StringsRoundTrip(g.intervals);
    StringRowsRoundTrip(g.subtotalSpec);
    StringMapRoundTrip(g.context);
  }

  /** A `GroupBy` is read from an object exactly when each of its fields is. */
  lemma GroupByFieldsRead(f: map<string, Json>, g: GroupBy)
    ensures DecodeGroupByFields(f, g.dataSource) == Ok(g) <==>
      && Field(f, "dimensions", DecodeDimensions) == Ok(g.dimensions)
      && OptField(f, "limitSpec", DecodeLimitSpec) == Ok(g.limitSpec)
      && OptField(f, "having", DecodeHavingSpec) == Ok(g.having)
      && Field(f, "granularity", DecodeGranularity) == Ok(g.granularity)
      && OptField(f, "filter", DecodeFilter) == Ok(g.filter)
      && Field(f, "aggregations", DecodeAggregations) == Ok(g.aggregations)
      && Field(f, "postAggregations", DecodePostAggregations) == Ok(g.postAggregations)
      && Field(f, "intervals", DecodeStrings) == Ok(g.intervals)
      && Field(f, "subtotalSpec", DecodeStringRows) == Ok(g.subtotalSpec)
      && Field(f, "context", DecodeStringMap) == Ok(g.context)
  {
  }

  lemma GroupByFieldsRoundTrip(g: GroupBy, dataSource: Json)
    ensures DecodeGroupByFields(GroupByFields(g, dataSource), g.dataSource) == Ok(g) <==> GroupByPartsReadBack(g)
  {
    GroupByFieldsRead(GroupByFields(g, dataSource), g);
    GroupByPartsRead(g, dataSource);
    GroupByPlainFieldsRead(g, dataSource);
  }

  lemma ScanFieldsRoundTrip(s: Scan, dataSource: Json)
    ensures DecodeScanFields(ScanFields(s, dataSource), s.dataSource) == Ok(s)
  {
    var f := ScanFields(s, dataSource);
    StringsRoundTrip(s.intervals);
    ResultFormatRoundTrip(s.resultFormat);
    if s.filter.Some? {
      FilterRoundTrip(s.filter.value);
    }
    OptFieldRoundTrip(f, "filter", s.filter, EncodeFilter, DecodeFilter);
    StringsRoundTrip(s.columns);
    OptFieldRoundTrip(f, "limit", s.limit, EncodeUsize, DecodeUsize);
    if s.ordering.Some? {
      OrderingRoundTrip(s.ordering.value);
    }
    OptFieldRoundTrip(f, "ordering", s.ordering, EncodeOrdering, DecodeOrdering);
    StringMapRoundTrip(s.context);
  }

  /** A written `Search` holds none of the keys that only the structs tried before it require. */
  lemma SearchFieldsLackEarlierKeys(s: Search, dataSource: Json)
    ensures var f := SearchFields(s, dataSource);
      "dimension" !in f && "dimensions" !in f && "resultFormat" !in f
  {
  }

  lemma SearchFieldsRoundTrip(s: Search, dataSource: Json)
    ensures DecodeSearchFields(SearchFields(s, dataSource), s.dataSource) == Ok(s)
  {
    var f := SearchFields(s, dataSource);
    GranularityRoundTrip(s.granularity);
    if s.filter.Some? {
      FilterRoundTrip(s.filter.value);
    }
    OptFieldRoundTrip(f, "filter", s.filter, EncodeFilter, DecodeFilter);
    StringsRoundTrip(s.intervals);
    StringsRoundTrip(s.searchDimensions);
    SearchQuerySpecRoundTrip(s.query);
    if s.sort.Some? {
      SortingOrderRoundTrip(s.sort.value);
    }
    OptFieldRoundTrip(f, "sort", s.sort, EncodeSortingOrder, DecodeSortingOrder);
    StringMapRoundTrip(s.context);
  }

  /** Only a `MinMaxTime` bound, which is not written, keeps a time-boundary query from reading back. */
  lemma TimeBoundaryFieldsRoundTrip(t: TimeBoundary, dataSource: Json)
    ensures DecodeTimeBoundaryFields(TimeBoundaryFields(t, dataSource), t.dataSource) == Ok(t) <==> !IsBoth(t.bound)
    ensures IsBoth(t.bound) ==>
      DecodeTimeBoundaryFields(TimeBoundaryFields(t, dataSource), t.dataSource) == Err(MissingField("bound"))
  {
    var f := TimeBoundaryFields(t, dataSource);
    TimeBoundTypeRoundTrip(t.bound);
    if t.filter.Some? {
      FilterRoundTrip(t.filter.value);
    }
    OptFieldRoundTrip(f, "filter", t.filter, EncodeFilter, DecodeFilter);
    StringMapRoundTrip(t.context);
  }

  /** Only an empty list of analysis types, which is not written, keeps a segment-metadata query from reading back. */
  lemma SegmentMetadataFieldsRoundTrip(s: SegmentMetadata, dataSource: Json)
    ensures DecodeSegmentMetadataFields(SegmentMetadataFields(s, dataSource), s.dataSource) == Ok(s)
        <==> |s.analysisTypes| > 0
    ensures |s.analysisTypes| == 0 ==>
      DecodeSegmentMetadataFields(SegmentMetadataFields(s, dataSource), s.dataSource) == Err(MissingField("analysisTypes"))
  {
    StringsRoundTrip(s.intervals);
    ToIncludeRoundTrip(s.toInclude);
    AnalysisTypesRoundTrip(s.analysisTypes);
  }

  // ---------------------------------------------------------------------------
  // The untagged query, with the data source set aside
  // ---------------------------------------------------------------------------

  /** What, besides its data source, decides whether a query reads back. */
  predicate QueryPartsReadBack(q: Query)
  {
    match q
    case TopNQuery(t) => WithoutLookupMap(t.dimension)
    case GroupByQuery(g) => GroupByPartsReadBack(g)
    case ScanQuery(_) => true
    case SearchQuery(_) => true
    case TimeBoundaryQuery(t) => !IsBoth(t.bound)
    case SegmentMetadataQuery(s) => |s.analysisTypes| > 0
  }

  /*
   * Which struct the untagged query picks, over any object: the first
   * struct whose fields read, and only after every struct before it has
   * failed for want of a key it requires.
   */

  /** When every struct before `q`'s fails and `q`'s struct reads as `q`, the untagged decode gives `q`. */
  lemma {:induction false} FirstSuccess(f: map<string, Json>, dataSource: DataSource, k: nat, q: Query)
    requires k <= QueryIndex(q)
    requires forall i :: k <= i < QueryIndex(q) ==> DecodeQueryVariant(f, dataSource, i).Err?
    requires DecodeQueryVariant(f, dataSource, QueryIndex(q)) == Ok(q)
    ensures DecodeQueryFrom(f, dataSource, k) == Ok(q)
    decreases QueryIndex(q) - k
  {
    if k < QueryIndex(q) {
      FirstSuccess(f, dataSource, k + 1, q);
    }
  }

  /** When the untagged decode from the `k`-th struct on gives `q`, every struct from the `k`-th up to `q`'s failed. */
  lemma {:induction false} EarlierFail(f: map<string, Json>, dataSource: DataSource, k: nat, q: Query)
    requires k <= QueryVariants
    requires DecodeQueryFrom(f, dataSource, k) == Ok(q)
    ensures forall i :: k <= i < QueryIndex(q) ==> DecodeQueryVariant(f, dataSource, i).Err?
    decreases QueryVariants - k
  {
    if k < QueryIndex(q) {
      assert DecodeQueryVariant(f, dataSource, k).Err?;
      EarlierFail(f, dataSource, k + 1, q);
    }
  }

  /** The untagged decode gives `q` exactly when `q`'s struct reads as `q` and every struct before it fails. */
  lemma PicksVariant(f: map<string, Json>, dataSource: DataSource, q: Query)
    ensures DecodeQueryFrom(f, dataSource, 0) == Ok(q)
        <==> (DecodeQueryVariant(f, dataSource, QueryIndex(q)) == Ok(q)
              && forall i :: 0 <= i < QueryIndex(q) ==> DecodeQueryVariant(f, dataSource, i).Err?)
  {
    if DecodeQueryVariant(f, dataSource, QueryIndex(q)) == Ok(q)
      && forall i :: 0 <= i < QueryIndex(q) ==> DecodeQueryVariant(f, dataSource, i).Err?
    {
      FirstSuccess(f, dataSource, 0, q);
    }
    if DecodeQueryFrom(f, dataSource, 0) == Ok(q) {
      EarlierFail(f, dataSource, 0, q);
    }
  }

  lemma PicksTopN(f: map<string, Json>, dataSource: DataSource, t: TopN)
    ensures DecodeQueryFrom(f, dataSource, 0) == Ok(TopNQuery(t)) <==> DecodeTopNFields(f, dataSource) == Ok(t)
  {
    PicksVariant(f, dataSource, TopNQuery(t));
  }

  lemma PicksGroupBy(f: map<string, Json>, dataSource: DataSource, g: GroupBy)
    requires "dimension" !in f
    ensures DecodeQueryFrom(f, dataSource, 0) == Ok(GroupByQuery(g)) <==> DecodeGroupByFields(f, dataSource) == Ok(g)
  {
    assert DecodeQueryVariant(f, dataSource, 0).Err?;
    PicksVariant(f, dataSource, GroupByQuery(g));
  }

  lemma PicksScan(f: map<string, Json>, dataSource: DataSource, s: Scan)
    requires "dimension" !in f && "dimensions" !in f
    ensures DecodeQueryFrom(f, dataSource, 0) == Ok(ScanQuery(s)) <==> DecodeScanFields(f, dataSource) == Ok(s)
  {
    assert DecodeQueryVariant(f, dataSource, 0).Err?;
    assert DecodeQueryVariant(f, dataSource, 1).Err?;
    PicksVariant(f, dataSource, ScanQuery(s));
  }

  lemma PicksSearch(f: map<string, Json>, dataSource: DataSource, s: Search)
    requires "dimension" !in f && "dimensions" !in f && "resultFormat" !in f
    ensures DecodeQueryFrom(f, dataSource, 0) == Ok(SearchQuery(s)) <==> DecodeSearchFields(f, dataSource) == Ok(s)
  {
    assert DecodeQueryVariant(f, dataSource, 0).Err?;
    assert DecodeQueryVariant(f, dataSource, 1).Err?;
    assert DecodeQueryVariant(f, dataSource, 2).Err?;
    PicksVariant(f, dataSource, SearchQuery(s));
  }

  lemma PicksTimeBoundary(f: map<string, Json>, dataSource: DataSource, t: TimeBoundary)
    requires "dimension" !in f && "dimensions" !in f && "resultFormat" !in f && "searchDimensions" !in f
    ensures DecodeQueryFrom(f, dataSource, 0) == Ok(TimeBoundaryQuery(t)) <==> DecodeTimeBoundaryFields(f, dataSource) == Ok(t)
  {
    assert DecodeQueryVariant(f, dataSource, 0).Err?;
    assert DecodeQueryVariant(f, dataSource, 1).Err?;
    assert DecodeQueryVariant(f, dataSource, 2).Err?;
    assert DecodeQueryVariant(f, dataSource, 3).Err?;
    PicksVariant(f, dataSource, TimeBoundaryQuery(t));
  }

  lemma PicksSegmentMetadata(f: map<string, Json>, dataSource: DataSource, s: SegmentMetadata)
    requires "dimension" !in f && "dimensions" !in f && "resultFormat" !in f && "searchDimensions" !in f && "bound" !in f
    ensures DecodeQueryFrom(f, dataSource, 0) == Ok(SegmentMetadataQuery(s))
        <==> DecodeSegmentMetadataFields(f, dataSource) == Ok(s)
  {
    assert DecodeQueryVariant(f, dataSource, 0).Err?;
    assert DecodeQueryVariant(f, dataSource, 1).Err?;
    assert DecodeQueryVariant(f, dataSource, 2).Err?;
    assert DecodeQueryVariant(f, dataSource, 3).Err?;
    assert DecodeQueryVariant(f, dataSource, 4).Err?;
    PicksVariant(f, dataSource, SegmentMetadataQuery(s));
  }

  /** An object holding none of the keys that tell the structs apart matches no variant. */
  lemma PicksNothing(f: map<string, Json>, dataSource: DataSource)
    requires "dimension" !in f && "dimensions" !in f && "resultFormat" !in f && "searchDimensions" !in f
    requires "bound" !in f && "analysisTypes" !in f
    ensures DecodeQueryFrom(f, dataSource, 0) == Err(NoVariantMatched)
  {
    assert DecodeQueryVariant(f, dataSource, 0).Err?;
    assert DecodeQueryVariant(f, dataSource, 1).Err?;
    assert DecodeQueryVariant(f, dataSource, 2).Err?;
    assert DecodeQueryVariant(f, dataSource, 3).Err?;
    assert DecodeQueryVariant(f, dataSource, 4).Err?;
    assert DecodeQueryVariant(f, dataSource, 5).Err?;
  }

  lemma TopNQueryFieldsRoundTrip(t: TopN, dataSource: Json)
    ensures DecodeQueryFrom(TopNFields(t, dataSource), t.dataSource, 0) == Ok(TopNQuery(t))
        <==> WithoutLookupMap(t.dimension)
  {
    PicksTopN(TopNFields(t, dataSource), t.dataSource, t);
    TopNFieldsRoundTrip(t, dataSource);
  }

  /** A written `GroupBy` has no `dimension`, so it is never read as a `TopN`. */
  lemma GroupByQueryFieldsRoundTrip(g: GroupBy, dataSource: Json)
    ensures DecodeQueryFrom(GroupByFields(g, dataSource), g.dataSource, 0) == Ok(GroupByQuery(g))
        <==> GroupByPartsReadBack(g)
  {
    GroupByFieldsPartEntries(g, dataSource);
    PicksGroupBy(GroupByFields(g, dataSource), g.dataSource, g);
    GroupByFieldsRoundTrip(g, dataSource);
  }

  /** A written `Scan` has neither `dimension` nor `dimensions`. */
  lemma ScanQueryFieldsRoundTrip(s: Scan, dataSource: Json)
    ensures DecodeQueryFrom(ScanFields(s, dataSource), s.dataSource, 0) == Ok(ScanQuery(s))
  {
    PicksScan(ScanFields(s, dataSource), s.dataSource, s);
    ScanFieldsRoundTrip(s, dataSource);
  }

  /** A written `Search` has no `resultFormat`, so it is never read as a `Scan`. */
  lemma SearchQueryFieldsRoundTrip(s: Search, dataSource: Json)
    ensures DecodeQueryFrom(SearchFields(s, dataSource), s.dataSource, 0) == Ok(SearchQuery(s))
  {
    SearchFieldsLackEarlierKeys(s, dataSource);
    PicksSearch(SearchFields(s, dataSource), s.dataSource, s);
    SearchFieldsRoundTrip(s, dataSource);
  }

  /** A written `TimeBoundary` has no `searchDimensions`, so it is never read as a `Search`. */
  lemma TimeBoundaryQueryFieldsRoundTrip(t: TimeBoundary, dataSource: Json)
    ensures DecodeQueryFrom(TimeBoundaryFields(t, dataSource), t.dataSource, 0) == Ok(TimeBoundaryQuery(t))
        <==> !IsBoth(t.bound)
  {
    PicksTimeBoundary(TimeBoundaryFields(t, dataSource), t.dataSource, t);
    TimeBoundaryFieldsRoundTrip(t, dataSource);
  }

  /** A written `SegmentMetadata` has no `bound`, so it is never read as a `TimeBoundary`. */
  lemma SegmentMetadataQueryFieldsRoundTrip(s: SegmentMetadata, dataSource: Json)
    ensures DecodeQueryFrom(SegmentMetadataFields(s, dataSource), s.dataSource, 0) == Ok(SegmentMetadataQuery(s))
        <==> |s.analysisTypes| > 0
  {
    PicksSegmentMetadata(SegmentMetadataFields(s, dataSource), s.dataSource, s);
    SegmentMetadataFieldsRoundTrip(s, dataSource);
  }

  // ---------------------------------------------------------------------------
  // Queries and data sources
  // ---------------------------------------------------------------------------

  /** Reading an object as a query: its data source, then the rest of the struct that data source belongs to. */
  lemma DecodeQueryBySource(j: Json, q: Query)
    requires j.Obj? && "dataSource" in j.fields
    ensures DecodeQuery(j) == Ok(q) <==>
      (DecodeDataSource(j.fields["dataSource"]) == Ok(QueryDataSource(q))
       && DecodeQueryFrom(j.fields, QueryDataSource(q), 0) == Ok(q))
  {
  }

  lemma TopNQueryRoundTrip(t: TopN)
    ensures DecodeQuery(EncodeQuery(TopNQuery(t))) == Ok(TopNQuery(t))
        <==> DecodeDataSource(EncodeDataSource(t.dataSource)) == Ok(t.dataSource) && WithoutLookupMap(t.dimension)
  {
    DecodeQueryBySource(EncodeQuery(TopNQuery(t)), TopNQuery(t));
    TopNQueryFieldsRoundTrip(t, EncodeDataSource(t.dataSource));
  }

  lemma GroupByQueryRoundTrip(g: GroupBy)
    ensures DecodeQuery(EncodeQuery(GroupByQuery(g))) == Ok(GroupByQuery(g))
        <==> DecodeDataSource(EncodeDataSource(g.dataSource)) == Ok(g.dataSource) && GroupByPartsReadBack(g)
  {
    DecodeQueryBySource(EncodeQuery(GroupByQuery(g)), GroupByQuery(g));
    GroupByQueryFieldsRoundTrip(g, EncodeDataSource(g.dataSource));
  }

  lemma ScanQueryRoundTrip(s: Scan)
    ensures DecodeQuery(EncodeQuery(ScanQuery(s))) == Ok(ScanQuery(s))
        <==> DecodeDataSource(EncodeDataSource(s.dataSource)) == Ok(s.dataSource)
  {
    DecodeQueryBySource(EncodeQuery(ScanQuery(s)), ScanQuery(s));
    ScanQueryFieldsRoundTrip(s, EncodeDataSource(s.dataSource));
  }

  lemma SearchQueryRoundTrip(s: Search)
    ensures DecodeQuery(EncodeQuery(SearchQuery(s))) == Ok(SearchQuery(s))
        <==> DecodeDataSource(EncodeDataSource(s.dataSource)) == Ok(s.dataSource)
  {
    DecodeQueryBySource(EncodeQuery(SearchQuery(s)), SearchQuery(s));
    SearchQueryFieldsRoundTrip(s, EncodeDataSource(s.dataSource));
  }

  lemma TimeBoundaryQueryRoundTrip(t: TimeBoundary)
    ensures DecodeQuery(EncodeQuery(TimeBoundaryQuery(t))) == Ok(TimeBoundaryQuery(t))
        <==> DecodeDataSource(EncodeDataSource(t.dataSource)) == Ok(t.dataSource) && !IsBoth(t.bound)
  {
    DecodeQueryBySource(EncodeQuery(TimeBoundaryQuery(t)), TimeBoundaryQuery(t));
    TimeBoundaryQueryFieldsRoundTrip(t, EncodeDataSource(t.dataSource));
  }

  lemma SegmentMetadataQueryRoundTrip(s: SegmentMetadata)
    ensures DecodeQuery(EncodeQuery(SegmentMetadataQuery(s))) == Ok(SegmentMetadataQuery(s))
        <==> DecodeDataSource(EncodeDataSource(s.dataSource)) == Ok(s.dataSource) && |s.analysisTypes| > 0
  {
    DecodeQueryBySource(EncodeQuery(SegmentMetadataQuery(s)), SegmentMetadataQuery(s));
    SegmentMetadataQueryFieldsRoundTrip(s, EncodeDataSource(s.dataSource));
  }

  lemma TableRoundTrip(name: string)
    ensures DecodeDataSource(EncodeDataSource(Table(name))) == Ok(Table(name))
  {
  }

  lemma LookupSourceRoundTrip(lookup: string)
    ensures DecodeDataSource(EncodeDataSource(DataSource.Lookup(lookup))) == Ok(DataSource.Lookup(lookup))
  {
  }

  lemma UnionRoundTrip(dataSources: seq<string>)
    ensures DecodeDataSource(EncodeDataSource(Union(dataSources))) == Ok(Union(dataSources))
  {
    StringsRoundTrip(dataSources);
  }

  lemma InlineRoundTrip(columnNames: seq<string>, rows: seq<seq<string>>)
    ensures DecodeDataSource(EncodeDataSource(Inline(columnNames, rows))) == Ok(Inline(columnNames, rows))
  {
    StringsRoundTrip(columnNames);
    StringRowsRoundTrip(rows);
  }

  /** An object tagged `"query"` reads as a query data source exactly when its `query` entry reads as a query. */
  lemma SubqueryObject(j: Json, q: Query)
    requires j.Obj? && "type" in j.fields && j.fields["type"] == Str("query") && "query" in j.fields
    ensures DecodeDataSource(j) == Ok(Subquery(q)) <==> DecodeQuery(j.fields["query"]) == Ok(q)
  {
  }

  /** A query data source reads back exactly when its query does. */
  lemma SubqueryRoundTrip(q: Query)
    ensures DecodeDataSource(EncodeDataSource(Subquery(q))) == Ok(Subquery(q))
        <==> DecodeQuery(EncodeQuery(q)) == Ok(q)
  {
    SubqueryObject(EncodeDataSource(Subquery(q)), q);
  }

  /** An object tagged `"join"` whose plain entries read as given reads as a join exactly when both its sides read. */
  lemma JoinObject(j: Json, left: DataSource, right: DataSource, rightPrefix: string, condition: string, joinType: JoinType)
    requires j.Obj? && "type" in j.fields && j.fields["type"] == Str("join") && "left" in j.fields && "right" in j.fields
    requires "rightPrefix" in j.fields && j.fields["rightPrefix"] == Str(rightPrefix)
    requires "condition" in j.fields && j.fields["condition"] == Str(condition)
    requires "joinType" in j.fields && DecodeJoinType(j.fields["joinType"]) == Ok(joinType)
    ensures DecodeDataSource(j) == Ok(Join(left, right, rightPrefix, condition, joinType))
        <==> (DecodeDataSource(j.fields["left"]) == Ok(left) && DecodeDataSource(j.fields["right"]) == Ok(right))
  {
  }

  /** A join reads back exactly when both its sides do. */
  lemma JoinRoundTrip(left: DataSource, right: DataSource, rightPrefix: string, condition: string, joinType: JoinType)
    ensures DecodeDataSource(EncodeDataSource(Join(left, right, rightPrefix, condition, joinType)))
         == Ok(Join(left, right, rightPrefix, condition, joinType))
        <==> (DecodeDataSource(EncodeDataSource(left)) == Ok(left)
              && DecodeDataSource(EncodeDataSource(right)) == Ok(right))
  {
    JoinTypeRoundTrip(joinType);
    JoinObject(EncodeDataSource(Join(left, right, rightPrefix, condition, joinType)), left, right, rightPrefix, condition, joinType);
  }

  /** A data source with nothing inside it that fails to read back. */
  predicate DataSourceReadsBack(ds: DataSource)
    decreases ds
  {
    match ds
    case Subquery(q) => QueryReadsBack(q)
    case Join(left, right, _, _, _) => DataSourceReadsBack(left) && DataSourceReadsBack(right)
    case _ => true
  }

  /** A query whose data source and own parts all read back. */
  predicate QueryReadsBack(q: Query)
    decreases q
  {
    match q
    case TopNQuery(t) => DataSourceReadsBack(t.dataSource) && WithoutLookupMap(t.dimension)
    case GroupByQuery(g) => DataSourceReadsBack(g.dataSource) && GroupByPartsReadBack(g)
    case ScanQuery(s) => DataSourceReadsBack(s.dataSource)
    case SearchQuery(s) => DataSourceReadsBack(s.dataSource)
    case TimeBoundaryQuery(t) => DataSourceReadsBack(t.dataSource) && !IsBoth(t.bound)
    case SegmentMetadataQuery(s) => DataSourceReadsBack(s.dataSource) && |s.analysisTypes| > 0
  }

  /** A data source reads back as itself exactly when nothing inside it fails to. */
  lemma {:induction false} DataSourceRoundTrip(ds: DataSource)
    ensures DecodeDataSource(EncodeDataSource(ds)) == Ok(ds) <==> DataSourceReadsBack(ds)
    decreases ds
  {
    match ds
    case Table(name) => TableRoundTrip(name);
    case Lookup(lookup) => LookupSourceRoundTrip(lookup);
    case Union(dataSources) => UnionRoundTrip(dataSources);
    case Inline(columnNames, rows) => InlineRoundTrip(columnNames, rows);
    case Subquery(q) =>
      QueryRoundTrip(q);
      SubqueryRoundTrip(q);
    case Join(left, right, rightPrefix, condition, joinType) =>
      DataSourceRoundTrip(left);
      DataSourceRoundTrip(right);
      JoinRoundTrip(left, right, rightPrefix, condition, joinType);
  }

  /** A query reads back as the same variant with the same contents exactly when nothing inside it fails to. */
  lemma {:induction false} QueryRoundTrip(q: Query)
    ensures DecodeQuery(EncodeQuery(q)) == Ok(q) <==> QueryReadsBack(q)
    decreases q
  {
    match q
    case TopNQuery(t) =>
      DataSourceRoundTrip(t.dataSource);
      TopNQueryRoundTrip(t);
    case GroupByQuery(g) =>
      DataSourceRoundTrip(g.dataSource);
      GroupByQueryRoundTrip(g);
    case ScanQuery(s) =>
      DataSourceRoundTrip(s.dataSource);
      ScanQueryRoundTrip(s);
    case SearchQuery(s) =>
      DataSourceRoundTrip(s.dataSource);
      SearchQueryRoundTrip(s);
    case TimeBoundaryQuery(t) =>
      DataSourceRoundTrip(t.dataSource);
      TimeBoundaryQueryRoundTrip(t);
    case SegmentMetadataQuery(s) =>
      DataSourceRoundTrip(s.dataSource);
      SegmentMetadataQueryRoundTrip(s);
  }
}
