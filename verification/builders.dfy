/**
 * The two builders of the query model. Each setter takes the builder by
 * value and hands back an updated one, so a builder is modelled as an
 * immutable record and every setter as a function returning the new
 * record. The join builder is partial: it produces a join data source
 * only when all four required parts were given. The group-by builder is
 * total: every field has a default.
 */
module Builders {
  import opened Json
  import opened Definitions
  import opened GroupBySpecs
  import opened QueryParts
  import opened Queries

  // ---------------------------------------------------------------------------
  // JoinBuilder
  // ---------------------------------------------------------------------------

  /** `JoinBuilder`: the four required parts of a join, each set or not yet, and the join type. */
  datatype JoinBuilder = JoinBuilder(
    left: Option<DataSource>,
    right: Option<DataSource>,
    rightPrefix: Option<string>,
    condition: Option<string>,
    joinType: JoinType)

  /** `JoinBuilder::new`, also reached through `DataSource::join`: nothing set yet. */
  function NewJoinBuilder(joinType: JoinType): (b: JoinBuilder)
    ensures b.left.None? && b.right.None? && b.rightPrefix.None? && b.condition.None?
    ensures b.joinType == joinType
  {
    JoinBuilder(None, None, None, None, joinType)
  }

  /** `left`: sets the left side and nothing else. */
  function JoinLeft(b: JoinBuilder, left: DataSource): (r: JoinBuilder)
    ensures r.left == Some(left)
    ensures r.right == b.right && r.rightPrefix == b.rightPrefix && r.condition == b.condition
    ensures r.joinType == b.joinType
  {
    b.(left := Some(left))
  }

  /** `right`: sets the right side and its column prefix together, and nothing else. */
  function JoinRight(b: JoinBuilder, right: DataSource, rightPrefix: string): (r: JoinBuilder)
    ensures r.right == Some(right) && r.rightPrefix == Some(rightPrefix)
    ensures r.left == b.left && r.condition == b.condition
    ensures r.joinType == b.joinType
  {
    b.(right := Some(right), rightPrefix := Some(rightPrefix))
  }

  /** `condition`: sets the join condition and nothing else. */
  function JoinCondition(b: JoinBuilder, condition: string): (r: JoinBuilder)
    ensures r.condition == Some(condition)
    ensures r.left == b.left && r.right == b.right && r.rightPrefix == b.rightPrefix
    ensures r.joinType == b.joinType
  {
    b.(condition := Some(condition))
  }

  /** What `build` returns, and the builder it leaves behind. */
  datatype Built = Built(join: Option<DataSource>, rest: JoinBuilder)

  /** All four required parts are set. */
  predicate JoinComplete(b: JoinBuilder)
  {
    b.left.Some? && b.right.Some? && b.condition.Some? && b.rightPrefix.Some?
  }

  /**
   * `build`: takes all four optional parts out of the builder, whether or
   * not it succeeds, and makes a join of them when none was missing.
   */
  function BuildJoin(b: JoinBuilder): (r: Built)
    ensures r.join.Some? <==> JoinComplete(b)
    ensures r.join.Some? ==>
      r.join.value == Join(b.left.value, b.right.value, b.rightPrefix.value, b.condition.value, b.joinType)
    ensures r.rest.left.None? && r.rest.right.None? && r.rest.rightPrefix.None? && r.rest.condition.None?
    ensures r.rest.joinType == b.joinType
  {
    var rest := b.(left := None, right := None, rightPrefix := None, condition := None);
    match (b.left, b.right, b.condition, b.rightPrefix)
    case (Some(left), Some(right), Some(condition), Some(rightPrefix)) =>
      Built(Some(Join(left, right, rightPrefix, condition, b.joinType)), rest)
    case _ => Built(None, rest)
  }

  /** A second `build` on the same builder finds nothing left and fails. */
  lemma JoinBuildTwiceFails(b: JoinBuilder)
    ensures BuildJoin(BuildJoin(b).rest).join == None
  {
  }

  /** The three setters, called in any of these orders, give the join of exactly what was set. */
  lemma JoinBuilderChain(t: JoinType, left: DataSource, right: DataSource, rightPrefix: string, condition: string)
    ensures BuildJoin(JoinCondition(JoinRight(JoinLeft(NewJoinBuilder(t), left), right, rightPrefix), condition)).join
         == Some(Join(left, right, rightPrefix, condition, t))
    ensures BuildJoin(JoinLeft(JoinCondition(JoinRight(NewJoinBuilder(t), right, rightPrefix), condition), left)).join
         == Some(Join(left, right, rightPrefix, condition, t))
  {
  }

  /** Leaving out any one setter makes `build` fail, whatever the other two were given. */
  lemma JoinBuilderMissingPart(t: JoinType, left: DataSource, right: DataSource, rightPrefix: string, condition: string)
    ensures BuildJoin(JoinCondition(JoinRight(NewJoinBuilder(t), right, rightPrefix), condition)).join == None
    ensures BuildJoin(JoinCondition(JoinLeft(NewJoinBuilder(t), left), condition)).join == None
    ensures BuildJoin(JoinRight(JoinLeft(NewJoinBuilder(t), left), right, rightPrefix)).join == None
  {
  }

  /**
   * Every join data source is what some chain of setters builds, and a
   * built join is exactly such a value: the builder neither adds nor
   * drops anything.
   */
  lemma JoinBuilderReachesEvery(ds: DataSource)
    requires ds.Join?
    ensures BuildJoin(JoinCondition(JoinRight(JoinLeft(NewJoinBuilder(ds.joinType), ds.left), ds.right, ds.rightPrefix), ds.condition)).join
         == Some(ds)
  {
  }

  // ---------------------------------------------------------------------------
  // GroupByBuilder
  // ---------------------------------------------------------------------------

  /** `GroupByBuilder`: one field for each field of `GroupBy`. */
  datatype GroupByBuilder = GroupByBuilder(
    dataSource: DataSource,
    dimensions: seq<Dimension>,
    limitSpec: Option<LimitSpec>,
    having: Option<HavingSpec>,
    granularity: Granularity,
    filter: Option<Filter>,
    aggregations: seq<Aggregation>,
    postAggregations: seq<PostAggregation>,
    intervals: seq<string>,
    subtotalSpec: seq<seq<string>>,
    context: map<string, string>)

  /** The fields of the group-by builder, to say which one a setter changes. */
  datatype BuilderField =
    | DataSourceField | DimensionsField | LimitSpecField | HavingField | GranularityField | FilterField
    | AggregationsField | PostAggregationsField | IntervalsField | SubtotalSpecField | ContextField

  /** The two builders hold the same value in every field but `except`. */
  predicate AgreeExcept(a: GroupByBuilder, b: GroupByBuilder, except: BuilderField)
  {
    && (except != DataSourceField ==> a.dataSource == b.dataSource)
    && (except != DimensionsField ==> a.dimensions == b.dimensions)
    && (except != LimitSpecField ==> a.limitSpec == b.limitSpec)
    && (except != HavingField ==> a.having == b.having)
    && (except != GranularityField ==> a.granularity == b.granularity)
    && (except != FilterField ==> a.filter == b.filter)
    && (except != AggregationsField ==> a.aggregations == b.aggregations)
    && (except != PostAggregationsField ==> a.postAggregations == b.postAggregations)
    && (except != IntervalsField ==> a.intervals == b.intervals)
    && (except != SubtotalSpecField ==> a.subtotalSpec == b.subtotalSpec)
    && (except != ContextField ==> a.context == b.context)
  }

  /**
   * `GroupByBuilder::new`: the data source as given, every list and the
   * context empty, no limit spec, having spec or filter, and granularity
   * `All`.
   */
  function NewGroupByBuilder(dataSource: DataSource): (b: GroupByBuilder)
    ensures b.dataSource == dataSource
    ensures b.dimensions == [] && b.aggregations == [] && b.postAggregations == []
    ensures b.intervals == [] && b.subtotalSpec == [] && b.context == map[]
    ensures b.limitSpec.None? && b.having.None? && b.filter.None?
    ensures b.granularity == All
  {
    GroupByBuilder(dataSource, [], None, None, All, None, [], [], [], [], map[])
  }

  function WithDimensions(b: GroupByBuilder, dimensions: seq<Dimension>): (r: GroupByBuilder)
    ensures r.dimensions == dimensions && AgreeExcept(r, b, DimensionsField)
  {
    b.(dimensions := dimensions)
  }

  /** `limit`: the limit spec, wrapped in `Some`. */
  function WithLimit(b: GroupByBuilder, limit: LimitSpec): (r: GroupByBuilder)
    ensures r.limitSpec == Some(limit) && AgreeExcept(r, b, LimitSpecField)
  {
    b.(limitSpec := Some(limit))
  }

  /** `having`: the having spec, wrapped in `Some`. */
  function WithHaving(b: GroupByBuilder, having: HavingSpec): (r: GroupByBuilder)
    ensures r.having == Some(having) && AgreeExcept(r, b, HavingField)
  {
    b.(having := Some(having))
  }

  function WithGranularity(b: GroupByBuilder, granularity: Granularity): (r: GroupByBuilder)
    ensures r.granularity == granularity && AgreeExcept(r, b, GranularityField)
  {
    b.(granularity := granularity)
  }

  /** `filter`: the filter, wrapped in `Some`. */
  function WithFilter(b: GroupByBuilder, filter: Filter): (r: GroupByBuilder)
    ensures r.filter == Some(filter) && AgreeExcept(r, b, FilterField)
  {
    b.(filter := Some(filter))
  }

  function WithAggregations(b: GroupByBuilder, aggregations: seq<Aggregation>): (r: GroupByBuilder)
    ensures r.aggregations == aggregations && AgreeExcept(r, b, AggregationsField)
  {
    b.(aggregations := aggregations)
  }

  function WithPostAggregations(b: GroupByBuilder, postAggregations: seq<PostAggregation>): (r: GroupByBuilder)
    ensures r.postAggregations == postAggregations && AgreeExcept(r, b, PostAggregationsField)
  {
    b.(postAggregations := postAggregations)
  }

  /** `intervals`: each borrowed string is copied, in order. */
  function WithIntervals(b: GroupByBuilder, intervals: seq<string>): (r: GroupByBuilder)
    ensures |r.intervals| == |intervals|
    ensures forall i :: 0 <= i < |intervals| ==> r.intervals[i] == intervals[i]
    ensures AgreeExcept(r, b, IntervalsField)
  {
    b.(intervals := seq(|intervals|, i requires 0 <= i < |intervals| => intervals[i]))
  }

  function WithSubtotalSpec(b: GroupByBuilder, subtotals: seq<seq<string>>): (r: GroupByBuilder)
    ensures r.subtotalSpec == subtotals && AgreeExcept(r, b, SubtotalSpecField)
  {
    b.(subtotalSpec := subtotals)
  }

  /** `context`: replaces the whole context. */
  function WithContext(b: GroupByBuilder, context: map<string, string>): (r: GroupByBuilder)
    ensures r.context == context && AgreeExcept(r, b, ContextField)
  {
    b.(context := context)
  }

  /**
   * `add_context`: inserts one entry, overwriting an earlier value for the
   * same key; every other key keeps its value.
   */
  function AddContext(b: GroupByBuilder, key: string, value: string): (r: GroupByBuilder)
    ensures r.context.Keys == b.context.Keys + {key}
    ensures r.context[key] == value
    ensures forall k :: k in b.context && k != key ==> r.context[k] == b.context[k]
    ensures AgreeExcept(r, b, ContextField)
  {
    b.(context := b.context[key := value])
  }

  /** `build`: total, every builder field copied into the query as it is. */
  function BuildGroupBy(b: GroupByBuilder): (g: GroupBy)
    ensures g.dataSource == b.dataSource && g.dimensions == b.dimensions
    ensures g.limitSpec == b.limitSpec && g.having == b.having && g.granularity == b.granularity
    ensures g.filter == b.filter && g.aggregations == b.aggregations
    ensures g.postAggregations == b.postAggregations && g.intervals == b.intervals
    ensures g.subtotalSpec == b.subtotalSpec && g.context == b.context
  {
    GroupBy(b.dataSource, b.dimensions, b.limitSpec, b.having, b.granularity, b.filter,
            b.aggregations, b.postAggregations, b.intervals, b.subtotalSpec, b.context)
  }

  /** The builder after every setter has been given the value `g` holds; the optional parts are set only when present. */
  function SetAll(g: GroupBy): GroupByBuilder
  {
    var b := NewGroupByBuilder(g.dataSource);
    var b := WithDimensions(b, g.dimensions);
    var b := if g.limitSpec.Some? then WithLimit(b, g.limitSpec.value) else b;
    var b := if g.having.Some? then WithHaving(b, g.having.value) else b;
    var b := WithGranularity(b, g.granularity);
    var b := if g.filter.Some? then WithFilter(b, g.filter.value) else b;
    var b := WithAggregations(b, g.aggregations);
    var b := WithPostAggregations(b, g.postAggregations);
    var b := WithIntervals(b, g.intervals);
    var b := WithSubtotalSpec(b, g.subtotalSpec);
    WithContext(b, g.context)
  }

  /** Every group-by query is what the builder makes when each setter is called once with its part. */
  lemma GroupByBuilderReachesEvery(g: GroupBy)
    ensures BuildGroupBy(SetAll(g)) == g
  {
    var b := SetAll(g);
    assert b.intervals == g.intervals;
  }

  /** Setters of different fields commute: the order of the calls does not matter to the query built. */
  lemma GroupBySettersCommute(b: GroupByBuilder, limit: LimitSpec, filter: Filter, key: string, value: string)
    ensures BuildGroupBy(WithFilter(WithLimit(b, limit), filter)) == BuildGroupBy(WithLimit(WithFilter(b, filter), limit))
    ensures BuildGroupBy(AddContext(WithFilter(b, filter), key, value)) == BuildGroupBy(WithFilter(AddContext(b, key, value), filter))
  {
  }

  /** A later `add_context` for the same key overwrites the earlier one. */
  lemma AddContextOverwrites(b: GroupByBuilder, key: string, first: string, second: string)
    ensures AddContext(AddContext(b, key, first), key, second) == AddContext(b, key, second)
  {
  }

  /**
   * The source's own builder example: a fresh builder for the `wikipedia`
   * table with one context entry builds a query that is written with
   * `"queryType": "groupBy"`, granularity `"all"` and the entry in its
   * context.
   */
  lemma GroupByBuilderExample()
    ensures var g := BuildGroupBy(AddContext(NewGroupByBuilder(Table("wikipedia")), "groupByStrategy", "v2"));
      && g.granularity == All && g.context == map["groupByStrategy" := "v2"]
      && EncodeGroupBy(g).fields["queryType"] == Str("groupBy")
      && EncodeGroupBy(g).fields["granularity"] == Str("all")
      && EncodeGroupBy(g).fields["dataSource"] == Obj(map["type" := Str("table"), "name" := Str("wikipedia")])
  {
  }
}
