/**
 * The specs a group-by query carries besides the shared definitions: the
 * limit spec and its column orderings, having specs, post-aggregations and
 * the post-aggregators they combine, with their constructor helpers.
 */
module GroupBySpecs {
  import opened Json
  import opened Definitions
  import opened Scalars

  // ---------------------------------------------------------------------------
  // Limit specs
  // ---------------------------------------------------------------------------

  /** `OrderByColumnSpec`: camelCase fields. */
  datatype OrderByColumnSpec = OrderByColumnSpec(dimension: string, direction: Ordering, dimensionOrder: SortingOrder)

  /** `OrderByColumnSpec::new`. */
  function NewOrderByColumnSpec(dimension: string, direction: Ordering, dimensionOrder: SortingOrder): (c: OrderByColumnSpec)
    ensures c.dimension == dimension && c.direction == direction && c.dimensionOrder == dimensionOrder
  {
    OrderByColumnSpec(dimension, direction, dimensionOrder)
  }

  function EncodeOrderByColumnSpec(c: OrderByColumnSpec): Json
  {
    Obj(map[
      "dimension" := Str(c.dimension),
      "direction" := EncodeOrdering(c.direction),
      "dimensionOrder" := EncodeSortingOrder(c.dimensionOrder)])
  }

  function DecodeOrderByColumnSpec(j: Json): Result<OrderByColumnSpec>
  {
    if j.Obj? then
      var dimension :- Field(j.fields, "dimension", DecodeString);
      var direction :- Field(j.fields, "direction", DecodeOrdering);
      var dimensionOrder :- Field(j.fields, "dimensionOrder", DecodeSortingOrder);
      Ok(OrderByColumnSpec(dimension, direction, dimensionOrder))
    else Err(InvalidType("struct OrderByColumnSpec"))
  }

  /**
   * `LimitSpec`: written with `"type": "default"`. As for every struct,
   * the tag is only written; reading ignores it.
   */
  datatype LimitSpec = LimitSpec(limit: Usize, columns: seq<OrderByColumnSpec>)

  function EncodeLimitSpec(l: LimitSpec): (j: Json)
    ensures j.Obj? && "type" in j.fields && j.fields["type"] == Str("default")
  {
    Obj(map[
      "type" := Str("default"),
      "limit" := EncodeUsize(l.limit),
      "columns" := Arr(seq(|l.columns|, i requires 0 <= i < |l.columns| => EncodeOrderByColumnSpec(l.columns[i])))])
  }

  function DecodeLimitSpec(j: Json): Result<LimitSpec>
  {
    if j.Obj? then
      var limit :- Field(j.fields, "limit", DecodeUsize);
      if "columns" !in j.fields then Err(MissingField("columns"))
      else
      var v := j.fields["columns"];
      if v.Arr? then
        var columns :- Collect(seq(|v.items|, i requires 0 <= i < |v.items| => DecodeOrderByColumnSpec(v.items[i])));
        Ok(LimitSpec(limit, columns))
      else Err(InvalidType("sequence"))
    else Err(InvalidType("struct LimitSpec"))
  }

  // ---------------------------------------------------------------------------
  // Having specs
  // ---------------------------------------------------------------------------

  /**
   * `HavingSpec`, internally tagged by `"type"` with camelCase names. The
   * source's `Filter` variant is `ByFilter` here; `Not` holds one spec
   * under the key `havingSpecs`.
   */
  datatype HavingSpec =
    | ByFilter(filter: Filter)
    | GreaterThan(aggregation: string, value: JsonNumber)
    | EqualTo(aggregation: string, value: JsonNumber)
    | LessThan(aggregation: string, value: JsonNumber)
    | DimSelector(dimension: Dimension, selected: JsonAny)
    | And(havingSpecs: seq<HavingSpec>)
    | Or(havingSpecs: seq<HavingSpec>)
    | Not(havingSpec: HavingSpec)

  function HavingSpecTag(h: HavingSpec): string
  {
    match h
    case ByFilter(_) => "filter"
    case GreaterThan(_, _) => "greaterThan"
    case EqualTo(_, _) => "equalTo"
    case LessThan(_, _) => "lessThan"
    case DimSelector(_, _) => "dimSelector"
    case And(_) => "and"
    case Or(_) => "or"
    case Not(_) => "not"
  }

  function EncodeHavingSpec(h: HavingSpec): Json
  {
    var tag := Str(HavingSpecTag(h));
    match h
    case ByFilter(filter) => Obj(map["type" := tag, "filter" := EncodeFilter(filter)])
    case GreaterThan(aggregation, value) =>
      Obj(map["type" := tag, "aggregation" := Str(aggregation), "value" := EncodeJsonNumber(value)])
    case EqualTo(aggregation, value) =>
      Obj(map["type" := tag, "aggregation" := Str(aggregation), "value" := EncodeJsonNumber(value)])
    case LessThan(aggregation, value) =>
      Obj(map["type" := tag, "aggregation" := Str(aggregation), "value" := EncodeJsonNumber(value)])
    case DimSelector(dimension, selected) =>
      Obj(map["type" := tag, "dimension" := EncodeDimension(dimension), "value" := EncodeJsonAny(selected)])
    case And(hs) =>
      Obj(map["type" := tag, "havingSpecs" := Arr(seq(|hs|, i requires 0 <= i < |hs| => EncodeHavingSpec(hs[i])))])
    case Or(hs) =>
      Obj(map["type" := tag, "havingSpecs" := Arr(seq(|hs|, i requires 0 <= i < |hs| => EncodeHavingSpec(hs[i])))])
    case Not(h') => Obj(map["type" := tag, "havingSpecs" := EncodeHavingSpec(h')])
  }

  function DecodeHavingSpec(j: Json): Result<HavingSpec>
    decreases j, 1
  {
    if j.Obj? then
      var tag :- TagOf(j.fields);
      DecodeHavingSpecAs(tag, j)
    else Err(InvalidType("internally tagged enum"))
  }

  function DecodeHavingSpecAs(tag: string, j: Json): Result<HavingSpec>
    requires j.Obj?
    decreases j, 0
  {
    var f := j.fields;
    if tag == "filter" then
      var filter :- Field(f, "filter", DecodeFilter);
      Ok(ByFilter(filter))
    else if tag == "greaterThan" || tag == "equalTo" || tag == "lessThan" then
      var aggregation :- Field(f, "aggregation", DecodeString);
      var value :- Field(f, "value", DecodeJsonNumber);
      Ok(if tag == "greaterThan" then GreaterThan(aggregation, value)
         else if tag == "equalTo" then EqualTo(aggregation, value)
         else LessThan(aggregation, value))
    else if tag == "dimSelector" then
      var dimension :- Field(f, "dimension", DecodeDimension);
      var selected :- Field(f, "value", DecodeJsonAny);
      Ok(DimSelector(dimension, selected))
    else if tag == "and" || tag == "or" then
      if "havingSpecs" !in f then Err(MissingField("havingSpecs"))
      else
      var v := f["havingSpecs"];
      if v.Arr? then
        var hs :- Collect(seq(|v.items|, i requires 0 <= i < |v.items| => DecodeHavingSpec(v.items[i])));
        Ok(if tag == "and" then HavingSpec.And(hs) else HavingSpec.Or(hs))
      else Err(InvalidType("sequence"))
    else if tag == "not" then
      if "havingSpecs" !in f then Err(MissingField("havingSpecs"))
      else
      var h :- DecodeHavingSpec(f["havingSpecs"]);
      Ok(HavingSpec.Not(h))
    else Err(UnknownVariant(tag))
  }

  /** `HavingSpec::filter`. */
  function FilterHaving(filter: Filter): (h: HavingSpec)
    ensures h.ByFilter? && h.filter == filter
  {
    ByFilter(filter)
  }

  /** `HavingSpec::greater_than`. */
  function GreaterThanHaving(aggregation: string, value: JsonNumber): (h: HavingSpec)
    ensures h.GreaterThan? && h.aggregation == aggregation && h.value == value
  {
    GreaterThan(aggregation, value)
  }

  /** `HavingSpec::equal_to`. */
  function EqualToHaving(aggregation: string, value: JsonNumber): (h: HavingSpec)
    ensures h.EqualTo? && h.aggregation == aggregation && h.value == value
  {
    EqualTo(aggregation, value)
  }

  /** `HavingSpec::less_than`. */
  function LessThanHaving(aggregation: string, value: JsonNumber): (h: HavingSpec)
    ensures h.LessThan? && h.aggregation == aggregation && h.value == value
  {
    LessThan(aggregation, value)
  }

  // ---------------------------------------------------------------------------
  // Post-aggregators
  // ---------------------------------------------------------------------------

  /** `PostAggregator`, internally tagged by `"type"` with camelCase names and fields. */
  datatype PostAggregator =
    | FieldAccess(name: string, fieldName: string)
    | FinalizingFieldAccess(name: string, fieldName: string)
    | Constant(name: string, value: JsonAny)
    | HyperUniqueCardinality(fieldName: string)

  function EncodePostAggregator(p: PostAggregator): Json
  {
    match p
    case FieldAccess(name, fieldName) =>
      Obj(map["type" := Str("fieldAccess"), "name" := Str(name), "fieldName" := Str(fieldName)])
    case FinalizingFieldAccess(name, fieldName) =>
      Obj(map["type" := Str("finalizingFieldAccess"), "name" := Str(name), "fieldName" := Str(fieldName)])
    case Constant(name, value) =>
      Obj(map["type" := Str("constant"), "name" := Str(name), "value" := EncodeJsonAny(value)])
    case HyperUniqueCardinality(fieldName) =>
      Obj(map["type" := Str("hyperUniqueCardinality"), "fieldName" := Str(fieldName)])
  }

  function DecodePostAggregator(j: Json): Result<PostAggregator>
  {
    if j.Obj? then
      var f := j.fields;
      var tag :- TagOf(f);
      if tag == "fieldAccess" || tag == "finalizingFieldAccess" then
        var name :- Field(f, "name", DecodeString);
        var fieldName :- Field(f, "fieldName", DecodeString);
        Ok(if tag == "fieldAccess" then FieldAccess(name, fieldName) else FinalizingFieldAccess(name, fieldName))
      else if tag == "constant" then
        var name :- Field(f, "name", DecodeString);
        var value :- Field(f, "value", DecodeJsonAny);
        Ok(Constant(name, value))
      else if tag == "hyperUniqueCardinality" then
        var fieldName :- Field(f, "fieldName", DecodeString);
        Ok(HyperUniqueCardinality(fieldName))
      else Err(UnknownVariant(tag))
    else Err(InvalidType("internally tagged enum"))
  }

  /** `PostAggregator::field_access`. */
  function FieldAccessPostAggregator(name: string, fieldName: string): (p: PostAggregator)
    ensures p.FieldAccess? && p.name == name && p.fieldName == fieldName
  {
    FieldAccess(name, fieldName)
  }

  /** `PostAggregator::finalized_field_access`. */
  function FinalizedFieldAccessPostAggregator(name: string, fieldName: string): (p: PostAggregator)
    ensures p.FinalizingFieldAccess? && p.name == name && p.fieldName == fieldName
  {
    FinalizingFieldAccess(name, fieldName)
  }

  /** `PostAggregator::constant`. */
  function ConstantPostAggregator(name: string, value: JsonAny): (p: PostAggregator)
    ensures p.Constant? && p.name == name && p.value == value
  {
    Constant(name, value)
  }

  /** `PostAggregator::hyper_unique_cardinality`. */
  function HyperUniqueCardinalityPostAggregator(fieldName: string): (p: PostAggregator)
    ensures p.HyperUniqueCardinality? && p.fieldName == fieldName
  {
    HyperUniqueCardinality(fieldName)
  }

  // ---------------------------------------------------------------------------
  // Post-aggregations
  // ---------------------------------------------------------------------------

  /** The four variants that take the greatest or least of other post-aggregations. */
  datatype Extremum = DoubleGreatest | LongGreatest | LongLeast | DoubleLeast

  function ExtremumName(e: Extremum): string
  {
    match e
    case DoubleGreatest => "doubleGreatest"
    case LongGreatest => "longGreatest"
    case LongLeast => "longLeast"
    case DoubleLeast => "doubleLeast"
  }

  function ExtremumFromName(s: string): (r: Option<Extremum>)
    ensures r.Some? ==> ExtremumName(r.value) == s
  {
    if s == "doubleGreatest" then Some(DoubleGreatest)
    else if s == "longGreatest" then Some(LongGreatest)
    else if s == "longLeast" then Some(LongLeast)
    else if s == "doubleLeast" then Some(DoubleLeast)
    else None
  }

  /**
   * `PostAggregation`, internally tagged by `"type"` with camelCase names.
   * `Arithmetic` writes its `fn` (the source's `function`) under `"fn"` but
   * reads it from `"function"`; `script` is the wire key `function` of
   * `Javascript`. The four greatest/least variants share `Extreme`.
   */
  datatype PostAggregation =
    | Arithmetic(name: string, fn: string, fields: seq<PostAggregator>, ordering: Option<string>)
    | Extreme(kind: Extremum, name: string, operands: seq<PostAggregation>)
    | Javascript(name: string, fieldNames: seq<string>, script: string)

  function EncodePostAggregation(p: PostAggregation): Json
  {
    match p
    case Arithmetic(name, fn, fields, ordering) =>
      Obj(map[
        "type" := Str("arithmetic"),
        "name" := Str(name),
        "fn" := Str(fn),
        "fields" := Arr(seq(|fields|, i requires 0 <= i < |fields| => EncodePostAggregator(fields[i]))),
        "ordering" := EncodeOpt(ordering, EncodeString)])
    case Extreme(kind, name, operands) =>
      Obj(map[
        "type" := Str(ExtremumName(kind)),
        "name" := Str(name),
        "fields" := Arr(seq(|operands|, i requires 0 <= i < |operands| => EncodePostAggregation(operands[i])))])
    case Javascript(name, fieldNames, script) =>
      Obj(map[
        "type" := Str("javascript"),
        "name" := Str(name),
        "fieldNames" := EncodeStrings(fieldNames),
        "function" := Str(script)])
  }

  function DecodePostAggregation(j: Json): Result<PostAggregation>
    decreases j, 1
  {
    if j.Obj? then
      var tag :- TagOf(j.fields);
      DecodePostAggregationAs(tag, j)
    else Err(InvalidType("internally tagged enum"))
  }

  function DecodePostAggregationAs(tag: string, j: Json): Result<PostAggregation>
    requires j.Obj?
    decreases j, 0
  {
    var f := j.fields;
    if tag == "arithmetic" then
      var name :- Field(f, "name", DecodeString);
      var fn :- Field(f, "function", DecodeString);
      if "fields" !in f then Err(MissingField("fields"))
      else
      var v := f["fields"];
      if v.Arr? then
        var fields :- Collect(seq(|v.items|, i requires 0 <= i < |v.items| => DecodePostAggregator(v.items[i])));
        var ordering :- OptField(f, "ordering", DecodeString);
        Ok(Arithmetic(name, fn, fields, ordering))
      else Err(InvalidType("sequence"))
    else if ExtremumFromName(tag).Some? then
      var name :- Field(f, "name", DecodeString);
      if "fields" !in f then Err(MissingField("fields"))
      else
      var v := f["fields"];
      if v.Arr? then
        var operands :- Collect(seq(|v.items|, i requires 0 <= i < |v.items| => DecodePostAggregation(v.items[i])));
        Ok(Extreme(ExtremumFromName(tag).value, name, operands))
      else Err(InvalidType("sequence"))
    else if tag == "javascript" then
      var name :- Field(f, "name", DecodeString);
      var fieldNames :- Field(f, "fieldNames", DecodeStrings);
      var script :- Field(f, "function", DecodeString);
      Ok(PostAggregation.Javascript(name, fieldNames, script))
    else Err(UnknownVariant(tag))
  }
}
