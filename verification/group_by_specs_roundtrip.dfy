/**
 * Which group-by specs read back as themselves. Limit specs always do.
 * A having spec does unless it holds an integer threshold or selector
 * value (read back as a float) or a lookup-map dimension. A
 * post-aggregation does exactly when it holds no arithmetic
 * post-aggregation, whose function is written under a key it is not read
 * from.
 */
module GroupBySpecsRoundTrip {
  import opened Json
  import opened Definitions
  import opened DefinitionsRoundTrip
  import opened Scalars
  import opened GroupBySpecs

  // ---------------------------------------------------------------------------
  // Limit specs
  // ---------------------------------------------------------------------------

  lemma OrderByColumnSpecRoundTrip(c: OrderByColumnSpec)
    ensures DecodeOrderByColumnSpec(EncodeOrderByColumnSpec(c)) == Ok(c)
  {
    OrderingRoundTrip(c.direction);
    SortingOrderRoundTrip(c.dimensionOrder);
  }

  /** A limit spec is written with `"type": "default"` and reads back as itself. */
  lemma LimitSpecRoundTrip(l: LimitSpec)
    ensures DecodeLimitSpec(EncodeLimitSpec(l)) == Ok(l)
  {
    var v := EncodeLimitSpec(l).fields["columns"];
    var rs := seq(|v.items|, i requires 0 <= i < |v.items| => DecodeOrderByColumnSpec(v.items[i]));
    forall i | 0 <= i < |l.columns| ensures rs[i] == Ok(l.columns[i]) {
      OrderByColumnSpecRoundTrip(l.columns[i]);
    }
    CollectAllOk(rs, l.columns);
  }

  // ---------------------------------------------------------------------------
  // Having specs
  // ---------------------------------------------------------------------------

  /** A having spec with only float thresholds, no integer selector value and no lookup-map dimension. */
  predicate HavingReadsBack(h: HavingSpec)
  {
    match h
    case ByFilter(_) => true
    case GreaterThan(_, value) => value.Float?
    case EqualTo(_, value) => value.Float?
    case LessThan(_, value) => value.Float?
    case DimSelector(dimension, selected) => WithoutLookupMap(dimension) && !selected.Integer?
    case And(hs) => forall i :: 0 <= i < |hs| ==> HavingReadsBack(hs[i])
    case Or(hs) => forall i :: 0 <= i < |hs| ==> HavingReadsBack(hs[i])
    case Not(h') => HavingReadsBack(h')
  }

  lemma ByFilterHavingRoundTrip(filter: Filter)
    ensures DecodeHavingSpec(EncodeHavingSpec(ByFilter(filter))) == Ok(ByFilter(filter))
  {
    FilterRoundTrip(filter);
  }

  /** A comparison reads back with its threshold read back as a bare number is. */
  lemma ComparisonHavingRoundTrip(h: HavingSpec)
    requires h.GreaterThan? || h.EqualTo? || h.LessThan?
    ensures var n := JsonNumber.Float(NumberValue(EncodeJsonNumber(h.value).n));
      DecodeHavingSpec(EncodeHavingSpec(h)) == Ok(h.(value := n))
  {
  }

  /** An integer threshold comes back as the float of the same value. */
  lemma IntegerThresholdReadsAsFloat(aggregation: string, i: Isize)
    ensures DecodeHavingSpec(EncodeHavingSpec(GreaterThan(aggregation, JsonNumber.Integer(i))))
         == Ok(GreaterThan(aggregation, JsonNumber.Float(i as real)))
  {
    ComparisonHavingRoundTrip(GreaterThan(aggregation, JsonNumber.Integer(i)));
  }

  /** A dimension selector reads back exactly when its dimension does and its value is not an integer. */
  lemma DimSelectorHavingRoundTrip(dimension: Dimension, selected: JsonAny)
    ensures DecodeHavingSpec(EncodeHavingSpec(DimSelector(dimension, selected))) == Ok(DimSelector(dimension, selected))
        <==> WithoutLookupMap(dimension) && !selected.Integer?
  {
    DimensionRoundTrip(dimension);
    JsonAnyRoundTrip(selected);
  }

  /** A conjunction or disjunction reads back exactly when each of its specs does. */
  lemma JunctionHavingRoundTrip(h: HavingSpec)
    requires h.And? || h.Or?
    ensures DecodeHavingSpec(EncodeHavingSpec(h)) == Ok(h) <==>
      forall i :: 0 <= i < |h.havingSpecs| ==>
        DecodeHavingSpec(EncodeHavingSpec(h.havingSpecs[i])) == Ok(h.havingSpecs[i])
  {
    var v := EncodeHavingSpec(h).fields["havingSpecs"];
    var rs := seq(|v.items|, i requires 0 <= i < |v.items| => DecodeHavingSpec(v.items[i]));
    if forall i :: 0 <= i < |h.havingSpecs| ==>
        DecodeHavingSpec(EncodeHavingSpec(h.havingSpecs[i])) == Ok(h.havingSpecs[i]) {
      CollectAllOk(rs, h.havingSpecs);
    }
  }

  /** A negation reads back exactly when the spec it negates does. */
  lemma NotHavingRoundTrip(h: HavingSpec)
    ensures DecodeHavingSpec(EncodeHavingSpec(HavingSpec.Not(h))) == Ok(HavingSpec.Not(h))
        <==> DecodeHavingSpec(EncodeHavingSpec(h)) == Ok(h)
  {
  }

  /**
   * A having spec reads back as itself exactly when it holds no integer
   * threshold or selector value and no lookup-map dimension.
   */
  lemma {:induction false} HavingSpecRoundTrip(h: HavingSpec)
    ensures DecodeHavingSpec(EncodeHavingSpec(h)) == Ok(h) <==> HavingReadsBack(h)
    decreases h
  {
    match h
    case ByFilter(filter) => ByFilterHavingRoundTrip(filter);
    case GreaterThan(_, _) => ComparisonHavingRoundTrip(h);
    case EqualTo(_, _) => ComparisonHavingRoundTrip(h);
    case LessThan(_, _) => ComparisonHavingRoundTrip(h);
    case DimSelector(dimension, selected) => DimSelectorHavingRoundTrip(dimension, selected);
    case And(hs) =>
      forall i | 0 <= i < |hs|
        ensures DecodeHavingSpec(EncodeHavingSpec(hs[i])) == Ok(hs[i]) <==> HavingReadsBack(hs[i])
      {
        HavingSpecRoundTrip(hs[i]);
      }
      JunctionHavingRoundTrip(h);
    case Or(hs) =>
      forall i | 0 <= i < |hs|
        ensures DecodeHavingSpec(EncodeHavingSpec(hs[i])) == Ok(hs[i]) <==> HavingReadsBack(hs[i])
      {
        HavingSpecRoundTrip(hs[i]);
      }
      JunctionHavingRoundTrip(h);
    case Not(h') =>
      HavingSpecRoundTrip(h');
      NotHavingRoundTrip(h');
  }

  // ---------------------------------------------------------------------------
  // Post-aggregators
  // ---------------------------------------------------------------------------

  /** A post-aggregator reads back as itself exactly when it is not an integer constant. */
  lemma PostAggregatorRoundTrip(p: PostAggregator)
    ensures DecodePostAggregator(EncodePostAggregator(p)) == Ok(p) <==> !(p.Constant? && p.value.Integer?)
    ensures p.Constant? && p.value.Integer? ==>
      DecodePostAggregator(EncodePostAggregator(p)) == Ok(p.(value := JsonAny.Float(p.value.i as real)))
  {
    if p.Constant? {
      JsonAnyRoundTrip(p.value);
    }
  }

  // ---------------------------------------------------------------------------
  // Post-aggregations
  // ---------------------------------------------------------------------------

  /** A post-aggregation with no arithmetic post-aggregation anywhere inside it. */
  predicate WithoutArithmetic(p: PostAggregation)
  {
    match p
    case Arithmetic(_, _, _, _) => false
    case Extreme(_, _, operands) => forall i :: 0 <= i < |operands| ==> WithoutArithmetic(operands[i])
    case Javascript(_, _, _) => true
  }

  /** An arithmetic post-aggregation is written with `"fn"` and fails to read for want of `"function"`. */
  lemma ArithmeticUnreadable(name: string, fn: string, fields: seq<PostAggregator>, ordering: Option<string>)
    ensures var j := EncodePostAggregation(Arithmetic(name, fn, fields, ordering));
      && "fn" in j.fields && j.fields["fn"] == Str(fn) && "function" !in j.fields
      && DecodePostAggregation(j) == Err(MissingField("function"))
  {
  }

  lemma JavascriptPostAggregationRoundTrip(name: string, fieldNames: seq<string>, script: string)
    ensures var p := PostAggregation.Javascript(name, fieldNames, script);
      DecodePostAggregation(EncodePostAggregation(p)) == Ok(p)
  {
    StringsRoundTrip(fieldNames);
  }

  /**
   * A greatest/least post-aggregation reads back when all its operands do,
   * and fails when one of them fails.
   */
  lemma ExtremeRoundTrip(kind: Extremum, name: string, operands: seq<PostAggregation>)
    ensures (forall i :: 0 <= i < |operands| ==>
        DecodePostAggregation(EncodePostAggregation(operands[i])) == Ok(operands[i])) ==>
      DecodePostAggregation(EncodePostAggregation(Extreme(kind, name, operands))) == Ok(Extreme(kind, name, operands))
    ensures (exists i :: 0 <= i < |operands| && DecodePostAggregation(EncodePostAggregation(operands[i])).Err?) ==>
      DecodePostAggregation(EncodePostAggregation(Extreme(kind, name, operands))).Err?
  {
    var j := EncodePostAggregation(Extreme(kind, name, operands));
    assert ExtremumFromName(ExtremumName(kind)) == Some(kind) by {
      match kind
      case DoubleGreatest =>
      case LongGreatest =>
      case LongLeast =>
      case DoubleLeast =>
    }
    var v := j.fields["fields"];
    var rs := seq(|v.items|, i requires 0 <= i < |v.items| => DecodePostAggregation(v.items[i]));
    if forall i :: 0 <= i < |operands| ==> rs[i] == Ok(operands[i]) {
      CollectAllOk(rs, operands);
    }
  }

  /**
   * A post-aggregation reads back as itself exactly when it holds no
   * arithmetic post-aggregation; otherwise reading it fails.
   */
  lemma {:induction false} PostAggregationRoundTrip(p: PostAggregation)
    ensures WithoutArithmetic(p) ==> DecodePostAggregation(EncodePostAggregation(p)) == Ok(p)
    ensures !WithoutArithmetic(p) ==> DecodePostAggregation(EncodePostAggregation(p)).Err?
    decreases p
  {
    match p
    case Arithmetic(name, fn, fields, ordering) => ArithmeticUnreadable(name, fn, fields, ordering);
    case Javascript(name, fieldNames, script) => JavascriptPostAggregationRoundTrip(name, fieldNames, script);
    case Extreme(kind, name, operands) =>
      forall i | 0 <= i < |operands|
        ensures WithoutArithmetic(operands[i]) ==>
          DecodePostAggregation(EncodePostAggregation(operands[i])) == Ok(operands[i])
        ensures !WithoutArithmetic(operands[i]) ==>
          DecodePostAggregation(EncodePostAggregation(operands[i])).Err?
      {
        PostAggregationRoundTrip(operands[i]);
      }
      ExtremeRoundTrip(kind, name, operands);
  }
}
