/**
 * What the derived codecs of the shared query parts promise each other:
 * decoding what was encoded gives the value back, for every part except
 * the lookup-map dimension spec, whose written tag is not the one it is
 * read from. Each variant has its own lemma; the lemma for a whole type
 * picks the variant and supplies the round trip of nested values.
 */
module DefinitionsRoundTrip {
  import opened Json
  import opened Definitions

  // ---------------------------------------------------------------------------
  // Unit enumerations
  // ---------------------------------------------------------------------------

  /** Every output type is recognised from its name, and only from it. */
  lemma OutputTypeNames(s: string, t: OutputType)
    ensures OutputTypeFromName(s) == Some(t) <==> OutputTypeName(t) == s
  {
  }

  lemma HllTypeNames(s: string, t: HllType)
    ensures HllTypeFromName(s) == Some(t) <==> HllTypeName(t) == s
  {
  }

  lemma NullHandlingNames(s: string, h: NullHandling)
    ensures NullHandlingFromName(s) == Some(h) <==> NullHandlingName(h) == s
  {
  }

  lemma OrderingNames(s: string, o: Ordering)
    ensures OrderingFromName(s) == Some(o) <==> OrderingName(o) == s
  {
  }

  lemma SortingOrderNames(s: string, o: SortingOrder)
    ensures SortingOrderFromName(s) == Some(o) <==> SortingOrderName(o) == s
  {
  }

  lemma FieldAggregatorNames(s: string, k: FieldAggregator)
    ensures FieldAggregatorFromName(s) == Some(k) <==> FieldAggregatorName(k) == s
  {
  }

  /** Only the unit variants of `Granularity` are recognised by name. */
  lemma GranularityNames(s: string, g: Granularity)
    ensures GranularityFromName(s) == Some(g) <==> !g.Duration? && GranularityName(g) == s
  {
  }

  lemma OutputTypeRoundTrip(t: OutputType)
    ensures DecodeOutputType(EncodeOutputType(t)) == Ok(t)
  {
  }

  lemma HllTypeRoundTrip(t: HllType)
    ensures DecodeHllType(EncodeHllType(t)) == Ok(t)
  {
  }

  lemma NullHandlingRoundTrip(h: NullHandling)
    ensures DecodeNullHandling(EncodeNullHandling(h)) == Ok(h)
  {
  }

  lemma OrderingRoundTrip(o: Ordering)
    ensures DecodeOrdering(EncodeOrdering(o)) == Ok(o)
  {
  }

  lemma SortingOrderRoundTrip(o: SortingOrder)
    ensures DecodeSortingOrder(EncodeSortingOrder(o)) == Ok(o)
  {
  }

  lemma GranularityRoundTrip(g: Granularity)
    ensures DecodeGranularity(EncodeGranularity(g)) == Ok(g)
  {
  }

  lemma LookupMapRoundTrip(l: LookupMapSpec)
    ensures DecodeLookupMap(EncodeLookupMap(l)) == Ok(l)
  {
    StringMapRoundTrip(l.entries);
  }

  // ---------------------------------------------------------------------------
  // Extraction functions
  // ---------------------------------------------------------------------------

  lemma RegexFnRoundTrip(expr: string, index: Usize, replace: bool, with: Option<string>)
    ensures var e := ExtractFn.Regex(expr, index, replace, with); DecodeExtractFn(EncodeExtractFn(e)) == Ok(e)
  {
    var f := EncodeExtractFnBody(ExtractFn.Regex(expr, index, replace, with)).fields;
    OptFieldRoundTrip(f, "replaceMissingValueWith", with, EncodeString, DecodeString);
  }

  lemma PartialFnRoundTrip(expr: string)
    ensures DecodeExtractFn(EncodeExtractFn(Partial(expr))) == Ok(Partial(expr))
  {
  }

  lemma SubstringFnRoundTrip(index: Usize, length: Option<Usize>)
    ensures DecodeExtractFn(EncodeExtractFn(Substring(index, length))) == Ok(Substring(index, length))
  {
    OptFieldRoundTrip(EncodeExtractFnBody(Substring(index, length)).fields, "length", length, EncodeUsize, DecodeUsize);
  }

  lemma TimeFormatFnRoundTrip(format: Option<string>, timeZone: Option<string>, locale: Option<string>,
                              granularity: Option<Granularity>, asMillis: bool)
    ensures var e := TimeFormat(format, timeZone, locale, granularity, asMillis);
      DecodeExtractFn(EncodeExtractFn(e)) == Ok(e)
  {
    var f := EncodeExtractFnBody(TimeFormat(format, timeZone, locale, granularity, asMillis)).fields;
    OptFieldRoundTrip(f, "format", format, EncodeString, DecodeString);
    OptFieldRoundTrip(f, "timeZone", timeZone, EncodeString, DecodeString);
    OptFieldRoundTrip(f, "locale", locale, EncodeString, DecodeString);
    if granularity.Some? {
      GranularityRoundTrip(granularity.value);
    }
    OptFieldRoundTrip(f, "granularity", granularity, EncodeGranularity, DecodeGranularity);
  }

  lemma TimeFnRoundTrip(timeFormat: string, resultFormat: string, joda: bool)
    ensures DecodeExtractFn(EncodeExtractFn(Time(timeFormat, resultFormat, joda))) == Ok(Time(timeFormat, resultFormat, joda))
  {
  }

  lemma JavascriptFnRoundTrip(script: string)
    ensures var e := ExtractFn.Javascript(script); DecodeExtractFn(EncodeExtractFn(e)) == Ok(e)
  {
  }

  lemma RegisteredLookupFnRoundTrip(lookupName: string, retain: bool)
    ensures var e := RegisteredLookup(lookupName, retain); DecodeExtractFn(EncodeExtractFn(e)) == Ok(e)
  {
  }

  lemma LookupFnRoundTrip(lookup: LookupMapSpec, retain: bool, injective: bool, replaceWith: string)
    ensures var e := ExtractFn.Lookup(lookup, retain, injective, replaceWith); DecodeExtractFn(EncodeExtractFn(e)) == Ok(e)
  {
    LookupMapRoundTrip(lookup);
  }

  lemma StringFormatFnRoundTrip(template: string, nullHandling: Option<NullHandling>)
    ensures var e := StringFormat(template, nullHandling); DecodeExtractFn(EncodeExtractFn(e)) == Ok(e)
  {
    if nullHandling.Some? {
      NullHandlingRoundTrip(nullHandling.value);
    }
    var f := EncodeExtractFnBody(StringFormat(template, nullHandling)).fields;
    OptFieldRoundTrip(f, "nullHandling", nullHandling, EncodeNullHandling, DecodeNullHandling);
  }

  lemma UpperFnRoundTrip(locale: Option<string>)
    ensures DecodeExtractFn(EncodeExtractFn(Upper(locale))) == Ok(Upper(locale))
  {
    OptFieldRoundTrip(EncodeExtractFnBody(Upper(locale)).fields, "locale", locale, EncodeString, DecodeString);
  }

  lemma LowerFnRoundTrip(locale: Option<string>)
    ensures DecodeExtractFn(EncodeExtractFn(Lower(locale))) == Ok(Lower(locale))
  {
    OptFieldRoundTrip(EncodeExtractFnBody(Lower(locale)).fields, "locale", locale, EncodeString, DecodeString);
  }

  lemma BucketFnRoundTrip(size: Usize, offset: Usize)
    ensures DecodeExtractFn(EncodeExtractFn(Bucket(size, offset))) == Ok(Bucket(size, offset))
  {
  }

  lemma CascadeFnRoundTrip(fns: seq<ExtractFn>)
    requires forall i :: 0 <= i < |fns| ==> DecodeExtractFn(EncodeExtractFn(fns[i])) == Ok(fns[i])
    ensures DecodeExtractFn(EncodeExtractFn(Cascade(fns))) == Ok(Cascade(fns))
  {
    var body := EncodeExtractFnBody(Cascade(fns));
    var v := body.fields["extractionFns"];
    var rs := seq(|v.items|, k requires 0 <= k < |v.items| => DecodeExtractFn(v.items[k]));
    CollectAllOk(rs, fns);
    assert DecodeCascadeFn(body) == Ok(Cascade(fns));
  }

  /** Every extraction function reads back as itself. */
  lemma {:induction false} ExtractFnRoundTrip(e: ExtractFn)
    ensures DecodeExtractFn(EncodeExtractFn(e)) == Ok(e)
    decreases e
  {
    match e
    case Regex(expr, index, replace, with) => RegexFnRoundTrip(expr, index, replace, with);
    case Partial(expr) => PartialFnRoundTrip(expr);
    case Substring(index, length) => SubstringFnRoundTrip(index, length);
    case Strlen =>
    case TimeFormat(format, timeZone, locale, granularity, asMillis) =>
      TimeFormatFnRoundTrip(format, timeZone, locale, granularity, asMillis);
    case Time(timeFormat, resultFormat, joda) => TimeFnRoundTrip(timeFormat, resultFormat, joda);
    case Javascript(script) => JavascriptFnRoundTrip(script);
    case RegisteredLookup(lookupName, retain) => RegisteredLookupFnRoundTrip(lookupName, retain);
    case Lookup(lookup, retain, injective, replaceWith) => LookupFnRoundTrip(lookup, retain, injective, replaceWith);
    case Cascade(fns) =>
      forall i | 0 <= i < |fns| ensures DecodeExtractFn(EncodeExtractFn(fns[i])) == Ok(fns[i]) {
        ExtractFnRoundTrip(fns[i]);
      }
      CascadeFnRoundTrip(fns);
    case StringFormat(template, nullHandling) => StringFormatFnRoundTrip(template, nullHandling);
    case Upper(locale) => UpperFnRoundTrip(locale);
    case Lower(locale) => LowerFnRoundTrip(locale);
    case Bucket(size, offset) => BucketFnRoundTrip(size, offset);
  }

  // ---------------------------------------------------------------------------
  // Dimension specs
  // ---------------------------------------------------------------------------

  lemma DefaultDimensionRoundTrip(dimension: string, outputName: string, outputType: OutputType)
    ensures var d := Default(dimension, outputName, outputType); DecodeDimension(EncodeDimension(d)) == Ok(d)
  {
    OutputTypeRoundTrip(outputType);
  }

  lemma ExtractionDimensionRoundTrip(dimenstion: string, outputName: string, outputType: OutputType, fn: ExtractFn)
    ensures var d := Extraction(dimenstion, outputName, outputType, fn); DecodeDimension(EncodeDimension(d)) == Ok(d)
  {
    OutputTypeRoundTrip(outputType);
    ExtractFnRoundTrip(fn);
  }

  /** A filtered spec reads back with its delegate read back as the delegate alone is. */
  lemma ListFilteredDimensionRoundTrip(delegate: Dimension, values: seq<string>, isWhitelist: bool)
    ensures var r := DecodeDimension(EncodeDimension(delegate));
      var d := DecodeDimension(EncodeDimension(ListFiltered(delegate, values, isWhitelist)));
      && (r.Ok? ==> d == Ok(ListFiltered(r.value, values, isWhitelist)))
      && (r.Err? ==> d.Err?)
  {
    StringsRoundTrip(values);
  }

  lemma RegexFilteredDimensionRoundTrip(delegate: Dimension, pattern: string)
    ensures var r := DecodeDimension(EncodeDimension(delegate));
      var d := DecodeDimension(EncodeDimension(RegexFiltered(delegate, pattern)));
      && (r.Ok? ==> d == Ok(RegexFiltered(r.value, pattern)))
      && (r.Err? ==> d.Err?)
  {
  }

  lemma PrefixFilteredDimensionRoundTrip(delegate: Dimension, prefix: string)
    ensures var r := DecodeDimension(EncodeDimension(delegate));
      var d := DecodeDimension(EncodeDimension(PrefixFiltered(delegate, prefix)));
      && (r.Ok? ==> d == Ok(PrefixFiltered(r.value, prefix)))
      && (r.Err? ==> d.Err?)
  {
  }

  /**
   * A lookup-map spec is written with the tag `"lookup"`, so it is read as
   * the plain lookup spec, which fails for want of `output_name`.
   */
  lemma LookupMapDimensionFails(dimension: string, outputName: string, replaceWith: string,
                                retain: bool, lookup: LookupMapSpec)
    ensures var d := LookupMap(dimension, outputName, replaceWith, retain, lookup);
      && EncodeDimension(d).fields["type"] == Str("lookup")
      && DecodeDimension(EncodeDimension(d)) == Err(MissingField("output_name"))
  {
  }

  lemma LookupDimensionRoundTrip(dimension: string, outputName: string, name: string)
    ensures var d := Dimension.Lookup(dimension, outputName, name); DecodeDimension(EncodeDimension(d)) == Ok(d)
  {
  }

  /** A spec with no lookup-map spec anywhere inside it. */
  predicate WithoutLookupMap(d: Dimension)
  {
    match d
    case LookupMap(_, _, _, _, _) => false
    case ListFiltered(delegate, _, _) => WithoutLookupMap(delegate)
    case RegexFiltered(delegate, _) => WithoutLookupMap(delegate)
    case PrefixFiltered(delegate, _) => WithoutLookupMap(delegate)
    case _ => true
  }

  /**
   * A dimension spec reads back as itself exactly when it holds no
   * lookup-map spec; otherwise reading it fails.
   */
  lemma {:induction false} DimensionRoundTrip(d: Dimension)
    ensures WithoutLookupMap(d) ==> DecodeDimension(EncodeDimension(d)) == Ok(d)
    ensures !WithoutLookupMap(d) ==> DecodeDimension(EncodeDimension(d)).Err?
    decreases d
  {
    match d
    case Default(dimension, outputName, outputType) => DefaultDimensionRoundTrip(dimension, outputName, outputType);
    case Extraction(dimenstion, outputName, outputType, fn) =>
      ExtractionDimensionRoundTrip(dimenstion, outputName, outputType, fn);
    case ListFiltered(delegate, values, isWhitelist) =>
      DimensionRoundTrip(delegate);
      ListFilteredDimensionRoundTrip(delegate, values, isWhitelist);
    case RegexFiltered(delegate, pattern) =>
      DimensionRoundTrip(delegate);
      RegexFilteredDimensionRoundTrip(delegate, pattern);
    case PrefixFiltered(delegate, prefix) =>
      DimensionRoundTrip(delegate);
      PrefixFilteredDimensionRoundTrip(delegate, prefix);
    case LookupMap(dimension, outputName, replaceWith, retain, lookup) =>
      LookupMapDimensionFails(dimension, outputName, replaceWith, retain, lookup);
    case Lookup(dimension, outputName, name) => LookupDimensionRoundTrip(dimension, outputName, name);
  }

  // ---------------------------------------------------------------------------
  // Filters
  // ---------------------------------------------------------------------------

  lemma FilterQuerySpecRoundTrip(q: FilterQuerySpec)
    ensures DecodeFilterQuerySpec(EncodeFilterQuerySpec(q)) == Ok(q)
  {
    if q.Fragment? {
      StringsRoundTrip(q.values);
    }
  }

  /** An optional extraction function field reads back as itself. */
  lemma OptExtractFnRoundTrip(f: map<string, Json>, key: string, fn: Option<ExtractFn>)
    requires key in f && f[key] == EncodeOpt(fn, EncodeExtractFn)
    ensures OptField(f, key, DecodeExtractFn) == Ok(fn)
  {
    if fn.Some? {
      ExtractFnRoundTrip(fn.value);
    }
    OptFieldRoundTrip(f, key, fn, EncodeExtractFn, DecodeExtractFn);
  }

  lemma SelectorFilterRoundTrip(dimension: string, value: string, fn: Option<ExtractFn>)
    ensures var x := Selector(dimension, value, fn); DecodeFilter(EncodeFilter(x)) == Ok(x)
  {
    OptExtractFnRoundTrip(EncodeFilter(Selector(dimension, value, fn)).fields, "extractFn", fn);
  }

  lemma ColumnComparisonFilterRoundTrip(dimensions: seq<string>)
    ensures var x := ColumnComparison(dimensions); DecodeFilter(EncodeFilter(x)) == Ok(x)
  {
    StringsRoundTrip(dimensions);
  }

  lemma RegexFilterRoundTrip(dimension: string, pattern: string)
    ensures var x := Filter.Regex(dimension, pattern); DecodeFilter(EncodeFilter(x)) == Ok(x)
  {
  }

  /** `and` and `or` read back their operands as each operand alone reads back. */
  lemma JunctionFilterRoundTrip(x: Filter)
    requires x.And? || x.Or?
    requires forall i :: 0 <= i < |x.fields| ==> DecodeFilter(EncodeFilter(x.fields[i])) == Ok(x.fields[i])
    ensures DecodeFilter(EncodeFilter(x)) == Ok(x)
  {
    var body := EncodeFilter(x);
    var v := body.fields["fields"];
    var rs := seq(|v.items|, k requires 0 <= k < |v.items| => DecodeFilter(v.items[k]));
    CollectAllOk(rs, x.fields);
  }

  lemma NotFilterRoundTrip(field: Filter)
    requires DecodeFilter(EncodeFilter(field)) == Ok(field)
    ensures DecodeFilter(EncodeFilter(Not(field))) == Ok(Not(field))
  {
  }

  lemma JavascriptFilterRoundTrip(dimension: string, script: string)
    ensures var x := Filter.Javascript(dimension, script); DecodeFilter(EncodeFilter(x)) == Ok(x)
  {
  }

  lemma SearchFilterRoundTrip(dimension: string, query: FilterQuerySpec)
    ensures var x := Search(dimension, query); DecodeFilter(EncodeFilter(x)) == Ok(x)
  {
    FilterQuerySpecRoundTrip(query);
  }

  lemma InFilterRoundTrip(dimension: string, values: seq<string>)
    ensures var x := In(dimension, values); DecodeFilter(EncodeFilter(x)) == Ok(x)
  {
    StringsRoundTrip(values);
  }

  lemma LikeFilterRoundTrip(dimension: string, pattern: string, escape: Option<string>, fn: Option<ExtractFn>)
    ensures var x := Like(dimension, pattern, escape, fn); DecodeFilter(EncodeFilter(x)) == Ok(x)
  {
    var f := EncodeFilter(Like(dimension, pattern, escape, fn)).fields;
    OptFieldRoundTrip(f, "escape", escape, EncodeString, DecodeString);
    OptExtractFnRoundTrip(f, "extractionFn", fn);
  }

  /** An object tagged `"bound"` reads as the bound filter its fields read as. */
  lemma BoundObject(j: Json, x: Filter)
    requires j.Obj? && x.Bound? && "type" in j.fields && j.fields["type"] == Str("bound")
    requires Field(j.fields, "dimension", DecodeString) == Ok(x.dimension)
    requires Field(j.fields, "lower", DecodeString) == Ok(x.lower)
    requires Field(j.fields, "upper", DecodeString) == Ok(x.upper)
    requires Field(j.fields, "lowerStrict", DecodeBool) == Ok(x.lowerStrict)
    requires Field(j.fields, "upperStrict", DecodeBool) == Ok(x.upperStrict)
    requires Field(j.fields, "ordering", DecodeSortingOrder) == Ok(x.ordering)
    requires OptField(j.fields, "extractionFn", DecodeExtractFn) == Ok(x.extractionFn)
    ensures DecodeFilter(j) == Ok(x)
  {
  }

  /** The string entries of an encoded bound filter read back. */
  lemma BoundStringEntries(x: Filter)
    requires x.Bound?
    ensures var f := EncodeFilter(x).fields;
      && Field(f, "dimension", DecodeString) == Ok(x.dimension)
      && Field(f, "lower", DecodeString) == Ok(x.lower)
      && Field(f, "upper", DecodeString) == Ok(x.upper)
  {
  }

  /** The flag and ordering entries of an encoded bound filter read back. */
  lemma BoundOrderEntries(x: Filter)
    requires x.Bound?
    ensures var f := EncodeFilter(x).fields;
      && Field(f, "lowerStrict", DecodeBool) == Ok(x.lowerStrict)
      && Field(f, "upperStrict", DecodeBool) == Ok(x.upperStrict)
      && Field(f, "ordering", DecodeSortingOrder) == Ok(x.ordering)
  {
    SortingOrderRoundTrip(x.ordering);
  }

  lemma BoundFilterRoundTrip(dimension: string, lower: string, upper: string, lowerStrict: bool, upperStrict: bool,
                             ordering: SortingOrder, fn: Option<ExtractFn>)
    ensures var x := Bound(dimension, lower, upper, lowerStrict, upperStrict, ordering, fn);
      DecodeFilter(EncodeFilter(x)) == Ok(x)
  {
    var x := Bound(dimension, lower, upper, lowerStrict, upperStrict, ordering, fn);
    OptExtractFnRoundTrip(EncodeFilter(x).fields, "extractionFn", fn);
    BoundStringEntries(x);
    BoundOrderEntries(x);
    BoundObject(EncodeFilter(x), x);
  }

  lemma IntervalFilterRoundTrip(dimension: string, intervals: seq<string>, fn: Option<ExtractFn>)
    ensures var x := Interval(dimension, intervals, fn); DecodeFilter(EncodeFilter(x)) == Ok(x)
  {
    var f := EncodeFilter(Interval(dimension, intervals, fn)).fields;
    StringsRoundTrip(intervals);
    OptExtractFnRoundTrip(f, "extractionFn", fn);
    assert Field(f, "dimension", DecodeString) == Ok(dimension);
    assert Field(f, "intervals", DecodeStrings) == Ok(intervals);
  }

  /** Every filter reads back as itself. */
  lemma {:induction false} FilterRoundTrip(x: Filter)
    ensures DecodeFilter(EncodeFilter(x)) == Ok(x)
    decreases x
  {
    match x
    case Selector(dimension, value, fn) => SelectorFilterRoundTrip(dimension, value, fn);
    case ColumnComparison(dimensions) => ColumnComparisonFilterRoundTrip(dimensions);
    case Regex(dimension, pattern) => RegexFilterRoundTrip(dimension, pattern);
    case And(fs) =>
      forall i | 0 <= i < |fs| ensures DecodeFilter(EncodeFilter(fs[i])) == Ok(fs[i]) {
        FilterRoundTrip(fs[i]);
      }
      JunctionFilterRoundTrip(x);
    case Or(fs) =>
      forall i | 0 <= i < |fs| ensures DecodeFilter(EncodeFilter(fs[i])) == Ok(fs[i]) {
        FilterRoundTrip(fs[i]);
      }
      JunctionFilterRoundTrip(x);
    case Not(field) =>
      FilterRoundTrip(field);
      NotFilterRoundTrip(field);
    case Javascript(dimension, script) => JavascriptFilterRoundTrip(dimension, script);
    case Search(dimension, query) => SearchFilterRoundTrip(dimension, query);
    case In(dimension, values) => InFilterRoundTrip(dimension, values);
    case Like(dimension, pattern, escape, fn) => LikeFilterRoundTrip(dimension, pattern, escape, fn);
    case Bound(dimension, lower, upper, lowerStrict, upperStrict, ordering, fn) =>
      BoundFilterRoundTrip(dimension, lower, upper, lowerStrict, upperStrict, ordering, fn);
    case Interval(dimension, intervals, fn) => IntervalFilterRoundTrip(dimension, intervals, fn);
    case True =>
  }

  // ---------------------------------------------------------------------------
  // Aggregations
  // ---------------------------------------------------------------------------

  lemma CountAggregationRoundTrip(name: string)
    ensures DecodeAggregation(EncodeAggregation(Count(name))) == Ok(Count(name))
  {
  }

  lemma OverFieldAggregationRoundTrip(kind: FieldAggregator, name: string, fieldName: string)
    ensures var a := OverField(kind, name, fieldName); DecodeAggregation(EncodeAggregation(a)) == Ok(a)
  {
    FieldAggregatorNames(FieldAggregatorName(kind), kind);
    FieldAggregatorNames("count", kind);
  }

  lemma StringFirstAggregationRoundTrip(name: string, fieldName: string, maxStringBytes: Usize)
    ensures var a := StringFirst(name, fieldName, maxStringBytes); DecodeAggregation(EncodeAggregation(a)) == Ok(a)
  {
  }

  lemma StringLastAggregationRoundTrip(name: string, fieldName: string, maxStringBytes: Usize)
    ensures var a := StringLast(name, fieldName, maxStringBytes); DecodeAggregation(EncodeAggregation(a)) == Ok(a)
  {
  }

  /** An object tagged `"javascript"` reads as the aggregation its five entries read as. */
  lemma JavascriptObject(j: Json, x: Aggregation)
    requires j.Obj? && x.Javascript? && "type" in j.fields && j.fields["type"] == Str("javascript")
    requires Field(j.fields, "name", DecodeString) == Ok(x.name)
    requires Field(j.fields, "fieldNames", DecodeStrings) == Ok(x.fieldNames)
    requires Field(j.fields, "fnAggregate", DecodeString) == Ok(x.fnAggregate)
    requires Field(j.fields, "fnCombine", DecodeString) == Ok(x.fnCombine)
    requires Field(j.fields, "fnReset", DecodeString) == Ok(x.fnReset)
    ensures DecodeAggregation(j) == Ok(x)
  {
    assert FieldAggregatorFromName("javascript") == None;
  }

  lemma JavascriptAggregationRoundTrip(name: string, fieldNames: seq<string>, fnAggregate: string,
                                       fnCombine: string, fnReset: string)
    ensures var a := Aggregation.Javascript(name, fieldNames, fnAggregate, fnCombine, fnReset);
      DecodeAggregation(EncodeAggregation(a)) == Ok(a)
  {
    var a := Aggregation.Javascript(name, fieldNames, fnAggregate, fnCombine, fnReset);
    var f := EncodeAggregation(a).fields;
    StringsRoundTrip(fieldNames);
    assert Field(f, "name", DecodeString) == Ok(name);
    assert Field(f, "fieldNames", DecodeStrings) == Ok(fieldNames);
    assert Field(f, "fnAggregate", DecodeString) == Ok(fnAggregate);
    assert Field(f, "fnCombine", DecodeString) == Ok(fnCombine);
    assert Field(f, "fnReset", DecodeString) == Ok(fnReset);
    JavascriptObject(EncodeAggregation(a), a);
  }

  /** An object tagged `"thetaSketch"` reads as the aggregation its four entries read as. */
  lemma ThetaSketchObject(j: Json, x: Aggregation)
    requires j.Obj? && x.ThetaSketch? && "type" in j.fields && j.fields["type"] == Str("thetaSketch")
    requires Field(j.fields, "name", DecodeString) == Ok(x.name)
    requires Field(j.fields, "fieldName", DecodeString) == Ok(x.fieldName)
    requires Field(j.fields, "isInputThetaSketch", DecodeBool) == Ok(x.isInputThetaSketch)
    requires Field(j.fields, "size", DecodeUsize) == Ok(x.size)
    ensures DecodeAggregation(j) == Ok(x)
  {
    assert FieldAggregatorFromName("thetaSketch") == None;
  }

  lemma ThetaSketchAggregationRoundTrip(name: string, fieldName: string, isInputThetaSketch: bool, size: Usize)
    ensures var a := ThetaSketch(name, fieldName, isInputThetaSketch, size); DecodeAggregation(EncodeAggregation(a)) == Ok(a)
  {
    var a := ThetaSketch(name, fieldName, isInputThetaSketch, size);
    var f := EncodeAggregation(a).fields;
    assert Field(f, "name", DecodeString) == Ok(name);
    assert Field(f, "fieldName", DecodeString) == Ok(fieldName);
    assert Field(f, "isInputThetaSketch", DecodeBool) == Ok(isInputThetaSketch);
    assert Field(f, "size", DecodeUsize) == Ok(size);
    ThetaSketchObject(EncodeAggregation(a), a);
  }

  /** An object tagged `"hLLSketchBuild"` reads as the aggregation its five entries read as. */
  lemma HLLSketchBuildObject(j: Json, x: Aggregation)
    requires j.Obj? && x.HLLSketchBuild? && "type" in j.fields && j.fields["type"] == Str("hLLSketchBuild")
    requires Field(j.fields, "name", DecodeString) == Ok(x.name)
    requires Field(j.fields, "fieldName", DecodeString) == Ok(x.fieldName)
    requires Field(j.fields, "lgK", DecodeUsize) == Ok(x.lgK)
    requires Field(j.fields, "lgtHllType", DecodeHllType) == Ok(x.lgtHllType)
    requires Field(j.fields, "round", DecodeBool) == Ok(x.round)
    ensures DecodeAggregation(j) == Ok(x)
  {
    assert FieldAggregatorFromName("hLLSketchBuild") == None;
  }

  lemma HLLSketchBuildAggregationRoundTrip(name: string, fieldName: string, lgK: Usize, lgtHllType: HllType, round: bool)
    ensures var a := HLLSketchBuild(name, fieldName, lgK, lgtHllType, round); DecodeAggregation(EncodeAggregation(a)) == Ok(a)
  {
    var a := HLLSketchBuild(name, fieldName, lgK, lgtHllType, round);
    var f := EncodeAggregation(a).fields;
    HllTypeRoundTrip(lgtHllType);
    assert Field(f, "name", DecodeString) == Ok(name);
    assert Field(f, "fieldName", DecodeString) == Ok(fieldName);
    assert Field(f, "lgK", DecodeUsize) == Ok(lgK);
    assert Field(f, "lgtHllType", DecodeHllType) == Ok(lgtHllType);
    assert Field(f, "round", DecodeBool) == Ok(round);
    HLLSketchBuildObject(EncodeAggregation(a), a);
  }

  /** An object tagged `"cardinality"` reads as the aggregation its four entries read as. */
  lemma CardinalityObject(j: Json, x: Aggregation)
    requires j.Obj? && x.Cardinality? && "type" in j.fields && j.fields["type"] == Str("cardinality")
    requires Field(j.fields, "name", DecodeString) == Ok(x.name)
    requires Field(j.fields, "fields", DecodeStrings) == Ok(x.fields)
    requires Field(j.fields, "byRow", DecodeBool) == Ok(x.byRow)
    requires Field(j.fields, "round", DecodeBool) == Ok(x.round)
    ensures DecodeAggregation(j) == Ok(x)
  {
    assert FieldAggregatorFromName("cardinality") == None;
  }

  lemma CardinalityAggregationRoundTrip(name: string, fields: seq<string>, byRow: bool, round: bool)
    ensures var a := Cardinality(name, fields, byRow, round); DecodeAggregation(EncodeAggregation(a)) == Ok(a)
  {
    var a := Cardinality(name, fields, byRow, round);
    var f := EncodeAggregation(a).fields;
    StringsRoundTrip(fields);
    assert Field(f, "name", DecodeString) == Ok(name);
    assert Field(f, "fields", DecodeStrings) == Ok(fields);
    assert Field(f, "byRow", DecodeBool) == Ok(byRow);
    assert Field(f, "round", DecodeBool) == Ok(round);
    CardinalityObject(EncodeAggregation(a), a);
  }

  /** An object tagged `"hyperUnique"` reads as the aggregation its four entries read as. */
  lemma HyperUniqueObject(j: Json, x: Aggregation)
    requires j.Obj? && x.HyperUnique? && "type" in j.fields && j.fields["type"] == Str("hyperUnique")
    requires Field(j.fields, "name", DecodeString) == Ok(x.name)
    requires Field(j.fields, "fieldName", DecodeString) == Ok(x.fieldName)
    requires Field(j.fields, "isInputHyperUnique", DecodeBool) == Ok(x.isInputHyperUnique)
    requires Field(j.fields, "round", DecodeBool) == Ok(x.round)
    ensures DecodeAggregation(j) == Ok(x)
  {
    assert FieldAggregatorFromName("hyperUnique") == None;
  }

  lemma HyperUniqueAggregationRoundTrip(name: string, fieldName: string, isInputHyperUnique: bool, round: bool)
    ensures var a := HyperUnique(name, fieldName, isInputHyperUnique, round); DecodeAggregation(EncodeAggregation(a)) == Ok(a)
  {
    var a := HyperUnique(name, fieldName, isInputHyperUnique, round);
    var f := EncodeAggregation(a).fields;
    assert Field(f, "name", DecodeString) == Ok(name);
    assert Field(f, "fieldName", DecodeString) == Ok(fieldName);
    assert Field(f, "isInputHyperUnique", DecodeBool) == Ok(isInputHyperUnique);
    assert Field(f, "round", DecodeBool) == Ok(round);
    HyperUniqueObject(EncodeAggregation(a), a);
  }

  /** An object tagged `"filtered"` reads as the filtered aggregation its filter and aggregator read as. */
  lemma FilteredObject(j: Json, x: Aggregation)
    requires j.Obj? && x.Filtered? && "type" in j.fields && j.fields["type"] == Str("filtered")
    requires Field(j.fields, "filter", DecodeFilter) == Ok(x.filter)
    requires "aggregator" in j.fields && DecodeAggregation(j.fields["aggregator"]) == Ok(x.aggregator)
    ensures DecodeAggregation(j) == Ok(x)
  {
    assert FieldAggregatorFromName("filtered") == None;
  }

  lemma FilteredAggregationRoundTrip(filter: Filter, aggregator: Aggregation)
    requires DecodeAggregation(EncodeAggregation(aggregator)) == Ok(aggregator)
    ensures var a := Filtered(filter, aggregator); DecodeAggregation(EncodeAggregation(a)) == Ok(a)
  {
    var j := EncodeAggregation(Filtered(filter, aggregator));
    FilterRoundTrip(filter);
    FieldRoundTrip(j.fields, "filter", filter, EncodeFilter, DecodeFilter);
    FilteredObject(j, Filtered(filter, aggregator));
  }

  /** Every aggregation reads back as itself. */
  lemma {:induction false} AggregationRoundTrip(a: Aggregation)
    ensures DecodeAggregation(EncodeAggregation(a)) == Ok(a)
    decreases a
  {
    match a
    case Count(name) => CountAggregationRoundTrip(name);
    case OverField(kind, name, fieldName) => OverFieldAggregationRoundTrip(kind, name, fieldName);
    case StringFirst(name, fieldName, maxStringBytes) => StringFirstAggregationRoundTrip(name, fieldName, maxStringBytes);
    case StringLast(name, fieldName, maxStringBytes) => StringLastAggregationRoundTrip(name, fieldName, maxStringBytes);
    case Javascript(name, fieldNames, fnAggregate, fnCombine, fnReset) =>
      JavascriptAggregationRoundTrip(name, fieldNames, fnAggregate, fnCombine, fnReset);
    case ThetaSketch(name, fieldName, isInputThetaSketch, size) =>
      ThetaSketchAggregationRoundTrip(name, fieldName, isInputThetaSketch, size);
    case HLLSketchBuild(name, fieldName, lgK, lgtHllType, round) =>
      HLLSketchBuildAggregationRoundTrip(name, fieldName, lgK, lgtHllType, round);
    case Cardinality(name, fields, byRow, round) => CardinalityAggregationRoundTrip(name, fields, byRow, round);
    case HyperUnique(name, fieldName, isInputHyperUnique, round) =>
      HyperUniqueAggregationRoundTrip(name, fieldName, isInputHyperUnique, round);
    case Filtered(filter, aggregator) =>
      AggregationRoundTrip(aggregator);
      FilteredAggregationRoundTrip(filter, aggregator);
  }
}
