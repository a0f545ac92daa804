# druid-io-rs in Dafny

This project is a Dafny model of the core of `druid-io-rs`, an asynchronous Rust client for Apache Druid. It covers four things:

- the query data model and its JSON wire encoding;
- the broker-selection state machine;
- the lenient decoding helpers;
- the response envelopes and the client's result classification.

Everything is pure functions over an abstract JSON tree (`Json.Json`), except one method, `Connection.BrokersInTurn`.

## Design

Modules follow the source files:

| module | file | models |
|---|---|---|
| `Json` | (none) | The JSON tree, the `Result` of decoding, and the field, sequence and string-map rules that serde's derived code applies. Object field order is not modelled. |
| `Connection` | connection.rs | The `Constant`/`RoundRobin` strategy. The atomic counter is a value that each selection returns updated. |
| `Serialization` | serialization/mod.rs | `default_for_null` and `tagged_or_untagged`. The second needs the document order of a map, so it reads its own `Input` (a bare string, an ordered list of entries, or unit). |
| `Scalars` | query/mod.rs:173-229 | The untagged `JsonNumber` and `JsonAny`. |
| `Definitions`, `DefinitionsRoundTrip` | query/definitions.rs | Dimensions, extraction functions, filters and aggregations, with their codecs and round-trip lemmas. |
| `GroupBySpecs`, `GroupBySpecsRoundTrip` | query/group_by.rs | Limit, having and post-aggregation specs. |
| `QueryParts` | scan.rs, search.rs, time_boundary.rs, segment_metadata.rs, mod.rs | Small enums and specs used by the query structs. |
| `Queries`, `QueriesRoundTrip` | query/mod.rs and the query struct files | `DataSource`, the untagged `Query`, and the six query structs it wraps. |
| `StandaloneQueries` | timeseries.rs, mod.rs:165-171 | `Timeseries` and `DataSourceMetadata`. |
| `WireTags` | definitions.rs, mod.rs | Which `"type"` each decoder expects, compared with what each encoder writes. |
| `Builders` | mod.rs:82-131, group_by.rs:173-263 | `JoinBuilder` and `GroupByBuilder` as immutable records with functional setters. |
| `Response` | query/response.rs | The response envelopes. |
| `Client` | client.rs | `DruidClient`: URL building, `http_query`, `_query` and the typed calls. |

Encoders write exactly what the derived `Serialize` writes. Decoders accept the object forms that the derived `Deserialize` accepts from JSON:

- An unknown key is ignored. The `"queryType"` entry of a query struct is therefore written but never checked when reading.
- A missing `Option` field and a `null` both read as `None`.
- A `usize` must be a non-negative integer below 2^64.
- An `f32` accepts any number.

Source names that clash with Dafny's are renamed:

- `Ordering::None` is `Unordered`.
- `Granularity::None` is `NoGranularity`.
- `ToInclude::{All, None, List}` are `AllColumns`, `NoColumns` and `ListColumns`.
- `HavingSpec::Filter` is `ByFilter`.
- `DataSource::Query` is `Subquery`.

The 19 aggregation variants whose only fields are `name` and `fieldName` are grouped as `OverField(kind, ..)`. Their wire format is unchanged. The misspelt field `dimenstion` of the extraction dimension is kept as written, because that is the key the source writes and reads.

Several serde attributes make the encoding one-way. The model proves each of these as a negative lemma, next to the positive round trip:

- a `LookupMap` dimension is written under the `Lookup` tag;
- `fn` is written where `function` is read;
- a skipped `MinMaxTime` bound has no default to read back;
- an empty `analysisTypes` list is skipped and has no default to read back;
- `columnType` and `aggrType` are written where `type` is read;
- an untagged integer reads back as a float, because `Float(f32)` is tried first.

The client's collaborators are parameters of `Client.Collaborators`:

- JSON rendering (`serde_json::to_string`);
- the HTTP round trip;
- parsing a body into JSON.

`Client.Outcome` records the requests that were sent, so "nothing is sent" and "exactly one request is sent" are stated directly.

## Model

| member | source | states |
|---|---|---|
| Connection.GetAndIncrement | src/connection.rs:34-42 | One counter step from c with list length n returns c when c < n and 0 otherwise; it stores the returned index plus one, and the index is below n whenever n > 0. |
| Connection.Select | src/connection.rs:43-51 | Constant returns the first element and stays Constant; RoundRobin returns the element at the counter (or the first once the counter reaches the length) and advances the counter by the same rule. |
| Connection.RoundRobinFresh | src/connection.rs:53-55 | A new round-robin strategy starts its counter at 0. |
| Connection.DefaultFor | src/connection.rs:60-66 | The default strategy is Constant exactly when the list has one element; every other length, 0 included, gets RoundRobin from 0. |
| Connection.RoundRobinCycles | src/connection.rs:34-51 | k round-robin selections from a counter at p return list[(p+i) mod n] in turn, and the counter stays within [0, n]. |
| Connection.RoundRobinFair | src/connection.rs:73-84 | From a fresh counter, n selections return the list itself in order, and selection n+1 returns the first element again. |
| Connection.ConstantAlwaysFirst | src/connection.rs:85-93 | Any number of Constant selections return the first element every time. |
| Connection.Broker | src/connection.rs:22-26 | `broker` delegates to the strategy over the pool's unchanged list: the result is a member of the list, and it is the first one under Constant. |
| Connection.BrokersInTurn | src/connection.rs:73-84 | A loop of k selections from a fresh pool yields brokers[i mod n] at step i. |
| Serialization.DefaultForNull | src/serialization/mod.rs:7-13 | null decodes to the default, and any other value decodes exactly as the inner decoder would. |
| Serialization.NullStringListIsEmpty | src/serialization/mod.rs:77-92 | A null list of strings reads as the empty list, while the present list ["a"] reads as itself. |
| Serialization.LowerIdempotent | src/serialization/mod.rs:47 | Lowercasing twice equals lowercasing once. |
| Serialization.VisitStr | src/serialization/mod.rs:43-48 | A bare string is matched as a variant name after lowercasing the whole string, and succeeds exactly when that lowercased name is a variant. |
| Serialization.TaggedOrUntagged | src/serialization/mod.rs:26-69 | Unit decodes to the default, a bare string decodes as the string visitor decides, and any input that is neither a string nor a map is rejected. |
| Serialization.StringCaseInsensitive | src/serialization/mod.rs:43-48 | Decoding s and decoding lowercase(s) give the same result. |
| Serialization.UpperCaseNameUnreachable | src/serialization/mod.rs:43-48 | A variant whose only name holds an upper-case letter can never be reached from a string. |
| Serialization.FirstTypeEntryDecides | src/serialization/mod.rs:49-57 | Entries are scanned in order, and the first "type" value decides, as if it were a bare string. |
| Serialization.MissingTypeRejected | src/serialization/mod.rs:53-58 | A map without a "type" key is rejected. |
| Serialization.NonStringBeforeTypeRejected | src/serialization/mod.rs:53 | A non-string value met before the first "type" key makes the map fail. |
| Serialization.TaggedExamples | src/serialization/mod.rs:94-131 | "One" reads as One, {"type": "Two"} reads as Two, unit reads as the default One, and a map whose only key is "kind" is rejected. |
| Scalars.DecodeJsonNumber | src/query/mod.rs:173-178 | Any JSON number decodes, and always as Float; anything else is rejected. |
| Scalars.JsonNumberRoundTrip | src/query/mod.rs:173-178 | A Float reads back as itself; an Integer reads back as the Float of the same value. |
| Scalars.NumberFromF32 | src/query/mod.rs:180-184 | `From<f32>` builds the Float variant. |
| Scalars.NumberFromIsize | src/query/mod.rs:186-190 | `From<isize>` builds the Integer variant, which is written as that integer. |
| Scalars.DecodeJsonAny | src/query/mod.rs:192-199 | Numbers, strings and booleans decode (numbers always as Float), and null, arrays and objects are rejected. |
| Scalars.JsonAnyRoundTrip | src/query/mod.rs:192-199 | Every variant except Integer reads back as itself; an Integer reads back as a Float. |
| Scalars.AnyFromF32 | src/query/mod.rs:201-205 | `From<f32>` picks the Float variant. |
| Scalars.AnyFromIsize | src/query/mod.rs:207-211 | `From<isize>` picks the Integer variant. |
| Scalars.AnyFromBool | src/query/mod.rs:213-217 | `From<bool>` picks the Boolean variant. |
| Scalars.AnyFromString | src/query/mod.rs:219-229 | `From<String>` and `From<&str>` pick the string variant. |
| DefinitionsRoundTrip.OutputTypeNames | src/query/definitions.rs:54-59 | Name lookup and naming are inverse: the names STRING, LONG and FLOAT, and no others. |
| DefinitionsRoundTrip.HllTypeNames | src/query/definitions.rs:159-167 | The names HLL_4, HLL_6 and HLL_8 are each read as their own variant, and nothing else is. |
| DefinitionsRoundTrip.NullHandlingNames | src/query/definitions.rs:311-317 | The camelCase names are read as exactly their variants. |
| DefinitionsRoundTrip.OrderingNames | src/query/definitions.rs:443-449 | "ascending", "descending" and "none" are read as exactly their variants. |
| DefinitionsRoundTrip.SortingOrderNames | src/query/definitions.rs:450-457 | The camelCase names are read as exactly their variants. |
| DefinitionsRoundTrip.FieldAggregatorNames | src/query/definitions.rs:95-139 | The 19 camelCase aggregator tags are read as exactly their kinds. |
| DefinitionsRoundTrip.GranularityNames | src/query/definitions.rs:254-270 | The snake_case names (all, none, fifteen_minute, ...) are read as exactly the unit variants. |
| Definitions.DecodeGranularity | src/query/definitions.rs:254-270 | A Duration is read only from an object whose single key is "duration" (external tagging). |
| DefinitionsRoundTrip.OutputTypeRoundTrip | src/query/definitions.rs:54-59 | Every OutputType reads back as itself. |
| DefinitionsRoundTrip.HllTypeRoundTrip | src/query/definitions.rs:159-167 | Every HllType reads back as itself. |
| DefinitionsRoundTrip.NullHandlingRoundTrip | src/query/definitions.rs:311-317 | Every NullHandling reads back as itself. |
| DefinitionsRoundTrip.OrderingRoundTrip | src/query/definitions.rs:443-449 | Every Ordering reads back as itself. |
| DefinitionsRoundTrip.SortingOrderRoundTrip | src/query/definitions.rs:450-457 | Every SortingOrder reads back as itself. |
| DefinitionsRoundTrip.GranularityRoundTrip | src/query/definitions.rs:254-270 | Every Granularity, Duration included, reads back as itself. |
| DefinitionsRoundTrip.LookupMapRoundTrip | src/query/definitions.rs:84-90 | A lookup map, written with "type": "map", reads back as itself. |
| DefinitionsRoundTrip.RegexFnRoundTrip | src/query/definitions.rs:277 | A regex extraction function reads back as itself. |
| DefinitionsRoundTrip.PartialFnRoundTrip | src/query/definitions.rs:279 | A partial extraction function reads back as itself. |
| DefinitionsRoundTrip.SubstringFnRoundTrip | src/query/definitions.rs:282 | A substring extraction function reads back as itself, whether or not its length is set. |
| DefinitionsRoundTrip.TimeFormatFnRoundTrip | src/query/definitions.rs:286 | A timeFormat extraction function reads back as itself, in every combination of its optional fields. |
| DefinitionsRoundTrip.TimeFnRoundTrip | src/query/definitions.rs:288 | A time extraction function reads back as itself. |
| DefinitionsRoundTrip.JavascriptFnRoundTrip | src/query/definitions.rs:290 | A javascript extraction function reads back as itself. |
| DefinitionsRoundTrip.RegisteredLookupFnRoundTrip | src/query/definitions.rs:292 | A registeredLookup extraction function reads back as itself. |
| DefinitionsRoundTrip.LookupFnRoundTrip | src/query/definitions.rs:294 | A lookup extraction function reads back as itself. |
| DefinitionsRoundTrip.CascadeFnRoundTrip | src/query/definitions.rs:297 | A cascade reads back as itself when all of its extraction functions do. |
| DefinitionsRoundTrip.StringFormatFnRoundTrip | src/query/definitions.rs:299 | A stringFormat extraction function reads back as itself. |
| DefinitionsRoundTrip.UpperFnRoundTrip | src/query/definitions.rs:302 | An upper extraction function reads back as itself. |
| DefinitionsRoundTrip.LowerFnRoundTrip | src/query/definitions.rs:305 | A lower extraction function reads back as itself. |
| DefinitionsRoundTrip.BucketFnRoundTrip | src/query/definitions.rs:308 | A bucket extraction function reads back as itself. |
| DefinitionsRoundTrip.ExtractFnRoundTrip | src/query/definitions.rs:272-309 | Every extraction function, including a nested cascade, reads back as itself. The encoding is externally tagged, with the unit variant strlen as a bare string. |
| Definitions.DefaultDimension | src/query/definitions.rs:62-68 | `Dimension::default(d)` is Default with dimension d, output name d and output type STRING. |
| Definitions.RegexDimension | src/query/definitions.rs:70-75 | `Dimension::regex` keeps the given dimension unchanged as its delegate, along with the pattern. |
| Definitions.PrefixDimension | src/query/definitions.rs:76-81 | `Dimension::prefix` keeps the given dimension unchanged as its delegate, along with the prefix. |
| DefinitionsRoundTrip.DefaultDimensionRoundTrip | src/query/definitions.rs:7-12 | A default dimension reads back as itself. |
| DefinitionsRoundTrip.ExtractionDimensionRoundTrip | src/query/definitions.rs:13-19 | An extraction dimension reads back as itself. |
| DefinitionsRoundTrip.ListFilteredDimensionRoundTrip | src/query/definitions.rs:20-25 | A listFiltered dimension reads back exactly when its delegate does. |
| DefinitionsRoundTrip.RegexFilteredDimensionRoundTrip | src/query/definitions.rs:27-31 | A regexFiltered dimension reads back exactly when its delegate does. |
| DefinitionsRoundTrip.PrefixFilteredDimensionRoundTrip | src/query/definitions.rs:32-36 | A prefixFiltered dimension reads back exactly when its delegate does. |
| DefinitionsRoundTrip.LookupMapDimensionFails | src/query/definitions.rs:37-52 | A LookupMap dimension is written under "lookup", so it is read as the Lookup variant, which then fails for want of "output_name". |
| DefinitionsRoundTrip.LookupDimensionRoundTrip | src/query/definitions.rs:47-51 | A Lookup dimension, whose field name keeps its snake_case "output_name", reads back as itself. |
| DefinitionsRoundTrip.DimensionRoundTrip | src/query/definitions.rs:3-52 | A dimension reads back as itself exactly when no LookupMap occurs in it, and otherwise fails. |
| WireTags.DimensionTagRead | src/query/definitions.rs:3-52 | A dimension that decodes was read under the tag of its variant: camelCase variant names, with "lookupMap" for LookupMap. |
| WireTags.DimensionReadTagDiffers | src/query/definitions.rs:37-39 | The tag written and the tag expected agree for every dimension variant except LookupMap. |
| WireTags.DimensionTagShared | src/query/definitions.rs:37-51 | LookupMap and Lookup are both written with "type": "lookup", and such an object can only ever be read as a Lookup. |
| WireTags.FilterTagRead | src/query/definitions.rs:319-381 | A filter that decodes was read under the camelCase tag its encoder writes for that variant. |
| WireTags.AggregationTagRead | src/query/definitions.rs:92-158 | An aggregation that decodes was read under the camelCase tag its encoder writes for that variant. |
| WireTags.DataSourceTagRead | src/query/mod.rs:60-80 | A data source that decodes was read under the camelCase tag its encoder writes for that variant. |
| DefinitionsRoundTrip.FilterQuerySpecRoundTrip | src/query/definitions.rs:428-441 | contains, insensitive_contains and fragment specs read back as themselves. |
| Definitions.SelectorFilter | src/query/definitions.rs:384-390 | `Filter::selector` stores the dimension and value, with no extraction function. |
| Definitions.ColumnComparisonFilter | src/query/definitions.rs:392-396 | `Filter::column_comparison` keeps its dimension list in order and at its length. |
| Definitions.RegexFilter | src/query/definitions.rs:398-403 | `Filter::regex` stores the dimension and pattern. |
| Definitions.JavascriptFilter | src/query/definitions.rs:405-410 | `Filter::javascript` stores the dimension and the function text. |
| Definitions.InFilter | src/query/definitions.rs:412-417 | `Filter::in_values` keeps its values in order and at their length. |
| Definitions.LikeFilter | src/query/definitions.rs:419-426 | `Filter::like` stores the dimension and pattern, with no escape and no extraction function. |
| DefinitionsRoundTrip.SelectorFilterRoundTrip | src/query/definitions.rs:323-328 | A selector filter reads back as itself, with or without an extraction function. |
| DefinitionsRoundTrip.ColumnComparisonFilterRoundTrip | src/query/definitions.rs:329-331 | A columnComparison filter reads back as itself. |
| DefinitionsRoundTrip.RegexFilterRoundTrip | src/query/definitions.rs:332-335 | A regex filter reads back as itself. |
| DefinitionsRoundTrip.JunctionFilterRoundTrip | src/query/definitions.rs:336-341 | An and or or filter reads back when all its operands do. |
| DefinitionsRoundTrip.NotFilterRoundTrip | src/query/definitions.rs:342-344 | A not filter reads back when its operand does. |
| DefinitionsRoundTrip.JavascriptFilterRoundTrip | src/query/definitions.rs:345-348 | A javascript filter reads back as itself. |
| DefinitionsRoundTrip.SearchFilterRoundTrip | src/query/definitions.rs:349-352 | A search filter reads back as itself. |
| DefinitionsRoundTrip.InFilterRoundTrip | src/query/definitions.rs:353-356 | An in filter reads back as itself. |
| DefinitionsRoundTrip.LikeFilterRoundTrip | src/query/definitions.rs:357-363 | A like filter reads back as itself, in every combination of escape and extraction function. |
| DefinitionsRoundTrip.BoundFilterRoundTrip | src/query/definitions.rs:364-373 | A bound filter reads back as itself. |
| DefinitionsRoundTrip.IntervalFilterRoundTrip | src/query/definitions.rs:374-379 | An interval filter reads back as itself. |
| DefinitionsRoundTrip.FilterRoundTrip | src/query/definitions.rs:319-381 | Every filter, nested to any depth, reads back as itself. |
| Definitions.CountAggregation | src/query/definitions.rs:171-175 | `Aggregation::count` builds Count with exactly the given name. |
| Definitions.FieldAggregation | src/query/definitions.rs:176-241 | `long_sum` through `float_first` build the named kind with exactly the given name and field name. |
| DefinitionsRoundTrip.CountAggregationRoundTrip | src/query/definitions.rs:96 | A count aggregation reads back as itself. |
| DefinitionsRoundTrip.OverFieldAggregationRoundTrip | src/query/definitions.rs:97-139 | Each of the 19 name and fieldName aggregations reads back as itself, under its own tag. |
| DefinitionsRoundTrip.StringFirstAggregationRoundTrip | src/query/definitions.rs:127-128 | A stringFirst aggregation reads back as itself. |
| DefinitionsRoundTrip.StringLastAggregationRoundTrip | src/query/definitions.rs:129-130 | A stringLast aggregation reads back as itself. |
| DefinitionsRoundTrip.JavascriptAggregationRoundTrip | src/query/definitions.rs:141-142 | A javascript aggregation reads back as itself. |
| DefinitionsRoundTrip.ThetaSketchAggregationRoundTrip | src/query/definitions.rs:144-145 | A thetaSketch aggregation reads back as itself. |
| DefinitionsRoundTrip.HLLSketchBuildAggregationRoundTrip | src/query/definitions.rs:148-149 | An HLLSketchBuild aggregation, tagged "hLLSketchBuild", reads back as itself. |
| DefinitionsRoundTrip.CardinalityAggregationRoundTrip | src/query/definitions.rs:151-152 | A cardinality aggregation reads back as itself. |
| DefinitionsRoundTrip.HyperUniqueAggregationRoundTrip | src/query/definitions.rs:154-155 | A hyperUnique aggregation reads back as itself. |
| DefinitionsRoundTrip.FilteredAggregationRoundTrip | src/query/definitions.rs:157 | A filtered aggregation reads back when its inner aggregation does. |
| DefinitionsRoundTrip.AggregationRoundTrip | src/query/definitions.rs:92-158 | Every aggregation, nested to any depth, reads back as itself. |
| GroupBySpecs.NewOrderByColumnSpec | src/query/group_by.rs:45-53 | `OrderByColumnSpec::new` stores its three arguments unchanged. |
| GroupBySpecsRoundTrip.OrderByColumnSpecRoundTrip | src/query/group_by.rs:37-43 | An order-by column reads back as itself. |
| GroupBySpecs.EncodeLimitSpec | src/query/group_by.rs:29-35 | A limit spec is written with "type": "default". |
| GroupBySpecsRoundTrip.LimitSpecRoundTrip | src/query/group_by.rs:29-35 | A limit spec reads back as itself. |
| GroupBySpecs.FilterHaving | src/query/group_by.rs:74-76 | `HavingSpec::filter` wraps the filter unchanged. |
| GroupBySpecs.GreaterThanHaving | src/query/group_by.rs:77-82 | `greater_than` stores the aggregation name and value unchanged. |
| GroupBySpecs.EqualToHaving | src/query/group_by.rs:83-88 | `equal_to` stores the aggregation name and value unchanged. |
| GroupBySpecs.LessThanHaving | src/query/group_by.rs:89-94 | `less_than` stores the aggregation name and value unchanged. |
| GroupBySpecsRoundTrip.ByFilterHavingRoundTrip | src/query/group_by.rs:60 | A filter having spec reads back as itself. |
| GroupBySpecsRoundTrip.ComparisonHavingRoundTrip | src/query/group_by.rs:61-63 | A comparison reads back with its threshold as a Float of the same value. |
| GroupBySpecsRoundTrip.IntegerThresholdReadsAsFloat | src/query/group_by.rs:61 | An integer threshold is read back as a Float. |
| GroupBySpecsRoundTrip.DimSelectorHavingRoundTrip | src/query/group_by.rs:64 | A dimSelector reads back as itself exactly when its dimension has no LookupMap and its value is not an Integer. |
| GroupBySpecsRoundTrip.JunctionHavingRoundTrip | src/query/group_by.rs:65-68 | An and or or having spec reads back as itself exactly when all of its operands do. |
| GroupBySpecsRoundTrip.NotHavingRoundTrip | src/query/group_by.rs:69-70 | A not having spec reads back as itself exactly when its operand does. |
| GroupBySpecsRoundTrip.HavingSpecRoundTrip | src/query/group_by.rs:55-71 | A having spec reads back as itself exactly when it has only Float thresholds, no Integer selector value and no LookupMap dimension. |
| GroupBySpecs.FieldAccessPostAggregator | src/query/group_by.rs:148-153 | `field_access` stores its name and field name unchanged. |
| GroupBySpecs.FinalizedFieldAccessPostAggregator | src/query/group_by.rs:154-159 | `finalized_field_access` builds FinalizingFieldAccess with its arguments unchanged. |
| GroupBySpecs.ConstantPostAggregator | src/query/group_by.rs:160-165 | `constant` stores its name and value unchanged. |
| GroupBySpecs.HyperUniqueCardinalityPostAggregator | src/query/group_by.rs:166-170 | `hyper_unique_cardinality` stores the field name unchanged. |
| GroupBySpecsRoundTrip.PostAggregatorRoundTrip | src/query/group_by.rs:133-145 | A post-aggregator reads back as itself exactly when it is not a Constant holding an Integer. |
| GroupBySpecsRoundTrip.ArithmeticUnreadable | src/query/group_by.rs:101-108 | An arithmetic post-aggregation is written with "fn" and no "function" key, so reading it fails for want of "function". |
| GroupBySpecsRoundTrip.JavascriptPostAggregationRoundTrip | src/query/group_by.rs:125-130 | A javascript post-aggregation reads back as itself. |
| GroupBySpecsRoundTrip.ExtremeRoundTrip | src/query/group_by.rs:109-124 | A greatest or least post-aggregation reads back when all its operands do, and fails when one of them fails. |
| GroupBySpecsRoundTrip.PostAggregationRoundTrip | src/query/group_by.rs:97-131 | A post-aggregation reads back as itself exactly when it holds no arithmetic post-aggregation, and otherwise fails. |
| QueryParts.JoinTypeNames | src/query/mod.rs:159-164 | JoinType is written as "INNER" or "LEFT", and only those names are read. |
| QueryParts.JoinTypeRoundTrip | src/query/mod.rs:159-164 | Every JoinType reads back as itself. |
| QueryParts.ResultFormatNames | src/query/scan.rs:22-28 | "list", "compactedList" and "valueVector" are read as exactly their variants. |
| QueryParts.ResultFormatRoundTrip | src/query/scan.rs:22-28 | Every ResultFormat reads back as itself. |
| QueryParts.SearchQuerySpecRoundTrip | src/query/search.rs:25-40 | A search query spec is written with its snake_case tag and camelCase fields, and reads back as itself. |
| QueryParts.ContainsInsensitiveSpec | src/query/search.rs:43-47 | `contains_insensitive` stores the value unchanged. |
| QueryParts.ContainsSpec | src/query/search.rs:49-54 | `constain` stores the value and the case flag unchanged. |
| QueryParts.FragmentSpec | src/query/search.rs:55-60 | `fragment` keeps its values in order and at their length, with the case flag. |
| QueryParts.RegexSpec | src/query/search.rs:62-66 | `regrex` stores the pattern unchanged. |
| QueryParts.IsBothExactly | src/query/time_boundary.rs:25-32 | `is_both` holds exactly for MinMaxTime. |
| QueryParts.TimeBoundTypeNames | src/query/time_boundary.rs:17-23 | "maxTime", "minTime" and "minMaxTime" are read as exactly their variants. |
| QueryParts.TimeBoundTypeRoundTrip | src/query/time_boundary.rs:17-23 | Every bound type reads back as itself. |
| QueryParts.ToIncludeRoundTrip | src/query/segment_metadata.rs:17-24 | The written forms are {"type":"all"}, {"type":"none"} and {"type":"list","columns":[..]}, and each reads back as itself. |
| QueryParts.AnalysisTypeNames | src/query/segment_metadata.rs:26-37 | The camelCase names ("minmax", "timestampSpec", ...) are read as exactly their variants. |
| QueryParts.AnalysisTypesRoundTrip | src/query/segment_metadata.rs:26-37 | A list of analysis types reads back as itself. |
| Queries.TableSource | src/query/mod.rs:134-136 | `DataSource::table` stores the name. |
| Queries.LookupSource | src/query/mod.rs:137-141 | `DataSource::lookup(n)` stores n in the lookup field. |
| Queries.UnionSource | src/query/mod.rs:142-146 | `DataSource::union` keeps its names in order and at their length. |
| Queries.QuerySource | src/query/mod.rs:148-152 | `DataSource::query` wraps the query unchanged. |
| QueriesRoundTrip.TableRoundTrip | src/query/mod.rs:65 | A table data source reads back as itself. |
| QueriesRoundTrip.LookupSourceRoundTrip | src/query/mod.rs:66 | A lookup data source reads back as itself. |
| QueriesRoundTrip.UnionRoundTrip | src/query/mod.rs:67-68 | A union, written under "dataSources", reads back as itself. |
| QueriesRoundTrip.InlineRoundTrip | src/query/mod.rs:69-73 | An inline data source reads back as itself. |
| QueriesRoundTrip.SubqueryRoundTrip | src/query/mod.rs:74-75 | A query data source reads back exactly when its query does. |
| QueriesRoundTrip.JoinRoundTrip | src/query/mod.rs:76-79 | A join reads back when both of its sides do. |
| QueriesRoundTrip.DataSourceRoundTrip | src/query/mod.rs:60-80 | A data source reads back as itself exactly when every query nested in it, at any depth of joins and subqueries, reads back. |
| Queries.EncodeQuery | src/query/mod.rs:18-28 | An untagged query is written as the object of the struct it wraps, with that struct's data source. |
| Queries.TopNFields | src/query/top_n.rs:7-20 | All eight TopN fields are always written, under camelCase names, next to "queryType": "topN". |
| Queries.ScanFields | src/query/scan.rs:6-19 | All Scan fields are always written, under camelCase names, with "queryType": "scan"; an absent filter, limit or ordering is written as null. |
| Queries.SearchFields | src/query/search.rs:9-22 | All Search fields are always written, with "queryType": "search"; an absent sort or filter is written as null. |
| Queries.TimeBoundaryFields | src/query/time_boundary.rs:6-15 | "bound" is written exactly when it is not MinMaxTime, with "queryType": "timeBoundary"; an absent filter is written as null. |
| Queries.SegmentMetadataFields | src/query/segment_metadata.rs:4-15 | "analysisTypes" is written exactly when the list is non-empty, and "merge" and "lenientAggregatorMerge" always are, with "queryType": "segmentMetadata". |
| QueriesRoundTrip.TopNFieldsRoundTrip | src/query/top_n.rs:7-20 | A TopN's fields read back as the TopN exactly when its dimension holds no LookupMap. |
| QueriesRoundTrip.GroupByFieldsPartEntries | src/query/group_by.rs:12-27 | A GroupBy is written with "queryType": "groupBy" and its list fields under camelCase names. |
| QueriesRoundTrip.GroupByFieldsRoundTrip | src/query/group_by.rs:12-27 | A GroupBy's fields read back as the GroupBy exactly when its dimensions, having spec and post-aggregations all do. |
| QueriesRoundTrip.ScanFieldsRoundTrip | src/query/scan.rs:6-19 | A Scan's fields read back as the Scan, with null read back as None. |
| QueriesRoundTrip.SearchFieldsRoundTrip | src/query/search.rs:9-22 | A Search's fields read back as the Search. |
| QueriesRoundTrip.TimeBoundaryFieldsRoundTrip | src/query/time_boundary.rs:11-12 | The fields read back as the TimeBoundary exactly when the bound is not MinMaxTime; a MinMaxTime query fails for want of "bound". |
| QueriesRoundTrip.SegmentMetadataFieldsRoundTrip | src/query/segment_metadata.rs:12-13 | The fields read back exactly when analysisTypes is non-empty; an empty list fails for want of "analysisTypes". |
| Queries.DecodeQueryFrom | src/query/mod.rs:18-28 | Decoding tries the variants in declared order from k, keeps the first that reads, and reports no match when none does. |
| QueriesRoundTrip.FirstSuccess | src/query/mod.rs:18-28 | When every variant before q's fails and q's own struct reads, the untagged decoder returns q. |
| QueriesRoundTrip.EarlierFail | src/query/mod.rs:18-28 | When the decoder returns q, every variant tried before q's failed. |
| QueriesRoundTrip.PicksVariant | src/query/mod.rs:18-28 | The untagged decoder returns q exactly when q's struct reads and every earlier struct fails. |
| QueriesRoundTrip.PicksTopN | src/query/mod.rs:22 | TopN, tried first, is chosen exactly when the object reads as a TopN. |
| QueriesRoundTrip.PicksGroupBy | src/query/mod.rs:23 | GroupBy is chosen exactly when the object reads as one and not as a TopN. |
| QueriesRoundTrip.PicksScan | src/query/mod.rs:24 | Scan is chosen exactly when the object reads as one and not as either earlier struct. |
| QueriesRoundTrip.PicksSearch | src/query/mod.rs:25 | Search is chosen exactly when the object reads as one and not as any earlier struct. |
| QueriesRoundTrip.PicksTimeBoundary | src/query/mod.rs:26 | TimeBoundary is chosen exactly when the object reads as one and not as any earlier struct. |
| QueriesRoundTrip.PicksSegmentMetadata | src/query/mod.rs:27 | SegmentMetadata is chosen exactly when the object reads as one and not as any earlier struct. |
| QueriesRoundTrip.PicksNothing | src/query/mod.rs:18-28 | An object that none of the six structs reads is rejected. |
| QueriesRoundTrip.TopNQueryRoundTrip | src/query/mod.rs:22 | A TopN query reads back exactly when its data source does and its dimension holds no LookupMap. |
| QueriesRoundTrip.GroupByQueryRoundTrip | src/query/mod.rs:23 | A GroupBy query reads back exactly when its data source does and its dimensions, having spec and post-aggregations do. |
| QueriesRoundTrip.ScanQueryRoundTrip | src/query/mod.rs:24 | A Scan query reads back exactly when its data source does. |
| QueriesRoundTrip.SearchQueryRoundTrip | src/query/mod.rs:25 | A Search query reads back exactly when its data source does. |
| QueriesRoundTrip.TimeBoundaryQueryRoundTrip | src/query/mod.rs:26 | A TimeBoundary query reads back exactly when its data source does and its bound is not MinMaxTime. |
| QueriesRoundTrip.SegmentMetadataQueryRoundTrip | src/query/mod.rs:27 | A SegmentMetadata query reads back exactly when its data source does and its analysis types are non-empty. |
| QueriesRoundTrip.QueryRoundTrip | src/query/mod.rs:18-28 | A query reads back as itself exactly when its data sources, nested queries and parts all do. |
| StandaloneQueries.TimeseriesPartEntries | src/query/timeseries.rs:8-21 | A Timeseries is written with "queryType": "timeseries", its data source under "dataSource", its post-aggregations under "postAggregations", and an absent filter or limit as null. |
| StandaloneQueries.TimeseriesPlainEntries | src/query/timeseries.rs:8-21 | granularity, descending, intervals, aggregations and context are always written under their camelCase names. |
| StandaloneQueries.TimeseriesRoundTrip | src/query/timeseries.rs:8-21 | A Timeseries reads back as itself exactly when its data source and post-aggregations do. |
| StandaloneQueries.TimeseriesArithmeticUnreadable | src/query/timeseries.rs:18 | Any arithmetic post-aggregation stops a Timeseries from reading back. |
| StandaloneQueries.EncodeDataSourceMetadata | src/query/mod.rs:165-171 | DataSourceMetadata is written with exactly the keys queryType ("dataSourceMetadata"), dataSource and context. |
| StandaloneQueries.DataSourceMetadataRoundTrip | src/query/mod.rs:165-171 | It reads back as itself exactly when its data source does. |
| Builders.NewJoinBuilder | src/query/mod.rs:91-99 | A new join builder has nothing set except its join type. |
| Builders.JoinLeft | src/query/mod.rs:100-103 | `left` sets only the left side. |
| Builders.JoinRight | src/query/mod.rs:104-108 | `right` sets the right side and the prefix together, and nothing else. |
| Builders.JoinCondition | src/query/mod.rs:109-112 | `condition` sets only the condition. |
| Builders.BuildJoin | src/query/mod.rs:113-130 | `build` gives a Join exactly when left, right, condition and prefix are all set, carrying those values and the join type; either way the builder is left with all four emptied and its join type kept. |
| Builders.JoinBuildTwiceFails | src/query/mod.rs:114-119 | A second `build` on the same builder returns None. |
| Builders.JoinBuilderChain | src/query/mod.rs:90-130 | Setting left, right and condition, in either order, and then building gives the Join of those values. |
| Builders.JoinBuilderMissingPart | src/query/mod.rs:127-129 | Leaving out the left side, the right side or the condition makes `build` return None. |
| Builders.JoinBuilderReachesEvery | src/query/mod.rs:90-130 | Every Join data source can be built through the builder. |
| Builders.NewGroupByBuilder | src/query/group_by.rs:188-202 | A new builder holds the given data source, empty lists and context, no limit, having or filter, and granularity all. |
| Builders.WithDimensions | src/query/group_by.rs:203-206 | `dimensions` replaces the dimensions and nothing else. |
| Builders.WithLimit | src/query/group_by.rs:207-210 | `limit` stores Some(limit) and changes nothing else. |
| Builders.WithHaving | src/query/group_by.rs:211-214 | `having` stores Some(having) and changes nothing else. |
| Builders.WithGranularity | src/query/group_by.rs:215-218 | `granularity` replaces the granularity and nothing else. |
| Builders.WithFilter | src/query/group_by.rs:219-222 | `filter` stores Some(filter) and changes nothing else. |
| Builders.WithAggregations | src/query/group_by.rs:223-226 | `aggregations` replaces the aggregations and nothing else. |
| Builders.WithPostAggregations | src/query/group_by.rs:227-230 | `post_aggregations` replaces the post-aggregations and nothing else. |
| Builders.WithIntervals | src/query/group_by.rs:231-234 | `intervals` keeps its strings in order and at their length, and changes nothing else. |
| Builders.WithSubtotalSpec | src/query/group_by.rs:235-238 | `subtotal_spec` replaces the subtotals and nothing else. |
| Builders.WithContext | src/query/group_by.rs:239-242 | `context` replaces the context and nothing else. |
| Builders.AddContext | src/query/group_by.rs:244-247 | `add_context(k, v)` maps k to v and keeps every other key and value, changing nothing outside the context. |
| Builders.AddContextOverwrites | src/query/group_by.rs:244-247 | Adding the same key twice keeps only the second value. |
| Builders.BuildGroupBy | src/query/group_by.rs:248-262 | `build` copies every builder field into the GroupBy unchanged. |
| Builders.GroupByBuilderReachesEvery | src/query/group_by.rs:187-262 | Every GroupBy can be built through the builder's setters. |
| Builders.GroupBySettersCommute | src/query/group_by.rs:203-247 | Setters of different fields commute. |
| Builders.GroupByBuilderExample | src/query/group_by.rs:188-262 | A builder over the table "wikipedia" with one context entry, as in the crate's group-by example, builds a GroupBy written with "queryType": "groupBy", "granularity": "all" and the table data source. |
| Response.NullTolerantField | src/query/response.rs:94-95 | A field marked `default, deserialize_with = default_for_null` reads as the default when absent or null, and otherwise as its decoder reads it. |
| Response.DecodeListResponse | src/query/response.rs:7-12 | A list response reads exactly when it has a string timestamp and a result list all of whose rows read. |
| Response.ListResponseRoundTrip | src/query/response.rs:7-12 | A list response (TopNResponse and SearchResponse alike) reads back as itself when its rows do. |
| Response.DecodeMetadataResponse | src/query/response.rs:14-19 | A metadata response reads exactly when it has a string timestamp and a readable result. |
| Response.DecodeGroupByResponse | src/query/response.rs:23-28 | A group-by response reads exactly when it has a string timestamp and a readable event. |
| Response.DecodeScanResponse | src/query/response.rs:39-46 | A scan response reads exactly when it has a string segmentId, a string list of columns, and events that all read. |
| Response.ScanResponseRoundTrip | src/query/response.rs:39-46 | A scan response reads back as itself when its events do. |
| Response.DecodeDimValue | src/query/response.rs:30-35 | A search hit reads exactly when its dimension is a string, its value a JsonAny and its count a usize. |
| Response.DecodeMinMaxTime | src/query/response.rs:48-53 | maxTime and minTime are each optional, and either may be absent or null. |
| Response.MinMaxTimeRoundTrip | src/query/response.rs:48-53 | A MinMaxTime reads back as itself, and an empty object reads as two Nones. |
| Response.DecodeTimeBoundaryResponse | src/query/response.rs:55-59 | A time-boundary response reads exactly when it has a string timestamp and a readable MinMaxTime result. |
| Response.DecodeColumnDefinition | src/query/response.rs:61-72 | A column definition reads its kind from "type" and needs hasMultipleValues and size. |
| Response.ColumnDefinitionNotReadable | src/query/response.rs:64-65 | A written column definition cannot be read back: it carries "columnType" but no "type". |
| Response.ColumnDefinitionReadsUnderType | src/query/response.rs:61-72 | With its kind moved under "type", a written column definition reads back as itself, provided neither bound is an Integer. |
| Response.DecodeAggregatorDefinition | src/query/response.rs:73-81 | An aggregator definition reads its kind from "type" along with its name and fieldName. |
| Response.AggregatorDefinitionNotReadable | src/query/response.rs:76-77 | A written aggregator definition cannot be read back: it carries "aggrType" but no "type". |
| Response.AggregatorDefinitionReadsUnderType | src/query/response.rs:73-81 | With its kind moved under "type", a written aggregator definition reads back as itself. |
| Response.DecodeTimestampSpec | src/query/response.rs:83-89 | A timestamp spec needs string column and format, and missingValue is optional. |
| Response.DecodeSegmentMetadataResponse | src/query/response.rs:90-104 | id, columns and timestampSpec are required; absent or null intervals and aggregators read as empty; absent or null queryGranularity, rollup, size and numRows read as None. |
| Response.NullIntervalsReadAsEmpty | src/query/response.rs:94-95 | "intervals": null reads exactly as if the key were absent, and exactly as an empty list. |
| Response.NullAggregatorsReadAsEmpty | src/query/response.rs:102-103 | "aggregators": null reads exactly as if the key were absent, and exactly as an empty object. |
| Response.MinimalSegmentMetadataResponse | src/query/response.rs:90-104 | A response with only id, columns and timestampSpec (intervals and aggregators null) reads with empty lists and maps and no optional values. |
| Client.NewClient | src/client.rs:46-51 | The client's pool holds the given nodes, and its strategy is `default_for` over them: Constant exactly for one node, otherwise RoundRobin from 0. |
| Client.EndpointOf | src/client.rs:55 | The URL is "http://", then the broker, then "/druid/v2/?pretty". |
| Client.EndpointInjective | src/client.rs:55 | Different brokers give different URLs. |
| Client.Url | src/client.rs:54-56 | Each URL built makes exactly one broker selection and addresses the broker it selected, which is one of the pool's. |
| Client.UrlsAlternate | src/client.rs:54-56 | With two nodes, successive URLs address the first node and then the second. |
| Client.HttpQuery | src/client.rs:58-79 | One request goes to the selected URL. Transport failure gives HttpConnection; an unparsable body gives ParsingError; a body with a top-level "error" key gives ServerError with the whole body; any other body is returned unchanged. |
| Client.RunQuery | src/client.rs:126-145 | A render failure gives ParsingError with nothing sent; otherwise exactly one request is sent, and a success means the body was delivered, parsed, was not a server error and decoded to the returned value. |
| Client.HttpConnectionExactly | src/client.rs:66-69 | The result is HttpConnection exactly when a request was sent and its transport failed. |
| Client.ParsingErrorExactly | src/client.rs:58-145 | The result is ParsingError exactly when the request could not be rendered or a delivered body was not JSON. |
| Client.ServerErrorShortCircuits | src/client.rs:73-77 | A body carrying "error" gives ServerError with that body, whatever the typed decoder would have said. |
| Client.TypedReadingDecides | src/client.rs:139-142 | Past the error check, the typed decoder decides: its value is returned, or its failure gives ParsingResponseError. |
| Client.FailureKeepsPool | src/client.rs:126-145 | A call never changes the broker list; the client is either unchanged (nothing was rendered) or has made exactly one selection. |
| Client.QueryRows | src/client.rs:81-86 | `query` sends the untagged encoding of the query, and sends nothing when it cannot be rendered. |
| Client.TopNCall | src/client.rs:87-92 | `top_n` sends the encoded TopN. |
| Client.SearchCall | src/client.rs:94-99 | `search` sends the encoded Search. |
| Client.GroupByCall | src/client.rs:101-106 | `group_by` sends the encoded GroupBy. |
| Client.ScanCall | src/client.rs:107-112 | `scan` sends the encoded Scan. |
| Client.TimeBoundaryCall | src/client.rs:113-118 | `time_boundary` sends the encoded TimeBoundary. |
| Client.SegmentMetadataCall | src/client.rs:119-124 | `segment_metadata` sends the encoded SegmentMetadata. |
| Client.MetadataRequest | src/client.rs:151-154 | `datasource_metadata` builds a DataSourceMetadata with the given data source and an empty context, written with "queryType": "dataSourceMetadata". |
| Client.DatasourceMetadataCall | src/client.rs:147-157 | `datasource_metadata` sends that request. |
| Client.ErrorBodyForEveryKind | src/client.rs:81-124 | For `query` and for the typed call of each query kind, a body whose JSON carries "error" gives ServerError carrying that body. |

## Left out

- HTTP transport, `async` and `reqwest` are left out. Rendering, sending and parsing are the abstract `Client.Collaborators` functions, and the sent requests are recorded in `Client.Outcome`. The `Content-Type` header is not modelled.
- Concurrency in the broker pool is left out: the `Arc<AtomicUsize>` counter and contention in the compare-and-swap retry loop. One selection is one atomic step on the counter, and the strategy value is threaded through the calls.
- `f32` payloads are modelled as Dafny `real`. Float rounding, precision and serde_json's number formatting are not modelled.
- JSON text is left out: whitespace, escaping, key order inside objects, duplicate keys and number formatting. Objects are maps, so the order in which the derived code writes struct fields is not modelled either.
- src/model.rs is not part of this model: lib.rs does not declare it. src/query/model.rs is an older copy of the Dimension, Aggregation, Filter, ExtractFN, JsonNumber and JsonAny definitions, and query/mod.rs does not declare it. group_by.rs still imports Aggregation, JsonAny and JsonNumber through `super::model`, but the model uses the current definitions in definitions.rs and mod.rs for every query struct.
- tests/druid.rs and the test functions in client.rs send queries to a live broker at `localhost:8082`, so they are not modelled; the group-by builder test in client.rs supplies the example values of `Builders.GroupByBuilderExample`. The unit tests of connection.rs (lines 69-93) and serialization/mod.rs (lines 71-131) do no I/O: they are the sources of `Connection.RoundRobinFair`, `Connection.ConstantAlwaysFirst`, `Serialization.NullStringListIsEmpty` and `Serialization.TaggedExamples`.
- src/lib.rs is not modelled: it holds two `extern crate` items (`anyhow`, `serde_json`), the declarations of `client` and `query`, and a trivial `it_works` test. It does not declare `connection` or `serialization`, although client.rs and response.rs use them through `crate::`; the model treats both as part of the crate.
- src/query/timeseries.rs is not declared in query/mod.rs, and no client call sends a `Timeseries`. Its encoding and decoding are still modelled (`StandaloneQueries`) because the struct is complete in the source.
- Array forms are rejected although serde_json's derived visitors accept them. This covers structs and struct variants written as sequences (`DimValue` as `["d", 1.0, 3]`, Granularity's `Duration` as `{"duration": [5]}`) and internally tagged enums written as sequences whose first element is the tag. Variant identifiers given as integer indices instead of names are rejected too. Only the object and name forms that the encoders write are read.
- Connection.Select: the `requires` that the broker list is non-empty models the `unwrap` at connection.rs:47 and 49, which panics on an empty list. `Client.NewClient`, like `DruidClient::new`, accepts an empty list, so the source can reach that panic on its first query. `Connection.Broker`, `Connection.BrokersInTurn`, `Client.Url`, `Client.HttpQuery` and `Client.RunQuery` carry the same `requires` and do not model the panic.
- The `Redaction`, `InvalidHeader` and `Unknown` error variants are never produced, so they are not modelled. The `thiserror` messages and `Debug` output are not modelled either.
- The payload of an error variant (`reqwest::Error`, `serde_json::Error`) is not modelled. Only the error kind is, plus the body of `ServerError`.
- Serialization.Lower: lowercases only the ASCII letters A-Z, while `str::to_lowercase` lowercases all of Unicode. Every variant name the model reads is ASCII.
- Client.RunQuery: the typed response type `T` of the generic calls is a decoder parameter rather than a serde-derived type.
- The queryType tag of a query struct is never checked when reading, as in the derived code. The model therefore says nothing about a mismatched queryType beyond the order in which the untagged decoder tries the structs.
