/**
 * Discriminator strings of the internally tagged enums: the tag each decoder
 * expects for a variant, compared with the tag its encoder writes.
 */
module WireTags {
  import opened Json
  import opened Definitions
  import opened Queries

  /**
   * The `"type"` a dimension must carry to be read as its variant. Every
   * variant is read under the tag it is written with, except `LookupMap`:
   * its serialize-only rename writes `"lookup"` while reading expects the
   * camelCased variant name.
   */
  function DimensionReadTag(d: Dimension): string
  {
    if d.LookupMap? then "lookupMap" else DimensionTag(d)
  }

  /** The written and the expected tag differ for `LookupMap` alone. */
  lemma DimensionReadTagDiffers(d: Dimension)
    ensures DimensionReadTag(d) == DimensionTag(d) <==> !d.LookupMap?
  {
  }

  /** A dimension that reads back was read under the tag of the variant it became. */
  lemma DimensionTagRead(j: Json)
    ensures DecodeDimension(j).Ok? ==>
              j.Obj? && TagOf(j.fields) == Ok(DimensionReadTag(DecodeDimension(j).value))
  {
  }

  /** Two different dimension variants share the written tag `"lookup"`. */
  lemma DimensionTagShared(a: Dimension, b: Dimension)
    requires a.LookupMap? && b.Lookup?
    ensures EncodeDimension(a).fields["type"] == EncodeDimension(b).fields["type"] == Str("lookup")
    ensures DecodeDimension(EncodeDimension(a)).Ok? ==> DecodeDimension(EncodeDimension(a)).value.Lookup?
  {
    DimensionTagRead(EncodeDimension(a));
  }

  /** A filter that reads back was read under the tag its encoder writes for that variant. */
  lemma FilterTagRead(j: Json)
    ensures DecodeFilter(j).Ok? ==> j.Obj? && TagOf(j.fields) == Ok(FilterTag(DecodeFilter(j).value))
  {
  }

  /** An aggregation that reads back was read under the tag its encoder writes for that variant. */
  lemma AggregationTagRead(j: Json)
    ensures DecodeAggregation(j).Ok? ==>
              j.Obj? && TagOf(j.fields) == Ok(AggregationTag(DecodeAggregation(j).value))
  {
    if DecodeAggregation(j).Ok? {
      var tag := TagOf(j.fields).value;
      var a := DecodeAggregation(j).value;
      assert DecodeAggregationAs(tag, j) == Ok(a);
      if tag == "count" {
        assert a.Count?;
      } else if FieldAggregatorFromName(tag).Some? {
        assert a == OverField(FieldAggregatorFromName(tag).value, a.name, a.fieldName);
      } else if tag == "stringFirst" || tag == "stringLast" {
        assert a.StringFirst? <==> tag == "stringFirst";
      }
    }
  }

  /** A data source that reads back was read under the tag its encoder writes for that variant. */
  lemma DataSourceTagRead(j: Json)
    ensures DecodeDataSource(j).Ok? ==>
              j.Obj? && TagOf(j.fields) == Ok(DataSourceTag(DecodeDataSource(j).value))
  {
  }
}
