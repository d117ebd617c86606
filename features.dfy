/**
 * What RNNForecastingData.constructInstance computes for one incoming row:
 * one feature per model attribute, read through the attribute-to-field
 * mapping and coerced by the attribute's type, every failure giving Missing.
 */
module Features {
  import opened Common
  import opened Schema
  import Mapping

  /** Attribute.indexOfValue: the position of a label, -1 when it is not one. */
  function IndexOfValue(labels: seq<string>, s: string): (r: int)
    ensures -1 <= r < |labels|
    ensures r >= 0 ==> labels[r] == s && forall j :: 0 <= j < r ==> labels[j] != s
    ensures r == -1 ==> s !in labels
  {
    if |labels| == 0 then -1
    else if labels[0] == s then 0
    else
      var k := IndexOfValue(labels[1..], s);
      if k < 0 then -1 else k + 1
  }

  /** The feature for a present, non-null cell v of field type t and attribute type a. */
  function Coerce(a: AttrType, t: FieldType, v: Value, conv: Conversions): Feature
  {
    match a
    case DateAttr(pattern) =>
      (match conv.getString(t, v)
       case None => Missing
       case Some(s) =>
         match conv.parseDate(pattern, s)
         case None => Missing
         case Some(d) => Val(d))
    case Numeric =>
      if t == Boolean then
        (match conv.getBoolean(t, v)
         case None => Missing
         case Some(b) => Val(if b then 1.0 else 0.0))
      else if t == Integer then
        (match conv.getInteger(t, v)
         case None => Missing
         case Some(n) => Val(n as real))
      else
        (match conv.getNumber(t, v)
         case None => Missing
         case Some(x) => Val(x))
    case Nominal(labels) =>
      (match conv.getString(t, v)
       case None => Missing
       case Some(s) =>
         var k := IndexOfValue(labels, s);
         if k < 0 then Missing else Val(k as real))
    case StringAttr =>
      if conv.getString(t, v).Some? then Val(0.0) else Missing
    case Relational => Missing
  }

  /**
   * The feature of attribute a whose mapping entry is m. A negative entry, a
   * cell or field the entry does not reach (the exception is caught), and a
   * null cell all give Missing.
   */
  function FeatureOf(a: Attribute, fields: seq<Field>, row: Row, m: int, conv: Conversions): Feature
  {
    if m < 0 || m >= |row| || m >= |fields| then Missing
    else if IsNullCell(conv, fields[m].ftype, row[m]) then Missing
    else Coerce(a.atype, fields[m].ftype, row[m], conv)
  }

  /** The feature vector of one row. */
  function BuildVector(header: seq<Attribute>, fields: seq<Field>, row: Row, mapping: seq<int>, conv: Conversions): (r: Instance)
    requires |mapping| >= |header|
    ensures |r| == |header|
  {
    seq(|header|, i requires 0 <= i < |header| => FeatureOf(header[i], fields, row, mapping[i], conv))
  }

  /** Attribute i is a string attribute whose cell was read as a string. */
  predicate WritesString(header: seq<Attribute>, fields: seq<Field>, row: Row, mapping: seq<int>, conv: Conversions, i: int)
    requires |mapping| >= |header|
  {
    && 0 <= i < |header|
    && header[i].atype.StringAttr?
    && 0 <= mapping[i] < |row| && mapping[i] < |fields|
    && !IsNullCell(conv, fields[mapping[i]].ftype, row[mapping[i]])
    && conv.getString(fields[mapping[i]].ftype, row[mapping[i]]).Some?
  }

  /** The values the attributes below n receive through Attribute.setStringValue. */
  function StringWrites(header: seq<Attribute>, fields: seq<Field>, row: Row, mapping: seq<int>, conv: Conversions, n: nat): map<nat, string>
    requires |mapping| >= |header|
  {
    if n == 0 then map[]
    else if WritesString(header, fields, row, mapping, conv, n - 1)
    then StringWrites(header, fields, row, mapping, conv, n - 1)[n - 1 := conv.getString(fields[mapping[n - 1]].ftype, row[mapping[n - 1]]).value]
    else StringWrites(header, fields, row, mapping, conv, n - 1)
  }

  /**
   * Proof helper for the fill loop of constructInstance: extending the range
   * by one attribute adds that attribute's write, if it makes one.
   */
  lemma StringWritesNext(header: seq<Attribute>, fields: seq<Field>, row: Row, mapping: seq<int>, conv: Conversions, i: nat)
    requires |mapping| >= |header|
    ensures StringWrites(header, fields, row, mapping, conv, i + 1) ==
      if WritesString(header, fields, row, mapping, conv, i)
      then StringWrites(header, fields, row, mapping, conv, i)[i := conv.getString(fields[mapping[i]].ftype, row[mapping[i]]).value]
      else StringWrites(header, fields, row, mapping, conv, i)
  {
  }

  /** The vectors of a batch of rows, in row order. */
  function Batch(header: seq<Attribute>, fields: seq<Field>, rows: seq<Row>, mapping: seq<int>, conv: Conversions): (b: seq<Instance>)
    requires |mapping| >= |header|
    ensures |b| == |rows|
  {
    seq(|rows|, k requires 0 <= k < |rows| => BuildVector(header, fields, rows[k], mapping, conv))
  }

  lemma BatchSnoc(header: seq<Attribute>, fields: seq<Field>, rows: seq<Row>, mapping: seq<int>, conv: Conversions, k: nat)
    requires |mapping| >= |header| && k < |rows|
    ensures Batch(header, fields, rows[..k + 1], mapping, conv)
      == Batch(header, fields, rows[..k], mapping, conv) + [BuildVector(header, fields, rows[k], mapping, conv)]
  {
    assert rows[..k + 1][..k] == rows[..k];
  }

  /** The string values a batch leaves in the header: later rows overwrite earlier ones. */
  function BatchStringWrites(header: seq<Attribute>, fields: seq<Field>, rows: seq<Row>, mapping: seq<int>, conv: Conversions): map<nat, string>
    requires |mapping| >= |header|
  {
    if |rows| == 0 then map[]
    else BatchStringWrites(header, fields, rows[..|rows| - 1], mapping, conv)
         + StringWrites(header, fields, rows[|rows| - 1], mapping, conv, |header|)
  }

  lemma BatchStringWritesSnoc(header: seq<Attribute>, fields: seq<Field>, rows: seq<Row>, mapping: seq<int>,
                              conv: Conversions, k: nat)
    requires |mapping| >= |header| && k < |rows|
    ensures BatchStringWrites(header, fields, rows[..k + 1], mapping, conv)
      == BatchStringWrites(header, fields, rows[..k], mapping, conv) + StringWrites(header, fields, rows[k], mapping, conv, |header|)
  {
    assert rows[..k + 1][..k] == rows[..k];
  }

  /**
   * Proof helper for the batch loop of generateForecast, not a property of the
   * step: merging string writes in two steps is merging them at once.
   */
  lemma MergeAssoc(a: map<nat, string>, b: map<nat, string>, c: map<nat, string>)
    ensures a + (b + c) == (a + b) + c
  {
  }

  /**
   * A feature is present only if its entry is a matched index that reaches a
   * non-null cell and the attribute type is one the step handles.
   */
  lemma PresentOnlyWhenMatched(a: Attribute, fields: seq<Field>, row: Row, m: int, conv: Conversions)
    ensures FeatureOf(a, fields, row, m, conv).Val? ==>
      && 0 <= m < |row| && m < |fields|
      && !IsNullCell(conv, fields[m].ftype, row[m])
      && !a.atype.Relational?
  {
  }

  /** A row of nulls gives a vector of missing values, whatever the mapping. */
  lemma AllNullRowIsMissing(header: seq<Attribute>, fields: seq<Field>, row: Row, mapping: seq<int>, conv: Conversions)
    requires |mapping| >= |header|
    requires forall k :: 0 <= k < |row| ==> row[k] == Null
    ensures forall i :: 0 <= i < |header| ==> BuildVector(header, fields, row, mapping, conv)[i] == Missing
  {
  }

  /**
   * Coercion codes: a boolean gives 1.0 or 0.0, an integer its value, a
   * nominal value the position of its label, and a string attribute 0.0.
   */
  lemma CoercionCodes(a: AttrType, t: FieldType, v: Value, conv: Conversions)
    ensures a.Numeric? && t == Boolean && conv.getBoolean(t, v).Some? ==>
      Coerce(a, t, v, conv) == Val(if conv.getBoolean(t, v).value then 1.0 else 0.0)
    ensures a.Numeric? && t == Integer && conv.getInteger(t, v).Some? ==>
      Coerce(a, t, v, conv) == Val(conv.getInteger(t, v).value as real)
    ensures a.Nominal? && conv.getString(t, v).Some? ==>
      (conv.getString(t, v).value in a.labels <==> Coerce(a, t, v, conv).Val?)
    ensures a.Nominal? && Coerce(a, t, v, conv).Val? ==>
      exists k :: 0 <= k < |a.labels| && Coerce(a, t, v, conv).x == k as real
                  && a.labels[k] == conv.getString(t, v).value
    ensures a.StringAttr? && conv.getString(t, v).Some? ==> Coerce(a, t, v, conv) == Val(0.0)
    ensures a.Numeric? && t != Boolean && t != Integer && conv.getNumber(t, v).Some? ==>
      Coerce(a, t, v, conv) == Val(conv.getNumber(t, v).value)
    ensures a.DateAttr? && conv.getString(t, v).Some? && conv.parseDate(a.pattern, conv.getString(t, v).value).Some? ==>
      Coerce(a, t, v, conv) == Val(conv.parseDate(a.pattern, conv.getString(t, v).value).value)
  {
    if a.Nominal? && Coerce(a, t, v, conv).Val? {
      var k := IndexOfValue(a.labels, conv.getString(t, v).value);
      assert 0 <= k < |a.labels| && Coerce(a, t, v, conv).x == k as real;
    }
  }

  /** Every failed conversion gives Missing and nothing else. */
  lemma FailedConversionIsMissing(a: AttrType, t: FieldType, v: Value, conv: Conversions)
    ensures (a.DateAttr? || a.Nominal? || a.StringAttr?) && conv.getString(t, v).None? ==> Coerce(a, t, v, conv) == Missing
    ensures a.Numeric? && t == Boolean && conv.getBoolean(t, v).None? ==> Coerce(a, t, v, conv) == Missing
    ensures a.Numeric? && t == Integer && conv.getInteger(t, v).None? ==> Coerce(a, t, v, conv) == Missing
    ensures a.Numeric? && t != Boolean && t != Integer && conv.getNumber(t, v).None? ==> Coerce(a, t, v, conv) == Missing
    ensures a.DateAttr? && conv.getString(t, v).Some? && conv.parseDate(a.pattern, conv.getString(t, v).value).None? ==>
      Coerce(a, t, v, conv) == Missing
    ensures a.Relational? ==> Coerce(a, t, v, conv) == Missing
  {
  }

  /** The vector reads only the cells the mapping points at: rows that agree there give the same vector. */
  lemma VectorReadsOnlyMappedCells(header: seq<Attribute>, fields: seq<Field>, r1: Row, r2: Row, mapping: seq<int>, conv: Conversions)
    requires |mapping| >= |header|
    requires |r1| == |r2|
    requires forall i :: 0 <= i < |header| && 0 <= mapping[i] < |r1| ==> r1[mapping[i]] == r2[mapping[i]]
    ensures BuildVector(header, fields, r1, mapping, conv) == BuildVector(header, fields, r2, mapping, conv)
  {
    var v1 := BuildVector(header, fields, r1, mapping, conv);
    var v2 := BuildVector(header, fields, r2, mapping, conv);
    forall i | 0 <= i < |header| ensures v1[i] == v2[i] {
      if 0 <= mapping[i] < |r1| {
        assert r1[mapping[i]] == r2[mapping[i]];
      }
    }
  }

  /**
   * With the mapping findMappings computes, a present feature was read from the
   * last incoming field carrying the attribute's name, and that field's type
   * is compatible with the attribute.
   */
  lemma PresentFeatureComesFromMatchedField(header: seq<Attribute>, fields: seq<Field>, row: Row, conv: Conversions, i: nat)
    requires i < |header|
    requires BuildVector(header, fields, row, Mapping.Mappings(header, fields), conv)[i].Val?
    ensures var m := Mapping.Mappings(header, fields)[i];
      && 0 <= m < |fields| && m < |row|
      && fields[m].name == header[i].name
      && Mapping.Compatible(fields[m].ftype, header[i].atype)
      && forall j :: m < j < |fields| ==> fields[j].name != header[i].name
  {
    Mapping.MatchIsLastCompatible(header, fields, i);
  }
}
