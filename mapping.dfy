/**
 * RNNForecastingData.findMappings: for every attribute of the model's header,
 * the index of the incoming field of the same name, NO_MATCH when there is
 * none, or TYPE_MISMATCH when the field's type cannot feed the attribute.
 */
module Mapping {
  import opened Common
  import opened Schema

  const NO_MATCH: int := -1
  const TYPE_MISMATCH: int := -2

  /**
   * The index the name lookup built from the incoming fields yields: each
   * field overwrites the entry for its name, so the LAST field of a name wins.
   */
  function LastIndexOf(fields: seq<Field>, name: string): (r: Option<nat>)
    ensures r.Some? ==> r.value < |fields| && fields[r.value].name == name
    ensures r.Some? ==> forall j :: r.value < j < |fields| ==> fields[j].name != name
    ensures r.None? ==> forall j :: 0 <= j < |fields| ==> fields[j].name != name
  {
    if |fields| == 0 then None
    else if fields[|fields| - 1].name == name then Some(|fields| - 1)
    else LastIndexOf(fields[..|fields| - 1], name)
  }

  /** The type-compatibility table between an incoming field and a model attribute. */
  predicate Compatible(f: FieldType, a: AttrType)
  {
    if f.IsNumeric() || f == Boolean then a.IsNumeric()
    else if f == String then a.IsNominal() || a.IsString()
    else if f == Date then a.IsDate()
    else false
  }

  /** The mapping entry of one attribute. */
  function Entry(fields: seq<Field>, attr: Attribute): int
  {
    match LastIndexOf(fields, attr.name)
    case None => NO_MATCH
    case Some(k) => if Compatible(fields[k].ftype, attr.atype) then k else TYPE_MISMATCH
  }

  /** The whole mapping, in attribute order. */
  function Mappings(header: seq<Attribute>, fields: seq<Field>): (m: seq<int>)
    ensures |m| == |header|
    ensures forall i :: 0 <= i < |header| ==> m[i] == Entry(fields, header[i])
  {
    seq(|header|, i requires 0 <= i < |header| => Entry(fields, header[i]))
  }

  function Get(lookup: map<string, nat>, name: string): Option<nat>
  {
    if name in lookup then Some(lookup[name]) else None
  }

  /** Builds the name lookup, then fills the array of entries one attribute at a time. */
  method FindMappings(header: seq<Attribute>, fields: seq<Field>) returns (m: array<int>)
    ensures fresh(m)
    ensures m[..] == Mappings(header, fields)
  {
    m := new int[|header|];
    var lookup: map<string, nat> := map[];
    var i := 0;
    while i < |fields|
      invariant 0 <= i <= |fields|
      invariant forall name :: Get(lookup, name) == LastIndexOf(fields[..i], name)
    {
      var next := lookup[fields[i].name := i];
      forall name ensures Get(next, name) == LastIndexOf(fields[..i + 1], name) {
        assert fields[..i + 1][..i] == fields[..i];
      }
      lookup := next;
      i := i + 1;
    }
    assert fields[..|fields|] == fields;
    var j := 0;
    while j < |header|
      invariant 0 <= j <= |header|
      invariant forall k :: 0 <= k < j ==> m[k] == Entry(fields, header[k])
    {
      var matchIndex := Get(lookup, header[j].name);
      var ok := false;
      var status := NO_MATCH;
      if matchIndex.Some? {
        var tempField := fields[matchIndex.value];
        if tempField.ftype.IsNumeric() || tempField.ftype == Boolean {
          if header[j].atype.IsNumeric() { ok, status := true, 0; } else { status := TYPE_MISMATCH; }
        } else if tempField.ftype == String {
          if header[j].atype.IsNominal() || header[j].atype.IsString() { ok, status := true, 0; } else { status := TYPE_MISMATCH; }
        } else if tempField.ftype == Date {
          if header[j].atype.IsDate() { ok, status := true, 0; } else { status := TYPE_MISMATCH; }
        } else {
          status := TYPE_MISMATCH;
        }
      }
      if ok {
        m[j] := matchIndex.value;
      } else {
        m[j] := status;
      }
      j := j + 1;
    }
  }

  /** Every entry is NO_MATCH, TYPE_MISMATCH or the index of a same-named incoming field. */
  lemma EntryShape(header: seq<Attribute>, fields: seq<Field>, i: nat)
    requires i < |header|
    ensures var e := Mappings(header, fields)[i];
      e == NO_MATCH || e == TYPE_MISMATCH || (0 <= e < |fields| && fields[e].name == header[i].name)
  {
  }

  /** NO_MATCH exactly when no incoming field carries the attribute's name. */
  lemma NoMatchIff(header: seq<Attribute>, fields: seq<Field>, i: nat)
    requires i < |header|
    ensures Mappings(header, fields)[i] == NO_MATCH <==>
      forall j :: 0 <= j < |fields| ==> fields[j].name != header[i].name
  {
    var r := LastIndexOf(fields, header[i].name);
    if r.Some? {
      assert fields[r.value].name == header[i].name;
    }
  }

  /**
   * A non-negative entry is the LAST incoming field of the attribute's name,
   * and it is chosen exactly when that field's type is compatible.
   */
  lemma MatchIsLastCompatible(header: seq<Attribute>, fields: seq<Field>, i: nat)
    requires i < |header|
    ensures Mappings(header, fields)[i] >= 0 <==>
      exists k :: 0 <= k < |fields| && fields[k].name == header[i].name
                  && (forall j :: k < j < |fields| ==> fields[j].name != header[i].name)
                  && Compatible(fields[k].ftype, header[i].atype)
    ensures Mappings(header, fields)[i] >= 0 ==>
      forall j :: Mappings(header, fields)[i] < j < |fields| ==> fields[j].name != header[i].name
  {
    var r := LastIndexOf(fields, header[i].name);
    if r.Some? && Compatible(fields[r.value].ftype, header[i].atype) {
      assert fields[r.value].name == header[i].name;
    }
    if exists k :: 0 <= k < |fields| && fields[k].name == header[i].name
                  && (forall j :: k < j < |fields| ==> fields[j].name != header[i].name)
                  && Compatible(fields[k].ftype, header[i].atype) {
      var k :| 0 <= k < |fields| && fields[k].name == header[i].name
               && (forall j :: k < j < |fields| ==> fields[j].name != header[i].name)
               && Compatible(fields[k].ftype, header[i].atype);
      assert r.Some?;
      assert r.value == k;
    }
  }

  /** TYPE_MISMATCH exactly when a same-named field exists and the last one has an incompatible type. */
  lemma TypeMismatchIff(header: seq<Attribute>, fields: seq<Field>, i: nat)
    requires i < |header|
    ensures Mappings(header, fields)[i] == TYPE_MISMATCH <==>
      exists k :: 0 <= k < |fields| && fields[k].name == header[i].name
                  && (forall j :: k < j < |fields| ==> fields[j].name != header[i].name)
                  && !Compatible(fields[k].ftype, header[i].atype)
  {
    var r := LastIndexOf(fields, header[i].name);
    if r.Some? {
      assert fields[r.value].name == header[i].name;
    }
    if exists k :: 0 <= k < |fields| && fields[k].name == header[i].name
                  && (forall j :: k < j < |fields| ==> fields[j].name != header[i].name)
                  && !Compatible(fields[k].ftype, header[i].atype) {
      var k :| 0 <= k < |fields| && fields[k].name == header[i].name
               && (forall j :: k < j < |fields| ==> fields[j].name != header[i].name)
               && !Compatible(fields[k].ftype, header[i].atype);
      assert r.Some?;
      assert r.value == k;
    }
  }

  /**
   * The compatibility table: numeric and boolean fields feed numeric (and,
   * through Weka's isNumeric, date) attributes; string fields feed nominal and
   * string attributes; date fields feed date attributes; nothing else matches.
   */
  lemma CompatibilityTable(f: FieldType, a: AttrType)
    ensures Compatible(f, a) <==>
      || ((f == Number || f == Integer || f == BigNumber || f == Boolean) && (a.Numeric? || a.DateAttr?))
      || (f == String && (a.Nominal? || a.StringAttr?))
      || (f == Date && a.DateAttr?)
  {
  }

  /** Appending an incoming field of another name leaves an attribute's entry unchanged. */
  lemma MappingIgnoresOtherNames(fields: seq<Field>, extra: Field, attr: Attribute)
    requires extra.name != attr.name
    ensures Entry(fields + [extra], attr) == Entry(fields, attr)
  {
    assert (fields + [extra])[..|fields|] == fields;
  }
}
