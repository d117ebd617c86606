/**
 * The two schemas the step reconciles: the Kettle row metadata of the incoming
 * stream (named, typed fields) and the Weka header the forecaster was trained
 * on (named, typed attributes); the row values, and the numeric feature values
 * Weka works with.
 */
module Schema {
  import opened Common

  /**
   * Kettle value-meta types. Number, Integer and BigNumber are the numeric
   * ones; Kettle's serializable, binary and internet-address types are Other.
   */
  datatype FieldType = Number | Integer | BigNumber | Boolean | String | Date | Other {
    /** ValueMetaInterface.isNumeric */
    predicate IsNumeric() { this == Number || this == Integer || this == BigNumber }
  }

  datatype Field = Field(name: string, ftype: FieldType)

  /** Weka attribute types: a nominal attribute carries its list of labels, a date attribute its format pattern. */
  datatype AttrType = Numeric | Nominal(labels: seq<string>) | StringAttr | DateAttr(pattern: string) | Relational {
    /** weka.core.Attribute.isNumeric holds for numeric AND date attributes. */
    predicate IsNumeric() { Numeric? || DateAttr? }
    predicate IsNominal() { Nominal? }
    predicate IsString() { StringAttr? }
    predicate IsDate() { DateAttr? }
  }

  datatype Attribute = Attribute(name: string, atype: AttrType)

  /**
   * One cell of a Kettle row. BinaryString is the binary-string storage that
   * the step uses for the cells it synthesizes.
   */
  datatype Value =
    | Null
    | Num(r: real)
    | Int(i: int)
    | Bool(b: bool)
    | Text(s: string)
    | Timestamp(millis: int)
    | BinaryString(s: string)

  type Row = seq<Value>

  /** One feature of a Weka instance; Missing stands for Weka's missing-value sentinel (NaN). */
  datatype Feature = Missing | Val(x: real)

  type Instance = seq<Feature>

  /**
   * The conversions Kettle and Weka perform on one cell. Each returns None
   * where the library call throws.
   *   isNull:     ValueMetaInterface.isNull (beside a null reference, e.g. an empty string)
   *   getString, getBoolean, getInteger, getNumber: ValueMetaInterface getters
   *   parseDate:  weka.core.Attribute.parseDate with the attribute's pattern
   */
  datatype Conversions = Conversions(
    isNull: (FieldType, Value) -> bool,
    getString: (FieldType, Value) -> Option<string>,
    getBoolean: (FieldType, Value) -> Option<bool>,
    getInteger: (FieldType, Value) -> Option<int>,
    getNumber: (FieldType, Value) -> Option<real>,
    parseDate: (string, string) -> Option<real>)

  predicate IsNullCell(conv: Conversions, t: FieldType, v: Value)
  {
    v == Null || conv.isNull(t, v)
  }

  function Nulls(n: nat): (r: Row)
    ensures |r| == n && forall k :: 0 <= k < n ==> r[k] == Null
  {
    seq(n, _ => Null)
  }

  /**
   * RowDataUtil.resizeArray: a row at least `width` long is returned as it
   * is; a shorter one is copied into a row whose tail is null. Kettle
   * allocates a few spare null cells beyond `width` when it grows a row; no
   * reader looks past the row format's width, so the model stops at `width`.
   */
  function Resize(row: Row, width: nat): (r: Row)
    ensures |r| == if |row| >= width then |row| else width
    ensures forall k :: 0 <= k < |row| ==> r[k] == row[k]
    ensures forall k :: |row| <= k < |r| ==> r[k] == Null
  {
    if |row| >= width then row else row + Nulls(width - |row|)
  }
}
