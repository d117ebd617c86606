/**
 * The pure parts of RNNForecastingData.generateForecast: the class, date and
 * model-date column indexes, the shape of the result, and the complete
 * outcome of one forecast run (its result and the calls it makes on the
 * forecaster), given what the forecaster computes.
 */
module Assembly {
  import opened Common
  import opened Schema
  import opened Classifier
  import Features
  import Mapping

  /** Instances.numClasses with the class at attribute 0: the labels of a nominal class, else 1. */
  function NumClasses(header: seq<Attribute>): (r: nat)
    requires |header| > 0
    ensures r >= 1 || header[0].atype.Nominal?
  {
    if header[0].atype.Nominal? then |header[0].atype.labels| else 1
  }

  /**
   * classIndex after the loop over the first n positions: the LAST position i
   * whose mapping entry equals the model's class index c, or 0. The position
   * indexes the per-attribute mapping, and is then used as an output column.
   */
  function ClassIndexOf(mapping: seq<int>, n: nat, c: int): (r: nat)
    requires n <= |mapping|
    ensures (exists i :: 0 <= i < n && mapping[i] == c) ==>
      r < n && mapping[r] == c && forall j :: r < j < n ==> mapping[j] != c
    ensures (forall i :: 0 <= i < n ==> mapping[i] != c) ==> r == 0
  {
    if n == 0 then 0
    else if mapping[n - 1] == c then n - 1
    else ClassIndexOf(mapping, n - 1, c)
  }

  /** dateIndex after the same loop: the LAST position below n holding a date attribute, or 0. */
  function DateIndexOf(header: seq<Attribute>, n: nat): (r: nat)
    requires n <= |header|
    ensures (exists i :: 0 <= i < n && header[i].atype.DateAttr?) ==>
      r < n && header[r].atype.DateAttr? && forall j :: r < j < n ==> !header[j].atype.DateAttr?
    ensures (forall i :: 0 <= i < n ==> !header[i].atype.DateAttr?) ==> r == 0
  {
    if n == 0 then 0
    else if header[n - 1].atype.DateAttr? then n - 1
    else DateIndexOf(header, n - 1)
  }

  /** The FIRST date attribute of the header, or 0 when there is none. */
  function ModelDateIndexOf(header: seq<Attribute>): (r: nat)
    ensures |header| > 0 ==> r < |header|
    ensures (exists i :: 0 <= i < |header| && header[i].atype.DateAttr?) ==>
      header[r].atype.DateAttr? && forall j :: 0 <= j < r ==> !header[j].atype.DateAttr?
    ensures (forall i :: 0 <= i < |header| ==> !header[i].atype.DateAttr?) ==> r == 0
  {
    if |header| == 0 then 0
    else if header[0].atype.DateAttr? then 0
    else if (forall i :: 0 <= i < |header| ==> !header[i].atype.DateAttr?) then 0
    else 1 + ModelDateIndexOf(header[1..])
  }

  /**
   * The loop over the incoming field positions. Position i reads mapping[i]
   * first and then the batch's attribute i, so more incoming fields than
   * attributes fail.
   */
  method ClassAndDateIndexes(mapping: seq<int>, header: seq<Attribute>, nFields: nat, modelClassIndex: int)
    returns (r: Result<(nat, nat)>)
    requires |mapping| == |header|
    ensures nFields > |header| ==> r == Err(IndexOutOfBounds)
    ensures nFields <= |header| ==> r == Ok((ClassIndexOf(mapping, nFields, modelClassIndex), DateIndexOf(header, nFields)))
  {
    var dateIndex: nat := 0;
    var classIndex: nat := 0;
    var i := 0;
    while i < nFields
      invariant 0 <= i <= nFields && i <= |header|
      invariant classIndex == ClassIndexOf(mapping, i, modelClassIndex)
      invariant dateIndex == DateIndexOf(header, i)
    {
      if i >= |mapping| {
        return Err(IndexOutOfBounds);
      }
      if mapping[i] == modelClassIndex {
        classIndex := i;
      }
      if header[i].atype.DateAttr? {
        dateIndex := i;
      }
      i := i + 1;
    }
    r := Ok((classIndex, dateIndex));
  }

  /** The loop that stops at the first date attribute. */
  method ModelDateIndex(header: seq<Attribute>) returns (modelDateIndex: nat)
    ensures |header| > 0 ==> modelDateIndex < |header|
    ensures (exists i :: 0 <= i < |header| && header[i].atype.DateAttr?) ==>
      header[modelDateIndex].atype.DateAttr? && forall j :: 0 <= j < modelDateIndex ==> !header[j].atype.DateAttr?
    ensures (forall i :: 0 <= i < |header| ==> !header[i].atype.DateAttr?) ==> modelDateIndex == 0
  {
    modelDateIndex := 0;
    var i := 0;
    while i < |header|
      invariant 0 <= i <= |header|
      invariant modelDateIndex == 0
      invariant forall j :: 0 <= j < i ==> !header[j].atype.DateAttr?
    {
      if header[i].atype.DateAttr? {
        modelDateIndex := i;
        break;
      }
      i := i + 1;
    }
  }

  /**
   * A forecast row: an array of `width` nulls in which the prediction is
   * stored at classIndex and then the date at dateIndex (so the date wins when
   * the two columns coincide).
   */
  function ForecastRow(width: nat, classIndex: nat, dateIndex: nat, pred: string, date: string): (r: Row)
    requires classIndex < width && dateIndex < width
    ensures |r| == width
    ensures r[dateIndex] == BinaryString(date)
    ensures classIndex != dateIndex ==> r[classIndex] == BinaryString(pred)
    ensures forall j :: 0 <= j < width && j != classIndex && j != dateIndex ==> r[j] == Null
  {
    Nulls(width)[classIndex := BinaryString(pred)][dateIndex := BinaryString(date)]
  }

  /**
   * A step whose forecast is missing, a forecast without a first prediction,
   * an empty input, or a class or date column outside the forecast rows
   * makes the prediction loop throw.
   */
  predicate AssemblyFails(n: nat, steps: nat, width: nat, classIndex: nat, dateIndex: nat, preds: seq<seq<real>>)
  {
    steps > 0 &&
      (n == 0 || classIndex >= width || dateIndex >= width || |preds| < steps
       || exists i :: 0 <= i < steps && |preds[i]| == 0)
  }

  /** The input rows, each resized to the output width. */
  function ResizedRows(rows: seq<Row>, outWidth: nat): (r: seq<Row>)
    ensures |r| == |rows| && forall k :: 0 <= k < |rows| ==> r[k] == Resize(rows[k], outWidth)
  {
    seq(|rows|, k requires 0 <= k < |rows| => Resize(rows[k], outWidth))
  }

  /** One forecast row per date, holding the first prediction of its step. */
  function ForecastRows(width: nat, classIndex: nat, dateIndex: nat, preds: seq<seq<real>>,
                        dates: seq<string>, show: real -> string): (r: seq<Row>)
    requires classIndex < width && dateIndex < width && |preds| >= |dates|
    requires forall i :: 0 <= i < |dates| ==> |preds[i]| > 0
    ensures |r| == |dates|
    ensures forall i :: 0 <= i < |dates| ==> r[i] == ForecastRow(width, classIndex, dateIndex, show(preds[i][0]), dates[i])
  {
    seq(|dates|, i requires 0 <= i < |dates| => ForecastRow(width, classIndex, dateIndex, show(preds[i][0]), dates[i]))
  }

  /** The result array: the input rows resized to the output width, then one row per forecast step. */
  function AssembleOf(rows: seq<Row>, outWidth: nat, width: nat, classIndex: nat, dateIndex: nat,
                      preds: seq<seq<real>>, dates: seq<string>, show: real -> string): Result<seq<Row>>
  {
    if AssemblyFails(|rows|, |dates|, width, classIndex, dateIndex, preds) then Err(IndexOutOfBounds)
    else if |dates| == 0 then Ok(ResizedRows(rows, outWidth))
    else Ok(ResizedRows(rows, outWidth) + ForecastRows(width, classIndex, dateIndex, preds, dates, show))
  }

  /** Allocates the result array and fills it, input rows first, then the forecast rows. */
  method AssembleRows(rows: seq<Row>, outWidth: nat, width: nat, classIndex: nat, dateIndex: nat,
                      preds: seq<seq<real>>, dates: seq<string>, show: real -> string)
    returns (r: Result<seq<Row>>)
    ensures r == AssembleOf(rows, outWidth, width, classIndex, dateIndex, preds, dates, show)
  {
    var result := new Row[|dates| + |rows|](_ => Nulls(width));
    CopyResized(result, rows, outWidth);
    var ok := FillForecasts(result, |rows|, width, classIndex, dateIndex, preds, dates, show);
    if !ok {
      return Err(IndexOutOfBounds);
    }
    r := Ok(result[..]);
    Assembled(result[..], rows, outWidth, width, classIndex, dateIndex, preds, dates, show);
  }

  /** The first loop of the assembly: the input rows, resized, at the front of the array. */
  method CopyResized(result: array<Row>, rows: seq<Row>, outWidth: nat)
    requires result.Length >= |rows|
    modifies result
    ensures forall k :: 0 <= k < |rows| ==> result[k] == Resize(rows[k], outWidth)
    ensures forall k :: |rows| <= k < result.Length ==> result[k] == old(result[k])
  {
    var i := 0;
    while i < |rows|
      invariant 0 <= i <= |rows|
      invariant forall k :: 0 <= k < i ==> result[k] == Resize(rows[k], outWidth)
      invariant forall k :: |rows| <= k < result.Length ==> result[k] == old(result[k])
    {
      result[i] := Resize(rows[i], outWidth);
      i := i + 1;
    }
  }

  /**
   * The second loop of the assembly: the prediction and the date of each step
   * stored into the null row after the n input rows; false where the loop
   * throws.
   */
  method FillForecasts(result: array<Row>, n: nat, width: nat, classIndex: nat, dateIndex: nat,
                       preds: seq<seq<real>>, dates: seq<string>, show: real -> string)
    returns (ok: bool)
    requires result.Length == n + |dates|
    requires forall k :: n <= k < result.Length ==> result[k] == Nulls(width)
    modifies result
    ensures forall k :: 0 <= k < n ==> result[k] == old(result[k])
    ensures ok <==> !AssemblyFails(n, |dates|, width, classIndex, dateIndex, preds)
    ensures ok ==> forall k :: 0 <= k < |dates| ==> |preds[k]| > 0
    ensures ok ==> forall k :: 0 <= k < |dates| ==>
      result[n + k] == ForecastRow(width, classIndex, dateIndex, show(preds[k][0]), dates[k])
  {
    var i := 0;
    while i < |dates|
      invariant 0 <= i <= |dates|
      invariant i > 0 ==> n > 0 && classIndex < width && dateIndex < width && |preds| >= i
      invariant forall k :: 0 <= k < n ==> result[k] == old(result[k])
      invariant forall k :: 0 <= k < i ==> |preds[k]| > 0
      invariant forall k :: 0 <= k < i ==>
        result[n + k] == ForecastRow(width, classIndex, dateIndex, show(preds[k][0]), dates[k])
      invariant forall k :: n + i <= k < result.Length ==> result[k] == Nulls(width)
    {
      if n == 0 || i >= |preds| || |preds[i]| == 0 || classIndex >= width || dateIndex >= width {
        return false;
      }
      var pred := show(preds[i][0]);
      var row := result[i + n];
      row := row[classIndex := BinaryString(pred)];
      row := row[dateIndex := BinaryString(dates[i])];
      assert row == ForecastRow(width, classIndex, dateIndex, pred, dates[i]);
      result[i + n] := row;
      i := i + 1;
    }
    ok := true;
  }

  /** An array filled as AssembleRows fills it holds what AssembleOf describes. */
  lemma Assembled(s: seq<Row>, rows: seq<Row>, outWidth: nat, width: nat, classIndex: nat, dateIndex: nat,
                  preds: seq<seq<real>>, dates: seq<string>, show: real -> string)
    requires |s| == |rows| + |dates|
    requires |dates| > 0 ==> |rows| > 0 && classIndex < width && dateIndex < width && |preds| >= |dates|
    requires forall k :: 0 <= k < |dates| ==> |preds[k]| > 0
    requires forall k :: 0 <= k < |rows| ==> s[k] == Resize(rows[k], outWidth)
    requires forall k :: 0 <= k < |dates| ==>
      s[|rows| + k] == ForecastRow(width, classIndex, dateIndex, show(preds[k][0]), dates[k])
    ensures AssembleOf(rows, outWidth, width, classIndex, dateIndex, preds, dates, show) == Ok(s)
  {
    assert !AssemblyFails(|rows|, |dates|, width, classIndex, dateIndex, preds);
    if |dates| > 0 {
      var t := ResizedRows(rows, outWidth) + ForecastRows(width, classIndex, dateIndex, preds, dates, show);
      forall k | 0 <= k < |s| ensures s[k] == t[k] {
        if k >= |rows| {
          assert s[|rows| + (k - |rows|)] == s[k];
        }
      }
      assert s == t;
    } else {
      assert s == ResizedRows(rows, outWidth);
    }
  }

  /** The outcome of one forecast run, and the forecaster calls it makes in order. */
  datatype Run = Run(result: Result<seq<Row>>, calls: seq<Call>)

  /**
   * generateForecast as a whole, for a header with class attribute 0, the
   * mapping, the incoming fields, the output width, the buffered rows, the raw
   * steps-to-forecast text, the conversions and Double.toString.
   */
  function ForecastRun(header: seq<Attribute>, oracle: Oracle, mapping: seq<int>, fields: seq<Field>,
                       outWidth: nat, rows: seq<Row>, stepsText: string, conv: Conversions,
                       show: real -> string): Run
    requires |mapping| == |header|
  {
    if |header| == 0 then Run(Err(IllegalArgument), [])
    else RunOnBatch(header, oracle, mapping, fields, outWidth, rows, Features.Batch(header, fields, rows, mapping, conv), show, stepsText)
  }

  /** The run once the class index is set and the rows are turned into the batch of instances. */
  function RunOnBatch(header: seq<Attribute>, oracle: Oracle, mapping: seq<int>, fields: seq<Field>,
                      outWidth: nat, rows: seq<Row>, batch: seq<Instance>, show: real -> string, stepsText: string): Run
    requires |mapping| == |header| > 0
  {
    if !oracle.accepts(batch) then Run(Err(ForecasterFailure), [Primed(|rows|)])
    else PrimedRun(header, oracle, mapping, fields, outWidth, rows, batch, show, stepsText)
  }

  /**
   * The run once the forecaster has accepted the batch: the class and date
   * columns, the step count, then the steps.
   */
  function PrimedRun(header: seq<Attribute>, oracle: Oracle, mapping: seq<int>, fields: seq<Field>,
                     outWidth: nat, rows: seq<Row>, batch: seq<Instance>, show: real -> string, stepsText: string): Run
    requires |mapping| == |header| > 0
  {
      var n := |rows|;
      if |fields| > |header| then Run(Err(IndexOutOfBounds), [Primed(n)])
      else
        var classIndex := ClassIndexOf(mapping, |fields|, 0);
        var dateIndex := DateIndexOf(header, |fields|);
        var modelDateIndex := ModelDateIndexOf(header);
        match ParseInt(stepsText)
        case None => Run(Err(NumberFormat), [Primed(n)])
        case Some(steps) =>
          if n == 0 then Run(Err(IndexOutOfBounds), [Primed(n)])
          else StepsRun(header, oracle, outWidth, rows, batch, show, steps, classIndex, dateIndex)
  }

  /**
   * The run once the forecaster is primed with the batch and the step count is
   * known: the dates, the forecast and the assembled rows.
   */
  function StepsRun(header: seq<Attribute>, oracle: Oracle, outWidth: nat, rows: seq<Row>, batch: seq<Instance>,
                    show: real -> string, steps: int, classIndex: nat, dateIndex: nat): Run
    requires |header| > 0
  {
    var n := |rows|;
    match ForecastDatesOf(header[ModelDateIndexOf(header)], oracle.currentTime(batch), oracle, steps)
    case Err(e) => Run(Err(e), [Primed(n), DatesRequested(steps)])
    case Ok(dates) =>
      var calls := [Primed(n), DatesRequested(steps), Forecasted(steps)];
      match oracle.predict(batch, steps)
      case None => Run(Err(ForecasterFailure), calls)
      case Some(preds) =>
        Run(AssembleOf(rows, outWidth, NumClasses(header) + 1, classIndex, dateIndex, preds, dates, show), calls)
  }

  /**
   * A successful run primes the forecaster with every buffered row, then asks
   * for the dates, then forecasts, with the same step count; a failed run
   * makes a prefix of those calls.
   */
  lemma CallOrder(header: seq<Attribute>, oracle: Oracle, mapping: seq<int>, fields: seq<Field>,
                  outWidth: nat, rows: seq<Row>, stepsText: string, conv: Conversions, show: real -> string)
    requires |mapping| == |header|
    ensures var run := ForecastRun(header, oracle, mapping, fields, outWidth, rows, stepsText, conv, show);
      run.result.Ok? ==>
        ParseInt(stepsText).Some? &&
        run.calls == [Primed(|rows|), DatesRequested(ParseInt(stepsText).value), Forecasted(ParseInt(stepsText).value)]
    ensures var run := ForecastRun(header, oracle, mapping, fields, outWidth, rows, stepsText, conv, show);
      |run.calls| <= 3 && (|header| > 0 <==> |run.calls| > 0) && (|run.calls| > 0 ==> run.calls[0] == Primed(|rows|))
  {
  }

  /**
   * A successful run returns the n buffered rows, each resized to the output
   * width, followed by one row per forecast step; a forecast row is
   * NumClasses + 1 wide whatever the output width, holds the first prediction
   * of its step at the class column, the step's date at the date column
   * (which wins when the two columns coincide), and nulls elsewhere.
   */
  lemma ResultShape(header: seq<Attribute>, oracle: Oracle, mapping: seq<int>, fields: seq<Field>,
                    outWidth: nat, rows: seq<Row>, stepsText: string, conv: Conversions, show: real -> string)
    requires |mapping| == |header|
    requires ForecastRun(header, oracle, mapping, fields, outWidth, rows, stepsText, conv, show).result.Ok?
    ensures
      var out := ForecastRun(header, oracle, mapping, fields, outWidth, rows, stepsText, conv, show).result.value;
      var batch := Features.Batch(header, fields, rows, mapping, conv);
      var steps := ParseInt(stepsText).value;
      var classIndex := ClassIndexOf(mapping, |fields|, 0);
      var dateIndex := DateIndexOf(header, |fields|);
      var width := NumClasses(header) + 1;
      && |header| > 0 && |rows| > 0 && steps >= 0
      && |out| == |rows| + steps
      && (forall k :: 0 <= k < |rows| ==> out[k] == Resize(rows[k], outWidth))
      && (steps > 0 ==> classIndex < width && dateIndex < width)
      && var preds := oracle.predict(batch, steps);
      && preds.Some? && |preds.value| >= steps
      && forall i :: 0 <= i < steps ==>
           && |preds.value[i]| > 0
           && out[|rows| + i] == ForecastRow(width, classIndex, dateIndex, show(preds.value[i][0]),
                ForecastDatesOf(header[ModelDateIndexOf(header)], oracle.currentTime(batch), oracle, steps).value[i])
  {
    var batch := Features.Batch(header, fields, rows, mapping, conv);
    var steps := ParseInt(stepsText).value;
    var dates := ForecastDatesOf(header[ModelDateIndexOf(header)], oracle.currentTime(batch), oracle, steps).value;
    assert |dates| == steps;
  }

  /**
   * A step count of 0 still asks the forecaster for dates and a forecast (of
   * zero steps); the output is then the buffered rows alone.
   */
  lemma ZeroStepsStillCallsForecaster(header: seq<Attribute>, oracle: Oracle, mapping: seq<int>, fields: seq<Field>,
                                      outWidth: nat, rows: seq<Row>, conv: Conversions, show: real -> string)
    requires |mapping| == |header|
    requires ForecastRun(header, oracle, mapping, fields, outWidth, rows, "0", conv, show).result.Ok?
    ensures var run := ForecastRun(header, oracle, mapping, fields, outWidth, rows, "0", conv, show);
      && run.calls == [Primed(|rows|), DatesRequested(0), Forecasted(0)]
      && run.result.value == ResizedRows(rows, outWidth)
  {
    assert ParseInt("0") == Some(0) by {
      assert "0"[0] == '0';
      assert DigitsValue("0") == DigitsValue("0"[..0]) * 10 + 0;
    }
  }

  /**
   * Without a date attribute in the header, forecasting at least one step
   * fails: the dates are formatted with attribute 0, which is not a date attribute.
   */
  lemma NoDateAttributeFails(header: seq<Attribute>, oracle: Oracle, mapping: seq<int>, fields: seq<Field>,
                             outWidth: nat, rows: seq<Row>, stepsText: string, conv: Conversions, show: real -> string)
    requires |mapping| == |header|
    requires forall i :: 0 <= i < |header| ==> !header[i].atype.DateAttr?
    requires ParseInt(stepsText).Some? && ParseInt(stepsText).value > 0
    ensures ForecastRun(header, oracle, mapping, fields, outWidth, rows, stepsText, conv, show).result.Err?
  {
  }

  /**
   * The class column compares FIELD positions with the model's class
   * ATTRIBUTE index: with attributes [a, b, c] (class a) fed by fields
   * [b, c, a], attribute a is read from field 2, yet the prediction is written
   * to column 1, the position whose mapping entry happens to equal 0.
   */
  lemma ClassColumnComparesFieldWithAttribute()
    ensures var header := [Attribute("a", Numeric), Attribute("b", Numeric), Attribute("c", Numeric)];
      var fields := [Field("b", Number), Field("c", Number), Field("a", Number)];
      var mapping := Mapping.Mappings(header, fields);
      mapping == [2, 0, 1] && ClassIndexOf(mapping, |fields|, 0) == 1
  {
    var header := [Attribute("a", Numeric), Attribute("b", Numeric), Attribute("c", Numeric)];
    var fields := [Field("b", Number), Field("c", Number), Field("a", Number)];
    assert Mapping.LastIndexOf(fields, "a") == Some(2);
    assert Mapping.LastIndexOf(fields[..2], "b") == Some(0) by {
      assert fields[..2][..1] == [Field("b", Number)];
    }
    assert Mapping.LastIndexOf(fields, "b") == Some(0);
    assert Mapping.LastIndexOf(fields[..2], "c") == Some(1);
    assert Mapping.LastIndexOf(fields, "c") == Some(1);
  }
}
