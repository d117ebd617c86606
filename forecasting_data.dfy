/**
 * RNNForecastingData: the per-copy state of the step (the model copy, the
 * attribute-to-field mapping, the reusable value vector and the output row
 * format) and the two routines that work on it, constructInstance and
 * generateForecast.
 */
module Data {
  import opened Common
  import opened Schema
  import Mapping
  import opened Classifier
  import opened Features
  import opened Assembly

  function Min(a: nat, b: nat): nat
  {
    if a <= b then a else b
  }

  /** One more attribute's string write, on top of the values the header held before the row. */
  lemma StringStep(start: map<nat, string>, before: map<nat, string>, after: map<nat, string>,
                   header: seq<Attribute>, fields: seq<Field>, row: Row, mapping: seq<int>, conv: Conversions, i: nat)
    requires |mapping| >= |header|
    requires before == start + StringWrites(header, fields, row, mapping, conv, i)
    requires after == if WritesString(header, fields, row, mapping, conv, i)
      then before[i := conv.getString(fields[mapping[i]].ftype, row[mapping[i]]).value]
      else before
    ensures after == start + StringWrites(header, fields, row, mapping, conv, i + 1)
  {
    StringWritesNext(header, fields, row, mapping, conv, i);
  }

  class ForecastingData {
    /** The model this copy of the step uses (null until it is set) */
    var model: ForecastingClassifier?
    /** The attribute-to-field mapping of the incoming rows */
    var mappingIndexes: seq<int>
    /** The value vector constructInstance fills (null until the first instance) */
    var vals: array?<Feature>
    /** The output row format */
    var outputFields: seq<Field>

    constructor ()
      ensures model == null && mappingIndexes == [] && vals == null && outputFields == []
    {
      model, mappingIndexes, vals, outputFields := null, [], null, [];
    }

    method SetModel(m: ForecastingClassifier)
      modifies this
      ensures model == m
      ensures mappingIndexes == old(mappingIndexes) && vals == old(vals) && outputFields == old(outputFields)
    {
      model := m;
    }

    method SetOutputRowMeta(fields: seq<Field>)
      modifies this
      ensures outputFields == fields
      ensures model == old(model) && mappingIndexes == old(mappingIndexes) && vals == old(vals)
    {
      outputFields := fields;
    }

    /** mapIncomingRowMetaData: stores findMappings of the header and the incoming fields. */
    method MapIncomingRowMetaData(header: seq<Attribute>, fields: seq<Field>)
      modifies this
      ensures mappingIndexes == Mapping.Mappings(header, fields)
      ensures |mappingIndexes| == |header|
      ensures model == old(model) && vals == old(vals) && outputFields == old(outputFields)
    {
      var m := Mapping.FindMappings(header, fields);
      mappingIndexes := m[..];
    }

    /**
     * Fills the value vector from one incoming row and returns it: the
     * instance shares the vector rather than copying it. A fresh vector of one
     * value per attribute is allocated when asked or when there is none yet;
     * otherwise the previous vector is overwritten, and one shorter than the
     * header makes the fill throw once it runs past its end. String attributes
     * receive the cell's text in the header.
     */
    method ConstructInstance(fields: seq<Field>, row: Row, mapping: seq<int>, m: ForecastingClassifier,
                             freshVector: bool, conv: Conversions) returns (r: Result<array<Feature>>)
      requires |mapping| >= |m.header|
      modifies this, vals, m
      ensures vals != null
      ensures old(vals) == null || freshVector ==> fresh(vals) && vals.Length == |m.header|
      ensures old(vals) != null && !freshVector ==> vals == old(vals)
      ensures vals.Length >= |m.header| ==>
        r == Ok(vals) && vals[..|m.header|] == BuildVector(m.header, fields, row, mapping, conv)
      ensures vals == old(vals) && vals.Length > |m.header| ==> vals[|m.header|..] == old(vals[|m.header|..])
      ensures vals.Length < |m.header| ==>
        r == Err(IndexOutOfBounds) && vals[..] == BuildVector(m.header, fields, row, mapping, conv)[..vals.Length]
      ensures m.stringValues == old(m.stringValues)
        + StringWrites(m.header, fields, row, mapping, conv, Min(|m.header|, vals.Length + 1))
      ensures m.classIndex == old(m.classIndex) && m.history == old(m.history) && m.calls == old(m.calls)
      ensures model == old(model) && mappingIndexes == old(mappingIndexes) && outputFields == old(outputFields)
    {
      if vals == null || freshVector {
        vals := new Feature[|m.header|](_ => Val(0.0));
      }
      var filled := FillVector(vals, fields, row, mapping, m, conv);
      if !filled {
        return Err(IndexOutOfBounds);
      }
      r := Ok(vals);
    }

    /** The loop of constructInstance: one value per attribute, written into a in attribute order. */
    method FillVector(a: array<Feature>, fields: seq<Field>, row: Row, mapping: seq<int>, m: ForecastingClassifier,
                      conv: Conversions) returns (filled: bool)
      requires |mapping| >= |m.header|
      modifies a, m
      ensures filled == (a.Length >= |m.header|)
      ensures filled ==> a[..|m.header|] == BuildVector(m.header, fields, row, mapping, conv)
                         && a[|m.header|..] == old(a[|m.header|..])
      ensures !filled ==> a[..] == BuildVector(m.header, fields, row, mapping, conv)[..a.Length]
      ensures m.stringValues == old(m.stringValues)
        + StringWrites(m.header, fields, row, mapping, conv, Min(|m.header|, a.Length + 1))
      ensures m.classIndex == old(m.classIndex) && m.history == old(m.history) && m.calls == old(m.calls)
    {
      var header := m.header;
      var n := |header|;
      ghost var v := BuildVector(header, fields, row, mapping, conv);
      var i := 0;
      while i < n
        invariant 0 <= i <= n && i <= a.Length
        invariant forall k :: 0 <= k < i ==> a[k] == v[k]
        invariant forall k :: n <= k < a.Length ==> a[k] == old(a[k])
        invariant m.stringValues == old(m.stringValues) + StringWrites(header, fields, row, mapping, conv, i)
        invariant m.classIndex == old(m.classIndex) && m.history == old(m.history) && m.calls == old(m.calls)
      {
        ghost var before := m.stringValues;
        var feature := ReadFeature(i, fields, row, mapping, m, conv);
        StringStep(old(m.stringValues), before, m.stringValues, header, fields, row, mapping, conv, i);
        if i >= a.Length {
          assert a[..] == v[..a.Length];
          return false;
        }
        a[i] := feature;
        i := i + 1;
      }
      assert a[..n] == v;
      filled := true;
    }

    /**
     * The value of attribute i taken from the row. A string attribute whose
     * cell is read as text receives that text in the header.
     */
    method ReadFeature(i: nat, fields: seq<Field>, row: Row, mapping: seq<int>, m: ForecastingClassifier,
                       conv: Conversions) returns (feature: Feature)
      requires i < |m.header| <= |mapping|
      modifies m
      ensures feature == FeatureOf(m.header[i], fields, row, mapping[i], conv)
      ensures m.stringValues ==
        if WritesString(m.header, fields, row, mapping, conv, i)
        then old(m.stringValues)[i := conv.getString(fields[mapping[i]].ftype, row[mapping[i]]).value]
        else old(m.stringValues)
      ensures m.classIndex == old(m.classIndex) && m.history == old(m.history) && m.calls == old(m.calls)
    {
      feature := Missing;
      if mapping[i] >= 0 {
        var k := mapping[i];
        if k < |row| && k < |fields| {
          var cell, ftype := row[k], fields[k].ftype;
          if !IsNullCell(conv, ftype, cell) {
            match m.header[i].atype {
              case DateAttr(pattern) =>
                feature := Coerce(m.header[i].atype, ftype, cell, conv);
              case Numeric =>
                feature := Coerce(m.header[i].atype, ftype, cell, conv);
              case Nominal(labels) =>
                feature := Coerce(m.header[i].atype, ftype, cell, conv);
              case StringAttr =>
                var s := conv.getString(ftype, cell);
                if s.Some? {
                  m.SetStringValue(i, s.value);
                  feature := Val(0.0);
                }
              case Relational =>
            }
          }
        }
      }
    }

    /** The instances of the buffered rows, each built on a fresh vector, in row order. */
    method ConstructBatch(m: ForecastingClassifier, fields: seq<Field>, rows: seq<Row>, conv: Conversions)
      returns (batch: seq<Instance>)
      requires |mappingIndexes| == |m.header|
      modifies this, vals, m
      ensures model == old(model) && mappingIndexes == old(mappingIndexes) && outputFields == old(outputFields)
      ensures batch == Batch(m.header, fields, rows, mappingIndexes, conv)
      ensures m.stringValues == old(m.stringValues) + BatchStringWrites(m.header, fields, rows, mappingIndexes, conv)
      ensures m.classIndex == old(m.classIndex) && m.history == old(m.history) && m.calls == old(m.calls)
      ensures |rows| == 0 ==> vals == old(vals)
      ensures |rows| > 0 ==> vals != null && fresh(vals)
                             && vals[..] == BuildVector(m.header, fields, rows[|rows| - 1], mappingIndexes, conv)
    {
      batch := [];
      var k := 0;
      while k < |rows|
        invariant 0 <= k <= |rows|
        invariant model == old(model) && mappingIndexes == old(mappingIndexes) && outputFields == old(outputFields)
        invariant batch == Batch(m.header, fields, rows[..k], mappingIndexes, conv)
        invariant m.stringValues == old(m.stringValues) + BatchStringWrites(m.header, fields, rows[..k], mappingIndexes, conv)
        invariant m.classIndex == old(m.classIndex) && m.history == old(m.history) && m.calls == old(m.calls)
        invariant k == 0 ==> vals == old(vals)
        invariant k > 0 ==> vals != null && fresh(vals)
                            && vals[..] == BuildVector(m.header, fields, rows[k - 1], mappingIndexes, conv)
      {
        var inst := BatchInstance(m, fields, rows[k], conv);
        MergeAssoc(old(m.stringValues), BatchStringWrites(m.header, fields, rows[..k], mappingIndexes, conv),
                   StringWrites(m.header, fields, rows[k], mappingIndexes, conv, |m.header|));
        BatchSnoc(m.header, fields, rows, mappingIndexes, conv, k);
        BatchStringWritesSnoc(m.header, fields, rows, mappingIndexes, conv, k);
        batch := batch + [inst];
        k := k + 1;
      }
      assert rows[..|rows|] == rows;
    }

    /** One pass of the batch loop: the row's instance, built on a fresh vector. */
    method BatchInstance(m: ForecastingClassifier, fields: seq<Field>, row: Row, conv: Conversions)
      returns (inst: Instance)
      requires |mappingIndexes| == |m.header|
      modifies this, vals, m
      ensures model == old(model) && mappingIndexes == old(mappingIndexes) && outputFields == old(outputFields)
      ensures inst == BuildVector(m.header, fields, row, mappingIndexes, conv)
      ensures vals != null && fresh(vals) && vals[..] == inst
      ensures m.stringValues == old(m.stringValues) + StringWrites(m.header, fields, row, mappingIndexes, conv, |m.header|)
      ensures m.classIndex == old(m.classIndex) && m.history == old(m.history) && m.calls == old(m.calls)
    {
      var r := ConstructInstance(fields, row, mappingIndexes, m, true, conv);
      assert vals[..] == vals[..|m.header|];
      inst := r.value[..];
    }

    /**
     * The rest of generateForecast, once the batch is built: priming, the
     * class and date columns, the step count, the dates, the forecast and the
     * assembled rows.
     */
    method ForecastFromBatch(m: ForecastingClassifier, batch: seq<Instance>, fields: seq<Field>, outWidth: nat,
                             rows: seq<Row>, stepsText: string, show: real -> string) returns (r: Result<seq<Row>>)
      requires |mappingIndexes| == |m.header| > 0 && m.classIndex == 0 && |batch| == |rows|
      modifies m
      ensures var run := RunOnBatch(m.header, m.oracle, mappingIndexes, fields, outWidth, rows, batch, show, stepsText);
        r == run.result && m.calls == old(m.calls) + run.calls
      ensures m.classIndex == 0 && m.stringValues == old(m.stringValues)
      ensures m.history == if m.oracle.accepts(batch) then batch else old(m.history)
    {
      var primed := m.PrimeForecaster(batch);
      if !primed {
        return Err(ForecasterFailure);
      }
      r := ForecastPrimed(m, batch, fields, outWidth, rows, stepsText, show);
    }

    /**
     * generateForecast after priming: the class and date columns, the step
     * count, then the steps.
     */
    method ForecastPrimed(m: ForecastingClassifier, batch: seq<Instance>, fields: seq<Field>, outWidth: nat,
                          rows: seq<Row>, stepsText: string, show: real -> string) returns (r: Result<seq<Row>>)
      requires |mappingIndexes| == |m.header| > 0 && m.classIndex == 0 && |batch| == |rows| && m.history == batch
      modifies m
      ensures var run := PrimedRun(m.header, m.oracle, mappingIndexes, fields, outWidth, rows, batch, show, stepsText);
        r == run.result && m.calls == old(m.calls) + run.calls[1..]
      ensures m.classIndex == 0 && m.stringValues == old(m.stringValues) && m.history == batch
    {
      var header := m.header;
      ghost var run := PrimedRun(header, m.oracle, mappingIndexes, fields, outWidth, rows, batch, show, stepsText);
      var indexes := ClassAndDateIndexes(mappingIndexes, header, |fields|, m.classIndex);
      if indexes.Err? {
        assert run == Run(Err(IndexOutOfBounds), [Primed(|rows|)]);
        return Err(indexes.failure);
      }
      var (classIndex, dateIndex) := indexes.value;
      var modelDateIndex := ModelDateIndex(header);
      assert modelDateIndex == ModelDateIndexOf(header);
      var stepsToForecast := ParseInt(stepsText);
      if stepsToForecast.None? {
        assert run == Run(Err(NumberFormat), [Primed(|rows|)]);
        return Err(NumberFormat);
      }
      var steps := stepsToForecast.value;
      if |batch| == 0 {
        assert run == Run(Err(IndexOutOfBounds), [Primed(|rows|)]);
        return Err(IndexOutOfBounds);
      }
      assert run == StepsRun(header, m.oracle, outWidth, rows, batch, show, steps, classIndex, dateIndex);
      r := ForecastSteps(m, outWidth, rows, batch, show, steps, classIndex, dateIndex, modelDateIndex);
    }

    /** The tail of generateForecast: the forecast dates, the forecast and the assembled rows. */
    method ForecastSteps(m: ForecastingClassifier, outWidth: nat, rows: seq<Row>, batch: seq<Instance>,
                         show: real -> string, steps: int, classIndex: nat, dateIndex: nat, modelDateIndex: nat)
      returns (r: Result<seq<Row>>)
      requires |m.header| > 0 && |batch| == |rows| > 0 && m.history == batch
      requires modelDateIndex == ModelDateIndexOf(m.header)
      modifies m
      ensures var run := StepsRun(m.header, m.oracle, outWidth, rows, batch, show, steps, classIndex, dateIndex);
        r == run.result && m.calls == old(m.calls) + run.calls[1..]
      ensures m.classIndex == old(m.classIndex) && m.stringValues == old(m.stringValues) && m.history == batch
    {
      var dates := m.GetForecastDates(steps, batch[|batch| - 1], modelDateIndex);
      if dates.Err? {
        return Err(dates.failure);
      }
      var forecast := m.Forecast(steps);
      if forecast.Err? {
        return Err(forecast.failure);
      }
      r := AssembleRows(rows, outWidth, NumClasses(m.header) + 1, classIndex, dateIndex, forecast.value, dates.value, show);
    }

    /**
     * generateForecast: sets the class index of the header to 0, turns every
     * buffered row into an instance (a fresh vector each), primes the
     * forecaster with the batch, locates the class and date columns, parses the
     * step count, asks for the forecast dates and the forecast, and assembles
     * the output rows.
     */
    method GenerateForecast(fields: seq<Field>, outWidth: nat, rows: seq<Row>, stepsText: string,
                            conv: Conversions, show: real -> string) returns (r: Result<seq<Row>>)
      requires model != null ==> |mappingIndexes| == |model.header|
      modifies this, vals, model
      ensures model == old(model) && mappingIndexes == old(mappingIndexes) && outputFields == old(outputFields)
      ensures model == null ==> r == Err(NullPointer)
      ensures model != null ==>
        var run := ForecastRun(model.header, model.oracle, mappingIndexes, fields, outWidth, rows, stepsText, conv, show);
        && r == run.result
        && model.calls == old(model.calls) + run.calls
      ensures model != null && |model.header| == 0 ==>
        model.classIndex == old(model.classIndex) && model.stringValues == old(model.stringValues)
        && model.history == old(model.history) && vals == old(vals)
      ensures model != null && |model.header| > 0 ==>
        var batch := Batch(model.header, fields, rows, mappingIndexes, conv);
        && model.classIndex == 0
        && model.stringValues == old(model.stringValues) + BatchStringWrites(model.header, fields, rows, mappingIndexes, conv)
        && model.history == (if model.oracle.accepts(batch) then batch else old(model.history))
      ensures model != null && |model.header| > 0 && |rows| > 0 ==>
        fresh(vals) && vals[..] == BuildVector(model.header, fields, rows[|rows| - 1], mappingIndexes, conv)
      ensures vals == old(vals) || fresh(vals)
    {
      var m := model;
      if m == null {
        return Err(NullPointer);
      }
      var ok := m.SetClassIndex(0);
      if !ok {
        return Err(IllegalArgument);
      }
      var batch := ConstructBatch(m, fields, rows, conv);
      r := ForecastFromBatch(m, batch, fields, outWidth, rows, stepsText, show);
    }
  }
}
