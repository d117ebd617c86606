/**
 * RNNForecasting: the step. It buffers every incoming row; on the first row
 * it loads the model and maps the incoming fields; at the end of the stream
 * it forecasts from the whole buffer and emits the input rows followed by the
 * forecast rows.
 */
module Step {
  import opened Common
  import opened Schema
  import Mapping
  import opened Classifier
  import opened Assembly
  import opened Data

  /** RNNForecastingMeta.DEFAULT_steps_to_forecast */
  const DEFAULT_STEPS_TO_FORECAST: int := 1

  /**
   * The step's settings: the model held by the settings (None for null), the
   * model file name, the steps-to-forecast text and the clear-state flag. An
   * empty string stands for a null or empty setting alike.
   */
  datatype StepMeta = StepMeta(model: Option<ModelSpec>, fileName: string, stepsToForecast: string, clearPrevState: bool)

  /**
   * The model the first row installs: it is loaded from the file when the
   * settings hold no model or a file name is set (a missing file name or a
   * failed load stops the step), otherwise the settings' model is copied.
   */
  function ModelSource(meta: StepMeta, loaded: Option<ModelSpec>): (r: Result<ModelSpec>)
    ensures r.Ok? && meta.fileName != "" ==> loaded == Some(r.value)
    ensures r.Ok? && meta.fileName == "" ==> meta.model == Some(r.value)
    ensures r.Err? <==> (meta.fileName == "" && meta.model.None?) || (meta.fileName != "" && loaded.None?)
  {
    if meta.model.None? || meta.fileName != "" then
      if meta.fileName == "" then Err(NoFilenameToLoadModelFrom)
      else if loaded.None? then Err(ProblemDeserializingModel)
      else Ok(loaded.value)
    else Ok(meta.model.value)
  }

  /** getFields: settings without a model but with a file name receive the model loaded from that file. */
  function MetaAfterGetFields(meta: StepMeta, loaded: Option<ModelSpec>): StepMeta
  {
    if meta.model.None? && meta.fileName != "" && loaded.Some? then meta.(model := loaded) else meta
  }

  /**
   * The batch scoring size the first row settles on. Without steps text the
   * current size stays; text that parses after variable substitution is the
   * size; otherwise the size the settings' model prefers (the model must be a
   * batch predictor), and the default when that is empty or does not parse.
   */
  function BatchScoringSize(stepsText: string, env: string -> string, model: Option<ModelSpec>, current: int): Result<int>
  {
    if stepsText == "" then Ok(current)
    else match ParseInt(env(stepsText))
      case Some(k) => Ok(k)
      case None =>
        if model.None? then Err(NullPointer)
        else match model.value.oracle.batchSize
          case None => Err(ClassCast)
          case Some(bs) =>
            var preferred := if bs == "" then "" else env(bs);
            if preferred != "" && ParseInt(preferred).Some? then Ok(ParseInt(preferred).value)
            else Ok(DEFAULT_STEPS_TO_FORECAST)
  }

  /**
   * The size always comes from the first source that yields a number: the
   * steps text, then the model's preference, then the default; the only
   * failure is a fallback to a model that is not a batch predictor.
   */
  lemma BatchScoringSizeOrder(stepsText: string, env: string -> string, model: ModelSpec, current: int)
    ensures stepsText == "" ==> BatchScoringSize(stepsText, env, Some(model), current) == Ok(current)
    ensures stepsText != "" && ParseInt(env(stepsText)).Some? ==>
      BatchScoringSize(stepsText, env, Some(model), current) == Ok(ParseInt(env(stepsText)).value)
    ensures BatchScoringSize(stepsText, env, Some(model), current).Err? <==>
      stepsText != "" && ParseInt(env(stepsText)).None? && model.oracle.batchSize.None?
    ensures stepsText != "" && ParseInt(env(stepsText)).None? && model.oracle.batchSize.Some? ==>
      var bs := model.oracle.batchSize.value;
      BatchScoringSize(stepsText, env, Some(model), current)
        == Ok(if bs != "" && ParseInt(env(bs)).Some? then ParseInt(env(bs)).value else DEFAULT_STEPS_TO_FORECAST)
    ensures stepsText != "" && ParseInt(env(stepsText)).None? && model.oracle.batchSize == Some("") ==>
      BatchScoringSize(stepsText, env, Some(model), current) == Ok(DEFAULT_STEPS_TO_FORECAST)
  {
  }

  /** After getFields the settings always hold a model when the first row's model was installed. */
  lemma SettingsHoldModelAfterSetup(meta: StepMeta, loaded: Option<ModelSpec>)
    requires ModelSource(meta, loaded).Ok?
    ensures MetaAfterGetFields(meta, loaded).model.Some?
    ensures meta.model.Some? ==> MetaAfterGetFields(meta, loaded) == meta
  {
  }

  class ForecastingStep {
    /** The step settings */
    var meta: StepMeta
    /** The step data of this copy */
    const data: ForecastingData
    /** No row has been read yet */
    var first: bool
    /** m_batchScoringSize: settled on the first row, never read afterwards */
    var batchScoringSize: int
    /** m_batch: the buffered rows, null until the first row */
    var batch: Option<seq<Row>>
    /** The rows handed to the next steps */
    var output: seq<Row>
    /** setOutputDone was called */
    var outputDone: bool
    /** The host no longer calls processRow: it threw or returned false */
    ghost var stopped: bool
    /** Every row read so far */
    ghost var received: seq<Row>

    ghost predicate Valid()
      reads this, data, data.model
    {
      && (first ==> data.model == null && batch.None? && received == [])
      && (!stopped ==> !outputDone && data.vals == null)
      && (!stopped && !first ==>
            && data.model != null
            && |data.mappingIndexes| == |data.model.header|
            && batch == Some(received))
    }

    constructor (settings: StepMeta)
      ensures Valid() && !stopped
      ensures meta == settings && first && batchScoringSize == DEFAULT_STEPS_TO_FORECAST
      ensures batch.None? && output == [] && !outputDone && received == []
      ensures fresh(data) && data.model == null
      ensures data.vals == null && data.outputFields == [] && data.mappingIndexes == []
    {
      meta := settings;
      data := new ForecastingData();
      first := true;
      batchScoringSize := DEFAULT_STEPS_TO_FORECAST;
      batch := None;
      output := [];
      outputDone := false;
      stopped := false;
      received := [];
    }

    /**
     * processRow. r is the next row, or None at the end of the stream;
     * inputFields is the incoming row format; loaded is what reading the
     * model file yields (None when it fails); env substitutes variables;
     * conv and show stand for Kettle's and Java's value conversions.
     * Ok(true) asks for the next row; Ok(false) and an error end the step.
     */
    method ProcessRow(r: Option<Row>, inputFields: seq<Field>, loaded: Option<ModelSpec>, env: string -> string,
                      conv: Conversions, show: real -> string) returns (res: Result<bool>)
      requires Valid() && !stopped
      // the incoming row format is fixed once the first row has arrived
      requires !first ==> inputFields == data.outputFields
      modifies this, data, data.vals, data.model
      ensures Valid()
      ensures stopped <==> !(res == Ok(true))
      // the end of the stream without any row: there is no model to forecast with
      ensures r.None? && old(first) ==>
        res == Err(NullPointer) && output == old(output) && !outputDone
      ensures r.None? ==> data.model == old(data.model) && meta == old(meta) && data.mappingIndexes == old(data.mappingIndexes)
      ensures r.None? ==> first == old(first) && received == old(received) && data.outputFields == old(data.outputFields)
      ensures r.None? ==> data.vals == null || fresh(data.vals)
      ensures r.None? && !old(first) ==> data.model != null && |data.mappingIndexes| == |data.model.header|
      // the end of the stream: forecast from every row read, emit, clear the buffer
      ensures r.None? && !old(first) ==>
        var run := ForecastRun(data.model.header, data.model.oracle, data.mappingIndexes, inputFields,
                               |data.outputFields|, old(received), meta.stepsToForecast, conv, show);
        && (run.result.Ok? ==>
              res == Ok(false) && output == old(output) + run.result.value && batch == Some([]) && outputDone)
        && (run.result.Err? ==>
              res == Err(run.result.failure) && output == old(output) && batch == old(batch) && !outputDone)
      // any later row: buffered
      ensures r.Some? && !old(first) ==>
        && res == Ok(true) && batch == Some(old(batch).value + [r.value]) && received == old(received) + [r.value]
        && output == old(output) && meta == old(meta) && data.model == old(data.model)
        && data.mappingIndexes == old(data.mappingIndexes) && batchScoringSize == old(batchScoringSize)
        && !first && data.outputFields == old(data.outputFields) && data.vals == old(data.vals)
        && data.model != null && data.model.classIndex == old(data.model.classIndex)
        && data.model.stringValues == old(data.model.stringValues) && data.model.history == old(data.model.history)
        && data.model.calls == old(data.model.calls)
      // the first row: install the model, map the fields, settle the batch size, start the buffer
      ensures r.Some? && old(first) ==>
        var source := ModelSource(old(meta), loaded);
        && !first && output == old(output)
        && (source.Err? ==> res == Err(source.failure))
        && (source.Ok? ==>
              var spec := source.value;
              var settled := MetaAfterGetFields(old(meta), loaded);
              var size := BatchScoringSize(settled.stepsToForecast, env, settled.model, old(batchScoringSize));
              && fresh(data.model) && data.vals == old(data.vals)
              && data.model.header == spec.header && data.model.oracle == spec.oracle
              && data.mappingIndexes == Mapping.Mappings(spec.header, inputFields)
              && data.outputFields == inputFields
              && meta == settled
              && (size.Err? ==> res == Err(size.failure))
              && (size.Ok? ==> res == Ok(true) && batchScoringSize == size.value
                               && batch == Some([r.value]) && received == [r.value]))
    {
      if r.None? {
        var done := OutputBatchRows(inputFields, conv, show);
        stopped := true;
        if done.Err? {
          return Err(done.failure);
        }
        outputDone := true;
        return Ok(false);
      }
      if first {
        var setup := SetUpFirstRow(inputFields, loaded, env);
        if setup.Err? {
          stopped := true;
          return Err(setup.failure);
        }
      }
      batch := Some(batch.value + [r.value]);
      received := received + [r.value];
      assert old(first) ==> batch.value == [r.value];
      res := Ok(true);
    }

    /**
     * The first-row block of processRow: the output format, the model, the
     * field mapping, getFields, the batch scoring size and an empty buffer.
     */
    method SetUpFirstRow(inputFields: seq<Field>, loaded: Option<ModelSpec>, env: string -> string) returns (res: Result<()>)
      requires Valid() && !stopped && first
      modifies this, data
      ensures !first && output == old(output) && outputDone == old(outputDone) && stopped == old(stopped)
      ensures received == old(received) == [] && data.vals == old(data.vals)
      ensures var source := ModelSource(old(meta), loaded);
        && (source.Err? ==> res == Err(source.failure))
        && (source.Ok? ==>
              var spec := source.value;
              var settled := MetaAfterGetFields(old(meta), loaded);
              var size := BatchScoringSize(settled.stepsToForecast, env, settled.model, old(batchScoringSize));
              && data.model != null && fresh(data.model)
              && data.model.header == spec.header && data.model.oracle == spec.oracle
              && data.mappingIndexes == Mapping.Mappings(spec.header, inputFields)
              && data.outputFields == inputFields
              && meta == settled
              && (size.Err? ==> res == Err(size.failure))
              && (size.Ok? ==> res == Ok(()) && batchScoringSize == size.value && batch == Some([])))
    {
      first := false;
      data.SetOutputRowMeta(inputFields);
      var source := ModelSource(meta, loaded);
      if source.Err? {
        return Err(source.failure);
      }
      var model := new ForecastingClassifier(source.value);
      data.SetModel(model);
      data.MapIncomingRowMetaData(model.header, inputFields);
      meta := MetaAfterGetFields(meta, loaded);
      var size := BatchScoringSize(meta.stepsToForecast, env, meta.model, batchScoringSize);
      if size.Err? {
        return Err(size.failure);
      }
      batchScoringSize := size.value;
      batch := Some([]);
      res := Ok(());
    }

    /** The putRow loop of outputBatchRows: hands every row to the next steps, in order. */
    method EmitRows(rows: seq<Row>)
      modifies this`output
      ensures output == old(output) + rows
    {
      var i := 0;
      while i < |rows|
        invariant 0 <= i <= |rows|
        invariant output == old(output) + rows[..i]
      {
        output := output + [rows[i]];
        i := i + 1;
      }
      assert rows[..i] == rows;
    }

    /** outputBatchRows: forecast from the buffer, emit every row, then clear the buffer. */
    method OutputBatchRows(inputFields: seq<Field>, conv: Conversions, show: real -> string) returns (res: Result<()>)
      requires Valid() && !stopped
      modifies this, data, data.vals, data.model
      ensures meta == old(meta)
      ensures first == old(first)
      ensures batchScoringSize == old(batchScoringSize)
      ensures outputDone == old(outputDone)
      ensures stopped == old(stopped)
      ensures received == old(received)
      ensures data.model == old(data.model)
      ensures data.mappingIndexes == old(data.mappingIndexes)
      ensures data.outputFields == old(data.outputFields)
      ensures data.vals == old(data.vals) || fresh(data.vals)
      ensures old(first) ==> res == Err(NullPointer) && output == old(output) && batch == old(batch)
      ensures !old(first) ==>
        var run := ForecastRun(data.model.header, data.model.oracle, data.mappingIndexes, inputFields,
                               |data.outputFields|, old(received), meta.stepsToForecast, conv, show);
        && (run.result.Ok? ==> res == Ok(()) && output == old(output) + run.result.value && batch == Some([]))
        && (run.result.Err? ==> res == Err(run.result.failure) && output == old(output) && batch == old(batch))
    {
      var rows := if batch.Some? then batch.value else [];
      var outputRows := data.GenerateForecast(inputFields, |data.outputFields|, rows, meta.stepsToForecast, conv, show);
      if outputRows.Err? {
        return Err(outputRows.failure);
      }
      EmitRows(outputRows.value);
      batch := Some([]);
      res := Ok(());
    }
  }

  /**
   * The host's use of the step: a fresh step reads every row of a stream with
   * processRow, stopping at the first call that does not ask for another row,
   * and then is told that the stream has ended. A stream that ends well emits
   * the run of the whole stream: every row read, resized to the incoming
   * width, followed by the forecast rows; a failure emits nothing, and so does
   * an empty stream, which fails for want of a model.
   */
  method RunStream(settings: StepMeta, rows: seq<Row>, fields: seq<Field>, loaded: Option<ModelSpec>,
                   env: string -> string, conv: Conversions, show: real -> string)
    returns (step: ForecastingStep, res: Result<bool>)
    ensures res != Ok(true)
    ensures |rows| == 0 ==> res == Err(NullPointer)
    ensures res.Err? ==> step.output == []
    ensures res.Ok? ==>
      && |rows| > 0 && step.received == rows && step.data.model != null
      && step.data.mappingIndexes == Mapping.Mappings(step.data.model.header, fields)
      && var run := ForecastRun(step.data.model.header, step.data.model.oracle, step.data.mappingIndexes, fields,
                                |fields|, rows, step.meta.stepsToForecast, conv, show);
         && run.result.Ok? && step.output == run.result.value
         && |step.output| >= |rows|
         && forall k :: 0 <= k < |rows| ==> step.output[k] == Resize(rows[k], |fields|)
  {
    step := new ForecastingStep(settings);
    var i := 0;
    while i < |rows|
      invariant 0 <= i <= |rows|
      invariant step.Valid() && !step.stopped && step.output == []
      invariant fresh(step) && fresh(step.data) && (step.data.model == null || fresh(step.data.model))
      invariant step.received == rows[..i]
      invariant step.first <==> i == 0
      invariant i > 0 ==> step.data.model != null && step.data.outputFields == fields
                          && step.data.mappingIndexes == Mapping.Mappings(step.data.model.header, fields)
    {
      res := step.ProcessRow(Some(rows[i]), fields, loaded, env, conv, show);
      if res != Ok(true) {
        return;
      }
      i := i + 1;
    }
    assert rows[..i] == rows;
    res := step.ProcessRow(None, fields, loaded, env, conv, show);
    if res.Ok? {
      EmittedRowsStartWithInput(step.data.model.header, step.data.model.oracle, step.data.mappingIndexes, fields,
                                |fields|, rows, step.meta.stepsToForecast, conv, show);
    }
  }

  /**
   * Forecasting from a settled step: the rows it emits at the end of the
   * stream start with every row it read, in order, each resized to the
   * output width.
   */
  lemma EmittedRowsStartWithInput(header: seq<Attribute>, oracle: Oracle, mapping: seq<int>, fields: seq<Field>,
                                  outWidth: nat, received: seq<Row>, stepsText: string, conv: Conversions,
                                  show: real -> string)
    requires |mapping| == |header|
    requires ForecastRun(header, oracle, mapping, fields, outWidth, received, stepsText, conv, show).result.Ok?
    ensures var out := ForecastRun(header, oracle, mapping, fields, outWidth, received, stepsText, conv, show).result.value;
      |out| >= |received| && forall k :: 0 <= k < |received| ==> out[k] == Resize(received[k], outWidth) && out[k][..|received[k]|] == received[k]
  {
    ResultShape(header, oracle, mapping, fields, outWidth, received, stepsText, conv, show);
  }
}
