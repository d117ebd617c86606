# RNN forecasting step — a Dafny model

This project models the core of the Pentaho Kettle "RNN Forecasting" step.
The step feeds a stream of rows to a Weka time-series forecaster (a
recurrent network) and appends forecast rows to the stream:

- it buffers every incoming row;
- on the first row it installs the model, either loaded from the model
  file or copied from the step settings;
- on the first row it also maps each attribute of the model's training
  header to an incoming field (`findMappings`);
- at the end of the stream it turns each buffered row into a feature
  vector (`constructInstance`) and primes the forecaster with the batch;
- it then asks the forecaster for the forecast dates and the forecast, and
  emits the input rows followed by one row per forecast step
  (`generateForecast`, `outputBatchRows`).

The dialog's mapping report is modelled as well: a fixed-width column of
model attributes, each with the incoming field it is read from
(`mappingString`, `getFixedLengthString`).

Modules, in dependency order:

| module | file | models |
|---|---|---|
| `Common` | common.dfy | `Option`, `Result`, the exception kinds, Java's `Integer.parseInt` and the decimal rendering of an `int` |
| `Schema` | schema.dfy | Kettle field types, Weka attribute types, row cells, features, Kettle's value conversions |
| `Mapping` | mapping.dfy | `RNNForecastingData.findMappings` |
| `Classifier` | classifier.dfy | `RNNForecastingClassifier`: the date cursor, the target-field option, the calls on the forecaster |
| `Features` | features.dfy | the values `constructInstance` computes for one row |
| `Assembly` | assembly.dfy | the class, date and model-date columns and the result array of `generateForecast`, and the whole forecast run as a function |
| `Data` | forecasting_data.dfy | the `RNNForecastingData` object: `constructInstance` with its reused buffer, `generateForecast` |
| `Step` | step.dfy | the `RNNForecasting` step: `processRow`, `outputBatchRows` |
| `Dialog` | dialog.dfy | `mappingString` and `getFixedLengthString` |

Modelling choices:

- **Foreign behaviour as values.** What Weka and Kettle compute (null tests,
  value conversions, date parsing and formatting, priming, forecasting,
  time-stamp arithmetic, model options) is a record of function values.
  `Schema.Conversions` is one such record and `Classifier.Oracle` the other.
  Every property proved holds for every such behaviour.
- **Exceptions.** A thrown exception is an `Err` of `Common.Result`. Its
  kind is recorded: `NullPointer`, `IndexOutOfBounds`, `NumberFormat`,
  `IllegalArgument`, `ClassCast`, a failure inside the forecaster, or one
  of the step's own messages.
- **Mutable state.** `RNNForecastingData`, `RNNForecastingClassifier` and
  `RNNForecasting` are classes whose fields their methods update.
  - The reusable `m_vals` buffer is an `array`.
  - The attribute string values that `Attribute.setStringValue` writes are
    a map from attribute position to string.
  - The calls made on the forecaster are a ghost log.
- **Specification functions.** Each method is proved equal to a function
  of its inputs and old state. The properties are then proved about those
  functions:
  - `Mapping.Mappings` specifies `findMappings`;
  - `Features.BuildVector` specifies `constructInstance`;
  - `Assembly.ForecastRun` specifies `generateForecast`;
  - `Dialog.Report` specifies `mappingString`.
- **Strings.** A string is a sequence of Unicode scalar values, and its
  length counts them. Java counts UTF-16 code units. The two agree on the
  basic multilingual plane, and differ for a character outside it, such as
  an emoji (see the `Dialog` lines under "Left out").
- **Integers.** `Integer.parseInt` is modelled with its 32-bit range and
  ASCII digits only (see `Common.ParseInt` under "Left out").
  Array sizes and indexes are unbounded naturals.

Behaviour of the code a reader may not expect, which the model keeps:

- The buffered rows are not split into priming and overlay rows. The
  whole batch primes the forecaster, and `forecast(steps)` is always
  called without overlay data.
- A step count of 0 still calls `getForecastDates` and `forecast` (with 0
  steps); see `Assembly.ZeroStepsStillCallsForecaster`.
- `generateForecast` parses the raw steps text itself.
  - If the text does not parse, the run fails.
  - A negative count fails when the date list is allocated.
  - The fallback to the model's preferred batch size and then to the
    default 1 only sets `m_batchScoringSize`, which nothing reads.
- A forecast row is `numClasses + 1` cells wide, not the output width.
  Only its class and date cells are set.
- The class column is the last field position whose mapping entry equals
  the model's class index 0. That compares a field position with an
  attribute index; see `Assembly.ClassColumnComparesFieldWithAttribute`.
- The date column is the last position below the field count at which the
  model header has a date attribute.
- The dates are formatted with the first date attribute of the header, or
  with attribute 0 if there is none. Without a date attribute, a positive
  step count therefore fails; see `Assembly.NoDateAttributeFails`.
- Duplicate incoming field names resolve to the last such field.
- A date attribute is numeric to Weka, so the dialog labels it
  "(Numeric)".

## Model

| member | source | states |
|---|---|---|
| Common.ParseIntRoundTrip | src/main/java/org/pentaho/di/plugins/dl4j/RNNForecastingData.java:308 | rendering any 32-bit int in decimal and parsing it back gives that int |
| Common.ParseIntRejects | src/main/java/org/pentaho/di/plugins/dl4j/RNNForecasting.java:166-170 | steps text with no ASCII digit at all is rejected by parseInt |
| Common.NatToStringDigits | src/main/java/org/pentaho/di/plugins/dl4j/RNNForecastingDialog.java:568 | the decimal rendering of n is a non-empty digit string whose value is n |
| Mapping.LastIndexOf | src/main/java/org/pentaho/di/plugins/dl4j/RNNForecastingData.java:199-203 | the lookup built from the field names yields the last field of a name, and None exactly when no field has that name |
| Mapping.FindMappings | src/main/java/org/pentaho/di/plugins/dl4j/RNNForecastingData.java:194-257 | the fresh array holds exactly the mapping entry of every attribute, one per attribute |
| Mapping.EntryShape | src/main/java/org/pentaho/di/plugins/dl4j/RNNForecastingData.java:249-254 | every entry is NO_MATCH, TYPE_MISMATCH, or the index of an incoming field with the attribute's name |
| Mapping.NoMatchIff | src/main/java/org/pentaho/di/plugins/dl4j/RNNForecastingData.java:211-214 | the entry is NO_MATCH if and only if no incoming field carries the attribute's name |
| Mapping.MatchIsLastCompatible | src/main/java/org/pentaho/di/plugins/dl4j/RNNForecastingData.java:211-250 | the entry is an index if and only if the last field of that name is type-compatible, and then it is that field |
| Mapping.TypeMismatchIff | src/main/java/org/pentaho/di/plugins/dl4j/RNNForecastingData.java:214-248 | the entry is TYPE_MISMATCH if and only if a field of that name exists and the last one is incompatible |
| Mapping.CompatibilityTable | src/main/java/org/pentaho/di/plugins/dl4j/RNNForecastingData.java:218-247 | numeric or boolean fields feed numeric and date attributes; string fields feed nominal and string attributes; date fields feed date attributes; nothing else is compatible |
| Mapping.MappingIgnoresOtherNames | src/main/java/org/pentaho/di/plugins/dl4j/RNNForecastingData.java:206-211 | adding a field of another name does not change an attribute's entry |
| Classifier.AdvancedAdd | src/main/java/org/pentaho/di/plugins/dl4j/RNNForecastingClassifier.java:95-96 | advancing the time cursor a times and then b times is advancing it a + b times |
| Classifier.ForecastDatesConcat | src/main/java/org/pentaho/di/plugins/dl4j/RNNForecastingClassifier.java:87-101 | the dates for a + b steps are the dates for a steps followed by the dates for b steps from the advanced cursor |
| Classifier.PiecesJoin | src/main/java/org/pentaho/di/plugins/dl4j/RNNForecastingClassifier.java:117 | joining the pieces with commas gives back the text |
| Classifier.PiecesCommaFree | src/main/java/org/pentaho/di/plugins/dl4j/RNNForecastingClassifier.java:117 | no piece holds a comma, and the last piece is non-empty when the text is non-empty and does not end with a comma |
| Classifier.SplitRoundTrip | src/main/java/org/pentaho/di/plugins/dl4j/RNNForecastingClassifier.java:117 | String.split(",") gives comma-free pieces; for text not ending in a comma they join back to the text |
| Classifier.SplitEdgeCases | src/main/java/org/pentaho/di/plugins/dl4j/RNNForecastingClassifier.java:117 | split of "" gives [""]; split of ",," gives no pieces (trailing empty pieces are dropped) |
| Classifier.ForecastingClassifier.constructor | src/main/java/org/pentaho/di/plugins/dl4j/RNNForecastingClassifier.java:39-46 | the wrapper holds the model's header, class index and forecaster, with no string values, history or calls yet |
| Classifier.ForecastingClassifier.SetClassIndex | src/main/java/org/pentaho/di/plugins/dl4j/RNNForecastingData.java:279 | setting the class index succeeds exactly when it is below the attribute count, and only then changes it |
| Classifier.ForecastingClassifier.SetStringValue | src/main/java/org/pentaho/di/plugins/dl4j/RNNForecastingData.java:572 | the string attribute at i now holds s; nothing else changes |
| Classifier.ForecastingClassifier.PrimeForecaster | src/main/java/org/pentaho/di/plugins/dl4j/RNNForecastingClassifier.java:83-85 | priming succeeds exactly when the forecaster accepts the batch, which then becomes its history; the call is logged |
| Classifier.ForecastingClassifier.GetForecastDates | src/main/java/org/pentaho/di/plugins/dl4j/RNNForecastingClassifier.java:87-101 | the loop returns the dates of the advanced cursor formatted with the date attribute, failing on a negative count or a non-date attribute |
| Classifier.ForecastingClassifier.Forecast | src/main/java/org/pentaho/di/plugins/dl4j/RNNForecastingClassifier.java:147-149 | the forecast from the primed history, or the forecaster's failure; the call is logged |
| Classifier.ForecastingClassifier.GetTargetFieldNames | src/main/java/org/pentaho/di/plugins/dl4j/RNNForecastingClassifier.java:115-124 | the second model option split at commas, copied in order; fewer than two options is an index error |
| Features.IndexOfValue | src/main/java/org/pentaho/di/plugins/dl4j/RNNForecastingData.java:560 | the first position of the label, or -1 exactly when it is not a label |
| Features.BuildVector | src/main/java/org/pentaho/di/plugins/dl4j/RNNForecastingData.java:516-586 | one feature per model attribute, for any row |
| Features.BatchSnoc | src/main/java/org/pentaho/di/plugins/dl4j/RNNForecastingData.java:283-287 | the batch of k + 1 rows is the batch of k rows plus the vector of row k |
| Features.PresentOnlyWhenMatched | src/main/java/org/pentaho/di/plugins/dl4j/RNNForecastingData.java:518-531 | a present feature has a matched entry within the row and fields, a non-null cell, and a handled attribute type |
| Features.AllNullRowIsMissing | src/main/java/org/pentaho/di/plugins/dl4j/RNNForecastingData.java:527-531 | a row of nulls gives a vector of missing values whatever the mapping |
| Features.CoercionCodes | src/main/java/org/pentaho/di/plugins/dl4j/RNNForecastingData.java:533-575 | booleans code as 1.0/0.0; integers and other numbers as their value; a parsed date as its time value; a nominal value is present iff it is a label, and then codes as the label's position; a string attribute codes as 0.0 |
| Features.FailedConversionIsMissing | src/main/java/org/pentaho/di/plugins/dl4j/RNNForecastingData.java:576-581 | every failed conversion (a getter that fails, or a date that does not parse), and the relational type, gives a missing value |
| Features.VectorReadsOnlyMappedCells | src/main/java/org/pentaho/di/plugins/dl4j/RNNForecastingData.java:518-524 | rows that agree on the mapped cells give the same vector |
| Features.PresentFeatureComesFromMatchedField | src/main/java/org/pentaho/di/plugins/dl4j/RNNForecastingData.java:516-524 | with findMappings' mapping, a present feature was read from the last field of the attribute's name, of a compatible type |
| Assembly.ClassIndexOf | src/main/java/org/pentaho/di/plugins/dl4j/RNNForecastingData.java:291-295 | the last field position whose entry equals the class index, 0 when there is none |
| Assembly.DateIndexOf | src/main/java/org/pentaho/di/plugins/dl4j/RNNForecastingData.java:290-297 | the last position below the field count where the header has a date attribute, 0 when there is none |
| Assembly.ModelDateIndexOf | src/main/java/org/pentaho/di/plugins/dl4j/RNNForecastingData.java:300-306 | the first date attribute of the header, 0 when there is none |
| Assembly.ClassAndDateIndexes | src/main/java/org/pentaho/di/plugins/dl4j/RNNForecastingData.java:290-298 | the loop finds both columns, and fails with an index error when there are more fields than attributes |
| Assembly.ModelDateIndex | src/main/java/org/pentaho/di/plugins/dl4j/RNNForecastingData.java:300-306 | the loop with break finds the first date attribute, 0 when there is none |
| Assembly.ForecastRow | src/main/java/org/pentaho/di/plugins/dl4j/RNNForecastingData.java:314-333 | a forecast row is width cells wide, holds the date at the date column and the prediction at a distinct class column, and null elsewhere |
| Assembly.ResizedRows | src/main/java/org/pentaho/di/plugins/dl4j/RNNForecastingData.java:317-319 | every input row resized to the output width, in order |
| Assembly.ForecastRows | src/main/java/org/pentaho/di/plugins/dl4j/RNNForecastingData.java:321-334 | one forecast row per date, holding the first prediction of its step |
| Assembly.AssembleRows | src/main/java/org/pentaho/di/plugins/dl4j/RNNForecastingData.java:314-336 | the two fill loops give the resized input rows followed by the forecast rows, or an index error |
| Assembly.CallOrder | src/main/java/org/pentaho/di/plugins/dl4j/RNNForecastingData.java:288-311 | a successful run primes with every row, then asks for dates, then forecasts, with the same count; any run makes a prefix of those calls |
| Assembly.ResultShape | src/main/java/org/pentaho/di/plugins/dl4j/RNNForecastingData.java:274-337 | a successful run outputs n + steps rows: the resized input rows, then per step the first prediction and the step's date in a forecast row |
| Assembly.ZeroStepsStillCallsForecaster | src/main/java/org/pentaho/di/plugins/dl4j/RNNForecastingData.java:308-321 | with a count of 0 the forecaster is still asked for dates and a forecast, and the output is the resized input rows |
| Assembly.NoDateAttributeFails | src/main/java/org/pentaho/di/plugins/dl4j/RNNForecastingData.java:300-310 | without a date attribute a positive step count fails |
| Assembly.ClassColumnComparesFieldWithAttribute | src/main/java/org/pentaho/di/plugins/dl4j/RNNForecastingData.java:292-295 | header [a, b, c] fed by fields [b, c, a] maps to [2, 0, 1], and the prediction goes to column 1 |
| Data.ForecastingData.constructor | src/main/java/org/pentaho/di/plugins/dl4j/RNNForecastingData.java:72-74 | no model, mapping, buffer or output format yet |
| Data.ForecastingData.SetModel | src/main/java/org/pentaho/di/plugins/dl4j/RNNForecastingData.java:81-83 | installs the model; nothing else changes |
| Data.ForecastingData.SetOutputRowMeta | src/main/java/org/pentaho/di/plugins/dl4j/RNNForecastingData.java:108-110 | installs the output format; nothing else changes |
| Data.ForecastingData.MapIncomingRowMetaData | src/main/java/org/pentaho/di/plugins/dl4j/RNNForecastingData.java:124-127 | the stored mapping is findMappings of the header and the incoming fields |
| Data.ForecastingData.ConstructInstance | src/main/java/org/pentaho/di/plugins/dl4j/RNNForecastingData.java:505-591 | allocates the buffer when absent or asked to, else reuses it; the buffer's first values are the row's vector and the rest is untouched; a short reused buffer is an index error; the string values written are recorded |
| Data.ForecastingData.FillVector | src/main/java/org/pentaho/di/plugins/dl4j/RNNForecastingData.java:516-586 | the loop writes the row's vector into the buffer, up to its length |
| Data.ForecastingData.ReadFeature | src/main/java/org/pentaho/di/plugins/dl4j/RNNForecastingData.java:518-585 | one attribute's value as the vector defines it; a string attribute read as a string is stored in the header |
| Data.ForecastingData.ConstructBatch | src/main/java/org/pentaho/di/plugins/dl4j/RNNForecastingData.java:281-287 | the batch holds every row's vector in order, each in a fresh buffer; later rows' string values overwrite earlier ones |
| Data.ForecastingData.ForecastFromBatch | src/main/java/org/pentaho/di/plugins/dl4j/RNNForecastingData.java:288-337 | the result and the calls are those of the run on this batch |
| Data.ForecastingData.ForecastPrimed | src/main/java/org/pentaho/di/plugins/dl4j/RNNForecastingData.java:290-337 | after priming, the result and the further calls are those of the primed run |
| Data.ForecastingData.ForecastSteps | src/main/java/org/pentaho/di/plugins/dl4j/RNNForecastingData.java:308-337 | with the step count known, the dates, the forecast and the assembled rows are those of the steps run |
| Data.ForecastingData.GenerateForecast | src/main/java/org/pentaho/di/plugins/dl4j/RNNForecastingData.java:274-337 | the result and the forecaster calls are those of the forecast run; no model is a null error; the class index becomes 0; the history is the batch once primed |
| Step.ModelSource | src/main/java/org/pentaho/di/plugins/dl4j/RNNForecasting.java:129-150 | the model comes from the file when one is named, else from the settings; it fails exactly when neither is available |
| Step.BatchScoringSizeOrder | src/main/java/org/pentaho/di/plugins/dl4j/RNNForecasting.java:166-194 | the size comes from the steps text, then the model's preferred size, then the default 1; it fails only when the model is not a batch predictor |
| Step.SettingsHoldModelAfterSetup | src/main/java/org/pentaho/di/plugins/dl4j/RNNForecastingMeta.java:452-471 | once the first row installed a model, getFields leaves the settings holding one, unchanged if they had one |
| Step.ForecastingStep.constructor | src/main/java/org/pentaho/di/plugins/dl4j/RNNForecasting.java:58-61 | a fresh step: first row pending, no model, no buffer, no output |
| Step.ForecastingStep.ProcessRow | src/main/java/org/pentaho/di/plugins/dl4j/RNNForecasting.java:101-223 | the step stops exactly when it does not return true; the first row installs the model, the mapping, the settings and the batch size and starts the buffer; later rows are appended and leave the model, its state, the mapping, the output format and the value buffer untouched; the end of the stream keeps the output format and emits the run's output over every row read, or fails |
| Step.ForecastingStep.SetUpFirstRow | src/main/java/org/pentaho/di/plugins/dl4j/RNNForecasting.java:124-198 | the first-row block: output format, model source, mapping, getFields, batch size, empty buffer, or the first failure |
| Step.ForecastingStep.OutputBatchRows | src/main/java/org/pentaho/di/plugins/dl4j/RNNForecasting.java:225-242 | the forecast run over the buffered rows, at the output width the first row set (left unchanged), is emitted in order and the buffer is cleared, or nothing is emitted on failure; the mapping, the model and the output format stay as they were |
| Step.RunStream | src/main/java/org/pentaho/di/plugins/dl4j/RNNForecasting.java:101-242 | a fresh step driven over a stream of rows always stops; an empty stream fails for want of a model; a failure emits nothing; a success emits the run over every row read, with each input row resized to the incoming width followed by the forecast rows |
| Step.EmittedRowsStartWithInput | src/main/java/org/pentaho/di/plugins/dl4j/RNNForecasting.java:225-238 | the emitted rows start with every row read, in order, each resized and keeping its own cells |
| Dialog.FixedLength | src/main/java/org/pentaho/di/plugins/dl4j/RNNForecastingDialog.java:669-687 | a non-positive length leaves the text; otherwise the result has exactly that length, agrees with the text on its prefix and is pad beyond it |
| Dialog.GetFixedLengthString | src/main/java/org/pentaho/di/plugins/dl4j/RNNForecastingDialog.java:669-687 | the truncation or the buffer-filling loop gives the fixed-length form |
| Dialog.FixedLengthCases | src/main/java/org/pentaho/di/plugins/dl4j/RNNForecastingDialog.java:676-683 | a long text is truncated to len; a short one is kept and followed by exactly len - length pad characters |
| Dialog.MaxNameLength | src/main/java/org/pentaho/di/plugins/dl4j/RNNForecastingDialog.java:509-514 | the maximum attribute-name length: at least every name's, attained by one |
| Dialog.ColumnWidth | src/main/java/org/pentaho/di/plugins/dl4j/RNNForecastingDialog.java:509-524 | the column width is at least 16 and every name length + 12, and is one of those |
| Dialog.ColumnWidthOf | src/main/java/org/pentaho/di/plugins/dl4j/RNNForecastingDialog.java:509-524 | the running-maximum loop and the clamp give the column width |
| Dialog.IndexOfField | src/main/java/org/pentaho/di/plugins/dl4j/RNNForecastingDialog.java:562 | the first field of that name, -1 exactly when there is none |
| Dialog.MappingString | src/main/java/org/pentaho/di/plugins/dl4j/RNNForecastingDialog.java:498-585 | the text is the two title lines followed by every attribute's line, in header order |
| Dialog.AttributeLineLayout | src/main/java/org/pentaho/di/plugins/dl4j/RNNForecastingDialog.java:550-554 | every attribute line starts with a column of exactly the width, holding the label and name, then the arrow, and ends with a line break |
| Dialog.NoMatchShown | src/main/java/org/pentaho/di/plugins/dl4j/RNNForecastingDialog.java:556-568 | the right-hand column starts with a dash exactly when no incoming field has the attribute's name, and is then the dash and the no-match message; otherwise it starts with a digit |
| Dialog.MatchedPositionShown | src/main/java/org/pentaho/di/plugins/dl4j/RNNForecastingDialog.java:566-568 | a matched attribute's line names its field's 1-based position, and that number parses back exactly |
| Dialog.MismatchPositionShown | src/main/java/org/pentaho/di/plugins/dl4j/RNNForecastingDialog.java:561-562 | a mismatched attribute's line names the 1-based position of the first field of its name |
| Dialog.InFieldTextIsOneLine | src/main/java/org/pentaho/di/plugins/dl4j/RNNForecastingDialog.java:556-583 | the right-hand column is one line closed by a line break |
| Dialog.AttributeLineIsOneLine | src/main/java/org/pentaho/di/plugins/dl4j/RNNForecastingDialog.java:550-583 | an attribute line holds exactly one line break |
| Dialog.ReportLineCount | src/main/java/org/pentaho/di/plugins/dl4j/RNNForecastingDialog.java:534-585 | the lines of n attributes hold exactly n line breaks |
| Dialog.ReportLines | src/main/java/org/pentaho/di/plugins/dl4j/RNNForecastingDialog.java:525-585 | the report has exactly one line per attribute after the two title lines |

## Left out

- Model loading and files: reading and deserializing the model file, and
  checking that it exists, are not modelled. What a load yields is a
  parameter (`loaded`), so a missing or unreadable file is `None`.
- Copying the settings' model by serialization is taken to succeed; the
  failure of that copy is not modelled.
- Variable substitution is the parameter `env`.
- The settings' XML and repository persistence, `check`, `clone`, `init`
  and the dialog's widgets are not part of this model.
- Logging is not modelled. Neither is the dialog's catch of a failure to
  find the previous step's fields; `mappingString` is modelled from the
  fields it receives.
- Floating point: feature values are `real`. `Double.toString` of a
  prediction is the parameter `show`, and the binary-string storage of the
  output cells is a cell constructor.
- The forecaster's internals (its lag maker, recurrent state, time-stamp
  arithmetic and date formatting) are the functions of `Classifier.Oracle`.
  `model.done()` at the end of the stream does nothing the model can see.
- The clear-previous-state flag is carried in the settings. The code never
  consults it.
- `clearPreviousState`, `setPreviousState`, `getPreviousState`, `forecast`
  with overlay data, `loadBaseModel`, `loadSerializedState` and `toString`
  of the classifier are not called by the modelled core.
- The commented-out `generatePredictions` and `generatePrediction` are not
  modelled.
- The model header and the incoming fields are taken to be non-null, so
  `findMappings` cannot throw and the step's catch around
  `mapIncomingRowMetaData` is not modelled.
- Common.ParseInt: only the ASCII digits '0'..'9' count as digits.
  Java's `Integer.parseInt` and `new Integer(String)` also accept the other
  Unicode decimal digits of the basic plane (for example U+0663); the model
  rejects such text as a `NumberFormatException`. The set of those digits
  depends on the Unicode version of the Java runtime.
- Common.ParseIntRejects: "no digit" means no ASCII digit. Text made of
  other Unicode decimal digits, which Java parses, is outside the model as
  stated under `Common.ParseInt`.
- Dialog.FixedLength: lengths count Unicode scalar values, while Java's
  `length()` and `substring` count UTF-16 code units. A text with a
  character outside the basic plane is padded or cut at a different place,
  and Java's cut can split a surrogate pair, which the model cannot express.
- Dialog.GetFixedLengthString: truncates and pads by scalar values, not by
  UTF-16 code units, for the reason given under `Dialog.FixedLength`.
- Dialog.FixedLengthCases: the truncate and pad cases are stated for
  scalar-value lengths, not UTF-16 code units.
- Dialog.MaxNameLength: measures attribute names in scalar values. Java's
  `name().length()` counts UTF-16 code units, so a name holding an emoji is
  one shorter here per emoji.
- Dialog.ColumnWidth: follows the scalar-value name length. For the name
  "abcde" followed by one emoji the model gives 18 where Java gives 19.
- Dialog.ColumnWidthOf: the running maximum uses scalar-value lengths, as
  `Dialog.MaxNameLength` does.
- Dialog.AttributeLineLayout: the column width is counted in scalar values,
  not UTF-16 code units.
- Dialog.MappingString: the report is laid out with scalar-value lengths;
  for names outside the basic plane the columns differ from Java's.
- Dialog.IndexOfField: Kettle's `RowMeta.indexOfValue` compares names
  ignoring case; the model compares them exactly, because strings here
  have no case folding.
- Features.IndexOfValue: Weka's label lookup is a hash lookup; the model
  takes the first equal label, which is the same when labels are distinct
  as Weka requires.
- Data.ForecastingData.ConstructInstance: the `DenseInstance` that wraps
  the buffer is not modelled as a separate object. The buffer is the
  instance, so reuse with `freshVector` false aliases earlier instances,
  as the code does.
- Step.ForecastingStep.ProcessRow: the engine's row counting, feedback
  logging and `setOutputDone` bookkeeping are reduced to the `outputDone`
  flag.
- `constructInstance`, `generateForecast` and `mappingString` are each
  split into a few helper methods: `FillVector`, `ReadFeature`,
  `ConstructBatch`, `BatchInstance`, `ForecastFromBatch`, `ForecastPrimed`,
  `ForecastSteps`, `CopyResized`, `FillForecasts`, `ColumnWidthOf`,
  `TitleLinesOf` and `AttributeLineOf`; the row loop of `outputBatchRows`
  is `EmitRows`. Each helper keeps the code's order of effects.
- Dialog.MappingString collects the attribute lines before appending them
  to the title lines. The text is the same as the code's in-place
  appends.
