/**
 * RNNForecastingClassifier: the wrapper around the Weka time-series
 * forecaster. The forecaster itself is opaque; what it does is given by an
 * Oracle, a record of the functions Weka computes. The wrapper's own logic is
 * the forecast-date cursor and the split of the target-field option.
 */
module Classifier {
  import opened Common
  import opened Schema

  /**
   * What the Weka forecaster computes, as functions of the data it was primed with:
   *   accepts:     primeForecaster succeeds on this batch (otherwise it throws)
   *   currentTime: TSLagMaker.getCurrentTimeStampValue after priming
   *   advance:     TSLagMaker.advanceSuppliedTimeValue
   *   formatDate:  Attribute.formatDate with a date attribute's pattern
   *   predict:     forecast(steps): per step, the predictions of every target (None: it throws)
   *   options:     WekaForecaster.getOptions
   *   batchSize:   BatchPredictor.getBatchSize ("" for null); None when the model is not a BatchPredictor
   */
  datatype Oracle = Oracle(
    accepts: seq<Instance> -> bool,
    currentTime: seq<Instance> -> real,
    advance: real -> real,
    formatDate: (string, real) -> string,
    predict: (seq<Instance>, int) -> Option<seq<seq<real>>>,
    options: seq<string>,
    batchSize: Option<string>)

  /** A deserialized model: the training header, its class index, and the forecaster. */
  datatype ModelSpec = ModelSpec(header: seq<Attribute>, classIndex: int, oracle: Oracle)

  /** The calls the step makes on the forecaster, in the order it makes them. */
  datatype Call = Primed(rows: nat) | DatesRequested(steps: int) | Forecasted(steps: int)

  /** The time cursor advanced k times from t. */
  function Advanced(advance: real -> real, t: real, k: nat): real
  {
    if k == 0 then t else advance(Advanced(advance, t, k - 1))
  }

  /**
   * The outcome of getForecastDates for the date attribute dateAtt and the
   * cursor start t0. A negative step count fails when the result list is
   * allocated (negative capacity); formatting a value with an attribute that
   * is not a date attribute throws, which matters once there is a step.
   */
  function ForecastDatesOf(dateAtt: Attribute, t0: real, oracle: Oracle, steps: int): Result<seq<string>>
  {
    if steps < 0 then Err(IllegalArgument)
    else if steps == 0 then Ok([])
    else if !dateAtt.atype.DateAttr? then Err(IllegalArgument)
    else Ok(seq(steps, i requires 0 <= i < steps =>
                 oracle.formatDate(dateAtt.atype.pattern, Advanced(oracle.advance, t0, i + 1))))
  }

  lemma {:induction false} AdvancedAdd(advance: real -> real, t: real, a: nat, b: nat)
    ensures Advanced(advance, Advanced(advance, t, a), b) == Advanced(advance, t, a + b)
    decreases b
  {
    if b > 0 {
      AdvancedAdd(advance, t, a, b - 1);
    }
  }

  /**
   * Forecasting a + b dates is forecasting a dates and then b more from the
   * cursor those a advances reached: every date is appended after the previous one.
   */
  lemma ForecastDatesConcat(dateAtt: Attribute, t0: real, oracle: Oracle, a: nat, b: nat)
    requires dateAtt.atype.DateAttr?
    ensures ForecastDatesOf(dateAtt, t0, oracle, a + b).Ok?
    ensures ForecastDatesOf(dateAtt, t0, oracle, a + b).value ==
      ForecastDatesOf(dateAtt, t0, oracle, a).value
      + ForecastDatesOf(dateAtt, Advanced(oracle.advance, t0, a), oracle, b).value
  {
    var all := ForecastDatesOf(dateAtt, t0, oracle, a + b).value;
    var left := ForecastDatesOf(dateAtt, t0, oracle, a).value;
    var right := ForecastDatesOf(dateAtt, Advanced(oracle.advance, t0, a), oracle, b).value;
    assert |all| == |left + right|;
    forall i | a <= i < a + b
      ensures all[i] == (left + right)[i]
    {
      AdvancedAdd(oracle.advance, t0, a, i - a + 1);
    }
    assert all == left + right;
  }

  /** The raw comma-separated pieces of s (there is always at least one). */
  function Pieces(s: string): (ps: seq<string>)
    ensures |ps| > 0
  {
    if |s| == 0 then [""]
    else
      var init := Pieces(s[..|s| - 1]);
      if s[|s| - 1] == ',' then init + [""]
      else init[..|init| - 1] + [init[|init| - 1] + [s[|s| - 1]]]
  }

  /** Pieces joined back with commas. */
  function Join(ps: seq<string>): string
    requires |ps| > 0
  {
    if |ps| == 1 then ps[0] else Join(ps[..|ps| - 1]) + "," + ps[|ps| - 1]
  }

  function DropTrailingEmpty(ps: seq<string>): (r: seq<string>)
    ensures |r| <= |ps| && r == ps[..|r|]
    ensures forall k :: |r| <= k < |ps| ==> ps[k] == ""
    ensures |r| > 0 ==> r[|r| - 1] != ""
  {
    if |ps| > 0 && ps[|ps| - 1] == "" then DropTrailingEmpty(ps[..|ps| - 1]) else ps
  }

  /**
   * String.split(","): the whole string when it holds no comma, otherwise its
   * pieces with the trailing empty ones removed.
   */
  function JavaSplit(s: string): seq<string>
  {
    if ',' !in s then [s] else DropTrailingEmpty(Pieces(s))
  }

  /** Adding a character to s extends its last piece, or opens a new empty one after a comma. */
  lemma PiecesSnoc(s: string, c: char)
    ensures var init := Pieces(s);
      var ps := Pieces(s + [c]);
      && (c == ',' ==> ps == init + [""])
      && (c != ',' ==> |ps| == |init| && ps[..|ps| - 1] == init[..|init| - 1] && ps[|ps| - 1] == init[|init| - 1] + [c])
  {
    assert (s + [c])[..|s|] == s;
  }

  /** Joining the pieces with commas gives back the text. */
  lemma {:induction false} PiecesJoin(s: string)
    ensures Join(Pieces(s)) == s
    decreases |s|
  {
    if |s| > 0 {
      var pre := s[..|s| - 1];
      var c := s[|s| - 1];
      assert s == pre + [c];
      PiecesJoin(pre);
      PiecesSnoc(pre, c);
      var init := Pieces(pre);
      var ps := Pieces(s);
      if c == ',' {
        assert ps[..|ps| - 1] == init;
      } else if |init| > 1 {
        assert Join(init) == Join(init[..|init| - 1]) + "," + init[|init| - 1];
      }
    }
  }

  /** No piece holds a comma, and the last one is non-empty when the text does not end with a comma. */
  lemma {:induction false} PiecesCommaFree(s: string)
    ensures forall k :: 0 <= k < |Pieces(s)| ==> ',' !in Pieces(s)[k]
    ensures |s| > 0 && s[|s| - 1] != ',' ==> Pieces(s)[|Pieces(s)| - 1] != ""
    decreases |s|
  {
    if |s| > 0 {
      var pre := s[..|s| - 1];
      var c := s[|s| - 1];
      assert s == pre + [c];
      PiecesCommaFree(pre);
      PiecesSnoc(pre, c);
      var init := Pieces(pre);
      var ps := Pieces(s);
      if c != ',' {
        forall k | 0 <= k < |ps| ensures ',' !in ps[k] {
          if k < |ps| - 1 {
            assert ps[k] == ps[..|ps| - 1][k] == init[k];
          }
        }
      }
    }
  }

  /**
   * The target names: none holds a comma, and joined with commas they give
   * back the option text whenever it does not end with a comma.
   */
  lemma SplitRoundTrip(s: string)
    ensures forall k :: 0 <= k < |JavaSplit(s)| ==> ',' !in JavaSplit(s)[k]
    ensures |s| > 0 && s[|s| - 1] != ',' ==> |JavaSplit(s)| > 0 && Join(JavaSplit(s)) == s
  {
    PiecesJoin(s);
    PiecesCommaFree(s);
    if ',' in s && |s| > 0 && s[|s| - 1] != ',' {
      var ps := Pieces(s);
      assert DropTrailingEmpty(ps) == ps;
    }
  }

  /** Java's split keeps a lone empty string but drops the pieces of a string of commas only. */
  lemma SplitEdgeCases()
    ensures JavaSplit("") == [""]
    ensures JavaSplit(",,") == []
  {
    assert ",,"[..1] == ",";
    assert ","[..0] == "";
    assert Pieces(",,") == ["", "", ""];
  }

  class ForecastingClassifier {
    const header: seq<Attribute>
    const oracle: Oracle
    /** Instances.classIndex of the header */
    var classIndex: int
    /** The value last given to each string attribute of the header (Attribute.setStringValue) */
    var stringValues: map<nat, string>
    /** The batch the forecaster was last primed with */
    var history: seq<Instance>
    /** The calls made on the forecaster so far */
    ghost var calls: seq<Call>

    constructor (spec: ModelSpec)
      ensures header == spec.header && oracle == spec.oracle && classIndex == spec.classIndex
      ensures stringValues == map[] && history == [] && calls == []
    {
      header, oracle, classIndex := spec.header, spec.oracle, spec.classIndex;
      stringValues, history := map[], [];
      calls := [];
    }

    /** Instances.setClassIndex: an index past the last attribute is rejected. */
    method SetClassIndex(c: int) returns (ok: bool)
      modifies this
      ensures ok == (c < |header|)
      ensures classIndex == if ok then c else old(classIndex)
      ensures stringValues == old(stringValues) && history == old(history) && calls == old(calls)
    {
      ok := c < |header|;
      if ok {
        classIndex := c;
      }
    }

    /** Attribute.setStringValue on string attribute i of the header: it keeps just this value. */
    method SetStringValue(i: nat, s: string)
      modifies this
      ensures stringValues == old(stringValues)[i := s]
      ensures classIndex == old(classIndex) && history == old(history) && calls == old(calls)
    {
      stringValues := stringValues[i := s];
    }

    method PrimeForecaster(batch: seq<Instance>) returns (ok: bool)
      modifies this
      ensures ok == oracle.accepts(batch)
      ensures history == if ok then batch else old(history)
      ensures calls == old(calls) + [Primed(|batch|)]
      ensures classIndex == old(classIndex) && stringValues == old(stringValues)
    {
      ok := oracle.accepts(batch);
      if ok {
        history := batch;
      }
      calls := calls + [Primed(|batch|)];
    }

    /**
     * Advances the lag maker's current time stamp once per step and formats
     * each value with the date attribute at dateIndex; lastInst only supplies
     * that attribute (through its dataset, the header).
     */
    method GetForecastDates(steps: int, lastInst: Instance, dateIndex: nat) returns (r: Result<seq<string>>)
      requires dateIndex < |header|
      modifies this
      ensures r == ForecastDatesOf(header[dateIndex], oracle.currentTime(history), oracle, steps)
      ensures calls == old(calls) + [DatesRequested(steps)]
      ensures classIndex == old(classIndex) && stringValues == old(stringValues) && history == old(history)
    {
      calls := calls + [DatesRequested(steps)];
      if steps < 0 {
        return Err(IllegalArgument);
      }
      var dates: seq<string> := [];
      var dateAtt := header[dateIndex];
      var t0 := oracle.currentTime(history);
      var lastDate := t0;
      var i := 0;
      while i < steps
        invariant 0 <= i <= steps
        invariant i > 0 ==> dateAtt.atype.DateAttr?
        invariant lastDate == Advanced(oracle.advance, t0, i)
        invariant |dates| == i
        invariant forall k :: 0 <= k < i ==>
          dates[k] == oracle.formatDate(dateAtt.atype.pattern, Advanced(oracle.advance, t0, k + 1))
      {
        lastDate := oracle.advance(lastDate);
        if !dateAtt.atype.DateAttr? {
          return Err(IllegalArgument);
        }
        dates := dates + [oracle.formatDate(dateAtt.atype.pattern, lastDate)];
        i := i + 1;
      }
      assert steps > 0 ==> dates == ForecastDatesOf(dateAtt, t0, oracle, steps).value;
      r := Ok(dates);
    }

    method Forecast(steps: int) returns (r: Result<seq<seq<real>>>)
      modifies this
      ensures r == match oracle.predict(history, steps)
                   case None => Err(ForecasterFailure)
                   case Some(p) => Ok(p)
      ensures calls == old(calls) + [Forecasted(steps)]
      ensures classIndex == old(classIndex) && stringValues == old(stringValues) && history == old(history)
    {
      calls := calls + [Forecasted(steps)];
      var p := oracle.predict(history, steps);
      if p.None? {
        return Err(ForecasterFailure);
      }
      r := Ok(p.value);
    }

    /** The comma-separated pieces of option 1, in order; fewer than two options throws. */
    method GetTargetFieldNames() returns (r: Result<seq<string>>)
      ensures |oracle.options| < 2 ==> r == Err(IndexOutOfBounds)
      ensures |oracle.options| >= 2 ==> r == Ok(JavaSplit(oracle.options[1]))
    {
      if |oracle.options| < 2 {
        return Err(IndexOutOfBounds);
      }
      var targetStrs := JavaSplit(oracle.options[1]);
      var targetFields: seq<string> := [];
      var i := 0;
      while i < |targetStrs|
        invariant 0 <= i <= |targetStrs|
        invariant targetFields == targetStrs[..i]
      {
        targetFields := targetFields + [targetStrs[i]];
        i := i + 1;
      }
      assert targetStrs[..|targetStrs|] == targetStrs;
      r := Ok(targetFields);
    }
  }
}
