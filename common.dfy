/**
 * Shared vocabulary: optional values, results carrying the Java exception that
 * ended an operation, and the two pieces of java.lang.Integer behaviour the
 * step relies on (parseInt and the decimal rendering used in the mapping report).
 */
module Common {

  datatype Option<+T> = None | Some(value: T)

  /** The kinds of exception that end an operation of the step. */
  datatype Failure =
    | IllegalArgument          // java.lang.IllegalArgumentException
    | IndexOutOfBounds         // array or list index out of range
    | NumberFormat             // Integer.parseInt / new Integer(String) rejected its text
    | NullPointer              // a field that is still null was dereferenced
    | ClassCast                // the model is not a weka.core.BatchPredictor
    | ForecasterFailure        // the Weka forecaster threw while priming or forecasting
    | NoFilenameToLoadModelFrom
    | ProblemDeserializingModel

  datatype Result<+T> = Ok(value: T) | Err(failure: Failure)

  const MinInt: int := -0x8000_0000
  const MaxInt: int := 0x7FFF_FFFF

  predicate IsDigit(c: char) { '0' <= c <= '9' }

  predicate AllDigits(s: string) { forall k :: 0 <= k < |s| ==> IsDigit(s[k]) }

  /** The value of a string of decimal digits, read most significant first. */
  function DigitsValue(s: string): nat
    requires AllDigits(s)
  {
    if |s| == 0 then 0
    else DigitsValue(s[..|s| - 1]) * 10 + (s[|s| - 1] as int - '0' as int)
  }

  /**
   * java.lang.Integer.parseInt: an optional '+' or '-' followed by at least one
   * decimal digit, whose value must fit in 32 bits; anything else is None
   * (a NumberFormatException).
   */
  function ParseInt(s: string): (r: Option<int>)
    ensures r.Some? ==> MinInt <= r.value <= MaxInt
    ensures r.Some? ==> |s| > 0
  {
    if |s| == 0 then None
    else
      var signed := s[0] == '-' || s[0] == '+';
      var digits := if signed then s[1..] else s;
      if |digits| == 0 || !AllDigits(digits) then None
      else
        var v: int := if s[0] == '-' then -(DigitsValue(digits) as int) else DigitsValue(digits);
        if MinInt <= v <= MaxInt then Some(v) else None
  }

  function DigitChar(d: nat): char
    requires d < 10
  {
    ('0' as int + d) as char
  }

  /** Decimal rendering of a natural number, without leading zeros. */
  function NatToString(n: nat): string
    decreases n
  {
    if n < 10 then [DigitChar(n)] else NatToString(n / 10) + [DigitChar(n % 10)]
  }

  /** Decimal rendering of an int, as String.valueOf / string concatenation gives it. */
  function IntToString(n: int): string
  {
    if n < 0 then "-" + NatToString(-n) else NatToString(n)
  }

  lemma {:induction false} NatToStringDigits(n: nat)
    ensures |NatToString(n)| > 0
    ensures AllDigits(NatToString(n))
    ensures DigitsValue(NatToString(n)) == n
    decreases n
  {
    var s := NatToString(n);
    if n >= 10 {
      NatToStringDigits(n / 10);
      assert s[..|s| - 1] == NatToString(n / 10);
    }
  }

  /** Rendering a 32-bit int in decimal and parsing it back gives the same int. */
  lemma ParseIntRoundTrip(n: int)
    requires MinInt <= n <= MaxInt
    ensures ParseInt(IntToString(n)) == Some(n)
  {
    if n < 0 {
      NatToStringDigits(-n);
      var s := IntToString(n);
      assert s[1..] == NatToString(-n);
    } else {
      NatToStringDigits(n);
    }
  }

  /** Text that is not a number, or a number outside 32 bits, is rejected. */
  lemma ParseIntRejects(s: string)
    requires |s| > 0 && forall k :: 0 <= k < |s| ==> !IsDigit(s[k])
    ensures ParseInt(s) == None
  {
    if s[0] == '-' || s[0] == '+' {
      if |s| > 1 {
        assert !IsDigit(s[1..][0]);
      }
    }
  }
}
