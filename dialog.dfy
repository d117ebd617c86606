/**
 * The text of the dialog's mapping tab: a fixed-width column of model
 * attributes, each followed by the incoming field it is read from, and the
 * pad/truncate helper that aligns the column.
 */
module Dialog {
  import opened Common
  import opened Schema
  import Mapping

  /**
   * The fixed-length form of s: s itself for a non-positive length, else its
   * first len characters, padded with pad up to len.
   */
  function FixedLength(s: string, pad: char, len: int): (r: string)
    ensures len <= 0 ==> r == s
    ensures len > 0 ==> |r| == len
    ensures forall k :: 0 <= k < |s| && k < |r| ==> r[k] == s[k]
    ensures forall k :: |s| <= k < |r| ==> r[k] == pad
  {
    if len <= 0 then s
    else if |s| >= len then s[..len]
    else s + seq(len - |s|, _ => pad)
  }

  /** getFixedLengthString: truncates, or fills a buffer of pad characters and appends it. */
  method GetFixedLengthString(s: string, pad: char, len: int) returns (r: string)
    ensures r == FixedLength(s, pad, len)
  {
    if len <= 0 {
      return s;
    }
    if |s| >= len {
      return s[..len];
    }
    var buf := new char[len - |s|];
    var j := 0;
    while j < len - |s|
      invariant 0 <= j <= len - |s|
      invariant forall k :: 0 <= k < j ==> buf[k] == pad
    {
      buf[j] := pad;
      j := j + 1;
    }
    r := s + buf[..];
    assert r == FixedLength(s, pad, len);
  }

  /** For a positive length the helper is idempotent: its result already has that length. */
  lemma FixedLengthIdempotent(s: string, pad: char, len: int)
    ensures FixedLength(FixedLength(s, pad, len), pad, len) == FixedLength(s, pad, len)
  {
  }

  /**
   * The result is s truncated when s is at least len long, and s followed by
   * len - |s| pad characters otherwise.
   */
  lemma FixedLengthCases(s: string, pad: char, len: int)
    requires len > 0
    ensures |s| >= len ==> FixedLength(s, pad, len) == s[..len]
    ensures |s| < len ==>
      && FixedLength(s, pad, len)[..|s|] == s
      && multiset(FixedLength(s, pad, len)[|s|..]) == multiset{}[pad := len - |s|]
  {
    if |s| < len {
      var r := FixedLength(s, pad, len);
      PadMultiset(r[|s|..], pad);
    }
  }

  lemma {:induction false} PadMultiset(t: string, pad: char)
    requires forall k :: 0 <= k < |t| ==> t[k] == pad
    ensures multiset(t) == multiset{}[pad := |t|]
  {
    if |t| > 0 {
      PadMultiset(t[..|t| - 1], pad);
      assert t == t[..|t| - 1] + [pad];
    }
  }

  /** The longest attribute name. */
  function MaxNameLength(header: seq<Attribute>): (m: nat)
    ensures forall i :: 0 <= i < |header| ==> |header[i].name| <= m
    ensures |header| == 0 ==> m == 0
    ensures |header| > 0 ==> exists i :: 0 <= i < |header| && |header[i].name| == m
  {
    if |header| == 0 then 0
    else
      var m := MaxNameLength(header[..|header| - 1]);
      if |header[|header| - 1].name| > m then |header[|header| - 1].name| else m
  }

  /**
   * The width of the attribute column: the longest name plus room for the
   * type label, but never narrower than the column title.
   */
  function ColumnWidth(header: seq<Attribute>): (w: nat)
    ensures w >= 16
    ensures forall i :: 0 <= i < |header| ==> |header[i].name| + 12 <= w
    ensures w == 16 || exists i :: 0 <= i < |header| && |header[i].name| + 12 == w
  {
    var m := MaxNameLength(header) + 12;
    if m < 16 then 16 else m
  }

  /** The localized texts the report uses. */
  datatype Messages = Messages(
    modelAttsHeader: string,
    incomingFields: string,
    numeric: string,
    nominal: string,
    stringType: string,
    date: string,
    boolean: string,
    missingNoMatch: string,
    missingTypeMismatch: string)

  /**
   * The type label of an attribute. A date attribute is numeric to Weka, so
   * it is labelled numeric; a relational attribute gets no label.
   */
  function AttrLabel(a: AttrType, msgs: Messages): string
  {
    if a.IsNumeric() then "(" + msgs.numeric + ")"
    else if a.IsNominal() then "(" + msgs.nominal + ")"
    else if a.IsString() then "(" + msgs.stringType + ")"
    else if a.IsDate() then "(" + msgs.date + ")"
    else "("
  }

  /** The type label of an incoming field; a boolean field is labelled before the numeric test. */
  function FieldLabel(t: FieldType, msgs: Messages): string
  {
    if t == Boolean then msgs.boolean + ")"
    else if t.IsNumeric() then msgs.numeric + ")"
    else if t == String then msgs.stringType + ")"
    else if t == Date then msgs.date + ")"
    else ""
  }

  /** RowMeta.indexOfValue: the first field of that name, -1 when there is none. */
  function IndexOfField(fields: seq<Field>, name: string): (r: int)
    ensures -1 <= r < |fields|
    ensures r >= 0 ==> fields[r].name == name && forall j :: 0 <= j < r ==> fields[j].name != name
    ensures r == -1 ==> forall j :: 0 <= j < |fields| ==> fields[j].name != name
  {
    if |fields| == 0 then -1
    else if fields[0].name == name then 0
    else
      var k := IndexOfField(fields[1..], name);
      if k < 0 then -1 else k + 1
  }

  /** What the right-hand column says about an attribute whose mapping entry is m. */
  function InFieldText(fields: seq<Field>, a: Attribute, m: int, msgs: Messages): string
    requires m == Mapping.NO_MATCH || m == Mapping.TYPE_MISMATCH || 0 <= m < |fields|
  {
    if m == Mapping.NO_MATCH then "- " + msgs.missingNoMatch + "\n"
    else if m == Mapping.TYPE_MISMATCH then IntToString(IndexOfField(fields, a.name) + 1) + " " + msgs.missingTypeMismatch + "\n"
    else IntToString(m + 1) + " (" + FieldLabel(fields[m].ftype, msgs) + " " + fields[m].name + "\n"
  }

  /** The line of one attribute: its label and name in a column of width w, an arrow, the incoming field. */
  function AttributeLine(fields: seq<Field>, a: Attribute, m: int, w: nat, msgs: Messages): string
    requires m == Mapping.NO_MATCH || m == Mapping.TYPE_MISMATCH || 0 <= m < |fields|
  {
    FixedLength(AttrLabel(a.atype, msgs) + " " + a.name, ' ', w) + "\t--> " + InFieldText(fields, a, m, msgs)
  }

  /** The two title lines. */
  function TitleLines(w: nat, msgs: Messages): string
  {
    FixedLength(msgs.modelAttsHeader, ' ', w) + "\t    " + msgs.incomingFields + "\n"
    + FixedLength("----------------", '-', w) + "\t    ----------------\n"
  }

  /** The lines of the first n attributes. */
  function AttributeLines(header: seq<Attribute>, fields: seq<Field>, n: nat, w: nat, msgs: Messages): string
    requires n <= |header|
  {
    if n == 0 then ""
    else
      var m := Mapping.Mappings(header, fields)[n - 1];
      Mapping.EntryShape(header, fields, n - 1);
      AttributeLines(header, fields, n - 1, w, msgs) + AttributeLine(fields, header[n - 1], m, w, msgs)
  }

  /** The whole report of the mapping between the model's header and the incoming fields. */
  function Report(header: seq<Attribute>, fields: seq<Field>, msgs: Messages): string
  {
    var w := ColumnWidth(header);
    TitleLines(w, msgs) + AttributeLines(header, fields, |header|, w, msgs)
  }

  /** Extending the range by one attribute appends that attribute's line. */
  lemma AttributeLinesNext(header: seq<Attribute>, fields: seq<Field>, i: nat, w: nat, msgs: Messages)
    requires i < |header|
    ensures var m := Mapping.Mappings(header, fields)[i];
      && (m == Mapping.NO_MATCH || m == Mapping.TYPE_MISMATCH || 0 <= m < |fields|)
      && AttributeLines(header, fields, i + 1, w, msgs)
         == AttributeLines(header, fields, i, w, msgs) + AttributeLine(fields, header[i], m, w, msgs)
  {
    Mapping.EntryShape(header, fields, i);
  }

  /** The running maximum of the name lengths, widened by 12 and clamped to at least 16. */
  method ColumnWidthOf(header: seq<Attribute>) returns (maxLength: nat)
    ensures maxLength == ColumnWidth(header)
  {
    maxLength := 0;
    var i := 0;
    while i < |header|
      invariant 0 <= i <= |header|
      invariant maxLength == MaxNameLength(header[..i])
    {
      assert header[..i + 1][..i] == header[..i];
      if |header[i].name| > maxLength {
        maxLength := |header[i].name|;
      }
      i := i + 1;
    }
    assert header[..|header|] == header;
    maxLength := maxLength + 12;
    var minLength := 16;
    if maxLength < minLength {
      maxLength := minLength;
    }
  }

  /** The header line and the separator line of mappingString. */
  method TitleLinesOf(maxLength: nat, msgs: Messages) returns (lines: string)
    ensures lines == TitleLines(maxLength, msgs)
  {
    var headerS := GetFixedLengthString(msgs.modelAttsHeader, ' ', maxLength);
    var sep := GetFixedLengthString("----------------", '-', maxLength);
    sep := sep + "\t    ----------------\n";
    headerS := headerS + "\t    " + msgs.incomingFields + "\n";
    lines := headerS + sep;
  }

  /** The body of mappingString's loop: one attribute's line. */
  method AttributeLineOf(fields: seq<Field>, a: Attribute, m: int, maxLength: nat, msgs: Messages) returns (line: string)
    requires m == Mapping.NO_MATCH || m == Mapping.TYPE_MISMATCH || 0 <= m < |fields|
    ensures line == AttributeLine(fields, a, m, maxLength, msgs)
  {
    var attName := AttrLabel(a.atype, msgs) + " " + a.name;
    attName := GetFixedLengthString(attName, ' ', maxLength);
    attName := attName + "\t--> ";
    line := attName + InFieldText(fields, a, m, msgs);
  }

  /**
   * mappingString: computes the mapping and the column width, then appends
   * the title lines and one line per attribute.
   */
  method MappingString(header: seq<Attribute>, fields: seq<Field>, msgs: Messages) returns (result: string)
    ensures result == Report(header, fields, msgs)
  {
    var mappings := Mapping.FindMappings(header, fields);
    var ms := mappings[..];
    var maxLength := ColumnWidthOf(header);
    var title := TitleLinesOf(maxLength, msgs);
    var lines := "";
    var i := 0;
    while i < |header|
      invariant 0 <= i <= |header|
      invariant ms == Mapping.Mappings(header, fields)
      invariant lines == AttributeLines(header, fields, i, maxLength, msgs)
    {
      AttributeLinesNext(header, fields, i, maxLength, msgs);
      var line := AttributeLineOf(fields, header[i], ms[i], maxLength, msgs);
      lines := lines + line;
      i := i + 1;
    }
    result := title + lines;
  }

  /**
   * Every attribute line starts with a column of exactly the report width,
   * holding the attribute's label and name (truncated if need be), followed by
   * the arrow; every line ends with a newline.
   */
  lemma AttributeLineLayout(header: seq<Attribute>, fields: seq<Field>, msgs: Messages, i: nat)
    requires i < |header|
    ensures var m := Mapping.Mappings(header, fields)[i];
      m == Mapping.NO_MATCH || m == Mapping.TYPE_MISMATCH || 0 <= m < |fields|
    ensures var w := ColumnWidth(header);
      var line := AttributeLine(fields, header[i], Mapping.Mappings(header, fields)[i], w, msgs);
      var title := AttrLabel(header[i].atype, msgs) + " " + header[i].name;
      && |line| > w + 5
      && line[..w] == FixedLength(title, ' ', w)
      && line[w..w + 5] == "\t--> "
      && line[|line| - 1] == '\n'
      && (|title| <= w ==> line[..|title|] == title)
  {
    Mapping.EntryShape(header, fields, i);
    var w := ColumnWidth(header);
    var m := Mapping.Mappings(header, fields)[i];
    var title := AttrLabel(header[i].atype, msgs) + " " + header[i].name;
    var column := FixedLength(title, ' ', w);
    var t := InFieldText(fields, header[i], m, msgs);
    var line := column + "\t--> " + t;
    assert line == AttributeLine(fields, header[i], m, w, msgs);
    assert |column| == w;
    assert line[..w] == column;
    assert line[w..w + 5] == "\t--> ";
    assert t[|t| - 1] == '\n';
  }

  /**
   * For a matched attribute the right-hand column starts with the 1-based
   * position of its incoming field, and that number is read back exactly.
   */
  lemma MatchedPositionShown(header: seq<Attribute>, fields: seq<Field>, msgs: Messages, i: nat)
    requires i < |header| && |fields| <= MaxInt
    requires Mapping.Mappings(header, fields)[i] >= 0
    ensures var m := Mapping.Mappings(header, fields)[i];
      m < |fields| &&
      var t := InFieldText(fields, header[i], m, msgs);
      exists k :: 0 < k < |t| && t[k] == ' ' && ParseInt(t[..k]) == Some(m + 1)
  {
    Mapping.EntryShape(header, fields, i);
    var m := Mapping.Mappings(header, fields)[i];
    var t := InFieldText(fields, header[i], m, msgs);
    var digits := IntToString(m + 1);
    NatToStringDigits(m + 1);
    ParseIntRoundTrip(m + 1);
    assert t[..|digits|] == digits;
    assert t[|digits|] == ' ';
  }

  /**
   * The right-hand column starts with a dash exactly when no incoming field
   * carries the attribute's name, and then it is the dash and the no-match
   * message; every other column starts with a digit.
   */
  lemma NoMatchShown(header: seq<Attribute>, fields: seq<Field>, msgs: Messages, i: nat)
    requires i < |header|
    ensures var m := Mapping.Mappings(header, fields)[i];
      (m == Mapping.NO_MATCH || m == Mapping.TYPE_MISMATCH || 0 <= m < |fields|) &&
      var t := InFieldText(fields, header[i], m, msgs);
      && |t| > 0
      && (t[0] == '-' <==> forall j :: 0 <= j < |fields| ==> fields[j].name != header[i].name)
      && (t[0] != '-' ==> IsDigit(t[0]))
      && (t[0] == '-' ==> t == "- " + msgs.missingNoMatch + "\n")
  {
    Mapping.EntryShape(header, fields, i);
    Mapping.NoMatchIff(header, fields, i);
    var m := Mapping.Mappings(header, fields)[i];
    if m == Mapping.TYPE_MISMATCH {
      var p := IndexOfField(fields, header[i].name);
      NatToStringDigits(p + 1);
    } else if m != Mapping.NO_MATCH {
      NatToStringDigits(m + 1);
    }
  }

  /**
   * For a type mismatch the right-hand column starts with the 1-based
   * position of the first incoming field of the attribute's name.
   */
  lemma MismatchPositionShown(header: seq<Attribute>, fields: seq<Field>, msgs: Messages, i: nat)
    requires i < |header| && |fields| <= MaxInt
    requires Mapping.Mappings(header, fields)[i] == Mapping.TYPE_MISMATCH
    ensures var t := InFieldText(fields, header[i], Mapping.TYPE_MISMATCH, msgs);
      var p := IndexOfField(fields, header[i].name);
      && 0 <= p < |fields| && fields[p].name == header[i].name
      && exists k :: 0 < k < |t| && t[k] == ' ' && ParseInt(t[..k]) == Some(p + 1)
  {
    Mapping.TypeMismatchIff(header, fields, i);
    var t := InFieldText(fields, header[i], Mapping.TYPE_MISMATCH, msgs);
    var p := IndexOfField(fields, header[i].name);
    var digits := IntToString(p + 1);
    NatToStringDigits(p + 1);
    ParseIntRoundTrip(p + 1);
    assert t[..|digits|] == digits;
    assert t[|digits|] == ' ';
  }

  /** None of the texts the report is built from holds a line break. */
  predicate SingleLineTexts(header: seq<Attribute>, fields: seq<Field>, msgs: Messages)
  {
    && '\n' !in msgs.modelAttsHeader && '\n' !in msgs.incomingFields
    && '\n' !in msgs.missingNoMatch && '\n' !in msgs.missingTypeMismatch
    && '\n' !in msgs.numeric && '\n' !in msgs.nominal && '\n' !in msgs.stringType
    && '\n' !in msgs.date && '\n' !in msgs.boolean
    && (forall j :: 0 <= j < |header| ==> '\n' !in header[j].name)
    && (forall j :: 0 <= j < |fields| ==> '\n' !in fields[j].name)
  }

  /** The number of line breaks in s. */
  function LineBreaks(s: string): nat
  {
    if |s| == 0 then 0
    else LineBreaks(s[..|s| - 1]) + (if s[|s| - 1] == '\n' then 1 else 0)
  }

  /** Line breaks add up over a concatenation. */
  lemma {:induction false} LineBreaksConcat(a: string, b: string)
    ensures LineBreaks(a + b) == LineBreaks(a) + LineBreaks(b)
    decreases |b|
  {
    if |b| > 0 {
      var b' := b[..|b| - 1];
      assert (a + b)[..|a + b| - 1] == a + b';
      LineBreaksConcat(a, b');
    } else {
      assert a + b == a;
    }
  }

  /** A text without a line break counts none. */
  lemma {:induction false} NoLineBreaks(s: string)
    requires '\n' !in s
    ensures LineBreaks(s) == 0
    decreases |s|
  {
    if |s| > 0 {
      assert s[|s| - 1] in s;
      NoLineBreaks(s[..|s| - 1]);
    }
  }

  /** A single-line text closed by a line break counts exactly one. */
  lemma OneLine(body: string)
    requires '\n' !in body
    ensures LineBreaks(body + "\n") == 1
  {
    LineBreaksConcat(body, "\n");
    NoLineBreaks(body);
  }

  /** The right-hand column is a single line closed by a line break. */
  lemma InFieldTextIsOneLine(fields: seq<Field>, a: Attribute, m: int, msgs: Messages)
    requires m == Mapping.NO_MATCH || m == Mapping.TYPE_MISMATCH || 0 <= m < |fields|
    requires '\n' !in msgs.missingNoMatch && '\n' !in msgs.missingTypeMismatch
    requires '\n' !in msgs.numeric && '\n' !in msgs.stringType
    requires '\n' !in msgs.date && '\n' !in msgs.boolean
    requires forall j :: 0 <= j < |fields| ==> '\n' !in fields[j].name
    ensures exists body :: '\n' !in body && InFieldText(fields, a, m, msgs) == body + "\n"
  {
    if m == Mapping.NO_MATCH {
      var body := "- " + msgs.missingNoMatch;
      assert InFieldText(fields, a, m, msgs) == body + "\n";
    } else if m == Mapping.TYPE_MISMATCH {
      NoNewlineInNumbers(IndexOfField(fields, a.name) + 1);
      var body := IntToString(IndexOfField(fields, a.name) + 1) + " " + msgs.missingTypeMismatch;
      assert InFieldText(fields, a, m, msgs) == body + "\n";
    } else {
      NoNewlineInNumbers(m + 1);
      var tag := FieldLabel(fields[m].ftype, msgs);
      assert '\n' !in tag;
      var body := IntToString(m + 1) + " (" + tag + " " + fields[m].name;
      assert InFieldText(fields, a, m, msgs) == body + "\n";
    }
  }

  /** Built from single-line texts, an attribute line holds exactly one line break, at its end. */
  lemma AttributeLineIsOneLine(header: seq<Attribute>, fields: seq<Field>, msgs: Messages, i: nat, w: nat)
    requires i < |header| && SingleLineTexts(header, fields, msgs)
    ensures var m := Mapping.Mappings(header, fields)[i];
      && (m == Mapping.NO_MATCH || m == Mapping.TYPE_MISMATCH || 0 <= m < |fields|)
      && LineBreaks(AttributeLine(fields, header[i], m, w, msgs)) == 1
  {
    Mapping.EntryShape(header, fields, i);
    var m := Mapping.Mappings(header, fields)[i];
    var tag := AttrLabel(header[i].atype, msgs);
    assert '\n' !in tag;
    var column := FixedLength(tag + " " + header[i].name, ' ', w);
    assert '\n' !in column;
    InFieldTextIsOneLine(fields, header[i], m, msgs);
    var body :| '\n' !in body && InFieldText(fields, header[i], m, msgs) == body + "\n";
    assert AttributeLine(fields, header[i], m, w, msgs) == (column + "\t--> " + body) + "\n";
    OneLine(column + "\t--> " + body);
  }

  /** Each attribute adds exactly one line break to the report. */
  lemma AttributeLinesStep(header: seq<Attribute>, fields: seq<Field>, msgs: Messages, i: nat, w: nat)
    requires i < |header| && SingleLineTexts(header, fields, msgs)
    requires LineBreaks(AttributeLines(header, fields, i, w, msgs)) == i
    ensures LineBreaks(AttributeLines(header, fields, i + 1, w, msgs)) == i + 1
  {
    AttributeLineIsOneLine(header, fields, msgs, i, w);
    var m := Mapping.Mappings(header, fields)[i];
    var line := AttributeLine(fields, header[i], m, w, msgs);
    var before := AttributeLines(header, fields, i, w, msgs);
    LineBreaksConcat(before, line);
    assert AttributeLines(header, fields, i + 1, w, msgs) == before + line;
  }

  lemma NoAttributeLines(header: seq<Attribute>, fields: seq<Field>, w: nat, msgs: Messages)
    ensures LineBreaks(AttributeLines(header, fields, 0, w, msgs)) == 0
  {
    assert AttributeLines(header, fields, 0, w, msgs) == "";
  }

  /** The lines of n attributes hold exactly n line breaks. */
  lemma {:induction false} ReportLineCount(header: seq<Attribute>, fields: seq<Field>, msgs: Messages, n: nat, w: nat)
    requires n <= |header| && SingleLineTexts(header, fields, msgs)
    ensures LineBreaks(AttributeLines(header, fields, n, w, msgs)) == n
    decreases n
  {
    if n == 0 {
      NoAttributeLines(header, fields, w, msgs);
    } else {
      var i := n - 1;
      ReportLineCount(header, fields, msgs, i, w);
      AttributeLinesStep(header, fields, msgs, i, w);
    }
  }

  /** The report is the two title lines followed by exactly one line per attribute. */
  lemma ReportLines(header: seq<Attribute>, fields: seq<Field>, msgs: Messages)
    requires SingleLineTexts(header, fields, msgs)
    ensures LineBreaks(Report(header, fields, msgs)) == |header| + 2
  {
    var w := ColumnWidth(header);
    var h := FixedLength(msgs.modelAttsHeader, ' ', w) + "\t    " + msgs.incomingFields;
    var d := FixedLength("----------------", '-', w) + "\t    ----------------";
    assert '\n' !in h && '\n' !in d;
    OneLine(h);
    OneLine(d);
    LineBreaksConcat(h + "\n", d + "\n");
    assert TitleLines(w, msgs) == (h + "\n") + (d + "\n");
    ReportLineCount(header, fields, msgs, |header|, w);
    LineBreaksConcat(TitleLines(w, msgs), AttributeLines(header, fields, |header|, w, msgs));
  }

  lemma NoNewlineInNumbers(n: int)
    ensures '\n' !in IntToString(n)
  {
    if n < 0 {
      NatToStringDigits(-n);
      assert IntToString(n) == "-" + NatToString(-n);
    } else {
      NatToStringDigits(n);
    }
  }
}
