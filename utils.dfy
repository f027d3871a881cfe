/** Shared helpers of the valuation code: null-safe division and the text of
    a CSV export (field escaping per section 2 of RFC 4180). */
module Utils {
  import opened JsValues

  /** `safeDivide(num, den)`: unknown for a zero, null or undefined
      denominator; otherwise the quotient, a null numerator counting as 0. */
  function SafeDivide(num: Option<real>, den: Option<real>): (r: Option<real>)
    ensures r.None? <==> den.None? || den.value == 0.0
    ensures r.Some? ==> r.value * den.value == Given(num, 0.0)
  {
    if den.None? || den.value == 0.0 then None
    else Some(Given(num, 0.0) / den.value)
  }

  // ---------------------------------------------------------------------
  // Field escaping

  /** `String(value)` of a cell; null and undefined become the empty text.
      Conversion of numbers to text is not modelled: a cell is given as text. */
  function Text(v: Option<string>): string
  {
    if v.Some? then v.value else ""
  }

  predicate NeedsQuoting(s: string)
  {
    ',' in s || '"' in s || '\n' in s
  }

  /** `s.replace(/"/g, '""')` */
  function DoubleQuotes(s: string): string
  {
    if s == [] then []
    else (if s[0] == '"' then "\"\"" else [s[0]]) + DoubleQuotes(s[1..])
  }

  /** `csvEscape(value)` */
  function CsvEscape(v: Option<string>): (r: string)
    ensures Unescape(r) == Text(v)
    ensures '\r' !in Text(v) ==> WellFormedField(r)
  {
    if v.None? then ""
    else if NeedsQuoting(v.value) then
      CollapseDoubled(v.value);
      DoubledIsEscaped(v.value);
      "\"" + DoubleQuotes(v.value) + "\""
    else v.value
  }

  /** Reading a field back: strip the surrounding quotes of a quoted field and
      turn each `""` inside it into `"`. */
  function Unescape(f: string): string
  {
    if |f| >= 2 && f[0] == '"' && f[|f| - 1] == '"' then CollapseQuotes(f[1..|f| - 1])
    else f
  }

  function CollapseQuotes(s: string): string
  {
    if |s| >= 2 && s[0] == '"' && s[1] == '"' then "\"" + CollapseQuotes(s[2..])
    else if s == [] then []
    else [s[0]] + CollapseQuotes(s[1..])
  }

  /** A field as section 2 of RFC 4180 allows it: either plain text with no
      comma, double quote, CR or LF, or enclosed in double quotes with every
      inner double quote doubled. */
  predicate WellFormedField(f: string)
  {
    (forall i :: 0 <= i < |f| ==> f[i] !in {',', '"', '\r', '\n'})
    || (|f| >= 2 && f[0] == '"' && f[|f| - 1] == '"' && EscapedBody(f[1..|f| - 1]))
  }

  /** Every double quote in `b` is one of a pair `""`. */
  predicate EscapedBody(b: string)
  {
    if b == [] then true
    else if b[0] == '"' then |b| >= 2 && b[1] == '"' && EscapedBody(b[2..])
    else EscapedBody(b[1..])
  }

  lemma {:induction false} CollapseDoubled(s: string)
    ensures CollapseQuotes(DoubleQuotes(s)) == s
  {
    if s != [] {
      CollapseDoubled(s[1..]);
      if s[0] == '"' {
        assert DoubleQuotes(s) == "\"\"" + DoubleQuotes(s[1..]);
        assert (DoubleQuotes(s))[2..] == DoubleQuotes(s[1..]);
      } else {
        assert DoubleQuotes(s) == [s[0]] + DoubleQuotes(s[1..]);
        assert (DoubleQuotes(s))[1..] == DoubleQuotes(s[1..]);
      }
    }
  }

  lemma {:induction false} DoubledIsEscaped(s: string)
    ensures EscapedBody(DoubleQuotes(s))
  {
    if s != [] {
      DoubledIsEscaped(s[1..]);
      if s[0] == '"' {
        assert (DoubleQuotes(s))[2..] == DoubleQuotes(s[1..]);
      } else {
        assert (DoubleQuotes(s))[1..] == DoubleQuotes(s[1..]);
      }
    }
  }

  /** A text with no comma, double quote or line feed is written as it is. */
  lemma PlainTextUnchanged(s: string)
    requires !NeedsQuoting(s)
    ensures CsvEscape(Some(s)) == s
  {
  }

  /** A carriage return alone does not cause quoting, so such a field is
      written bare, outside the form RFC 4180 allows. */
  lemma CarriageReturnNotQuoted()
    ensures CsvEscape(Some("a\rb")) == "a\rb"
    ensures !WellFormedField(CsvEscape(Some("a\rb")))
  {
    assert "a\rb"[1] == '\r';
  }

  // ---------------------------------------------------------------------
  // CSV text: `rows.map((row) => row.map(csvEscape).join(',')).join('\n')`

  /** `parts.join(sep)` */
  function Join(parts: seq<string>, sep: char): string
  {
    if |parts| == 0 then ""
    else if |parts| == 1 then parts[0]
    else parts[0] + [sep] + Join(parts[1..], sep)
  }

  /** `row.map(csvEscape)` */
  function EscapeRow(row: seq<Option<string>>): seq<string>
  {
    if row == [] then [] else [CsvEscape(row[0])] + EscapeRow(row[1..])
  }

  function RowLines(rows: seq<seq<Option<string>>>): seq<string>
  {
    if rows == [] then [] else [Join(EscapeRow(rows[0]), ',')] + RowLines(rows[1..])
  }

  /** The text `exportToCsv` puts into the file: a reader gives back every
      cell's text, provided there is a row and no row is empty. */
  function CsvText(rows: seq<seq<Option<string>>>): (text: string)
    ensures |rows| > 0 && (forall i :: 0 <= i < |rows| ==> |rows[i]| > 0) ==> ParseCsv(text) == TableTexts(rows)
  {
    if |rows| > 0 && (forall i :: 0 <= i < |rows| ==> |rows[i]| > 0) then
      TableRoundTrip(rows);
      Join(RowLines(rows), '\n')
    else Join(RowLines(rows), '\n')
  }

  /** The cell texts a reader should get back. */
  function RowTexts(row: seq<Option<string>>): seq<string>
  {
    if row == [] then [] else [Text(row[0])] + RowTexts(row[1..])
  }

  function TableTexts(rows: seq<seq<Option<string>>>): seq<seq<string>>
  {
    if rows == [] then [] else [RowTexts(rows[0])] + TableTexts(rows[1..])
  }

  // ---------------------------------------------------------------------
  // A reader for the same format, the partner of CsvText.

  datatype Parsed<T> = Parsed(value: T, rest: string)

  /** Reads the inside of a quoted field; `s` starts after the opening quote. */
  function ParseQuoted(s: string): (p: Parsed<string>)
    ensures |p.rest| <= |s|
  {
    if s == [] then Parsed([], [])
    else if s[0] == '"' then
      if |s| >= 2 && s[1] == '"' then
        var q := ParseQuoted(s[2..]);
        Parsed("\"" + q.value, q.rest)
      else Parsed([], s[1..])
    else
      var q := ParseQuoted(s[1..]);
      Parsed([s[0]] + q.value, q.rest)
  }

  function ParseBare(s: string): (p: Parsed<string>)
    ensures |p.rest| <= |s|
  {
    if s == [] || s[0] == ',' || s[0] == '\n' then Parsed([], s)
    else
      var q := ParseBare(s[1..]);
      Parsed([s[0]] + q.value, q.rest)
  }

  function ParseField(s: string): (p: Parsed<string>)
    ensures |p.rest| <= |s|
  {
    if |s| > 0 && s[0] == '"' then ParseQuoted(s[1..]) else ParseBare(s)
  }

  function ParseRecord(s: string): (p: Parsed<seq<string>>)
    ensures |p.rest| <= |s|
    decreases |s|
  {
    var f := ParseField(s);
    if |f.rest| > 0 && f.rest[0] == ',' then
      var more := ParseRecord(f.rest[1..]);
      Parsed([f.value] + more.value, more.rest)
    else Parsed([f.value], f.rest)
  }

  function ParseCsv(s: string): seq<seq<string>>
    decreases |s|
  {
    var r := ParseRecord(s);
    if |r.rest| > 0 && r.rest[0] == '\n' then [r.value] + ParseCsv(r.rest[1..])
    else [r.value]
  }

  predicate EndsField(rest: string)
  {
    rest == [] || rest[0] == ',' || rest[0] == '\n'
  }

  lemma {:induction false} QuotedRoundTrip(s: string, rest: string)
    requires rest == [] || rest[0] != '"'
    ensures ParseQuoted(DoubleQuotes(s) + "\"" + rest) == Parsed(s, rest)
  {
    if s == [] {
      assert DoubleQuotes(s) + "\"" + rest == "\"" + rest;
    } else {
      QuotedRoundTrip(s[1..], rest);
      var t := DoubleQuotes(s[1..]) + "\"" + rest;
      if s[0] == '"' {
        assert DoubleQuotes(s) + "\"" + rest == "\"\"" + t;
        assert ("\"\"" + t)[2..] == t;
        assert "\"" + s[1..] == s;
      } else {
        assert DoubleQuotes(s) + "\"" + rest == [s[0]] + t;
        assert ([s[0]] + t)[1..] == t;
        assert [s[0]] + s[1..] == s;
      }
    }
  }

  lemma {:induction false} BareRoundTrip(s: string, rest: string)
    requires ',' !in s && '\n' !in s
    requires EndsField(rest)
    ensures ParseBare(s + rest) == Parsed(s, rest)
  {
    if s == [] {
      assert s + rest == rest;
    } else {
      BareRoundTrip(s[1..], rest);
      assert s[0] in s;
      assert (s + rest)[0] == s[0];
      assert (s + rest)[1..] == s[1..] + rest;
      assert [s[0]] + s[1..] == s;
    }
  }

  lemma QuotedFieldRoundTrip(t: string, rest: string)
    requires EndsField(rest)
    ensures ParseField("\"" + (DoubleQuotes(t) + "\"" + rest)) == Parsed(t, rest)
  {
    QuotedRoundTrip(t, rest);
    var u := DoubleQuotes(t) + "\"" + rest;
    assert ("\"" + u)[1..] == u;
  }

  lemma BareFieldRoundTrip(t: string, rest: string)
    requires !NeedsQuoting(t)
    requires EndsField(rest)
    ensures ParseField(t + rest) == Parsed(t, rest)
  {
    BareRoundTrip(t, rest);
    if t != [] {
      assert (t + rest)[0] == t[0];
    } else {
      assert t + rest == rest;
    }
  }

  /** Reading an escaped cell gives back its text and stops right after it. */
  lemma FieldRoundTrip(v: Option<string>, rest: string)
    requires EndsField(rest)
    ensures ParseField(CsvEscape(v) + rest) == Parsed(Text(v), rest)
  {
    var t := Text(v);
    if NeedsQuoting(t) && v.Some? {
      QuotedFieldRoundTrip(t, rest);
      assert CsvEscape(v) + rest == "\"" + (DoubleQuotes(t) + "\"" + rest);
    } else {
      assert CsvEscape(v) == t;
      BareFieldRoundTrip(t, rest);
    }
  }

  /** A field followed by a comma is the first value of the record. */
  lemma RecordAfterComma(s: string, v: string, tail: string)
    requires ParseField(s) == Parsed(v, [','] + tail)
    ensures ParseRecord(s) == Parsed([v] + ParseRecord(tail).value, ParseRecord(tail).rest)
  {
    assert ([','] + tail)[1..] == tail;
  }

  /** The first part, the separator, then the rest joined. */
  lemma JoinFirst(parts: seq<string>, sep: char, rest: string)
    requires |parts| >= 2
    ensures Join(parts, sep) + rest == parts[0] + ([sep] + (Join(parts[1..], sep) + rest))
  {
    assert parts[0] + [sep] + Join(parts[1..], sep) + rest == parts[0] + ([sep] + (Join(parts[1..], sep) + rest));
  }

  lemma {:induction false} RecordRoundTrip(row: seq<Option<string>>, rest: string)
    requires |row| > 0
    requires rest == [] || rest[0] == '\n'
    ensures ParseRecord(Join(EscapeRow(row), ',') + rest) == Parsed(RowTexts(row), rest)
  {
    var cells := EscapeRow(row);
    assert cells[0] == CsvEscape(row[0]);
    assert cells[1..] == EscapeRow(row[1..]);
    if |row| == 1 {
      FieldRoundTrip(row[0], rest);
      assert RowTexts(row) == [Text(row[0])];
    } else {
      var tail := Join(cells[1..], ',') + rest;
      JoinFirst(cells, ',', rest);
      FieldRoundTrip(row[0], [','] + tail);
      RecordRoundTrip(row[1..], rest);
      RecordAfterComma(Join(cells, ',') + rest, Text(row[0]), tail);
    }
  }

  /** The lines of non-empty rows, joined by newlines, read back as the table. */
  lemma {:induction false} TableRoundTrip(rows: seq<seq<Option<string>>>)
    requires |rows| > 0
    requires forall i :: 0 <= i < |rows| ==> |rows[i]| > 0
    ensures ParseCsv(Join(RowLines(rows), '\n')) == TableTexts(rows)
  {
    var lines := RowLines(rows);
    assert lines[0] == Join(EscapeRow(rows[0]), ',');
    assert lines[1..] == RowLines(rows[1..]);
    if |rows| == 1 {
      RecordRoundTrip(rows[0], []);
      assert Join(lines, '\n') == Join(EscapeRow(rows[0]), ',') + [];
    } else {
      var tail := Join(RowLines(rows[1..]), '\n');
      assert Join(lines, '\n') == Join(EscapeRow(rows[0]), ',') + (['\n'] + tail);
      RecordRoundTrip(rows[0], ['\n'] + tail);
      assert (['\n'] + tail)[1..] == tail;
      TableRoundTrip(rows[1..]);
    }
  }
}
