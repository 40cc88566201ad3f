/**
 * CSV field encoding as the flattener writes it (the `escapeCSV` helper and the
 * `.map(escapeCSV).join(',')` / `.join('\n')` assembly), and a reader for the text it
 * writes: the reader is the encoding's inverse, which is what makes the output a
 * faithful table of the values it was built from.
 */
module Csv {
  import opened JsValue

  datatype Option<T> = None | Some(value: T)

  /** Text that `escapeCSV` wraps in quotes: it holds a comma, a line feed or a double
      quote. A carriage return alone does not count. */
  predicate NeedsQuoting(t: string) {
    ',' in t || '\n' in t || '"' in t
  }

  /** A character `escapeCSV` leaves alone: not a comma, a line feed or a double quote. */
  predicate PlainChar(c: char) {
    c != ',' && c != '\n' && c != '"'
  }

  /** Text made of such characters only. */
  predicate PlainText(t: string) {
    forall i :: 0 <= i < |t| ==> PlainChar(t[i])
  }

  /** Text needs quoting exactly when one of its characters is not plain. */
  lemma PlainTextNeedsNoQuoting(t: string)
    ensures PlainText(t) <==> !NeedsQuoting(t)
  {
  }

  /** `t` with every double quote doubled. */
  function DoubleQuotes(t: string): (r: string)
    ensures |r| == |t| + Count(t, '"')
  {
    if t == [] then []
    else (if t[0] == '"' then "\"\"" else [t[0]]) + DoubleQuotes(t[1..])
  }

  /** `escapeCSV` on text that is already a string. */
  function EscapeText(t: string): (r: string)
    ensures !NeedsQuoting(t) ==> r == t
    ensures NeedsQuoting(t) ==>
      |r| == |t| + Count(t, '"') + 2 && r[0] == '"' && r[|r| - 1] == '"'
  {
    if NeedsQuoting(t) then "\"" + DoubleQuotes(t) + "\"" else t
  }

  /** The text a value stands for in a CSV cell: empty for `null` and `undefined`,
      `String(v)` otherwise. */
  function CellText(v: Value): string {
    if IsNullish(v) then "" else Show(v)
  }

  /** `escapeCSV(v)` */
  function EscapeCsv(v: Value): (r: string)
    ensures IsNullish(v) ==> r == ""
    ensures !IsNullish(v) && !NeedsQuoting(Show(v)) ==> r == Show(v)
    ensures !IsNullish(v) && NeedsQuoting(Show(v)) ==>
      |r| == |Show(v)| + Count(Show(v), '"') + 2 && r[0] == '"' && r[|r| - 1] == '"'
  {
    EscapeText(CellText(v))
  }

  function EscapeAll(texts: seq<string>): (r: seq<string>)
    ensures |r| == |texts|
  {
    seq(|texts|, i requires 0 <= i < |texts| => EscapeText(texts[i]))
  }

  /** One CSV line: the escaped texts joined by commas. */
  function EscapedLine(texts: seq<string>): string {
    Join(EscapeAll(texts), ",")
  }

  function CellTexts(cells: seq<Value>): (r: seq<string>)
    ensures |r| == |cells|
  {
    seq(|cells|, i requires 0 <= i < |cells| => CellText(cells[i]))
  }

  /** `cells.map(escapeCSV).join(',')` */
  function RowText(cells: seq<Value>): (r: string)
    ensures r == EscapedLine(CellTexts(cells))
  {
    var escaped := seq(|cells|, i requires 0 <= i < |cells| => EscapeCsv(cells[i]));
    assert escaped == EscapeAll(CellTexts(cells));
    Join(escaped, ",")
  }

  // ---------------------------------------------------------------- quoted fields

  /** Every double quote in `s` is the first of a pair `""`. */
  predicate QuotesPaired(s: string)
    decreases |s|
  {
    if s == [] then true
    else if s[0] == '"' then |s| >= 2 && s[1] == '"' && QuotesPaired(s[2..])
    else QuotesPaired(s[1..])
  }

  /** Replaces each `""` by `"`. */
  function UndoubleQuotes(s: string): string
    decreases |s|
  {
    if s == [] then []
    else if |s| >= 2 && s[0] == '"' && s[1] == '"' then "\"" + UndoubleQuotes(s[2..])
    else [s[0]] + UndoubleQuotes(s[1..])
  }

  lemma {:induction false} DoubleQuotesInverse(t: string)
    ensures UndoubleQuotes(DoubleQuotes(t)) == t
    ensures QuotesPaired(DoubleQuotes(t))
  {
    if t != [] {
      DoubleQuotesInverse(t[1..]);
      var d := DoubleQuotes(t);
      if t[0] == '"' {
        assert d[2..] == DoubleQuotes(t[1..]);
      } else {
        assert d[1..] == DoubleQuotes(t[1..]);
      }
      assert t == [t[0]] + t[1..];
    }
  }

  /** A quoted field keeps no unpaired quote inside its wrapper, and stripping the
      wrapper and undoubling the quotes gives back the text. */
  lemma QuotedFieldInverse(t: string)
    requires NeedsQuoting(t)
    ensures var f := EscapeText(t);
      QuotesPaired(f[1..|f| - 1]) && UndoubleQuotes(f[1..|f| - 1]) == t
  {
    var f := EscapeText(t);
    assert f[1..|f| - 1] == DoubleQuotes(t);
    DoubleQuotesInverse(t);
  }

  // ---------------------------------------------------------------- reading CSV text

  /** Reads an unquoted field: everything up to the next comma or line feed. */
  function ReadBare(s: string): (r: (string, string))
    ensures |r.1| <= |s|
  {
    if s == [] || s[0] == ',' || s[0] == '\n' then ("", s)
    else
      var (f, rest) := ReadBare(s[1..]);
      ([s[0]] + f, rest)
  }

  /** Reads the inside of a quoted field, whose opening quote is already consumed:
      `""` stands for one quote and a lone quote closes the field. Returns the text
      and what follows the closing quote. */
  function ReadQuoted(s: string): (r: (string, string))
    ensures |r.1| <= |s|
    decreases |s|
  {
    if s == [] then ("", [])
    else if s[0] == '"' then
      if |s| >= 2 && s[1] == '"' then
        var (f, rest) := ReadQuoted(s[2..]);
        ("\"" + f, rest)
      else ("", s[1..])
    else
      var (f, rest) := ReadQuoted(s[1..]);
      ([s[0]] + f, rest)
  }

  /** Reads one field from the front of `s`; returns its text and the rest of the
      input, which starts at the delimiter that ended the field. */
  function ReadField(s: string): (r: (string, string))
    ensures |r.1| <= |s|
  {
    if s != [] && s[0] == '"' then ReadQuoted(s[1..]) else ReadBare(s)
  }

  /** Reads one record: fields separated by commas, ended by a line feed or by the end
      of the input. Returns the fields and the input after the line feed (`None` at the
      end of the input). */
  function ReadRecord(s: string): (r: (seq<string>, Option<string>))
    ensures |r.0| >= 1
    ensures r.1.Some? ==> |r.1.value| < |s|
    decreases |s|
  {
    var (f, rest) := ReadField(s);
    if rest == [] then ([f], None)
    else if rest[0] == ',' then
      var (fs, next) := ReadRecord(rest[1..]);
      ([f] + fs, next)
    else ([f], Some(rest[1..]))
  }

  /** Reads every record of a CSV text. */
  function ReadDocument(s: string): (rows: seq<seq<string>>)
    ensures |rows| >= 1
    decreases |s|
  {
    var (fields, next) := ReadRecord(s);
    if next.None? then [fields] else [fields] + ReadDocument(next.value)
  }

  /** What may follow a field: nothing, or the delimiter that ends it. */
  predicate FieldEnd(tail: string) {
    tail == [] || tail[0] == ',' || tail[0] == '\n'
  }

  lemma {:induction false} ReadBareText(t: string, tail: string)
    requires ',' !in t && '\n' !in t
    requires FieldEnd(tail)
    ensures ReadBare(t + tail) == (t, tail)
  {
    if t == [] {
      assert t + tail == tail;
    } else {
      assert (t + tail)[1..] == t[1..] + tail;
      ReadBareText(t[1..], tail);
      assert [t[0]] + t[1..] == t;
    }
  }

  lemma {:induction false} ReadQuotedText(t: string, tail: string)
    requires tail == [] || tail[0] != '"'
    ensures ReadQuoted(DoubleQuotes(t) + "\"" + tail) == (t, tail)
  {
    var s := DoubleQuotes(t) + "\"" + tail;
    if t == [] {
      assert s == "\"" + tail;
      assert s[1..] == tail;
    } else if t[0] == '"' {
      assert s == "\"\"" + (DoubleQuotes(t[1..]) + "\"" + tail);
      assert s[2..] == DoubleQuotes(t[1..]) + "\"" + tail;
      ReadQuotedText(t[1..], tail);
      assert "\"" + t[1..] == t;
    } else {
      assert s == [t[0]] + (DoubleQuotes(t[1..]) + "\"" + tail);
      assert s[1..] == DoubleQuotes(t[1..]) + "\"" + tail;
      ReadQuotedText(t[1..], tail);
      assert [t[0]] + t[1..] == t;
    }
  }

  /** Reading an escaped field gives back its text and stops at the delimiter after it. */
  lemma EscapeRoundTrip(t: string, tail: string)
    requires FieldEnd(tail)
    ensures ReadField(EscapeText(t) + tail) == (t, tail)
  {
    if NeedsQuoting(t) {
      QuotedFieldRead(t, tail);
    } else {
      ReadBareText(t, tail);
    }
  }

  /** A quoted field is read back as its text. */
  lemma QuotedFieldRead(t: string, tail: string)
    requires FieldEnd(tail)
    ensures ReadField("\"" + DoubleQuotes(t) + "\"" + tail) == (t, tail)
  {
    var q := DoubleQuotes(t) + "\"" + tail;
    var s := "\"" + DoubleQuotes(t) + "\"" + tail;
    assert s == "\"" + q;
    assert s[1..] == q;
    ReadQuotedText(t, tail);
    assert ReadField(s) == ReadQuoted(q);
  }

  /** A line of two or more fields is the first escaped field, a comma and the line of
      the others. */
  lemma EscapedLineCons(texts: seq<string>)
    requires |texts| >= 2
    ensures EscapedLine(texts) == EscapeText(texts[0]) + "," + EscapedLine(texts[1..])
  {
    assert EscapeAll(texts[1..]) == EscapeAll(texts)[1..];
  }

  /** Reading an escaped line gives back exactly its texts, however many there are. */
  lemma {:induction false} LineRoundTrip(texts: seq<string>, tail: string)
    requires |texts| >= 1
    requires tail == [] || tail[0] == '\n'
    ensures ReadRecord(EscapedLine(texts) + tail)
      == (texts, if tail == [] then None else Some(tail[1..]))
  {
    if |texts| == 1 {
      SingleFieldLine(texts[0], tail);
      assert texts == [texts[0]];
    } else {
      LineRoundTrip(texts[1..], tail);
      ConsLine(texts[0], texts[1..], tail, if tail == [] then None else Some(tail[1..]));
      assert [texts[0]] + texts[1..] == texts;
    }
  }

  /** Putting one more field in front of a line puts its text in front of what is read. */
  lemma ConsLine(t: string, texts: seq<string>, tail: string, next: Option<string>)
    requires |texts| >= 1
    requires ReadRecord(EscapedLine(texts) + tail) == (texts, next)
    ensures ReadRecord(EscapedLine([t] + texts) + tail) == ([t] + texts, next)
  {
    var e := EscapeText(t);
    var rest := EscapedLine(texts) + tail;
    EscapedLineCons([t] + texts);
    assert ([t] + texts)[0] == t && ([t] + texts)[1..] == texts;
    CommaShift(e, EscapedLine(texts), tail);
    EscapeRoundTrip(t, "," + rest);
    ReadRecordComma(e + ("," + rest), t, rest);
  }

  /** Regrouping a concatenation around the comma. */
  lemma CommaShift(e: string, m: string, tail: string)
    ensures e + "," + m + tail == e + ("," + (m + tail))
  {
  }

  /** A line of one field is read back as that field. */
  lemma SingleFieldLine(t: string, tail: string)
    requires tail == [] || tail[0] == '\n'
    ensures ReadRecord(EscapedLine([t]) + tail) == ([t], if tail == [] then None else Some(tail[1..]))
  {
    assert EscapedLine([t]) == EscapeText(t);
    EscapeRoundTrip(t, tail);
  }

  /** A field followed by a comma starts a record whose other fields are read after it. */
  lemma ReadRecordComma(s: string, f: string, rest: string)
    requires ReadField(s) == (f, "," + rest)
    ensures ReadRecord(s) == ([f] + ReadRecord(rest).0, ReadRecord(rest).1)
  {
    assert ("," + rest)[1..] == rest;
  }

  function EscapedLines(rows: seq<seq<string>>): (r: seq<string>)
    ensures |r| == |rows|
  {
    seq(|rows|, i requires 0 <= i < |rows| => EscapedLine(rows[i]))
  }

  /** One more row adds its escaped line at the end. */
  lemma EscapedLinesSnoc(rows: seq<seq<string>>, row: seq<string>)
    ensures EscapedLines(rows + [row]) == EscapedLines(rows) + [EscapedLine(row)]
  {
  }

  /** Reading a CSV text made of escaped lines joined by line feeds gives back every
      row, in order, with its exact fields. */
  lemma {:induction false} DocumentRoundTrip(rows: seq<seq<string>>)
    requires |rows| >= 1
    requires forall i :: 0 <= i < |rows| ==> |rows[i]| >= 1
    ensures ReadDocument(Join(EscapedLines(rows), "\n")) == rows
  {
    var lines := EscapedLines(rows);
    if |rows| == 1 {
      assert EscapedLine(rows[0]) + [] == EscapedLine(rows[0]);
      LineRoundTrip(rows[0], []);
    } else {
      assert EscapedLines(rows[1..]) == lines[1..];
      var rest := Join(lines[1..], "\n");
      assert Join(lines, "\n") == EscapedLine(rows[0]) + ("\n" + rest);
      LineRoundTrip(rows[0], "\n" + rest);
      assert ("\n" + rest)[1..] == rest;
      DocumentRoundTrip(rows[1..]);
      assert [rows[0]] + rows[1..] == rows;
    }
  }

  /** Text that needs no quoting is its own escaped line. */
  lemma PlainLine(texts: seq<string>)
    requires forall i :: 0 <= i < |texts| ==> !NeedsQuoting(texts[i])
    ensures EscapedLine(texts) == Join(texts, ",")
  {
    assert EscapeAll(texts) == texts;
  }

  /** A document whose first line is a plain header joined by commas and whose other
      lines are escaped rows is the escaped document of the header and the rows. */
  lemma HeaderedDocument(header: seq<string>, lines: seq<string>, rows: seq<seq<string>>)
    requires forall i :: 0 <= i < |header| ==> !NeedsQuoting(header[i])
    requires lines == EscapedLines(rows)
    ensures Join([Join(header, ",")] + lines, "\n") == Join(EscapedLines([header] + rows), "\n")
  {
    PlainLine(header);
    var all := EscapedLines([header] + rows);
    assert all[1..] == lines;
    assert all == [Join(header, ",")] + lines;
  }

  // ---------------------------------------------------------------- line ends

  /** An escaped field never ends in a line feed: quoted text ends in a quote, and text
      left unquoted holds no line feed. */
  lemma EscapedFieldEnd(t: string)
    ensures var e := EscapeText(t); e == [] || e[|e| - 1] != '\n'
  {
  }

  /** The last character of a join of two or more parts is that of the last part, or the
      separator's when the last part is empty. */
  lemma {:induction false} JoinEnd(parts: seq<string>, sep: string)
    requires |parts| >= 2 && |sep| >= 1
    ensures var j := Join(parts, sep); var last := parts[|parts| - 1];
      |j| >= 1 && j[|j| - 1] == (if last == [] then sep[|sep| - 1] else last[|last| - 1])
  {
    if |parts| > 2 {
      JoinEnd(parts[1..], sep);
      assert parts[1..][|parts| - 2] == parts[|parts| - 1];
    }
  }

  /** A line of two or more fields never ends in a line feed. */
  lemma EscapedLineEnd(texts: seq<string>)
    requires |texts| >= 2
    ensures var l := EscapedLine(texts); |l| >= 1 && l[|l| - 1] != '\n'
  {
    JoinEnd(EscapeAll(texts), ",");
    EscapedFieldEnd(texts[|texts| - 1]);
  }

  /** A document whose rows have two or more fields each is not empty and does not end in
      a line feed. */
  lemma DocumentEnd(rows: seq<seq<string>>)
    requires |rows| >= 1
    requires forall i :: 0 <= i < |rows| ==> |rows[i]| >= 2
    ensures var d := Join(EscapedLines(rows), "\n"); |d| >= 1 && d[|d| - 1] != '\n'
  {
    var lines := EscapedLines(rows);
    EscapedLineEnd(rows[|rows| - 1]);
    if |rows| >= 2 {
      JoinEnd(lines, "\n");
    }
  }
}
