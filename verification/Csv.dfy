/**
 * The two CSV writers (apps/web/src/lib/csv.ts, apps/api/src/modules/reports/report.mapper.ts) and
 * a reader for the format of section 2 of RFC 4180 that takes CRLF or LF as line break.
 */
module Csv {
  import Text

  /** A cell value: a typed text, a number (with its printed form), or nothing. */
  datatype Value = Absent | Typed(text: string) | Number(text: string)

  predicate Formula(text: string) {
    text != "" && text[0] in {'=', '+', '-', '@', '\t', '\r'}
  }

  /** The text a cell carries: typed texts that a spreadsheet would run get a leading quote mark. */
  function Guarded(v: Value): string {
    match v
    case Absent => ""
    case Typed(text) => if Formula(text) then ['\''] + text else text
    case Number(text) => text
  }

  /**
   * No typed cell begins with a character that starts a formula, and the text is recovered from the
   * cell by dropping one leading apostrophe where one was put; other texts and all numbers are as
   * they were.
   */
  lemma GuardIsReversible(text: string)
    ensures var cell := Guarded(Typed(text));
            && (cell == "" || (cell[0] != '=' && cell[0] != '+' && cell[0] != '-' && cell[0] != '@'
                               && cell[0] != '\t' && cell[0] != '\r'))
            && (cell != text ==> text != "" && text[0] in "=+-@\t\r" && cell[0] == '\'' && cell[1..] == text)
    ensures Guarded(Number(text)) == text && Guarded(Absent) == ""
  {
  }

  /** Every quote mark is written twice. */
  function Escape(text: string): string {
    if text == "" then ""
    else (if text[0] == '"' then ['"', '"'] else [text[0]]) + Escape(text[1..])
  }

  function Quoted(text: string): string {
    ['"'] + Escape(text) + ['"']
  }

  /** A line of quoted texts separated by commas. */
  function Line(cells: seq<string>): string {
    if |cells| == 0 then ""
    else if |cells| == 1 then Quoted(cells[0])
    else Quoted(cells[0]) + [','] + Line(cells[1..])
  }

  function Lines(rows: seq<seq<string>>, eol: string): string {
    if |rows| == 0 then ""
    else if |rows| == 1 then Line(rows[0])
    else Line(rows[0]) + eol + Lines(rows[1..], eol)
  }

  function GuardAll(values: seq<Value>): seq<string> {
    seq(|values|, i requires 0 <= i < |values| => Guarded(values[i]))
  }

  function Labels(labels: seq<string>): seq<Value> {
    seq(|labels|, i requires 0 <= i < |labels| => Typed(labels[i]))
  }

  /** The texts of a table: the header, then each row as guarded cells. */
  function Table(header: seq<string>, rows: seq<seq<Value>>): seq<seq<string>> {
    [header] + seq(|rows|, i requires 0 <= i < |rows| => GuardAll(rows[i]))
  }

  // ---------- The reader ----------

  /** A parsed prefix: the value, and the text after it. */
  datatype Read<T> = Bad | Got(value: T, rest: string)

  /** The rest of a quoted field, after its opening quote. */
  function ReadQuoted(s: string): Read<string> {
    if s == "" then Bad
    else if s[0] != '"' then
      match ReadQuoted(s[1..])
      case Bad => Bad
      case Got(text, rest) => Got([s[0]] + text, rest)
    else if |s| >= 2 && s[1] == '"' then
      match ReadQuoted(s[2..])
      case Bad => Bad
      case Got(text, rest) => Got(['"'] + text, rest)
    else Got("", s[1..])
  }

  /** The texts of one record; the rest starts at its line break, or is empty. */
  function ReadRecord(s: string): (r: Read<seq<string>>)
    ensures r.Got? ==> |r.rest| < |s|
    decreases |s|
  {
    if s == "" || s[0] != '"' then Bad
    else
      ReadQuotedShrinks(s[1..]);
      match ReadQuoted(s[1..])
      case Bad => Bad
      case Got(text, rest) =>
        if rest != "" && rest[0] == ',' then
          match ReadRecord(rest[1..])
          case Bad => Bad
          case Got(cells, rest') => Got([text] + cells, rest')
        else Got([text], rest)
  }

  lemma {:induction false} ReadQuotedShrinks(s: string)
    ensures ReadQuoted(s).Got? ==> |ReadQuoted(s).rest| < |s|
    decreases |s|
  {
    if s != "" && s[0] != '"' {
      ReadQuotedShrinks(s[1..]);
    } else if |s| >= 2 && s[1] == '"' {
      ReadQuotedShrinks(s[2..]);
    }
  }

  /** All records; each but the last must end in CRLF or LF, the last may. */
  function ReadTable(s: string): Read<seq<seq<string>>>
    decreases |s|
  {
    match ReadRecord(s)
    case Bad => Bad
    case Got(cells, rest) =>
      var skip := if rest == "" then 0
                  else if rest[0] == '\n' then 1
                  else if |rest| >= 2 && rest[..2] == ['\r', '\n'] then 2
                  else 0;
      if |rest| == skip then Got([cells], "")
      else if skip == 0 then Bad
      else match ReadTable(rest[skip..])
        case Bad => Bad
        case Got(rows, rest') => Got([cells] + rows, rest')
  }

  // ---------- The reader inverts the writers ----------

  /** What may follow a field: nothing, or anything but another quote. */
  predicate AfterField(rest: string) {
    rest == "" || rest[0] != '"'
  }

  lemma {:induction false} QuotedReadsBack(text: string, rest: string)
    requires AfterField(rest)
    ensures ReadQuoted(Escape(text) + ['"'] + rest) == Got(text, rest)
    decreases |text|
  {
    var s := Escape(text) + ['"'] + rest;
    if text == "" {
      assert s == ['"'] + rest;
      assert s[1..] == rest;
    } else {
      QuotedReadsBack(text[1..], rest);
      var tail := Escape(text[1..]) + ['"'] + rest;
      if text[0] == '"' {
        assert s == ['"', '"'] + tail;
        assert s[2..] == tail;
      } else {
        assert s == [text[0]] + tail;
        assert s[1..] == tail;
      }
      assert [text[0]] + text[1..] == text;
    }
  }

  lemma FieldReadsBack(text: string, after: string)
    requires AfterField(after)
    ensures var s := Quoted(text) + after; |s| > 1 && s[0] == '"' && ReadQuoted(s[1..]) == Got(text, after)
  {
    var s := Quoted(text) + after;
    assert s[1..] == Escape(text) + ['"'] + after;
    QuotedReadsBack(text, after);
  }

  lemma {:induction false} LineReadsBack(cells: seq<string>, rest: string)
    requires |cells| > 0 && (rest == "" || rest[0] in {'\r', '\n'})
    ensures ReadRecord(Line(cells) + rest) == Got(cells, rest)
    decreases |cells|
  {
    if |cells| == 1 {
      FieldReadsBack(cells[0], rest);
      assert cells == [cells[0]];
    } else {
      var tail := Line(cells[1..]) + rest;
      FieldReadsBack(cells[0], [','] + tail);
      Text.ConcatAssoc(Quoted(cells[0]), [','], Line(cells[1..]));
      Text.ConcatAssoc(Quoted(cells[0]), [','] + Line(cells[1..]), rest);
      Text.ConcatAssoc([','], Line(cells[1..]), rest);
      LineReadsBack(cells[1..], rest);
      RecordGoesOn(cells[0], tail, cells[1..], rest);
      assert cells == [cells[0]] + cells[1..];
    }
  }

  lemma RecordGoesOn(text: string, tail: string, cells: seq<string>, rest: string)
    requires ReadRecord(tail) == Got(cells, rest)
    ensures ReadRecord(Quoted(text) + ([','] + tail)) == Got([text] + cells, rest)
  {
    FieldReadsBack(text, [','] + tail);
    assert ([','] + tail)[1..] == tail;
  }

  predicate IsEol(eol: string) {
    eol == ['\n'] || eol == ['\r', '\n']
  }

  /** `end` is what follows the last line: nothing, or one more line break. */
  lemma {:induction false} LinesReadBack(rows: seq<seq<string>>, eol: string, end: string)
    requires |rows| > 0 && IsEol(eol) && (end == "" || end == ['\n'])
    requires forall i :: 0 <= i < |rows| ==> |rows[i]| > 0
    ensures ReadTable(Lines(rows, eol) + end) == Got(rows, "")
    decreases |rows|
  {
    if |rows| == 1 {
      LineReadsBack(rows[0], end);
      assert rows == [rows[0]];
    } else {
      var tail := Lines(rows[1..], eol) + end;
      Text.ConcatAssoc(Line(rows[0]), eol, Lines(rows[1..], eol));
      Text.ConcatAssoc(Line(rows[0]), eol + Lines(rows[1..], eol), end);
      Text.ConcatAssoc(eol, Lines(rows[1..], eol), end);
      LinesReadBack(rows[1..], eol, end);
      LinesNotEmpty(rows[1..], eol);
      TableGoesOn(rows[0], eol, tail, rows[1..]);
      assert rows == [rows[0]] + rows[1..];
    }
  }

  lemma TableGoesOn(cells: seq<string>, eol: string, tail: string, rows: seq<seq<string>>)
    requires |cells| > 0 && IsEol(eol) && tail != ""
    requires ReadTable(tail) == Got(rows, "")
    ensures ReadTable(Line(cells) + (eol + tail)) == Got([cells] + rows, "")
  {
    var rest := eol + tail;
    LineReadsBack(cells, rest);
    assert rest[|eol|..] == tail;
    if |eol| == 2 {
      assert rest[..2] == ['\r', '\n'];
    }
  }

  lemma LinesNotEmpty(rows: seq<seq<string>>, eol: string)
    requires |rows| > 0 && |rows[0]| > 0
    ensures Lines(rows, eol) != ""
  {
    assert Line(rows[0]) != "";
  }

  // ---------- The web's writer: a loop that pushes lines, joined by CRLF ----------

  lemma {:induction false} JoinIsLines(rows: seq<seq<string>>, lines: seq<string>, eol: string)
    requires |lines| == |rows| && forall i :: 0 <= i < |rows| ==> lines[i] == Line(rows[i])
    ensures Text.Join(lines, eol) == Lines(rows, eol)
  {
    if |rows| > 1 {
      JoinIsLines(rows[1..], lines[1..], eol);
    }
  }

  /** For a table with at least one column the reader gets every guarded text back. */
  method ToCsv(labels: seq<string>, rows: seq<seq<Value>>) returns (csv: string)
    requires forall i :: 0 <= i < |rows| ==> |rows[i]| == |labels|
    ensures csv == Lines(Table(GuardAll(Labels(labels)), rows), ['\r', '\n'])
    ensures |labels| > 0 ==> ReadTable(csv) == Got(Table(GuardAll(Labels(labels)), rows), "")
  {
    ghost var table := Table(GuardAll(Labels(labels)), rows);
    var lines := [Line(GuardAll(Labels(labels)))];
    for n := 0 to |rows|
      invariant |lines| == n + 1
      invariant forall i :: 0 <= i <= n ==> lines[i] == Line(table[i])
    {
      lines := lines + [Line(GuardAll(rows[n]))];
    }
    csv := Text.Join(lines, ['\r', '\n']);
    JoinIsLines(table, lines, ['\r', '\n']);
    if |labels| > 0 {
      LinesReadBack(table, ['\r', '\n'], "");
      assert csv + "" == csv;
    }
  }

  // ---------- The API's writer: LF, and header labels quoted but not escaped ----------

  function RawLine(labels: seq<string>): string {
    if |labels| == 0 then ""
    else if |labels| == 1 then ['"'] + labels[0] + ['"']
    else ['"'] + labels[0] + ['"', ','] + RawLine(labels[1..])
  }

  function ApiCsv(labels: seq<string>, rows: seq<seq<Value>>): string {
    if rows == [] then RawLine(labels) + ['\n']
    else RawLine(labels) + ['\n'] + Lines(Table(labels, rows)[1..], ['\n'])
  }

  predicate NoQuotes(labels: seq<string>) {
    forall i :: 0 <= i < |labels| ==> '"' !in labels[i]
  }

  lemma {:induction false} EscapeGrows(text: string)
    ensures |Escape(text)| >= |text|
    ensures |Escape(text)| == |text| <==> '"' !in text
    ensures '"' !in text ==> Escape(text) == text
  {
    if text != "" {
      EscapeGrows(text[1..]);
      assert text == [text[0]] + text[1..];
    }
  }

  lemma {:induction false} RawLineLength(labels: seq<string>)
    ensures |RawLine(labels)| <= |Line(labels)|
    ensures |RawLine(labels)| == |Line(labels)| <==> NoQuotes(labels)
    ensures NoQuotes(labels) ==> RawLine(labels) == Line(labels)
  {
    if |labels| > 0 {
      EscapeGrows(labels[0]);
      RawLineLength(labels[1..]);
    }
  }

  /** The reader accepts a field only in the form the writer gives it. */
  lemma {:induction false} QuotedIsCanonical(s: string)
    ensures match ReadQuoted(s) case Bad => true case Got(text, rest) => s == Escape(text) + ['"'] + rest
    decreases |s|
  {
    if s != "" && s[0] != '"' {
      QuotedIsCanonical(s[1..]);
      assert s == [s[0]] + s[1..];
      match ReadQuoted(s[1..])
      case Bad =>
      case Got(text, rest) =>
        assert ([s[0]] + text)[1..] == text;
        assert s == ([s[0]] + Escape(text)) + ['"'] + rest;
    } else if |s| >= 2 && s[1] == '"' {
      QuotedIsCanonical(s[2..]);
      assert s == ['"', '"'] + s[2..];
      match ReadQuoted(s[2..])
      case Bad =>
      case Got(text, rest) =>
        assert (['"'] + text)[1..] == text;
        assert s == (['"', '"'] + Escape(text)) + ['"'] + rest;
    } else if s != "" {
      assert s == ['"'] + s[1..];
    }
  }

  lemma FieldIsCanonical(s: string)
    requires s != "" && s[0] == '"'
    ensures match ReadQuoted(s[1..]) case Bad => true case Got(text, rest) => s == Quoted(text) + rest
  {
    QuotedIsCanonical(s[1..]);
    assert s == ['"'] + s[1..];
  }

  lemma {:induction false} RecordIsCanonical(s: string)
    requires ReadRecord(s).Got?
    ensures s == Line(ReadRecord(s).value) + ReadRecord(s).rest && ReadRecord(s).value != []
    decreases |s|
  {
    FieldIsCanonical(s);
    ReadQuotedShrinks(s[1..]);
    var text, rest := ReadQuoted(s[1..]).value, ReadQuoted(s[1..]).rest;
    if rest != "" && rest[0] == ',' {
      RecordIsCanonical(rest[1..]);
      var cells, rest' := ReadRecord(rest[1..]).value, ReadRecord(rest[1..]).rest;
      LineGoesOn(text, cells, s, rest, rest');
    }
  }

  lemma LineGoesOn(text: string, cells: seq<string>, s: string, rest: string, rest': string)
    requires cells != [] && rest != "" && rest[0] == ','
    requires s == Quoted(text) + rest && rest[1..] == Line(cells) + rest'
    ensures s == Line([text] + cells) + rest'
  {
    assert ([text] + cells)[1..] == cells;
    assert rest == [','] + rest[1..];
  }

  lemma {:induction false} LineEndsInQuote(cells: seq<string>)
    requires |cells| > 0
    ensures Line(cells) != "" && Line(cells)[|Line(cells)| - 1] == '"'
  {
    if |cells| > 1 {
      LineEndsInQuote(cells[1..]);
    }
  }

  /** A text that reads as a table is at least as long as its canonical form with LF. */
  lemma {:induction false} TableIsLongEnough(s: string, rows: seq<seq<string>>)
    requires ReadTable(s) == Got(rows, "")
    ensures |rows| > 0 && |s| >= |Lines(rows, ['\n'])|
    ensures |s| == |Lines(rows, ['\n'])| ==> s != "" && s[|s| - 1] == '"'
    decreases |s|
  {
    RecordIsCanonical(s);
    var cells, rest := ReadRecord(s).value, ReadRecord(s).rest;
    assert cells != [];
    LineEndsInQuote(cells);
    if |rows| > 1 {
      var later := AfterFirst(s, rows);
      TableIsLongEnough(later, rows[1..]);
    }
  }

  /** What follows the first record and its line break. */
  lemma AfterFirst(s: string, rows: seq<seq<string>>) returns (later: string)
    requires ReadTable(s) == Got(rows, "") && |rows| > 1
    ensures ReadTable(later) == Got(rows[1..], "") && ReadRecord(s).value == rows[0]
    ensures |later| < |ReadRecord(s).rest| && later == ReadRecord(s).rest[|ReadRecord(s).rest| - |later|..]
  {
    var rest := ReadRecord(s).rest;
    later := rest[if rest[0] == '\n' then 1 else 2..];
  }

  /** The API's file reads back as the guarded table exactly when no header label contains a quote. */
  lemma ApiCsvReadsBack(labels: seq<string>, rows: seq<seq<Value>>)
    requires |labels| > 0 && forall i :: 0 <= i < |rows| ==> |rows[i]| == |labels|
    ensures ReadTable(ApiCsv(labels, rows)) == Got(Table(labels, rows), "") <==> NoQuotes(labels)
  {
    var csv, table := ApiCsv(labels, rows), Table(labels, rows);
    RawLineLength(labels);
    if NoQuotes(labels) {
      if rows == [] {
        assert table == [labels];
        LinesReadBack(table, ['\n'], ['\n']);
      } else {
        LinesReadBack(table, ['\n'], "");
        assert csv == Lines(table, ['\n']) + "";
      }
    } else {
      assert rows != [] ==> Lines(table, ['\n']) == Line(labels) + ['\n'] + Lines(table[1..], ['\n']);
      if ReadTable(csv) == Got(table, "") {
        TableIsLongEnough(csv, table);
        assert false;
      }
    }
  }
}
