/**
 The CSV export, up to the string handed to the browser, and a reader for the format of
 section 2 of RFC 4180 that is written without looking at the printer.
 */
module Csv {

  // ---------------------------------------------------------------- printing

  /** What a column yields for a row: text, a number (as its decimal text), or null / undefined. */
  datatype Cell = Text(text: string) | Number(repr: string) | Absent

  datatype Column<!T> = Column(header: string, value: T -> Cell)

  const BOM := "\U{FEFF}"
  const CRLF := "\r\n"

  predicate FormulaPrefix(s: string) {
    s != "" && s[0] in "=+-@\t\r"
  }

  /** The cell's text, an apostrophe in front when it would be taken for a formula. */
  function Guarded(cell: Cell): string {
    match cell
    case Text(text) => if FormulaPrefix(text) then "'" + text else text
    case Number(repr) => repr
    case Absent => ""
  }

  predicate NeedsQuotes(s: string) {
    '"' in s || ',' in s || '\n' in s || '\r' in s
  }

  function DoubleQuotes(s: string): string {
    if s == "" then "" else (if s[0] == '"' then "\"\"" else [s[0]]) + DoubleQuotes(s[1..])
  }

  function Quote(s: string): string {
    if NeedsQuotes(s) then "\"" + DoubleQuotes(s) + "\"" else s
  }

  function EscapeCell(cell: Cell): string { Quote(Guarded(cell)) }

  function Map<A, B>(xs: seq<A>, f: A -> B): (ys: seq<B>)
    ensures |ys| == |xs|
    ensures forall i :: 0 <= i < |xs| ==> ys[i] == f(xs[i])
  {
    if xs == [] then [] else [f(xs[0])] + Map(xs[1..], f)
  }

  function Join(parts: seq<string>, separator: string): string {
    if parts == [] then ""
    else if |parts| == 1 then parts[0]
    else parts[0] + separator + Join(parts[1..], separator)
  }

  function Line(cells: seq<Cell>): string { Join(Map(cells, EscapeCell), ",") }

  function CellsOf<T>(columns: seq<Column<T>>, row: T): seq<Cell> {
    Map(columns, (c: Column<T>) => c.value(row))
  }

  function ExportCsv<T>(columns: seq<Column<T>>, rows: seq<T>): string {
    var headerLine := Line(Map(columns, (c: Column<T>) => Text(c.header)));
    var dataLines := Map(rows, (row: T) => Line(CellsOf(columns, row)));
    BOM + Join([headerLine] + dataLines, CRLF)
  }

  /** The table a reader should get: header and rows, every cell as its guarded text. */
  function Table<T>(columns: seq<Column<T>>, rows: seq<T>): seq<seq<string>> {
    [Map(Map(columns, (c: Column<T>) => Text(c.header)), Guarded)]
    + Map(rows, (row: T) => Map(CellsOf(columns, row), Guarded))
  }

  // ---------------------------------------------------------------- reading

  datatype Read<T> = Malformed | Got(value: T, rest: string)

  predicate Special(c: char) { c == '"' || c == ',' || c == '\r' || c == '\n' }

  /** A field without quotes runs up to the next quote, comma or line break. */
  function ReadPlain(text: string): (r: Read<string>)
    ensures r.Got? && |r.rest| <= |text|
  {
    if text == "" || Special(text[0]) then Got("", text)
    else var r := ReadPlain(text[1..]); Got([text[0]] + r.value, r.rest)
  }

  /** The inside of a quoted field, after its opening quote; two quotes stand for one. */
  function ReadQuoted(text: string): (r: Read<string>)
    ensures r.Got? ==> |r.rest| < |text|
  {
    if text == "" then Malformed
    else if text[0] != '"' then
      match ReadQuoted(text[1..])
      case Malformed => Malformed
      case Got(value, rest) => Got([text[0]] + value, rest)
    else if |text| > 1 && text[1] == '"' then
      match ReadQuoted(text[2..])
      case Malformed => Malformed
      case Got(value, rest) => Got(['"'] + value, rest)
    else Got("", text[1..])
  }

  function ReadField(text: string): (r: Read<string>)
    ensures r.Got? ==> |r.rest| <= |text|
  {
    if text != "" && text[0] == '"' then ReadQuoted(text[1..]) else ReadPlain(text)
  }

  function ReadRecord(text: string): (r: Read<seq<string>>)
    ensures r.Got? ==> |r.rest| <= |text|
    decreases |text|
  {
    match ReadField(text)
    case Malformed => Malformed
    case Got(field, rest) =>
      if rest != "" && rest[0] == ',' then
        match ReadRecord(rest[1..])
        case Malformed => Malformed
        case Got(fields, end) => Got([field] + fields, end)
      else Got([field], rest)
  }

  datatype Option<T> = None | Some(value: T)

  /**
   Records separated by line breaks. The grammar lets the last record carry one more line
   break; `dropLast` reads a final line break as that one, otherwise as the separator in
   front of a record with one empty field.
   */
  function ReadRecords(text: string, dropLast: bool): Option<seq<seq<string>>>
    decreases |text|
  {
    match ReadRecord(text)
    case Malformed => None
    case Got(record, rest) =>
      if rest == "" || (dropLast && rest == CRLF) then Some([record])
      else if CRLF <= rest then
        match ReadRecords(rest[2..], dropLast)
        case None => None
        case Some(records) => Some([record] + records)
      else None
  }

  function ReadCsv(text: string, dropLast: bool): Option<seq<seq<string>>> {
    ReadRecords(if BOM <= text then text[1..] else text, dropLast)
  }

  // ---------------------------------------------------------------- round trip

  /** What can follow a printed field. */
  predicate FieldEnds(rest: string) { rest == "" || rest[0] == ',' || rest[0] == '\r' }

  lemma {:induction false} PlainRoundTrip(s: string, rest: string)
    requires !NeedsQuotes(s) && FieldEnds(rest)
    ensures ReadPlain(s + rest) == Got(s, rest)
  {
    if s == "" {
      assert s + rest == rest;
    } else {
      assert s[0] in s && forall c :: c in s[1..] ==> c in s;
      PlainRoundTrip(s[1..], rest);
      assert (s + rest)[1..] == s[1..] + rest;
      assert [s[0]] + s[1..] == s;
    }
  }

  lemma {:induction false} QuotedRoundTrip(s: string, rest: string)
    requires FieldEnds(rest)
    ensures ReadQuoted(DoubleQuotes(s) + "\"" + rest) == Got(s, rest)
  {
    if s == "" {
      assert DoubleQuotes(s) + "\"" + rest == "\"" + rest;
    } else {
      QuotedRoundTrip(s[1..], rest);
      var head := if s[0] == '"' then "\"\"" else [s[0]];
      var tail := DoubleQuotes(s[1..]) + "\"" + rest;
      assert DoubleQuotes(s) + "\"" + rest == head + tail;
      assert (head + tail)[|head|..] == tail;
      assert [s[0]] + s[1..] == s;
    }
  }

  lemma FieldRoundTrip(s: string, rest: string)
    requires FieldEnds(rest)
    ensures ReadField(Quote(s) + rest) == Got(s, rest)
  {
    if NeedsQuotes(s) {
      var body := DoubleQuotes(s) + "\"" + rest;
      assert Quote(s) + rest == "\"" + body;
      assert ("\"" + body)[1..] == body;
      QuotedRoundTrip(s, rest);
    } else {
      assert s == "" ==> s + rest == rest;
      assert s != "" ==> s[0] in s;
      PlainRoundTrip(s, rest);
    }
  }

  lemma {:induction false} RecordRoundTrip(cells: seq<Cell>, rest: string)
    requires cells != [] && (rest == "" || CRLF <= rest)
    ensures ReadRecord(Line(cells) + rest) == Got(Map(cells, Guarded), rest)
    decreases |cells|
  {
    var first := EscapeCell(cells[0]);
    if |cells| == 1 {
      assert Line(cells) == first;
      FieldRoundTrip(Guarded(cells[0]), rest);
      assert Map(cells, Guarded) == [Guarded(cells[0])];
    } else {
      var tail := Line(cells[1..]) + rest;
      assert Map(cells, EscapeCell)[1..] == Map(cells[1..], EscapeCell);
      assert Line(cells) + rest == first + ("," + tail);
      FieldRoundTrip(Guarded(cells[0]), "," + tail);
      assert ("," + tail)[1..] == tail;
      RecordRoundTrip(cells[1..], rest);
    }
  }

  function Lines(table: seq<seq<Cell>>): string { Join(Map(table, Line), CRLF) }

  function Texts(table: seq<seq<Cell>>): seq<seq<string>> {
    Map(table, (cells: seq<Cell>) => Map(cells, Guarded))
  }

  /** The one table whose last line is lost when a final line break is dropped. */
  predicate EndsInEmptyLine(table: seq<seq<string>>) {
    |table| > 1 && table[|table| - 1] == [""]
  }

  lemma LinesUnfold(table: seq<seq<Cell>>)
    requires |table| > 1
    ensures Lines(table) == Line(table[0]) + (CRLF + Lines(table[1..]))
    ensures Texts(table) == [Map(table[0], Guarded)] + Texts(table[1..])
  {
    assert Map(table, Line)[1..] == Map(table[1..], Line);
    assert Line(table[0]) + CRLF + Lines(table[1..]) == Line(table[0]) + (CRLF + Lines(table[1..]));
  }

  /** A printed line is empty only for a single empty cell. */
  lemma EmptyLine(cells: seq<Cell>)
    requires cells != []
    ensures Line(cells) == "" <==> Map(cells, Guarded) == [""]
  {
    if |cells| == 1 {
      assert Line(cells) == EscapeCell(cells[0]);
      assert Map(cells, Guarded) == [Guarded(cells[0])];
    }
  }

  /** What reading the printed table gives. */
  function Expected(texts: seq<seq<string>>, dropLast: bool): seq<seq<string>> {
    if dropLast && EndsInEmptyLine(texts) then texts[..|texts| - 1] else texts
  }

  /** Reading one line off a printed table of several. */
  lemma FirstLine(table: seq<seq<Cell>>, dropLast: bool)
    requires |table| > 1 && table[0] != [] && table[1] != []
    ensures var texts, more := Texts(table), Lines(table[1..]);
            if dropLast && more == "" then
              ReadRecords(Lines(table), dropLast) == Some([texts[0]])
            else
              ReadRecords(Lines(table), dropLast)
              == match ReadRecords(more, dropLast)
                 case None => None
                 case Some(records) => Some([texts[0]] + records)
  {
    LinesUnfold(table);
    var more := Lines(table[1..]);
    var rest := CRLF + more;
    assert CRLF <= rest && rest[2..] == more;
    assert rest == CRLF <==> more == "";
    RecordRoundTrip(table[0], rest);
  }

  lemma ExpectedUnfold(table: seq<seq<Cell>>, dropLast: bool)
    requires |table| > 1 && table[1] != []
    requires !(dropLast && Lines(table[1..]) == "")
    ensures Expected(Texts(table), dropLast) == [Texts(table)[0]] + Expected(Texts(table[1..]), dropLast)
  {
    LinesUnfold(table);
    var texts, more := Texts(table), Texts(table[1..]);
    if |table| == 2 {
      assert Lines(table[1..]) == Line(table[1]);
      EmptyLine(table[1]);
    } else {
      assert texts[|texts| - 1] == more[|more| - 1];
      assert texts[..|texts| - 1] == [texts[0]] + more[..|more| - 1];
    }
  }

  lemma {:induction false} RecordsRoundTrip(table: seq<seq<Cell>>, dropLast: bool)
    requires table != [] && forall i :: 0 <= i < |table| ==> table[i] != []
    ensures ReadRecords(Lines(table), dropLast) == Some(Expected(Texts(table), dropLast))
    decreases |table|
  {
    if |table| == 1 {
      RecordRoundTrip(table[0], "");
      assert Lines(table) == Line(table[0]) + "";
      assert Texts(table) == [Map(table[0], Guarded)];
    } else {
      FirstLine(table, dropLast);
      if dropLast && Lines(table[1..]) == "" {
        LastEmptyLine(table[1..]);
        LinesUnfold(table);
      } else {
        ExpectedUnfold(table, dropLast);
        RecordsRoundTrip(table[1..], dropLast);
      }
    }
  }

  lemma LastEmptyLine(table: seq<seq<Cell>>)
    requires table != [] && table[0] != [] && Lines(table) == ""
    ensures |table| == 1 && Texts(table) == [[""]]
  {
    if |table| > 1 {
      LinesUnfold(table);
    } else {
      assert Lines(table) == Line(table[0]);
      EmptyLine(table[0]);
    }
  }

  ghost function CellTable<T>(columns: seq<Column<T>>, rows: seq<T>): seq<seq<Cell>> {
    [Map(columns, (c: Column<T>) => Text(c.header))] + Map(rows, (row: T) => CellsOf(columns, row))
  }

  lemma ExportedLines<T>(columns: seq<Column<T>>, rows: seq<T>)
    ensures ExportCsv(columns, rows) == BOM + Lines(CellTable(columns, rows))
    ensures Table(columns, rows) == Texts(CellTable(columns, rows))
  {
    var table := CellTable(columns, rows);
    assert Map(table, Line) == [Line(table[0])] + Map(rows, (row: T) => Line(CellsOf(columns, row)));
  }

  /**
   Reading back an export gives exactly the header and the rows, each cell as its guarded
   text, for every table with a column. A reader that takes a final line break for the
   optional last one loses a line exactly when the table has one column and ends in an
   empty cell.
   */
  lemma CsvRoundTrip<T>(columns: seq<Column<T>>, rows: seq<T>)
    requires columns != []
    ensures ReadCsv(ExportCsv(columns, rows), false) == Some(Table(columns, rows))
    ensures ReadCsv(ExportCsv(columns, rows), true) == Some(Table(columns, rows))
            <==> !(rows != [] && |columns| == 1 && Guarded(columns[0].value(rows[|rows| - 1])) == "")
  {
    hide ExportCsv, ReadRecords, Lines, Guarded;
    ExportedLines(columns, rows);
    var table, texts := CellTable(columns, rows), Table(columns, rows);
    RecordsRoundTrip(table, false);
    RecordsRoundTrip(table, true);
    assert (BOM + Lines(table))[1..] == Lines(table);
    if rows != [] {
      assert texts[|texts| - 1] == Map(CellsOf(columns, rows[|rows| - 1]), Guarded);
    }
  }

  /** Two tables print alike exactly when their guarded texts are equal. */
  lemma PrintsAlike<T, U>(columns1: seq<Column<T>>, rows1: seq<T>, columns2: seq<Column<U>>, rows2: seq<U>)
    requires columns1 != [] && columns2 != []
    ensures ExportCsv(columns1, rows1) == ExportCsv(columns2, rows2)
            <==> Table(columns1, rows1) == Table(columns2, rows2)
  {
    CsvRoundTrip(columns1, rows1);
    CsvRoundTrip(columns2, rows2);
    if Table(columns1, rows1) == Table(columns2, rows2) {
      ExportedLines(columns1, rows1);
      ExportedLines(columns2, rows2);
      SameTextsSameLines(CellTable(columns1, rows1), CellTable(columns2, rows2));
    }
  }

  lemma SameTextsSameLines(a: seq<seq<Cell>>, b: seq<seq<Cell>>)
    requires Texts(a) == Texts(b)
    ensures Lines(a) == Lines(b)
  {
    forall i | 0 <= i < |a| ensures Line(a[i]) == Line(b[i]) {
      assert Texts(a)[i] == Map(a[i], Guarded) && Texts(b)[i] == Map(b[i], Guarded);
      forall j | 0 <= j < |a[i]| ensures EscapeCell(a[i][j]) == EscapeCell(b[i][j]) {
        assert Map(a[i], Guarded)[j] == Map(b[i], Guarded)[j];
      }
      assert Map(a[i], EscapeCell) == Map(b[i], EscapeCell);
    }
    assert Map(a, Line) == Map(b, Line);
  }

  /** The guard itself loses information: an apostrophe typed by hand reads like the guard's. */
  lemma GuardIsNotInjective()
    ensures Guarded(Text("=1")) == Guarded(Text("'=1"))
  {
  }

  // ---------------------------------------------------------------- what a reader gets, cell by cell

  /**
   Every cell comes back in its place: a number as its digits, an absent value as the empty
   field, and a text as itself, except that one apostrophe stands in front of it exactly when
   it begins like a formula.
   */
  lemma CellsComeBack<T>(columns: seq<Column<T>>, rows: seq<T>, i: nat, j: nat)
    requires i < |rows| && j < |columns|
    ensures var read := ReadCsv(ExportCsv(columns, rows), false);
            && read.Some? && |read.value| == |rows| + 1 && |read.value[i + 1]| == |columns|
            && match columns[j].value(rows[i])
               case Number(repr) => read.value[i + 1][j] == repr
               case Absent => read.value[i + 1][j] == ""
               case Text(t) =>
                 if t != "" && t[0] in {'=', '+', '-', '@', '\t', '\r'} then read.value[i + 1][j] == ['\''] + t
                 else read.value[i + 1][j] == t
  {
    hide ReadCsv, ExportCsv, Guarded;
    CsvRoundTrip(columns, rows);
    assert Table(columns, rows)[i + 1] == Map(CellsOf(columns, rows[i]), Guarded);
    GuardedReads(columns[j].value(rows[i]));
  }

  lemma GuardedReads(cell: Cell)
    ensures match cell
            case Number(repr) => Guarded(cell) == repr
            case Absent => Guarded(cell) == ""
            case Text(t) =>
              if t != "" && t[0] in {'=', '+', '-', '@', '\t', '\r'} then Guarded(cell) == ['\''] + t
              else Guarded(cell) == t
  {
  }

  /** The first line holds the columns' headers, which are guarded like any text. */
  lemma HeadersComeBack<T>(columns: seq<Column<T>>, rows: seq<T>, j: nat)
    requires j < |columns|
    ensures var read := ReadCsv(ExportCsv(columns, rows), false);
            && read.Some? && |read.value| == |rows| + 1 && |read.value[0]| == |columns|
            && var t := columns[j].header;
               if t != "" && t[0] in {'=', '+', '-', '@', '\t', '\r'} then read.value[0][j] == ['\''] + t
               else read.value[0][j] == t
  {
    hide ReadCsv, ExportCsv, Guarded;
    CsvRoundTrip(columns, rows);
    GuardedReads(Text(columns[j].header));
  }

  /** Text that needs neither quotes nor a guard. */
  predicate PlainText(t: string) {
    && (t == "" || t[0] !in {'=', '+', '-', '@', '\t', '\r'})
    && '"' !in t && ',' !in t && '\r' !in t && '\n' !in t
  }

  lemma PlainLine(cells: seq<Cell>, texts: seq<string>)
    requires |cells| == |texts|
    requires forall j :: 0 <= j < |cells| ==> cells[j] == Text(texts[j]) && PlainText(texts[j])
    ensures Line(cells) == Join(texts, ",")
  {
    assert Map(cells, EscapeCell) == texts;
  }

  /**
   The file byte for byte, where nothing needs quoting: the byte order mark, then the header
   and the rows with a comma between cells, CR LF between lines and nothing behind the last.
   */
  lemma PlainTableVerbatim<T>(columns: seq<Column<T>>, rows: seq<T>, headers: seq<string>, texts: seq<seq<string>>)
    requires |headers| == |columns| && |texts| == |rows|
    requires forall j :: 0 <= j < |columns| ==> columns[j].header == headers[j] && PlainText(headers[j])
    requires forall i :: 0 <= i < |rows| ==> |texts[i]| == |columns|
    requires forall i, j :: 0 <= i < |rows| && 0 <= j < |columns| ==>
               columns[j].value(rows[i]) == Text(texts[i][j]) && PlainText(texts[i][j])
    ensures ExportCsv(columns, rows)
            == "\U{FEFF}" + Join([Join(headers, ",")] + seq(|rows|, i requires 0 <= i < |rows| => Join(texts[i], ",")), "\r\n")
  {
    hide Line, Join, PlainText;
    PlainLine(Map(columns, (c: Column<T>) => Text(c.header)), headers);
    var lines := seq(|rows|, i requires 0 <= i < |rows| => Join(texts[i], ","));
    forall i | 0 <= i < |rows| ensures Line(CellsOf(columns, rows[i])) == lines[i] {
      PlainLine(CellsOf(columns, rows[i]), texts[i]);
    }
    assert Map(rows, (row: T) => Line(CellsOf(columns, row))) == lines;
  }

  lemma EmptyFirst(more: string)
    ensures ReadRecords(CRLF + more, false)
            == match ReadRecords(more, false) case None => None case Some(records) => Some([[""]] + records)
  {
    var text := CRLF + more;
    assert ReadField(text) == Got("", text);
    assert text[2..] == more;
  }

  lemma {:induction false} EmptyLines(table: seq<seq<Cell>>)
    requires table != [] && forall i :: 0 <= i < |table| ==> table[i] == []
    ensures ReadRecords(Lines(table), false) == Some(seq(|table|, i => [""]))
    decreases |table|
  {
    hide ReadRecord, Texts;
    assert Line(table[0]) == "";
    if |table| > 1 {
      LinesUnfold(table);
      EmptyLines(table[1..]);
      assert Lines(table) == CRLF + Lines(table[1..]);
      EmptyFirst(Lines(table[1..]));
      assert [[""]] + seq(|table| - 1, i => [""]) == seq(|table|, i => [""]);
    } else {
      assert Lines(table) == "";
      NothingReads();
      assert [[""]] == seq(1, i => [""]);
    }
  }

  lemma NothingReads()
    ensures ReadRecords("", false) == Some([[""]])
  {
    assert ReadField("") == Got("", "");
  }

  /** Without a column every line is empty, which reads as one empty field. */
  lemma NoColumns<T>(rows: seq<T>)
    ensures ReadCsv(ExportCsv([], rows), false) == Some(seq(|rows| + 1, i => [""]))
  {
    hide ReadRecords, Lines, ExportCsv;
    var columns: seq<Column<T>> := [];
    var table := CellTable(columns, rows);
    ExportedLines(columns, rows);
    EmptyLines(table);
    assert (BOM + Lines(table))[1..] == Lines(table);
  }
}
