/** The CSV reader of the bulk import: quoted fields with doubled quotes (section 2, rules 5 and 7
    of RFC 4180, without embedded line breaks), and the printer it inverts. */
module Csv {
  import opened Text

  // ---------- reading one line ----------

  /** How much of `s`, the text after an opening quote, the inner cursor passes before it stops
      at a quote that is not doubled, or at the end of the line. */
  function QuotedLength(s: string): (n: nat)
    ensures n <= |s|
  {
    if s == "" then 0
    else if s[0] != '"' then 1 + QuotedLength(s[1..])
    else if |s| > 1 && s[1] == '"' then 2 + QuotedLength(s[2..])
    else 0
  }

  /** Doubled quotes become single ones, from left to right. */
  function Unescape(s: string): string {
    if |s| < 2 then s
    else if s[0] == '"' && s[1] == '"' then "\"" + Unescape(s[2..])
    else [s[0]] + Unescape(s[1..])
  }

  function BareLength(s: string): (n: nat)
    ensures n <= |s|
    ensures forall i :: 0 <= i < n ==> s[i] != ','
    ensures n < |s| ==> s[n] == ','
  {
    if s == "" || s[0] == ',' then 0 else 1 + BareLength(s[1..])
  }

  /** The characters a line's next field takes, with the comma that ends it. */
  function FieldLength(s: string): (n: nat)
    requires s != ""
    ensures 0 < n <= |s|
  {
    if s[0] == '"' then
      var end := 1 + QuotedLength(s[1..]);
      if end + 1 < |s| && s[end + 1] == ',' then end + 2
      else if end < |s| then end + 1
      else end
    else
      var end := BareLength(s);
      if end < |s| then end + 1 else end
  }

  function FieldText(s: string): string
    requires s != ""
  {
    if s[0] == '"' then Trim(Unescape(s[1..1 + QuotedLength(s[1..])]))
    else Trim(s[..BareLength(s)])
  }

  /** The fields of the rest `s` of a line. */
  function Fields(s: string): seq<string>
    decreases |s|
  {
    if s == "" then [] else [FieldText(s)] + Fields(s[FieldLength(s)..])
  }

  /** The inner cursor: from behind an opening quote to the quote that closes it. */
  method CloseQuote(line: string, start: nat) returns (end: nat)
    requires start <= |line|
    ensures end == start + QuotedLength(line[start..])
  {
    end := start;
    while end < |line| && (line[end] != '"' || (end + 1 < |line| && line[end + 1] == '"'))
      invariant start <= end <= |line|
      invariant end + QuotedLength(line[end..]) == start + QuotedLength(line[start..])
    {
      if line[end] == '"' {
        assert line[end..][2..] == line[end + 2..];
        end := end + 2;
      } else {
        assert line[end..][1..] == line[end + 1..];
        end := end + 1;
      }
    }
  }

  /** The first comma from `start` on, or the end of the line. */
  method IndexOfComma(line: string, start: nat) returns (end: nat)
    requires start <= |line|
    ensures end == start + BareLength(line[start..])
  {
    end := start;
    while end < |line| && line[end] != ','
      invariant start <= end <= |line|
      invariant end + BareLength(line[end..]) == start + BareLength(line[start..])
    {
      assert line[end..][1..] == line[end + 1..];
      end := end + 1;
    }
  }

  /** What is left of the line for a cursor that may stand one past the end. */
  function From(line: string, i: nat): string {
    if i < |line| then line[i..] else ""
  }

  lemma NoFields()
    ensures Fields("") == []
  {
  }

  lemma FirstField(s: string)
    requires s != ""
    ensures Fields(s) == [FieldText(s)] + Fields(s[FieldLength(s)..])
  {
    hide Trim, Unescape, QuotedLength, BareLength;
  }

  lemma QuotedFieldAt(line: string, i: nat, end: nat)
    requires i < |line| && line[i] == '"' && end == i + 1 + QuotedLength(line[i + 1..])
    ensures end <= |line|
    ensures var next := if end + 1 < |line| && line[end + 1] == ',' then end + 2 else end + 1;
            Fields(From(line, i)) == [Trim(Unescape(line[i + 1..end]))] + Fields(From(line, next))
  {
    hide Trim, Unescape, QuotedLength, Fields;
    var rest := line[i..];
    FirstField(rest);
    assert rest[1..] == line[i + 1..];
    assert rest[1..end - i] == line[i + 1..end];
    var next := if end + 1 < |line| && line[end + 1] == ',' then end + 2 else end + 1;
    assert rest[FieldLength(rest)..] == From(line, next);
  }

  lemma BareFieldAt(line: string, i: nat, end: nat)
    requires i < |line| && line[i] != '"' && end == i + BareLength(line[i..])
    ensures end <= |line|
    ensures var next := if end == |line| then |line| else end + 1;
            Fields(From(line, i)) == [Trim(line[i..end])] + Fields(From(line, next))
  {
    hide Trim, Unescape, BareLength, Fields;
    var rest := line[i..];
    FirstField(rest);
    assert rest[..end - i] == line[i..end];
    var next := if end == |line| then |line| else end + 1;
    assert rest[FieldLength(rest)..] == From(line, next);
  }

  /** The scanner with its two cursors. It ends on every line, unclosed quotes included. */
  method ParseLine(line: string) returns (fields: seq<string>)
    ensures fields == Fields(line)
  {
    hide Trim, Unescape, Fields, QuotedLength, BareLength;
    fields := [];
    var i := 0;
    assert From(line, 0) == line;
    while i < |line|
      invariant fields + Fields(From(line, i)) == Fields(line)
    {
      if line[i] == '"' {
        var end := CloseQuote(line, i + 1);
        QuotedFieldAt(line, i, end);
        fields := fields + [Trim(Unescape(line[i + 1..end]))];
        i := end + 1;
        if i < |line| && line[i] == ',' {
          i := i + 1;
        }
      } else {
        var end := IndexOfComma(line, i);
        BareFieldAt(line, i, end);
        fields := fields + [Trim(line[i..end])];
        i := if end == |line| then |line| else end + 1;
      }
    }
    NoFields();
  }

  // ---------- reading a file ----------

  /** CRLF and CR line breaks become LF. */
  function UnixBreaks(s: string): string {
    if s == "" then ""
    else if s[0] == '\r' then "\n" + UnixBreaks(if |s| > 1 && s[1] == '\n' then s[2..] else s[1..])
    else [s[0]] + UnixBreaks(s[1..])
  }

  function StripBom(text: string): string {
    if text != "" && text[0] == '\U{FEFF}' then text[1..] else text
  }

  predicate NonEmpty(s: string) {
    s != ""
  }

  /** The trimmed lines that are not blank. */
  function Lines(text: string): seq<string> {
    Filter(NonEmpty, MapSeq(Trim, Split(UnixBreaks(StripBom(text)), '\n')))
  }

  function NormalizeHeader(h: string): string {
    CollapseSpaces(Lower(h), '_')
  }

  type Row = map<string, string>

  /** Assigning a string to the property `__proto__` of an object sets no property. */
  const PROTO := "__proto__"

  function WithProperty(row: Row, key: string, value: string): Row {
    if key == PROTO then row else row[key := value]
  }

  /** The first `n` headers with their values; a missing value reads as the empty string and
      a repeated header keeps its last value. */
  function RowOf(headers: seq<string>, values: seq<string>, n: nat): Row
    requires n <= |headers|
  {
    if n == 0 then map[]
    else WithProperty(RowOf(headers, values, n - 1), headers[n - 1], if n - 1 < |values| then values[n - 1] else "")
  }

  function Rows(text: string): seq<Row> {
    var lines := Lines(text);
    if |lines| < 2 then []
    else
      var headers := MapSeq(NormalizeHeader, Fields(lines[0]));
      seq(|lines| - 1, r requires 0 <= r < |lines| - 1 => RowOf(headers, Fields(lines[r + 1]), |headers|))
  }

  method ParseCsvToRows(buffer: string) returns (rows: seq<Row>)
    ensures rows == Rows(buffer)
  {
    hide Lines, Fields, NormalizeHeader;
    rows := [];
    var lines := Lines(buffer);
    if |lines| < 2 {
      return;
    }
    var first := ParseLine(lines[0]);
    var headers := MapSeq(NormalizeHeader, first);
    var r := 1;
    while r < |lines|
      invariant 1 <= r <= |lines|
      invariant |rows| == r - 1
      invariant forall k :: 0 <= k < |rows| ==> rows[k] == RowOf(headers, Fields(lines[k + 1]), |headers|)
    {
      var values := ParseLine(lines[r]);
      var row: Row := map[];
      var i := 0;
      while i < |headers|
        invariant 0 <= i <= |headers|
        invariant row == RowOf(headers, values, i)
      {
        row := WithProperty(row, headers[i], if i < |values| then values[i] else "");
        i := i + 1;
      }
      rows := rows + [row];
      r := r + 1;
    }
  }

  // ---------- printing ----------

  /** A cell of a line: quoted, with its quotes doubled, or bare. */
  datatype Cell = Quoted(text: string) | Bare(text: string)

  /** A bare cell has no comma and does not open with a quote. */
  predicate Printable(cell: Cell) {
    cell.Bare? ==> ',' !in cell.text && (cell.text != "" ==> cell.text[0] != '"')
  }

  function Escape(s: string): string {
    if s == "" then "" else (if s[0] == '"' then "\"\"" else [s[0]]) + Escape(s[1..])
  }

  function PrintCell(cell: Cell): string {
    if cell.Quoted? then "\"" + Escape(cell.text) + "\"" else cell.text
  }

  function PrintLine(cells: seq<Cell>): string {
    Join(MapSeq(PrintCell, cells), ',')
  }

  function CellText(cell: Cell): string {
    Trim(cell.text)
  }

  /** A last bare cell without any text leaves nothing for the reader to find. */
  function Readable(cells: seq<Cell>): seq<Cell> {
    if cells != [] && cells[|cells| - 1] == Bare("") then cells[..|cells| - 1] else cells
  }

  lemma ReadableCons(cell: Cell, cells: seq<Cell>)
    requires cells != []
    ensures Readable([cell] + cells) == [cell] + Readable(cells)
  {
  }

  lemma {:induction false} UnescapeEscape(s: string)
    ensures Unescape(Escape(s)) == s
  {
    if s != "" {
      UnescapeEscape(s[1..]);
      var e := Escape(s[1..]);
      if s[0] == '"' {
        assert Escape(s)[2..] == e;
      } else {
        assert Escape(s) == [s[0]] + e && Escape(s)[1..] == e;
        assert s == [s[0]] + s[1..];
      }
    }
  }

  lemma {:induction false} QuotedLengthOfEscape(s: string, rest: string)
    requires rest == "" || rest[0] != '"'
    ensures QuotedLength(Escape(s) + "\"" + rest) == |Escape(s)|
  {
    var t := Escape(s) + "\"" + rest;
    if s == "" {
      assert t == "\"" + rest;
    } else {
      QuotedLengthOfEscape(s[1..], rest);
      assert t[if s[0] == '"' then 2 else 1..] == Escape(s[1..]) + "\"" + rest;
    }
  }

  lemma {:induction false} BareLengthOf(s: string, rest: string)
    requires ',' !in s && (rest == "" || rest[0] == ',')
    ensures BareLength(s + rest) == |s|
  {
    if s == "" {
      assert s + rest == rest;
    } else {
      assert (s + rest)[1..] == s[1..] + rest;
      BareLengthOf(s[1..], rest);
    }
  }

  /** One printed cell, followed by the end of the line or by a comma, is read back. */
  lemma CellReadBack(cell: Cell, rest: string)
    requires Printable(cell) && (rest == "" || rest[0] == ',')
    requires PrintCell(cell) + rest != ""
    ensures var s := PrintCell(cell) + rest;
            FieldText(s) == CellText(cell) && s[FieldLength(s)..] == if rest == "" then "" else rest[1..]
  {
    hide Trim, Escape, Unescape, QuotedLength, BareLength;
    var s := PrintCell(cell) + rest;
    if cell.Quoted? {
      var e := Escape(cell.text);
      assert s[1..] == e + "\"" + rest;
      QuotedLengthOfEscape(cell.text, rest);
      assert s[1..1 + |e|] == e;
      UnescapeEscape(cell.text);
      assert s[|e| + 2..] == rest;
    } else {
      BareLengthOf(cell.text, rest);
      assert s[..|cell.text|] == cell.text;
      assert s[|cell.text|..] == rest;
    }
  }

  lemma LastCellReadBack(cell: Cell)
    requires Printable(cell)
    ensures Fields(PrintCell(cell)) == if cell == Bare("") then [] else [CellText(cell)]
  {
    var s := PrintCell(cell);
    if s != "" {
      assert s + "" == s;
      CellReadBack(cell, "");
    }
  }

  lemma CommaReadBack(cell: Cell, line: string)
    requires Printable(cell)
    ensures Fields(PrintCell(cell) + "," + line) == [CellText(cell)] + Fields(line)
  {
    hide CellText, PrintCell, FieldText, FieldLength, Printable;
    var s := PrintCell(cell) + "," + line;
    assert PrintCell(cell) + ("," + line) == s;
    CellReadBack(cell, "," + line);
    assert ("," + line)[1..] == line;
  }

  lemma PrintCons(cell: Cell, tail: seq<Cell>)
    requires tail != []
    ensures PrintLine([cell] + tail) == PrintCell(cell) + "," + PrintLine(tail)
  {
    hide PrintCell;
    MapCons(PrintCell, cell, tail);
  }

  /** Every line of printable cells, quoted and bare in any mix, is read back with its texts trimmed,
      except that a last cell that is bare and empty is not seen. */
  lemma {:induction false} LineReadBack(cells: seq<Cell>)
    requires forall c :: c in cells ==> Printable(c)
    ensures Fields(PrintLine(cells)) == MapSeq(CellText, Readable(cells))
    decreases |cells|
  {
    hide CellText, PrintCell, Printable;
    if |cells| == 1 {
      LastCellReadBack(cells[0]);
      assert PrintLine(cells) == PrintCell(cells[0]);
    } else if |cells| > 1 {
      hide Fields, PrintLine;
      var tail := cells[1..];
      LineReadBack(tail);
      assert cells == [cells[0]] + tail;
      PrintCons(cells[0], tail);
      CommaReadBack(cells[0], PrintLine(tail));
      ReadableCons(cells[0], tail);
      hide Readable, MapSeq;
      MapCons(CellText, cells[0], Readable(tail));
    }
  }

  function QuoteAll(fields: seq<string>): seq<Cell> {
    MapSeq(s => Quoted(s), fields)
  }

  function BareAll(pieces: seq<string>): seq<Cell> {
    MapSeq(s => Bare(s), pieces)
  }

  /** Whatever the fields contain, quoting them all and reading the line back trims them. */
  lemma QuotedReadBack(fields: seq<string>)
    ensures Fields(PrintLine(QuoteAll(fields))) == MapSeq(Trim, fields)
  {
    hide Fields, PrintLine, Trim, MapSeq;
    var cells := QuoteAll(fields);
    LineReadBack(cells);
    assert Readable(cells) == cells;
    assert MapSeq(CellText, cells) == MapSeq(Trim, fields);
  }

  lemma TrimAllFixedIff(fields: seq<string>)
    ensures MapSeq(Trim, fields) == fields <==> forall f :: f in fields ==> Trimmed(f)
  {
    hide MapSeq, Trim, Trimmed;
    var back := MapSeq(Trim, fields);
    forall i | 0 <= i < |fields| ensures back[i] == fields[i] <==> Trimmed(fields[i]) {
      TrimFixedIff(fields[i]);
    }
    if forall f :: f in fields ==> Trimmed(f) {
      assert forall i :: 0 <= i < |fields| ==> fields[i] in fields;
    } else {
      var f :| f in fields && !Trimmed(f);
      var i :| 0 <= i < |fields| && fields[i] == f;
      assert back[i] != fields[i];
    }
  }

  /** Quoting every field round-trips a line exactly when every field is already trimmed. */
  lemma QuotedLineRoundTripIff(fields: seq<string>)
    ensures Fields(PrintLine(QuoteAll(fields))) == fields <==> forall f :: f in fields ==> Trimmed(f)
  {
    hide Fields, PrintLine, QuoteAll, Trim, Trimmed, MapSeq;
    QuotedReadBack(fields);
    TrimAllFixedIff(fields);
  }

  lemma BareReadBack(pieces: seq<string>)
    requires forall p :: p in pieces ==> ',' !in p && '"' !in p
    ensures Fields(PrintLine(BareAll(pieces))) == MapSeq(CellText, Readable(BareAll(pieces)))
    ensures PrintLine(BareAll(pieces)) == Join(pieces, ',')
  {
    hide Fields, Trim, MapSeq, Join;
    var cells := BareAll(pieces);
    forall c | c in cells ensures Printable(c) {
      assert c.text in pieces;
      if c.text != "" { assert c.text[0] in c.text; }
    }
    assert MapSeq(PrintCell, cells) == pieces;
    LineReadBack(cells);
  }

  /** Without quotes a line is split at its commas and the pieces are trimmed; an empty piece
      at the end is dropped. */
  lemma UnquotedLineIsSplit(line: string)
    requires '"' !in line
    ensures var pieces := Split(line, ',');
            var n := |pieces| - 1;
            Fields(line) == MapSeq(Trim, if pieces[n] == "" then pieces[..n] else pieces)
  {
    hide Fields, Trim, Split, Join, MapSeq, PrintLine;
    var pieces := Split(line, ',');
    JoinSplit(line, ',');
    BareReadBack(pieces);
    var cells, n := BareAll(pieces), |pieces| - 1;
    assert cells[n] == Bare("") <==> pieces[n] == "";
    assert MapSeq(CellText, Readable(cells)) == MapSeq(Trim, if pieces[n] == "" then pieces[..n] else pieces);
  }

  // ---------- the file round trip ----------

  datatype Break = LF | CRLF | CR

  function BreakText(b: Break): string {
    match b
    case LF => "\n"
    case CRLF => "\r\n"
    case CR => "\r"
  }

  /** Lines with a break after each but the last, and after the last too when `final`. */
  function PrintLines(lines: seq<string>, b: Break, final: bool): string {
    if lines == [] then ""
    else lines[0] + (if |lines| > 1 || final then BreakText(b) else "") + PrintLines(lines[1..], b, final)
  }

  function PrintFile(bom: bool, lines: seq<string>, b: Break, final: bool): string {
    (if bom then "\U{FEFF}" else "") + PrintLines(lines, b, final)
  }

  /** A line that trimming leaves alone, without line breaks or a byte order mark. */
  predicate PlainLine(s: string) {
    s != "" && Trimmed(s) && '\r' !in s && '\n' !in s && s[0] != '\U{FEFF}'
  }

  lemma {:induction false} UnixBreaksThrough(s: string, rest: string)
    requires '\r' !in s
    ensures UnixBreaks(s + rest) == s + UnixBreaks(rest)
  {
    if s == "" {
      assert s + rest == rest;
    } else {
      assert (s + rest)[1..] == s[1..] + rest;
      UnixBreaksThrough(s[1..], rest);
    }
  }

  lemma UnixBreaksAtBreak(b: Break, rest: string)
    requires rest == "" || rest[0] != '\n'
    ensures UnixBreaks(BreakText(b) + rest) == "\n" + UnixBreaks(rest)
  {
    var s := BreakText(b) + rest;
    assert s[|BreakText(b)|..] == rest;
  }

  lemma NoBreakAtStart(lines: seq<string>, b: Break, final: bool)
    requires forall l :: l in lines ==> PlainLine(l)
    ensures var s := PrintLines(lines, b, final); s == "" || s[0] != '\n'
  {
    if lines != [] {
      assert PlainLine(lines[0]);
      assert lines[0][0] in lines[0];
    }
  }

  lemma UnixLine(line: string, ended: bool, b: Break, rest: string)
    requires '\r' !in line && (rest == "" || rest[0] != '\n')
    ensures UnixBreaks(line + (if ended then BreakText(b) else "") + rest)
            == line + (if ended then BreakText(LF) else "") + UnixBreaks(rest)
  {
    hide UnixBreaks;
    if ended {
      assert line + BreakText(b) + rest == line + (BreakText(b) + rest);
      UnixBreaksThrough(line, BreakText(b) + rest);
      UnixBreaksAtBreak(b, rest);
    } else {
      assert line + "" + rest == line + rest;
      UnixBreaksThrough(line, rest);
    }
  }

  lemma {:induction false} UnixBreaksOfLines(lines: seq<string>, b: Break, final: bool)
    requires forall l :: l in lines ==> PlainLine(l)
    ensures UnixBreaks(PrintLines(lines, b, final)) == PrintLines(lines, LF, final)
  {
    if lines != [] {
      hide UnixBreaks, BreakText, Trimmed;
      assert PlainLine(lines[0]);
      UnixBreaksOfLines(lines[1..], b, final);
      NoBreakAtStart(lines[1..], b, final);
      UnixLine(lines[0], |lines| > 1 || final, b, PrintLines(lines[1..], b, final));
    }
  }

  lemma {:induction false} SplitLines(lines: seq<string>, final: bool)
    requires lines != [] && forall l :: l in lines ==> PlainLine(l)
    ensures Split(PrintLines(lines, LF, final), '\n') == lines + if final then [""] else []
  {
    var s := PrintLines(lines, LF, final);
    var rest := PrintLines(lines[1..], LF, final);
    assert PlainLine(lines[0]);
    if |lines| > 1 {
      SplitLines(lines[1..], final);
      assert s == lines[0] + ['\n'] + rest;
      SplitStep(lines[0], rest, '\n');
      assert lines == [lines[0]] + lines[1..];
    } else if final {
      assert s == lines[0] + ['\n'] + "";
      SplitStep(lines[0], "", '\n');
    } else {
      assert s == lines[0];
      SplitLast(lines[0], '\n');
    }
  }

  lemma {:induction false} FilterAppendEmpty(lines: seq<string>)
    ensures Filter(NonEmpty, lines + [""]) == Filter(NonEmpty, lines)
  {
    if lines != [] {
      assert (lines + [""])[1..] == lines[1..] + [""];
      FilterAppendEmpty(lines[1..]);
    }
  }

  lemma PlainLinesKept(lines: seq<string>, final: bool)
    requires forall l :: l in lines ==> PlainLine(l)
    ensures Filter(NonEmpty, MapSeq(Trim, lines + if final then [""] else [])) == lines
  {
    hide MapSeq, Filter, Trimmed;
    var parts := lines + if final then [""] else [];
    TrimFixedIff("");
    assert Trim("") == "";
    hide Trim;
    forall i | 0 <= i < |parts| ensures Trim(parts[i]) == parts[i] {
      if i < |lines| {
        assert lines[i] in lines;
        TrimFixedIff(lines[i]);
      }
    }
    assert MapSeq(Trim, parts) == parts;
    FilterAll(NonEmpty, lines);
    FilterAppendEmpty(lines);
    assert lines + [] == lines;
  }

  /** The lines of a printed file are read back for every kind of line break, with or without
      a byte order mark and with or without a break at the end. */
  lemma LinesReadBack(bom: bool, lines: seq<string>, b: Break, final: bool)
    requires lines != [] && forall l :: l in lines ==> PlainLine(l)
    ensures Lines(PrintFile(bom, lines, b, final)) == lines
  {
    hide MapSeq, Filter, Trim, Trimmed, Split, UnixBreaks;
    var printed := PrintLines(lines, b, final);
    assert PlainLine(lines[0]) && printed[0] == lines[0][0];
    assert StripBom(PrintFile(bom, lines, b, final)) == printed;
    UnixBreaksOfLines(lines, b, final);
    SplitLines(lines, final);
    PlainLinesKept(lines, final);
  }

  predicate NoBreaks(s: string) {
    '\r' !in s && '\n' !in s
  }

  lemma {:induction false} EscapeNoBreaks(s: string)
    requires NoBreaks(s)
    ensures NoBreaks(Escape(s))
  {
    if s != "" {
      assert s[0] in s;
      EscapeNoBreaks(s[1..]);
    }
  }

  lemma {:induction false} QuotedLineIsPlain(fields: seq<string>)
    requires fields != [] && forall f :: f in fields ==> NoBreaks(f)
    ensures PlainLine(PrintLine(QuoteAll(fields)))
    ensures PrintLine(QuoteAll(fields))[0] == '"'
  {
    var cells := QuoteAll(fields);
    var s := PrintLine(cells);
    assert fields[0] in fields && cells[0] == Quoted(fields[0]);
    EscapeNoBreaks(fields[0]);
    var first := PrintCell(cells[0]);
    assert NoBreaks(first) && first[0] == '"' && first[|first| - 1] == '"';
    if |fields| == 1 {
      assert s == first;
    } else {
      QuotedLineIsPlain(fields[1..]);
      var rest := PrintLine(QuoteAll(fields[1..]));
      assert MapSeq(PrintCell, cells)[1..] == MapSeq(PrintCell, QuoteAll(fields[1..]));
      assert s == first + [','] + rest;
      assert s[|s| - 1] == rest[|rest| - 1];
    }
  }

  /** A rectangular table without line breaks or untrimmed fields, whose normalised headers differ and can be keys. */
  predicate Table(headers: seq<string>, rows: seq<seq<string>>) {
    && headers != []
    && (forall h :: h in headers ==> NoBreaks(h) && Trimmed(h))
    && (forall i, j :: 0 <= i < j < |headers| ==> NormalizeHeader(headers[i]) != NormalizeHeader(headers[j]))
    && (forall i :: 0 <= i < |headers| ==> NormalizeHeader(headers[i]) != PROTO)
    && (forall r :: r in rows ==> |r| == |headers| && forall f :: f in r ==> NoBreaks(f) && Trimmed(f))
  }

  function QuotedLine(fields: seq<string>): string {
    PrintLine(QuoteAll(fields))
  }

  function PrintTable(headers: seq<string>, rows: seq<seq<string>>): seq<string> {
    [QuotedLine(headers)] + MapSeq(QuotedLine, rows)
  }

  /** Row `row` as a header-to-value map: exactly the headers, each with its own value. */
  ghost predicate RowIs(row: Row, headers: seq<string>, values: seq<string>) {
    && |values| == |headers|
    && (forall h :: h in row <==> exists i :: 0 <= i < |headers| && NormalizeHeader(headers[i]) == h)
    && (forall i :: 0 <= i < |headers| ==> NormalizeHeader(headers[i]) in row && row[NormalizeHeader(headers[i])] == values[i])
  }

  lemma {:induction false} RowOfKeys(headers: seq<string>, values: seq<string>, n: nat, h: string)
    requires n <= |headers|
    ensures h in RowOf(headers, values, n) <==> h != PROTO && exists i :: 0 <= i < n && headers[i] == h
  {
    if n > 0 {
      RowOfKeys(headers, values, n - 1, h);
      assert headers[n - 1] == h ==> exists i :: 0 <= i < n && headers[i] == h;
    }
  }

  /** A header's value is that of its last column, and the empty text where the row is too short. */
  lemma {:induction false} RowOfValue(headers: seq<string>, values: seq<string>, n: nat, i: nat)
    requires i < n <= |headers|
    requires forall j :: i < j < n ==> headers[i] != headers[j]
    requires headers[i] != PROTO
    ensures headers[i] in RowOf(headers, values, n)
    ensures RowOf(headers, values, n)[headers[i]] == if i < |values| then values[i] else ""
  {
    if i < n - 1 { RowOfValue(headers, values, n - 1, i); }
  }

  /** With distinct headers a row has exactly the headers as keys, each with its own value; one key is never set. */
  lemma RowOfDistinct(headers: seq<string>, values: seq<string>, n: nat)
    requires n <= |headers| == |values|
    requires forall i, j :: 0 <= i < j < |headers| ==> headers[i] != headers[j]
    ensures forall h :: h in RowOf(headers, values, n) <==> h != PROTO && exists i :: 0 <= i < n && headers[i] == h
    ensures forall i :: 0 <= i < n && headers[i] != PROTO ==> RowOf(headers, values, n)[headers[i]] == values[i]
  {
    hide RowOf;
    forall h ensures h in RowOf(headers, values, n) <==> h != PROTO && exists i :: 0 <= i < n && headers[i] == h {
      RowOfKeys(headers, values, n, h);
    }
    forall i | 0 <= i < n && headers[i] != PROTO
      ensures headers[i] in RowOf(headers, values, n) && RowOf(headers, values, n)[headers[i]] == values[i]
    {
      RowOfValue(headers, values, n, i);
    }
  }

  lemma TableLinesPlain(headers: seq<string>, rows: seq<seq<string>>)
    requires Table(headers, rows)
    ensures forall l :: l in PrintTable(headers, rows) ==> PlainLine(l)
  {
    hide NormalizeHeader, PlainLine, MapSeq, NoBreaks, Trimmed;
    forall l | l in PrintTable(headers, rows) ensures PlainLine(l) {
      if l == QuotedLine(headers) {
        QuotedLineIsPlain(headers);
      } else {
        var k :| 0 <= k < |rows| && l == QuotedLine(rows[k]);
        assert rows[k] in rows;
        QuotedLineIsPlain(rows[k]);
      }
    }
  }

  lemma RowReadBack(headers: seq<string>, rows: seq<seq<string>>, k: nat)
    requires Table(headers, rows) && k < |rows|
    ensures var normal := MapSeq(NormalizeHeader, headers);
            RowIs(RowOf(normal, Fields(QuotedLine(rows[k])), |normal|), headers, rows[k])
  {
    assert rows[k] in rows;
    QuotedLineRoundTripIff(rows[k]);
    hide NormalizeHeader, Fields, MapSeq, NoBreaks, Trimmed, PrintLine, QuoteAll, RowIs, RowOf;
    RowByHeader(headers, rows[k]);
  }

  lemma RowByHeader(headers: seq<string>, values: seq<string>)
    requires |values| == |headers|
    requires forall i, j :: 0 <= i < j < |headers| ==> NormalizeHeader(headers[i]) != NormalizeHeader(headers[j])
    requires forall i :: 0 <= i < |headers| ==> NormalizeHeader(headers[i]) != PROTO
    ensures var normal := MapSeq(NormalizeHeader, headers);
            RowIs(RowOf(normal, values, |normal|), headers, values)
  {
    hide NormalizeHeader, RowOf, MapSeq;
    var normal := MapSeq(NormalizeHeader, headers);
    NormalDistinct(headers);
    RowOfDistinct(normal, values, |normal|);
    RowIsByNormal(RowOf(normal, values, |normal|), headers, normal, values);
  }

  lemma NormalDistinct(headers: seq<string>)
    requires forall i, j :: 0 <= i < j < |headers| ==> NormalizeHeader(headers[i]) != NormalizeHeader(headers[j])
    ensures var normal := MapSeq(NormalizeHeader, headers);
            forall i, j :: 0 <= i < j < |normal| ==> normal[i] != normal[j]
  {
    hide NormalizeHeader, MapSeq;
  }

  lemma RowIsByNormal(row: Row, headers: seq<string>, normal: seq<string>, values: seq<string>)
    requires |normal| == |headers| == |values|
    requires forall i :: 0 <= i < |headers| ==> normal[i] == NormalizeHeader(headers[i]) && normal[i] != PROTO
    requires forall h :: h in row <==> h != PROTO && exists i :: 0 <= i < |normal| && normal[i] == h
    requires forall i :: 0 <= i < |normal| && normal[i] != PROTO ==> row[normal[i]] == values[i]
    ensures RowIs(row, headers, values)
  {
    hide NormalizeHeader;
    forall h ensures h in row <==> exists i :: 0 <= i < |headers| && NormalizeHeader(headers[i]) == h {
      if h in row {
        var i :| 0 <= i < |normal| && normal[i] == h;
        assert NormalizeHeader(headers[i]) == h;
      }
    }
  }

  /** Printing any table with every field quoted, and reading the file, gives back exactly its rows. */
  lemma FileRoundTrip(bom: bool, headers: seq<string>, rows: seq<seq<string>>, b: Break, final: bool)
    requires Table(headers, rows)
    ensures var read := Rows(PrintFile(bom, PrintTable(headers, rows), b, final));
            |read| == |rows| && forall k :: 0 <= k < |rows| ==> RowIs(read[k], headers, rows[k])
  {
    hide Fields, Lines, PrintFile, MapSeq, PrintLine, QuoteAll, RowOf, RowIs, PlainLine, Trimmed, NoBreaks;
    var lines := PrintTable(headers, rows);
    TableLinesPlain(headers, rows);
    LinesReadBack(bom, lines, b, final);
    QuotedLineRoundTripIff(headers);
    var read := Rows(PrintFile(bom, lines, b, final));
    forall k | 0 <= k < |rows| ensures RowIs(read[k], headers, rows[k]) {
      RowReadBack(headers, rows, k);
      assert lines[k + 1] == QuotedLine(rows[k]);
    }
  }
}
