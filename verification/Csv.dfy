/**
 The CSV cell printer, and a reader for the grammar of section 2 of RFC 4180 with
 records ended by a line feed. The reader is the reference: what is printed must
 read back as the cells it was printed from.
 */
module Csv {
  import opened Wrappers

  // ---- Printing ------------------------------------------------------------------------

  predicate NeedsQuote(s: string) {
    ',' in s || '"' in s || '\n' in s || (s != "" && s[0] == '=')
  }

  function Doubled(s: string): string {
    if s == "" then "" else (if s[0] == '"' then "\"\"" else [s[0]]) + Doubled(s[1..])
  }

  function Escaped(s: string): string {
    if NeedsQuote(s) then "\"" + Doubled(s) + "\"" else s
  }

  function Joined(cells: seq<string>): string {
    if cells == [] then ""
    else if |cells| == 1 then Escaped(cells[0])
    else Escaped(cells[0]) + "," + Joined(cells[1..])
  }

  function Line(cells: seq<string>): string {
    Joined(cells) + "\n"
  }

  // The first n rows, one line each.
  function Lines(rows: seq<seq<string>>, n: nat): string
    requires n <= |rows|
  {
    if n == 0 then "" else Lines(rows, n - 1) + Line(rows[n - 1])
  }

  // ---- Reading -------------------------------------------------------------------------

  datatype Mode =
    | Fresh                       // at the start of a cell
    | Bare                        // inside an unquoted cell
    | Quoted                      // inside a quoted cell
    | Closing                     // after a quote inside a quoted cell

  // `clean`: every character so far is one the grammar of RFC 4180 allows where it stands.
  datatype Reader =
    | Failed
    | Reading(mode: Mode, cell: string, row: seq<string>, rows: seq<seq<string>>, clean: bool)

  const START := Reading(Fresh, "", [], [], true)

  function EndCell(r: Reader): Reader
    requires r.Reading?
  {
    Reading(Fresh, "", r.row + [r.cell], r.rows, r.clean)
  }

  function EndRow(r: Reader): Reader
    requires r.Reading?
  {
    Reading(Fresh, "", [], r.rows + [r.row + [r.cell]], r.clean)
  }

  // TEXTDATA in section 2 of RFC 4180: %x20-21 / %x23-2B / %x2D-7E.
  predicate TextData(c: char) {
    ' ' <= c <= '~' && c != '"' && c != ','
  }

  // What a quoted cell may hold besides a doubled quote.
  predicate Quotable(c: char) {
    TextData(c) || c == ',' || c == '\r' || c == '\n'
  }

  // A quote may not appear inside an unquoted cell, nor anything but a quote or an
  // end after a closing one. Any other character is data for the reader.
  function Read(r: Reader, c: char): Reader {
    if r.Failed? then Failed
    else if r.mode == Quoted then
      if c == '"' then r.(mode := Closing)
      else r.(cell := r.cell + [c], clean := r.clean && Quotable(c))
    else if c == ',' then EndCell(r)
    else if c == '\n' then EndRow(r)
    else match r.mode
      case Fresh => if c == '"' then r.(mode := Quoted) else Bared(r, c)
      case Bare => if c == '"' then Failed else Bared(r, c)
      case Closing => if c == '"' then r.(mode := Quoted, cell := r.cell + [c]) else Failed
  }

  function Bared(r: Reader, c: char): Reader
    requires r.Reading?
  {
    r.(mode := Bare, cell := r.cell + [c], clean := r.clean && TextData(c))
  }

  function Scan(r: Reader, text: string): Reader
    decreases |text|
  {
    if text == "" then r else Scan(Read(r, text[0]), text[1..])
  }

  predicate AtRow(r: Reader) {
    r.Reading? && r.mode == Fresh && r.cell == "" && r.row == []
  }

  // A text is a sequence of whole records.
  function Parse(text: string): Option<seq<seq<string>>> {
    var r := Scan(START, text);
    if AtRow(r) then Some(r.rows) else None
  }

  // The text is in the grammar of section 2 of RFC 4180, with LF for CRLF at the end
  // of a record.
  predicate InGrammar(text: string) {
    var r := Scan(START, text);
    AtRow(r) && r.clean
  }

  // ---- Printing without quotes ------------------------------------------------------------

  // Array.join without quoting.
  function Plain(cells: seq<string>): string {
    if cells == [] then "" else if |cells| == 1 then cells[0] else cells[0] + "," + Plain(cells[1..])
  }

  lemma {:induction false} PlainIsJoined(cells: seq<string>)
    requires forall i :: 0 <= i < |cells| ==> !NeedsQuote(cells[i])
    ensures Plain(cells) == Joined(cells)
  {
    if |cells| > 1 {
      PlainIsJoined(cells[1..]);
    }
  }

  // ---- Round trip -----------------------------------------------------------------------

  lemma {:induction false} ScanSplits(r: Reader, a: string, b: string)
    ensures Scan(r, a + b) == Scan(Scan(r, a), b)
    decreases |a|
  {
    if a == "" {
      assert a + b == b;
    } else {
      assert (a + b)[0] == a[0] && (a + b)[1..] == a[1..] + b;
      ScanSplits(Read(r, a[0]), a[1..], b);
    }
  }

  predicate AllTextData(s: string) {
    forall i :: 0 <= i < |s| ==> TextData(s[i])
  }

  lemma AllTextDataSplits(s: string)
    requires s != ""
    ensures AllTextData(s) <==> TextData(s[0]) && AllTextData(s[1..])
  {
    assert forall i :: 0 < i < |s| ==> s[i] == s[1..][i - 1];
  }

  // A quote is doubled, and so quotable too.
  predicate AllQuotable(s: string) {
    forall i :: 0 <= i < |s| ==> Quotable(s[i]) || s[i] == '"'
  }

  lemma AllQuotableSplits(s: string)
    requires s != ""
    ensures AllQuotable(s) <==> (Quotable(s[0]) || s[0] == '"') && AllQuotable(s[1..])
  {
    assert forall i :: 0 < i < |s| ==> s[i] == s[1..][i - 1];
  }

  lemma {:induction false} BareReads(r: Reader, s: string)
    requires r.Reading? && r.mode == Bare && ',' !in s && '"' !in s && '\n' !in s
    ensures Scan(r, s) == r.(cell := r.cell + s, clean := r.clean && AllTextData(s))
    decreases |s|
  {
    if s == "" {
      assert r.cell + s == r.cell;
    } else {
      BareReads(Bared(r, s[0]), s[1..]);
      assert r.cell + [s[0]] + s[1..] == r.cell + s;
      AllTextDataSplits(s);
    }
  }

  lemma {:induction false} DoubledReads(r: Reader, s: string)
    requires r.Reading? && r.mode == Quoted
    ensures Scan(r, Doubled(s)) == r.(cell := r.cell + s, clean := r.clean && AllQuotable(s))
    decreases |s|
  {
    if s == "" {
      assert r.cell + s == r.cell;
    } else {
      var head := if s[0] == '"' then "\"\"" else [s[0]];
      var r' := r.(cell := r.cell + [s[0]], clean := r.clean && (Quotable(s[0]) || s[0] == '"'));
      ScanSplits(r, head, Doubled(s[1..]));
      DoubledHeadReads(r, s[0]);
      DoubledReads(r', s[1..]);
      AllQuotableSplits(s);
      assert r.cell + [s[0]] + s[1..] == r.cell + s;
    }
  }

  lemma {:induction false} DoubledHeadReads(r: Reader, c: char)
    requires r.Reading? && r.mode == Quoted
    ensures Scan(r, if c == '"' then "\"\"" else [c])
         == r.(cell := r.cell + [c], clean := r.clean && (Quotable(c) || c == '"'))
  {
    if c == '"' {
      var text := "\"\"";
      assert text[1..] == ['"'] && ['"'][1..] == "";
      assert Scan(r, text) == Scan(Read(r, '"'), ['"']) == Read(Read(r, '"'), '"');
    } else {
      assert [c][1..] == "";
    }
  }

  // A cell whose printed form is in the grammar: every character is allowed in a quoted
  // cell, and one with a carriage return is quoted for another reason.
  predicate Safe(s: string) {
    AllQuotable(s) && ('\r' in s ==> NeedsQuote(s))
  }

  lemma BareIsSafeIff(s: string)
    requires !NeedsQuote(s)
    ensures Safe(s) <==> AllTextData(s)
  {
  }

  lemma OpeningQuote(r: Reader)
    requires r.Reading? && r.mode == Fresh
    ensures Scan(r, "\"") == r.(mode := Quoted)
  {
    assert "\""[1..] == "";
  }

  lemma ClosingQuote(r: Reader)
    requires r.Reading? && r.mode == Quoted
    ensures Scan(r, "\"") == r.(mode := Closing)
  {
    assert "\""[1..] == "";
  }

  // A printed cell, read from the start of a cell, leaves a reader that any ending
  // character completes with the cell's text.
  lemma CellReads(r: Reader, s: string)
    requires r.Reading? && r.mode == Fresh && r.cell == ""
    ensures var r' := Scan(r, Escaped(s));
      && r'.Reading? && r'.mode != Quoted
      && r' == r.(mode := r'.mode, cell := s, clean := r.clean && Safe(s))
  {
    if NeedsQuote(s) {
      QuotedCellReads(r, s);
    } else if s != "" {
      BareCellReads(r, s);
    }
  }

  lemma QuotedCellReads(r: Reader, s: string)
    requires r.Reading? && r.mode == Fresh && r.cell == "" && NeedsQuote(s)
    ensures Scan(r, Escaped(s)) == r.(mode := Closing, cell := s, clean := r.clean && AllQuotable(s))
  {
    var inside, text := r.(mode := Quoted), Doubled(s) + "\"";
    QuoteFirst(s);
    ScanSplits(r, "\"", text);
    OpeningQuote(r);
    ScanSplits(inside, Doubled(s), "\"");
    DoubledReads(inside, s);
    AppendEmpty(s);
    ClosingQuote(r.(mode := Quoted, cell := s, clean := r.clean && AllQuotable(s)));
  }

  lemma QuoteFirst(s: string)
    requires NeedsQuote(s)
    ensures Escaped(s) == "\"" + (Doubled(s) + "\"")
  {
  }

  lemma AppendEmpty(s: string)
    ensures "" + s == s
  {
  }

  lemma BareCellReads(r: Reader, s: string)
    requires r.Reading? && r.mode == Fresh && r.cell == "" && !NeedsQuote(s) && s != ""
    ensures Scan(r, Escaped(s)) == r.(mode := Bare, cell := s, clean := r.clean && Safe(s))
  {
    BareReads(Bared(r, s[0]), s[1..]);
    FirstAndRest("", s);
    AllTextDataSplits(s);
    BareIsSafeIff(s);
  }

  lemma FirstAndRest<T>(a: seq<T>, s: seq<T>)
    requires s != []
    ensures a + [s[0]] + s[1..] == a + s
  {
  }

  lemma TakeOneMore<T>(a: seq<T>, s: seq<T>, n: nat)
    requires n < |s|
    ensures a + s[..n] + [s[n]] == a + s[..n + 1]
  {
  }

  // A printed cell and the comma or line feed after it.
  lemma EndedCellReads(r: Reader, s: string, rest: string)
    requires r.Reading? && r.mode == Fresh && r.cell == ""
    requires rest != "" && (rest[0] == ',' || rest[0] == '\n')
    ensures var r' := r.(cell := s, clean := r.clean && Safe(s));
      Scan(r, Escaped(s) + rest) == Scan(if rest[0] == ',' then EndCell(r') else EndRow(r'), rest[1..])
  {
    CellReads(r, s);
    ScanSplits(r, Escaped(s), rest);
  }

  predicate SafeRow(row: seq<string>) {
    forall k :: 0 <= k < |row| ==> Safe(row[k])
  }

  // What follows the first cell of a line.
  function Rest(cells: seq<string>): (rest: string)
    requires cells != []
    ensures rest != "" && rest[0] == if |cells| == 1 then '\n' else ','
  {
    if |cells| == 1 then "\n" else "," + Line(cells[1..])
  }

  lemma CommaInside(a: string, b: string)
    ensures a + "," + b + "\n" == a + ("," + (b + "\n"))
    ensures ("," + (b + "\n"))[1..] == b + "\n"
  {
  }

  lemma LineSplits(cells: seq<string>)
    requires cells != []
    ensures Line(cells) == Escaped(cells[0]) + Rest(cells)
    ensures Rest(cells)[1..] == if |cells| == 1 then "" else Line(cells[1..])
  {
    if |cells| > 1 {
      CommaInside(Escaped(cells[0]), Joined(cells[1..]));
    }
  }

  // The reader after a line.
  function AfterLine(r: Reader, cells: seq<string>): Reader
    requires r.Reading?
  {
    Reading(Fresh, "", [], r.rows + [r.row + cells], r.clean && SafeRow(cells))
  }

  lemma LastCell(r: Reader, cells: seq<string>)
    requires r.Reading? && |cells| == 1
    ensures EndRow(r.(cell := cells[0], clean := r.clean && Safe(cells[0]))) == AfterLine(r, cells)
  {
    assert cells == [cells[0]];
  }

  lemma FirstCell(r: Reader, cells: seq<string>)
    requires r.Reading? && |cells| > 1
    ensures var r' := r.(cell := cells[0], clean := r.clean && Safe(cells[0]));
      AfterLine(EndCell(r'), cells[1..]) == AfterLine(r, cells)
  {
    FirstAndRest(r.row, cells);
    SafeRowSplits(cells);
  }

  lemma {:induction false} LineReads(r: Reader, cells: seq<string>)
    requires r.Reading? && r.mode == Fresh && r.cell == "" && cells != []
    ensures Scan(r, Line(cells)) == AfterLine(r, cells)
    decreases |cells|
  {
    LineSplits(cells);
    EndedCellReads(r, cells[0], Rest(cells));
    if |cells| == 1 {
      LastCell(r, cells);
    } else {
      FirstCell(r, cells);
      LineReads(EndCell(r.(cell := cells[0], clean := r.clean && Safe(cells[0]))), cells[1..]);
    }
  }

  lemma SafeRowSplits(cells: seq<string>)
    requires cells != []
    ensures SafeRow(cells) <==> Safe(cells[0]) && SafeRow(cells[1..])
  {
    assert forall k :: 0 < k < |cells| ==> cells[k] == cells[1..][k - 1];
    assert forall k :: 0 <= k < |cells| - 1 ==> cells[1..][k] == cells[k + 1];
  }

  // A record has at least one cell.
  predicate NoEmptyRow(rows: seq<seq<string>>) {
    forall i :: 0 <= i < |rows| ==> rows[i] != []
  }

  predicate AllSafe(rows: seq<seq<string>>, n: nat)
    requires n <= |rows|
  {
    forall i :: 0 <= i < n ==> SafeRow(rows[i])
  }

  // The reader after the first n rows.
  function AfterRows(r: Reader, rows: seq<seq<string>>, n: nat): Reader
    requires r.Reading? && n <= |rows|
  {
    r.(rows := r.rows + rows[..n], clean := r.clean && AllSafe(rows, n))
  }

  lemma NoRows(r: Reader, rows: seq<seq<string>>)
    requires r.Reading?
    ensures AfterRows(r, rows, 0) == r
  {
    assert r.rows + rows[..0] == r.rows;
  }

  lemma OneMoreRow(r: Reader, rows: seq<seq<string>>, n: nat)
    requires AtRow(r) && n < |rows|
    ensures AtRow(AfterRows(r, rows, n))
    ensures AfterLine(AfterRows(r, rows, n), rows[n]) == AfterRows(r, rows, n + 1)
  {
    assert r.row + rows[n] == rows[n];
    TakeOneMore(r.rows, rows, n);
  }

  lemma {:induction false} OneMoreLine(r: Reader, text: string, rows: seq<seq<string>>, n: nat)
    requires AtRow(r) && n < |rows| && rows[n] != [] && Scan(r, text) == AfterRows(r, rows, n)
    ensures Scan(r, text + Line(rows[n])) == AfterRows(r, rows, n + 1)
  {
    ScanSplits(r, text, Line(rows[n]));
    OneMoreRow(r, rows, n);
    LineReads(AfterRows(r, rows, n), rows[n]);
  }

  // The first n printed rows read as those rows.
  predicate ReadAs(r: Reader, rows: seq<seq<string>>, n: nat)
    requires r.Reading? && n <= |rows|
  {
    Scan(r, Lines(rows, n)) == AfterRows(r, rows, n)
  }

  lemma {:induction false} NoLines(r: Reader, rows: seq<seq<string>>)
    requires r.Reading?
    ensures ReadAs(r, rows, 0)
  {
    NoRows(r, rows);
  }

  lemma {:induction false} LinesReadNext(r: Reader, rows: seq<seq<string>>, n: nat)
    requires AtRow(r) && n < |rows| && rows[n] != [] && ReadAs(r, rows, n)
    ensures ReadAs(r, rows, n + 1)
  {
    OneMoreLine(r, Lines(rows, n), rows, n);
  }

  lemma {:induction false} LinesRead(r: Reader, rows: seq<seq<string>>, n: nat)
    requires AtRow(r) && NoEmptyRow(rows) && n <= |rows|
    ensures ReadAs(r, rows, n)
  {
    if n == 0 {
      NoLines(r, rows);
    } else {
      LinesRead(r, rows, n - 1);
      LinesReadNext(r, rows, n - 1);
    }
  }

  // Whatever the cells hold, the printed text reads back as exactly those cells.
  lemma {:induction false} PrintedTextReadsBack(rows: seq<seq<string>>)
    requires NoEmptyRow(rows)
    ensures Parse(Lines(rows, |rows|)) == Some(rows)
  {
    var r := START;
    LinesRead(r, rows, |rows|);
    assert r.rows + rows[..|rows|] == rows;
  }

  // It keeps to the grammar of RFC 4180 exactly when every character of every cell is
  // one the grammar knows, and each cell holding a carriage return is quoted for another
  // reason: the printer does not look for one.
  lemma {:induction false} InGrammarIff(rows: seq<seq<string>>)
    requires NoEmptyRow(rows)
    ensures InGrammar(Lines(rows, |rows|)) <==> AllSafe(rows, |rows|)
  {
    var r := START;
    LinesRead(r, rows, |rows|);
  }

  // A carriage return alone is printed as it is, and a tab is in no cell of the grammar.
  lemma {:induction false} OutsideGrammar(cell: string)
    requires cell == "\r" || cell == "\t"
    ensures !InGrammar(Lines([[cell]], 1)) && Parse(Lines([[cell]], 1)) == Some([[cell]])
  {
    var rows := [[cell]];
    assert cell[0] in cell && !Safe(cell) && !SafeRow(rows[0]) by { assert rows[0][0] == cell; }
    InGrammarIff(rows);
    PrintedTextReadsBack(rows);
  }

  // So does a header line followed by the first n rows.
  lemma {:induction false} HeadedTextReadsBack(head: seq<string>, rows: seq<seq<string>>, n: nat)
    requires head != [] && NoEmptyRow(rows) && n <= |rows|
    ensures Parse(Line(head) + Lines(rows, n)) == Some([head] + rows[..n])
  {
    var r := START.(rows := [head], clean := SafeRow(head));
    LineReads(START, head);
    assert START.row + head == head && START.rows + [head] == [head];
    ScanSplits(START, Line(head), Lines(rows, n));
    LinesRead(r, rows, n);
  }

  // Two different tables never print the same text.
  lemma {:induction false} PrintingIsInjective(rows: seq<seq<string>>, others: seq<seq<string>>)
    requires NoEmptyRow(rows) && NoEmptyRow(others)
    requires Lines(rows, |rows|) == Lines(others, |others|)
    ensures rows == others
  {
    PrintedTextReadsBack(rows);
    PrintedTextReadsBack(others);
  }
}
