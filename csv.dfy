/** The comma-separated text the inquiries export builds: every cell wrapped in
    double quotes, cells joined by "," and lines by a bare "\n". Beside it, a
    reader of one line in the manner of RFC 4180 (a quoted field ends at a lone
    double quote, and two double quotes inside a field stand for one), used to
    state what the export's text means. */
module Csv {
  import opened Common
  import opened Strings

  const Quote: char := '"'

  /** A cell as the export writes it: `"${cell}"`, with nothing inside escaped. */
  function QuotedCell(cell: string): (r: string)
    ensures |r| == |cell| + 2 && r[0] == Quote && r[|r| - 1] == Quote && r[1..|r| - 1] == cell
  {
    [Quote] + cell + [Quote]
  }

  /** `row.map((cell) => `"${cell}"`)`. */
  function QuotedCells(cells: seq<string>): (r: seq<string>)
    ensures |r| == |cells|
    ensures forall i :: 0 <= i < |cells| ==> r[i] == QuotedCell(cells[i])
  {
    seq(|cells|, i requires 0 <= i < |cells| => QuotedCell(cells[i]))
  }

  /** One line of the export: the quoted cells joined by ",". */
  function CsvLine(cells: seq<string>): string {
    Join(QuotedCells(cells), ",")
  }

  /** The whole export: the lines joined by "\n", with no line break after the last. */
  function CsvText(rows: seq<seq<string>>): string {
    Join(seq(|rows|, i requires 0 <= i < |rows| => CsvLine(rows[i])), "\n")
  }

  /** The text of a quoted field after its opening quote: the field's content, and what follows
      its closing quote; `None` when the closing quote is missing. */
  function ReadQuoted(s: string): (r: Option<(string, string)>)
    ensures r.Some? ==> |r.value.1| < |s|
    decreases |s|
  {
    if s == [] then None
    else if s[0] == Quote then
      if |s| >= 2 && s[1] == Quote then
        match ReadQuoted(s[2..])
        case None => None
        case Some(p) => Some(([Quote] + p.0, p.1))
      else Some(("", s[1..]))
    else
      match ReadQuoted(s[1..])
      case None => None
      case Some(p) => Some(([s[0]] + p.0, p.1))
  }

  /** One line read as a list of quoted fields separated by ","; `None` when it is not one. */
  function ReadLine(s: string): Option<seq<string>>
    decreases |s|
  {
    if s == [] || s[0] != Quote then None
    else
      match ReadQuoted(s[1..])
      case None => None
      case Some(p) =>
        if p.1 == [] then Some([p.0])
        else if p.1[0] != ',' then None
        else
          match ReadLine(p.1[1..])
          case None => None
          case Some(rest) => Some([p.0] + rest)
  }

  /** Every line of a text, read with `ReadLine`. */
  function ReadLines(lines: seq<string>): Option<seq<seq<string>>>
    decreases |lines|
  {
    if lines == [] then Some([])
    else
      match ReadLine(lines[0])
      case None => None
      case Some(cells) =>
        match ReadLines(lines[1..])
        case None => None
        case Some(rest) => Some([cells] + rest)
  }

  /** Reading a whole text: split at "\n", then read each line. */
  function ReadCsv(text: string): Option<seq<seq<string>>> {
    ReadLines(Split(text, '\n'))
  }

  /** A cell the export can write back unambiguously: no double quote and no line break. */
  predicate PlainCell(cell: string) {
    Quote !in cell && '\n' !in cell
  }

  /** A field without quotes is read back up to its closing quote, whatever follows that is not
      another quote. */
  lemma {:induction false} ReadQuotedPlain(cell: string, rest: string)
    requires Quote !in cell
    requires rest == [] || rest[0] != Quote
    ensures ReadQuoted(cell + [Quote] + rest) == Some((cell, rest))
    decreases |cell|
  {
    var s := cell + [Quote] + rest;
    if cell == [] {
      assert s == [Quote] + rest;
      assert s[1..] == rest;
    } else {
      assert s[0] == cell[0];
      assert s[1..] == cell[1..] + [Quote] + rest;
      ReadQuotedPlain(cell[1..], rest);
      assert [cell[0]] + cell[1..] == cell;
    }
  }

  /** The line of a single cell is that cell quoted. */
  lemma CsvLineSingle(cells: seq<string>)
    requires |cells| == 1
    ensures CsvLine(cells) == [Quote] + cells[0] + [Quote]
  {
    assert QuotedCells(cells) == [QuotedCell(cells[0])];
  }

  /** The line of several cells is the first cell quoted, a comma, then the line of the rest. */
  lemma QuotedCellsTail(cells: seq<string>)
    requires |cells| >= 2
    ensures CsvLine(cells) == [Quote] + cells[0] + [Quote] + "," + CsvLine(cells[1..])
  {
    assert QuotedCells(cells)[1..] == QuotedCells(cells[1..]);
  }

  /** Reading a line whose first field is the whole line. */
  lemma ReadLineLast(s: string, cell: string)
    requires s != [] && s[0] == Quote && ReadQuoted(s[1..]) == Some((cell, ""))
    ensures ReadLine(s) == Some([cell])
  {
  }

  /** Reading a line whose first field is followed by a comma and a readable remainder. */
  lemma ReadLineNext(s: string, cell: string, rest: string, more: seq<string>)
    requires s != [] && s[0] == Quote && ReadQuoted(s[1..]) == Some((cell, "," + rest))
    requires ReadLine(rest) == Some(more)
    ensures ReadLine(s) == Some([cell] + more)
  {
    assert ("," + rest)[1..] == rest;
  }

  /** One cell without quotes reads back as itself. */
  lemma ReadLineOfOnePlainCell(cells: seq<string>)
    requires |cells| == 1 && Quote !in cells[0]
    ensures ReadLine(CsvLine(cells)) == Some(cells)
  {
    var line := CsvLine(cells);
    CsvLineSingle(cells);
    assert line[1..] == cells[0] + [Quote] + [];
    ReadQuotedPlain(cells[0], []);
    ReadLineLast(line, cells[0]);
    assert cells == [cells[0]];
  }

  /** A first cell without quotes, before a line that reads back, reads back too. */
  lemma ReadLineOfPlainHead(cells: seq<string>)
    requires |cells| >= 2 && Quote !in cells[0]
    requires ReadLine(CsvLine(cells[1..])) == Some(cells[1..])
    ensures ReadLine(CsvLine(cells)) == Some(cells)
  {
    var line := CsvLine(cells);
    var rest := CsvLine(cells[1..]);
    QuotedCellsTail(cells);
    assert line[0] == Quote && line[1..] == cells[0] + [Quote] + ("," + rest);
    ReadQuotedPlain(cells[0], "," + rest);
    ReadLineNext(line, cells[0], rest, cells[1..]);
    assert [cells[0]] + cells[1..] == cells;
  }

  /** A line of cells without quotes reads back as those cells, commas inside cells included. */
  lemma {:induction false} ReadLineOfPlainCells(cells: seq<string>)
    requires |cells| >= 1
    requires forall i :: 0 <= i < |cells| ==> Quote !in cells[i]
    ensures ReadLine(CsvLine(cells)) == Some(cells)
    decreases |cells|
  {
    if |cells| == 1 {
      ReadLineOfOnePlainCell(cells);
    } else {
      ReadLineOfPlainCells(cells[1..]);
      ReadLineOfPlainHead(cells);
    }
  }

  /** A line of cells without line breaks holds no line break. */
  lemma {:induction false} CsvLineHasNoBreak(cells: seq<string>)
    requires forall i :: 0 <= i < |cells| ==> '\n' !in cells[i]
    ensures '\n' !in CsvLine(cells)
    decreases |cells|
  {
    if |cells| == 0 {
      assert CsvLine(cells) == "";
    } else if |cells| == 1 {
      CsvLineSingle(cells);
    } else {
      var head, rest := cells[0], CsvLine(cells[1..]);
      assert '\n' !in head;
      CsvLineHasNoBreak(cells[1..]);
      QuotedCellsTail(cells);
      assert CsvLine(cells) == [Quote] + head + ([Quote] + "," + rest);
      assert '\n' !in [Quote] + "," + rest;
    }
  }

  /** Reading lines that each come from a row of plain cells gives the rows back. */
  lemma {:induction false} ReadLinesOfPlainRows(rows: seq<seq<string>>)
    requires forall r :: 0 <= r < |rows| ==> |rows[r]| >= 1
    requires forall r, i :: 0 <= r < |rows| && 0 <= i < |rows[r]| ==> PlainCell(rows[r][i])
    ensures ReadLines(seq(|rows|, i requires 0 <= i < |rows| => CsvLine(rows[i]))) == Some(rows)
    decreases |rows|
  {
    var lines := seq(|rows|, i requires 0 <= i < |rows| => CsvLine(rows[i]));
    if rows != [] {
      ReadLineOfPlainCells(rows[0]);
      assert lines[1..] == seq(|rows| - 1, i requires 0 <= i < |rows| - 1 => CsvLine(rows[1..][i]));
      ReadLinesOfPlainRows(rows[1..]);
      assert [rows[0]] + rows[1..] == rows;
    }
  }

  /** The export's round trip: a text of at least one row whose cells hold no quote and no line
      break reads back as exactly its rows, one line per row. */
  lemma ReadCsvOfPlainRows(rows: seq<seq<string>>)
    requires |rows| >= 1
    requires forall r :: 0 <= r < |rows| ==> |rows[r]| >= 1
    requires forall r, i :: 0 <= r < |rows| && 0 <= i < |rows[r]| ==> PlainCell(rows[r][i])
    ensures |Split(CsvText(rows), '\n')| == |rows|
    ensures ReadCsv(CsvText(rows)) == Some(rows)
  {
    var lines := seq(|rows|, i requires 0 <= i < |rows| => CsvLine(rows[i]));
    forall k | 0 <= k < |lines| ensures '\n' !in lines[k] {
      CsvLineHasNoBreak(rows[k]);
    }
    SplitJoin(lines, '\n');
    ReadLinesOfPlainRows(rows);
  }

  /** A cell holding a double quote does not survive: `"` alone is written as three quotes,
      which read as an unterminated field. */
  lemma EmbeddedQuoteIsLost()
    ensures CsvLine(["\""]) == "\"\"\""
    ensures ReadLine(CsvLine(["\""])) != Some(["\""])
  {
    assert CsvLine(["\""]) == QuotedCell("\"");
  }

  /** A cell with every double quote doubled, as section 2, item 7 of RFC 4180 asks. */
  function EscapeQuotes(cell: string): (r: string)
    ensures |r| >= |cell|
    ensures Quote !in cell ==> r == cell
    decreases |cell|
  {
    if cell == [] then ""
    else if cell[0] == Quote then [Quote, Quote] + EscapeQuotes(cell[1..])
    else [cell[0]] + EscapeQuotes(cell[1..])
  }

  /** A cell written with its quotes doubled. */
  function EscapedCell(cell: string): string {
    [Quote] + EscapeQuotes(cell) + [Quote]
  }

  /** A line of cells written with their quotes doubled. */
  function EscapedLine(cells: seq<string>): string {
    Join(seq(|cells|, i requires 0 <= i < |cells| => EscapedCell(cells[i])), ",")
  }

  /** A doubled quote at the front of an escaped field reads as one quote of the cell. */
  lemma ReadQuotedEscapedQuote(cell: string, rest: string)
    requires cell != [] && cell[0] == Quote
    requires ReadQuoted(EscapeQuotes(cell[1..]) + [Quote] + rest) == Some((cell[1..], rest))
    ensures ReadQuoted(EscapeQuotes(cell) + [Quote] + rest) == Some((cell, rest))
  {
    var s := EscapeQuotes(cell) + [Quote] + rest;
    assert s == [Quote, Quote] + (EscapeQuotes(cell[1..]) + [Quote] + rest);
    assert s[2..] == EscapeQuotes(cell[1..]) + [Quote] + rest;
    assert [Quote] + cell[1..] == cell;
  }

  /** Any other character at the front of an escaped field is read as itself. */
  lemma ReadQuotedEscapedOther(cell: string, rest: string)
    requires cell != [] && cell[0] != Quote
    requires ReadQuoted(EscapeQuotes(cell[1..]) + [Quote] + rest) == Some((cell[1..], rest))
    ensures ReadQuoted(EscapeQuotes(cell) + [Quote] + rest) == Some((cell, rest))
  {
    var s := EscapeQuotes(cell) + [Quote] + rest;
    assert s == [cell[0]] + (EscapeQuotes(cell[1..]) + [Quote] + rest);
    assert s[1..] == EscapeQuotes(cell[1..]) + [Quote] + rest;
    assert [cell[0]] + cell[1..] == cell;
  }

  /** An escaped field is read back as the original cell, quotes and all. */
  lemma {:induction false} ReadQuotedEscaped(cell: string, rest: string)
    requires rest == [] || rest[0] != Quote
    ensures ReadQuoted(EscapeQuotes(cell) + [Quote] + rest) == Some((cell, rest))
    decreases |cell|
  {
    if cell == [] {
      var s := EscapeQuotes(cell) + [Quote] + rest;
      assert s == [Quote] + rest;
      assert s[1..] == rest;
    } else {
      ReadQuotedEscaped(cell[1..], rest);
      if cell[0] == Quote {
        ReadQuotedEscapedQuote(cell, rest);
      } else {
        ReadQuotedEscapedOther(cell, rest);
      }
    }
  }

  /** With quotes doubled, every line of cells reads back as those cells, whatever they hold
      (line breaks apart, which the reader of one line does not see). */
  lemma {:induction false} ReadEscapedLine(cells: seq<string>)
    requires |cells| >= 1
    ensures ReadLine(EscapedLine(cells)) == Some(cells)
    decreases |cells|
  {
    var parts := seq(|cells|, i requires 0 <= i < |cells| => EscapedCell(cells[i]));
    var line := EscapedLine(cells);
    if |cells| == 1 {
      assert parts == [EscapedCell(cells[0])];
      assert line == [Quote] + (EscapeQuotes(cells[0]) + [Quote] + []);
      assert line[1..] == EscapeQuotes(cells[0]) + [Quote] + [];
      ReadQuotedEscaped(cells[0], []);
      assert cells == [cells[0]];
    } else {
      assert parts[1..] == seq(|cells| - 1, i requires 0 <= i < |cells| - 1 => EscapedCell(cells[1..][i]));
      var tail := "," + EscapedLine(cells[1..]);
      assert line == [Quote] + (EscapeQuotes(cells[0]) + [Quote] + tail);
      ReadQuotedEscaped(cells[0], tail);
      assert tail[1..] == EscapedLine(cells[1..]);
      ReadEscapedLine(cells[1..]);
      assert [cells[0]] + cells[1..] == cells;
    }
  }

  /** Escaping changes nothing for cells without quotes, so every export the console makes today
      from such cells stays byte for byte the same. */
  lemma EscapedLineAgreesOnPlainCells(cells: seq<string>)
    requires forall i :: 0 <= i < |cells| ==> Quote !in cells[i]
    ensures EscapedLine(cells) == CsvLine(cells)
  {
    var a := seq(|cells|, i requires 0 <= i < |cells| => EscapedCell(cells[i]));
    assert a == QuotedCells(cells);
  }
}
