/** The text of the CSV export and the rows of the PDF table
    (src/utils/exportUtils.ts). Both receive the list the transaction page
    shows. Date formatting (`yyyy-MM-dd` for CSV, `MMM dd, yyyy` for PDF)
    and amount printing (`toString`, `toFixed(2)`) are parameters. */
module Export {
  import opened Schema
  import opened Text

  const CsvHeaders: seq<string> := ["Date", "Name", "Category", "Type", "Amount (DZD)", "Notes"]

  /** The first line of every CSV export. */
  const HeaderLine: string := "Date,Name,Category,Type,Amount (DZD),Notes"

  /** One record's six CSV cells, in the header's column order. */
  function CsvCells(t: Tx, isoDate: string -> string, numberText: int -> string): seq<string>
  {
    [isoDate(t.date), t.name, t.category, TypeText(t.txType), numberText(t.amount), NotesText(t)]
  }

  /** `"${cell}"`: the cell between double quotes, nothing escaped. */
  function Quote(cell: string): string
  {
    "\"" + cell + "\""
  }

  /** What a reader that strips one pair of surrounding quotes sees. */
  function Unquote(field: string): string
  {
    if |field| >= 2 && field[0] == '\"' && field[|field| - 1] == '\"'
    then field[1..|field| - 1] else field
  }

  /** `row.map(cell => `"${cell}"`).join(',')` */
  function CsvRow(cells: seq<string>): string
  {
    Join(seq(|cells|, i requires 0 <= i < |cells| => Quote(cells[i])), ",")
  }

  /** The header line followed by one row per record, in input order. */
  function CsvLines(txs: seq<Tx>, isoDate: string -> string, numberText: int -> string): (lines: seq<string>)
    ensures |lines| == |txs| + 1
  {
    [Join(CsvHeaders, ",")]
      + seq(|txs|, i requires 0 <= i < |txs| => CsvRow(CsvCells(txs[i], isoDate, numberText)))
  }

  /** `csvContent`: the lines joined by newlines. */
  function CsvText(txs: seq<Tx>, isoDate: string -> string, numberText: int -> string): string
  {
    Join(CsvLines(txs, isoDate, numberText), "\n")
  }

  /** The header cells joined by commas are the header line. */
  lemma HeaderLineIsJoinedHeaders()
    ensures Join(CsvHeaders, ",") == HeaderLine
  {
    HeaderCellsJoined(CsvHeaders);
  }

  lemma HeaderCellsJoined(h: seq<string>)
    requires h == CsvHeaders
    ensures Join(h, ",") == HeaderLine
  {
    assert h == [h[0], h[1], h[2], h[3], h[4], h[5]];
    JoinSix(h[0], h[1], h[2], h[3], h[4], h[5], ",");
    calc {
      h[0] + "," + h[1] + "," + h[2] + "," + h[3] + "," + h[4] + "," + h[5];
      { assert h[0] + "," + h[1] == "Date,Name"; }
      "Date,Name" + "," + h[2] + "," + h[3] + "," + h[4] + "," + h[5];
      { assert "Date,Name" + "," + h[2] == "Date,Name,Category"; }
      "Date,Name,Category" + "," + h[3] + "," + h[4] + "," + h[5];
      { assert "Date,Name,Category" + "," + h[3] == "Date,Name,Category,Type"; }
      "Date,Name,Category,Type" + "," + h[4] + "," + h[5];
      { assert "Date,Name,Category,Type" + "," + h[4] == "Date,Name,Category,Type,Amount (DZD)"; }
      "Date,Name,Category,Type,Amount (DZD)" + "," + h[5];
    }
  }

  /** Stripping the quotes gives back any cell, whatever it holds. */
  lemma QuoteRoundTrip(cell: string)
    ensures Unquote(Quote(cell)) == cell
  {
  }

  /** A record's line, written out: each cell quoted, commas between. */
  lemma CsvRowOfRecord(t: Tx, isoDate: string -> string, numberText: int -> string)
    ensures CsvRow(CsvCells(t, isoDate, numberText))
         == Quote(isoDate(t.date)) + "," + Quote(t.name) + "," + Quote(t.category) + ","
          + Quote(TypeText(t.txType)) + "," + Quote(numberText(t.amount)) + "," + Quote(NotesText(t))
  {
    var c := CsvCells(t, isoDate, numberText);
    var q := seq(|c|, i requires 0 <= i < |c| => Quote(c[i]));
    assert q == [Quote(c[0]), Quote(c[1]), Quote(c[2]), Quote(c[3]), Quote(c[4]), Quote(c[5])];
    JoinSix(Quote(c[0]), Quote(c[1]), Quote(c[2]), Quote(c[3]), Quote(c[4]), Quote(c[5]), ",");
  }

  /** A record without notes ends its line with an empty quoted cell. */
  lemma AbsentNotesGiveEmptyCell(t: Tx, isoDate: string -> string, numberText: int -> string)
    requires t.notes.None?
    ensures var line := CsvRow(CsvCells(t, isoDate, numberText));
      |line| >= 3 && line[|line| - 3..] == ",\"\""
  {
    CsvRowOfRecord(t, isoDate, numberText);
  }

  /** Splitting a row on commas and stripping the quotes gives the cells
      back, as long as no cell holds a comma. */
  lemma CsvRowRoundTrip(cells: seq<string>)
    requires |cells| >= 1
    requires forall i :: 0 <= i < |cells| ==> ',' !in cells[i]
    ensures var parts := Split(CsvRow(cells), ',');
      |parts| == |cells| && forall i :: 0 <= i < |cells| ==> Unquote(parts[i]) == cells[i]
  {
    var q := seq(|cells|, i requires 0 <= i < |cells| => Quote(cells[i]));
    forall i | 0 <= i < |q| ensures ',' !in q[i] {
      assert q[i] == "\"" + cells[i] + "\"";
    }
    SplitJoinRoundTrip(q, ',');
  }

  /** Nothing is escaped: a cell holding `","` makes a line that cannot be
      told apart from two cells. */
  lemma CsvRowDoesNotEscape()
    ensures CsvRow(["x\",\"y"]) == CsvRow(["x", "y"])
  {
    var one := seq(1, i requires 0 <= i < 1 => Quote(["x\",\"y"][i]));
    var two := seq(2, i requires 0 <= i < 2 => Quote(["x", "y"][i]));
    assert one == [Quote("x\",\"y")];
    assert two == [Quote("x")] + [Quote("y")];
    JoinCons(Quote("x"), [Quote("y")], ",");
  }

  /** The export starts with the header line and, when the list is empty, is
      just that line; it never ends with a newline. */
  lemma CsvTextEnds(txs: seq<Tx>, isoDate: string -> string, numberText: int -> string)
    ensures var text := CsvText(txs, isoDate, numberText);
      && HeaderLine <= text
      && (txs == [] ==> text == HeaderLine)
      && text[|text| - 1] == if txs == [] then 's' else '\"'
  {
    var lines := CsvLines(txs, isoDate, numberText);
    HeaderLineIsJoinedHeaders();
    JoinEnds(lines, "\n");
    if txs != [] {
      var last := lines[|lines| - 1];
      var cells := CsvCells(txs[|txs| - 1], isoDate, numberText);
      assert last == CsvRow(cells);
      var q := seq(|cells|, i requires 0 <= i < |cells| => Quote(cells[i]));
      JoinEnds(q, ",");
      assert q[|q| - 1] == "\"" + cells[5] + "\"";
    }
  }

  /** When no cell holds a newline, splitting the export on newlines gives
      the header line and then line i + 1 from record i: n records make
      n + 1 lines. */
  lemma CsvTextLines(txs: seq<Tx>, isoDate: string -> string, numberText: int -> string)
    requires forall i, k :: 0 <= i < |txs| && 0 <= k < 6 ==> '\n' !in CsvCells(txs[i], isoDate, numberText)[k]
    ensures var lines := Split(CsvText(txs, isoDate, numberText), '\n');
      && |lines| == |txs| + 1
      && lines[0] == HeaderLine
      && forall i :: 0 <= i < |txs| ==> lines[i + 1] == CsvRow(CsvCells(txs[i], isoDate, numberText))
  {
    CsvLinesAvoidNewline(txs, isoDate, numberText);
    HeaderLineIsJoinedHeaders();
    SplitJoinRoundTrip(CsvLines(txs, isoDate, numberText), '\n');
  }

  lemma CsvLinesAvoidNewline(txs: seq<Tx>, isoDate: string -> string, numberText: int -> string)
    requires forall i, k :: 0 <= i < |txs| && 0 <= k < 6 ==> '\n' !in CsvCells(txs[i], isoDate, numberText)[k]
    ensures var lines := CsvLines(txs, isoDate, numberText);
      forall j :: 0 <= j < |lines| ==> '\n' !in lines[j]
  {
    var lines := CsvLines(txs, isoDate, numberText);
    forall j | 0 <= j < |lines| ensures '\n' !in lines[j] {
      if j > 0 {
        RecordLineAvoids(txs[j - 1], isoDate, numberText, '\n');
        assert lines[j] == CsvRow(CsvCells(txs[j - 1], isoDate, numberText));
      } else {
        HeaderLineIsJoinedHeaders();
        HeaderLineAvoidsNewline(lines[0]);
      }
    }
  }

  lemma HeaderLineAvoidsNewline(line: string)
    requires line == HeaderLine
    ensures '\n' !in line
  {
  }

  lemma RecordLineAvoids(t: Tx, isoDate: string -> string, numberText: int -> string, c: char)
    requires c != '\"' && c != ','
    requires forall k :: 0 <= k < 6 ==> c !in CsvCells(t, isoDate, numberText)[k]
    ensures c !in CsvRow(CsvCells(t, isoDate, numberText))
  {
    CsvRowAvoids(CsvCells(t, isoDate, numberText), c);
  }

  /** A character that is neither a quote nor a comma is in a row only if
      it is in one of the cells. */
  lemma CsvRowAvoids(cells: seq<string>, c: char)
    requires c != '\"' && c != ','
    requires forall k :: 0 <= k < |cells| ==> c !in cells[k]
    ensures c !in CsvRow(cells)
  {
    var q := seq(|cells|, i requires 0 <= i < |cells| => Quote(cells[i]));
    forall k | 0 <= k < |q| ensures c !in q[k] {
      assert q[k] == "\"" + cells[k] + "\"";
    }
    JoinAvoids(q, ",", c);
  }

  /** The PDF table's column titles. */
  const PdfHead: seq<string> := ["Date", "Name", "Category", "Type", "Amount", "Notes"]

  /** `${sign} ${t.amount.toFixed(2)} DZD`, the sign `+` for income and `-`
      otherwise. */
  function AmountText(t: Tx, fixed2: int -> string): string
  {
    (if t.txType == Income then "+" else "-") + " " + fixed2(t.amount) + " DZD"
  }

  /** One row of `tableData`. */
  function PdfRow(t: Tx, longDate: string -> string, fixed2: int -> string): seq<string>
  {
    [longDate(t.date), t.name, t.category, TypeText(t.txType), AmountText(t, fixed2), NotesText(t)]
  }

  /** `tableData`: one row per record, in input order, as wide as the head. */
  function PdfBody(txs: seq<Tx>, longDate: string -> string, fixed2: int -> string): (rows: seq<seq<string>>)
    ensures |rows| == |txs|
    ensures forall i :: 0 <= i < |rows| ==> |rows[i]| == |PdfHead|
  {
    seq(|txs|, i requires 0 <= i < |txs| => PdfRow(txs[i], longDate, fixed2))
  }

  /** The amount text reads back as a sign, a space, the printed amount and
      the currency: the sign is `+` exactly for income. */
  lemma AmountTextReadsBack(t: Tx, fixed2: int -> string)
    ensures var s := AmountText(t, fixed2);
      && |s| == |fixed2(t.amount)| + 6
      && (s[0] == '+' <==> t.txType == Income)
      && (s[0] == '-' <==> t.txType == Expense)
      && s[1] == ' '
      && s[2..|s| - 4] == fixed2(t.amount)
      && s[|s| - 4..] == " DZD"
  {
  }

  /** The two exports agree on name, category, type and notes, and on the
      titles of every column but the amount's. */
  lemma PdfAndCsvAgree(t: Tx, isoDate: string -> string, longDate: string -> string,
                       numberText: int -> string, fixed2: int -> string)
    ensures var csv, pdf := CsvCells(t, isoDate, numberText), PdfRow(t, longDate, fixed2);
      && |csv| == |pdf| == |CsvHeaders| == |PdfHead|
      && (forall k :: 0 <= k < 6 && k != 4 ==> PdfHead[k] == CsvHeaders[k])
      && (forall k :: 0 <= k < 6 && k != 0 && k != 4 ==> pdf[k] == csv[k])
  {
  }

  /** The CSV text of a single record: the header line, a newline and the
      record's line. */
  lemma CsvTextOfOne(t: Tx, isoDate: string -> string, numberText: int -> string)
    ensures CsvText([t], isoDate, numberText) == HeaderLine + "\n" + CsvRow(CsvCells(t, isoDate, numberText))
  {
    var row := CsvRow(CsvCells(t, isoDate, numberText));
    HeaderLineIsJoinedHeaders();
    assert CsvLines([t], isoDate, numberText) == [HeaderLine] + [row];
    JoinCons(HeaderLine, [row], "\n");
  }

  /** The example record's quoted cells joined by commas. */
  lemma ExampleLine(date: string, name: string, category: string, kind: string, amount: string, notes: string)
    requires date == "2024-03-01" && name == "Coffee" && category == "Other"
    requires kind == "expense" && amount == "5" && notes == ""
    ensures Quote(date) + "," + Quote(name) + "," + Quote(category) + "," + Quote(kind) + "," + Quote(amount) + "," + Quote(notes)
         == "\"2024-03-01\",\"Coffee\",\"Other\",\"expense\",\"5\",\"\""
  {
    calc {
      Quote(date) + "," + Quote(name) + "," + Quote(category) + "," + Quote(kind) + "," + Quote(amount) + "," + Quote(notes);
      { assert Quote(date) + "," + Quote(name) == "\"2024-03-01\",\"Coffee\""; }
      "\"2024-03-01\",\"Coffee\"" + "," + Quote(category) + "," + Quote(kind) + "," + Quote(amount) + "," + Quote(notes);
      { assert "\"2024-03-01\",\"Coffee\"" + "," + Quote(category) == "\"2024-03-01\",\"Coffee\",\"Other\""; }
      "\"2024-03-01\",\"Coffee\",\"Other\"" + "," + Quote(kind) + "," + Quote(amount) + "," + Quote(notes);
      { assert "\"2024-03-01\",\"Coffee\",\"Other\"" + "," + Quote(kind) == "\"2024-03-01\",\"Coffee\",\"Other\",\"expense\""; }
      "\"2024-03-01\",\"Coffee\",\"Other\",\"expense\"" + "," + Quote(amount) + "," + Quote(notes);
      { assert "\"2024-03-01\",\"Coffee\",\"Other\",\"expense\"" + "," + Quote(amount) + "," + Quote(notes)
            == "\"2024-03-01\",\"Coffee\",\"Other\",\"expense\",\"5\",\"\""; }
      "\"2024-03-01\",\"Coffee\",\"Other\",\"expense\",\"5\",\"\"";
    }
  }

  /** The example of a single expense with empty notes. */
  lemma SingleExpenseExport(isoDate: string -> string, numberText: int -> string)
    requires isoDate("2024-03-01") == "2024-03-01" && numberText(5) == "5"
    ensures var t := Tx("t1", None, "Coffee", 5, "2024-03-01", "Other", Expense, Some(""));
      CsvText([t], isoDate, numberText)
      == HeaderLine + "\n" + "\"2024-03-01\",\"Coffee\",\"Other\",\"expense\",\"5\",\"\""
  {
    var t := Tx("t1", None, "Coffee", 5, "2024-03-01", "Other", Expense, Some(""));
    CsvTextOfOne(t, isoDate, numberText);
    CsvRowOfRecord(t, isoDate, numberText);
    ExampleLine(isoDate(t.date), t.name, t.category, TypeText(t.txType), numberText(t.amount), NotesText(t));
  }
}
