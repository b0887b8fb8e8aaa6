/** The chart's CSV printer and the data module's CSV reader, written apart from each other. */
module CsvTable {
  import opened Text
  import opened Wrappers

  // ---- Printing ---------------------------------------------------------------------------

  /** A cell of a column; a column that is too short has none, which prints as nothing. */
  function Cell(column: seq<string>, row: nat): string { if row < |column| then column[row] else "" }

  function Row(columns: seq<seq<string>>, row: nat): seq<string> {
    seq(|columns|, c requires 0 <= c < |columns| => Cell(columns[c], row))
  }

  /** The rows from `row` on, their cells parted by `sep`, each ended by the line break `end`. */
  function Written(columns: seq<seq<string>>, row: nat, sep: char, end: string): string
    requires columns != [] && row <= |columns[0]|
    decreases |columns[0]| - row
  {
    if row == |columns[0]| then "" else Join(Row(columns, row), sep) + end + Written(columns, row + 1, sep, end)
  }

  /** The rows as the chart prints them. */
  function Lines(columns: seq<seq<string>>, row: nat): string
    requires columns != [] && row <= |columns[0]|
  {
    Written(columns, row, ',', "\n")
  }

  /** The CSV text of the columns; None stands for the error without columns. */
  method GetCSV(columns: seq<seq<string>>) returns (csv: Option<string>)
    ensures csv == if columns == [] then None else Some(Lines(columns, 0))
  {
    if columns == [] { return None; }
    var text := "";
    var row := 0;
    while row < |columns[0]|
      invariant 0 <= row <= |columns[0]| && text + Lines(columns, row) == Lines(columns, 0)
    {
      var line: seq<string> := [];
      var col := 0;
      while col < |columns|
        invariant 0 <= col <= |columns| && line == Row(columns, row)[..col]
      {
        line := line + [Cell(columns[col], row)];
        col := col + 1;
      }
      assert line == Row(columns, row);
      assert text + (Join(line, ',') + "\n" + Lines(columns, row + 1))
          == text + Join(line, ',') + "\n" + Lines(columns, row + 1);
      text := text + Join(line, ',') + "\n";
      row := row + 1;
    }
    assert text + Lines(columns, row) == text;
    return Some(text);
  }

  // ---- Reading ----------------------------------------------------------------------------

  /** All line breaks as line feeds. */
  function Unix(s: string): string {
    if s == "" then ""
    else if s[0] == '\r' then "\n" + Unix(if |s| > 1 && s[1] == '\n' then s[2..] else s[1..])
    else [s[0]] + Unix(s[1..])
  }

  /** Blank lines and comments are passed over. */
  predicate Skipped(line: string) { Blank(line) || (TrimLeft(line) != "" && TrimLeft(line)[0] == '#') }

  /** A column as it grows; rows that had no item for it leave a hole. */
  type Column = seq<Option<string>>

  function Put(column: Column, row: nat, item: string): Column {
    if row < |column| then column[row := Some(item)]
    else column + seq(row - |column|, _ => None) + [Some(item)]
  }

  /** The items of one line, from column `col` on, put into row `row`. */
  function PutAll(columns: seq<Column>, items: seq<string>, col: nat, row: nat): seq<Column>
    requires col <= |items| && col <= |columns|
    decreases |items| - col
  {
    if col == |items| then columns
    else
      var wide := if col == |columns| then columns + [[]] else columns;
      PutAll(wide[col := Put(wide[col], row, items[col])], items, col + 1, row)
  }

  function ReadLines(columns: seq<Column>, lines: seq<string>, delimiter: char, active: nat): seq<Column>
    decreases |lines|
  {
    if lines == [] then columns
    else if Skipped(lines[0]) then ReadLines(columns, lines[1..], delimiter, active)
    else ReadLines(PutAll(columns, Split(lines[0], delimiter), 0, active), lines[1..], delimiter, active + 1)
  }

  function Delimiter(csv: string): char { if '\t' in csv then '\t' else ',' }

  function Read(csv: string): seq<Column> {
    if csv == "" then [] else ReadLines([], Split(Unix(csv), '\n'), Delimiter(csv), 0)
  }

  class Data {
    var columns: seq<Column>

    constructor ()
      ensures columns == []
    {
      columns := [];
    }

    method ParseCSV(csv: string)
      requires columns == []
      modifies this
      ensures columns == Read(csv)
    {
      if csv == "" { return; }
      var lines := Split(Unix(csv), '\n');
      var delimiter := if '\t' in csv then '\t' else ',';
      var activeRowNo, rowNo := 0, 0;
      while rowNo < |lines|
        invariant 0 <= rowNo <= |lines|
        invariant ReadLines(columns, lines[rowNo..], delimiter, activeRowNo) == ReadLines([], lines, delimiter, 0)
      {
        assert lines[rowNo..][1..] == lines[rowNo + 1..];
        var line := lines[rowNo];
        if !Skipped(line) {
          PutItems(Split(line, delimiter), activeRowNo);
          activeRowNo := activeRowNo + 1;
        }
        rowNo := rowNo + 1;
      }
    }

    method PutItems(items: seq<string>, row: nat)
      modifies this
      ensures columns == PutAll(old(columns), items, 0, row)
    {
      var colNo := 0;
      while colNo < |items|
        invariant 0 <= colNo <= |items| && colNo <= |columns|
        invariant PutAll(columns, items, colNo, row) == PutAll(old(columns), items, 0, row)
      {
        if colNo == |columns| { columns := columns + [[]]; }
        columns := columns[colNo := Put(columns[colNo], row, items[colNo])];
        colNo := colNo + 1;
      }
    }
  }

  // ---- Reading what was printed -----------------------------------------------------------------

  /** Columns of equal length, at least one, whose cells hold no tab, line break or separator; cells
      parted by tabs may hold commas. */
  predicate Table(columns: seq<seq<string>>, sep: char) {
    && columns != [] && (forall c :: 0 <= c < |columns| ==> |columns[c]| == |columns[0]|)
    && (sep == ',' || (sep == '\t' && |columns| > 1))
    && forall c, r {:trigger columns[c][r]} ::
         0 <= c < |columns| && 0 <= r < |columns[c]| ==> CellOk(columns[c][r], sep)
  }

  predicate CellOk(s: string, sep: char) { sep !in s && '\t' !in s && '\n' !in s && '\r' !in s }

  predicate LineEnd(end: string) { end in {"\n", "\r\n", "\r"} }

  /** The rows that the reader does not pass over, from `row` on. */
  function KeptRows(columns: seq<seq<string>>, row: nat, sep: char): seq<seq<string>>
    requires columns != [] && row <= |columns[0]|
    decreases |columns[0]| - row
  {
    if row == |columns[0]| then []
    else if Skipped(Join(Row(columns, row), sep)) then KeptRows(columns, row + 1, sep)
    else [Row(columns, row)] + KeptRows(columns, row + 1, sep)
  }

  predicate Wide(rows: seq<seq<string>>, width: nat) { forall r :: 0 <= r < |rows| ==> |rows[r]| == width }

  function ColumnOf(rows: seq<seq<string>>, width: nat, c: nat): Column
    requires Wide(rows, width) && c < width
  {
    seq(|rows|, r requires 0 <= r < |rows| => Some(rows[r][c]))
  }

  /** Rows turned into columns; without rows there are no columns. */
  function AsColumns(rows: seq<seq<string>>, width: nat): seq<Column>
    requires Wide(rows, width)
  {
    if rows == [] then [] else seq(width, c requires 0 <= c < width => ColumnOf(rows, width, c))
  }

  lemma LineOk(columns: seq<seq<string>>, row: nat, sep: char)
    requires Table(columns, sep) && row < |columns[0]|
    ensures var line := Join(Row(columns, row), sep);
      && '\n' !in line && '\r' !in line && Split(line, sep) == Row(columns, row)
      && ('\t' in line <==> sep == '\t')
  {
    var cells := Row(columns, row);
    forall i | 0 <= i < |cells| ensures CellOk(cells[i], sep) { assert cells[i] == columns[i][row]; }
    JoinHasNo(cells, sep, '\n');
    JoinHasNo(cells, sep, '\r');
    SplitJoin(cells, sep);
    if sep != '\t' {
      JoinHasNo(cells, sep, '\t');
    } else {
      assert Join(cells, sep)[|cells[0]|] == sep;
    }
  }

  /** The lines of the printed text, the last one empty. */
  function LineList(columns: seq<seq<string>>, row: nat, sep: char): seq<string>
    requires columns != [] && row <= |columns[0]|
    decreases |columns[0]| - row
  {
    if row == |columns[0]| then [""] else [Join(Row(columns, row), sep)] + LineList(columns, row + 1, sep)
  }

  lemma UnixBreak(end: string, rest: string)
    requires LineEnd(end) && (end == "\r" && rest != "" ==> rest[0] != '\n')
    ensures Unix(end + rest) == "\n" + Unix(rest)
  {
    var t := end + rest;
    if end == "\r\n" { assert t[2..] == rest; } else { assert t[1..] == rest; }
  }

  /** A text without line breaks is left alone. */
  lemma {:induction false} UnixPlain(line: string, t: string)
    requires '\n' !in line && '\r' !in line
    ensures Unix(line + t) == line + Unix(t)
    decreases |line|
  {
    if line == "" {
      assert line + t == t && line + Unix(t) == Unix(t);
    } else {
      assert (line + t)[0] == line[0] && (line + t)[1..] == line[1..] + t;
      UnixPlain(line[1..], t);
      assert [line[0]] + (line[1..] + Unix(t)) == line + Unix(t);
    }
  }

  lemma UnixLine(line: string, end: string, rest: string)
    requires '\n' !in line && '\r' !in line && LineEnd(end) && (end == "\r" && rest != "" ==> rest[0] != '\n')
    ensures Unix(line + end + rest) == line + "\n" + Unix(rest)
  {
    UnixPlain(line, end + rest);
    UnixBreak(end, rest);
    Grouped(line, end, rest);
    Grouped(line, "\n", Unix(rest));
  }

  lemma Grouped(a: string, b: string, c: string)
    ensures a + b + c == a + (b + c)
  {}

  lemma NoFeedFirst(columns: seq<seq<string>>, row: nat, sep: char, end: string)
    requires Table(columns, sep) && row <= |columns[0]| && LineEnd(end)
    ensures var t := Written(columns, row, sep, end); end == "\r" && t != "" ==> t[0] != '\n'
  {
    if row < |columns[0]| {
      LineOk(columns, row, sep);
      var line := Join(Row(columns, row), sep);
      if line != "" { assert line[0] in line; }
    }
  }

  lemma {:induction false} TextSplit(columns: seq<seq<string>>, row: nat, sep: char, end: string)
    requires Table(columns, sep) && row <= |columns[0]| && LineEnd(end)
    ensures Split(Unix(Written(columns, row, sep, end)), '\n') == LineList(columns, row, sep)
    ensures '\t' in Written(columns, row, sep, end) <==> sep == '\t' && row < |columns[0]|
    decreases |columns[0]| - row
  {
    if row < |columns[0]| {
      var line, rest := Join(Row(columns, row), sep), Written(columns, row + 1, sep, end);
      LineOk(columns, row, sep);
      TextSplit(columns, row + 1, sep, end);
      NoFeedFirst(columns, row + 1, sep, end);
      UnixLine(line, end, rest);
      SplitFirst(line, Unix(rest), '\n');
    }
  }

  /** The columns while row `cells` is being put: the first `col` of them have their new item. */
  function Underway(rows: seq<seq<string>>, cells: seq<string>, col: nat): seq<Column>
    requires Wide(rows, |cells|) && col <= |cells|
  {
    seq(if rows == [] then col else |cells|, c requires 0 <= c < (if rows == [] then col else |cells|) =>
      if c < col then ColumnOf(rows, |cells|, c) + [Some(cells[c])] else ColumnOf(rows, |cells|, c))
  }

  lemma {:induction false} RowPut(rows: seq<seq<string>>, cells: seq<string>, col: nat)
    requires Wide(rows, |cells|) && col <= |cells|
    ensures PutAll(Underway(rows, cells, col), cells, col, |rows|) == Underway(rows, cells, |cells|)
    decreases |cells| - col
  {
    if col < |cells| {
      var columns := Underway(rows, cells, col);
      var wide := if col == |columns| then columns + [[]] else columns;
      assert wide[col] == ColumnOf(rows, |cells|, col);
      assert Put(wide[col], |rows|, cells[col]) == ColumnOf(rows, |cells|, col) + [Some(cells[col])];
      assert wide[col := Put(wide[col], |rows|, cells[col])] == Underway(rows, cells, col + 1);
      RowPut(rows, cells, col + 1);
    }
  }

  lemma ColumnGrows(rows: seq<seq<string>>, cells: seq<string>, c: nat)
    requires Wide(rows, |cells|) && c < |cells|
    ensures Wide(rows + [cells], |cells|)
    ensures ColumnOf(rows, |cells|, c) + [Some(cells[c])] == ColumnOf(rows + [cells], |cells|, c)
  {}

  lemma RowComplete(rows: seq<seq<string>>, cells: seq<string>)
    requires Wide(rows, |cells|)
    ensures Wide(rows + [cells], |cells|) && Underway(rows, cells, |cells|) == AsColumns(rows + [cells], |cells|)
  {
    forall c | 0 <= c < |cells| ensures Underway(rows, cells, |cells|)[c] == ColumnOf(rows + [cells], |cells|, c) {
      ColumnGrows(rows, cells, c);
    }
  }

  lemma RowAdded(rows: seq<seq<string>>, cells: seq<string>)
    requires Wide(rows, |cells|) && cells != []
    ensures Wide(rows + [cells], |cells|)
    ensures PutAll(AsColumns(rows, |cells|), cells, 0, |rows|) == AsColumns(rows + [cells], |cells|)
  {
    assert AsColumns(rows, |cells|) == Underway(rows, cells, 0);
    RowPut(rows, cells, 0);
    RowComplete(rows, cells);
  }

  lemma {:induction false} KeptWide(columns: seq<seq<string>>, row: nat, sep: char)
    requires columns != [] && row <= |columns[0]|
    ensures Wide(KeptRows(columns, row, sep), |columns|)
    decreases |columns[0]| - row
  {
    if row < |columns[0]| { KeptWide(columns, row + 1, sep); }
  }

  lemma Regroup(done: seq<seq<string>>, cells: seq<string>, more: seq<seq<string>>)
    ensures done + [cells] + more == done + ([cells] + more)
  {}

  lemma RowRead(rows: seq<seq<string>>, cells: seq<string>, lines: seq<string>, sep: char)
    requires Wide(rows, |cells|) && cells != [] && lines != []
    requires Split(lines[0], sep) == cells && !Skipped(lines[0])
    ensures Wide(rows + [cells], |cells|)
    ensures ReadLines(AsColumns(rows, |cells|), lines, sep, |rows|)
      == ReadLines(AsColumns(rows + [cells], |cells|), lines[1..], sep, |rows + [cells]|)
  {
    RowAdded(rows, cells);
  }

  lemma {:induction false} RestRead(columns: seq<seq<string>>, row: nat, sep: char, done: seq<seq<string>>)
    requires Table(columns, sep) && row <= |columns[0]| && Wide(done, |columns|)
    ensures Wide(done + KeptRows(columns, row, sep), |columns|)
    ensures ReadLines(AsColumns(done, |columns|), LineList(columns, row, sep), sep, |done|)
      == AsColumns(done + KeptRows(columns, row, sep), |columns|)
    decreases |columns[0]| - row
  {
    var lines := LineList(columns, row, sep);
    KeptWide(columns, row, sep);
    if row == |columns[0]| {
      assert lines[1..] == [] && Skipped("");
      assert done + [] == done;
    } else {
      var cells := Row(columns, row);
      assert lines[1..] == LineList(columns, row + 1, sep);
      LineOk(columns, row, sep);
      if Skipped(lines[0]) {
        RestRead(columns, row + 1, sep, done);
      } else {
        RowRead(done, cells, lines, sep);
        RestRead(columns, row + 1, sep, done + [cells]);
        Regroup(done, cells, KeptRows(columns, row + 1, sep));
      }
    }
  }

  /** Reading a table, parted by commas or by tabs, with any of the three line breaks, gives exactly
      the rows that are neither blank nor comments. */
  lemma ReadAny(columns: seq<seq<string>>, sep: char, end: string)
    requires Table(columns, sep) && LineEnd(end)
    ensures Wide(KeptRows(columns, 0, sep), |columns|)
    ensures Read(Written(columns, 0, sep, end)) == AsColumns(KeptRows(columns, 0, sep), |columns|)
  {
    KeptWide(columns, 0, sep);
    TextSplit(columns, 0, sep, end);
    RestRead(columns, 0, sep, []);
    assert [] + KeptRows(columns, 0, sep) == KeptRows(columns, 0, sep);
  }

  /** Reading the printed table gives back exactly the rows that are neither blank nor comments. */
  lemma ReadPrinted(columns: seq<seq<string>>)
    requires Table(columns, ',')
    ensures Wide(KeptRows(columns, 0, ','), |columns|)
    ensures Read(Lines(columns, 0)) == AsColumns(KeptRows(columns, 0, ','), |columns|)
  {
    ReadAny(columns, ',', "\n");
  }

  lemma {:induction false} TrimmedTo(line: string)
    ensures var t := TrimLeft(line); |t| <= |line| && t == line[|line| - |t|..] && (t != "" ==> !IsBlank(t[0]))
    ensures forall i :: 0 <= i < |line| - |TrimLeft(line)| ==> IsBlank(line[i])
  {
    if line != "" && IsBlank(line[0]) {
      TrimmedTo(line[1..]);
      var t := TrimLeft(line[1..]);
      assert t == line[|line| - |t|..];
      forall i | 0 <= i < |line| - |t| ensures IsBlank(line[i]) { if i > 0 { assert line[i] == line[1..][i - 1]; } }
    }
  }

  /** A row is passed over if and only if all of it is blank, or the first character that is not is '#'. */
  lemma SkippedMeans(line: string)
    ensures Skipped(line) <==>
      (forall i :: 0 <= i < |line| ==> IsBlank(line[i]))
      || exists k :: 0 <= k < |line| && line[k] == '#' && forall i :: 0 <= i < k ==> IsBlank(line[i])
  {
    TrimmedTo(line);
    var t := TrimLeft(line);
    var n := |line| - |t|;
    if t != "" { assert line[n] == t[0]; }
    if k :| 0 <= k < |line| && line[k] == '#' && forall i :: 0 <= i < k ==> IsBlank(line[i]) {
      assert !IsBlank('#');
      assert k >= n;
      assert k == n;
    }
  }

  lemma {:induction false} KeptCount(columns: seq<seq<string>>, row: nat, sep: char)
    requires columns != [] && row <= |columns[0]|
    ensures |KeptRows(columns, row, sep)| <= |columns[0]| - row
    ensures |KeptRows(columns, row, sep)| == |columns[0]| - row ==>
      forall r :: row <= r < |columns[0]| ==> !Skipped(Join(Row(columns, r), sep))
    ensures (forall r :: row <= r < |columns[0]| ==> !Skipped(Join(Row(columns, r), sep))) ==>
      && |KeptRows(columns, row, sep)| == |columns[0]| - row
      && forall r :: row <= r < |columns[0]| ==> KeptRows(columns, row, sep)[r - row] == Row(columns, r)
    decreases |columns[0]| - row
  {
    if row < |columns[0]| { KeptCount(columns, row + 1, sep); }
  }

  function Present(columns: seq<seq<string>>): seq<Column> {
    seq(|columns|, c requires 0 <= c < |columns| =>
        seq(|columns[c]|, r requires 0 <= r < |columns[c]| => Some(columns[c][r])))
  }

  /** The table comes back unchanged exactly if it has rows and none is blank or a comment. */
  lemma TableRestored(columns: seq<seq<string>>, sep: char, end: string)
    requires Table(columns, sep) && LineEnd(end)
    ensures Read(Written(columns, 0, sep, end)) == Present(columns)
      <==> |columns[0]| > 0 && forall r :: 0 <= r < |columns[0]| ==> !Skipped(Join(Row(columns, r), sep))
  {
    ReadAny(columns, sep, end);
    KeptCount(columns, 0, sep);
    var rows, back := KeptRows(columns, 0, sep), Read(Written(columns, 0, sep, end));
    if |rows| == |columns[0]| && rows != [] {
      forall c | 0 <= c < |columns| ensures back[c] == Present(columns)[c] {
        assert |back[c]| == |columns[c]|;
        forall r | 0 <= r < |back[c]| ensures back[c][r] == Some(columns[c][r]) { assert rows[r] == Row(columns, r); }
      }
      assert back == Present(columns);
    } else if rows != [] {
      assert |back[0]| == |rows| != |Present(columns)[0]|;
    } else {
      assert |back| == 0 != |Present(columns)|;
    }
  }

  // ---- Lines of different lengths --------------------------------------------------------------

  /** The cell at row `r` of column `c`, if there is one. */
  function At(columns: seq<Column>, c: nat, r: nat): Option<string> {
    if c < |columns| && r < |columns[c]| then columns[c][r] else None
  }

  /** Putting the items of a line into a row past all others gives each column its item, and leaves
      every other cell as it is. */
  lemma {:induction false} ItemsPut(columns: seq<Column>, items: seq<string>, col: nat, row: nat, c: nat, r: nat)
    requires col <= |items| && col <= |columns|
    ensures At(PutAll(columns, items, col, row), c, r)
      == if r == row && col <= c < |items| then Some(items[c]) else At(columns, c, r)
    decreases |items| - col
  {
    if col < |items| {
      var wide := if col == |columns| then columns + [[]] else columns;
      var next := wide[col := Put(wide[col], row, items[col])];
      ItemsPut(next, items, col + 1, row, c, r);
      assert At(wide, c, r) == At(columns, c, r);
    }
  }

  function Numbered(lines: seq<string>): seq<string> {
    if lines == [] then [] else (if Skipped(lines[0]) then [] else [lines[0]]) + Numbered(lines[1..])
  }

  lemma {:induction false} LinesPut(columns: seq<Column>, lines: seq<string>, sep: char, active: nat, c: nat, r: nat)
    ensures At(ReadLines(columns, lines, sep, active), c, r)
      == if active <= r < active + |Numbered(lines)| && c < |Split(Numbered(lines)[r - active], sep)|
         then Some(Split(Numbered(lines)[r - active], sep)[c]) else At(columns, c, r)
    decreases |lines|
  {
    if lines != [] {
      if Skipped(lines[0]) {
        LinesPut(columns, lines[1..], sep, active, c, r);
      } else {
        var items := Split(lines[0], sep);
        ItemsPut(columns, items, 0, active, c, r);
        LinesPut(PutAll(columns, items, 0, active), lines[1..], sep, active + 1, c, r);
      }
    }
  }

  /** In any text, cell `c` of row `r` is item `c` of the `r`-th line that is not passed over, and there
      is none where that line is too short. */
  lemma CellsRead(csv: string, c: nat, r: nat)
    requires csv != ""
    ensures var lines, sep := Numbered(Split(Unix(csv), '\n')), if '\t' in csv then '\t' else ',';
      At(Read(csv), c, r)
        == if r < |lines| && c < |Split(lines[r], sep)| then Some(Split(lines[r], sep)[c]) else None
  {
    var all := Split(Unix(csv), '\n');
    LinesPut([], all, Delimiter(csv), 0, c, r);
    assert Read(csv) == ReadLines([], all, Delimiter(csv), 0);
  }
}
