/** The dense grid reader for spreadsheet cells (app/adapters/extract.py) and the
    printer whose sheets it reads (app/evaluation/formats.py). Rows and cells are as
    parsed from SpreadsheetML: `r` and `t` attributes, `v` text (section 18.3.1.4 of
    ECMA-376 Part 1). */
module SheetGrid {
  import opened Wrappers
  import opened Decimals

  const MAX_SHEET_ROWS := 4096
  const MAX_SHEET_COLUMNS := 64
  const MAX_SHEET_CELLS := 65536
  const MAX_ROW_DIGITS := 5
  const MAX_COLUMN_LETTERS := 3

  datatype Cell = Cell(reference: string, kind: string, value: Option<string>, inline: string)
  datatype Row = Row(number: Option<string>, cells: seq<Cell>)

  type Matrix = seq<seq<string>>

  datatype Refusal = RowLimit | ColumnLimit | CellLimit | BadSharedString

  // ---- numerals ------------------------------------------------------------------

  /** Python's `str.isdigit` and `int`, of which only decimal numerals matter here. */
  datatype Numerals = Numerals(isDigit: string -> bool, toInt: string -> Option<int>)

  ghost predicate ReadsDecimals(num: Numerals) {
    forall n: nat :: num.isDigit(Decimal(n)) && num.toInt(Decimal(n)) == Some(n as int)
  }

  // ---- addresses -------------------------------------------------------------------

  function LeadingLetters(s: string): string {
    if s != "" && 'A' <= s[0] <= 'Z' then [s[0]] + LeadingLetters(s[1..]) else ""
  }

  predicate AllLetters(s: string) {
    forall i :: 0 <= i < |s| ==> 'A' <= s[i] <= 'Z'
  }

  function ColumnValue(letters: string): nat
    requires AllLetters(letters)
  {
    if letters == "" then 0
    else ColumnValue(letters[..|letters| - 1]) * 26 + (letters[|letters| - 1] as int - 'A' as int) + 1
  }

  lemma {:induction false} LettersAreLetters(s: string)
    ensures AllLetters(LeadingLetters(s))
  {
    if s != "" && 'A' <= s[0] <= 'Z' { LettersAreLetters(s[1..]); }
  }

  /** `_a1_column`: zero when the reference names no column. */
  function A1Column(reference: string): Result<nat, Refusal> {
    var letters := LeadingLetters(reference);
    LettersAreLetters(reference);
    if letters == "" then Ok(0)
    else if |letters| > MAX_COLUMN_LETTERS then Err(ColumnLimit)
    else if ColumnValue(letters) > MAX_SHEET_COLUMNS then Err(ColumnLimit)
    else Ok(ColumnValue(letters))
  }

  method ReadA1Column(reference: string) returns (r: Result<nat, Refusal>)
    ensures r == A1Column(reference)
  {
    var letters := LeadingLetters(reference);
    LettersAreLetters(reference);
    if letters == "" {
      return Ok(0);
    }
    if |letters| > MAX_COLUMN_LETTERS {
      return Err(ColumnLimit);
    }
    var column := 0;
    for i := 0 to |letters|
      invariant column == ColumnValue(letters[..i])
    {
      assert letters[..i + 1][..i] == letters[..i];
      column := column * 26 + letters[i] as int - 'A' as int + 1;
    }
    assert letters[..|letters|] == letters;
    return if column > MAX_SHEET_COLUMNS then Err(ColumnLimit) else Ok(column);
  }

  /** `_sheet_row_number`. */
  function RowNumber(raw: Option<string>, fallback: nat, num: Numerals): Result<nat, Refusal> {
    if raw.None? then (if 1 <= fallback <= MAX_SHEET_ROWS then Ok(fallback) else Err(RowLimit))
    else if !num.isDigit(raw.value) || |raw.value| > MAX_ROW_DIGITS || num.toInt(raw.value).None? then Err(RowLimit)
    else
      var n := num.toInt(raw.value).value;
      if 1 <= n <= MAX_SHEET_ROWS then Ok(n) else Err(RowLimit)
  }

  /** `_shared_string_at`. */
  function SharedString(strings: seq<string>, raw: string, num: Numerals): Result<string, Refusal> {
    var index := num.toInt(raw);
    if index.None? || index.value < 0 || index.value >= |strings| then Err(BadSharedString)
        else Ok(strings[index.value])
  }

  function CellText(cell: Cell, strings: seq<string>, num: Numerals): Result<string, Refusal> {
    if cell.kind == "inlineStr" then Ok(cell.inline)
    else if cell.value.None? then Ok("")
    else if cell.kind == "s" then SharedString(strings, cell.value.value, num)
    else Ok(cell.value.value)
  }

  // ---- the reader --------------------------------------------------------------------

  datatype Grid = Grid(matrix: Matrix, held: nat)

  function Cells(matrix: Matrix): nat {
    if matrix == [] then 0 else Cells(matrix[..|matrix| - 1]) + |matrix[|matrix| - 1]|
  }

  /** The counter is the number of cells held, and every cap is respected. */
  ghost predicate WithinCaps(g: Grid) {
    && g.held == Cells(g.matrix) <= MAX_SHEET_CELLS
    && |g.matrix| <= MAX_SHEET_ROWS
    && (forall i :: 0 <= i < |g.matrix| ==> |g.matrix[i]| <= MAX_SHEET_COLUMNS)
  }

  /** The column a cell goes to: its own, or the next free one of the row. */
  function TargetColumn(cell: Cell, width: nat): Result<nat, Refusal> {
    var column := A1Column(cell.reference);
    if column.Err? then column
    else
      var c := if column.value == 0 then width + 1 else column.value;
      if c > MAX_SHEET_COLUMNS then Err(ColumnLimit) else Ok(c)
  }

  function Padded(values: seq<string>, width: nat): seq<string> {
    values + seq(if width > |values| then width - |values| else 0, _ => "")
  }

  /** One cell put into row `row` of the grid. */
  function PutCell(g: Grid, row: nat, cell: Cell, strings: seq<string>, num: Numerals): Result<Grid, Refusal>
    requires row < |g.matrix|
  {
    var values := g.matrix[row];
    var column := TargetColumn(cell, |values|);
    if column.Err? then Err(column.error)
    else
      var extra := if column.value > |values| then column.value - |values| else 0;
      if g.held + extra > MAX_SHEET_CELLS then Err(CellLimit)
      else
        var text := CellText(cell, strings, num);
        if text.Err? then Err(text.error)
        else if column.value == 0 then Err(ColumnLimit)
        else
          var padded := Padded(values, column.value);
          Ok(Grid(g.matrix[row := padded[column.value - 1 := text.value]], g.held + extra))
  }

  function PutCells(g: Grid, row: nat, cells: seq<Cell>, strings: seq<string>, num: Numerals)
    : (r: Result<Grid, Refusal>)
    requires row < |g.matrix|
    ensures r.Ok? ==> |r.value.matrix| == |g.matrix|
  {
    if cells == [] then Ok(g)
    else
      var before := PutCells(g, row, cells[..|cells| - 1], strings, num);
      if before.Err? then before else PutCell(before.value, row, cells[|cells| - 1], strings, num)
  }

  function GrowTo(matrix: Matrix, rows: nat): Matrix {
    matrix + seq(if rows > |matrix| then rows - |matrix| else 0, _ => [])
  }

  function PutRow(g: Grid, row: Row, strings: seq<string>, num: Numerals): Result<Grid, Refusal> {
    var number := RowNumber(row.number, |g.matrix| + 1, num);
    if number.Err? then Err(number.error)
    else if number.value == 0 then Err(RowLimit)
    else PutCells(Grid(GrowTo(g.matrix, number.value), g.held), number.value - 1, row.cells, strings, num)
  }

  function ReadRows(rows: seq<Row>, strings: seq<string>, num: Numerals): Result<Grid, Refusal> {
    if rows == [] then Ok(Grid([], 0))
    else
      var before := ReadRows(rows[..|rows| - 1], strings, num);
      if before.Err? then before else PutRow(before.value, rows[|rows| - 1], strings, num)
  }

  // ---- the caps hold at every step -----------------------------------------------------

  lemma {:induction false} CellsConcat(a: Matrix, b: Matrix)
    ensures Cells(a + b) == Cells(a) + Cells(b)
  {
    if b == [] {
      assert a + b == a;
    } else {
      assert (a + b)[..|a + b| - 1] == a + b[..|b| - 1];
      CellsConcat(a, b[..|b| - 1]);
    }
  }

  lemma CellsUpdate(matrix: Matrix, row: nat, values: seq<string>)
    requires row < |matrix|
    ensures Cells(matrix[row := values]) == Cells(matrix) - |matrix[row]| + |values|
  {
    var before, after := matrix[..row], matrix[row + 1..];
    assert matrix == before + [matrix[row]] + after;
    assert matrix[row := values] == before + [values] + after;
    CellsOfThree(before, matrix[row], after);
    CellsOfThree(before, values, after);
  }

  lemma CellsOfThree(before: Matrix, values: seq<string>, after: Matrix)
    ensures Cells(before + [values] + after) == Cells(before) + |values| + Cells(after)
  {
    CellsConcat(before + [values], after);
    CellsConcat(before, [values]);
    assert [values][..0] == [];
  }

  lemma {:induction false} GrowingAddsNoCells(matrix: Matrix, rows: nat)
    ensures Cells(GrowTo(matrix, rows)) == Cells(matrix)
    decreases rows
  {
    if rows <= |matrix| {
      assert GrowTo(matrix, rows) == matrix;
    } else {
      GrowingAddsNoCells(matrix, rows - 1);
      assert GrowTo(matrix, rows)[..rows - 1] == GrowTo(matrix, rows - 1);
    }
  }

  lemma PutCellKeepsCaps(g: Grid, row: nat, cell: Cell, strings: seq<string>, num: Numerals)
    requires WithinCaps(g) && row < |g.matrix|
    ensures var r := PutCell(g, row, cell, strings, num); r.Ok? ==> WithinCaps(r.value)
  {
    var r := PutCell(g, row, cell, strings, num);
    if r.Ok? { CellsUpdate(g.matrix, row, r.value.matrix[row]); }
  }

  lemma {:induction false} PutCellsKeepsCaps(g: Grid, row: nat, cells: seq<Cell>, strings: seq<string>, num: Numerals)
    requires WithinCaps(g) && row < |g.matrix|
    ensures var r := PutCells(g, row, cells, strings, num); r.Ok? ==> WithinCaps(r.value)
  {
    if cells != [] {
      var before := PutCells(g, row, cells[..|cells| - 1], strings, num);
      PutCellsKeepsCaps(g, row, cells[..|cells| - 1], strings, num);
      if before.Ok? { PutCellKeepsCaps(before.value, row, cells[|cells| - 1], strings, num); }
    }
  }

  lemma GrowingKeepsCaps(g: Grid, rows: nat)
    requires WithinCaps(g) && rows <= MAX_SHEET_ROWS
    ensures WithinCaps(Grid(GrowTo(g.matrix, rows), g.held))
  {
    GrowingAddsNoCells(g.matrix, rows);
    var grown := GrowTo(g.matrix, rows);
    assert forall i :: 0 <= i < |grown| ==> grown[i] == if i < |g.matrix| then g.matrix[i] else [];
  }

  lemma PutRowKeepsCaps(g: Grid, row: Row, strings: seq<string>, num: Numerals)
    requires WithinCaps(g)
    ensures var r := PutRow(g, row, strings, num); r.Ok? ==> WithinCaps(r.value)
  {
    var number := RowNumber(row.number, |g.matrix| + 1, num);
    if number.Ok? {
      GrowingKeepsCaps(g, number.value);
      PutCellsKeepsCaps(Grid(GrowTo(g.matrix, number.value), g.held), number.value - 1, row.cells, strings, num);
    }
  }

  /** Whatever addresses the sheet declares, what has been allocated is what is held,
      and no cap is ever passed. */
  lemma {:induction false} ReadingKeepsCaps(rows: seq<Row>, strings: seq<string>, num: Numerals)
    ensures var r := ReadRows(rows, strings, num); r.Ok? ==> WithinCaps(r.value)
  {
    if rows != [] {
      var before, row := ReadRows(rows[..|rows| - 1], strings, num), rows[|rows| - 1];
      ReadingKeepsCaps(rows[..|rows| - 1], strings, num);
      if before.Ok? { PutRowKeepsCaps(before.value, row, strings, num); }
    }
  }

  // ---- the reading loops -----------------------------------------------------------------

  /** One cell, as the loop body handles it: grow the row in place, count, then set. */
  method ReadCell(values0: seq<string>, held0: nat, cell: Cell, strings: seq<string>, num: Numerals)
    returns (r: Result<(seq<string>, nat), Refusal>)
    ensures forall g: Grid, row :: 0 <= row < |g.matrix| && g.matrix[row] == values0 && g.held == held0 ==>
              PutCell(g, row, cell, strings, num)
              == match r
                 case Ok(p) => Ok(Grid(g.matrix[row := p.0], p.1))
                 case Err(e) => Err(e)
  {
    var values, held := values0, held0;
    var named := ReadA1Column(cell.reference);
    if named.Err? {
      return Err(named.error);
    }
    var column := named.value;
    if column == 0 {
      column := |values| + 1;
    }
    if column > MAX_SHEET_COLUMNS {
      return Err(ColumnLimit);
    }
    var extra := if column > |values| then column - |values| else 0;
    if held + extra > MAX_SHEET_CELLS {
      return Err(CellLimit);
    }
    while |values| < column
      invariant |values0| <= |values| <= |values0| + extra && values == Padded(values0, |values|)
    {
      values := values + [""];
    }
    held := held + extra;
    assert values == Padded(values0, column);
    var text := CellText(cell, strings, num);
    if text.Err? {
      return Err(text.error);
    }
    values := values[column - 1 := text.value];
    return Ok((values, held));
  }

  /** The cells of one row, one by one. */
  method ReadCells(matrix0: Matrix, held0: nat, at: nat, cells: seq<Cell>, strings: seq<string>, num: Numerals)
    returns (r: Result<(Matrix, nat), Refusal>)
    requires at < |matrix0|
    ensures PutCells(Grid(matrix0, held0), at, cells, strings, num)
            == match r
               case Ok(p) => Ok(Grid(p.0, p.1))
               case Err(e) => Err(e)
  {
    var matrix, held := matrix0, held0;
    for k := 0 to |cells|
      invariant |matrix| == |matrix0|
      invariant PutCells(Grid(matrix0, held0), at, cells[..k], strings, num) == Ok(Grid(matrix, held))
    {
      CellsStop(Grid(matrix0, held0), at, cells, k + 1, strings, num);
      assert cells[..k + 1][..k] == cells[..k];
      var put := ReadCell(matrix[at], held, cells[k], strings, num);
      assert PutCell(Grid(matrix, held), at, cells[k], strings, num)
          == match put case Ok(p) => Ok(Grid(matrix[at := p.0], p.1)) case Err(e) => Err(e);
      if put.Err? {
        return Err(put.error);
      }
      matrix, held := matrix[at := put.value.0], put.value.1;
    }
    assert cells[..|cells|] == cells;
    return Ok((matrix, held));
  }

  /** One row: the matrix is grown to reach it, then its cells are put. */
  method ReadRow(matrix0: Matrix, held0: nat, row: Row, strings: seq<string>, num: Numerals)
      returns (r: Result<(Matrix, nat), Refusal>)
    ensures PutRow(Grid(matrix0, held0), row, strings, num)
            == match r
               case Ok(p) => Ok(Grid(p.0, p.1))
               case Err(e) => Err(e)
  {
    var number := RowNumber(row.number, |matrix0| + 1, num);
    if number.Err? {
      return Err(number.error);
    }
    var matrix := matrix0;
    while |matrix| < number.value
      invariant |matrix0| <= |matrix| && matrix == GrowTo(matrix0, |matrix|)
                && (|matrix| <= number.value || matrix == matrix0)
    {
      matrix := matrix + [[]];
    }
    assert matrix == GrowTo(matrix0, number.value);
    r := ReadCells(matrix, held0, number.value - 1, row.cells, strings, num);
  }

  /** `_sheet_matrix`. */
  method SheetMatrix(rows: seq<Row>, strings: seq<string>, num: Numerals) returns (r: Result<Matrix, Refusal>)
    ensures r == match ReadRows(rows, strings, num) case Ok(g) => Ok(g.matrix) case Err(e) => Err(e)
    ensures r.Ok? ==> exists held :: WithinCaps(Grid(r.value, held))
  {
    var matrix: Matrix, held: nat := [], 0;
    ReadingKeepsCaps(rows, strings, num);
    for i := 0 to |rows|
      invariant ReadRows(rows[..i], strings, num) == Ok(Grid(matrix, held))
    {
      RowsStop(rows, i + 1, strings, num);
      assert rows[..i + 1][..i] == rows[..i];
      var put := ReadRow(matrix, held, rows[i], strings, num);
      if put.Err? {
        return Err(put.error);
      }
      matrix, held := put.value.0, put.value.1;
    }
    assert rows[..|rows|] == rows;
    assert WithinCaps(Grid(matrix, held));
    return Ok(matrix);
  }

  /** A refusal is final. */
  lemma {:induction false} RowsStop(rows: seq<Row>, n: nat, strings: seq<string>, num: Numerals)
    requires n <= |rows|
    ensures ReadRows(rows[..n], strings, num).Err? ==> ReadRows(rows, strings, num) == ReadRows(rows[..n], strings, num)
  {
    if n == |rows| {
      assert rows[..n] == rows;
    } else {
      assert rows[..|rows| - 1][..n] == rows[..n];
      RowsStop(rows[..|rows| - 1], n, strings, num);
    }
  }

  lemma {:induction false} CellsStop(g: Grid, row: nat, cells: seq<Cell>, n: nat, strings: seq<string>, num: Numerals)
    requires n <= |cells| && row < |g.matrix|
    ensures PutCells(g, row, cells[..n], strings, num).Err? ==>
            PutCells(g, row, cells, strings, num) == PutCells(g, row, cells[..n], strings, num)
  {
    if n == |cells| {
      assert cells[..n] == cells;
    } else {
      assert cells[..|cells| - 1][..n] == cells[..n];
      CellsStop(g, row, cells[..|cells| - 1], n, strings, num);
    }
  }

  // ---- the printer ---------------------------------------------------------------------------

  /** `chr(ord('A') + c)`: a letter for the first 26 columns, some other character after. */
  function ColumnSign(c: nat): char
    requires c < 0xD700
  {
    ('A' as int + c) as char
  }

  /** What a printed cell says: its address, and where its text is among the shared strings. */
  ghost predicate CellShows(cell: Cell, r: nat, c: nat, text: string, strings: seq<string>) {
    && c < 0xD700 && cell.reference == [ColumnSign(c)] + Decimal(r)
    && cell.kind == "s"
    && exists i: nat :: i < |strings| && strings[i] == text && cell.value == Some(Decimal(i))
  }

  ghost predicate RowShows(row: Row, r: nat, texts: seq<string>, strings: seq<string>) {
    && row.number == Some(Decimal(r)) && |row.cells| == |texts|
    && forall c :: 0 <= c < |texts| ==> CellShows(row.cells[c], r, c, texts[c], strings)
  }

  ghost predicate SheetShows(rows: seq<Row>, table: Matrix, strings: seq<string>) {
    |rows| == |table| && forall r :: 0 <= r < |table| ==> RowShows(rows[r], r + 1, table[r], strings)
  }

  ghost predicate Interned(strings: seq<string>, indexOf: map<string, nat>) {
    && (forall i :: 0 <= i < |strings| ==> strings[i] in indexOf && indexOf[strings[i]] == i)
    && (forall v :: v in indexOf ==> indexOf[v] < |strings| && strings[indexOf[v]] == v)
  }

  /** `intern`: every text is stored once. */
  method Intern(value: string, strings: seq<string>, indexOf: map<string, nat>)
    returns (index: nat, strings': seq<string>, indexOf': map<string, nat>)
    requires Interned(strings, indexOf)
    ensures Interned(strings', indexOf') && strings <= strings'
    ensures index < |strings'| && strings'[index] == value
  {
    strings', indexOf' := strings, indexOf;
    if value !in indexOf {
      indexOf' := indexOf[value := |strings|];
      strings' := strings + [value];
    }
    index := indexOf'[value];
  }

  lemma ShowsLonger(row: Row, r: nat, texts: seq<string>, strings: seq<string>, more: seq<string>)
    requires RowShows(row, r, texts, strings) && strings <= more
    ensures RowShows(row, r, texts, more)
  {
    forall c | 0 <= c < |texts| ensures CellShows(row.cells[c], r, c, texts[c], more) {
      var i: nat :| i < |strings| && strings[i] == texts[c] && row.cells[c].value == Some(Decimal(i));
      assert more[i] == strings[i];
    }
  }

  method PrintRow(texts: seq<string>, r: nat, strings: seq<string>, indexOf: map<string, nat>)
    returns (row: Row, strings': seq<string>, indexOf': map<string, nat>)
    requires Interned(strings, indexOf) && |texts| < 0xD700
    ensures Interned(strings', indexOf') && strings <= strings' && RowShows(row, r, texts, strings')
  {
    strings', indexOf' := strings, indexOf;
    var cells: seq<Cell> := [];
    for c := 0 to |texts|
      invariant Interned(strings', indexOf') && strings <= strings'
      invariant RowShows(Row(Some(Decimal(r)), cells), r, texts[..c], strings')
    {
      var index;
      ghost var before := strings';
      index, strings', indexOf' := Intern(texts[c], strings', indexOf');
      ShowsLonger(Row(Some(Decimal(r)), cells), r, texts[..c], before, strings');
      cells := cells + [Cell([ColumnSign(c)] + Decimal(r), "s", Some(Decimal(index)), "")];
      assert CellShows(cells[c], r, c, texts[c], strings');
    }
    assert texts[..|texts|] == texts;
    row := Row(Some(Decimal(r)), cells);
  }

  /** `_xlsx`: the sheet and its shared strings; an empty source prints one cell. */
  method PrintSheet(source: Matrix) returns (rows: seq<Row>, strings: seq<string>, ghost table: Matrix)
    requires forall r :: 0 <= r < |source| ==> |source[r]| < 0xD700
    ensures table == if source == [] then [["empty"]] else source
    ensures SheetShows(rows, table, strings)
    ensures forall i, j :: 0 <= i < j < |strings| ==> strings[i] != strings[j]
  {
    var printed := if source == [] then [["empty"]] else source;
    table := printed;
    var indexOf: map<string, nat> := map[];
    rows, strings := [], [];
    for r := 0 to |printed|
      invariant Interned(strings, indexOf) && SheetShows(rows, printed[..r], strings)
    {
      var row;
      ghost var before := strings;
      row, strings, indexOf := PrintRow(printed[r], r + 1, strings, indexOf);
      forall k | 0 <= k < r ensures RowShows(rows[k], k + 1, printed[k], strings) {
        assert RowShows(rows[k], k + 1, printed[..r][k], before);
        ShowsLonger(rows[k], k + 1, printed[k], before, strings);
      }
      rows := rows + [row];
    }
    assert printed[..|printed|] == printed;
  }

  // ---- reading back -----------------------------------------------------------------------------

  ghost predicate TableWithinCaps(table: Matrix) {
    |table| <= MAX_SHEET_ROWS && Cells(table) <= MAX_SHEET_CELLS && NarrowRows(table)
  }

  /** No row is wider than the column cap. */
  predicate NarrowRows(table: Matrix) {
    table == [] || (NarrowRows(table[..|table| - 1]) && |table[|table| - 1]| <= MAX_SHEET_COLUMNS)
  }

  /** The address of column `c` leads there: by its letter, or by position past Z. */
  lemma AddressLeads(c: nat, r: nat)
    requires c < 0xD700
    ensures A1Column([ColumnSign(c)] + Decimal(r)) == Ok(if c < 26 then c + 1 else 0)
  {
    var reference := [ColumnSign(c)] + Decimal(r);
    assert reference[1..] == Decimal(r);
    DecimalDigits(r);
    assert LeadingLetters(Decimal(r)) == "";
    if c < 26 {
      var letters := [ColumnSign(c)];
      assert LeadingLetters(reference) == letters;
      assert letters[..|letters| - 1] == "";
      assert ColumnValue(letters) == c + 1;
    }
  }

  /** A printed cell goes to the end of its row, if the caps allow. */
  lemma PutPrinted(g: Grid, row: nat, cell: Cell, r: nat, text: string, strings: seq<string>, num: Numerals)
    requires ReadsDecimals(num) && row < |g.matrix| && CellShows(cell, r, |g.matrix[row]|, text, strings)
    ensures PutCell(g, row, cell, strings, num)
         == if |g.matrix[row]| + 1 > MAX_SHEET_COLUMNS then Err(ColumnLimit)
            else if g.held + 1 > MAX_SHEET_CELLS then Err(CellLimit)
            else Ok(Grid(g.matrix[row := g.matrix[row] + [text]], g.held + 1))
  {
    var values := g.matrix[row];
    AddressLeads(|values|, r);
    assert Padded(values, |values| + 1)[|values| := text] == values + [text];
  }

  lemma PutPrintedLast(g: Grid, before: Grid, row: nat, cell: Cell, r: nat, texts: seq<string>, strings: seq<string>,
      num: Numerals)
    requires ReadsDecimals(num) && row < |g.matrix| && texts != []
             && CellShows(cell, r, |texts| - 1, texts[|texts| - 1], strings)
    requires before == Grid(g.matrix[row := texts[..|texts| - 1]], g.held + |texts| - 1)
    ensures var put := PutCell(before, row, cell, strings, num);
            if |texts| <= MAX_SHEET_COLUMNS && g.held + |texts| <= MAX_SHEET_CELLS
            then put == Ok(Grid(g.matrix[row := texts], g.held + |texts|)) else put.Err?
  {
    var n := |texts| - 1;
    PutPrinted(before, row, cell, r, texts[n], strings, num);
    assert texts[..n] + [texts[n]] == texts;
    assert g.matrix[row := texts[..n]][row := texts] == g.matrix[row := texts];
  }

  lemma FirstCellsShow(cells: seq<Cell>, r: nat, texts: seq<string>, strings: seq<string>, n: nat)
    requires RowShows(Row(Some(Decimal(r)), cells), r, texts, strings) && n <= |cells|
    ensures RowShows(Row(Some(Decimal(r)), cells[..n]), r, texts[..n], strings)
    ensures n < |cells| ==> CellShows(cells[n], r, n, texts[n], strings)
  {
  }

  lemma {:induction false} PutPrintedCells(g: Grid, row: nat, cells: seq<Cell>, r: nat, texts: seq<string>,
      strings: seq<string>, num: Numerals)
    requires ReadsDecimals(num) && row < |g.matrix| && g.matrix[row] == [] && g.held <= MAX_SHEET_CELLS
    requires RowShows(Row(Some(Decimal(r)), cells), r, texts, strings)
    ensures PutCells(g, row, cells, strings, num).Ok?
            <==> |texts| <= MAX_SHEET_COLUMNS && g.held + |texts| <= MAX_SHEET_CELLS
    ensures PutCells(g, row, cells, strings, num).Ok? ==>
            PutCells(g, row, cells, strings, num) == Ok(Grid(g.matrix[row := texts], g.held + |texts|))
  {
    if cells == [] {
      assert texts == [] && g.matrix[row := texts] == g.matrix;
    } else {
      var n := |cells| - 1;
      FirstCellsShow(cells, r, texts, strings, n);
      PutPrintedCells(g, row, cells[..n], r, texts[..n], strings, num);
      var before := PutCells(g, row, cells[..n], strings, num);
      if before.Ok? { PutPrintedLast(g, before.value, row, cells[n], r, texts, strings, num); }
    }
  }

  lemma PutPrintedRow(g: Grid, row: Row, texts: seq<string>, strings: seq<string>, num: Numerals)
    requires ReadsDecimals(num) && RowShows(row, |g.matrix| + 1, texts, strings) && g.held <= MAX_SHEET_CELLS
    ensures PutRow(g, row, strings, num).Ok? <==>
              |g.matrix| < MAX_SHEET_ROWS && |texts| <= MAX_SHEET_COLUMNS && g.held + |texts| <= MAX_SHEET_CELLS
    ensures PutRow(g, row, strings, num).Ok? ==>
            PutRow(g, row, strings, num) == Ok(Grid(g.matrix + [texts], g.held + |texts|))
  {
    var r := |g.matrix| + 1;
    if r <= MAX_SHEET_ROWS { DecimalLength(r, 5); }
    assert num.isDigit(Decimal(r)) && num.toInt(Decimal(r)) == Some(r as int);
    if r <= MAX_SHEET_ROWS {
      var grown := Grid(GrowTo(g.matrix, r), g.held);
      PutPrintedCells(grown, r - 1, row.cells, r, texts, strings, num);
      assert grown.matrix[r - 1 := texts] == g.matrix + [texts];
    }
  }

  lemma OneMoreRow(table: Matrix, row: seq<string>)
    ensures Cells(table + [row]) == Cells(table) + |row|
    ensures TableWithinCaps(table + [row]) <==>
            TableWithinCaps(table) && |table| < MAX_SHEET_ROWS && Cells(table) + |row| <= MAX_SHEET_CELLS
            && |row| <= MAX_SHEET_COLUMNS
  {
    assert (table + [row])[..|table|] == table;
  }

  ghost predicate ComesBack(r: Result<Grid, Refusal>, table: Matrix) {
    && (r.Ok? <==> TableWithinCaps(table))
    && (r.Ok? ==> r.value == Grid(table, Cells(table)))
  }

  lemma LastRowComesBack(before: Result<Grid, Refusal>, row: Row, table: Matrix, strings: seq<string>, num: Numerals)
    requires ReadsDecimals(num) && table != [] && ComesBack(before, table[..|table| - 1])
    requires RowShows(row, |table|, table[|table| - 1], strings)
    ensures ComesBack(if before.Err? then before else PutRow(before.value, row, strings, num), table)
  {
    assert table[..|table| - 1] + [table[|table| - 1]] == table;
    OneMoreRow(table[..|table| - 1], table[|table| - 1]);
    if before.Ok? { PutPrintedRow(before.value, row, table[|table| - 1], strings, num); }
  }

  /** Reading a printed sheet gives the table back, exactly when it is within the caps;
      otherwise it is refused. */
  lemma {:induction false} SheetsComeBack(rows: seq<Row>, table: Matrix, strings: seq<string>, num: Numerals)
    requires ReadsDecimals(num) && SheetShows(rows, table, strings)
    ensures ComesBack(ReadRows(rows, strings, num), table)
  {
    if rows != [] {
      var n := |rows| - 1;
      forall r | 0 <= r < n ensures RowShows(rows[..n][r], r + 1, table[..n][r], strings) {
        assert RowShows(rows[r], r + 1, table[r], strings);
      }
      SheetsComeBack(rows[..n], table[..n], strings, num);
      assert RowShows(rows[n], n + 1, table[n], strings);
      LastRowComesBack(ReadRows(rows[..n], strings, num), rows[n], table, strings, num);
    }
  }

  /** Printing a table and reading the sheet. */
  method PrintAndRead(source: Matrix, num: Numerals) returns (r: Result<Matrix, Refusal>)
    requires ReadsDecimals(num) && forall r :: 0 <= r < |source| ==> |source[r]| < 0xD700
    ensures var table := if source == [] then [["empty"]] else source;
            if TableWithinCaps(table) then r == Ok(table) else r.Err?
  {
    var rows, strings;
    ghost var table;
    rows, strings, table := PrintSheet(source);
    SheetsComeBack(rows, table, strings, num);
    r := SheetMatrix(rows, strings, num);
  }

  // ---- cells and rows, told out ------------------------------------------------------------

  /** An inline text is taken as it is, a shared one by its number, any other value as it is
      written; a cell without a value is empty. */
  lemma CellTextOutcome(cell: Cell, strings: seq<string>, num: Numerals)
    ensures cell.kind == "inlineStr" ==> CellText(cell, strings, num) == Ok(cell.inline)
    ensures cell.kind != "inlineStr" && cell.value == None ==> CellText(cell, strings, num) == Ok("")
    ensures cell.kind != "inlineStr" && cell.kind != "s" && cell.value.Some? ==>
              CellText(cell, strings, num) == Ok(cell.value.value)
    ensures cell.kind == "s" && cell.value.Some? ==>
              if exists i :: 0 <= i < |strings| && num.toInt(cell.value.value) == Some(i)
              then exists i :: 0 <= i < |strings| && num.toInt(cell.value.value) == Some(i)
                               && CellText(cell, strings, num) == Ok(strings[i])
              else CellText(cell, strings, num) == Err(BadSharedString)
  {
    if cell.kind == "s" && cell.value.Some? && num.toInt(cell.value.value).Some? {
      assert |"s"| != |"inlineStr"|;
      var i := num.toInt(cell.value.value).value;
      assert 0 <= i < |strings| ==> CellText(cell, strings, num) == Ok(strings[i]);
    }
  }

  /** The number of a column by its one, two or three letters. */
  lemma ColumnOutcome(letters: string)
    requires AllLetters(letters)
    ensures |letters| == 1 ==> ColumnValue(letters) == letters[0] as int - 64
    ensures |letters| == 2 ==> ColumnValue(letters) == 26 * (letters[0] as int - 64) + letters[1] as int - 64
    ensures |letters| == 3 ==>
              ColumnValue(letters) == 676 * (letters[0] as int - 64) + 26 * (letters[1] as int - 64)
                  + letters[2] as int - 64
  {
    if 0 < |letters| <= 3 {
      var n := |letters|;
      assert letters[..n - 1][..0] == "" && 'A' as int == 65;
      if n > 1 { assert letters[..n - 1][..n - 2] == letters[..n - 2]; }
      if n > 2 { assert letters[..n - 2][..n - 3] == "" && letters[..1] == [letters[0]]; }
      ColumnStep(letters);
      if n > 1 { ColumnStep(letters[..n - 1]); }
      if n > 2 { ColumnStep(letters[..n - 1][..n - 2]); }
    }
  }

  lemma ColumnStep(letters: string)
    requires AllLetters(letters) && letters != ""
    ensures AllLetters(letters[..|letters| - 1])
    ensures ColumnValue(letters)
         == 26 * ColumnValue(letters[..|letters| - 1]) + letters[|letters| - 1] as int - 64
  {
    assert 'A' as int == 65;
  }

  /** The letters of an address are its longest beginning of capital letters. */
  lemma {:induction false} LeadingLettersOutcome(s: string)
    ensures var l := LeadingLetters(s);
            l <= s && AllLetters(l) && (|l| < |s| ==> !('A' <= s[|l|] <= 'Z'))
  {
    if s != "" && 'A' <= s[0] <= 'Z' { LeadingLettersOutcome(s[1..]); }
  }

  /** Where a cell goes: to the column of its letters, or past the end of its row when it has
      none; never past column 64. */
  ghost predicate GoesTo(cell: Cell, width: nat, column: nat) {
    var letters := LeadingLetters(cell.reference);
    1 <= column <= 64 && AllLetters(letters)
    && if letters == "" then column == width + 1 else |letters| <= 3 && column == ColumnValue(letters)
  }

  /** One cell: its text stands at its column, what the row lacked before it is empty, and
      everything else is as before. */
  ghost predicate PutAs(g: Grid, h: Grid, row: nat, column: nat, text: string)
    requires row < |g.matrix|
  {
    && |h.matrix| == |g.matrix| && (forall i :: 0 <= i < |g.matrix| && i != row ==> h.matrix[i] == g.matrix[i])
    && var was, now := g.matrix[row], h.matrix[row];
       && |now| == (if column > |was| then column else |was|) && 1 <= column && now[column - 1] == text
       && (forall k :: 0 <= k < |was| && k != column - 1 ==> now[k] == was[k])
       && (forall k :: |was| <= k < |now| && k != column - 1 ==> now[k] == "")
       && h.held == g.held + |now| - |was|
  }

  ghost predicate DoesNotFit(g: Grid, cell: Cell, width: nat, column: nat) {
    GoesTo(cell, width, column) && g.held + (if column > width then column - width else 0) > 65536
  }

  lemma PutCellOutcome(g: Grid, row: nat, cell: Cell, strings: seq<string>, num: Numerals)
    requires row < |g.matrix|
    ensures var r, width := PutCell(g, row, cell, strings, num), |g.matrix[row]|;
            && (r.Ok? ==> exists column :: GoesTo(cell, width, column) && CellText(cell, strings, num).Ok?
                                           && PutAs(g, r.value, row, column, CellText(cell, strings, num).value))
            && (r.Err? ==>
                  || (r.error == ColumnLimit && forall column :: !GoesTo(cell, width, column))
                  || (r.error == CellLimit && exists column :: DoesNotFit(g, cell, width, column))
                  || CellText(cell, strings, num) == Err(r.error))
  {
    var column := TargetColumn(cell, |g.matrix[row]|);
    LettersAreLetters(cell.reference);
    if LeadingLetters(cell.reference) != "" { ColumnIsPositive(LeadingLetters(cell.reference)); }
    if column.Ok? {
      assert GoesTo(cell, |g.matrix[row]|, column.value);
      assert PutCell(g, row, cell, strings, num) == Err(CellLimit) ==>
               DoesNotFit(g, cell, |g.matrix[row]|, column.value) || CellText(cell, strings, num) == Err(CellLimit);
    }
  }

  lemma ColumnIsPositive(letters: string)
    requires AllLetters(letters) && letters != ""
    ensures ColumnValue(letters) > 0
  {
  }

  /** Rows without a number follow the last one; a number has at most five digits and is
      between 1 and 4096. */
  lemma RowNumberOutcome(raw: Option<string>, rows: nat, num: Numerals)
    ensures raw == None ==> RowNumber(raw, rows + 1, num) == if rows < 4096 then Ok(rows + 1) else Err(RowLimit)
    ensures raw.Some? ==>
              if num.isDigit(raw.value) && |raw.value| <= 5
                  && exists n: nat :: num.toInt(raw.value) == Some(n) && 1 <= n <= 4096
              then RowNumber(raw, rows + 1, num).Ok?
              && num.toInt(raw.value) == Some(RowNumber(raw, rows + 1, num).value)
              else RowNumber(raw, rows + 1, num) == Err(RowLimit)
  {
  }

  /** A row grows the sheet to its number, with empty rows, and puts its cells there. */
  lemma GrowOutcome(matrix: Matrix, rows: nat)
    ensures var grown := GrowTo(matrix, rows);
            && |grown| == (if rows > |matrix| then rows else |matrix|)
            && (forall i :: 0 <= i < |matrix| ==> grown[i] == matrix[i])
            && (forall i :: |matrix| <= i < |grown| ==> grown[i] == [])
  {
  }

  /** Cells of a row, and rows of a sheet, are put one after the other, and a refusal ends it. */
  lemma {:induction false} CellsInOrder(g: Grid, row: nat, first: seq<Cell>, more: seq<Cell>, strings: seq<string>,
      num: Numerals)
    requires row < |g.matrix|
    ensures var r := PutCells(g, row, first, strings, num);
            PutCells(g, row, first + more, strings, num)
            == if r.Err? then r else PutCells(r.value, row, more, strings, num)
    ensures forall cell :: PutCells(g, row, [cell], strings, num) == PutCell(g, row, cell, strings, num)
  {
    forall cell ensures PutCells(g, row, [cell], strings, num) == PutCell(g, row, cell, strings, num) {
      assert [cell][..0] == [];
    }
    if more == [] {
      assert first + more == first;
    } else {
      assert (first + more)[..|first + more| - 1] == first + more[..|more| - 1];
      CellsInOrder(g, row, first, more[..|more| - 1], strings, num);
    }
  }

  lemma {:induction false} RowsInOrder(first: seq<Row>, row: Row, strings: seq<string>, num: Numerals)
    ensures var r := ReadRows(first, strings, num);
            ReadRows(first + [row], strings, num) == if r.Err? then r else PutRow(r.value, row, strings, num)
    ensures ReadRows([], strings, num) == Ok(Grid([], 0))
  {
    assert (first + [row])[..|first|] == first;
  }
}
