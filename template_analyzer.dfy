/** The XLSX template analyzer over a whole worksheet: header-row detection,
    the per-cell analysis with its merged-region filtering, the four lists a sheet
    schema holds, label association, and the summary over all sheets. */
module TemplateAnalyzer {
  import opened Wrappers
  import opened Strings
  import opened TemplateCells

  datatype Pos = Pos(row: int, column: int)

  /** A merged range by its corners; its master is the top-left cell. */
  datatype Range = Range(minRow: int, minCol: int, maxRow: int, maxCol: int)

  /** openpyxl never builds a range whose corners are out of order. */
  predicate ValidRange(r: Range) {
    1 <= r.minRow <= r.maxRow && 1 <= r.minCol <= r.maxCol
  }

  function Master(r: Range): Pos {
    Pos(r.minRow, r.minCol)
  }

  /** `cell.coordinate in merged_range`. */
  predicate InRange(r: Range, p: Pos) {
    r.minRow <= p.row <= r.maxRow && r.minCol <= p.column <= r.maxCol
  }

  /** A worksheet: its title, `max_row`, `max_column`, its cells and its merged
      ranges in the order openpyxl lists them. */
  datatype Grid = Grid(title: string, maxRow: nat, maxCol: nat, cells: map<Pos, Cell>, merged: seq<Range>)

  predicate ValidGrid(g: Grid) {
    forall i :: 0 <= i < |g.merged| ==> ValidRange(g.merged[i])
  }

  /** `sheet.cell(row, column)`: a cell never written has default attributes. */
  function CellAt(g: Grid, row: int, column: int): Cell {
    if Pos(row, column) in g.cells then g.cells[Pos(row, column)] else DefaultCell
  }

  function Min(a: int, b: int): int {
    if a <= b then a else b
  }

  // ---------------------------------------------------------------------------
  // Header rows

  /** `cell.value and isinstance(cell.value, str)`: a non-empty string;
      whitespace counts here. */
  predicate IsText(v: Value) {
    v.Str? && v.s != []
  }

  /** Whether one of columns 1 to `upto - 1` of row 1 holds text. */
  predicate FirstRowText(g: Grid, upto: int)
    decreases upto
  {
    upto > 1 && (IsText(CellAt(g, 1, upto - 1).value) || FirstRowText(g, upto - 1))
  }

  /** The text cells among columns 1 to `upto - 1` of `row`. */
  function TextCount(g: Grid, row: int, upto: int): nat
    decreases upto
  {
    if upto <= 1 then 0
    else TextCount(g, row, upto - 1) + (if IsText(CellAt(g, row, upto - 1).value) then 1 else 0)
  }

  /** The bold text cells among columns 1 to `upto - 1` of `row`. */
  function BoldCount(g: Grid, row: int, upto: int): (r: nat)
    ensures r <= TextCount(g, row, upto)
    decreases upto
  {
    if upto <= 1 then 0
    else
      var c := CellAt(g, row, upto - 1);
      BoldCount(g, row, upto - 1) + (if IsText(c.value) && c.bold then 1 else 0)
  }

  /** The first-row rule: some of the first nine cells of row 1 hold text. */
  predicate FirstRowHeader(g: Grid) {
    g.maxRow > 0 && FirstRowText(g, Min(10, g.maxCol + 1))
  }

  /** The bold rule: more than half of the text cells among the first nineteen
      columns are bold (`bold_count / text_count > 0.5`). */
  predicate BoldMajority(g: Grid, row: int) {
    var upto := Min(20, g.maxCol + 1);
    TextCount(g, row, upto) > 0 && 2 * BoldCount(g, row, upto) > TextCount(g, row, upto)
  }

  predicate IsHeaderRow(g: Grid, row: int) {
    (row == 1 && FirstRowHeader(g)) || (1 <= row < Min(10, g.maxRow + 1) && BoldMajority(g, row))
  }

  /** The set `_detect_header_rows` returns. */
  function HeaderRowSet(g: Grid): set<int> {
    set r | 1 <= r < 10 && IsHeaderRow(g, r)
  }

  /** `_detect_header_rows`. */
  method DetectHeaderRows(g: Grid) returns (rows: set<int>)
    ensures rows == HeaderRowSet(g)
  {
    rows := {};
    if g.maxRow > 0 {
      var upto := Min(10, g.maxCol + 1);
      var found := false;
      var c := 1;
      while c < upto
        invariant 1 <= c <= upto
        invariant found == FirstRowText(g, c)
      {
        found := found || IsText(CellAt(g, 1, c).value);
        c := c + 1;
      }
      if found {
        rows := {1};
      }
    }
    var lastRow := Min(10, g.maxRow + 1);
    var lastCol := Min(20, g.maxCol + 1);
    var row := 1;
    while row < lastRow
      invariant 1 <= row <= lastRow
      invariant forall r :: r in rows <==> (r == 1 && FirstRowHeader(g)) || (1 <= r < row && BoldMajority(g, r))
    {
      var bold, text := 0, 0;
      var col := 1;
      while col < lastCol
        invariant 1 <= col <= lastCol
        invariant text == TextCount(g, row, col) && bold == BoldCount(g, row, col)
      {
        var cell := CellAt(g, row, col);
        if IsText(cell.value) {
          text := text + 1;
          if cell.bold {
            bold := bold + 1;
          }
        }
        col := col + 1;
      }
      if text > 0 && 2 * bold > text {
        rows := rows + {row};
      }
      row := row + 1;
    }
    assert forall r :: r in rows <==> r in HeaderRowSet(g);
  }

  /** Only rows 1 to 9 can be header rows. */
  lemma HeaderRowsBounded(g: Grid, row: int)
    requires IsHeaderRow(g, row)
    ensures 1 <= row <= 9 && row <= g.maxRow && row in HeaderRowSet(g)
  {
  }

  lemma {:induction false} FirstRowTextAt(g: Grid, upto: int, c: int)
    requires 1 <= c < upto && IsText(CellAt(g, 1, c).value)
    ensures FirstRowText(g, upto)
    decreases upto
  {
    if c < upto - 1 {
      FirstRowTextAt(g, upto - 1, c);
    }
  }

  /** Row 1 is a header row as soon as one of its first nine cells holds a
      non-empty string. */
  lemma FirstRowQualifies(g: Grid, c: int)
    requires g.maxRow > 0 && 1 <= c <= 9 && c <= g.maxCol
    requires IsText(CellAt(g, 1, c).value)
    ensures 1 in HeaderRowSet(g)
  {
    FirstRowTextAt(g, Min(10, g.maxCol + 1), c);
  }

  lemma {:induction false} AllBoldCounts(g: Grid, row: int, upto: int)
    requires forall c :: 1 <= c < upto && IsText(CellAt(g, row, c).value) ==> CellAt(g, row, c).bold
    ensures BoldCount(g, row, upto) == TextCount(g, row, upto)
    decreases upto
  {
    if upto > 1 {
      AllBoldCounts(g, row, upto - 1);
    }
  }

  lemma {:induction false} TextCountAt(g: Grid, row: int, upto: int, c: int)
    requires 1 <= c < upto && IsText(CellAt(g, row, c).value)
    ensures TextCount(g, row, upto) > 0
    decreases upto
  {
    if c < upto - 1 {
      TextCountAt(g, row, upto - 1, c);
    }
  }

  lemma {:induction false} NoBoldCounts(g: Grid, row: int, upto: int)
    requires forall c :: 1 <= c < upto ==> !CellAt(g, row, c).bold
    ensures BoldCount(g, row, upto) == 0
    decreases upto
  {
    if upto > 1 {
      NoBoldCounts(g, row, upto - 1);
    }
  }

  /** A row among the first nine whose text cells (within the first nineteen
      columns) are all bold, with at least one of them, is a header row. */
  lemma BoldRowQualifies(g: Grid, row: int, c: int)
    requires 1 <= row <= 9 && row <= g.maxRow
    requires 1 <= c <= 19 && c <= g.maxCol && IsText(CellAt(g, row, c).value)
    requires forall k :: 1 <= k <= 19 && IsText(CellAt(g, row, k).value) ==> CellAt(g, row, k).bold
    ensures row in HeaderRowSet(g)
  {
    var upto := Min(20, g.maxCol + 1);
    AllBoldCounts(g, row, upto);
    TextCountAt(g, row, upto, c);
  }

  /** Apart from row 1, a row without bold cells is never a header row. */
  lemma NoBoldNoHeader(g: Grid, row: int)
    requires row != 1
    requires forall k :: 1 <= k <= 19 ==> !CellAt(g, row, k).bold
    ensures row !in HeaderRowSet(g)
  {
    NoBoldCounts(g, row, Min(20, g.maxCol + 1));
  }

  // ---------------------------------------------------------------------------
  // One cell

  /** The type-specific part of a cell's information. */
  datatype Detail =
    | FormulaInfo(formula: string, description: string)
    | TextInfo(text: string)
    | InputInfo(currentValue: Value, dataType: DataType, numberFormat: string,
                fieldLabel: Option<string>, labelCell: Option<string>)

  /** The dictionary `_analyze_cell` builds. */
  datatype CellInfo = CellInfo(cell: string, row: int, column: int, columnLetter: string,
                               kind: CellType, isMerged: bool, mergeMaster: Option<string>,
                               detail: Detail, isBold: bool, hasFill: bool)

  /** The index of the first merged range holding `p`, or `|merged|`. */
  function MergeIndex(merged: seq<Range>, p: Pos): (i: nat)
    ensures i <= |merged|
    ensures i < |merged| ==> InRange(merged[i], p)
    ensures forall j :: 0 <= j < i ==> !InRange(merged[j], p)
  {
    if merged == [] then 0
    else if InRange(merged[0], p) then 0
    else MergeIndex(merged[1..], p) + 1
  }

  /** `str(merged_range)`: the corner references joined by ":", or the single
      reference of a one-cell range. */
  function RangeText(r: Range): string
    requires ValidRange(r)
  {
    if r.minRow == r.maxRow && r.minCol == r.maxCol then CellRef(r.minCol, r.minRow)
    else CellRef(r.minCol, r.minRow) + ":" + CellRef(r.maxCol, r.maxRow)
  }

  /** `merged_range.coord.split(":")[0]`. */
  function MasterRef(r: Range): string
    requires ValidRange(r)
  {
    Split(RangeText(r), ':')[0]
  }

  lemma NoColonInRef(column: int, row: int)
    requires column >= 1 && row >= 1
    ensures ':' !in CellRef(column, row)
  {
    var s := CellRef(column, row);
    assert IntToString(row) == NatToString(row);
    forall k | 0 <= k < |s|
      ensures s[k] != ':'
    {
      if k >= |ColumnLetter(column)| {
        assert s[k] == NatToString(row)[k - |ColumnLetter(column)|];
      }
    }
  }

  lemma {:induction false} SplitFirst(a: string, b: string, sep: char)
    requires sep !in a
    ensures Split(a, sep)[0] == a
    ensures Split(a + [sep] + b, sep)[0] == a
  {
    if a != [] {
      SplitFirst(a[1..], b, sep);
      assert (a + [sep] + b)[1..] == a[1..] + [sep] + b;
    } else {
      assert a + [sep] + b == [sep] + b;
    }
  }

  /** The master reference is the reference of the range's top-left cell. */
  lemma MasterRefIsCorner(r: Range)
    requires ValidRange(r)
    ensures MasterRef(r) == CellRef(r.minCol, r.minRow)
  {
    NoColonInRef(r.minCol, r.minRow);
    SplitFirst(CellRef(r.minCol, r.minRow), CellRef(r.maxCol, r.maxRow), ':');
    assert CellRef(r.minCol, r.minRow) + ":" + CellRef(r.maxCol, r.maxRow)
        == CellRef(r.minCol, r.minRow) + [':'] + CellRef(r.maxCol, r.maxRow);
  }

  /** `str(value) if value else ""` for a string value. */
  function TextOf(v: Value): string {
    if v.Str? then v.s else ""
  }

  function DetailOf(cell: Cell, kind: CellType): Detail {
    match kind
    case Formula => FormulaInfo(TextOf(cell.value), DescribeFormula(TextOf(cell.value)))
    case Input => InputInfo(cell.value, GetDataType(cell), cell.numberFormat, None, None)
    case _ => TextInfo(TextOf(cell.value))
  }

  /** `_analyze_cell` at (`row`, `column`). */
  function AnalyzeCell(g: Grid, row: int, column: int, isHeaderRow: bool): Option<CellInfo>
    requires ValidGrid(g) && row >= 1 && column >= 1
  {
    var p := Pos(row, column);
    var m := MergeIndex(g.merged, p);
    if m < |g.merged| && Master(g.merged[m]) != p then None
    else
      var cell := CellAt(g, row, column);
      var kind := DetermineType(cell, column, isHeaderRow);
      if kind == Empty then None
      else
        var master := if m < |g.merged| then Some(MasterRef(g.merged[m])) else None;
        Some(CellInfo(CellRef(column, row), row, column, ColumnLetter(column), kind,
                      m < |g.merged|, master, DetailOf(cell, kind), cell.bold, cell.fillColor != "00000000"))
  }

  /** Each kind carries its own details: a formula its text and description, a
      label or header its text, an input its value, data type and number format
      and as yet no label. */
  predicate Fits(info: CellInfo) {
    info.kind != Empty
    && (info.kind == Formula ==> info.detail.FormulaInfo?)
    && (info.kind in {Label, Header} ==> info.detail.TextInfo?)
    && (info.kind == Input ==> info.detail.InputInfo?)
  }

  /** `_analyze_cell` drops a cell exactly when it lies in a merged range other
      than at that range's master, or it is EMPTY; what it keeps is typed as
      `_determine_cell_type` says, at the cell's own reference. */
  lemma AnalyzeCellNoneIff(g: Grid, row: int, column: int, isHeaderRow: bool)
    requires ValidGrid(g) && row >= 1 && column >= 1
    ensures var r := AnalyzeCell(g, row, column, isHeaderRow);
            var m := MergeIndex(g.merged, Pos(row, column));
            (r.None? <==> (m < |g.merged| && Master(g.merged[m]) != Pos(row, column))
                          || IsBlank(CellAt(g, row, column).value))
            && (r.Some? ==> r.value.kind == DetermineType(CellAt(g, row, column), column, isHeaderRow)
                            && r.value.cell == CellRef(column, row) && r.value.row == row
                            && r.value.column == column && Fits(r.value)
                            && r.value.isMerged == (m < |g.merged|))
  {
    EmptyIff(CellAt(g, row, column), column, isHeaderRow);
  }

  /** What a kept cell records: a formula its text and description, a label or
      header its text, an input its value, expected data type and number format,
      with no label yet. */
  lemma AnalyzeCellDetails(g: Grid, row: int, column: int, isHeaderRow: bool)
    requires ValidGrid(g) && row >= 1 && column >= 1
    requires AnalyzeCell(g, row, column, isHeaderRow).Some?
    ensures var info := AnalyzeCell(g, row, column, isHeaderRow).value;
            var cell := CellAt(g, row, column);
            (info.kind == Formula ==> cell.value.Str? && info.detail == FormulaInfo(cell.value.s, DescribeFormula(cell.value.s)))
            && (info.kind in {Label, Header} ==> cell.value.Str? && info.detail == TextInfo(cell.value.s))
            && (info.kind == Input ==> info.detail == InputInfo(cell.value, GetDataType(cell), cell.numberFormat, None, None))
            && info.isBold == cell.bold && info.hasFill == (cell.fillColor != "00000000")
  {
  }

  /** Merged ranges that share no cell, as Excel requires. */
  ghost predicate Disjoint(merged: seq<Range>) {
    forall i, j, p :: 0 <= i < j < |merged| && InRange(merged[i], p) ==> !InRange(merged[j], p)
  }

  /** With non-overlapping ranges, every cell of a merged range other than its
      master is dropped. */
  lemma CoveredCellDropped(g: Grid, i: int, row: int, column: int, isHeaderRow: bool)
    requires ValidGrid(g) && row >= 1 && column >= 1 && Disjoint(g.merged)
    requires 0 <= i < |g.merged| && InRange(g.merged[i], Pos(row, column))
    requires Pos(row, column) != Master(g.merged[i])
    ensures AnalyzeCell(g, row, column, isHeaderRow).None?
  {
    var p := Pos(row, column);
    var m := MergeIndex(g.merged, p);
    var rm, ri := g.merged[m], g.merged[i];
    assert m < i ==> InRange(rm, p) && !InRange(ri, p);
    assert m == i;
  }

  /** The master of a merged range is analyzed like any cell, marked as merged
      and naming itself as master. */
  lemma MasterCellKept(g: Grid, i: int, isHeaderRow: bool)
    requires ValidGrid(g) && Disjoint(g.merged) && 0 <= i < |g.merged|
    requires !IsBlank(CellAt(g, g.merged[i].minRow, g.merged[i].minCol).value)
    ensures var r := g.merged[i];
            var info := AnalyzeCell(g, r.minRow, r.minCol, isHeaderRow);
            info.Some? && info.value.isMerged && info.value.mergeMaster == Some(CellRef(r.minCol, r.minRow))
  {
    var r := g.merged[i];
    var p := Master(r);
    assert InRange(r, p);
    var m := MergeIndex(g.merged, p);
    var rm, ri := g.merged[m], g.merged[i];
    assert m < i ==> InRange(rm, p) && !InRange(ri, p);
    assert m == i;
    EmptyIff(CellAt(g, r.minRow, r.minCol), r.minCol, isHeaderRow);
    MasterRefIsCorner(r);
  }

  // ---------------------------------------------------------------------------
  // One sheet

  function Opt(r: Option<CellInfo>): seq<CellInfo> {
    if r.Some? then [r.value] else []
  }

  /** What the scan makes of the cell at a row and a column. */
  type Analysis = (int, int) -> Option<CellInfo>

  /** `_analyze_cell` on the cells of `g`, with the header rows `hdr`. */
  function CellAnalysis(g: Grid, hdr: set<int>): Analysis
    requires ValidGrid(g)
  {
    (row: int, column: int) => if row >= 1 && column >= 1 then AnalyzeCell(g, row, column, row in hdr) else None
  }

  /** What the analysis keeps of columns 1 to `upto - 1` of `row`, in order. */
  function RowInfos(an: Analysis, row: int, upto: int): seq<CellInfo>
    decreases upto
  {
    if upto <= 1 then []
    else RowInfos(an, row, upto - 1) + Opt(an(row, upto - 1))
  }

  /** What the analysis keeps of rows 1 to `upto - 1`, row by row, each over
      columns 1 to `maxCol`. */
  function SheetInfos(an: Analysis, maxCol: int, upto: int): seq<CellInfo>
    decreases upto
  {
    if upto <= 1 then []
    else SheetInfos(an, maxCol, upto - 1) + RowInfos(an, upto - 1, maxCol + 1)
  }

  /** The entries of one type, in order. */
  function OfKind(xs: seq<CellInfo>, k: CellType): seq<CellInfo> {
    if xs == [] then []
    else OfKind(xs[..|xs| - 1], k) + (if xs[|xs| - 1].kind == k then [xs[|xs| - 1]] else [])
  }

  /** The entries of one type are entries of that type, and no more than all. */
  lemma {:induction false} OfKindIn(xs: seq<CellInfo>, k: CellType)
    ensures |OfKind(xs, k)| <= |xs|
    ensures forall x :: x in OfKind(xs, k) ==> x in xs && x.kind == k
  {
    if xs != [] {
      OfKindIn(xs[..|xs| - 1], k);
    }
  }

  lemma OfKindSnoc(xs: seq<CellInfo>, x: CellInfo, k: CellType)
    ensures OfKind(xs + [x], k) == OfKind(xs, k) + (if x.kind == k then [x] else [])
  {
    assert (xs + [x])[..|xs|] == xs;
  }

  /** A kept cell of the sheet: typed with its details, inside the sheet's
      bounds, and a header only in a header row. */
  predicate Placed(g: Grid, hdr: set<int>, x: CellInfo) {
    Fits(x) && 1 <= x.row <= g.maxRow && 1 <= x.column <= g.maxCol
    && (x.kind == Header ==> x.row in hdr)
  }

  lemma {:induction false} RowInfosPlaced(g: Grid, hdr: set<int>, row: int, upto: int)
    requires ValidGrid(g) && 1 <= row <= g.maxRow && upto <= g.maxCol + 1
    ensures forall x :: x in RowInfos(CellAnalysis(g, hdr), row, upto) ==> Placed(g, hdr, x) && x.row == row
    decreases upto
  {
    if upto > 1 {
      RowInfosPlaced(g, hdr, row, upto - 1);
      AnalyzeCellNoneIff(g, row, upto - 1, row in hdr);
      var r := AnalyzeCell(g, row, upto - 1, row in hdr);
      assert CellAnalysis(g, hdr)(row, upto - 1) == r;
      if r.Some? {
        HeaderIff(CellAt(g, row, upto - 1), upto - 1, row in hdr);
      }
    }
  }

  lemma {:induction false} SheetInfosPlaced(g: Grid, hdr: set<int>, upto: int)
    requires ValidGrid(g) && upto <= g.maxRow + 1
    ensures forall x :: x in SheetInfos(CellAnalysis(g, hdr), g.maxCol, upto) ==> Placed(g, hdr, x) && x.row < upto
    decreases upto
  {
    if upto > 1 {
      SheetInfosPlaced(g, hdr, upto - 1);
      RowInfosPlaced(g, hdr, upto - 1, g.maxCol + 1);
    }
  }

  /** The entries of the four types together are all there are: every kept
      cell lands in exactly one list. */
  lemma {:induction false} KindsPartition(xs: seq<CellInfo>)
    requires forall x :: x in xs ==> x.kind != Empty
    ensures |OfKind(xs, Formula)| + |OfKind(xs, Input)| + |OfKind(xs, Label)| + |OfKind(xs, Header)| == |xs|
  {
    if xs != [] {
      KindsPartition(xs[..|xs| - 1]);
    }
  }

  // ---------------------------------------------------------------------------
  // Label association

  predicate TextEntries(xs: seq<CellInfo>) {
    forall i :: 0 <= i < |xs| ==> xs[i].detail.TextInfo?
  }

  predicate InputEntries(xs: seq<CellInfo>) {
    forall i :: 0 <= i < |xs| ==> xs[i].detail.InputInfo?
  }

  predicate At(x: CellInfo, row: int, column: int) {
    x.row == row && x.column == column
  }

  /** `_find_label_at`: the position of the first label at (`row`, `column`),
      or `|labels|` for `None`. */
  function FindLabelAt(labels: seq<CellInfo>, row: int, column: int): (i: nat)
    ensures i <= |labels|
    ensures i < |labels| ==> At(labels[i], row, column)
    ensures forall j :: 0 <= j < i ==> !At(labels[j], row, column)
  {
    if labels == [] then 0
    else if At(labels[0], row, column) then 0
    else FindLabelAt(labels[1..], row, column) + 1
  }

  /** The `next(...)` over the headers: the first header in `column`, or
      `|headers|`. */
  function FirstInColumn(headers: seq<CellInfo>, column: int): (i: nat)
    ensures i <= |headers|
    ensures i < |headers| ==> headers[i].column == column
    ensures forall j :: 0 <= j < i ==> headers[j].column != column
  {
    if headers == [] then 0
    else if headers[0].column == column then 0
    else FirstInColumn(headers[1..], column) + 1
  }

  /** `field["label"]` and `field["label_cell"]` taken from `source`. */
  function WithLabel(field: CellInfo, source: CellInfo): CellInfo
    requires field.detail.InputInfo? && source.detail.TextInfo?
  {
    field.(detail := field.detail.(fieldLabel := Some(source.detail.text), labelCell := Some(source.cell)))
  }

  /** One pass of the loop of `_associate_labels`: the label to the left, else
      the label above, else the first header of the column; a field with none
      of them is left as it is. Nothing but the label and its cell changes. */
  function Associated(field: CellInfo, labels: seq<CellInfo>, headers: seq<CellInfo>): (r: CellInfo)
    requires field.detail.InputInfo? && TextEntries(labels) && TextEntries(headers)
    ensures r.detail.InputInfo?
    ensures r.(detail := field.detail) == field
    ensures r.detail.(fieldLabel := field.detail.fieldLabel, labelCell := field.detail.labelCell) == field.detail
  {
    var left := FindLabelAt(labels, field.row, field.column - 1);
    if left < |labels| then WithLabel(field, labels[left])
    else
      var above := FindLabelAt(labels, field.row - 1, field.column);
      if above < |labels| then WithLabel(field, labels[above])
      else
        var h := FirstInColumn(headers, field.column);
        if h < |headers| then WithLabel(field, headers[h]) else field
  }

  /** The label immediately to the left wins, whatever lies above or heads the
      column; of several labels there the first is taken. */
  lemma LeftLabelFirst(field: CellInfo, labels: seq<CellInfo>, headers: seq<CellInfo>, i: int)
    requires field.detail.InputInfo? && TextEntries(labels) && TextEntries(headers)
    requires 0 <= i < |labels| && At(labels[i], field.row, field.column - 1)
    requires forall j :: 0 <= j < i ==> !At(labels[j], field.row, field.column - 1)
    ensures Associated(field, labels, headers).detail.fieldLabel == Some(labels[i].detail.text)
    ensures Associated(field, labels, headers).detail.labelCell == Some(labels[i].cell)
  {
    var left := FindLabelAt(labels, field.row, field.column - 1);
    assert left == i;
  }

  /** Without a label to the left, the first label immediately above is taken,
      whatever heads the column. */
  lemma AboveLabelSecond(field: CellInfo, labels: seq<CellInfo>, headers: seq<CellInfo>, i: int)
    requires field.detail.InputInfo? && TextEntries(labels) && TextEntries(headers)
    requires forall j :: 0 <= j < |labels| ==> !At(labels[j], field.row, field.column - 1)
    requires 0 <= i < |labels| && At(labels[i], field.row - 1, field.column)
    requires forall j :: 0 <= j < i ==> !At(labels[j], field.row - 1, field.column)
    ensures Associated(field, labels, headers).detail.fieldLabel == Some(labels[i].detail.text)
    ensures Associated(field, labels, headers).detail.labelCell == Some(labels[i].cell)
  {
    var above := FindLabelAt(labels, field.row - 1, field.column);
    assert above == i;
  }

  /** With no label to the left or above, the first header in the same column
      is taken. */
  lemma ColumnHeaderThird(field: CellInfo, labels: seq<CellInfo>, headers: seq<CellInfo>, i: int)
    requires field.detail.InputInfo? && TextEntries(labels) && TextEntries(headers)
    requires forall j :: 0 <= j < |labels| ==> !At(labels[j], field.row, field.column - 1)
    requires forall j :: 0 <= j < |labels| ==> !At(labels[j], field.row - 1, field.column)
    requires 0 <= i < |headers| && headers[i].column == field.column
    requires forall j :: 0 <= j < i ==> headers[j].column != field.column
    ensures Associated(field, labels, headers).detail.fieldLabel == Some(headers[i].detail.text)
    ensures Associated(field, labels, headers).detail.labelCell == Some(headers[i].cell)
  {
    var h := FirstInColumn(headers, field.column);
    assert h == i;
  }

  /** With none of the three, the field is unchanged. */
  lemma NoLabelUnchanged(field: CellInfo, labels: seq<CellInfo>, headers: seq<CellInfo>)
    requires field.detail.InputInfo? && TextEntries(labels) && TextEntries(headers)
    requires forall j :: 0 <= j < |labels| ==> !At(labels[j], field.row, field.column - 1)
    requires forall j :: 0 <= j < |labels| ==> !At(labels[j], field.row - 1, field.column)
    requires forall j :: 0 <= j < |headers| ==> headers[j].column != field.column
    ensures Associated(field, labels, headers) == field
  {
  }

  /** A label the association sets always comes from a label to the left, a
      label above, or a header of the same column. */
  lemma LabelHasSource(field: CellInfo, labels: seq<CellInfo>, headers: seq<CellInfo>)
    requires field.detail.InputInfo? && TextEntries(labels) && TextEntries(headers)
    requires Associated(field, labels, headers).detail.labelCell != field.detail.labelCell
    ensures var c := Associated(field, labels, headers).detail.labelCell;
            (exists j :: 0 <= j < |labels| && At(labels[j], field.row, field.column - 1) && c == Some(labels[j].cell))
            || (exists j :: 0 <= j < |labels| && At(labels[j], field.row - 1, field.column) && c == Some(labels[j].cell))
            || (exists j :: 0 <= j < |headers| && headers[j].column == field.column && c == Some(headers[j].cell))
  {
  }

  function AssociatedAll(fields: seq<CellInfo>, labels: seq<CellInfo>, headers: seq<CellInfo>): (r: seq<CellInfo>)
    requires InputEntries(fields) && TextEntries(labels) && TextEntries(headers)
    ensures |r| == |fields|
  {
    seq(|fields|, i requires 0 <= i < |fields| => Associated(fields[i], labels, headers))
  }

  /** `_associate_labels`: every field gets its label in place. */
  method AssociateLabels(fields: seq<CellInfo>, labels: seq<CellInfo>, headers: seq<CellInfo>)
    returns (r: seq<CellInfo>)
    requires InputEntries(fields) && TextEntries(labels) && TextEntries(headers)
    ensures r == AssociatedAll(fields, labels, headers)
  {
    r := fields;
    for i := 0 to |fields|
      invariant |r| == |fields|
      invariant forall j :: 0 <= j < i ==> r[j] == Associated(fields[j], labels, headers)
      invariant forall j :: i <= j < |r| ==> r[j] == fields[j]
    {
      r := r[i := Associated(r[i], labels, headers)];
    }
  }

  // ---------------------------------------------------------------------------
  // The sheet schema

  datatype MergedRegion = MergedRegion(range: string, startCell: string)

  /** The part of `_analyze_sheet`'s dictionary the model keeps. */
  datatype SheetSchema = SheetSchema(name: string, maxRow: nat, maxCol: nat,
                                     inputFields: seq<CellInfo>, formulaFields: seq<CellInfo>,
                                     labels: seq<CellInfo>, headers: seq<CellInfo>,
                                     mergedRegions: seq<MergedRegion>)

  function RegionOf(r: Range): MergedRegion
    requires ValidRange(r)
  {
    MergedRegion(RangeText(r), MasterRef(r))
  }

  /** Everything `_analyze_cell` keeps of the sheet, in row-major order. */
  function SheetCells(g: Grid): seq<CellInfo>
    requires ValidGrid(g)
  {
    SheetInfos(CellAnalysis(g, HeaderRowSet(g)), g.maxCol, g.maxRow + 1)
  }

  /** The schema `_analyze_sheet` returns. */
  function SheetSchemaOf(g: Grid): SheetSchema
    requires ValidGrid(g)
  {
    var cells := SheetCells(g);
    SheetInfosPlaced(g, HeaderRowSet(g), g.maxRow + 1);
    OfKindIn(cells, Input);
    OfKindIn(cells, Label);
    OfKindIn(cells, Header);
    var labels := OfKind(cells, Label);
    var headers := OfKind(cells, Header);
    SheetSchema(g.title, g.maxRow, g.maxCol,
                AssociatedAll(OfKind(cells, Input), labels, headers), OfKind(cells, Formula),
                labels, headers,
                Regions(g))
  }

  /** The `merged_regions` entry of the schema, one per range. */
  function Regions(g: Grid): seq<MergedRegion>
    requires ValidGrid(g)
  {
    seq(|g.merged|, i requires 0 <= i < |g.merged| => RegionOf(g.merged[i]))
  }

  /** The four lists of `_analyze_sheet` after the cells `all`. */
  predicate Listed(all: seq<CellInfo>, inputs: seq<CellInfo>, formulas: seq<CellInfo>, labels: seq<CellInfo>, headers: seq<CellInfo>) {
    (inputs, formulas, labels, headers) == (OfKind(all, Input), OfKind(all, Formula), OfKind(all, Label), OfKind(all, Header))
  }

  /** One cell of the loop of `_analyze_sheet`: a kept cell goes to the list of
      its type. */
  method Categorize(info: Option<CellInfo>, ghost seen: seq<CellInfo>,
                    inputs: seq<CellInfo>, formulas: seq<CellInfo>, labels: seq<CellInfo>, headers: seq<CellInfo>)
    returns (inputs': seq<CellInfo>, formulas': seq<CellInfo>, labels': seq<CellInfo>, headers': seq<CellInfo>)
    requires Listed(seen, inputs, formulas, labels, headers)
    ensures Listed(seen + Opt(info), inputs', formulas', labels', headers')
  {
    inputs', formulas', labels', headers' := inputs, formulas, labels, headers;
    if info.Some? {
      var x := info.value;
      assert seen + Opt(info) == seen + [x];
      OfKindSnoc(seen, x, Input);
      OfKindSnoc(seen, x, Formula);
      OfKindSnoc(seen, x, Label);
      OfKindSnoc(seen, x, Header);
      match x.kind {
        case Formula => formulas' := formulas + [x];
        case Input => inputs' := inputs + [x];
        case Header => headers' := headers + [x];
        case Label => labels' := labels + [x];
        case Empty =>
      }
      assert inputs' == OfKind(seen + [x], Input);
      assert formulas' == OfKind(seen + [x], Formula);
      assert labels' == OfKind(seen + [x], Label);
      assert headers' == OfKind(seen + [x], Header);
    } else {
      assert seen + Opt(info) == seen;
    }
  }

  /** The loop of `_analyze_sheet` over `merged_cells.ranges`. */
  method MergedRegions(g: Grid) returns (regions: seq<MergedRegion>)
    requires ValidGrid(g)
    ensures regions == Regions(g)
  {
    regions := [];
    for i := 0 to |g.merged|
      invariant |regions| == i
      invariant forall k :: 0 <= k < i ==> regions[k] == RegionOf(g.merged[k])
    {
      regions := regions + [RegionOf(g.merged[i])];
    }
  }

  /** What the analysis keeps before `(row, col)` in the scan order: rows 1 to
      `row - 1` in full, then columns 1 to `col - 1` of `row`. */
  function ScanPrefix(an: Analysis, maxCol: int, row: int, col: int): seq<CellInfo>
    decreases col
  {
    if col <= 1 then SheetInfos(an, maxCol, row)
    else ScanPrefix(an, maxCol, row, col - 1) + Opt(an(row, col - 1))
  }

  lemma {:induction false} ScanPrefixIs(an: Analysis, maxCol: int, row: int, col: int)
    ensures ScanPrefix(an, maxCol, row, col) == SheetInfos(an, maxCol, row) + RowInfos(an, row, col)
    decreases col
  {
    if col > 1 {
      ScanPrefixIs(an, maxCol, row, col - 1);
    } else {
      assert SheetInfos(an, maxCol, row) + [] == SheetInfos(an, maxCol, row);
    }
  }

  /** Scanning row `row` to its last column completes that row. */
  lemma RowScanned(an: Analysis, maxCol: int, row: int)
    requires row >= 1
    ensures ScanPrefix(an, maxCol, row, maxCol + 1) == SheetInfos(an, maxCol, row + 1)
  {
    ScanPrefixIs(an, maxCol, row, maxCol + 1);
  }

  /** The inner loop of `_analyze_sheet`: the cells of one row. */
  method ScanRow(an: Analysis, row: int, maxCol: nat,
                 inputs: seq<CellInfo>, formulas: seq<CellInfo>, labels: seq<CellInfo>, headers: seq<CellInfo>)
    returns (inputs': seq<CellInfo>, formulas': seq<CellInfo>, labels': seq<CellInfo>, headers': seq<CellInfo>)
    requires row >= 1
    requires Listed(SheetInfos(an, maxCol, row), inputs, formulas, labels, headers)
    ensures Listed(SheetInfos(an, maxCol, row + 1), inputs', formulas', labels', headers')
  {
    inputs', formulas', labels', headers' := inputs, formulas, labels, headers;
    var col := 1;
    while col <= maxCol
      invariant 1 <= col <= maxCol + 1
      invariant Listed(ScanPrefix(an, maxCol, row, col), inputs', formulas', labels', headers')
    {
      inputs', formulas', labels', headers' := ScanCell(an, maxCol, row, col, inputs', formulas', labels', headers');
      col := col + 1;
    }
    RowScanned(an, maxCol, row);
  }

  /** One pass of the column loop: the cell at `(row, col)` is categorized. */
  method ScanCell(an: Analysis, maxCol: int, row: int, col: int,
                  inputs: seq<CellInfo>, formulas: seq<CellInfo>, labels: seq<CellInfo>, headers: seq<CellInfo>)
    returns (inputs': seq<CellInfo>, formulas': seq<CellInfo>, labels': seq<CellInfo>, headers': seq<CellInfo>)
    requires col >= 1
    requires Listed(ScanPrefix(an, maxCol, row, col), inputs, formulas, labels, headers)
    ensures Listed(ScanPrefix(an, maxCol, row, col + 1), inputs', formulas', labels', headers')
  {
    var info := an(row, col);
    inputs', formulas', labels', headers' := Categorize(info, ScanPrefix(an, maxCol, row, col), inputs, formulas, labels, headers);
  }

  /** The two loops of `_analyze_sheet` over rows and columns. */
  method ScanCells(an: Analysis, maxRow: nat, maxCol: nat)
    returns (inputs: seq<CellInfo>, formulas: seq<CellInfo>, labels: seq<CellInfo>, headers: seq<CellInfo>)
    ensures var all := SheetInfos(an, maxCol, maxRow + 1);
            inputs == OfKind(all, Input) && formulas == OfKind(all, Formula)
            && labels == OfKind(all, Label) && headers == OfKind(all, Header)
  {
    inputs, formulas, labels, headers := [], [], [], [];
    var row := 1;
    while row <= maxRow
      invariant 1 <= row <= maxRow + 1
      invariant Listed(SheetInfos(an, maxCol, row), inputs, formulas, labels, headers)
    {
      inputs, formulas, labels, headers := ScanRow(an, row, maxCol, inputs, formulas, labels, headers);
      row := row + 1;
    }
  }

  /** `_analyze_sheet`. */
  method AnalyzeSheet(g: Grid) returns (schema: SheetSchema)
    requires ValidGrid(g)
    ensures schema == SheetSchemaOf(g)
  {
    var regions := MergedRegions(g);
    var hdr := DetectHeaderRows(g);
    var inputs, formulas, labels, headers := ScanCells(CellAnalysis(g, hdr), g.maxRow, g.maxCol);
    SheetInfosPlaced(g, hdr, g.maxRow + 1);
    ListsOfPlaced(g, hdr, SheetInfos(CellAnalysis(g, hdr), g.maxCol, g.maxRow + 1));
    inputs := AssociateLabels(inputs, labels, headers);
    schema := SheetSchema(g.title, g.maxRow, g.maxCol, inputs, formulas, labels, headers, regions);
  }

  /** Sorting placed cells by type: each list holds placed cells of its own
      type, the labelled inputs keep their type and position, and the four lists
      together are as long as the cells. */
  lemma {:induction false} ListsOfPlaced(g: Grid, hdr: set<int>, cells: seq<CellInfo>)
    requires forall x :: x in cells ==> Placed(g, hdr, x)
    ensures InputEntries(OfKind(cells, Input)) && TextEntries(OfKind(cells, Label)) && TextEntries(OfKind(cells, Header))
    ensures var labels := OfKind(cells, Label);
            var headers := OfKind(cells, Header);
            var ins := AssociatedAll(OfKind(cells, Input), labels, headers);
            (forall x :: x in OfKind(cells, Formula) ==> x.kind == Formula && Placed(g, hdr, x))
            && (forall x :: x in labels ==> x.kind == Label && Placed(g, hdr, x))
            && (forall x :: x in headers ==> x.kind == Header && x.row in hdr && Placed(g, hdr, x))
            && (forall i :: 0 <= i < |ins| ==>
                  (ins[i].kind == Input && 1 <= ins[i].row <= g.maxRow && 1 <= ins[i].column <= g.maxCol))
            && |ins| + |OfKind(cells, Formula)| + |labels| + |headers| == |cells|
  {
    KindsPartition(cells);
    OfKindIn(cells, Input);
    OfKindIn(cells, Formula);
    OfKindIn(cells, Label);
    OfKindIn(cells, Header);
    var labels := OfKind(cells, Label);
    var headers := OfKind(cells, Header);
    var fields := OfKind(cells, Input);
    var ins := AssociatedAll(fields, labels, headers);
    forall i | 0 <= i < |ins|
      ensures ins[i].kind == Input && 1 <= ins[i].row <= g.maxRow && 1 <= ins[i].column <= g.maxCol
    {
      assert fields[i] in fields;
      assert ins[i] == Associated(fields[i], labels, headers);
    }
  }

  /** Every cell the sheet schema lists lies inside the sheet, is listed under
      its own type with that type's details, a header only in a header row; and
      the four lists together hold every cell `_analyze_cell` kept. */
  lemma SchemaListsCells(g: Grid)
    requires ValidGrid(g)
    ensures var s := SheetSchemaOf(g);
            (forall x :: x in s.formulaFields ==> x.kind == Formula && Placed(g, HeaderRowSet(g), x))
            && (forall x :: x in s.labels ==> x.kind == Label && Placed(g, HeaderRowSet(g), x))
            && (forall x :: x in s.headers ==> x.kind == Header && x.row in HeaderRowSet(g) && Placed(g, HeaderRowSet(g), x))
            && (forall i :: 0 <= i < |s.inputFields| ==>
                  (s.inputFields[i].kind == Input
                   && 1 <= s.inputFields[i].row <= g.maxRow && 1 <= s.inputFields[i].column <= g.maxCol))
            && |s.inputFields| + |s.formulaFields| + |s.labels| + |s.headers| == |SheetCells(g)|
  {
    SheetInfosPlaced(g, HeaderRowSet(g), g.maxRow + 1);
    ListsOfPlaced(g, HeaderRowSet(g), SheetCells(g));
  }

  /** The merged-region list names every range with its top-left cell as
      `start_cell`. */
  lemma RegionsStartAtMaster(g: Grid)
    requires ValidGrid(g)
    ensures var s := SheetSchemaOf(g);
            |s.mergedRegions| == |g.merged|
            && forall i :: 0 <= i < |g.merged| ==>
                 s.mergedRegions[i].startCell == CellRef(g.merged[i].minCol, g.merged[i].minRow)
  {
    forall i | 0 <= i < |g.merged| {
      MasterRefIsCorner(g.merged[i]);
    }
  }

  // ---------------------------------------------------------------------------
  // Summary and the whole workbook

  datatype SheetCounts = SheetCounts(name: string, inputFields: nat, formulaFields: nat, labels: nat)

  datatype Summary = Summary(totalInputFields: nat, totalFormulaFields: nat, totalLabels: nat,
                             sheets: seq<SheetCounts>)

  function CountsOf(s: SheetSchema): SheetCounts {
    SheetCounts(s.name, |s.inputFields|, |s.formulaFields|, |s.labels|)
  }

  function InputsOf(s: SheetSchema): seq<CellInfo> { s.inputFields }
  function FormulasOf(s: SheetSchema): seq<CellInfo> { s.formulaFields }
  function LabelsOf(s: SheetSchema): seq<CellInfo> { s.labels }

  /** The number of entries of one list over all sheets. */
  function Total(sheets: seq<SheetSchema>, part: SheetSchema -> seq<CellInfo>): nat {
    if sheets == [] then 0
    else Total(sheets[..|sheets| - 1], part) + |part(sheets[|sheets| - 1])|
  }

  /** One list of every sheet, concatenated in sheet order. */
  function Flatten(sheets: seq<SheetSchema>, part: SheetSchema -> seq<CellInfo>): seq<CellInfo> {
    if sheets == [] then []
    else Flatten(sheets[..|sheets| - 1], part) + part(sheets[|sheets| - 1])
  }

  /** A total is the length of the concatenated lists. */
  lemma {:induction false} TotalIsFlattenLength(sheets: seq<SheetSchema>, part: SheetSchema -> seq<CellInfo>)
    ensures Total(sheets, part) == |Flatten(sheets, part)|
  {
    if sheets != [] {
      TotalIsFlattenLength(sheets[..|sheets| - 1], part);
    }
  }

  /** Totals add up over a split of the sheets. */
  lemma {:induction false} TotalSplits(a: seq<SheetSchema>, b: seq<SheetSchema>, part: SheetSchema -> seq<CellInfo>)
    ensures Total(a + b, part) == Total(a, part) + Total(b, part)
    decreases |b|
  {
    if b == [] {
      assert a + b == a;
    } else {
      var init := b[..|b| - 1];
      assert (a + b)[..|a + b| - 1] == a + init;
      TotalSplits(a, init, part);
    }
  }

  /** `_generate_summary`. */
  method GenerateSummary(sheets: seq<SheetSchema>) returns (r: Summary)
    ensures |r.sheets| == |sheets|
    ensures forall i :: 0 <= i < |sheets| ==> r.sheets[i] == CountsOf(sheets[i])
    ensures r.totalInputFields == Total(sheets, InputsOf)
    ensures r.totalFormulaFields == Total(sheets, FormulasOf)
    ensures r.totalLabels == Total(sheets, LabelsOf)
  {
    var totalInput, totalFormula, totalLabels := 0, 0, 0;
    var counts: seq<SheetCounts> := [];
    for i := 0 to |sheets|
      invariant |counts| == i
      invariant forall k :: 0 <= k < i ==> counts[k] == CountsOf(sheets[k])
      invariant totalInput == Total(sheets[..i], InputsOf)
      invariant totalFormula == Total(sheets[..i], FormulasOf)
      invariant totalLabels == Total(sheets[..i], LabelsOf)
    {
      assert sheets[..i + 1][..i] == sheets[..i];
      var sheet := sheets[i];
      var inputCount, formulaCount, labelCount := |sheet.inputFields|, |sheet.formulaFields|, |sheet.labels|;
      totalInput := totalInput + inputCount;
      totalFormula := totalFormula + formulaCount;
      totalLabels := totalLabels + labelCount;
      counts := counts + [SheetCounts(sheet.name, inputCount, formulaCount, labelCount)];
    }
    assert sheets[..|sheets|] == sheets;
    r := Summary(totalInput, totalFormula, totalLabels, counts);
  }

  /** The schema `analyze` returns on success. */
  datatype Schema = Schema(sheetCount: nat, sheets: seq<SheetSchema>, summary: Summary)

  /** `analyze` on a loaded workbook: one schema per sheet, in order, and the
      summary over them. */
  method Analyze(book: seq<Grid>) returns (schema: Schema)
    requires forall i :: 0 <= i < |book| ==> ValidGrid(book[i])
    ensures schema.sheetCount == |book| && |schema.sheets| == |book|
    ensures forall i :: 0 <= i < |book| ==> schema.sheets[i] == SheetSchemaOf(book[i])
    ensures |schema.summary.sheets| == |book|
    ensures forall i :: 0 <= i < |book| ==> schema.summary.sheets[i] == CountsOf(schema.sheets[i])
    ensures schema.summary.totalInputFields == Total(schema.sheets, InputsOf)
    ensures schema.summary.totalFormulaFields == Total(schema.sheets, FormulasOf)
    ensures schema.summary.totalLabels == Total(schema.sheets, LabelsOf)
  {
    var sheets: seq<SheetSchema> := [];
    for i := 0 to |book|
      invariant |sheets| == i
      invariant forall k :: 0 <= k < i ==> sheets[k] == SheetSchemaOf(book[k])
    {
      var sheet := AnalyzeSheet(book[i]);
      sheets := sheets + [sheet];
    }
    var summary := GenerateSummary(sheets);
    schema := Schema(|book|, sheets, summary);
  }
}
