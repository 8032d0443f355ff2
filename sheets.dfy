/** The part of an openpyxl worksheet the template filler touches: cell values
    addressed by column letters and row number, and `delete_rows`. Also the fill
    report the filler accumulates. */
module Sheets {
  import opened Wrappers
  import opened Strings
  import opened JsonPath

  /** A cell value. `Empty` is openpyxl's `None`. */
  datatype CellValue = Empty | Str(s: string) | Int(i: int) | Real(r: real) | Bool(b: bool)

  /** A cell address; the column is in upper case. */
  datatype Coord = Coord(column: string, row: int)

  /** A formula is a string starting with "=". */
  predicate IsFormula(v: CellValue) {
    v.Str? && |v.s| > 0 && v.s[0] == '='
  }

  /** The value at `c`; a cell never written is empty. */
  function At(cells: map<Coord, CellValue>, c: Coord): CellValue {
    if c in cells then cells[c] else Empty
  }

  /** One to three ASCII letters. */
  predicate ValidColumn(column: string) {
    1 <= |column| <= 3 && forall k :: 0 <= k < |column| ==> IsLetter(column[k])
  }

  function LetterRun(s: string): (r: string)
    ensures |r| <= |s| && r == s[..|r|]
    ensures forall k :: 0 <= k < |r| ==> IsLetter(r[k])
    ensures |r| < |s| ==> !IsLetter(s[|r|])
  {
    if s != [] && IsLetter(s[0]) then [s[0]] + LetterRun(s[1..]) else []
  }

  /** `sheet[ref]` for a reference such as "B12": one to three letters, then a
      row number of at least 1; `None` where openpyxl raises. */
  function ParseCellRef(ref: string): (r: Option<Coord>)
    ensures r.Some? ==> ValidColumn(r.value.column)
    ensures r.Some? ==> r.value.row >= 1
  {
    var letters := LetterRun(ref);
    var digits := ref[|letters|..];
    if ValidColumn(letters) && digits != [] && AllDigits(digits) && Decimal(digits) >= 1 then
      Some(Coord(Upper(letters), Decimal(digits)))
    else None
  }

  lemma {:induction false} LetterRunOf(w: string, t: string)
    requires forall k :: 0 <= k < |w| ==> IsLetter(w[k])
    requires t == [] || !IsLetter(t[0])
    ensures LetterRun(w + t) == w
  {
    if w != [] {
      LetterRunOf(w[1..], t);
      assert (w + t)[1..] == w[1..] + t;
    }
  }

  /** The reference `column + str(row)` built by the array filler names row
      `row` of the upper-cased column. */
  lemma CellRefOf(column: string, row: int)
    requires ValidColumn(column) && row >= 1
    ensures ParseCellRef(column + IntToString(row)) == Some(Coord(Upper(column), row))
  {
    var digits := NatToString(row);
    var ref := column + digits;
    assert IntToString(row) == digits;
    assert !IsLetter(digits[0]);
    LetterRunOf(column, digits);
    assert ref[|column|..] == digits;
    DecimalOfNatToString(row);
  }

  /** The cell whose value lands at `c` when rows `first` to
      `first + amount - 1` are deleted. */
  function DeletionSource(c: Coord, first: int, amount: nat): Coord {
    if c.row < first then c else Coord(c.column, c.row + amount)
  }

  /** The cells that hold a value after the deletion. */
  function DeletionDomain(cells: map<Coord, CellValue>, first: int, amount: nat): set<Coord> {
    (set c | c in cells && c.row < first)
    + (set c | c in cells && c.row >= first + amount :: Coord(c.column, c.row - amount))
  }

  /** `ws.delete_rows(first, amount)`: the rows `first` to `first + amount - 1`
      disappear and every row below moves up by `amount`. */
  function RowsDeleted(cells: map<Coord, CellValue>, first: int, amount: nat): map<Coord, CellValue> {
    map c | c in DeletionDomain(cells, first, amount) :: At(cells, DeletionSource(c, first, amount))
  }

  /** After deleting, a row above `first` is unchanged and every other row holds
      what was `amount` rows further down. */
  lemma RowsDeletedAt(cells: map<Coord, CellValue>, first: int, amount: nat, c: Coord)
    ensures At(RowsDeleted(cells, first, amount), c) ==
            if c.row < first then At(cells, c) else At(cells, Coord(c.column, c.row + amount))
  {
    if c.row >= first {
      var src := DeletionSource(c, first, amount);
      if src in cells {
        assert Coord(src.column, src.row - amount) == c;
      }
    }
  }

  /** A decoded JSON value as a cell value; `None` for lists and objects, which
      openpyxl refuses. */
  function ToCell(v: Json): (r: Option<CellValue>)
    ensures r.None? <==> v.JArray? || v.JObject?
    ensures v.JNull? ==> r == Some(Empty)
    ensures v.JStr? ==> r == Some(Str(v.s))
  {
    match v
    case JNull => Some(Empty)
    case JBool(b) => Some(Bool(b))
    case JInt(i) => Some(Int(i))
    case JReal(r) => Some(Real(r))
    case JStr(s) => Some(Str(s))
    case JArray(_) => None
    case JObject(_) => None
  }

  /** A worksheet: its title and its cells. */
  class Sheet {
    const title: string
    var cells: map<Coord, CellValue>

    constructor(title: string, cells: map<Coord, CellValue>)
      ensures this.title == title && this.cells == cells
    {
      this.title := title;
      this.cells := cells;
    }

    function Value(c: Coord): CellValue
      reads this
    {
      At(cells, c)
    }

    /** `cell.value = v`. */
    method SetValue(c: Coord, v: CellValue)
      modifies this
      ensures cells == old(cells)[c := v]
    {
      cells := cells[c := v];
    }

    /** `delete_rows(first, amount)`. */
    method DeleteRows(first: int, amount: nat)
      modifies this
      ensures cells == RowsDeleted(old(cells), first, amount)
    {
      cells := RowsDeleted(cells, first, amount);
    }
  }

  // ---------------------------------------------------------------------------
  // The fill report

  datatype Status = Filled | Skipped | External | Failed

  /** One entry of the report: its status, sheet, cell reference, label, and the
      value written (filled), the notes (external), or the reason (skipped,
      failed). */
  datatype FillResult = FillResult(status: Status, sheet: string, cell: Json, fieldLabel: Json, detail: Json)

  /** The four lists of the report. */
  datatype ReportLists = ReportLists(filled: seq<FillResult>, skipped: seq<FillResult>,
                                     external: seq<FillResult>, errors: seq<FillResult>)

  datatype Summary = Summary(totalFilled: nat, totalSkipped: nat, totalExternal: nat, totalErrors: nat)

  /** `_add_to_report`: the result, tagged with its sheet, appended to the list of
      its status. */
  function Added(lists: ReportLists, sheetName: string, result: FillResult): (r: ReportLists)
    ensures Size(r) == Size(lists) + 1
  {
    var entry := result.(sheet := sheetName);
    match result.status
    case Filled => lists.(filled := lists.filled + [entry])
    case Skipped => lists.(skipped := lists.skipped + [entry])
    case External => lists.(external := lists.external + [entry])
    case Failed => lists.(errors := lists.errors + [entry])
  }

  function Size(lists: ReportLists): nat {
    |lists.filled| + |lists.skipped| + |lists.external| + |lists.errors|
  }

  /** Every entry of each list carries that list's status. */
  predicate Partitioned(lists: ReportLists) {
    (forall i :: 0 <= i < |lists.filled| ==> lists.filled[i].status == Filled)
    && (forall i :: 0 <= i < |lists.skipped| ==> lists.skipped[i].status == Skipped)
    && (forall i :: 0 <= i < |lists.external| ==> lists.external[i].status == External)
    && (forall i :: 0 <= i < |lists.errors| ==> lists.errors[i].status == Failed)
  }

  /** The summary `fill` attaches: one total per list. */
  function SummaryOf(lists: ReportLists): (r: Summary)
    ensures r.totalFilled + r.totalSkipped + r.totalExternal + r.totalErrors == Size(lists)
  {
    Summary(|lists.filled|, |lists.skipped|, |lists.external|, |lists.errors|)
  }

  /** A sequence of results added one by one. */
  function AddedAll(lists: ReportLists, sheetName: string, results: seq<FillResult>): ReportLists {
    if results == [] then lists
    else Added(AddedAll(lists, sheetName, results[..|results| - 1]), sheetName, results[|results| - 1])
  }

  /** Adding results keeps every entry in the list of its status, and the totals
      grow by exactly the number of results added, each in the total of its
      status. */
  lemma {:induction false} AddedAllPartition(lists: ReportLists, sheetName: string, results: seq<FillResult>)
    requires Partitioned(lists)
    ensures Partitioned(AddedAll(lists, sheetName, results))
    ensures Size(AddedAll(lists, sheetName, results)) == Size(lists) + |results|
    ensures |AddedAll(lists, sheetName, results).filled| == |lists.filled| + CountStatus(results, Filled)
    ensures |AddedAll(lists, sheetName, results).skipped| == |lists.skipped| + CountStatus(results, Skipped)
    ensures |AddedAll(lists, sheetName, results).external| == |lists.external| + CountStatus(results, External)
    ensures |AddedAll(lists, sheetName, results).errors| == |lists.errors| + CountStatus(results, Failed)
  {
    if results != [] {
      var init := results[..|results| - 1];
      AddedAllPartition(lists, sheetName, init);
      AddedOne(AddedAll(lists, sheetName, init), sheetName, results[|results| - 1]);
    }
  }

  /** One result lands in the list of its status and in no other. */
  lemma AddedOne(lists: ReportLists, sheetName: string, result: FillResult)
    requires Partitioned(lists)
    ensures var r := Added(lists, sheetName, result);
            Partitioned(r)
            && |r.filled| == |lists.filled| + (if result.status == Filled then 1 else 0)
            && |r.skipped| == |lists.skipped| + (if result.status == Skipped then 1 else 0)
            && |r.external| == |lists.external| + (if result.status == External then 1 else 0)
            && |r.errors| == |lists.errors| + (if result.status == Failed then 1 else 0)
  {
  }

  function CountStatus(results: seq<FillResult>, s: Status): nat {
    if results == [] then 0
    else CountStatus(results[..|results| - 1], s) + (if results[|results| - 1].status == s then 1 else 0)
  }

  /** The report object `fill` builds. */
  class FillReport {
    var filled: seq<FillResult>
    var skipped: seq<FillResult>
    var external: seq<FillResult>
    var errors: seq<FillResult>

    constructor()
      ensures filled == [] && skipped == [] && external == [] && errors == []
    {
      filled, skipped, external, errors := [], [], [], [];
    }

    function Lists(): ReportLists
      reads this
    {
      ReportLists(filled, skipped, external, errors)
    }

    /** `_add_to_report`. */
    method AddToReport(sheetName: string, result: FillResult)
      modifies this
      ensures Lists() == Added(old(Lists()), sheetName, result)
    {
      var entry := result.(sheet := sheetName);
      match result.status {
        case Filled => filled := filled + [entry];
        case Skipped => skipped := skipped + [entry];
        case External => external := external + [entry];
        case Failed => errors := errors + [entry];
      }
    }

    /** The `summary` entry of the report. */
    function Summarize(): Summary
      reads this
    {
      SummaryOf(Lists())
    }
  }
}
