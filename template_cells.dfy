/** What the XLSX template analyzer decides about one cell: its type (formula,
    input, label, header or empty), the data type an input cell expects, how a
    formula is described, and the column letters of its reference. */
module TemplateCells {
  import opened Wrappers
  import opened Strings
  import Sheets

  /** A cell value as openpyxl returns it: nothing, text, an integer, a float, a
      boolean, or a date/time (kept as its ISO text). */
  datatype Value = Blank | Str(s: string) | Int(i: int) | Float(r: real) | Bool(b: bool) | Moment(iso: string)

  /** The attributes of a cell the analyzer reads. `isDate` is openpyxl's
      `is_date`; `fillColor` is the RGB text of the fill's foreground colour. */
  datatype Cell = Cell(value: Value, bold: bool, numberFormat: string, isDate: bool, fillColor: string)

  /** A cell openpyxl creates on demand: no value, default font, number format and
      fill. */
  const DefaultCell := Cell(Blank, false, "General", false, "00000000")

  datatype CellType = Formula | Input | Label | Empty | Header

  // ---------------------------------------------------------------------------
  // Cell type

  /** `value is None or (isinstance(value, str) and not value.strip())`. */
  predicate IsBlank(v: Value) {
    v.Blank? || (v.Str? && Strip(v.s) == [])
  }

  predicate IsFormulaText(v: Value) {
    v.Str? && StartsWith(v.s, "=")
  }

  /** `_is_likely_input`: a number (bool counts, as a subclass of int), a date,
      or a number format other than the default. */
  predicate IsLikelyInput(cell: Cell) {
    cell.value.Int? || cell.value.Float? || cell.value.Bool?
    || cell.isDate
    || (cell.numberFormat != [] && cell.numberFormat != "General")
  }

  /** The first label pattern, `^\s*[\w\s]+:\s*$`: word characters and
      whitespace, a colon, then only whitespace. */
  predicate ColonLabel(s: string) {
    var t := TrimEnd(s);
    |t| >= 2 && t[|t| - 1] == ':'
    && forall k :: 0 <= k < |t| - 1 ==> IsWordChar(t[k]) || IsSpace(t[k])
  }

  /** The words of the second label pattern, lower-cased (the pattern is matched
      ignoring case); `Notes?` and `Comments?` give two words each. */
  predicate IsLabelWord(w: string) {
    w == "total" || w == "subtotal" || w == "sum" || w == "average" || w == "count"
    || w == "date" || w == "name" || w == "address" || w == "property" || w == "unit"
    || w == "rent" || w == "price" || w == "rate" || w == "fee" || w == "cost"
    || w == "amount" || w == "number" || w == "#" || w == "no." || w == "type"
    || w == "status" || w == "note" || w == "notes" || w == "description"
    || w == "comment" || w == "comments"
  }

  /** `\s*:?\s*$` over the whole of `t`. */
  predicate ColonTail(t: string) {
    var u := TrimStart(t);
    u == [] || (u[0] == ':' && TrimStart(u[1..]) == [])
  }

  /** The second label pattern: a label word (any case) at the start, then
      `\s*:?\s*` to the end. */
  predicate WordLabelAt(s: string, k: int) {
    1 <= k <= |s| && IsLabelWord(Lower(s[..k])) && ColonTail(s[k..])
  }

  predicate WordLabel(s: string) {
    exists k | 1 <= k <= |s| :: WordLabelAt(s, k)
  }

  /** `_is_likely_label`. */
  predicate IsLikelyLabel(s: string, column: int, bold: bool) {
    s != [] && (ColonLabel(s) || WordLabel(s) || (column <= 2 && |s| < 30) || bold)
  }

  /** `_determine_cell_type` for a cell in column `column`. */
  function DetermineType(cell: Cell, column: int, isHeaderRow: bool): CellType {
    var v := cell.value;
    if IsBlank(v) then Empty
    else if IsFormulaText(v) then Formula
    else if isHeaderRow && v.Str? then Header
    else if v.Str? && (EndsWith(v.s, ":") || IsLikelyLabel(v.s, column, cell.bold)) then Label
    else if IsLikelyInput(cell) then Input
    else if v.Str? then Label
    else Input
  }

  lemma NotBlankFromFirst(s: string)
    requires s != [] && !IsSpace(s[0])
    ensures Strip(s) != []
  {
    assert TrimStart(s) == s;
    var t := TrimEnd(s);
    if t == [] {
      TrimEndKeepsNonSpace(s, 0);
    }
  }

  lemma {:induction false} TrimEndKeepsNonSpace(s: string, k: nat)
    requires k < |s| && !IsSpace(s[k])
    ensures |TrimEnd(s)| > k
  {
    if IsSpace(s[|s| - 1]) {
      TrimEndKeepsNonSpace(s[..|s| - 1], k);
    }
  }

  /** A cell is EMPTY exactly when it holds nothing or a whitespace-only
      string. */
  lemma EmptyIff(cell: Cell, column: int, isHeaderRow: bool)
    ensures DetermineType(cell, column, isHeaderRow) == Empty <==> IsBlank(cell.value)
  {
  }

  /** A string starting with "=" is a FORMULA, in a header row too, and only such
      strings are. */
  lemma FormulaIff(cell: Cell, column: int, isHeaderRow: bool)
    ensures DetermineType(cell, column, isHeaderRow) == Formula <==>
            cell.value.Str? && StartsWith(cell.value.s, "=")
  {
    if cell.value.Str? && StartsWith(cell.value.s, "=") {
      NotBlankFromFirst(cell.value.s);
    }
  }

  /** Any value other than `None` that is not a string is an INPUT. */
  lemma NonTextIsInput(cell: Cell, column: int, isHeaderRow: bool)
    requires !cell.value.Blank? && !cell.value.Str?
    ensures DetermineType(cell, column, isHeaderRow) == Input
  {
  }

  /** In a header row every non-blank string that is not a formula is a HEADER;
      outside header rows there are no headers. */
  lemma HeaderIff(cell: Cell, column: int, isHeaderRow: bool)
    ensures DetermineType(cell, column, isHeaderRow) == Header <==>
            isHeaderRow && cell.value.Str? && !IsBlank(cell.value) && !StartsWith(cell.value.s, "=")
  {
  }

  /** A LABEL is a non-blank, non-formula string outside a header row that ends in
      ":", looks like a label, or does not look like an input. */
  lemma LabelIff(cell: Cell, column: int, isHeaderRow: bool)
    ensures DetermineType(cell, column, isHeaderRow) == Label <==>
            cell.value.Str? && !IsBlank(cell.value) && !StartsWith(cell.value.s, "=") && !isHeaderRow
            && (EndsWith(cell.value.s, ":") || IsLikelyLabel(cell.value.s, column, cell.bold)
                || !IsLikelyInput(cell))
  {
  }

  /** A string is an INPUT only outside header rows, when nothing marks it as a
      label and its cell looks like an input (a date or a number format). */
  lemma TextInputIff(cell: Cell, column: int, isHeaderRow: bool)
    requires cell.value.Str?
    ensures DetermineType(cell, column, isHeaderRow) == Input <==>
            !IsBlank(cell.value) && !StartsWith(cell.value.s, "=") && !isHeaderRow
            && !EndsWith(cell.value.s, ":") && !IsLikelyLabel(cell.value.s, column, cell.bold)
            && IsLikelyInput(cell)
  {
  }

  /** Short text in column A or B, and bold text anywhere, is a label. */
  lemma ShortOrBoldIsLabel(s: string, column: int, bold: bool)
    requires s != []
    requires (column <= 2 && |s| < 30) || bold
    ensures IsLikelyLabel(s, column, bold)
  {
  }

  /** Anything of the form words, colon, trailing whitespace matches the first
      label pattern, in any column. */
  lemma ColonFormIsLabel(w: string, tail: string, column: int, bold: bool)
    requires w != [] && forall k :: 0 <= k < |w| ==> IsWordChar(w[k]) || IsSpace(w[k])
    requires forall k :: 0 <= k < |tail| ==> IsSpace(tail[k])
    ensures IsLikelyLabel(w + ":" + tail, column, bold)
  {
    var s := w + ":" + tail;
    TrimEndSpaces(w + ":", tail);
    assert TrimEnd(s) == w + ":";
    assert ColonLabel(s);
  }

  lemma {:induction false} TrimEndSpaces(u: string, tail: string)
    requires u != [] && !IsSpace(u[|u| - 1])
    requires forall k :: 0 <= k < |tail| ==> IsSpace(tail[k])
    ensures TrimEnd(u + tail) == u
  {
    if tail != [] {
      var s := u + tail;
      assert s[..|s| - 1] == u + tail[..|tail| - 1];
      TrimEndSpaces(u, tail[..|tail| - 1]);
    } else {
      assert u + tail == u;
    }
  }

  /** A label word alone is a label in any column, bold or not: "Total", "rent"
      and "No." all are. */
  lemma LabelWordIsLabel(s: string, column: int, bold: bool)
    requires IsLabelWord(Lower(s))
    ensures IsLikelyLabel(s, column, bold)
  {
    assert s[..|s|] == s;
    assert s[|s|..] == [];
    assert WordLabelAt(s, |s|);
  }

  // ---------------------------------------------------------------------------
  // Data type of an input cell

  datatype DataType = Currency | Percentage | Date | Boolean | Integer | Number | Text

  /** `cell.number_format or "General"`. */
  function EffectiveFormat(cell: Cell): string {
    if cell.numberFormat == [] then "General" else cell.numberFormat
  }

  /** Whether the number format alone decides the data type. */
  predicate FormatDecides(f: string) {
    '$' in f || Contains(f, "Currency") || '%' in f
    || 'd' in Lower(f) || 'm' in Lower(f) || 'y' in Lower(f)
  }

  /** `_get_data_type`. */
  function GetDataType(cell: Cell): (r: DataType)
    ensures r == Currency <==> '$' in EffectiveFormat(cell) || Contains(EffectiveFormat(cell), "Currency")
    ensures r == Percentage <==>
              !('$' in EffectiveFormat(cell) || Contains(EffectiveFormat(cell), "Currency"))
              && '%' in EffectiveFormat(cell)
  {
    var f := EffectiveFormat(cell);
    if '$' in f || Contains(f, "Currency") then Currency
    else if '%' in f then Percentage
    else if 'd' in Lower(f) || 'm' in Lower(f) || 'y' in Lower(f) then Date
    else match cell.value
      case Bool(_) => Boolean
      case Int(_) => Integer
      case Float(_) => Number
      case _ => if cell.isDate then Date else Text
  }

  /** The number format is looked at first: when it decides, the value and
      `is_date` play no part, and the type is currency, percentage or date. */
  lemma FormatBeforeValue(cell: Cell, v: Value, isDate: bool)
    requires FormatDecides(EffectiveFormat(cell))
    ensures GetDataType(cell) in {Currency, Percentage, Date}
    ensures GetDataType(cell.(value := v, isDate := isDate)) == GetDataType(cell)
  {
  }

  /** With the default format the value decides: a boolean is "boolean" (tested
      before "integer", of which Python's bool is a subclass), an int "integer",
      a float "number", any other value "date" when openpyxl calls the cell a date
      and "text" otherwise. */
  lemma GeneralFormatByValue(cell: Cell)
    requires cell.numberFormat == [] || cell.numberFormat == "General"
    ensures cell.value.Bool? ==> GetDataType(cell) == Boolean
    ensures cell.value.Int? ==> GetDataType(cell) == Integer
    ensures cell.value.Float? ==> GetDataType(cell) == Number
    ensures !cell.value.Bool? && !cell.value.Int? && !cell.value.Float? ==>
              GetDataType(cell) == (if cell.isDate then Date else Text)
  {
    var f := EffectiveFormat(cell);
    assert f == "General";
    assert Lower(f) == "general";
    MissingLetterNotContained(f, "Currency");
  }

  lemma MissingLetterNotContained(text: string, pattern: string)
    requires pattern != []
    ensures Contains(text, pattern) ==> pattern[0] in text
  {
    if Contains(text, pattern) {
      var k := ContainsWitness(text, pattern);
      assert text[k] == pattern[0];
    }
  }

  /** The date test looks for the letters d, m and y anywhere in the format, so
      an integer shown with the colour section "[Red]" is reported as a date. */
  lemma RedFormatIsDate(cell: Cell)
    requires cell.numberFormat == "0;[Red]-0" && cell.value.Int?
    ensures GetDataType(cell) == Date
  {
    var f := cell.numberFormat;
    assert f[5] == 'd';
    assert '$' !in f && 'C' !in f && '%' !in f;
    MissingLetterNotContained(f, "Currency");
    DateByLetter(cell, 5);
  }

  /** Any format holding a lower-case d, m or y, and no currency or percent
      marker, is typed date, whatever the value: "dd/mm/yyyy", "[Cyan]d" and
      "0;[Red]-0" alike. */
  lemma DateByLetter(cell: Cell, i: int)
    requires 0 <= i < |cell.numberFormat| && cell.numberFormat[i] in "dmy"
    requires '$' !in cell.numberFormat && !Contains(cell.numberFormat, "Currency")
    requires '%' !in cell.numberFormat
    ensures GetDataType(cell) == Date
  {
    var f := cell.numberFormat;
    assert Lower(f)[i] == f[i];
  }

  // ---------------------------------------------------------------------------
  // Formula description

  datatype FormulaKind = SumCalc | AverageCalc | ConditionalCalc | LookupRef
                       | Multiplication | Division | Addition | Subtraction | OtherCalc

  /** The recognised leading functions, upper-cased. */
  predicate HasKnownPrefix(u: string) {
    StartsWith(u, "=SUM(") || StartsWith(u, "=AVERAGE(") || StartsWith(u, "=IF(")
    || StartsWith(u, "=VLOOKUP(") || StartsWith(u, "=XLOOKUP(")
  }

  /** The rule of `_describe_formula` that applies to `f`. */
  function FormulaKindOf(f: string): FormulaKind {
    var u := Upper(f);
    if StartsWith(u, "=SUM(") then SumCalc
    else if StartsWith(u, "=AVERAGE(") then AverageCalc
    else if StartsWith(u, "=IF(") then ConditionalCalc
    else if StartsWith(u, "=VLOOKUP(") || StartsWith(u, "=XLOOKUP(") then LookupRef
    else if '*' in f then Multiplication
    else if '/' in f then Division
    else if '+' in f then Addition
    else if '-' in f then Subtraction
    else OtherCalc
  }

  function Description(k: FormulaKind): string {
    match k
    case SumCalc => "Sum calculation"
    case AverageCalc => "Average calculation"
    case ConditionalCalc => "Conditional calculation"
    case LookupRef => "Lookup reference"
    case Multiplication => "Multiplication calculation"
    case Division => "Division calculation"
    case Addition => "Addition calculation"
    case Subtraction => "Subtraction calculation"
    case OtherCalc => "Formula calculation"
  }

  /** `_describe_formula`. */
  function DescribeFormula(f: string): string {
    Description(FormulaKindOf(f))
  }

  /** The leading function wins over the operators, whatever the formula
      contains afterwards. */
  lemma PrefixBeforeOperators(f: string)
    requires HasKnownPrefix(Upper(f))
    ensures FormulaKindOf(f) in {SumCalc, AverageCalc, ConditionalCalc, LookupRef}
  {
  }

  /** Without a recognised leading function the first of '*', '/', '+', '-'
      (in that order) present decides, and only a formula with none of them is a
      plain "Formula calculation". */
  lemma OperatorsInOrder(f: string)
    requires !HasKnownPrefix(Upper(f))
    ensures FormulaKindOf(f) == Multiplication <==> '*' in f
    ensures FormulaKindOf(f) == Division <==> '*' !in f && '/' in f
    ensures FormulaKindOf(f) == Addition <==> '*' !in f && '/' !in f && '+' in f
    ensures FormulaKindOf(f) == Subtraction <==> '*' !in f && '/' !in f && '+' !in f && '-' in f
    ensures FormulaKindOf(f) == OtherCalc <==> '*' !in f && '/' !in f && '+' !in f && '-' !in f
  {
  }

  /** The prefixes are matched ignoring case: formulas that differ only in case
      get the same description. */
  lemma DescriptionIgnoresCase(f: string, g: string)
    requires Upper(f) == Upper(g)
    requires forall c :: c in "*/+-" ==> (c in f <==> c in g)
    ensures DescribeFormula(f) == DescribeFormula(g)
  {
    assert '*' in "*/+-" && '/' in "*/+-" && '+' in "*/+-" && '-' in "*/+-";
  }

  // ---------------------------------------------------------------------------
  // Column letters

  function LetterOf(d: int): (c: char)
    requires 0 <= d < 26
    ensures IsUpperLetter(c)
  {
    ('A' as int + d) as char
  }

  /** `get_column_letter`: bijective base 26, 1 is "A", 27 is "AA". */
  function ColumnLetter(n: int): (r: string)
    requires n >= 1
    ensures r != [] && forall k :: 0 <= k < |r| ==> IsUpperLetter(r[k])
    decreases n
  {
    if n <= 26 then [LetterOf(n - 1)]
    else ColumnLetter((n - 1) / 26) + [LetterOf((n - 1) % 26)]
  }

  /** `column_index_from_string` for upper-case letters: the inverse of
      `ColumnLetter`. */
  function ColumnNumber(s: string): int {
    if s == [] then 0 else ColumnNumber(s[..|s| - 1]) * 26 + (s[|s| - 1] as int - 'A' as int + 1)
  }

  lemma {:induction false} ColumnNumberPositive(s: string)
    requires s != [] && forall k :: 0 <= k < |s| ==> IsUpperLetter(s[k])
    ensures ColumnNumber(s) >= 1
  {
    var init := s[..|s| - 1];
    if init != [] {
      ColumnNumberPositive(init);
    }
  }

  /** Reading the letters back gives the column number. */
  lemma {:induction false} ColumnNumberOfLetter(n: int)
    requires n >= 1
    ensures ColumnNumber(ColumnLetter(n)) == n
    decreases n
  {
    if n > 26 {
      var q, d := (n - 1) / 26, (n - 1) % 26;
      ColumnNumberOfLetter(q);
      var s := ColumnLetter(q) + [LetterOf(d)];
      assert s[..|s| - 1] == ColumnLetter(q);
      assert n == q * 26 + d + 1;
    }
  }

  /** Every run of upper-case letters names exactly one column. */
  lemma {:induction false} ColumnLetterOfNumber(s: string)
    requires s != [] && forall k :: 0 <= k < |s| ==> IsUpperLetter(s[k])
    ensures ColumnNumber(s) >= 1 && ColumnLetter(ColumnNumber(s)) == s
    decreases |s|
  {
    ColumnNumberPositive(s);
    var init := s[..|s| - 1];
    var d := s[|s| - 1] as int - 'A' as int;
    if init == [] {
      assert s == [LetterOf(d)];
    } else {
      ColumnLetterOfNumber(init);
      var q := ColumnNumber(init);
      var n := q * 26 + d + 1;
      assert n > 26;
      assert (n - 1) / 26 == q && (n - 1) % 26 == d;
      assert s == init + [LetterOf(d)];
    }
  }

  /** Columns up to XFD (16384, the last Excel column) have at most three
      letters. */
  lemma ColumnLetterShort(n: int)
    requires 1 <= n <= 16384
    ensures |ColumnLetter(n)| <= 3
  {
    if n > 26 {
      var q := (n - 1) / 26;
      assert q <= 630;
      if q > 26 {
        assert (q - 1) / 26 <= 26;
        assert |ColumnLetter((q - 1) / 26)| == 1;
        assert |ColumnLetter(q)| == 2;
      }
      assert |ColumnLetter(n)| == |ColumnLetter(q)| + 1;
    }
  }

  /** The reference `get_column_letter(column) + str(row)`. */
  function CellRef(column: int, row: int): string
    requires column >= 1
  {
    ColumnLetter(column) + IntToString(row)
  }

  lemma {:induction false} UpperOfUpper(s: string)
    requires forall k :: 0 <= k < |s| ==> IsUpperLetter(s[k])
    ensures Upper(s) == s
  {
    assert forall k :: 0 <= k < |s| ==> Upper(s)[k] == s[k];
  }

  /** The references the analyzer reports are the ones the template filler reads:
      parsing one gives back its column letters and row. */
  lemma CellRefReadable(column: int, row: int)
    requires 1 <= column <= 16384 && row >= 1
    ensures Sheets.ParseCellRef(CellRef(column, row)) == Some(Sheets.Coord(ColumnLetter(column), row))
  {
    var letters := ColumnLetter(column);
    ColumnLetterShort(column);
    assert Sheets.ValidColumn(letters);
    UpperOfUpper(letters);
    Sheets.CellRefOf(letters, row);
  }
}
