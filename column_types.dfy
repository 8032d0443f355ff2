/** Column-type detection for extracted tables, shared by both Docling processors:
    every column is classified as empty, currency, percentage, numeric or text, in that
    order of precedence, from the string form of its non-null cells. */
module ColumnTypes {
  import opened Wrappers
  import opened Strings

  datatype ColumnType = Numeric | Currency | Percentage | Text | Empty

  /** The end of the longest digit group starting right after a digit at `i - 1`:
      digits, with single underscores allowed between two digits. */
  function DigitPartFrom(s: string, i: nat): (e: nat)
    requires i <= |s|
    ensures i <= e <= |s|
    decreases |s| - i
  {
    if i < |s| && IsDigit(s[i]) then DigitPartFrom(s, i + 1)
    else if i + 1 < |s| && s[i] == '_' && IsDigit(s[i + 1]) then DigitPartFrom(s, i + 2)
    else i
  }

  /** The end of the digit group starting at `i`, if a digit is there. */
  function DigitPart(s: string, i: nat): (r: Option<nat>)
    requires i <= |s|
    ensures r.Some? ==> i < r.value <= |s|
  {
    if i < |s| && IsDigit(s[i]) then Some(DigitPartFrom(s, i + 1)) else None
  }

  /** The rest of `s` from `i` is empty or an exponent `e`/`E`, optional sign, digits. */
  predicate ExponentRest(s: string, i: nat)
    requires i <= |s|
  {
    i == |s|
    || (i < |s| && (s[i] == 'e' || s[i] == 'E')
        && var j := if i + 1 < |s| && (s[i + 1] == '+' || s[i + 1] == '-') then i + 2 else i + 1;
           DigitPart(s, j) == Some(|s|))
  }

  /** An unsigned decimal literal: `1`, `1.`, `1.5`, `.5`, each with an optional exponent. */
  predicate UnsignedNumber(s: string) {
    match DigitPart(s, 0)
    case Some(a) =>
      if a < |s| && s[a] == '.' then
        match DigitPart(s, a + 1)
        case Some(b) => ExponentRest(s, b)
        case None => ExponentRest(s, a + 1)
      else ExponentRest(s, a)
    case None =>
      |s| > 1 && s[0] == '.' &&
      match DigitPart(s, 1)
      case Some(b) => ExponentRest(s, b)
      case None => false
  }

  /** The strings Python's `float()` accepts (ASCII digits only): surrounding
      whitespace, an optional sign, then a decimal literal or one of the words
      `inf`, `infinity`, `nan` in any case. */
  predicate IsFloatLiteral(value: string) {
    var t := Strip(value);
    var u := if t != [] && (t[0] == '+' || t[0] == '-') then t[1..] else t;
    Lower(u) == "inf" || Lower(u) == "infinity" || Lower(u) == "nan" || UnsignedNumber(u)
  }

  /** The value with commas and spaces removed and the rest stripped, as `_is_numeric`
      cleans it before it calls `float()`. */
  function CleanNumber(value: string): string {
    Strip(RemoveChar(RemoveChar(value, ','), ' '))
  }

  /** `_is_numeric`: placeholders (empty, `-`, `n/a`) and anything `float()` accepts. */
  predicate IsNumeric(value: string) {
    var clean := CleanNumber(value);
    clean == "" || clean == "-" || Lower(clean) == "n/a" || IsFloatLiteral(clean)
  }

  predicate CurrencyCell(v: string) { StartsWith(Strip(v), "$") || Strip(v) == "" }

  predicate PercentCell(v: string) { EndsWith(Strip(v), "%") || Strip(v) == "" }

  /** The type of a column given the string form of its non-null cells. */
  function TypeOfColumn(values: seq<string>): ColumnType {
    if values == [] then Empty
    else if AllPass(values, CurrencyCell) then Currency
    else if AllPass(values, PercentCell) then Percentage
    else if AllPass(values, IsNumeric) then Numeric
    else Text
  }

  /** Every cell passes `test` (`all(...)` over the column). */
  predicate AllPass(values: seq<string>, test: string -> bool) {
    values == [] || (AllPass(values[..|values| - 1], test) && test(values[|values| - 1]))
  }

  lemma {:induction false} AllPassIff(values: seq<string>, test: string -> bool)
    ensures AllPass(values, test) <==> forall i :: 0 <= i < |values| ==> test(values[i])
  {
    if values != [] {
      var init := values[..|values| - 1];
      AllPassIff(init, test);
      forall i | 0 <= i < |init|
        ensures init[i] == values[i]
      {
      }
    }
  }

  /** What each type means for the cells, the tests taken in order: empty
      exactly for no cells; currency exactly when every cell passes the currency
      test; percentage exactly when they do not, but every cell passes the
      percent test; numeric exactly when neither holds but every cell is
      numeric; and text for the rest. */
  lemma TypeOfColumnMeaning(values: seq<string>)
    ensures var t := TypeOfColumn(values);
            var currency := forall i :: 0 <= i < |values| ==> CurrencyCell(values[i]);
            var percent := forall i :: 0 <= i < |values| ==> PercentCell(values[i]);
            var numeric := forall i :: 0 <= i < |values| ==> IsNumeric(values[i]);
            (t == Empty <==> values == [])
            && (t == Currency <==> values != [] && currency)
            && (t == Percentage <==> values != [] && !currency && percent)
            && (t == Numeric <==> values != [] && !currency && !percent && numeric)
            && (t == Text <==> values != [] && !currency && !percent && !numeric)
  {
    AllPassIff(values, CurrencyCell);
    AllPassIff(values, PercentCell);
    AllPassIff(values, IsNumeric);
  }

  /** One column of a table: its name and its cells, `None` standing for a null cell. */
  datatype Column = Column(name: string, cells: seq<Option<string>>)

  /** The cells `dropna()` keeps, in order. */
  function NonNull(cells: seq<Option<string>>): (r: seq<string>)
    ensures |r| <= |cells|
    ensures forall v :: v in r <==> Some(v) in cells
  {
    if cells == [] then []
    else NonNull(cells[..|cells| - 1]) + (if cells[|cells| - 1].Some? then [cells[|cells| - 1].value] else [])
  }

  /** No two columns share a name. With a repeated name `df[col]` is a whole
      DataFrame, and `.tolist()` on it raises AttributeError. */
  predicate DistinctNames(columns: seq<Column>) {
    forall i, j :: 0 <= i < j < |columns| ==> columns[i].name != columns[j].name
  }

  /** Some other column carries the name of column `k`. */
  predicate NameRepeated(columns: seq<Column>, k: int)
    requires 0 <= k < |columns|
  {
    exists j :: 0 <= j < |columns| && j != k && columns[j].name == columns[k].name
  }

  /** The dictionary `_detect_column_types` builds, one column after the other. */
  function TypesOf(columns: seq<Column>): map<string, ColumnType> {
    if columns == [] then map[]
    else
      var last := columns[|columns| - 1];
      TypesOf(columns[..|columns| - 1])[last.name := TypeOfColumn(NonNull(last.cells))]
  }

  /** `_detect_column_types`; `None` where it raises, which happens at the first
      column whose name another column shares. */
  method DetectColumnTypes(columns: seq<Column>) returns (types: Option<map<string, ColumnType>>)
    ensures types.None? <==> !DistinctNames(columns)
    ensures types.Some? ==> types.value == TypesOf(columns)
    ensures types.Some? ==> forall name :: name in types.value <==> exists i :: 0 <= i < |columns| && columns[i].name == name
  {
    var acc := map[];
    var k := 0;
    while k < |columns|
      invariant 0 <= k <= |columns|
      invariant acc == TypesOf(columns[..k])
      invariant forall i :: 0 <= i < k ==> !NameRepeated(columns, i)
    {
      if NameRepeated(columns, k) {
        var j :| 0 <= j < |columns| && j != k && columns[j].name == columns[k].name;
        assert !DistinctNames(columns) by {
          if j < k {
            assert 0 <= j < k < |columns| && columns[j].name == columns[k].name;
          } else {
            assert 0 <= k < j < |columns| && columns[k].name == columns[j].name;
          }
        }
        return None;
      }
      acc := acc[columns[k].name := TypeOfColumn(NonNull(columns[k].cells))];
      k := k + 1;
      assert columns[..k][..k - 1] == columns[..k - 1];
    }
    assert columns[..k] == columns;
    forall i, j | 0 <= i < j < |columns| ensures columns[i].name != columns[j].name {
      assert !NameRepeated(columns, i);
    }
    TypesOfKeys(columns);
    return Some(acc);
  }

  /** Every column name gets an entry, and no other key appears. */
  lemma TypesOfKeys(columns: seq<Column>)
    ensures forall name :: name in TypesOf(columns) <==>
              exists i :: 0 <= i < |columns| && columns[i].name == name
  {
    forall name
      ensures name in TypesOf(columns) <==> exists i :: 0 <= i < |columns| && columns[i].name == name
    {
      TypesOfKey(columns, name);
    }
  }

  lemma {:induction false} TypesOfKey(columns: seq<Column>, name: string)
    ensures name in TypesOf(columns) <==> exists i :: 0 <= i < |columns| && columns[i].name == name
  {
    if columns != [] {
      var init := columns[..|columns| - 1];
      var last := columns[|columns| - 1];
      TypesOfKey(init, name);
      assert TypesOf(columns).Keys == TypesOf(init).Keys + {last.name};
      if name == last.name {
        assert columns[|columns| - 1].name == name;
      } else if name in TypesOf(init) {
        var i :| 0 <= i < |init| && init[i].name == name;
        assert columns[i].name == name;
      } else {
        forall i | 0 <= i < |columns|
          ensures columns[i].name != name
        {
          if i < |init| {
            assert init[i] == columns[i];
          }
        }
      }
    }
  }

  /** With distinct names, every column's entry is the type of its own cells. */
  lemma {:induction false} EachColumnTyped(columns: seq<Column>, i: int)
    requires DistinctNames(columns) && 0 <= i < |columns|
    ensures columns[i].name in TypesOf(columns)
    ensures TypesOf(columns)[columns[i].name] == TypeOfColumn(NonNull(columns[i].cells))
  {
    var init := columns[..|columns| - 1];
    if i < |columns| - 1 {
      assert DistinctNames(init) by {
        forall a, b | 0 <= a < b < |init| ensures init[a].name != init[b].name {
          assert init[a] == columns[a] && init[b] == columns[b];
        }
      }
      assert init[i] == columns[i];
      EachColumnTyped(init, i);
      assert columns[i].name != columns[|columns| - 1].name;
    }
  }

  /** The empty cell and the placeholders `-`, `n/a` and `N/A` count as numeric. */
  lemma PlaceholdersAreNumeric(v: string)
    requires v == "" || v == "-" || v == "n/a" || v == "N/A"
    ensures IsNumeric(v)
  {
    if v != "" {
      Unchanged(v);
    }
    assert CleanNumber(v) == v;
    if v == "N/A" {
      assert Lower(v) == "n/a";
    }
    PlaceholderIsNumeric(v);
  }

  lemma PlaceholderIsNumeric(v: string)
    requires CleanNumber(v) == v
    requires v == "" || v == "-" || Lower(v) == "n/a"
    ensures IsNumeric(v)
  {
  }

  lemma {:induction false} DigitPartOfDigits(s: string, i: nat)
    requires i <= |s|
    requires forall k :: 0 <= k < |s| ==> IsDigit(s[k])
    ensures DigitPartFrom(s, i) == |s|
    decreases |s| - i
  {
    if i < |s| {
      DigitPartOfDigits(s, i + 1);
    }
  }

  /** `str(n)` of every natural number is numeric, and so is its negation. */
  lemma NatStringIsNumeric(n: nat)
    ensures IsNumeric(NatToString(n))
    ensures IsNumeric(IntToString(-(n as int)))
  {
    var d := NatToString(n);
    var m := IntToString(-(n as int));
    assert m == (if n > 0 then "-" + d else d);
    DigitStringIsNumeric(d);
    SameNumeric(if n > 0 then "-" + d else d, m);
  }

  lemma SameNumeric(a: string, b: string)
    requires a == b && IsNumeric(a)
    ensures IsNumeric(b)
  {
  }

  lemma DigitStringIsNumeric(s: string)
    requires s != [] && forall k :: 0 <= k < |s| ==> IsDigit(s[k])
    ensures IsNumeric(s) && IsNumeric("-" + s)
  {
    assert UnsignedNumber(s) by { DigitPartOfDigits(s, 1); }
    UnsignedIsNumeric(s);
    SignedIsNumeric(s, "-" + s);
  }

  lemma UnsignedIsNumeric(s: string)
    requires s != [] && forall k :: 0 <= k < |s| ==> IsDigit(s[k])
    requires UnsignedNumber(s)
    ensures IsNumeric(s)
  {
    Unchanged(s);
    FloatIsNumeric(s, s);
  }

  /** A digit string with a minus sign in front is numeric. */
  lemma SignedIsNumeric(s: string, t: string)
    requires s != [] && forall k :: 0 <= k < |s| ==> IsDigit(s[k])
    requires UnsignedNumber(s) && t == "-" + s
    ensures IsNumeric(t)
  {
    assert t[1..] == s;
    forall k | 0 <= k < |t|
      ensures t[k] != ',' && t[k] != ' '
    {
      if k > 0 {
        assert t[k] == s[k - 1];
      }
    }
    assert t[|t| - 1] == s[|s| - 1];
    Unchanged(t);
    FloatIsNumeric(t, s);
  }

  /** A string that is its own cleaning and a sign-free or signed decimal literal
      is numeric. */
  lemma FloatIsNumeric(v: string, u: string)
    requires CleanNumber(v) == v && Strip(v) == v
    requires u == (if v != [] && (v[0] == '+' || v[0] == '-') then v[1..] else v)
    requires UnsignedNumber(u)
    ensures IsNumeric(v)
  {
    assert IsFloatLiteral(v);
  }

  lemma {:induction false} NoCharUnchanged(s: string, c: char)
    requires forall k :: 0 <= k < |s| ==> s[k] != c
    ensures RemoveChar(s, c) == s
  {
    if s != [] {
      NoCharUnchanged(s[1..], c);
    }
  }

  /** A string without commas, spaces or whitespace at either end is its own cleaning. */
  lemma Unchanged(s: string)
    requires s != [] && !IsSpace(s[0]) && !IsSpace(s[|s| - 1])
    requires forall k :: 0 <= k < |s| ==> s[k] != ',' && s[k] != ' '
    ensures CleanNumber(s) == s
  {
    NoCharUnchanged(s, ',');
    NoCharUnchanged(s, ' ');
    DigitsStrip(s);
  }

  lemma DigitsStrip(s: string)
    requires s != [] && !IsSpace(s[0]) && !IsSpace(s[|s| - 1])
    ensures Strip(s) == s
  {
  }

  /** Precedence: a column whose every cell is blank is currency, the first test that
      accepts blanks, although it would pass the percentage and numeric tests too. */
  lemma BlankColumnIsCurrency(values: seq<string>)
    requires values != [] && forall i :: 0 <= i < |values| ==> Strip(values[i]) == ""
    ensures TypeOfColumn(values) == Currency
    ensures forall i :: 0 <= i < |values| ==> PercentCell(values[i]) && IsNumeric(values[i])
  {
    AllPassIff(values, CurrencyCell);
    forall i | 0 <= i < |values|
      ensures IsNumeric(values[i])
    {
      BlankClean(values[i]);
    }
  }

  lemma BlankClean(v: string)
    requires Strip(v) == ""
    ensures CleanNumber(v) == ""
  {
    RemoveKeepsOthers(v, ',');
    RemoveKeepsOthers(RemoveChar(v, ','), ' ');
    AllSpaceStrip(v);
    AllSpaceStrip(RemoveChar(RemoveChar(v, ','), ' '));
  }

  lemma {:induction false} RemoveKeepsOthers(s: string, c: char)
    ensures forall k :: 0 <= k < |RemoveChar(s, c)| ==> RemoveChar(s, c)[k] in s
  {
    if s != [] {
      RemoveKeepsOthers(s[1..], c);
      var rest := RemoveChar(s[1..], c);
      assert RemoveChar(s, c) == (if s[0] == c then [] else [s[0]]) + rest;
    }
  }

  /** A string strips to empty exactly when all its characters are whitespace. */
  lemma {:induction false} AllSpaceStrip(s: string)
    ensures Strip(s) == "" <==> forall k :: 0 <= k < |s| ==> IsSpace(s[k])
  {
    TrimStartAllSpace(s);
    var t := TrimStart(s);
    TrimEndEmpty(t);
  }

  lemma TrimStartAllSpace(s: string)
    ensures TrimStart(s) == [] <==> forall k :: 0 <= k < |s| ==> IsSpace(s[k])
    ensures forall k :: 0 <= k < |s| - |TrimStart(s)| ==> IsSpace(s[k])
  {
    TrimStartSpacePrefix(s);
    var r := TrimStart(s);
    if r != [] {
      assert r[0] == s[|s| - |r|];
    }
  }

  /** `lstrip` removes only whitespace. */
  lemma {:induction false} TrimStartSpacePrefix(s: string)
    ensures forall k :: 0 <= k < |s| - |TrimStart(s)| ==> IsSpace(s[k])
  {
    if s != [] && IsSpace(s[0]) {
      var t := s[1..];
      TrimStartSpacePrefix(t);
      assert TrimStart(s) == TrimStart(t);
      forall k | 1 <= k < |s| - |TrimStart(s)|
        ensures IsSpace(s[k])
      {
        assert s[k] == t[k - 1];
      }
    }
  }

  lemma TrimEndEmpty(t: string)
    requires t == [] || !IsSpace(t[0])
    ensures TrimEnd(t) == [] <==> t == []
  {
    if t != [] && TrimEnd(t) == [] {
      TrimEndKeepsFirst(t);
    }
  }

  lemma {:induction false} TrimEndKeepsFirst(t: string)
    requires t != [] && !IsSpace(t[0])
    ensures TrimEnd(t) != []
  {
    if IsSpace(t[|t| - 1]) {
      TrimEndKeepsFirst(t[..|t| - 1]);
    }
  }
}
