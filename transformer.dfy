/** The rules of the Docling transformer that turn extracted tables and text into
    the property report schema: table classification, the property-info key/value
    table parser, fill-only-if-missing key extraction, amenity lists, header
    camelCasing, state abbreviations and the error passthrough of `transform`.
    The regular expressions of the source are written out as matchers over
    `seq<char>`. */
module Transformer {
  import opened Wrappers
  import opened Strings
  import ColumnTypes

  // ---------------------------------------------------------------------------
  // Tables

  /** An extracted table: whether it carries an "error" entry, its headers and its
      rows, each row the list of its values (as their string form) in column order. */
  datatype Table = Table(hasError: bool, headers: seq<string>, rows: seq<seq<string>>)

  function LowerAll(xs: seq<string>): (r: seq<string>)
    ensures |r| == |xs| && forall i :: 0 <= i < |xs| ==> r[i] == Lower(xs[i])
  {
    if xs == [] then [] else [Lower(xs[0])] + LowerAll(xs[1..])
  }

  /** `" ".join(str(h).lower() for h in headers)`. */
  function HeaderText(headers: seq<string>): string {
    Join(LowerAll(headers), " ")
  }

  /** A pattern of the shape `head(s)?\s*tail`: a literal, an optional plural "s"
      when `plural`, any run of whitespace, and a second literal (which may be
      empty, leaving only `head`). */
  datatype HeaderPattern = HeaderPattern(head: string, plural: bool, tail: string)

  /** `\s*tail` matches at `j`, for some length of the whitespace run. */
  predicate SpacesThen(t: string, j: nat, tail: string)
    requires j <= |t|
    decreases |t| - j
  {
    StartsWith(t[j..], tail) || (j < |t| && IsSpace(t[j]) && SpacesThen(t, j + 1, tail))
  }

  predicate AllSpace(s: string) {
    forall i :: 0 <= i < |s| ==> IsSpace(s[i])
  }

  /** `SpacesThen` is what the regular expression means: some whitespace run, then
      the tail. */
  lemma SpacesThenMeaning(t: string, j: nat, tail: string)
    requires j <= |t|
    ensures SpacesThen(t, j, tail) <==> exists w :: j <= w <= |t| && AllSpace(t[j..w]) && StartsWith(t[w..], tail)
  {
    if SpacesThen(t, j, tail) {
      var w := SpacesThenSound(t, j, tail);
    }
    if exists w :: j <= w <= |t| && AllSpace(t[j..w]) && StartsWith(t[w..], tail) {
      var w :| j <= w <= |t| && AllSpace(t[j..w]) && StartsWith(t[w..], tail);
      SpacesThenComplete(t, j, tail, w);
    }
  }

  lemma {:induction false} SpacesThenSound(t: string, j: nat, tail: string) returns (w: nat)
    requires j <= |t| && SpacesThen(t, j, tail)
    ensures j <= w <= |t| && AllSpace(t[j..w]) && StartsWith(t[w..], tail)
    decreases |t| - j
  {
    if StartsWith(t[j..], tail) {
      w := j;
      assert AllSpace(t[j..j]);
    } else {
      w := SpacesThenSound(t, j + 1, tail);
      assert t[j..w] == [t[j]] + t[j + 1..w];
    }
  }

  lemma {:induction false} SpacesThenComplete(t: string, j: nat, tail: string, w: nat)
    requires j <= w <= |t| && AllSpace(t[j..w]) && StartsWith(t[w..], tail)
    ensures SpacesThen(t, j, tail)
    decreases w - j
  {
    if w > j {
      assert t[j] == t[j..w][0];
      assert t[j + 1..w] == t[j..w][1..];
      SpacesThenComplete(t, j + 1, tail, w);
    }
  }

  /** The pattern matches at position `i` of `t`. */
  predicate MatchesAt(t: string, i: nat, p: HeaderPattern)
    requires i <= |t|
  {
    var k := i + |p.head|;
    StartsWith(t[i..], p.head)
    && (SpacesThen(t, k, p.tail)
        || (p.plural && k < |t| && t[k] == 's' && SpacesThen(t, k + 1, p.tail)))
  }

  /** `re.search`: the pattern matches at some position from `i` on. */
  predicate SearchFrom(t: string, i: nat, p: HeaderPattern)
    requires i <= |t|
    decreases |t| - i
  {
    MatchesAt(t, i, p) || (i < |t| && SearchFrom(t, i + 1, p))
  }

  lemma {:induction false} SearchFromMeaning(t: string, i: nat, p: HeaderPattern)
    requires i <= |t|
    ensures SearchFrom(t, i, p) <==> exists k :: i <= k <= |t| && MatchesAt(t, k, p)
    decreases |t| - i
  {
    if i < |t| {
      SearchFromMeaning(t, i + 1, p);
    }
  }

  /** The table kinds, in the order the classifier tries them after the property
      info test. */
  datatype TableKind = UnitBreakdown | RentRoll | Expenses | PropertyInfo | Other

  type PatternTable = seq<(TableKind, seq<HeaderPattern>)>

  const TABLE_PATTERNS: PatternTable := [
    (UnitBreakdown, [HeaderPattern("bed", true, "bath"), HeaderPattern("avg", false, "sf"),
                     HeaderPattern("unit", true, "mix"), HeaderPattern("asking", false, "rent"),
                     HeaderPattern("effective", false, "rent")]),
    (RentRoll, [HeaderPattern("unit", false, "#"), HeaderPattern("tenant", false, ""),
                HeaderPattern("lease", false, "start"), HeaderPattern("rent", false, "amount")]),
    (Expenses, [HeaderPattern("expense", false, ""), HeaderPattern("category", false, ""),
                HeaderPattern("amount", false, ""), HeaderPattern("per", false, "unit")])
  ]

  predicate AnyFound(t: string, patterns: seq<HeaderPattern>) {
    exists j :: 0 <= j < |patterns| && SearchFrom(t, 0, patterns[j])
  }

  function AnyFoundFrom(t: string, patterns: seq<HeaderPattern>, j: nat): (b: bool)
    requires j <= |patterns|
    ensures b <==> exists m :: j <= m < |patterns| && SearchFrom(t, 0, patterns[m])
    decreases |patterns| - j
  {
    if j == |patterns| then false else SearchFrom(t, 0, patterns[j]) || AnyFoundFrom(t, patterns, j + 1)
  }

  /** The position of the first entry of `table` one of whose patterns is found. */
  function FirstKindFrom(table: PatternTable, t: string, k: nat): (r: Option<nat>)
    requires k <= |table|
    ensures r.Some? ==> k <= r.value < |table| && AnyFound(t, table[r.value].1)
                        && forall i :: k <= i < r.value ==> !AnyFound(t, table[i].1)
    ensures r.None? ==> forall i :: k <= i < |table| ==> !AnyFound(t, table[i].1)
    decreases |table| - k
  {
    if k == |table| then None
    else if AnyFoundFrom(t, table[k].1, 0) then Some(k)
    else FirstKindFrom(table, t, k + 1)
  }

  /** The first value of a row, "" for an empty row. */
  function FirstValue(row: seq<string>): string {
    if row == [] then "" else row[0]
  }

  predicate IsKeyValueRow(row: seq<string>) {
    EndsWith(FirstValue(row), ":")
  }

  /** The number of rows whose first value ends in ":". */
  function KeyValueCount(rows: seq<seq<string>>): nat {
    CountWhere(rows, IsKeyValueRow)
  }

  /** The positions of those rows. */
  function KeyValueRows(rows: seq<seq<string>>): set<nat> {
    IndicesWhere(rows, IsKeyValueRow)
  }

  lemma KeyValueCountIsSize(rows: seq<seq<string>>)
    ensures KeyValueCount(rows) == |KeyValueRows(rows)|
  {
    CountIsSize(rows, IsKeyValueRow);
  }

  /** The number of elements that pass `p`. */
  function CountWhere<T>(xs: seq<T>, p: T -> bool): nat {
    if xs == [] then 0
    else CountWhere(xs[..|xs| - 1], p) + (if p(xs[|xs| - 1]) then 1 else 0)
  }

  /** The positions of the elements that pass `p`. */
  function IndicesWhere<T>(xs: seq<T>, p: T -> bool): set<nat> {
    set i: nat | i < |xs| && p(xs[i])
  }

  lemma {:induction false} CountIsSize<T>(xs: seq<T>, p: T -> bool)
    ensures CountWhere(xs, p) == |IndicesWhere(xs, p)|
  {
    if xs != [] {
      var n := |xs| - 1;
      var init := xs[..n];
      CountIsSize(init, p);
      var extra: set<nat> := if p(xs[n]) then {n} else {};
      forall x: nat
        ensures x in IndicesWhere(xs, p) <==> x in IndicesWhere(init, p) + extra
      {
        if x < n {
          assert xs[x] == init[x];
        }
      }
      assert IndicesWhere(xs, p) == IndicesWhere(init, p) + extra;
      assert n !in IndicesWhere(init, p);
    }
  }

  /** What `_is_property_info_table` decides: headers and rows are present, the
      joined headers mention "property", and at least three of the first five rows
      are key/value rows. */
  predicate PropertyInfoShape(t: Table) {
    t.headers != [] && t.rows != []
    && Contains(HeaderText(t.headers), "property")
    && KeyValueCount(Take(t.rows, 5)) >= 3
  }

  function Take<T>(xs: seq<T>, n: nat): (r: seq<T>)
    ensures |r| <= n && |r| <= |xs| && r == xs[..|r|]
    ensures |xs| <= n ==> r == xs
    ensures n <= |xs| ==> |r| == n
  {
    if |xs| <= n then xs else xs[..n]
  }

  /** `_is_property_info_table`, counting key/value rows among the first five. */
  method IsPropertyInfoTable(t: Table) returns (b: bool)
    ensures b <==> PropertyInfoShape(t)
    ensures b ==> |KeyValueRows(Take(t.rows, 5))| >= 3
  {
    if t.headers == [] || t.rows == [] {
      return false;
    }
    var hasPropertyHeader := Contains(HeaderText(t.headers), "property");
    var first := Take(t.rows, 5);
    var count := 0;
    var i := 0;
    while i < |first|
      invariant 0 <= i <= |first|
      invariant count == KeyValueCount(first[..i])
    {
      assert first[..i + 1][..i] == first[..i];
      if IsKeyValueRow(first[i]) {
        count := count + 1;
      }
      i := i + 1;
    }
    assert first[..i] == first;
    KeyValueCountIsSize(first);
    b := hasPropertyHeader && count >= 3;
  }

  /** The bucket a table lands in under a pattern table; `None` for a table with an
      error entry, which is dropped. */
  function BucketIn(table: PatternTable, t: Table): (r: Option<TableKind>)
    ensures t.hasError <==> r.None?
    ensures !t.hasError && PropertyInfoShape(t) ==> r == Some(PropertyInfo)
    ensures !t.hasError && !PropertyInfoShape(t) ==>
              match FirstKindFrom(table, HeaderText(t.headers), 0)
              case Some(k) => r == Some(table[k].0)
              case None => r == Some(Other)
  {
    if t.hasError then None
    else if PropertyInfoShape(t) then Some(PropertyInfo)
    else
      match FirstKindFrom(table, HeaderText(t.headers), 0)
      case Some(k) => Some(table[k].0)
      case None => Some(Other)
  }

  /** The tables of `tables` that land in bucket `kind`, in order. */
  function InBucket(table: PatternTable, tables: seq<Table>, kind: TableKind): (r: seq<Table>)
    ensures |r| <= |tables|
  {
    if tables == [] then []
    else
      var init := InBucket(table, tables[..|tables| - 1], kind);
      var t := tables[|tables| - 1];
      if BucketIn(table, t) == Some(kind) then init + [t] else init
  }

  /** A bucket holds exactly the tables `BucketIn` sends there. */
  lemma {:induction false} InBucketMembers(table: PatternTable, tables: seq<Table>, kind: TableKind, t: Table)
    ensures t in InBucket(table, tables, kind) <==> t in tables && BucketIn(table, t) == Some(kind)
  {
    if tables != [] {
      var init := tables[..|tables| - 1];
      var last := tables[|tables| - 1];
      InBucketMembers(table, init, kind, t);
      assert tables == init + [last];
    }
  }

  datatype Classified = Classified(unitBreakdown: seq<Table>, rentRoll: seq<Table>, expenses: seq<Table>,
                                   propertyInfo: seq<Table>, other: seq<Table>)

  function BucketOf(c: Classified, kind: TableKind): seq<Table> {
    match kind
    case UnitBreakdown => c.unitBreakdown
    case RentRoll => c.rentRoll
    case Expenses => c.expenses
    case PropertyInfo => c.propertyInfo
    case Other => c.other
  }

  function Append(c: Classified, kind: TableKind, t: Table): (r: Classified)
    ensures forall k :: BucketOf(r, k) == if k == kind then BucketOf(c, k) + [t] else BucketOf(c, k)
  {
    match kind
    case UnitBreakdown => c.(unitBreakdown := c.unitBreakdown + [t])
    case RentRoll => c.(rentRoll := c.rentRoll + [t])
    case Expenses => c.(expenses := c.expenses + [t])
    case PropertyInfo => c.(propertyInfo := c.propertyInfo + [t])
    case Other => c.(other := c.other + [t])
  }

  lemma InBucketStep(table: PatternTable, tables: seq<Table>, i: nat)
    requires i < |tables|
    ensures forall k :: InBucket(table, tables[..i + 1], k) ==
              if BucketIn(table, tables[i]) == Some(k) then InBucket(table, tables[..i], k) + [tables[i]]
              else InBucket(table, tables[..i], k)
  {
    assert tables[..i + 1][..i] == tables[..i];
  }

  /** Every bucket of `c` holds what `InBucket` says for `tables`. */
  ghost predicate Sorted(table: PatternTable, tables: seq<Table>, c: Classified) {
    forall k :: BucketOf(c, k) == InBucket(table, tables, k)
  }

  lemma SortedStep(table: PatternTable, tables: seq<Table>, i: nat, c: Classified)
    requires i < |tables| && Sorted(table, tables[..i], c)
    ensures BucketIn(table, tables[i]).None? ==> Sorted(table, tables[..i + 1], c)
    ensures BucketIn(table, tables[i]).Some? ==>
              Sorted(table, tables[..i + 1], Append(c, BucketIn(table, tables[i]).value, tables[i]))
  {
    InBucketStep(table, tables, i);
  }

  /** `_classify_tables` with the pattern table `table` (the transformer's is
      `TABLE_PATTERNS`): every bucket holds, in input order, exactly the tables
      that `BucketIn` sends there. */
  method ClassifyTables(table: PatternTable, tables: seq<Table>) returns (c: Classified)
    ensures forall k :: BucketOf(c, k) == InBucket(table, tables, k)
  {
    c := Classified([], [], [], [], []);
    var i := 0;
    while i < |tables|
      invariant 0 <= i <= |tables|
      invariant Sorted(table, tables[..i], c)
    {
      var t := tables[i];
      SortedStep(table, tables, i, c);
      if !t.hasError {
        var kind := KindOf(table, t);
        c := Append(c, kind, t);
      }
      i := i + 1;
    }
    assert tables[..i] == tables;
  }

  /** The bucket of a table without an error entry, decided as the loop body of
      `_classify_tables` does. */
  method KindOf(table: PatternTable, t: Table) returns (kind: TableKind)
    requires !t.hasError
    ensures BucketIn(table, t) == Some(kind)
  {
    var isInfo := IsPropertyInfoTable(t);
    kind := Other;
    if isInfo {
      kind := PropertyInfo;
    } else {
      var found := FirstKindFrom(table, HeaderText(t.headers), 0);
      if found.Some? {
        kind := table[found.value].0;
      }
    }
  }

  /** The number of tables without an error entry. */
  function Usable(tables: seq<Table>): nat {
    if tables == [] then 0
    else Usable(tables[..|tables| - 1]) + (if tables[|tables| - 1].hasError then 0 else 1)
  }

  /** The buckets partition the tables without errors: their sizes add up to that
      number (and a table is in at most one bucket since `InBucket` keeps exactly
      the tables `BucketIn` sends there). */
  lemma {:induction false} BucketsPartition(table: PatternTable, tables: seq<Table>)
    ensures BucketSizes(table, tables) == Usable(tables)
  {
    if tables != [] {
      var n := |tables| - 1;
      BucketsPartition(table, tables[..n]);
      BucketSizesStep(table, tables, n);
      assert tables[..n + 1] == tables;
    }
  }

  /** The five bucket sizes added up. */
  function BucketSizes(table: PatternTable, tables: seq<Table>): nat {
    |InBucket(table, tables, UnitBreakdown)| + |InBucket(table, tables, RentRoll)|
    + |InBucket(table, tables, Expenses)| + |InBucket(table, tables, PropertyInfo)|
    + |InBucket(table, tables, Other)|
  }

  lemma BucketSizesStep(table: PatternTable, tables: seq<Table>, n: nat)
    requires n < |tables|
    ensures BucketSizes(table, tables[..n + 1]) == BucketSizes(table, tables[..n]) + (if tables[n].hasError then 0 else 1)
  {
    InBucketStep(table, tables, n);
    var b := BucketIn(table, tables[n]);
    if b.Some? {
      match b.value
      case UnitBreakdown =>
      case RentRoll =>
      case Expenses =>
      case PropertyInfo =>
      case Other =>
    }
  }

  // ---------------------------------------------------------------------------
  // Values of the property-info table

  /** A normalised value: Python's `None`, a number (kept as the literal that
      `float()` reads) or the stripped text. */
  datatype PropValue = Missing | Number(literal: string) | Text(text: string)

  predicate AllDigits(s: string) {
    forall k :: 0 <= k < |s| ==> IsDigit(s[k])
  }

  /** The longest prefix of ASCII digits. */
  function DigitRun(s: string): (r: string)
    ensures |r| <= |s| && r == s[..|r|] && AllDigits(r)
    ensures |r| == |s| || !IsDigit(s[|r|])
  {
    if s != [] && IsDigit(s[0]) then [s[0]] + DigitRun(s[1..]) else []
  }

  /** Group 1 of `re.match(r'\$?([\d,]+(?:\.\d+)?)', t)` for a string `t` that has
      no commas left: the digits after an optional "$", and a fraction when a
      point and at least one digit follow. */
  function CurrencyLiteral(t: string): (r: Option<string>)
    ensures r.Some? ==> r.value != [] && IsDigit(r.value[0])
  {
    var start := if t != [] && t[0] == '$' then 1 else 0;
    var whole := DigitRun(t[start..]);
    if whole == [] then None
    else
      var rest := t[start + |whole|..];
      if |rest| >= 2 && rest[0] == '.' && IsDigit(rest[1]) then Some(whole + "." + DigitRun(rest[1..]))
      else Some(whole)
  }

  predicate IsDigitOrPoint(c: char) { IsDigit(c) || c == '.' }

  /** The longest prefix of digits and points. */
  function DigitPointRun(s: string): (r: string)
    ensures |r| <= |s| && r == s[..|r|] && forall k :: 0 <= k < |r| ==> IsDigitOrPoint(r[k])
    ensures |r| == |s| || !IsDigitOrPoint(s[|r|])
  {
    if s != [] && IsDigitOrPoint(s[0]) then [s[0]] + DigitPointRun(s[1..]) else []
  }

  /** Group 1 of `re.match(r'([\d.]+)%', s)`. */
  function PercentLiteral(s: string): (r: Option<string>)
    ensures r.Some? ==> r.value != [] && |r.value| < |s| && s[..|r.value|] == r.value && s[|r.value|] == '%'
  {
    var run := DigitPointRun(s);
    if run != [] && |run| < |s| && s[|run|] == '%' then Some(run) else None
  }

  /** `_normalize_value` on the string form of a value: "-" and "n/a" become
      `None`; a leading amount (commas ignored, optional "$") or a leading
      `[\d.]+%` that `float()` accepts becomes a number; anything else stays as
      the stripped text. */
  function NormalizeValue(value: string): (r: PropValue)
    ensures r.Missing? <==> Strip(value) == "-" || Lower(Strip(value)) == "n/a"
    ensures r.Text? ==> r.text == Strip(value)
    ensures r.Number? ==> ColumnTypes.IsFloatLiteral(r.literal)
  {
    var s := Strip(value);
    if s == "-" || Lower(s) == "n/a" then Missing
    else
      match CurrencyLiteral(RemoveChar(s, ','))
      case Some(lit) => CurrencyLiteralIsFloat(RemoveChar(s, ',')); Number(lit)
      case None =>
        match PercentLiteral(s)
        case Some(lit) => if ColumnTypes.IsFloatLiteral(lit) then Number(lit) else Text(s)
        case None => Text(s)
  }

  lemma {:induction false} DigitPartStops(s: string, i: nat, a: nat)
    requires i <= a <= |s| && forall k :: i <= k < a ==> IsDigit(s[k])
    requires a == |s| || (s[a] != '_' && !IsDigit(s[a]))
    ensures ColumnTypes.DigitPartFrom(s, i) == a
    decreases a - i
  {
    if i < a {
      DigitPartStops(s, i + 1, a);
    }
  }

  /** A run of digits, and digits, a point and digits, are literals `float()`
      accepts. */
  lemma DecimalIsFloat(whole: string, frac: Option<string>)
    requires whole != [] && AllDigits(whole)
    requires frac.Some? ==> frac.value != [] && AllDigits(frac.value)
    ensures ColumnTypes.IsFloatLiteral(if frac.Some? then whole + "." + frac.value else whole)
  {
    var lit := if frac.Some? then whole + "." + frac.value else whole;
    if frac.Some? {
      DigitPartStops(lit, 1, |whole|);
      DigitPartStops(lit, |whole| + 2, |lit|);
    } else {
      DigitPartStops(lit, 1, |lit|);
    }
    assert ColumnTypes.UnsignedNumber(lit);
    ColumnTypes.DigitsStrip(lit);
    assert Lower(lit)[0] == lit[0];
  }

  /** Every literal the currency pattern extracts is one `float()` accepts. */
  lemma CurrencyLiteralIsFloat(t: string)
    ensures CurrencyLiteral(t).Some? ==> ColumnTypes.IsFloatLiteral(CurrencyLiteral(t).value)
  {
    if CurrencyLiteral(t).Some? {
      var start := if t != [] && t[0] == '$' then 1 else 0;
      var whole := DigitRun(t[start..]);
      var rest := t[start + |whole|..];
      if |rest| >= 2 && rest[0] == '.' && IsDigit(rest[1]) {
        var frac := DigitRun(rest[1..]);
        assert frac != [] by { assert rest[1..][0] == rest[1]; }
        DecimalIsFloat(whole, Some(frac));
      } else {
        DecimalIsFloat(whole, None);
      }
    }
  }

  /** The fixed names of the known property keys. */
  function KnownKey(k: string): Option<string> {
    if k == "no. of units" then Some("no_of_units")
    else if k == "stories" then Some("stories")
    else if k == "avg. unit size" then Some("avg_unit_size")
    else if k == "type" then Some("property_type")
    else if k == "rent type" then Some("rent_type")
    else if k == "year built" then Some("year_built")
    else if k == "parking" then Some("parking")
    else if k == "distance to transit" then Some("distance_to_transit")
    else None
  }

  /** `_normalize_property_key`: lower-cased and stripped, then a fixed name for
      the known keys, else spaces become underscores and points are dropped. */
  function NormalizePropertyKey(key: string): (r: string)
    ensures KnownKey(Strip(Lower(key))).Some? ==> r == KnownKey(Strip(Lower(key))).value
    ensures KnownKey(Strip(Lower(key))).None? ==> ' ' !in r && '.' !in r && |r| <= |Strip(Lower(key))|
  {
    var k := Strip(Lower(key));
    match KnownKey(k)
    case Some(name) => name
    case None =>
      RemoveKeepsAbsent(ReplaceSpaces(k), '.', ' ');
      RemoveChar(ReplaceSpaces(k), '.')
  }

  /** `str.replace(" ", "_")`. */
  function ReplaceSpaces(s: string): (r: string)
    ensures |r| == |s| && ' ' !in r
  {
    if s == [] then [] else [if s[0] == ' ' then '_' else s[0]] + ReplaceSpaces(s[1..])
  }

  lemma {:induction false} RemoveKeepsAbsent(s: string, c: char, d: char)
    requires d !in s
    ensures d !in RemoveChar(s, c)
  {
    if s != [] {
      RemoveKeepsAbsent(s[1..], c, d);
    }
  }

  // ---------------------------------------------------------------------------
  // The right-hand column: property manager and owner values

  predicate IsPhoneSeparator(c: char) { IsSpace(c) || c == '.' || c == '-' }

  predicate DigitsAt(s: string, i: nat, n: nat) {
    i + n <= |s| && forall k :: i <= k < i + n ==> IsDigit(s[k])
  }

  /** `re.match(r'\(?\d{3}\)?[\s.-]?\d{3}[\s.-]?\d{4}', s)` succeeds. Each optional
      piece is taken when present: leaving it out could only put a non-digit where
      the next digit group must start. */
  predicate PhonePrefix(s: string) {
    var a := if s != [] && s[0] == '(' then 1 else 0;
    DigitsAt(s, a, 3)
    && var b := if a + 3 < |s| && s[a + 3] == ')' then a + 4 else a + 3;
       var c := if b < |s| && IsPhoneSeparator(s[b]) then b + 1 else b;
       DigitsAt(s, c, 3)
       && var d := if c + 3 < |s| && IsPhoneSeparator(s[c + 3]) then c + 4 else c + 3;
          DigitsAt(s, d, 4)
  }

  /** The longest prefix of digits and commas. */
  function DigitCommaRun(s: string): (r: string)
    ensures |r| <= |s| && r == s[..|r|]
  {
    if s != [] && (IsDigit(s[0]) || s[0] == ',') then [s[0]] + DigitCommaRun(s[1..]) else []
  }

  /** The longest prefix without `c`. */
  function UpTo(s: string, c: char): (r: string)
    ensures |r| <= |s| && r == s[..|r|] && c !in r
    ensures |r| < |s| ==> s[|r|] == c
  {
    if s == [] || s[0] == c then [] else [s[0]] + UpTo(s[1..], c)
  }

  /** Groups 1 and 2 of `re.match(r'\$([\d,]+)(?:\s*\(([^)]+)\))?', s)`. */
  function PriceMatch(s: string): (r: Option<(string, Option<string>)>)
    ensures r.Some? ==> StartsWith(s, "$") && r.value.0 != [] && StartsWith(s[1..], r.value.0)
    ensures r.Some? && r.value.1.Some? ==> r.value.1.value != [] && ')' !in r.value.1.value
  {
    if s == [] || s[0] != '$' then None
    else
      var run := DigitCommaRun(s[1..]);
      if run == [] then None
      else
        var after := TrimStart(s[1 + |run|..]);
        if after != [] && after[0] == '(' then
          var inner := UpTo(after[1..], ')');
          if inner != [] && |inner| < |after| - 1 then Some((run, Some(inner))) else Some((run, None))
        else Some((run, None))
  }

  /** The end of the longest run of ASCII letters from `i`. */
  function LetterEnd(s: string, i: nat): (e: nat)
    requires i <= |s|
    ensures i <= e <= |s| && forall k :: i <= k < e ==> IsLetter(s[k])
    decreases |s| - i
  {
    if i < |s| && IsLetter(s[i]) then LetterEnd(s, i + 1) else i
  }

  /** The end of the longest whitespace run from `i`. */
  function SpaceEnd(s: string, i: nat): (e: nat)
    requires i <= |s|
    ensures i <= e <= |s| && forall k :: i <= k < e ==> IsSpace(s[k])
    decreases |s| - i
  {
    if i < |s| && IsSpace(s[i]) then SpaceEnd(s, i + 1) else i
  }

  /** The end of up to two digits from `i` (`\d{1,2}`, taken greedily). */
  function TwoDigitsEnd(s: string, i: nat): (e: nat)
    requires i <= |s|
    ensures i <= e <= |s| && e <= i + 2
  {
    if i < |s| && IsDigit(s[i]) then (if i + 1 < |s| && IsDigit(s[i + 1]) then i + 2 else i + 1) else i
  }

  /** `[A-Za-z]+\s+\d{4}` at `i`: the end of the match. */
  function MonthYearAt(s: string, i: nat): (r: Option<nat>)
    requires i <= |s|
    ensures r.Some? ==> i < r.value <= |s|
  {
    var a := LetterEnd(s, i);
    var b := SpaceEnd(s, a);
    if a > i && b > a && DigitsAt(s, b, 4) then Some(b + 4) else None
  }

  /** `\d{1,2}/\d{1,2}/\d{4}` at `i`: the end of the match. */
  function SlashDateAt(s: string, i: nat): (r: Option<nat>)
    requires i <= |s|
    ensures r.Some? ==> i < r.value <= |s|
  {
    var a := TwoDigitsEnd(s, i);
    if a > i && a < |s| && s[a] == '/' then
      var b := TwoDigitsEnd(s, a + 1);
      if b > a + 1 && b < |s| && s[b] == '/' && DigitsAt(s, b + 1, 4) then Some(b + 5) else None
    else None
  }

  /** Group 1 of `re.search(r'(?:Purchased\s+)?([A-Za-z]+\s+\d{4}|\d{1,2}/\d{1,2}/\d{4})', s)`
      from position `i` on, for a string without "Purchased": the leftmost match,
      the first alternative preferred at the same position. */
  function DateSearchFrom(s: string, i: nat): (r: Option<string>)
    requires i <= |s|
    decreases |s| - i
  {
    match MonthYearAt(s, i)
    case Some(e) => Some(s[i..e])
    case None =>
      match SlashDateAt(s, i)
      case Some(e) => Some(s[i..e])
      case None => if i < |s| then DateSearchFrom(s, i + 1) else None
  }

  /** `_parse_property_manager_value`: a phone number (matched at the start) sets
      "phone"; any other value sets "name" unless a name is already there. */
  function ParseManagerValue(value: string, target: map<string, string>): (r: map<string, string>)
    ensures "name" in target ==> "name" in r && r["name"] == target["name"]
    ensures PhonePrefix(value) ==> r == target["phone" := value]
    ensures !PhonePrefix(value) && "name" !in target && value != "" ==> r == target["name" := value]
    ensures forall k :: k in r && k != "phone" && k != "name" ==> k in target && r[k] == target[k]
  {
    if PhonePrefix(value) then target["phone" := value]
    else if "name" !in target && value != "" then target["name" := value]
    else target
  }

  /** `_parse_owner_value`: a value starting with "$" sets the price fields when
      the price pattern matches and nothing else; otherwise a date sets
      "purchase_date" (the whole value when it says "Purchased"); otherwise it
      sets "name" unless a name is already there. */
  function ParseOwnerValue(value: string, target: map<string, string>): (r: map<string, string>)
    ensures "name" in target ==> "name" in r && r["name"] == target["name"]
    ensures "name" in r && "name" !in target ==>
              r["name"] == value && !StartsWith(value, "$") && DateSearchFrom(value, 0).None?
    ensures !StartsWith(value, "$") && DateSearchFrom(value, 0).None? && "name" !in target && value != "" ==>
              r == target["name" := value]
    ensures StartsWith(value, "$") && PriceMatch(value).None? ==> r == target
    ensures forall k :: k in r && k !in OWNER_FIELDS ==> k in target && r[k] == target[k]
  {
    if StartsWith(value, "$") then
      match PriceMatch(value)
      case None => target
      case Some((digits, perUnit)) =>
        var priced := target["purchase_price" := value]["purchase_price_raw" := RemoveChar(digits, ',')];
        if perUnit.Some? then priced["price_per_unit" := perUnit.value] else priced
    else
      match DateSearchFrom(value, 0)
      case Some(date) => target["purchase_date" := if Contains(value, "Purchased") then value else date]
      case None => if "name" !in target && value != "" then target["name" := value] else target
  }

  const OWNER_FIELDS: set<string> := {"purchase_price", "purchase_price_raw", "price_per_unit", "purchase_date", "name"}

  // ---------------------------------------------------------------------------
  // The property-info table parser

  /** Which block the right-hand column is in. */
  datatype RightSection = ManagerBlock | OwnerBlock

  datatype PropertyInfoData = PropertyInfoData(property: map<string, PropValue>, manager: map<string, string>,
                                               owner: map<string, string>)

  datatype ParseState = ParseState(data: PropertyInfoData, right: RightSection)

  const START := ParseState(PropertyInfoData(map[], map[], map[]), ManagerBlock)

  /** `str(values[k]).strip()`, or "" past the end of the row. */
  function CellAt(row: seq<string>, k: nat): string {
    if k < |row| then Strip(row[k]) else ""
  }

  /** A row that switches the right-hand column to the owner block. */
  predicate IsOwnerMarker(row: seq<string>) {
    |row| >= 2 && CellAt(row, 2) != "" && Upper(CellAt(row, 2)) == "OWNER"
  }

  /** The property entry a row stores, if any: its key ends in ":", the key name is
      not empty, and the value is neither empty nor "-". */
  function PropertyEntry(row: seq<string>): (r: Option<(string, PropValue)>)
    requires |row| >= 2
    ensures r.Some? ==> EndsWith(CellAt(row, 0), ":") && r.value.0 != []
                        && CellAt(row, 1) != "" && CellAt(row, 1) != "-"
  {
    var key := CellAt(row, 0);
    var value := CellAt(row, 1);
    if EndsWith(key, ":") then
      var name := NormalizePropertyKey(TrimEndChar(key, ':'));
      if name != "" && value != "" && value != "-" then Some((name, NormalizeValue(value))) else None
    else None
  }

  /** One row of the table. */
  function ParseRow(st: ParseState, row: seq<string>): ParseState {
    if |row| < 2 then st
    else
      var property := match PropertyEntry(row)
                      case Some((k, v)) => st.data.property[k := v]
                      case None => st.data.property;
      var right := CellAt(row, 2);
      var data := st.data.(property := property);
      if right == "" then ParseState(data, st.right)
      else if Upper(right) == "OWNER" then ParseState(data, OwnerBlock)
      else if st.right == ManagerBlock then ParseState(data.(manager := ParseManagerValue(right, data.manager)), st.right)
      else ParseState(data.(owner := ParseOwnerValue(right, data.owner)), st.right)
  }

  /** A short row changes nothing; the owner marker switches to the owner block
      and touches neither block's fields; any other row keeps the block, and a row
      only ever writes the fields of the block it is in. */
  lemma ParseRowEffect(st: ParseState, row: seq<string>)
    ensures var r := ParseRow(st, row);
            (|row| < 2 ==> r == st)
            && (IsOwnerMarker(row) ==> r.right == OwnerBlock && r.data.manager == st.data.manager
                                       && r.data.owner == st.data.owner)
            && (!IsOwnerMarker(row) ==> r.right == st.right)
            && (st.right == ManagerBlock ==> r.data.owner == st.data.owner)
            && (st.right == OwnerBlock ==> r.data.manager == st.data.manager)
  {
    ParseRowBlock(st, row);
    ParseRowFields(st, row);
  }

  lemma ParseRowBlock(st: ParseState, row: seq<string>)
    ensures var r := ParseRow(st, row);
            (|row| < 2 ==> r == st)
            && (IsOwnerMarker(row) ==> r.right == OwnerBlock && r.data.manager == st.data.manager
                                       && r.data.owner == st.data.owner)
            && (!IsOwnerMarker(row) ==> r.right == st.right)
  {
  }

  lemma ParseRowFields(st: ParseState, row: seq<string>)
    ensures var r := ParseRow(st, row);
            (st.right == ManagerBlock ==> r.data.owner == st.data.owner)
            && (st.right == OwnerBlock ==> r.data.manager == st.data.manager)
  {
    if |row| >= 2 {
      var right := CellAt(row, 2);
      var r := ParseRow(st, row);
      if right == "" || Upper(right) == "OWNER" {
        assert r.data.manager == st.data.manager && r.data.owner == st.data.owner;
      } else if st.right == ManagerBlock {
        assert r.data.owner == st.data.owner;
      } else {
        assert r.data.manager == st.data.manager;
      }
    }
  }

  /** The rows from the first, as the parser's loop visits them. */
  function ParseRows(rows: seq<seq<string>>): ParseState {
    if rows == [] then START else ParseRow(ParseRows(rows[..|rows| - 1]), rows[|rows| - 1])
  }

  /** `_parse_property_info_table`. */
  method ParsePropertyInfoTable(t: Table) returns (info: PropertyInfoData)
    ensures info == ParseRows(t.rows).data
  {
    var property: map<string, PropValue> := map[];
    var manager: map<string, string> := map[];
    var owner: map<string, string> := map[];
    var current := ManagerBlock;
    var i := 0;
    while i < |t.rows|
      invariant 0 <= i <= |t.rows|
      invariant ParseState(PropertyInfoData(property, manager, owner), current) == ParseRows(t.rows[..i])
    {
      assert t.rows[..i + 1][..i] == t.rows[..i];
      property, manager, owner, current := ReadRow(property, manager, owner, current, t.rows[i]);
      i := i + 1;
    }
    assert t.rows[..i] == t.rows;
    info := PropertyInfoData(property, manager, owner);
  }

  /** The body of the parser's loop for one row. */
  method ReadRow(property: map<string, PropValue>, manager: map<string, string>, owner: map<string, string>,
                 current: RightSection, values: seq<string>)
    returns (property': map<string, PropValue>, manager': map<string, string>, owner': map<string, string>,
             current': RightSection)
    ensures ParseState(PropertyInfoData(property', manager', owner'), current')
            == ParseRow(ParseState(PropertyInfoData(property, manager, owner), current), values)
  {
    property', manager', owner', current' := property, manager, owner, current;
    if |values| < 2 {
      return;
    }
    match PropertyEntry(values) {
      case Some((k, v)) => property' := property'[k := v];
      case None =>
    }
    var right := CellAt(values, 2);
    if right != "" {
      if Upper(right) == "OWNER" {
        current' := OwnerBlock;
        return;
      }
      if current == ManagerBlock {
        manager' := ParseManagerValue(right, manager);
      } else {
        owner' := ParseOwnerValue(right, owner);
      }
    }
  }

  /** Once in the owner block, the parser stays there. */
  lemma {:induction false} OwnerBlockPermanent(rows: seq<seq<string>>, j: nat, k: nat)
    requires j <= k <= |rows| && ParseRows(rows[..j]).right == OwnerBlock
    ensures ParseRows(rows[..k]).right == OwnerBlock
    decreases k - j
  {
    if j < k {
      assert rows[..j + 1][..j] == rows[..j];
      ParseRowEffect(ParseRows(rows[..j]), rows[j]);
      OwnerBlockPermanent(rows, j + 1, k);
    }
  }

  /** The parser ends in the owner block exactly when some row is the marker. */
  lemma OwnerBlockIffMarker(rows: seq<seq<string>>)
    ensures ParseRows(rows).right == OwnerBlock <==> exists i :: 0 <= i < |rows| && IsOwnerMarker(rows[i])
  {
    BlockOfRows(rows);
    BlockAfterIffMarker(rows, IsOwnerMarker);
  }

  /** The block the right-hand column is in after `rows`, where `marker` tells
      the rows that switch to the owner block. */
  function BlockAfter(rows: seq<seq<string>>, marker: seq<string> -> bool): RightSection {
    if rows == [] then ManagerBlock
    else if marker(rows[|rows| - 1]) then OwnerBlock
    else BlockAfter(rows[..|rows| - 1], marker)
  }

  lemma {:induction false} BlockOfRows(rows: seq<seq<string>>)
    ensures ParseRows(rows).right == BlockAfter(rows, IsOwnerMarker)
  {
    if rows != [] {
      var init := rows[..|rows| - 1];
      BlockOfRows(init);
      ParseRowEffect(ParseRows(init), rows[|rows| - 1]);
    }
  }

  lemma {:induction false} BlockAfterIffMarker(rows: seq<seq<string>>, marker: seq<string> -> bool)
    ensures BlockAfter(rows, marker) == OwnerBlock <==> exists i :: 0 <= i < |rows| && marker(rows[i])
  {
    if rows != [] {
      var init := rows[..|rows| - 1];
      BlockAfterIffMarker(init, marker);
      assert forall i :: 0 <= i < |init| ==> init[i] == rows[i];
    }
  }

  /** A name, once set for the manager or the owner, is never replaced. */
  lemma {:induction false} NamesNeverOverwritten(rows: seq<seq<string>>, j: nat, k: nat)
    requires j <= k <= |rows|
    ensures "name" in ParseRows(rows[..j]).data.manager ==>
              "name" in ParseRows(rows[..k]).data.manager
              && ParseRows(rows[..k]).data.manager["name"] == ParseRows(rows[..j]).data.manager["name"]
    ensures "name" in ParseRows(rows[..j]).data.owner ==>
              "name" in ParseRows(rows[..k]).data.owner
              && ParseRows(rows[..k]).data.owner["name"] == ParseRows(rows[..j]).data.owner["name"]
    decreases k - j
  {
    if j < k {
      assert rows[..j + 1][..j] == rows[..j];
      ParseRowEffect(ParseRows(rows[..j]), rows[j]);
      NamesNeverOverwritten(rows, j + 1, k);
    }
  }

  /** Rows after the owner marker never touch the manager's fields, rows before it
      never touch the owner's. */
  lemma {:induction false} BlocksSeparate(rows: seq<seq<string>>, j: nat, k: nat)
    requires j <= k <= |rows| && ParseRows(rows[..j]).right == OwnerBlock
    ensures ParseRows(rows[..k]).data.manager == ParseRows(rows[..j]).data.manager
    decreases k - j
  {
    if j < k {
      assert rows[..j + 1][..j] == rows[..j];
      OwnerBlockPermanent(rows, j, j + 1);
      ParseRowEffect(ParseRows(rows[..j]), rows[j]);
      BlocksSeparate(rows, j + 1, k);
    }
  }

  // ---------------------------------------------------------------------------
  // Key/value extraction from text

  /** A regular-expression search: group 1 of the first match of `pattern` in the
      text, ignoring case, or `None`. */
  type Search = (string, string) -> Option<string>

  type KeyPatterns = seq<(string, seq<string>)>

  /** The keys `_extract_key_values` knows and their patterns, tried in order. */
  const KEY_PATTERNS: KeyPatterns := [
    ("no_of_units", ["(\\d+)\\s*(?:Units?|Apartments?)", "Property\\s+Size[:\\s]*(\\d+)"]),
    ("stories", ["(\\d+)\\s*(?:Stor(?:y|ies)|Floor)"]),
    ("avg_unit_size", ["Avg\\.?\\s*Unit\\s*Size[:\\s]*(\\d+(?:,\\d+)?)\\s*SF", "Average\\s*(?:Unit\\s*)?Size[:\\s]*(\\d+)"]),
    ("year_built", ["Year\\s*Built[:\\s]*(\\d{4})", "Built\\s*(?:in\\s*)?(\\d{4})"]),
    ("parking", ["Parking[:\\s]*(.+?)(?:\\n|$)"]),
    ("name", ["Owner[:\\s]*(.+?)(?:\\n|$)", "Property\\s*Manager[:\\s]*(.+?)(?:\\n|$)"]),
    ("purchase_date", ["Purchase\\s*Date[:\\s]*(.+?)(?:\\n|$)", "Acquired[:\\s]*(.+?)(?:\\n|$)"]),
    ("purchase_price", ["Purchase\\s*Price[:\\s]*(\\$[\\d,]+(?:\\s*\\([^)]+\\))?)", "Sale\\s*Price[:\\s]*(\\$[\\d,]+)"]),
    ("current", ["Current[:\\s]*([\\d.]+%?\\s*(?:Units?)?)"]),
    ("submarket_total", ["Submarket(?:\\s*Total)?[:\\s]*([\\d,]+\\s*(?:Units?)?)"]),
    ("submarket_avg", ["Submarket\\s*Avg[:\\s]*([\\d.]+\\s*(?:Units?)?)"])
  ]

  /** The stripped group of the first pattern that matches. */
  function FirstFound(search: Search, patterns: seq<string>, text: string): (r: Option<string>)
    ensures r.Some? ==> exists j :: 0 <= j < |patterns| && search(patterns[j], text).Some?
                          && r.value == Strip(search(patterns[j], text).value)
                          && forall m :: 0 <= m < j ==> search(patterns[m], text).None?
    ensures r.None? ==> forall j :: 0 <= j < |patterns| ==> search(patterns[j], text).None?
  {
    if patterns == [] then None
    else if search(patterns[0], text).Some? then Some(Strip(search(patterns[0], text).value))
    else
      var rest := FirstFound(search, patterns[1..], text);
      assert forall j :: 1 <= j < |patterns| ==> patterns[j] == patterns[1..][j - 1];
      rest
  }

  /** One entry of the pattern table applied to the target. */
  function FillKey(entry: (string, seq<string>), text: string, target: map<string, Option<string>>,
                   search: Search): (r: map<string, Option<string>>)
    ensures r.Keys == target.Keys
    ensures forall k :: k in target && (k != entry.0 || target[k].Some?) ==> r[k] == target[k]
  {
    var key := entry.0;
    if key in target && target[key].None? then
      match FirstFound(search, entry.1, text)
      case Some(v) => target[key := Some(v)]
      case None => target
    else target
  }

  predicate HasKey(patterns: KeyPatterns, key: string) {
    exists i :: 0 <= i < |patterns| && patterns[i].0 == key
  }

  /** The pattern table applied entry by entry: only keys already in the target,
      only those still `None`, only keys of the table; no key added. */
  function FillFrom(patterns: KeyPatterns, text: string, target: map<string, Option<string>>,
                    search: Search): (r: map<string, Option<string>>)
    ensures r.Keys == target.Keys
    ensures forall k :: k in target && target[k].Some? ==> r[k] == target[k]
    ensures forall k :: k in target && !HasKey(patterns, k) ==> r[k] == target[k]
  {
    if patterns == [] then target
    else
      var init := patterns[..|patterns| - 1];
      var before := FillFrom(init, text, target, search);
      assert forall k :: HasKey(init, k) ==> HasKey(patterns, k);
      FillKey(patterns[|patterns| - 1], text, before, search)
  }

  /** A key that changes gets the stripped group of the first of its patterns that
      matches. */
  lemma {:induction false} FilledFromItsPatterns(patterns: KeyPatterns, text: string, target: map<string, Option<string>>,
                                                 search: Search, k: string)
    requires k in target && FillFrom(patterns, text, target, search)[k] != target[k]
    ensures target[k].None?
    ensures exists i :: 0 <= i < |patterns| && patterns[i].0 == k
              && FillFrom(patterns, text, target, search)[k] == FirstFound(search, patterns[i].1, text)
  {
    var n := |patterns| - 1;
    var init := patterns[..n];
    var before := FillFrom(init, text, target, search);
    if before[k] != target[k] {
      FilledFromItsPatterns(init, text, target, search, k);
      var i :| 0 <= i < |init| && init[i].0 == k && before[k] == FirstFound(search, init[i].1, text);
      assert patterns[i] == init[i];
    } else {
      assert patterns[n].0 == k;
    }
  }

  lemma FillFromStep(patterns: KeyPatterns, i: nat, text: string, target: map<string, Option<string>>, search: Search)
    requires i < |patterns|
    ensures FillFrom(patterns[..i + 1], text, target, search)
            == FillKey(patterns[i], text, FillFrom(patterns[..i], text, target, search), search)
  {
    assert patterns[..i + 1][..i] == patterns[..i];
  }

  /** `_extract_key_values` with the pattern table `patterns` (the transformer's
      is `KEY_PATTERNS`), the regular-expression engine given as `search`. */
  method ExtractKeyValues(patterns: KeyPatterns, text: string, target: map<string, Option<string>>, search: Search)
      returns (filled: map<string, Option<string>>)
    ensures filled == FillFrom(patterns, text, target, search)
  {
    filled := target;
    var i := 0;
    while i < |patterns|
      invariant 0 <= i <= |patterns|
      invariant filled == FillFrom(patterns[..i], text, target, search)
    {
      FillFromStep(patterns, i, text, target, search);
      filled := FillEntry(patterns[i], text, filled, search);
      i := i + 1;
    }
    assert patterns[..i] == patterns;
  }

  /** One entry of the pattern table: a key still `None` gets the stripped group
      of the first of its patterns that matches. */
  method FillEntry(entry: (string, seq<string>), text: string, target: map<string, Option<string>>, search: Search)
      returns (filled: map<string, Option<string>>)
    ensures filled == FillKey(entry, text, target, search)
  {
    filled := target;
    var key := entry.0;
    if key in filled && filled[key].None? {
      var found := FindFirst(search, entry.1, text);
      if found.Some? {
        filled := filled[key := found];
      }
    }
  }

  /** The loop over one key's patterns, stopping at the first that matches. */
  method FindFirst(search: Search, patterns: seq<string>, text: string) returns (r: Option<string>)
    ensures r == FirstFound(search, patterns, text)
  {
    var j := 0;
    while j < |patterns|
      invariant 0 <= j <= |patterns|
      invariant FirstFound(search, patterns, text) == FirstFound(search, patterns[j..], text)
    {
      FirstFoundStep(search, patterns, text, j);
      var found := search(patterns[j], text);
      if found.Some? {
        return Some(Strip(found.value));
      }
      j := j + 1;
    }
    assert patterns[j..] == [];
    return None;
  }

  lemma FirstFoundStep(search: Search, patterns: seq<string>, text: string, j: nat)
    requires j < |patterns|
    ensures FirstFound(search, patterns[j..], text)
            == if search(patterns[j], text).Some? then Some(Strip(search(patterns[j], text).value))
               else FirstFound(search, patterns[j + 1..], text)
  {
    assert patterns[j..][1..] == patterns[j + 1..];
  }

  // ---------------------------------------------------------------------------
  // Amenities

  /** The amenities a table cell yields. */
  predicate CellQualifies(cell: string) {
    |Strip(cell)| > 2 && !StartsWith(Strip(cell), "-")
  }

  function CellCandidates(cells: seq<string>): (r: seq<string>)
    ensures forall c :: c in r <==> exists i :: 0 <= i < |cells| && CellQualifies(cells[i]) && c == Strip(cells[i])
  {
    if cells == [] then []
    else
      var init := CellCandidates(cells[..|cells| - 1]);
      assert forall i :: 0 <= i < |cells| - 1 ==> cells[..|cells| - 1][i] == cells[i];
      var c := cells[|cells| - 1];
      if CellQualifies(c) then init + [Strip(c)] else init
  }

  /** The amenities one line yields: the qualifying cells of a markdown table row,
      or the line itself when it is long enough and not a markdown heading. */
  function LineCandidates(line: string): seq<string> {
    var t := Strip(line);
    if t == [] then []
    else if '|' in t then CellCandidates(Split(t, '|'))
    else if |t| > 2 && !StartsWith(t, "#") then [t]
    else []
  }

  /** A line's candidates are longer than two characters; from a table row they
      hold no `|` and do not start with `-`; otherwise the candidate is the
      stripped line, not a markdown heading. */
  lemma LineCandidatesShape(line: string)
    ensures forall c :: c in LineCandidates(line) ==> |c| > 2
    ensures '|' in Strip(line) ==> forall c :: c in LineCandidates(line) ==> !StartsWith(c, "-") && '|' !in c
    ensures '|' !in Strip(line) ==> forall c :: c in LineCandidates(line) ==> c == Strip(line) && !StartsWith(c, "#")
  {
    var t := Strip(line);
    if t != [] && '|' in t {
      var cells := Split(t, '|');
      forall c | c in CellCandidates(cells) ensures '|' !in c {
        var i :| 0 <= i < |cells| && CellQualifies(cells[i]) && c == Strip(cells[i]);
        StripKeepsAbsent(cells[i], '|');
      }
    }
  }

  /** Stripping keeps out a character the string does not contain. */
  lemma StripKeepsAbsent(s: string, c: char)
    requires c !in s
    ensures c !in Strip(s)
  {
    var u := TrimStart(s);
    assert u == s[|s| - |u|..];
    assert TrimEnd(u) == u[..|TrimEnd(u)|];
  }

  /** The parts one after another. */
  function Flatten(parts: seq<seq<string>>): seq<string> {
    if parts == [] then [] else Flatten(parts[..|parts| - 1]) + parts[|parts| - 1]
  }

  /** The candidates of each line. */
  function PerLine(lines: seq<string>): (r: seq<seq<string>>)
    ensures |r| == |lines|
  {
    seq(|lines|, i requires 0 <= i < |lines| => LineCandidates(lines[i]))
  }

  /** The candidates of all lines in order, duplicates included. */
  function AllCandidates(lines: seq<string>): seq<string> {
    Flatten(PerLine(lines))
  }

  lemma {:induction false} FlattenFrom(parts: seq<seq<string>>, c: string) returns (i: nat)
    requires c in Flatten(parts)
    ensures i < |parts| && c in parts[i]
  {
    var init := parts[..|parts| - 1];
    if c in Flatten(init) {
      i := FlattenFrom(init, c);
      assert init[i] == parts[i];
    } else {
      i := |parts| - 1;
    }
  }

  lemma {:induction false} FlattenIncluded(parts: seq<seq<string>>, i: nat, c: string)
    requires i < |parts| && c in parts[i]
    ensures c in Flatten(parts)
  {
    var init := parts[..|parts| - 1];
    if i < |parts| - 1 {
      assert init[i] == parts[i];
      FlattenIncluded(init, i, c);
    }
  }

  /** Every candidate in the list comes from some line. */
  lemma CandidateFromLine(lines: seq<string>, c: string) returns (i: nat)
    requires c in AllCandidates(lines)
    ensures i < |lines| && c in LineCandidates(lines[i])
  {
    i := FlattenFrom(PerLine(lines), c);
  }

  /** Every candidate of every line is in the list. */
  lemma LineCandidateIncluded(lines: seq<string>, i: nat, c: string)
    requires i < |lines| && c in LineCandidates(lines[i])
    ensures c in AllCandidates(lines)
  {
    FlattenIncluded(PerLine(lines), i, c);
  }

  lemma UniqueSnoc(xs: seq<string>, x: string)
    ensures Unique(xs + [x]) == AppendNew(Unique(xs), x)
  {
    assert (xs + [x])[..|xs|] == xs;
  }

  /** One more line appends its candidates, which depend on its stripped form. */
  lemma LineStep(lines: seq<string>, i: nat)
    requires i < |lines|
    ensures AllCandidates(lines[..i + 1]) == AllCandidates(lines[..i]) + LineCandidates(lines[i])
    ensures '|' in Strip(lines[i]) ==> LineCandidates(lines[i]) == CellCandidates(Split(Strip(lines[i]), '|'))
    ensures Strip(lines[i]) == [] ==> LineCandidates(lines[i]) == []
    ensures Strip(lines[i]) != [] && '|' !in Strip(lines[i]) ==>
              LineCandidates(lines[i]) == if |Strip(lines[i])| > 2 && !StartsWith(Strip(lines[i]), "#") then [Strip(lines[i])] else []
  {
    assert PerLine(lines[..i + 1])[..i] == PerLine(lines[..i]);
  }

  lemma CellStep(base: seq<string>, cells: seq<string>, j: nat)
    requires j < |cells|
    ensures CellQualifies(cells[j]) ==>
              Unique(base + CellCandidates(cells[..j + 1])) == AppendNew(Unique(base + CellCandidates(cells[..j])), Strip(cells[j]))
    ensures !CellQualifies(cells[j]) ==>
              Unique(base + CellCandidates(cells[..j + 1])) == Unique(base + CellCandidates(cells[..j]))
  {
    assert cells[..j + 1][..j] == cells[..j];
    if CellQualifies(cells[j]) {
      assert base + CellCandidates(cells[..j + 1]) == (base + CellCandidates(cells[..j])) + [Strip(cells[j])];
      UniqueSnoc(base + CellCandidates(cells[..j]), Strip(cells[j]));
    }
  }

  /** The inner loop of `_parse_amenities_from_text` over the cells of one table
      row. */
  method AddRowCells(amenities: seq<string>, ghost base: seq<string>, cells: seq<string>)
      returns (updated: seq<string>)
    requires amenities == Unique(base)
    ensures updated == Unique(base + CellCandidates(cells))
  {
    updated := amenities;
    assert base + CellCandidates(cells[..0]) == base;
    for j := 0 to |cells|
      invariant updated == Unique(base + CellCandidates(cells[..j]))
    {
      CellStep(base, cells, j);
      var cleaned := Strip(cells[j]);
      if |cleaned| > 2 && !StartsWith(cleaned, "-") {
        if cleaned !in updated {
          updated := updated + [cleaned];
        }
      }
    }
    assert cells[..|cells|] == cells;
  }

  /** `_parse_amenities_from_text`: the candidates of every line, first occurrence
      kept. */
  method ParseAmenitiesFromText(text: string) returns (amenities: seq<string>)
    ensures amenities == Unique(AllCandidates(Split(text, '\n')))
  {
    amenities := [];
    var lines := Split(text, '\n');
    for i := 0 to |lines|
      invariant amenities == Unique(AllCandidates(lines[..i]))
    {
      LineStep(lines, i);
      ghost var base := AllCandidates(lines[..i]);
      var line := Strip(lines[i]);
      if line == [] {
        assert base + [] == base;
        continue;
      }
      if '|' in line {
        amenities := AddRowCells(amenities, base, Split(line, '|'));
      } else if |line| > 2 && !StartsWith(line, "#") {
        UniqueSnoc(base, line);
        if line !in amenities {
          amenities := amenities + [line];
        }
      } else {
        assert base + [] == base;
      }
    }
    assert lines[..|lines|] == lines;
  }

  /** The amenity list has no duplicates, every item is longer than two
      characters, and every candidate of every line is in it (`CandidateFromLine`
      gives the converse). */
  lemma AmenitiesProperties(text: string)
    ensures var r := Unique(AllCandidates(Split(text, '\n')));
            (forall i, j :: 0 <= i < j < |r| ==> r[i] != r[j])
            && (forall i :: 0 <= i < |r| ==> |r[i]| > 2)
            && (forall i, c :: 0 <= i < |Split(text, '\n')| && c in LineCandidates(Split(text, '\n')[i]) ==> c in r)
  {
    var lines := Split(text, '\n');
    var r := Unique(AllCandidates(lines));
    forall i | 0 <= i < |r|
      ensures |r[i]| > 2
    {
      assert r[i] in r;
      var l := CandidateFromLine(lines, r[i]);
      LineCandidatesShape(lines[l]);
    }
    forall i, c | 0 <= i < |lines| && c in LineCandidates(lines[i])
      ensures c in r
    {
      LineCandidateIncluded(lines, i, c);
    }
  }

  // ---------------------------------------------------------------------------
  // Headers and state names

  /** The characters of `[\s_\-]`. */
  predicate IsHeaderSeparator(c: char) { IsSpace(c) || c == '_' || c == '-' }

  /** No character of `s` is a separator. */
  predicate NoSeparator(s: string) {
    forall k :: 0 <= k < |s| ==> !IsHeaderSeparator(s[k])
  }

  /** The string after its leading run of separators. */
  function DropSeparators(s: string): (r: string)
    ensures |r| <= |s| && (s != [] && IsHeaderSeparator(s[0]) ==> |r| < |s|)
    ensures r == [] || !IsHeaderSeparator(r[0])
  {
    if s != [] && IsHeaderSeparator(s[0]) then DropSeparators(s[1..]) else s
  }

  /** `re.split(r'[\s_\-]+', s)`: the pieces between maximal separator runs; never
      empty, and no piece holds a separator. */
  function SplitWords(s: string): (r: seq<string>)
    ensures |r| >= 1
    ensures forall i :: 0 <= i < |r| ==> NoSeparator(r[i])
    decreases |s|
  {
    if s == [] then [""]
    else if IsHeaderSeparator(s[0]) then [""] + SplitWords(DropSeparators(s))
    else
      var rest := SplitWords(s[1..]);
      [[s[0]] + rest[0]] + rest[1..]
  }

  function Concat(ws: seq<string>): string {
    if ws == [] then "" else ws[0] + Concat(ws[1..])
  }

  /** The string with every separator removed. */
  function RemoveSeparators(s: string): (r: string)
    ensures NoSeparator(r)
  {
    if s == [] then [] else (if IsHeaderSeparator(s[0]) then [] else [s[0]]) + RemoveSeparators(s[1..])
  }

  lemma {:induction false} DropSeparatorsRemoved(s: string)
    ensures RemoveSeparators(DropSeparators(s)) == RemoveSeparators(s)
  {
    if s != [] && IsHeaderSeparator(s[0]) {
      DropSeparatorsRemoved(s[1..]);
    }
  }

  /** Joining the words back gives the string without separators. */
  lemma {:induction false} SplitWordsConcat(s: string)
    ensures Concat(SplitWords(s)) == RemoveSeparators(s)
    decreases |s|
  {
    if s == [] {
    } else if IsHeaderSeparator(s[0]) {
      var d := DropSeparators(s);
      SplitWordsConcat(d);
      DropSeparatorsRemoved(s);
      assert SplitWords(s) == [""] + SplitWords(d);
      ConcatCons("", SplitWords(d));
      assert RemoveSeparators(s) == RemoveSeparators(s[1..]);
    } else {
      var rest := SplitWords(s[1..]);
      SplitWordsConcat(s[1..]);
      assert SplitWords(s) == [[s[0]] + rest[0]] + rest[1..];
      ConcatCons([s[0]] + rest[0], rest[1..]);
      assert rest == [rest[0]] + rest[1..];
      ConcatCons(rest[0], rest[1..]);
      assert RemoveSeparators(s) == [s[0]] + RemoveSeparators(s[1..]);
    }
  }

  lemma ConcatCons(w: string, ws: seq<string>)
    ensures Concat([w] + ws) == w + Concat(ws)
  {
    assert ([w] + ws)[1..] == ws;
  }

  /** The later words, each capitalised, concatenated. */
  function CapitalizedWords(ws: seq<string>): string {
    if ws == [] then "" else Capitalize(ws[0]) + CapitalizedWords(ws[1..])
  }

  /** `_normalize_header`: camelCase of the stripped header, split at runs of
      whitespace, underscores and hyphens. */
  function NormalizeHeader(header: string): string {
    var words := SplitWords(Strip(header));
    Lower(words[0]) + CapitalizedWords(words[1..])
  }

  /** The normalised header holds no whitespace, underscore or hyphen. */
  lemma NormalizeHeaderNoSeparators(header: string)
    ensures NoSeparator(NormalizeHeader(header))
  {
    var words := SplitWords(Strip(header));
    assert NormalizeHeader(header) == Lower(words[0]) + CapitalizedWords(words[1..]);
    assert NoSeparator(words[0]);
    LowerKeepsOut(words[0]);
    CapitalizedKeepsOut(words[1..]);
    JoinKeepsOut(Lower(words[0]), CapitalizedWords(words[1..]));
  }

  lemma JoinKeepsOut(a: string, b: string)
    requires NoSeparator(a) && NoSeparator(b)
    ensures NoSeparator(a + b)
  {
    forall k | 0 <= k < |a + b|
      ensures !IsHeaderSeparator((a + b)[k])
    {
      if k < |a| {
        assert (a + b)[k] == a[k];
      } else {
        assert (a + b)[k] == b[k - |a|];
      }
    }
  }

  /** Changing the case of a letter never makes a separator. */
  lemma CaseKeepsOut(c: char)
    ensures IsHeaderSeparator(LowerChar(c)) ==> IsHeaderSeparator(c)
    ensures IsHeaderSeparator(UpperChar(c)) ==> IsHeaderSeparator(c)
  {
  }

  lemma LowerKeepsOut(w: string)
    requires NoSeparator(w)
    ensures NoSeparator(Lower(w))
  {
    forall k | 0 <= k < |w|
      ensures !IsHeaderSeparator(Lower(w)[k])
    {
      CaseKeepsOut(w[k]);
    }
  }

  lemma CapitalizeKeepsOut(w: string)
    requires NoSeparator(w)
    ensures NoSeparator(Capitalize(w))
  {
    forall k | 0 <= k < |w|
      ensures !IsHeaderSeparator(Capitalize(w)[k])
    {
      CaseKeepsOut(w[k]);
    }
  }

  lemma {:induction false} CapitalizedKeepsOut(ws: seq<string>)
    requires forall i :: 0 <= i < |ws| ==> NoSeparator(ws[i])
    ensures NoSeparator(CapitalizedWords(ws))
  {
    if ws != [] {
      assert NoSeparator(ws[0]);
      CapitalizedKeepsOut(ws[1..]);
      CapitalizeKeepsOut(ws[0]);
      JoinKeepsOut(Capitalize(ws[0]), CapitalizedWords(ws[1..]));
    }
  }

  lemma LowerConcat(a: string, b: string)
    ensures Lower(a + b) == Lower(a) + Lower(b)
  {
    var l, r := Lower(a + b), Lower(a) + Lower(b);
    forall k | 0 <= k < |a + b|
      ensures l[k] == r[k]
    {
      if k < |a| {
        assert (a + b)[k] == a[k];
      } else {
        assert (a + b)[k] == b[k - |a|];
      }
    }
  }

  lemma LowerIdempotent(a: string)
    ensures Lower(Lower(a)) == Lower(a) && Lower(Capitalize(a)) == Lower(a)
  {
    assert forall k :: 0 <= k < |a| ==> Lower(Lower(a))[k] == Lower(a)[k];
    assert forall k :: 0 <= k < |a| ==> Lower(Capitalize(a))[k] == Lower(a)[k];
  }

  lemma {:induction false} LowerCapitalizedWords(ws: seq<string>)
    ensures Lower(CapitalizedWords(ws)) == Lower(Concat(ws))
  {
    if ws != [] {
      LowerCapitalizedWords(ws[1..]);
      LowerConcat(Capitalize(ws[0]), CapitalizedWords(ws[1..]));
      LowerConcat(ws[0], Concat(ws[1..]));
      LowerIdempotent(ws[0]);
    }
  }

  /** Up to case, the normalised header is the stripped header with its
      separators removed: camelCasing only changes letter case. */
  lemma NormalizeHeaderLetters(header: string)
    ensures Lower(NormalizeHeader(header)) == Lower(RemoveSeparators(Strip(header)))
  {
    var words := SplitWords(Strip(header));
    SplitWordsConcat(Strip(header));
    LowerConcat(Lower(words[0]), CapitalizedWords(words[1..]));
    LowerIdempotent(words[0]);
    LowerCapitalizedWords(words[1..]);
    LowerConcat(words[0], Concat(words[1..]));
    assert Concat(words) == words[0] + Concat(words[1..]);
  }

  const STATE_ABBREVS: map<string, string> := map[
    "alabama" := "AL", "alaska" := "AK", "arizona" := "AZ", "arkansas" := "AR",
    "california" := "CA", "colorado" := "CO", "connecticut" := "CT", "delaware" := "DE",
    "florida" := "FL", "georgia" := "GA", "hawaii" := "HI", "idaho" := "ID",
    "illinois" := "IL", "indiana" := "IN", "iowa" := "IA", "kansas" := "KS",
    "kentucky" := "KY", "louisiana" := "LA", "maine" := "ME", "maryland" := "MD",
    "massachusetts" := "MA", "michigan" := "MI", "minnesota" := "MN", "mississippi" := "MS",
    "missouri" := "MO", "montana" := "MT", "nebraska" := "NE", "nevada" := "NV",
    "new hampshire" := "NH", "new jersey" := "NJ", "new mexico" := "NM", "new york" := "NY",
    "north carolina" := "NC", "north dakota" := "ND", "ohio" := "OH", "oklahoma" := "OK",
    "oregon" := "OR", "pennsylvania" := "PA", "rhode island" := "RI", "south carolina" := "SC",
    "south dakota" := "SD", "tennessee" := "TN", "texas" := "TX", "utah" := "UT",
    "vermont" := "VT", "virginia" := "VA", "washington" := "WA", "west virginia" := "WV",
    "wisconsin" := "WI", "wyoming" := "WY"
  ]

  /** `_state_to_abbrev`: the abbreviation of a state named in any case, the input
      itself for any other name. */
  function StateToAbbrev(states: map<string, string>, stateName: string): (r: string)
    ensures Lower(stateName) !in states ==> r == stateName
    ensures Lower(stateName) in states ==> r == states[Lower(stateName)]
  {
    if Lower(stateName) in states then states[Lower(stateName)] else stateName
  }

  // ---------------------------------------------------------------------------
  // transform

  /** The part of the processor's output that `transform` reads outside of the
      structured-data builders. */
  datatype DoclingOutput = DoclingOutput(processingStatus: Option<string>, pageCount: Option<int>,
                                         tables: seq<Table>, rawText: string)

  datatype TransformResult =
    | Unchanged(original: DoclingOutput)
    | Transformed(processingStatus: string, pageNumber: int, totalTables: nat, tablesRaw: seq<Table>, rawText: string)

  /** `transform`: an output whose status is "error" is returned as it is; any
      other keeps its status (default "success"), its tables and its raw text. */
  function Transform(o: DoclingOutput): (r: TransformResult)
    ensures r.Unchanged? <==> o.processingStatus == Some("error")
    ensures r.Unchanged? ==> r.original == o
    ensures r.Transformed? ==> r.processingStatus == o.processingStatus.GetOr("success")
                               && r.processingStatus != "error"
                               && r.tablesRaw == o.tables && r.totalTables == |o.tables| && r.rawText == o.rawText
  {
    if o.processingStatus == Some("error") then Unchanged(o)
    else Transformed(o.processingStatus.GetOr("success"), o.pageCount.GetOr(1), |o.tables|, o.tables, o.rawText)
  }
}
