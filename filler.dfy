/** The template filler: string transforms, the single-cell fill rule and the
    array-range fill (`XLSXTemplateFiller` in xlsx_template_filler.py). */
module Filler {
  import opened Wrappers
  import opened Strings
  import opened JsonPath
  import opened Sheets

  // ---------------------------------------------------------------------------
  // Transforms

  /** The index of the first `c` in `s`, or `|s|`. */
  function IndexOf(s: string, c: char): (r: nat)
    ensures r <= |s| && c !in s[..r] && (r < |s| ==> s[r] == c)
  {
    if s == [] then 0 else if s[0] == c then 0 else 1 + IndexOf(s[1..], c)
  }

  /** `s.split(c)[0]` is the text before the first `c`. */
  lemma {:induction false} SplitFirst(s: string, c: char)
    ensures Split(s, c)[0] == s[..IndexOf(s, c)]
  {
    if s != [] && s[0] != c {
      SplitFirst(s[1..], c);
      assert s[..IndexOf(s, c)] == [s[0]] + s[1..][..IndexOf(s[1..], c)];
    }
  }

  /** `extract_city`: the stripped text before the first comma of a string; any
      other value unchanged. */
  function ExtractCity(value: Json): (r: Json)
    ensures !value.JStr? ==> r == value
    ensures value.JStr? ==> r == JStr(Strip(value.s[..IndexOf(value.s, ',')]))
  {
    match value
    case JStr(s) =>
      SplitFirst(s, ',');
      JStr(Strip(Split(s, ',')[0]))
    case _ => value
  }

  /** The class `[A-Za-z\s]`. */
  predicate IsNameChar(c: char) { IsLetter(c) || IsSpace(c) }

  function SpaceRun(t: string): (r: nat)
    ensures r <= |t| && (forall k :: 0 <= k < r ==> IsSpace(t[k])) && (r < |t| ==> !IsSpace(t[r]))
  {
    if t != [] && IsSpace(t[0]) then 1 + SpaceRun(t[1..]) else 0
  }

  function NameRun(t: string): (r: nat)
    ensures r <= |t| && (forall k :: 0 <= k < r ==> IsNameChar(t[k])) && (r < |t| ==> !IsNameChar(t[r]))
  {
    if t != [] && IsNameChar(t[0]) then 1 + NameRun(t[1..]) else 0
  }

  /** `(?:\s*-|$)` at position `e` of `t`: optional whitespace then a hyphen, or
      the end of the text, or a final newline. */
  predicate TailAt(t: string, e: nat)
    requires e <= |t|
  {
    var w := e + SpaceRun(t[e..]);
    (w < |t| && t[w] == '-') || e == |t| || (e == |t| - 1 && t[e] == '\n')
  }

  /** The least `e` in `[from, to]` at which `TailAt` holds. */
  function LazyEnd(t: string, from: nat, upTo: nat): (r: Option<nat>)
    requires upTo <= |t|
    ensures r.Some? ==> from <= r.value <= upTo && TailAt(t, r.value)
                        && forall e :: from <= e < r.value ==> !TailAt(t, e)
    ensures r.None? ==> forall e :: from <= e <= upTo ==> !TailAt(t, e)
    decreases upTo + 1 - from
  {
    if from > upTo then None
    else if TailAt(t, from) then Some(from)
    else LazyEnd(t, from + 1, upTo)
  }

  /** The stripped group of `\s*([A-Za-z\s]+?)(?:\s*-|$)` matched right after a
      comma, `t` being the text after it. The greedy `\s*` takes the leading
      whitespace `t[..w]`; the lazy group then ends at the first position at
      which the tail matches, within the run of name characters. Only when no
      such position exists does `\s*` give back whitespace, and the group is
      then whitespace only, which strips to "". */
  function GroupAfterComma(t: string): Option<string> {
    var w := SpaceRun(t);
    var l := NameRun(t);
    match LazyEnd(t, w + 1, l)
    case Some(e) => Some(Strip(t[w..e]))
    case None =>
      if w >= 1 && LazyEnd(t, 1, w).Some? then Some("") else None
  }

  /** The group holds letters and whitespace only. */
  lemma GroupAfterCommaNameChars(t: string)
    ensures GroupAfterComma(t).Some? ==> NameChars(GroupAfterComma(t).value)
  {
    var w := SpaceRun(t);
    var e := LazyEnd(t, w + 1, NameRun(t));
    if e.Some? {
      NameRunSlice(t, w, e.value);
      StripKeeps(t[w..e.value], IsNameChar);
    }
  }

  /** A slice of the leading run of name characters holds name characters. */
  lemma NameRunSlice(t: string, i: nat, j: nat)
    requires i <= j <= NameRun(t)
    ensures forall k :: 0 <= k < j - i ==> IsNameChar(t[i..j][k])
  {
    forall k | 0 <= k < j - i ensures IsNameChar(t[i..j][k]) {
      assert t[i..j][k] == t[i + k];
    }
  }

  lemma {:induction false} SpacesAreNameChars(t: string)
    ensures SpaceRun(t) <= NameRun(t)
  {
    if t != [] && IsSpace(t[0]) {
      SpacesAreNameChars(t[1..]);
    }
  }

  /** Stripping keeps a property every character of the string has. */
  lemma StripKeeps(s: string, p: char -> bool)
    requires forall k :: 0 <= k < |s| ==> p(s[k])
    ensures forall k :: 0 <= k < |Strip(s)| ==> p(Strip(s)[k])
  {
    var u := TrimStart(s);
    var v := TrimEnd(u);
    forall k | 0 <= k < |v| ensures p(v[k]) {
      assert v[k] == u[k] == s[|s| - |u| + k];
    }
  }

  /** `re.search(r',\s*([A-Za-z\s]+?)(?:\s*-|$)', s)` from position `i`, with
      `group` matching the text after a comma: the first comma after which the
      rest matches. */
  function CommaSearch(s: string, i: nat, group: string -> Option<string>): Option<string>
    requires i <= |s|
    decreases |s| - i
  {
    if i == |s| then None
    else if s[i] == ',' && group(s[i + 1..]).Some? then group(s[i + 1..])
    else CommaSearch(s, i + 1, group)
  }

  /** The search finds the group after some comma; it finds none only when no
      comma is followed by a match. */
  lemma {:induction false} CommaSearchFound(s: string, i: nat, group: string -> Option<string>)
    requires i <= |s|
    ensures CommaSearch(s, i, group).Some? ==>
              exists p :: i <= p < |s| && s[p] == ',' && group(s[p + 1..]) == CommaSearch(s, i, group)
    ensures CommaSearch(s, i, group).None? ==>
              forall p :: i <= p < |s| && s[p] == ',' ==> group(s[p + 1..]).None?
    decreases |s| - i
  {
    if i < |s| {
      CommaSearchFound(s, i + 1, group);
    }
  }

  /** Letters and whitespace only. */
  predicate NameChars(g: string) {
    forall k :: 0 <= k < |g| ==> IsNameChar(g[k])
  }

  /** What every group found satisfies, the search result satisfies. */
  lemma {:induction false} CommaSearchKeeps(s: string, i: nat, group: string -> Option<string>, p: string -> bool)
    requires i <= |s|
    requires forall t :: group(t).Some? ==> p(group(t).value)
    ensures CommaSearch(s, i, group).Some? ==> p(CommaSearch(s, i, group).value)
    decreases |s| - i
  {
    if i < |s| && !(s[i] == ',' && group(s[i + 1..]).Some?) {
      CommaSearchKeeps(s, i + 1, group, p);
    }
  }

  lemma GroupsAreNames()
    ensures forall t :: GroupAfterComma(t).Some? ==> NameChars(GroupAfterComma(t).value)
  {
    forall t | GroupAfterComma(t).Some? ensures NameChars(GroupAfterComma(t).value) {
      GroupAfterCommaNameChars(t);
    }
  }

  /** The state name `extract_state_abbrev` looks up, if any. */
  function StateSearch(s: string): Option<string> {
    CommaSearch(s, 0, GroupAfterComma)
  }

  /** `extract_state_abbrev`: the abbreviation of the state named after the first
      suitable comma; any value without such a name is unchanged. */
  function ExtractStateAbbrev(states: map<string, string>, value: Json): Json {
    match value
    case JStr(s) =>
      (match StateSearch(s)
       case Some(group) => JStr(Abbrev(states, group))
       case None => value)
    case _ => value
  }

  /** The table's abbreviation of the lower-cased name, or the first two
      characters of the name upper-cased when the table does not know it. */
  function Abbrev(states: map<string, string>, group: string): string {
    var name := Lower(group);
    if name in states then states[name] else Upper(name)[..Min(2, |name|)]
  }

  function Min(a: nat, b: nat): nat { if a < b then a else b }

  /** A value with no state name after a comma passes through unchanged. */
  lemma StateAbbrevUnchanged(states: map<string, string>, value: Json)
    requires !value.JStr? || StateSearch(value.s).None?
    ensures ExtractStateAbbrev(states, value) == value
  {
  }

  lemma AbbrevShort(states: map<string, string>, g: string)
    requires forall k :: k in states ==> |states[k]| == 2
    requires NameChars(g)
    ensures |Abbrev(states, g)| <= 2
    ensures Lower(g) !in states ==> NameChars(Abbrev(states, g))
  {
    var name := Lower(g);
    if name !in states {
      var r := Upper(name)[..Min(2, |name|)];
      forall k | 0 <= k < |r| ensures IsNameChar(r[k]) {
        assert r[k] == UpperChar(LowerChar(g[k]));
        assert IsNameChar(g[k]);
      }
    }
  }

  /** When every abbreviation in the table has two characters, a state name found
      in a string becomes at most two characters; a name the table does not know
      becomes letters and whitespace only. */
  lemma StateAbbrevShort(states: map<string, string>, s: string)
    requires forall k :: k in states ==> |states[k]| == 2
    requires StateSearch(s).Some?
    ensures |ExtractStateAbbrev(states, JStr(s)).s| <= 2
    ensures Lower(StateSearch(s).value) !in states ==> NameChars(ExtractStateAbbrev(states, JStr(s)).s)
  {
    GroupsAreNames();
    CommaSearchKeeps(s, 0, GroupAfterComma, NameChars);
    AbbrevShort(states, StateSearch(s).value);
  }

  /** Python's `int(x)` for a number: floats are truncated toward zero and a bool
      counts as 0 or 1. */
  function Truncate(r: real): int {
    if r >= 0.0 then r.Floor else -((-r).Floor)
  }

  /** `isinstance(v, (int, float))`, for which a bool qualifies. */
  predicate IsNumber(v: Json) { v.JInt? || v.JReal? || v.JBool? }

  function NumberToInt(v: Json): int
    requires IsNumber(v)
  {
    match v
    case JInt(i) => i
    case JReal(r) => Truncate(r)
    case JBool(b) => if b then 1 else 0
  }

  /** Python's `int(v)`; `None` where it raises. */
  function PyInt(v: Json): Option<int> {
    match v
    case JStr(s) => ParseInt(s)
    case JNull => None
    case JArray(_) => None
    case JObject(_) => None
    case _ => Some(NumberToInt(v))
  }

  /** `f"{int(bed)}B/{int(bath)}Ba"`. */
  function BedBathLabel(bed: int, bath: int): string {
    IntToString(bed) + "B/" + IntToString(bath) + "Ba"
  }

  /** Reading a label back: the bedroom digits, "B/", the bathroom digits, "Ba". */
  function ParseBedBath(text: string): Option<(nat, nat)> {
    var beds := DigitRun(text);
    var rest := text[|beds|..];
    if beds == [] || |rest| < 2 || rest[0] != 'B' || rest[1] != '/' then None
    else
      var baths := DigitRun(rest[2..]);
      var tail := rest[2 + |baths|..];
      if baths == [] || |tail| != 2 || tail[0] != 'B' || tail[1] != 'a' then None
      else Some((Decimal(beds), Decimal(baths)))
  }

  /** The label of whole numbers of bedrooms and bathrooms gives both back. */
  lemma BedBathLabelRoundTrip(bed: nat, bath: nat)
    ensures ParseBedBath(BedBathLabel(bed, bath)) == Some((bed, bath))
  {
    assert BedBathLabel(bed, bath) == NatToString(bed) + "B/" + NatToString(bath) + "Ba";
    ParseBedBathOf(NatToString(bed), NatToString(bath));
    DecimalOfNatToString(bed);
    DecimalOfNatToString(bath);
  }

  lemma ParseBedBathOf(b1: string, b2: string)
    requires b1 != [] && forall k :: 0 <= k < |b1| ==> IsDigit(b1[k])
    requires b2 != [] && forall k :: 0 <= k < |b2| ==> IsDigit(b2[k])
    ensures ParseBedBath(b1 + "B/" + b2 + "Ba") == Some((Decimal(b1), Decimal(b2)))
  {
    var text := b1 + "B/" + b2 + "Ba";
    var tail := "B/" + b2 + "Ba";
    assert text == b1 + tail;
    DigitRunOf(b1, tail);
    var rest := text[|b1|..];
    assert rest == tail;
    assert rest[0] == 'B' && rest[1] == '/';
    assert rest[2..] == b2 + "Ba";
    DigitRunOf(b2, "Ba");
    assert rest[2 + |b2|..] == "Ba";
  }

  /** The transforms other than the string ones modelled here (`divide_by_100`,
      `to_number`, `years_since_purchase`, `extract_property_name`), given by the
      caller: they need floating point, the clock or general regular
      expressions. */
  type OtherTransform = (Json, string) -> Json

  predicate IsOtherTransform(name: string) {
    name == "divide_by_100" || name == "to_number" || name == "years_since_purchase"
    || name == "extract_property_name"
  }

  /** `_apply_transform`: an unknown transform name leaves the value unchanged. */
  function ApplyTransform(states: map<string, string>, other: OtherTransform, value: Json, name: string): (r: Json)
    ensures name == "extract_city" ==> r == ExtractCity(value)
    ensures name == "extract_state_abbrev" ==> r == ExtractStateAbbrev(states, value)
    ensures !IsOtherTransform(name) && name != "extract_city" && name != "extract_state_abbrev" ==> r == value
  {
    if IsOtherTransform(name) then other(value, name)
    else if name == "extract_city" then ExtractCity(value)
    else if name == "extract_state_abbrev" then ExtractStateAbbrev(states, value)
    else value
  }

  // ---------------------------------------------------------------------------
  // Single-cell mappings

  /** The string under `key`, if the member is a string. */
  function StrField(fields: seq<(string, Json)>, key: string): Option<string> {
    match Get(fields, key)
    case JStr(s) => Some(s)
    case _ => None
  }

  /** A transform or path given as a non-empty string (Python truthiness). */
  predicate Given(o: Option<string>) { o.Some? && o.value != [] }

  /** The fill environment: the state table, the other transforms, the data
      under `json_root` and the whole extract. */
  datatype Env = Env(states: map<string, string>, other: OtherTransform, data: Json, fullJson: Json)

  /** The result of `_fill_cell` and the assignment it makes, if any. */
  datatype CellOutcome = CellOutcome(result: FillResult, write: Option<(Coord, CellValue)>)

  /** The value a mapping reads before its own transform: the primary path, then
      the fallback path with its transform. */
  function LookedUp(env: Env, m: seq<(string, Json)>, path: string): Json {
    var lookup := if !Get(m, "json_root_override").JNull? && Truthy(env.fullJson) then env.fullJson else env.data;
    var primary := Navigate(lookup, path);
    var fallbackPath := StrField(m, "fallback_path");
    if primary.JNull? && Given(fallbackPath) && Truthy(env.fullJson) then
      var found := Navigate(env.fullJson, fallbackPath.value);
      var fallbackTransform := StrField(m, "fallback_transform");
      if !found.JNull? && Given(fallbackTransform) then
        ApplyTransform(env.states, env.other, found, fallbackTransform.value)
      else found
    else primary
  }

  function IsExternal(m: seq<(string, Json)>): bool {
    GetOr(m, "source", JStr("pdf_extract")) == JStr("external") || StrField(m, "json_path").None?
  }

  /** What `_fill_cell` does with a mapping on a sheet whose cells are `cells`. */
  function CellFill(env: Env, cells: map<Coord, CellValue>, m: seq<(string, Json)>): (r: CellOutcome)
    ensures r.write.Some? <==> r.result.status == Filled
    ensures r.write.Some? ==> !IsFormula(At(cells, r.write.value.0))
    ensures r.write.Some? ==>
              StrField(m, "cell").Some? && ParseCellRef(StrField(m, "cell").value) == Some(r.write.value.0)
    ensures r.result.status == External <==> IsExternal(m)
  {
    var cell := Get(m, "cell");
    var caption := Get(m, "label");
    if IsExternal(m) then
      CellOutcome(FillResult(External, "", cell, caption, Get(m, "notes")), None)
    else
      var path := StrField(m, "json_path").value;
      var found := LookedUp(env, m, path);
      if found.JNull? then
        CellOutcome(FillResult(Skipped, "", cell, caption, JStr("No value found at path: " + path)), None)
      else
        var transform := StrField(m, "transform");
        var value := if Given(transform) then ApplyTransform(env.states, env.other, found, transform.value) else found;
        StoreValue(cells, cell, caption, value)
  }

  /** The last steps of `_fill_cell`, once a value is at hand: the cell reference
      is parsed, a formula cell is kept, and the value is written. */
  function StoreValue(cells: map<Coord, CellValue>, cell: Json, caption: Json, value: Json): (r: CellOutcome)
    ensures r.write.Some? <==> r.result.status == Filled
    ensures r.result.status != External
    ensures r.write.Some? ==>
              cell.JStr? && ParseCellRef(cell.s) == Some(r.write.value.0) && !IsFormula(At(cells, r.write.value.0))
  {
    var coord := if cell.JStr? then ParseCellRef(cell.s) else None;
    match coord
    case None => CellOutcome(FillResult(Failed, "", cell, caption, JStr("invalid cell reference")), None)
    case Some(c) =>
      if IsFormula(At(cells, c)) then
        CellOutcome(FillResult(Skipped, "", cell, caption, JStr("Cell contains formula, not overwriting")), None)
      else match ToCell(value)
        case None => CellOutcome(FillResult(Failed, "", cell, caption, JStr("value cannot be stored in a cell")), None)
        case Some(v) => CellOutcome(FillResult(Filled, "", cell, caption, value), Some((c, v)))
  }

  /** When neither the primary nor the fallback path gives a value, the mapping is
      skipped and the sheet is left alone. */
  lemma NothingFoundSkips(env: Env, cells: map<Coord, CellValue>, m: seq<(string, Json)>)
    requires !IsExternal(m)
    requires LookedUp(env, m, StrField(m, "json_path").value).JNull?
    ensures CellFill(env, cells, m).result.status == Skipped
    ensures CellFill(env, cells, m).write.None?
  {
  }

  /** The fallback transform applies only to a value found through the fallback
      path: a value found on the primary path gets the mapping's own transform
      alone. */
  lemma FallbackTransformOnlyOnFallback(env: Env, m: seq<(string, Json)>, path: string)
    requires var lookup := if !Get(m, "json_root_override").JNull? && Truthy(env.fullJson) then env.fullJson else env.data;
             !Navigate(lookup, path).JNull?
    ensures var lookup := if !Get(m, "json_root_override").JNull? && Truthy(env.fullJson) then env.fullJson else env.data;
            LookedUp(env, m, path) == Navigate(lookup, path)
  {
  }

  /** A formula cell keeps its value whatever the mapping says. */
  lemma FormulaNeverOverwritten(env: Env, cells: map<Coord, CellValue>, m: seq<(string, Json)>, c: Coord)
    requires IsFormula(At(cells, c))
    ensures var o := CellFill(env, cells, m);
            At(if o.write.Some? then cells[o.write.value.0 := o.write.value.1] else cells, c) == At(cells, c)
  {
  }

  /** The lookup part of `_fill_cell`: the primary path, then the fallback. */
  method LookUp(env: Env, m: seq<(string, Json)>, path: string) returns (value: Json)
    ensures value == LookedUp(env, m, path)
  {
    var lookup := if !Get(m, "json_root_override").JNull? && Truthy(env.fullJson) then env.fullJson else env.data;
    value := NavigateJsonPath(lookup, path);
    var fallbackPath := StrField(m, "fallback_path");
    if value.JNull? && Given(fallbackPath) && Truthy(env.fullJson) {
      value := NavigateJsonPath(env.fullJson, fallbackPath.value);
      var fallbackTransform := StrField(m, "fallback_transform");
      if !value.JNull? && Given(fallbackTransform) {
        value := ApplyTransform(env.states, env.other, value, fallbackTransform.value);
      }
    }
  }

  /** `_fill_cell`. */
  method FillCell(env: Env, sheet: Sheet, m: seq<(string, Json)>) returns (result: FillResult)
    modifies sheet
    ensures var o := CellFill(env, old(sheet.cells), m);
            result == o.result
            && sheet.cells == if o.write.Some? then old(sheet.cells)[o.write.value.0 := o.write.value.1] else old(sheet.cells)
  {
    var cell := Get(m, "cell");
    var caption := Get(m, "label");
    var jsonPath := StrField(m, "json_path");
    if GetOr(m, "source", JStr("pdf_extract")) == JStr("external") || jsonPath.None? {
      return FillResult(External, "", cell, caption, Get(m, "notes"));
    }
    var path := jsonPath.value;
    var value := LookUp(env, m, path);
    if value.JNull? {
      return FillResult(Skipped, "", cell, caption, JStr("No value found at path: " + path));
    }
    var transform := StrField(m, "transform");
    if Given(transform) {
      value := ApplyTransform(env.states, env.other, value, transform.value);
    }
    var coord := if cell.JStr? then ParseCellRef(cell.s) else None;
    if coord.None? {
      return FillResult(Failed, "", cell, caption, JStr("invalid cell reference"));
    }
    var c := coord.value;
    if IsFormula(sheet.Value(c)) {
      return FillResult(Skipped, "", cell, caption, JStr("Cell contains formula, not overwriting"));
    }
    var stored := ToCell(value);
    if stored.None? {
      return FillResult(Failed, "", cell, caption, JStr("value cannot be stored in a cell"));
    }
    sheet.SetValue(c, stored.value);
    return FillResult(Filled, "", cell, caption, value);
  }

  // ---------------------------------------------------------------------------
  // Array mappings (`_fill_array_data`)

  /** "Total" or "Totals" in any case and with surrounding whitespace. */
  predicate IsTotalMarker(v: CellValue) {
    v.Str? && TotalWord(Lower(Strip(v.s)))
  }

  /** `w` is "total" or "totals", compared one character at a time (see TotalWordIff). */
  predicate TotalWord(w: string) {
    (|w| == 5 || (|w| == 6 && w[5] == 's'))
    && w[0] == 't' && w[1] == 'o' && w[2] == 't' && w[3] == 'a' && w[4] == 'l'
  }

  lemma TotalWordIff(w: string)
    ensures TotalWord(w) <==> w == "total" || w == "totals"
  {
  }

  /** The column-B cell of `row` holds a total marker. */
  predicate MarkerAt(cells: map<Coord, CellValue>, row: int) {
    IsTotalMarker(At(cells, Coord("B", row)))
  }

  /** The first row in `[row, end)` whose column-B cell is a total marker. */
  function TotalRowIn(cells: map<Coord, CellValue>, row: int, end: int): Option<int>
    decreases end - row
  {
    if row >= end then None
    else if MarkerAt(cells, row) then Some(row)
    else TotalRowIn(cells, row + 1, end)
  }

  /** The search finds the first marker of the window, and none when there is
      none. */
  lemma {:induction false} TotalRowFirst(cells: map<Coord, CellValue>, row: int, end: int)
    ensures var r := TotalRowIn(cells, row, end);
            (r.Some? ==> row <= r.value < end && MarkerAt(cells, r.value))
            && (r.Some? ==> forall x :: row <= x < r.value ==> !MarkerAt(cells, x))
            && (r.None? ==> forall x :: row <= x < end ==> !MarkerAt(cells, x))
    decreases end - row
  {
    if row < end && !MarkerAt(cells, row) {
      TotalRowFirst(cells, row + 1, end);
      var r := TotalRowIn(cells, row + 1, end);
      assert TotalRowIn(cells, row, end) == r;
      forall x | row <= x < (if r.Some? then r.value else end)
        ensures !MarkerAt(cells, x)
      {
        if x > row {
          assert row + 1 <= x;
        }
      }
    }
  }

  /** The number of rows the array occupies: up to the Total row when there is one
      within 50 rows, `max_rows` otherwise; `None` when that `max_rows` is no
      integer, so that `range` refuses it. A Total row makes `max_rows` unused. */
  function TableRows(cells: map<Coord, CellValue>, rowStart: int, maxRows: Json): Option<int> {
    match TotalRowIn(cells, rowStart, rowStart + 50)
    case Some(t) => Some(t - rowStart)
    case None => RangeInt(maxRows)
  }

  /** Clearing one cell: a formula is kept, an unreadable reference is ignored. */
  function ClearCell(cells: map<Coord, CellValue>, ref: string): map<Coord, CellValue> {
    match ParseCellRef(ref)
    case None => cells
    case Some(c) => if IsFormula(At(cells, c)) then cells else cells[c := Empty]
  }

  /** The first `k` rows from `rowStart` of one column cleared. */
  function ClearColumn(cells: map<Coord, CellValue>, column: string, rowStart: int, k: nat): map<Coord, CellValue> {
    if k == 0 then cells
    else ClearCell(ClearColumn(cells, column, rowStart, k - 1), column + IntToString(rowStart + k - 1))
  }

  /** Every truthy column of `columns` cleared over `n` rows from `rowStart`. */
  function ClearColumns(cells: map<Coord, CellValue>, columns: seq<Json>, rowStart: int, n: int): map<Coord, CellValue> {
    if columns == [] then cells
    else
      var before := ClearColumns(cells, columns[..|columns| - 1], rowStart, n);
      match columns[|columns| - 1]
      case JStr(column) => if column != [] && n > 0 then ClearColumn(before, column, rowStart, n) else before
      case _ => before
  }

  /** A summary row: a string `bed` containing "total" or "all" in any case. */
  predicate IsSummaryRow(fields: seq<(string, Json)>) {
    var bed := GetOr(fields, "bed", JStr(""));
    bed.JStr? && SummaryLabel(bed.s)
  }

  /** `"total" in s.lower() or "all" in s.lower()`, scanned from the front one
      character at a time (see SummaryLabelIff). */
  predicate SummaryLabel(s: string) {
    s != [] && (SummaryWordAtFront(s) || SummaryLabel(s[1..]))
  }

  /** `s.lower()` starts with "total" or with "all". */
  predicate SummaryWordAtFront(s: string) {
    TotalAtFront(s) || AllAtFront(s)
  }

  predicate TotalAtFront(s: string) {
    |s| >= 5 && LowerChar(s[0]) == 't' && LowerChar(s[1]) == 'o' && LowerChar(s[2]) == 't'
    && LowerChar(s[3]) == 'a' && LowerChar(s[4]) == 'l'
  }

  predicate AllAtFront(s: string) {
    |s| >= 3 && LowerChar(s[0]) == 'a' && LowerChar(s[1]) == 'l' && LowerChar(s[2]) == 'l'
  }

  lemma TotalAtFrontIff(s: string)
    ensures TotalAtFront(s) <==> StartsWith(Lower(s), "total")
  {
    var l := Lower(s);
    if |s| >= 5 {
      assert l[..5] == "total" <==> l[0] == 't' && l[1] == 'o' && l[2] == 't' && l[3] == 'a' && l[4] == 'l';
    }
  }

  lemma AllAtFrontIff(s: string)
    ensures AllAtFront(s) <==> StartsWith(Lower(s), "all")
  {
    var l := Lower(s);
    if |s| >= 3 {
      assert l[..3] == "all" <==> l[0] == 'a' && l[1] == 'l' && l[2] == 'l';
    }
  }

  /** The character scan is Python's pair of `in` tests on the lower-cased label. */
  lemma {:induction false} SummaryLabelIff(s: string)
    ensures SummaryLabel(s) <==> Contains(Lower(s), "total") || Contains(Lower(s), "all")
  {
    if s != [] {
      SummaryLabelIff(s[1..]);
      TotalAtFrontIff(s);
      AllAtFrontIff(s);
      assert Lower(s)[1..] == Lower(s[1..]);
    }
  }

  datatype ColumnAction = Skip | Write(value: Json) | Raise

  /** What one column mapping takes from a data row: the special
      `bed_bath_label` and `calc_occupied` transforms, else the row's
      `json_field`. Other transforms are ignored here. */
  function ColumnValue(fields: seq<(string, Json)>, cm: seq<(string, Json)>): ColumnAction {
    var transform := Get(cm, "transform");
    if !Truthy(Get(cm, "column")) then Skip
    else if transform == JStr("bed_bath_label") then
      var bed := Get(fields, "bed");
      var bath := Get(fields, "bath");
      if IsNumber(bed) && IsNumber(bath) then Write(JStr(BedBathLabel(NumberToInt(bed), NumberToInt(bath))))
      else Skip
    else if transform == JStr("calc_occupied") then
      var total := Navigate(JObject(fields), "unitMix.units");
      var available := Navigate(JObject(fields), "availability.units");
      if total.JNull? || available.JNull? then Skip
      else if PyInt(total).Some? && PyInt(available).Some? then Write(JInt(PyInt(total).value - PyInt(available).value))
      else Raise
    else
      var field := Get(cm, "json_field");
      if !Truthy(field) then Skip
      else if !field.JStr? then Raise
      else
        var v := Navigate(JObject(fields), field.s);
        if v.JNull? then Skip else Write(v)
  }

  /** A truthy `json_field` that is not a string makes `_navigate_json_path`
      raise; a falsy one skips the column. */
  lemma JsonFieldNotTextRaises(fields: seq<(string, Json)>, cm: seq<(string, Json)>)
    requires Truthy(Get(cm, "column"))
    requires Get(cm, "transform") != JStr("bed_bath_label") && Get(cm, "transform") != JStr("calc_occupied")
    ensures Truthy(Get(cm, "json_field")) && !Get(cm, "json_field").JStr? ==> ColumnValue(fields, cm) == Raise
    ensures !Truthy(Get(cm, "json_field")) ==> ColumnValue(fields, cm) == Skip
  {
  }

  /** Python's `str(column)` for the column values a mapping can hold. A real,
      a list or an object is given a stand-in text; like Python's, it starts
      with no letter, so it is no cell reference either. */
  function ColumnText(column: Json): string {
    match column
    case JStr(s) => s
    case JInt(i) => IntToString(i)
    case JBool(b) => if b then "True" else "False"
    case JNull => "None"
    case JReal(_) => "<real>"
    case JArray(_) => "[...]"
    case JObject(_) => "{...}"
  }

  /** `f"{column}{current_row}"`. */
  function ColumnRef(cm: seq<(string, Json)>, rowNum: int): string {
    ColumnText(Get(cm, "column")) + IntToString(rowNum)
  }

  /** The array fill's running state: the cells, the entries added to the
      report's filled and error lists, `rows_to_fill`, and whether an exception
      has been raised. */
  datatype ArrayState = ArrayState(cells: map<Coord, CellValue>, filled: seq<FillResult>, errors: seq<FillResult>,
                                   count: nat, raised: bool)

  /** Writing one value: an unreadable reference or a value a cell cannot hold is
      an error entry, a formula cell is left alone. */
  function WriteCell(st: ArrayState, sheetName: string, ref: string, caption: Json, v: Json): ArrayState {
    match ParseCellRef(ref)
    case None => st.(errors := st.errors + [FillResult(Failed, sheetName, JStr(ref), JNull, JStr("invalid cell reference"))])
    case Some(c) =>
      if IsFormula(At(st.cells, c)) then st
      else match ToCell(v)
        case None => st.(errors := st.errors + [FillResult(Failed, sheetName, JStr(ref), JNull, JStr("value cannot be stored in a cell"))])
        case Some(cv) => st.(cells := st.cells[c := cv], filled := st.filled + [FillResult(Filled, sheetName, JStr(ref), caption, v)])
  }

  function ColumnStep(st: ArrayState, sheetName: string, rowNum: int, fields: seq<(string, Json)>,
                      cm: seq<(string, Json)>): (r: ArrayState)
    ensures r.count == st.count
  {
    if st.raised then st
    else match ColumnValue(fields, cm)
      case Skip => st
      case Raise => Raised(st)
      case Write(v) => WriteCell(st, sheetName, ColumnRef(cm, rowNum), Get(cm, "label"), v)
  }

  /** The column mappings applied in turn to one data row written at `rowNum`. */
  function ColumnsFold(st: ArrayState, sheetName: string, rowNum: int, fields: seq<(string, Json)>,
                       cms: seq<seq<(string, Json)>>): ArrayState {
    if cms == [] then st
    else ColumnStep(ColumnsFold(st, sheetName, rowNum, fields, cms[..|cms| - 1]), sheetName, rowNum, fields, cms[|cms| - 1])
  }

  /** Where data row `idx` is written. As written, the target row advances with
      every array element, summary rows included; `Contiguous` is the intended
      placement, which packs the data rows that are written. */
  datatype Placement = AsWritten | Contiguous

  function TargetRow(placement: Placement, rowStart: int, idx: nat, count: nat): int {
    if placement == AsWritten then rowStart + idx else rowStart + count
  }

  /** One array element: it must be an object (`row_data.get` raises otherwise);
      a summary row is passed over; any other row is counted and written. */
  function RowStep(st: ArrayState, sheetName: string, rowStart: int, cms: seq<seq<(string, Json)>>,
                   placement: Placement, row: Json, idx: nat): ArrayState {
    if st.raised then st
    else if !row.JObject? then Raised(st)
    else if IsSummaryRow(row.fields) then st
    else DataRowStep(st, sheetName, rowStart, cms, placement, row.fields, idx)
  }

  /** A data row: counted, then written at its target row. */
  function DataRowStep(st: ArrayState, sheetName: string, rowStart: int, cms: seq<seq<(string, Json)>>,
                       placement: Placement, fields: seq<(string, Json)>, idx: nat): ArrayState {
    ColumnsFold(Counted(st), sheetName, TargetRow(placement, rowStart, idx, st.count), fields, cms)
  }

  /** The state once one more data row is counted. */
  function Counted(st: ArrayState): ArrayState {
    st.(count := st.count + 1)
  }

  /** The state once an exception is raised. */
  function Raised(st: ArrayState): ArrayState {
    st.(raised := true)
  }

  function RowsFold(st: ArrayState, sheetName: string, rowStart: int, cms: seq<seq<(string, Json)>>,
                    placement: Placement, rows: seq<Json>): ArrayState {
    if rows == [] then st
    else RowStep(RowsFold(st, sheetName, rowStart, cms, placement, rows[..|rows| - 1]),
                 sheetName, rowStart, cms, placement, rows[|rows| - 1], |rows| - 1)
  }

  /** The settings of an array sheet; `None` where reading them raises. */
  datatype ArrayParams = ArrayParams(rowStart: int, maxRows: Json, mappings: seq<seq<(string, Json)>>,
                                     clearColumns: seq<Json>, deleteEmptyRows: bool, source: Json)

  /** What iterating a JSON value yields in Python: a list's items, a string's
      characters, an object's keys; `None` where iterating raises. */
  function IterItems(v: Json): (r: Option<seq<Json>>)
    ensures v.JArray? ==> r == Some(v.items)
    ensures r.Some? <==> v.JArray? || v.JStr? || v.JObject?
  {
    match v
    case JArray(items) => Some(items)
    case JStr(s) => Some(seq(|s|, i requires 0 <= i < |s| => JStr([s[i]])))
    case JObject(fields) => Some(seq(|fields|, i requires 0 <= i < |fields| => JStr(fields[i].0)))
    case _ => None
  }

  /** The fields of every mapping, if every mapping is an object (`col.get`
      raises on anything else). */
  function ObjectsOf(items: seq<Json>): (r: Option<seq<seq<(string, Json)>>>)
    ensures r.Some? <==> forall i :: 0 <= i < |items| ==> items[i].JObject?
    ensures r.Some? ==> |r.value| == |items| && forall i :: 0 <= i < |items| ==> r.value[i] == items[i].fields
  {
    if items == [] then Some([])
    else match (ObjectsOf(items[..|items| - 1]), items[|items| - 1])
      case (Some(init), JObject(fields)) => Some(init + [fields])
      case _ => None
  }

  /** The default `clear_columns`: the truthy `column` of every mapping. */
  function MappedColumns(cms: seq<seq<(string, Json)>>): seq<Json> {
    if cms == [] then []
    else
      var column := Get(cms[|cms| - 1], "column");
      MappedColumns(cms[..|cms| - 1]) + (if Truthy(column) then [column] else [])
  }

  /** A value `range` accepts: an integer, or a boolean, which Python counts as
      one. */
  function RangeInt(v: Json): Option<int> {
    match v
    case JInt(i) => Some(i)
    case JBool(b) => Some(if b then 1 else 0)
    case _ => None
  }

  /** The mappings of a sheet configuration, when reading them does not raise. */
  function MappingsOf(cfg: seq<(string, Json)>): Option<seq<seq<(string, Json)>>> {
    match IterItems(GetOr(cfg, "mappings", JArray([])))
    case None => None
    case Some(items) => ObjectsOf(items)
  }

  function ArraySettings(cfg: seq<(string, Json)>): Option<ArrayParams> {
    var rowStart := RangeInt(GetOr(cfg, "row_start", JInt(1)));
    var cms := MappingsOf(cfg);
    if rowStart.None? || cms.None? then None
    else
      match IterItems(GetOr(cfg, "clear_columns", JArray(MappedColumns(cms.value))))
      case None => None
      case Some(columns) =>
        Some(ArrayParams(rowStart.value, GetOr(cfg, "max_rows", JInt(25)), cms.value, columns,
                         Truthy(GetOr(cfg, "delete_empty_rows", JBool(true))), Get(cfg, "array_source")))
  }

  /** The rows left over after writing are deleted when `delete_empty_rows` is
      set and fewer rows were filled than the array occupies. */
  function LeftoverDeleted(cells: map<Coord, CellValue>, rowStart: int, n: int, rowsToFill: nat, deleteEmptyRows: bool)
    : map<Coord, CellValue>
  {
    if deleteEmptyRows && rowsToFill < n then RowsDeleted(cells, rowStart + rowsToFill, n - rowsToFill)
    else cells
  }

  datatype ArrayOutcome = ArrayOutcome(raised: bool, cells: map<Coord, CellValue>, filled: seq<FillResult>, errors: seq<FillResult>)

  /** What looking up the array gives: its rows, nothing to write, or a raise. */
  datatype ArrayLookup = Rows(items: seq<Json>) | NoRows | BadSource

  /** `_navigate_json_path(data, array_source)` and the test that follows: the
      rows of a non-empty list. A truthy `array_source` that is not a string
      makes the navigator raise (it reaches `re.split`, or `path in data` with
      an unhashable path). */
  function ArrayItems(data: Json, source: Json): ArrayLookup {
    if data.JNull? || !Truthy(source) then NoRows
    else if !source.JStr? then BadSource
    else
      var found := Navigate(data, source.s);
      if found.JArray? && found.items != [] then Rows(found.items) else NoRows
  }

  /** What `_fill_array_data` does to a sheet with cells `cells`. */
  function ArrayFill(cells: map<Coord, CellValue>, sheetName: string, cfg: seq<(string, Json)>, data: Json,
                     placement: Placement): ArrayOutcome {
    match ArraySettings(cfg)
    case None => ArrayOutcome(true, cells, [], [])
    case Some(p) => ArrayFillWith(cells, sheetName, p, data, placement)
  }

  /** The array fill once its settings are read. */
  function ArrayFillWith(cells: map<Coord, CellValue>, sheetName: string, p: ArrayParams, data: Json,
                         placement: Placement): ArrayOutcome {
    if p.rowStart < 1 then ArrayOutcome(true, cells, [], [])
    else match TableRows(cells, p.rowStart, p.maxRows)
      case None => UncountedFill(cells, sheetName, p, data, placement)
      case Some(n) =>
        var cleared := ClearColumns(cells, p.clearColumns, p.rowStart, n);
        match ArrayItems(data, p.source)
        case NoRows => ArrayOutcome(false, cleared, [], [])
        case BadSource => ArrayOutcome(true, cleared, [], [])
        case Rows(items) => ArrayWritten(cleared, sheetName, p, n, items, placement)
  }

  /** Some configured column is truthy, so the clearing loop calls `range`. */
  predicate AnyTruthy(columns: seq<Json>) {
    exists j :: 0 <= j < |columns| && Truthy(columns[j])
  }

  /** `rows_to_fill < max_rows` and the deletion after it fail for a `max_rows`
      that is no integer: the comparison raises for anything but a number, and
      for a real number below which the count stays, `delete_rows` hands the
      real count to `range`. */
  predicate CountRefused(count: nat, maxRows: Json) {
    !(maxRows.JReal? && count as real >= maxRows.r)
  }

  /** The array fill when no Total row is found and `max_rows` is no integer:
      the clearing loop raises at the first truthy column, before clearing
      anything; without one, the rows are written and the deletion test
      raises, unless `delete_empty_rows` is off. */
  function UncountedFill(cells: map<Coord, CellValue>, sheetName: string, p: ArrayParams, data: Json,
                         placement: Placement): ArrayOutcome {
    if AnyTruthy(p.clearColumns) then ArrayOutcome(true, cells, [], [])
    else match ArrayItems(data, p.source)
      case NoRows => ArrayOutcome(false, cells, [], [])
      case BadSource => ArrayOutcome(true, cells, [], [])
      case Rows(items) =>
        var w := RowsWritten(cells, sheetName, p, placement, items);
        ArrayOutcome(w.raised || (p.deleteEmptyRows && CountRefused(w.count, p.maxRows)), w.cells, w.filled, w.errors)
  }

  /** The array elements written one by one over the cleared cells. */
  function RowsWritten(cleared: map<Coord, CellValue>, sheetName: string, p: ArrayParams, placement: Placement,
                       items: seq<Json>): ArrayState {
    RowsFold(ArrayState(cleared, [], [], 0, false), sheetName, p.rowStart, p.mappings, placement, items)
  }

  /** The writing and deleting phases, on the cleared cells. */
  function ArrayWritten(cleared: map<Coord, CellValue>, sheetName: string, p: ArrayParams, n: int, items: seq<Json>,
                        placement: Placement): ArrayOutcome {
    Finished(RowsWritten(cleared, sheetName, p, placement, items), p, n)
  }

  /** The outcome once the rows are written: on a raise the sheet as it is, else
      with the leftover rows deleted. */
  function Finished(w: ArrayState, p: ArrayParams, n: int): ArrayOutcome {
    if w.raised then ArrayOutcome(true, w.cells, w.filled, w.errors)
    else ArrayOutcome(false, LeftoverDeleted(w.cells, p.rowStart, n, w.count, p.deleteEmptyRows), w.filled, w.errors)
  }

  // ---------------------------------------------------------------------------
  // The array fill, step by step

  /** Raising is final: once a fold has raised, later steps change nothing. */
  lemma {:induction false} ColumnsRaisedStays(st: ArrayState, sheetName: string, rowNum: int, fields: seq<(string, Json)>,
                                            cms: seq<seq<(string, Json)>>, j: nat)
    requires j <= |cms|
    requires ColumnsFold(st, sheetName, rowNum, fields, cms[..j]).raised
    ensures ColumnsFold(st, sheetName, rowNum, fields, cms) == ColumnsFold(st, sheetName, rowNum, fields, cms[..j])
    decreases |cms|
  {
    if j < |cms| {
      var init := cms[..|cms| - 1];
      assert init[..j] == cms[..j];
      ColumnsRaisedStays(st, sheetName, rowNum, fields, init, j);
    } else {
      assert cms[..j] == cms;
    }
  }

  lemma {:induction false} RowsRaisedStays(st: ArrayState, sheetName: string, rowStart: int, cms: seq<seq<(string, Json)>>,
                                         placement: Placement, rows: seq<Json>, i: nat)
    requires i <= |rows|
    requires RowsFold(st, sheetName, rowStart, cms, placement, rows[..i]).raised
    ensures RowsFold(st, sheetName, rowStart, cms, placement, rows) == RowsFold(st, sheetName, rowStart, cms, placement, rows[..i])
    decreases |rows|
  {
    if i < |rows| {
      var init := rows[..|rows| - 1];
      assert init[..i] == rows[..i];
      RowsRaisedStays(st, sheetName, rowStart, cms, placement, init, i);
    } else {
      assert rows[..i] == rows;
    }
  }

  /** The sheet and the report hold `st`: its cells, and its entries appended to
      the lists as they were before the array fill. */
  ghost predicate Mirrors(sheet: Sheet, report: FillReport, filled0: seq<FillResult>, errors0: seq<FillResult>,
                          st: ArrayState)
    reads sheet, report
  {
    sheet.cells == st.cells && report.filled == filled0 + st.filled && report.errors == errors0 + st.errors
  }

  /** The search for the Total row in column B, rows `rowStart` to
      `rowStart + 49`. */
  method FindTotalRow(sheet: Sheet, rowStart: int) returns (total: Option<int>)
    ensures total == TotalRowIn(sheet.cells, rowStart, rowStart + 50)
  {
    var checkRow := rowStart;
    while checkRow < rowStart + 50
      invariant rowStart <= checkRow <= rowStart + 50
      invariant TotalRowIn(sheet.cells, checkRow, rowStart + 50) == TotalRowIn(sheet.cells, rowStart, rowStart + 50)
      decreases rowStart + 50 - checkRow
    {
      if IsTotalMarker(sheet.Value(Coord("B", checkRow))) {
        return Some(checkRow);
      }
      checkRow := checkRow + 1;
    }
    return None;
  }

  /** Clearing `n` rows of one column from `rowStart`. */
  method ClearColumnRows(sheet: Sheet, column: string, rowStart: int, n: nat)
    modifies sheet
    ensures sheet.cells == ClearColumn(old(sheet.cells), column, rowStart, n)
  {
    for offset := 0 to n
      invariant sheet.cells == ClearColumn(old(sheet.cells), column, rowStart, offset)
    {
      ClearOne(sheet, column + IntToString(rowStart + offset));
    }
  }

  /** Clearing the cell at `ref`, as `ClearCell` describes. */
  method ClearOne(sheet: Sheet, ref: string)
    modifies sheet
    ensures sheet.cells == ClearCell(old(sheet.cells), ref)
  {
    var coord := ParseCellRef(ref);
    if coord.Some? && !IsFormula(sheet.Value(coord.value)) {
      sheet.SetValue(coord.value, Empty);
    }
  }

  /** Clearing every truthy column of `columns` over `n` rows from `rowStart`. */
  method ClearRange(sheet: Sheet, columns: seq<Json>, rowStart: int, n: int)
    modifies sheet
    ensures sheet.cells == ClearColumns(old(sheet.cells), columns, rowStart, n)
  {
    for i := 0 to |columns|
      invariant sheet.cells == ClearColumns(old(sheet.cells), columns[..i], rowStart, n)
    {
      assert columns[..i + 1][..i] == columns[..i];
      if columns[i].JStr? && columns[i].s != [] && n > 0 {
        ClearColumnRows(sheet, columns[i].s, rowStart, n);
      }
    }
    assert columns[..|columns|] == columns;
  }

  /** One value written at `ref`, as `WriteCell` describes. */
  method WriteValue(sheet: Sheet, report: FillReport, sheetName: string, ref: string, caption: Json, value: Json,
                    ghost filled0: seq<FillResult>, ghost errors0: seq<FillResult>, ghost st: ArrayState)
    requires Mirrors(sheet, report, filled0, errors0, st)
    modifies sheet, report
    ensures Mirrors(sheet, report, filled0, errors0, WriteCell(st, sheetName, ref, caption, value))
    ensures report.skipped == old(report.skipped) && report.external == old(report.external)
  {
    var coord := ParseCellRef(ref);
    if coord.None? {
      ReportEntry(report, sheetName, FillResult(Failed, sheetName, JStr(ref), JNull, JStr("invalid cell reference")));
    } else if !IsFormula(sheet.Value(coord.value)) {
      var stored := ToCell(value);
      if stored.None? {
        ReportEntry(report, sheetName, FillResult(Failed, sheetName, JStr(ref), JNull, JStr("value cannot be stored in a cell")));
      } else {
        sheet.SetValue(coord.value, stored.value);
        ReportEntry(report, sheetName, FillResult(Filled, sheetName, JStr(ref), caption, value));
      }
    }
  }

  /** An array-fill entry, which already names its sheet, appended to its list. */
  method ReportEntry(report: FillReport, sheetName: string, result: FillResult)
    requires result.sheet == sheetName && (result.status == Filled || result.status == Failed)
    modifies report
    ensures result.status == Filled ==> report.filled == old(report.filled) + [result] && report.errors == old(report.errors)
    ensures result.status == Failed ==> report.errors == old(report.errors) + [result] && report.filled == old(report.filled)
    ensures report.skipped == old(report.skipped) && report.external == old(report.external)
  {
    report.AddToReport(sheetName, result);
  }

  lemma ColumnsFoldSnoc(st: ArrayState, sheetName: string, rowNum: int, fields: seq<(string, Json)>,
                        cms: seq<seq<(string, Json)>>, j: nat)
    requires j < |cms|
    ensures ColumnsFold(st, sheetName, rowNum, fields, cms[..j + 1])
            == ColumnStep(ColumnsFold(st, sheetName, rowNum, fields, cms[..j]), sheetName, rowNum, fields, cms[j])
  {
    assert cms[..j + 1][..j] == cms[..j];
  }

  /** The column mappings written into one data row at `rowNum`; `raised` when
      `calc_occupied` meets a count that `int()` refuses. */
  method WriteRow(sheet: Sheet, report: FillReport, sheetName: string, rowNum: int, fields: seq<(string, Json)>,
                  cms: seq<seq<(string, Json)>>, ghost filled0: seq<FillResult>, ghost errors0: seq<FillResult>,
                  ghost st: ArrayState)
    returns (raised: bool)
    requires !st.raised && Mirrors(sheet, report, filled0, errors0, st)
    modifies sheet, report
    ensures raised == ColumnsFold(st, sheetName, rowNum, fields, cms).raised
    ensures Mirrors(sheet, report, filled0, errors0, ColumnsFold(st, sheetName, rowNum, fields, cms))
    ensures report.skipped == old(report.skipped) && report.external == old(report.external)
  {
    for j := 0 to |cms|
      invariant !ColumnsFold(st, sheetName, rowNum, fields, cms[..j]).raised
      invariant Mirrors(sheet, report, filled0, errors0, ColumnsFold(st, sheetName, rowNum, fields, cms[..j]))
      invariant report.skipped == old(report.skipped) && report.external == old(report.external)
    {
      ghost var cur := ColumnsFold(st, sheetName, rowNum, fields, cms[..j]);
      ColumnsFoldSnoc(st, sheetName, rowNum, fields, cms, j);
      var columnRaised := WriteColumn(sheet, report, sheetName, rowNum, fields, cms[j], filled0, errors0, cur);
      if columnRaised {
        ColumnsRaisedStays(st, sheetName, rowNum, fields, cms, j + 1);
        return true;
      }
    }
    assert cms[..|cms|] == cms;
    return false;
  }

  /** One column mapping of a data row, as `ColumnStep` describes. */
  method WriteColumn(sheet: Sheet, report: FillReport, sheetName: string, rowNum: int, fields: seq<(string, Json)>,
                     cm: seq<(string, Json)>, ghost filled0: seq<FillResult>, ghost errors0: seq<FillResult>,
                     ghost cur: ArrayState)
    returns (raised: bool)
    requires !cur.raised && Mirrors(sheet, report, filled0, errors0, cur)
    modifies sheet, report
    ensures raised == ColumnStep(cur, sheetName, rowNum, fields, cm).raised
    ensures Mirrors(sheet, report, filled0, errors0, ColumnStep(cur, sheetName, rowNum, fields, cm))
    ensures report.skipped == old(report.skipped) && report.external == old(report.external)
  {
    var action := ColumnValue(fields, cm);
    if action.Raise? {
      return true;
    } else if action.Write? {
      var ref := ColumnRef(cm, rowNum);
      WriteValue(sheet, report, sheetName, ref, Get(cm, "label"), action.value, filled0, errors0, cur);
    }
    return false;
  }

  /** The column writes leave the count of data rows alone. */
  lemma {:induction false} ColumnsKeepCount(st: ArrayState, sheetName: string, rowNum: int, fields: seq<(string, Json)>,
                                          cms: seq<seq<(string, Json)>>)
    ensures ColumnsFold(st, sheetName, rowNum, fields, cms).count == st.count
  {
    if cms != [] {
      ColumnsKeepCount(st, sheetName, rowNum, fields, cms[..|cms| - 1]);
    }
  }

  lemma RowsFoldSnoc(st: ArrayState, sheetName: string, rowStart: int, cms: seq<seq<(string, Json)>>,
                     placement: Placement, rows: seq<Json>, i: nat)
    requires i < |rows|
    ensures RowsFold(st, sheetName, rowStart, cms, placement, rows[..i + 1])
            == RowStep(RowsFold(st, sheetName, rowStart, cms, placement, rows[..i]), sheetName, rowStart, cms, placement, rows[i], i)
  {
    assert rows[..i + 1][..i] == rows[..i];
  }

  lemma RowStepOfData(st: ArrayState, sheetName: string, rowStart: int, cms: seq<seq<(string, Json)>>,
                      placement: Placement, row: Json, idx: nat)
    requires !st.raised && row.JObject? && !IsSummaryRow(row.fields)
    ensures RowStep(st, sheetName, rowStart, cms, placement, row, idx)
            == DataRowStep(st, sheetName, rowStart, cms, placement, row.fields, idx)
  {
  }

  /** One data row: counted, then written at its target row. */
  method WriteDataRow(sheet: Sheet, report: FillReport, rowStart: int, cms: seq<seq<(string, Json)>>,
                      placement: Placement, fields: seq<(string, Json)>, idx: nat, count: nat,
                      ghost filled0: seq<FillResult>, ghost errors0: seq<FillResult>, ghost st: ArrayState)
    returns (raised: bool)
    requires !st.raised && st.count == count && Mirrors(sheet, report, filled0, errors0, st)
    modifies sheet, report
    ensures var after := DataRowStep(st, sheet.title, rowStart, cms, placement, fields, idx);
            raised == after.raised && after.count == count + 1 && Mirrors(sheet, report, filled0, errors0, after)
    ensures report.skipped == old(report.skipped) && report.external == old(report.external)
  {
    var currentRow := TargetRow(placement, rowStart, idx, count);
    ghost var counted := Counted(st);
    ColumnsKeepCount(counted, sheet.title, currentRow, fields, cms);
    raised := WriteRow(sheet, report, sheet.title, currentRow, fields, cms, filled0, errors0, counted);
  }

  /** The loop over the array elements; `rowsToFill` counts the data rows. */
  method WriteRows(sheet: Sheet, report: FillReport, rowStart: int, cms: seq<seq<(string, Json)>>,
                   placement: Placement, items: seq<Json>)
    returns (raised: bool, rowsToFill: nat)
    modifies sheet, report
    ensures var w := RowsFold(ArrayState(old(sheet.cells), [], [], 0, false), sheet.title, rowStart, cms, placement, items);
            raised == w.raised && rowsToFill == w.count
            && Mirrors(sheet, report, old(report.filled), old(report.errors), w)
    ensures report.skipped == old(report.skipped) && report.external == old(report.external)
  {
    ghost var st0 := ArrayState(sheet.cells, [], [], 0, false);
    ghost var filled0, errors0 := report.filled, report.errors;
    rowsToFill := 0;
    for i := 0 to |items|
      invariant !RowsFold(st0, sheet.title, rowStart, cms, placement, items[..i]).raised
      invariant Mirrors(sheet, report, filled0, errors0, RowsFold(st0, sheet.title, rowStart, cms, placement, items[..i]))
      invariant rowsToFill == RowsFold(st0, sheet.title, rowStart, cms, placement, items[..i]).count
      invariant report.skipped == old(report.skipped) && report.external == old(report.external)
    {
      ghost var before := RowsFold(st0, sheet.title, rowStart, cms, placement, items[..i]);
      RowsFoldSnoc(st0, sheet.title, rowStart, cms, placement, items, i);
      var row := items[i];
      if !row.JObject? {
        assert RowsFold(st0, sheet.title, rowStart, cms, placement, items[..i + 1]) == Raised(before);
        RowsRaisedStays(st0, sheet.title, rowStart, cms, placement, items, i + 1);
        return true, rowsToFill;
      }
      if !IsSummaryRow(row.fields) {
        RowStepOfData(before, sheet.title, rowStart, cms, placement, row, i);
        var rowRaised := WriteDataRow(sheet, report, rowStart, cms, placement, row.fields, i, rowsToFill,
                                      filled0, errors0, before);
        rowsToFill := rowsToFill + 1;
        if rowRaised {
          RowsRaisedStays(st0, sheet.title, rowStart, cms, placement, items, i + 1);
          return true, rowsToFill;
        }
      }
    }
    assert items[..|items|] == items;
    return false, rowsToFill;
  }

  lemma ArrayWrittenOf(cleared: map<Coord, CellValue>, sheetName: string, p: ArrayParams, n: int, items: seq<Json>,
                       placement: Placement, w: ArrayState)
    requires w == RowsWritten(cleared, sheetName, p, placement, items)
    ensures ArrayWritten(cleared, sheetName, p, n, items, placement)
            == ArrayOutcome(w.raised, if w.raised then w.cells else LeftoverDeleted(w.cells, p.rowStart, n, w.count, p.deleteEmptyRows),
                            w.filled, w.errors)
  {
  }

  /** `delete_rows` on the rows left over. */
  method DeleteLeftoverRows(sheet: Sheet, rowStart: int, n: int, rowsToFill: nat, deleteEmptyRows: bool)
    modifies sheet
    ensures sheet.cells == LeftoverDeleted(old(sheet.cells), rowStart, n, rowsToFill, deleteEmptyRows)
  {
    if deleteEmptyRows && rowsToFill < n {
      sheet.DeleteRows(rowStart + rowsToFill, n - rowsToFill);
    }
  }

  /** Writing the array elements, then deleting the rows left over. */
  method WriteAndDelete(sheet: Sheet, report: FillReport, p: ArrayParams, n: int, items: seq<Json>, placement: Placement)
    returns (raised: bool)
    modifies sheet, report
    ensures var o := ArrayWritten(old(sheet.cells), sheet.title, p, n, items, placement);
            raised == o.raised && sheet.cells == o.cells
            && report.filled == old(report.filled) + o.filled && report.errors == old(report.errors) + o.errors
    ensures report.skipped == old(report.skipped) && report.external == old(report.external)
  {
    ghost var w := RowsFold(ArrayState(sheet.cells, [], [], 0, false), sheet.title, p.rowStart, p.mappings, placement, items);
    ArrayWrittenOf(sheet.cells, sheet.title, p, n, items, placement, w);
    var rowsToFill;
    raised, rowsToFill := WriteRows(sheet, report, p.rowStart, p.mappings, placement, items);
    if !raised {
      DeleteLeftoverRows(sheet, p.rowStart, n, rowsToFill, p.deleteEmptyRows);
    }
  }

  lemma ArrayFillWithOf(cells: map<Coord, CellValue>, sheetName: string, p: ArrayParams, data: Json,
                        placement: Placement, n: int, items: seq<Json>)
    requires p.rowStart >= 1 && TableRows(cells, p.rowStart, p.maxRows) == Some(n)
    requires ArrayItems(data, p.source) == Rows(items)
    ensures ArrayFillWith(cells, sheetName, p, data, placement)
            == ArrayWritten(ClearColumns(cells, p.clearColumns, p.rowStart, n), sheetName, p, n, items, placement)
  {
  }

  /** Finding the table's extent and, when it is a row count, clearing its
      columns. */
  method PrepareRows(sheet: Sheet, p: ArrayParams) returns (n: Option<int>)
    modifies sheet
    ensures n == TableRows(old(sheet.cells), p.rowStart, p.maxRows)
    ensures n.Some? ==> sheet.cells == ClearColumns(old(sheet.cells), p.clearColumns, p.rowStart, n.value)
    ensures n.None? ==> sheet.cells == old(sheet.cells)
  {
    var total := FindTotalRow(sheet, p.rowStart);
    n := if total.Some? then Some(total.value - p.rowStart) else RangeInt(p.maxRows);
    if n.Some? {
      ClearRange(sheet, p.clearColumns, p.rowStart, n.value);
    }
  }

  /** The array under the source path, when it is a non-empty list. */
  method LookUpItems(data: Json, source: Json) returns (items: ArrayLookup)
    ensures items == ArrayItems(data, source)
  {
    if data.JNull? || !Truthy(source) {
      return NoRows;
    }
    if !source.JStr? {
      return BadSource;
    }
    var arrayData := NavigateJsonPath(data, source.s);
    if !arrayData.JArray? || arrayData.items == [] {
      return NoRows;
    }
    return Rows(arrayData.items);
  }

  /** The array fill without a row count, as `UncountedFill` describes. */
  method FillUncounted(sheet: Sheet, p: ArrayParams, data: Json, report: FillReport, placement: Placement)
    returns (raised: bool)
    modifies sheet, report
    ensures var o := UncountedFill(old(sheet.cells), sheet.title, p, data, placement);
            raised == o.raised && sheet.cells == o.cells
            && report.filled == old(report.filled) + o.filled && report.errors == old(report.errors) + o.errors
    ensures report.skipped == old(report.skipped) && report.external == old(report.external)
  {
    for j := 0 to |p.clearColumns|
      invariant forall i :: 0 <= i < j ==> !Truthy(p.clearColumns[i])
    {
      if Truthy(p.clearColumns[j]) {
        return true;
      }
    }
    var items := LookUpItems(data, p.source);
    if items.NoRows? {
      return false;
    } else if items.BadSource? {
      return true;
    }
    var rowsToFill;
    raised, rowsToFill := WriteRows(sheet, report, p.rowStart, p.mappings, placement, items.items);
    if !raised && p.deleteEmptyRows && CountRefused(rowsToFill, p.maxRows) {
      raised := true;
    }
  }

  /** The array fill once its settings are read. */
  method FillArrayWith(sheet: Sheet, p: ArrayParams, data: Json, report: FillReport, placement: Placement)
    returns (raised: bool)
    modifies sheet, report
    ensures var o := ArrayFillWith(old(sheet.cells), sheet.title, p, data, placement);
            raised == o.raised && sheet.cells == o.cells
            && report.filled == old(report.filled) + o.filled && report.errors == old(report.errors) + o.errors
    ensures report.skipped == old(report.skipped) && report.external == old(report.external)
  {
    if p.rowStart < 1 {
      return true;
    }
    var n := PrepareRows(sheet, p);
    if n.None? {
      raised := FillUncounted(sheet, p, data, report, placement);
      return;
    }
    var items := LookUpItems(data, p.source);
    if items.NoRows? {
      return false;
    } else if items.BadSource? {
      return true;
    }
    ArrayFillWithOf(old(sheet.cells), sheet.title, p, data, placement, n.value, items.items);
    raised := WriteAndDelete(sheet, report, p, n.value, items.items, placement);
  }

  /** `_fill_array_data`; `raised` when it raises, which makes `fill` report an
      error. */
  method FillArrayData(sheet: Sheet, cfg: seq<(string, Json)>, data: Json, report: FillReport, placement: Placement)
    returns (raised: bool)
    modifies sheet, report
    ensures var o := ArrayFill(old(sheet.cells), sheet.title, cfg, data, placement);
            raised == o.raised && sheet.cells == o.cells
            && report.filled == old(report.filled) + o.filled && report.errors == old(report.errors) + o.errors
    ensures report.skipped == old(report.skipped) && report.external == old(report.external)
  {
    var settings := ArraySettings(cfg);
    if settings.None? {
      return true;
    }
    raised := FillArrayWith(sheet, settings.value, data, report, placement);
  }

  // ---------------------------------------------------------------------------
  // What clearing does

  /** Every truthy string column names one to three letters. */
  predicate ValidColumns(columns: seq<Json>) {
    forall j :: 0 <= j < |columns| && columns[j].JStr? && columns[j].s != [] ==> ValidColumn(columns[j].s)
  }

  /** `column` is, in upper case, one of the truthy string columns. */
  predicate ClearsColumn(columns: seq<Json>, column: string) {
    exists j :: 0 <= j < |columns| && columns[j].JStr? && columns[j].s != [] && Upper(columns[j].s) == column
  }

  /** Clearing one column empties exactly its non-formula cells in the rows
      `[rowStart, rowStart + k)`. */
  lemma {:induction false} ClearColumnAt(cells: map<Coord, CellValue>, column: string, rowStart: int, k: nat, c: Coord)
    requires ValidColumn(column) && rowStart >= 1
    ensures At(ClearColumn(cells, column, rowStart, k), c)
            == if c.column == Upper(column) && rowStart <= c.row < rowStart + k && !IsFormula(At(cells, c)) then Empty
               else At(cells, c)
  {
    ClearColumnIsCoords(cells, column, rowStart, k);
    ClearCoordsAt(cells, Upper(column), rowStart, k, c);
  }

  /** Clearing the cell at `c` unless it holds a formula. */
  function ClearCoord(cells: map<Coord, CellValue>, c: Coord): map<Coord, CellValue> {
    if IsFormula(At(cells, c)) then cells else cells[c := Empty]
  }

  /** The rows `[rowStart, rowStart + k)` of column `column` cleared cell by cell. */
  function ClearCoords(cells: map<Coord, CellValue>, column: string, rowStart: int, k: nat): map<Coord, CellValue> {
    if k == 0 then cells
    else ClearCoord(ClearCoords(cells, column, rowStart, k - 1), Coord(column, rowStart + k - 1))
  }

  /** For a valid column, the references the filler builds name the cells of
      the upper-cased column. */
  lemma {:induction false} ClearColumnIsCoords(cells: map<Coord, CellValue>, column: string, rowStart: int, k: nat)
    requires ValidColumn(column) && rowStart >= 1
    ensures ClearColumn(cells, column, rowStart, k) == ClearCoords(cells, Upper(column), rowStart, k)
  {
    if k > 0 {
      ClearColumnIsCoords(cells, column, rowStart, k - 1);
      var prev := ClearColumn(cells, column, rowStart, k - 1);
      ClearCellOf(prev, column, rowStart + k - 1);
      calc {
        ClearColumn(cells, column, rowStart, k);
        ClearCell(prev, column + IntToString(rowStart + k - 1));
        ClearCoord(prev, Coord(Upper(column), rowStart + k - 1));
        ClearCoords(cells, Upper(column), rowStart, k);
      }
    }
  }

  lemma {:induction false} ClearCoordsAt(cells: map<Coord, CellValue>, column: string, rowStart: int, k: nat, c: Coord)
    ensures At(ClearCoords(cells, column, rowStart, k), c)
            == if c.column == column && rowStart <= c.row < rowStart + k && !IsFormula(At(cells, c)) then Empty
               else At(cells, c)
  {
    if k > 0 {
      ClearCoordsAt(cells, column, rowStart, k - 1, c);
    }
  }

  /** Clearing the cell `column + str(row)` of a valid column. */
  lemma ClearCellOf(cells: map<Coord, CellValue>, column: string, row: int)
    requires ValidColumn(column) && row >= 1
    ensures ClearCell(cells, column + IntToString(row)) == ClearCoord(cells, Coord(Upper(column), row))
  {
    CellRefOf(column, row);
  }

  /** Clearing empties exactly the non-formula cells of the cleared columns in
      the rows `[rowStart, rowStart + n)`, and nothing else. */
  lemma {:induction false} ClearColumnsAt(cells: map<Coord, CellValue>, columns: seq<Json>, rowStart: int, n: int, c: Coord)
    requires ValidColumns(columns) && rowStart >= 1
    ensures At(ClearColumns(cells, columns, rowStart, n), c)
            == if ClearsColumn(columns, c.column) && rowStart <= c.row < rowStart + n && !IsFormula(At(cells, c)) then Empty
               else At(cells, c)
  {
    if columns != [] {
      var init := columns[..|columns| - 1];
      var last := columns[|columns| - 1];
      ColumnsSnoc(columns, c.column);
      ClearColumnsAt(cells, init, rowStart, n, c);
      var before := ClearColumns(cells, init, rowStart, n);
      if last.JStr? && last.s != [] && n > 0 {
        ClearColumnAt(before, last.s, rowStart, n, c);
      }
    }
  }

  /** The columns but the last are valid too, and a column is cleared by them
      all when it is cleared by those or by the last one. */
  lemma ColumnsSnoc(columns: seq<Json>, column: string)
    requires ValidColumns(columns) && columns != []
    ensures var init := columns[..|columns| - 1];
            var last := columns[|columns| - 1];
            ValidColumns(init)
            && (ClearsColumn(columns, column)
                <==> ClearsColumn(init, column) || (last.JStr? && last.s != [] && Upper(last.s) == column))
  {
    var init := columns[..|columns| - 1];
    assert ValidColumns(init) by {
      forall j | 0 <= j < |init| && init[j].JStr? && init[j].s != [] ensures ValidColumn(init[j].s) {
        assert init[j] == columns[j];
      }
    }
    if ClearsColumn(columns, column) {
      var j :| 0 <= j < |columns| && columns[j].JStr? && columns[j].s != [] && Upper(columns[j].s) == column;
      if j < |init| {
        assert init[j] == columns[j];
      }
    }
    if ClearsColumn(init, column) {
      var j :| 0 <= j < |init| && init[j].JStr? && init[j].s != [] && Upper(init[j].s) == column;
      assert columns[j] == init[j];
    }
  }

  /** Clearing never touches a formula cell, whatever the configured columns
      and rows. */
  lemma {:induction false} ClearSparesFormulas(cells: map<Coord, CellValue>, columns: seq<Json>, rowStart: int, n: int,
                                             c: Coord)
    requires IsFormula(At(cells, c))
    ensures At(ClearColumns(cells, columns, rowStart, n), c) == At(cells, c)
  {
    if columns != [] {
      var init := columns[..|columns| - 1];
      ClearSparesFormulas(cells, init, rowStart, n, c);
      var before := ClearColumns(cells, init, rowStart, n);
      var last := columns[|columns| - 1];
      if last.JStr? && last.s != [] && n > 0 {
        ClearColumnSparesFormula(before, last.s, rowStart, n, c);
      }
    }
  }

  lemma {:induction false} ClearColumnSparesFormula(cells: map<Coord, CellValue>, column: string, rowStart: int, k: nat,
                                                  c: Coord)
    requires IsFormula(At(cells, c))
    ensures At(ClearColumn(cells, column, rowStart, k), c) == At(cells, c)
  {
    if k > 0 {
      ClearColumnSparesFormula(cells, column, rowStart, k - 1, c);
      ClearCellSparesFormula(ClearColumn(cells, column, rowStart, k - 1), column + IntToString(rowStart + k - 1), c);
    }
  }

  lemma ClearCellSparesFormula(cells: map<Coord, CellValue>, ref: string, c: Coord)
    requires IsFormula(At(cells, c))
    ensures At(ClearCell(cells, ref), c) == At(cells, c)
  {
  }

  /** When column B holds "Total" at row `t` within 50 rows, clearing covers the
      rows above it only: the Total row and every row below keep their cells. */
  lemma TotalRowNeverCleared(cells: map<Coord, CellValue>, columns: seq<Json>, rowStart: int, maxRows: Json, c: Coord)
    requires ValidColumns(columns) && rowStart >= 1
    requires TotalRowIn(cells, rowStart, rowStart + 50).Some?
    requires c.row >= TotalRowIn(cells, rowStart, rowStart + 50).value
    ensures TableRows(cells, rowStart, maxRows).Some?
    ensures At(ClearColumns(cells, columns, rowStart, TableRows(cells, rowStart, maxRows).value), c) == At(cells, c)
  {
    ClearColumnsAt(cells, columns, rowStart, TableRows(cells, rowStart, maxRows).value, c);
  }

  // ---------------------------------------------------------------------------
  // What writing does

  /** Every given mapping column names one to three letters. */
  predicate ValidMappingColumns(cms: seq<seq<(string, Json)>>) {
    forall j :: 0 <= j < |cms| && Given(StrField(cms[j], "column")) ==> ValidColumn(StrField(cms[j], "column").value)
  }

  lemma ValidMappingPrefix(cms: seq<seq<(string, Json)>>, k: nat)
    requires k <= |cms| && ValidMappingColumns(cms)
    ensures ValidMappingColumns(cms[..k])
  {
    forall j | 0 <= j < k && Given(StrField(cms[..k][j], "column"))
      ensures ValidColumn(StrField(cms[..k][j], "column").value)
    {
      assert cms[..k][j] == cms[j];
    }
  }

  /** Writing into row `rowNum` changes, at most, non-formula cells of that row. */
  lemma {:induction false} ColumnsChangeOneRow(st: ArrayState, sheetName: string, rowNum: int, fields: seq<(string, Json)>,
                                             cms: seq<seq<(string, Json)>>, c: Coord)
    requires ValidMappingColumns(cms) && rowNum >= 1
    ensures var after := ColumnsFold(st, sheetName, rowNum, fields, cms);
            At(after.cells, c) != At(st.cells, c) ==> c.row == rowNum && !IsFormula(At(st.cells, c))
  {
    if cms != [] {
      var init := cms[..|cms| - 1];
      var cm := cms[|cms| - 1];
      ValidMappingPrefix(cms, |cms| - 1);
      ColumnsChangeOneRow(st, sheetName, rowNum, fields, init, c);
      var prev := ColumnsFold(st, sheetName, rowNum, fields, init);
      assert Given(StrField(cm, "column")) ==> ValidColumn(StrField(cm, "column").value);
      ColumnStepChangesOneRow(prev, sheetName, rowNum, fields, cm, c);
    }
  }

  lemma ColumnStepChangesOneRow(st: ArrayState, sheetName: string, rowNum: int, fields: seq<(string, Json)>,
                                cm: seq<(string, Json)>, c: Coord)
    requires Given(StrField(cm, "column")) ==> ValidColumn(StrField(cm, "column").value)
    requires rowNum >= 1
    ensures var after := ColumnStep(st, sheetName, rowNum, fields, cm);
            At(after.cells, c) != At(st.cells, c) ==> c.row == rowNum && !IsFormula(At(st.cells, c))
  {
    if !st.raised && ColumnValue(fields, cm).Write? {
      var column := Get(cm, "column");
      if column.JStr? {
        CellRefOf(column.s, rowNum);
      } else {
        NonTextColumnUnreadable(column, rowNum);
      }
      WriteCellChangesOnly(st, sheetName, ColumnRef(cm, rowNum), Get(cm, "label"), ColumnValue(fields, cm).value, c);
    }
  }

  /** A column that is not a string never gives a cell reference: the write
      becomes an error entry. */
  lemma NonTextColumnUnreadable(column: Json, rowNum: int)
    requires !column.JStr?
    ensures ParseCellRef(ColumnText(column) + IntToString(rowNum)) == None
  {
    var t := IntToString(rowNum);
    assert !IsLetter(t[0]);
    var ref := ColumnText(column) + t;
    match column
    case JBool(b) =>
      LetterRunOf(if b then "True" else "False", t);
    case JNull =>
      LetterRunOf("None", t);
    case JInt(i) =>
      var d := IntToString(i);
      assert ref[0] == d[0];
      if i < 0 {
        assert d[0] == '-';
      } else {
        assert IsDigit(d[0]);
      }
    case JReal(_) =>
      assert ref[0] == '<';
    case JArray(_) =>
      assert ref[0] == '[';
    case JObject(_) =>
      assert ref[0] == '{';
  }

  /** Writing one cell by reference changes at most the non-formula cell the
      reference names. */
  lemma WriteCellChangesOnly(st: ArrayState, sheetName: string, ref: string, caption: Json, v: Json, c: Coord)
    ensures At(WriteCell(st, sheetName, ref, caption, v).cells, c) != At(st.cells, c) ==>
              ParseCellRef(ref) == Some(c) && !IsFormula(At(st.cells, c))
  {
  }

  /** The number of array elements that are objects and not summary rows. */
  function DataRows(rows: seq<Json>): nat {
    if rows == [] then 0
    else
      var row := rows[|rows| - 1];
      DataRows(rows[..|rows| - 1]) + (if row.JObject? && !IsSummaryRow(row.fields) then 1 else 0)
  }

  /** The array writes change only non-formula cells, and only in the rows the
      placement allows: as written, the rows `[rowStart, rowStart + |rows|)`;
      contiguously, the rows from the count before to the count after. Without
      a raise, `rows_to_fill` grows by the number of data rows. */
  lemma {:induction false} RowsChangeRange(st: ArrayState, sheetName: string, rowStart: int, cms: seq<seq<(string, Json)>>,
                                         placement: Placement, rows: seq<Json>, c: Coord)
    requires ValidMappingColumns(cms) && rowStart >= 1
    ensures var w := RowsFold(st, sheetName, rowStart, cms, placement, rows);
            w.count >= st.count
            && (!w.raised ==> w.count == st.count + DataRows(rows))
            && (At(w.cells, c) != At(st.cells, c) ==>
                  !IsFormula(At(st.cells, c))
                  && (placement == AsWritten ==> rowStart <= c.row < rowStart + |rows|)
                  && (placement == Contiguous ==> rowStart + st.count <= c.row < rowStart + w.count))
  {
    if rows != [] {
      var init := rows[..|rows| - 1];
      var row := rows[|rows| - 1];
      var idx := |rows| - 1;
      RowsChangeRange(st, sheetName, rowStart, cms, placement, init, c);
      var prev := RowsFold(st, sheetName, rowStart, cms, placement, init);
      if !prev.raised && row.JObject? && !IsSummaryRow(row.fields) {
        var counted := Counted(prev);
        var target := TargetRow(placement, rowStart, idx, prev.count);
        ColumnsKeepCount(counted, sheetName, target, row.fields, cms);
        ColumnsChangeOneRow(counted, sheetName, target, row.fields, cms, c);
      }
    }
  }

  /** Without a raise, `rows_to_fill` grows by the number of data rows. */
  lemma {:induction false} RowsCount(st: ArrayState, sheetName: string, rowStart: int, cms: seq<seq<(string, Json)>>,
                                   placement: Placement, rows: seq<Json>)
    ensures var w := RowsFold(st, sheetName, rowStart, cms, placement, rows);
            !w.raised ==> w.count == st.count + DataRows(rows)
  {
    if rows != [] {
      var init := rows[..|rows| - 1];
      var row := rows[|rows| - 1];
      RowsCount(st, sheetName, rowStart, cms, placement, init);
      var prev := RowsFold(st, sheetName, rowStart, cms, placement, init);
      if !prev.raised && row.JObject? && !IsSummaryRow(row.fields) {
        ColumnsKeepCount(Counted(prev), sheetName, TargetRow(placement, rowStart, |rows| - 1, prev.count), row.fields, cms);
      } else if prev.raised {
        assert RowsFold(st, sheetName, rowStart, cms, placement, rows).raised;
      }
    }
  }

  /** A formula cell survives the array writes, whatever the configured
      columns and rows. */
  lemma {:induction false} WritesSpareFormulas(st: ArrayState, sheetName: string, rowStart: int,
                                             cms: seq<seq<(string, Json)>>, placement: Placement, rows: seq<Json>,
                                             c: Coord)
    requires IsFormula(At(st.cells, c))
    ensures At(RowsFold(st, sheetName, rowStart, cms, placement, rows).cells, c) == At(st.cells, c)
  {
    if rows != [] {
      var init := rows[..|rows| - 1];
      var row := rows[|rows| - 1];
      WritesSpareFormulas(st, sheetName, rowStart, cms, placement, init, c);
      var prev := RowsFold(st, sheetName, rowStart, cms, placement, init);
      if !prev.raised && row.JObject? && !IsSummaryRow(row.fields) {
        ColumnsSpareFormula(Counted(prev), sheetName, TargetRow(placement, rowStart, |rows| - 1, prev.count),
                            row.fields, cms, c);
      }
    }
  }

  lemma {:induction false} ColumnsSpareFormula(st: ArrayState, sheetName: string, rowNum: int,
                                             fields: seq<(string, Json)>, cms: seq<seq<(string, Json)>>, c: Coord)
    requires IsFormula(At(st.cells, c))
    ensures At(ColumnsFold(st, sheetName, rowNum, fields, cms).cells, c) == At(st.cells, c)
  {
    if cms != [] {
      var init := cms[..|cms| - 1];
      ColumnsSpareFormula(st, sheetName, rowNum, fields, init, c);
      var prev := ColumnsFold(st, sheetName, rowNum, fields, init);
      var a := ColumnValue(fields, cms[|cms| - 1]);
      if !prev.raised && a.Write? {
        WriteCellChangesOnly(prev, sheetName, ColumnRef(cms[|cms| - 1], rowNum), Get(cms[|cms| - 1], "label"), a.value, c);
      }
    }
  }

  /** Every entry the array fill adds is tagged with the sheet, and lands in the
      list of its status. */
  ghost predicate Tagged(st: ArrayState, sheetName: string) {
    (forall i :: 0 <= i < |st.filled| ==> st.filled[i].status == Filled && st.filled[i].sheet == sheetName)
    && (forall i :: 0 <= i < |st.errors| ==> st.errors[i].status == Failed && st.errors[i].sheet == sheetName)
  }

  lemma {:induction false} ColumnsTagged(st: ArrayState, sheetName: string, rowNum: int, fields: seq<(string, Json)>,
                                       cms: seq<seq<(string, Json)>>)
    requires Tagged(st, sheetName)
    ensures Tagged(ColumnsFold(st, sheetName, rowNum, fields, cms), sheetName)
  {
    if cms != [] {
      ColumnsTagged(st, sheetName, rowNum, fields, cms[..|cms| - 1]);
      ColumnStepTagged(ColumnsFold(st, sheetName, rowNum, fields, cms[..|cms| - 1]), sheetName, rowNum, fields, cms[|cms| - 1]);
    }
  }

  lemma ColumnStepTagged(st: ArrayState, sheetName: string, rowNum: int, fields: seq<(string, Json)>,
                         cm: seq<(string, Json)>)
    requires Tagged(st, sheetName)
    ensures Tagged(ColumnStep(st, sheetName, rowNum, fields, cm), sheetName)
  {
    if !st.raised {
      var a := ColumnValue(fields, cm);
      if a.Write? {
        WriteCellTagged(st, sheetName, ColumnRef(cm, rowNum), Get(cm, "label"), a.value);
      }
    }
  }

  lemma WriteCellTagged(st: ArrayState, sheetName: string, ref: string, caption: Json, v: Json)
    requires Tagged(st, sheetName)
    ensures Tagged(WriteCell(st, sheetName, ref, caption, v), sheetName)
  {
    match ParseCellRef(ref)
    case None =>
      SnocTagged(st.errors, FillResult(Failed, sheetName, JStr(ref), JNull, JStr("invalid cell reference")), Failed, sheetName);
    case Some(c) =>
      if !IsFormula(At(st.cells, c)) {
        if ToCell(v).None? {
          SnocTagged(st.errors, FillResult(Failed, sheetName, JStr(ref), JNull, JStr("value cannot be stored in a cell")), Failed, sheetName);
        } else {
          SnocTagged(st.filled, FillResult(Filled, sheetName, JStr(ref), caption, v), Filled, sheetName);
        }
      }
  }

  lemma SnocTagged(xs: seq<FillResult>, e: FillResult, s: Status, sheetName: string)
    requires forall i :: 0 <= i < |xs| ==> xs[i].status == s && xs[i].sheet == sheetName
    requires e.status == s && e.sheet == sheetName
    ensures forall i :: 0 <= i < |xs + [e]| ==> (xs + [e])[i].status == s && (xs + [e])[i].sheet == sheetName
  {
  }

  lemma {:induction false} RowsTagged(st: ArrayState, sheetName: string, rowStart: int, cms: seq<seq<(string, Json)>>,
                                    placement: Placement, rows: seq<Json>)
    requires Tagged(st, sheetName)
    ensures Tagged(RowsFold(st, sheetName, rowStart, cms, placement, rows), sheetName)
  {
    if rows != [] {
      var init := rows[..|rows| - 1];
      RowsTagged(st, sheetName, rowStart, cms, placement, init);
      var prev := RowsFold(st, sheetName, rowStart, cms, placement, init);
      RowStepTagged(prev, sheetName, rowStart, cms, placement, rows[|rows| - 1], |rows| - 1);
    }
  }

  lemma RowStepTagged(st: ArrayState, sheetName: string, rowStart: int, cms: seq<seq<(string, Json)>>,
                      placement: Placement, row: Json, idx: nat)
    requires Tagged(st, sheetName)
    ensures Tagged(RowStep(st, sheetName, rowStart, cms, placement, row, idx), sheetName)
  {
    if !st.raised && row.JObject? && !IsSummaryRow(row.fields) {
      var counted := Counted(st);
      ColumnsTagged(counted, sheetName, TargetRow(placement, rowStart, idx, st.count), row.fields, cms);
    }
  }

  /** Every filled entry and every error entry of an array fill is tagged with
      the sheet and carries its list's status. */
  ghost predicate OutcomeTagged(o: ArrayOutcome, sheetName: string) {
    (forall i :: 0 <= i < |o.filled| ==> o.filled[i].status == Filled && o.filled[i].sheet == sheetName)
    && (forall i :: 0 <= i < |o.errors| ==> o.errors[i].status == Failed && o.errors[i].sheet == sheetName)
  }

  lemma ArrayWrittenTagged(cleared: map<Coord, CellValue>, sheetName: string, p: ArrayParams, n: int, items: seq<Json>,
                           placement: Placement)
    ensures OutcomeTagged(ArrayWritten(cleared, sheetName, p, n, items, placement), sheetName)
  {
    RowsTagged(ArrayState(cleared, [], [], 0, false), sheetName, p.rowStart, p.mappings, placement, items);
  }

  lemma ArrayFillWithTagged(cells: map<Coord, CellValue>, sheetName: string, p: ArrayParams, data: Json,
                            placement: Placement)
    ensures OutcomeTagged(ArrayFillWith(cells, sheetName, p, data, placement), sheetName)
  {
    if p.rowStart >= 1 {
      var items := ArrayItems(data, p.source);
      if items.Rows? {
        var n := TableRows(cells, p.rowStart, p.maxRows);
        if n.Some? {
          ArrayFillWithOf(cells, sheetName, p, data, placement, n.value, items.items);
          ArrayWrittenTagged(ClearColumns(cells, p.clearColumns, p.rowStart, n.value), sheetName, p, n.value, items.items,
                             placement);
        } else if !AnyTruthy(p.clearColumns) {
          RowsTagged(ArrayState(cells, [], [], 0, false), sheetName, p.rowStart, p.mappings, placement, items.items);
        }
      }
    }
  }

  /** `_fill_array_data` adds filled entries and error entries only, each
      tagged with the sheet. */
  lemma ArrayFillTagged(cells: map<Coord, CellValue>, sheetName: string, cfg: seq<(string, Json)>, data: Json,
                        placement: Placement)
    ensures OutcomeTagged(ArrayFill(cells, sheetName, cfg, data, placement), sheetName)
  {
    var settings := ArraySettings(cfg);
    if settings.Some? {
      ArrayFillWithTagged(cells, sheetName, settings.value, data, placement);
    }
  }

  // ---------------------------------------------------------------------------
  // Summary rows and the deletion of leftover rows

  /** After the leftover rows are deleted, a row above `rowStart + rowsToFill`
      is unchanged and every other row holds what was `n - rowsToFill` rows
      further down. */
  lemma LeftoverDeletedAt(cells: map<Coord, CellValue>, rowStart: int, n: int, rowsToFill: nat, deleteEmptyRows: bool,
                          c: Coord)
    ensures At(LeftoverDeleted(cells, rowStart, n, rowsToFill, deleteEmptyRows), c)
            == if deleteEmptyRows && rowsToFill < n && c.row >= rowStart + rowsToFill
               then At(cells, Coord(c.column, c.row + n - rowsToFill))
               else At(cells, c)
  {
    if deleteEmptyRows && rowsToFill < n {
      RowsDeletedAt(cells, rowStart + rowsToFill, n - rowsToFill, c);
    }
  }

  lemma FinishedAt(w: ArrayState, p: ArrayParams, n: int, c: Coord)
    ensures !w.raised ==>
              At(Finished(w, p, n).cells, c)
              == if p.deleteEmptyRows && w.count < n && c.row >= p.rowStart + w.count
                 then At(w.cells, Coord(c.column, c.row + n - w.count))
                 else At(w.cells, c)
  {
    LeftoverDeletedAt(w.cells, p.rowStart, n, w.count, p.deleteEmptyRows, c);
  }

  /** With contiguous placement every cell the writes changed survives the
      deletion of the leftover rows: the data rows occupy exactly
      `[rowStart, rowStart + rows_to_fill)`, above the first deleted row. */
  lemma ContiguousKeepsWrittenCells(cleared: map<Coord, CellValue>, sheetName: string, p: ArrayParams, n: int,
                                    items: seq<Json>, c: Coord)
    requires ValidMappingColumns(p.mappings) && p.rowStart >= 1
    requires var w := RowsWritten(cleared, sheetName, p, Contiguous, items);
             At(w.cells, c) != At(cleared, c)
    ensures var w := RowsWritten(cleared, sheetName, p, Contiguous, items);
            At(ArrayWritten(cleared, sheetName, p, n, items, Contiguous).cells, c) == At(w.cells, c)
  {
    var st0 := ArrayState(cleared, [], [], 0, false);
    var w := RowsFold(st0, sheetName, p.rowStart, p.mappings, Contiguous, items);
    RowsChangeRange(st0, sheetName, p.rowStart, p.mappings, Contiguous, items, c);
    ArrayWrittenOf(cleared, sheetName, p, n, items, Contiguous, w);
    LeftoverDeletedAt(w.cells, p.rowStart, n, w.count, p.deleteEmptyRows, c);
  }

  /** With contiguous placement, the leftover rows that are deleted are exactly
      `n - rows_to_fill` rows starting at `rowStart + rows_to_fill`, where
      `rows_to_fill` is the number of data rows. */
  lemma {:induction false} ContiguousDeletesLeftover(cleared: map<Coord, CellValue>, sheetName: string, p: ArrayParams, n: int,
                                                    items: seq<Json>)
    requires !RowsWritten(cleared, sheetName, p, Contiguous, items).raised
    ensures ArrayWritten(cleared, sheetName, p, n, items, Contiguous).cells
            == LeftoverDeleted(RowsWritten(cleared, sheetName, p, Contiguous, items).cells, p.rowStart, n, DataRows(items),
                               p.deleteEmptyRows)
  {
    RowsWrittenCount(cleared, sheetName, p, Contiguous, items);
  }

  /** Once `w.count` rows are written without a raise, the leftover rows from
      `rowStart + w.count` on are dropped and the rows below move up. */
  lemma FinishedDeletes(w: ArrayState, p: ArrayParams, n: int, c: Coord)
    requires !w.raised && p.deleteEmptyRows && w.count < n
    ensures At(Finished(w, p, n).cells, c)
            == if c.row < p.rowStart + w.count then At(w.cells, c) else At(w.cells, Coord(c.column, c.row + n - w.count))
  {
    FinishedAt(w, p, n, c);
  }

  /** Writing from the cleared cells counts the data rows, when nothing raises. */
  lemma RowsWrittenCount(cleared: map<Coord, CellValue>, sheetName: string, p: ArrayParams, placement: Placement,
                         items: seq<Json>)
    ensures var w := RowsWritten(cleared, sheetName, p, placement, items);
            !w.raised ==> w.count == DataRows(items)
  {
    RowsCount(ArrayState(cleared, [], [], 0, false), sheetName, p.rowStart, p.mappings, placement, items);
  }

  /** As written, a summary row ahead of a data row costs that data row: the
      summary row "All" advances the target row, so the data row is written at
      row 3, while `rows_to_fill` is 1 and the deletion of the leftover rows
      starts at row 3 and removes it. The report still lists A3 as filled. */
  lemma SummaryRowDropsDataRow()
    ensures var p := ArrayParams(2, JInt(25), [[("column", JStr("A")), ("json_field", JStr("units"))]], [], true, JStr("rows"));
            var items := [JObject([("bed", JStr("All"))]), JObject([("units", JInt(10))])];
            var w := RowsFold(ArrayState(map[], [], [], 0, false), "Units", 2, p.mappings, AsWritten, items);
            At(w.cells, Coord("A", 3)) == Int(10)
            && |w.filled| == 1 && w.filled[0].cell == JStr("A3")
            && At(ArrayWritten(map[], "Units", p, 25, items, AsWritten).cells, Coord("A", 3)) == Empty
  {
    var cm := [("column", JStr("A")), ("json_field", JStr("units"))];
    var p := ArrayParams(2, JInt(25), [cm], [], true, JStr("rows"));
    var summary := JObject([("bed", JStr("All"))]);
    var fields := [("units", JInt(10))];
    var items := [summary, JObject(fields)];
    var st0 := ArrayState(map[], [], [], 0, false);
    LeadingSummaryRow(st0, cm);
    var w := RowsFold(st0, "Units", 2, p.mappings, AsWritten, items);
    assert items[..|items| - 1] == [summary];
    var counted := Counted(st0);
    DataRowWritten(counted, cm, fields);
    assert w == ColumnsFold(counted, "Units", 3, fields, [cm]);
    ArrayWrittenOf(map[], "Units", p, 25, items, AsWritten, w);
    LeftoverDeletedAt(w.cells, 2, 25, w.count, true, Coord("A", 3));
  }

  /** The first element of the example is a summary row. */
  lemma AllRowIsSummary()
    ensures IsSummaryRow([("bed", JStr("All"))])
  {
    var fields := [("bed", JStr("All"))];
    assert HasKey(fields, "bed") by { assert fields[0].0 == "bed"; }
    assert GetOr(fields, "bed", JStr("")) == JStr("All");
    assert SummaryWordAtFront("All");
  }

  lemma LeadingSummaryRow(st0: ArrayState, cm: seq<(string, Json)>)
    ensures RowsFold(st0, "Units", 2, [cm], AsWritten, [JObject([("bed", JStr("All"))])]) == st0
  {
    var summary := JObject([("bed", JStr("All"))]);
    AllRowIsSummary();
    assert [summary][..0] == [];
    SummaryRowPassedOver(st0, "Units", 2, [cm], AsWritten, summary, 0);
  }

  /** A summary row is neither written nor counted: the state is unchanged, for
      every placement and every state. */
  lemma SummaryRowPassedOver(st: ArrayState, sheetName: string, rowStart: int, cms: seq<seq<(string, Json)>>,
                             placement: Placement, row: Json, idx: nat)
    requires row.JObject? && IsSummaryRow(row.fields)
    ensures RowStep(st, sheetName, rowStart, cms, placement, row, idx) == st
  {
  }

  /** A summary row still advances the target row as written: the data row
      after `rows` lands at `rowStart + |rows|`, while `rows_to_fill` counts
      only the data rows before it, which fall short of `|rows|` as soon as
      `rows` holds a summary row. */
  lemma AsWrittenTargetIsIndex(st: ArrayState, sheetName: string, rowStart: int, cms: seq<seq<(string, Json)>>,
                               rows: seq<Json>, row: Json)
    requires !RowsFold(st, sheetName, rowStart, cms, AsWritten, rows).raised
    requires row.JObject? && !IsSummaryRow(row.fields)
    ensures var prev := RowsFold(st, sheetName, rowStart, cms, AsWritten, rows);
            RowsFold(st, sheetName, rowStart, cms, AsWritten, rows + [row])
              == ColumnsFold(Counted(prev), sheetName, rowStart + |rows|, row.fields, cms)
            && prev.count == st.count + DataRows(rows)
    ensures (exists j :: 0 <= j < |rows| && rows[j].JObject? && IsSummaryRow(rows[j].fields)) ==> DataRows(rows) < |rows|
  {
    assert (rows + [row])[..|rows|] == rows;
    RowsCount(st, sheetName, rowStart, cms, AsWritten, rows);
    if exists j :: 0 <= j < |rows| && rows[j].JObject? && IsSummaryRow(rows[j].fields) {
      var j :| 0 <= j < |rows| && rows[j].JObject? && IsSummaryRow(rows[j].fields);
      DataRowsShort(rows, j);
    }
  }

  /** `DataRows` counts at most one per element, and misses the summary row at `j`. */
  lemma {:induction false} DataRowsShort(rows: seq<Json>, j: nat)
    requires j < |rows| && rows[j].JObject? && IsSummaryRow(rows[j].fields)
    ensures DataRows(rows) < |rows|
  {
    var init := rows[..|rows| - 1];
    if j < |rows| - 1 {
      assert init[j] == rows[j];
      DataRowsShort(init, j);
    } else {
      DataRowsAtMost(init);
    }
  }

  lemma {:induction false} DataRowsAtMost(rows: seq<Json>)
    ensures DataRows(rows) <= |rows|
  {
    if rows != [] {
      DataRowsAtMost(rows[..|rows| - 1]);
    }
  }

  lemma DataRowWritten(counted: ArrayState, cm: seq<(string, Json)>, fields: seq<(string, Json)>)
    requires cm == [("column", JStr("A")), ("json_field", JStr("units"))] && fields == [("units", JInt(10))]
    requires counted == ArrayState(map[], [], [], 1, false)
    ensures var w := ColumnsFold(counted, "Units", 3, fields, [cm]);
            w.cells == map[Coord("A", 3) := Int(10)] && w.count == 1 && !w.raised
            && |w.filled| == 1 && w.filled[0].cell == JStr("A3")
  {
    DataRowValue(cm, fields);
    CellRefA3();
    assert !HasKey(cm, "label") by { assert cm[0].0 != "label" && cm[1].0 != "label"; }
    assert [cm][..0] == [];
    assert ColumnsFold(counted, "Units", 3, fields, []) == counted;
    assert ColumnsFold(counted, "Units", 3, fields, [cm]) == ColumnStep(counted, "Units", 3, fields, cm);
  }

  lemma DataRowValue(cm: seq<(string, Json)>, fields: seq<(string, Json)>)
    requires cm == [("column", JStr("A")), ("json_field", JStr("units"))] && fields == [("units", JInt(10))]
    ensures ColumnValue(fields, cm) == Write(JInt(10)) && StrField(cm, "column") == Some("A")
  {
    UnitsMapping(cm);
    UnitsField(fields);
  }

  lemma UnitsMapping(cm: seq<(string, Json)>)
    requires cm == [("column", JStr("A")), ("json_field", JStr("units"))]
    ensures Get(cm, "transform") == JNull && StrField(cm, "column") == Some("A")
    ensures StrField(cm, "json_field") == Some("units")
  {
    assert !HasKey(cm, "transform") by { assert cm[0].0 != "transform" && cm[1].0 != "transform"; }
    assert cm[..|cm| - 1] == [("column", JStr("A"))];
  }

  lemma UnitsField(fields: seq<(string, Json)>)
    requires fields == [("units", JInt(10))]
    ensures Navigate(JObject(fields), "units") == JInt(10)
  {
    assert fields[0].0 == "units";
  }

  lemma CellRefA3()
    ensures "A" + IntToString(3) == "A3" && ParseCellRef("A3") == Some(Coord("A", 3))
  {
    CellRefOf("A", 3);
    assert Upper("A") == "A";
    assert IntToString(3) == "3";
  }

  // ---------------------------------------------------------------------------
  // One sheet of `fill`

  /** The cells with a fill's assignment made. */
  function Written(cells: map<Coord, CellValue>, write: Option<(Coord, CellValue)>): map<Coord, CellValue> {
    if write.Some? then cells[write.value.0 := write.value.1] else cells
  }

  /** The single-cell mappings filled in turn, each result added to the report. */
  function CellsFold(env: Env, cells: map<Coord, CellValue>, lists: ReportLists, sheetName: string,
                     ms: seq<seq<(string, Json)>>): (map<Coord, CellValue>, ReportLists) {
    if ms == [] then (cells, lists)
    else
      var (before, report) := CellsFold(env, cells, lists, sheetName, ms[..|ms| - 1]);
      var o := CellFill(env, before, ms[|ms| - 1]);
      (Written(before, o.write), Added(report, sheetName, o.result))
  }

  datatype SheetOutcome = SheetOutcome(raised: bool, cells: map<Coord, CellValue>, lists: ReportLists)

  /** The single-cell phase of a sheet: every entry of `mappings` must be an
      object, or `mapping.get` raises. */
  function CellPhase(env: Env, cells: map<Coord, CellValue>, lists: ReportLists, sheetName: string,
                     cfg: seq<(string, Json)>): SheetOutcome {
    if !HasKey(cfg, "mappings") then SheetOutcome(false, cells, lists)
    else match MappingsOf(cfg)
      case None => SheetOutcome(true, cells, lists)
      case Some(ms) =>
        var (after, report) := CellsFold(env, cells, lists, sheetName, ms);
        SheetOutcome(false, after, report)
  }

  /** What `fill` does with one sheet: its single-cell mappings, then, when the
      sheet has an `array_source`, the array fill. With `AsWritten` placement
      this is the program's per-sheet step; with `Contiguous`, the corrected
      one. */
  function SheetFill(env: Env, cells: map<Coord, CellValue>, lists: ReportLists, sheetName: string,
                     cfg: seq<(string, Json)>, placement: Placement): SheetOutcome {
    var single := CellPhase(env, cells, lists, sheetName, cfg);
    if single.raised || !HasKey(cfg, "array_source") then single
    else
      var o := ArrayFill(single.cells, sheetName, cfg, env.data, placement);
      SheetOutcome(o.raised, o.cells, WithArrayResults(single.lists, o))
  }

  /** The report lists once the array fill has appended its filled and error
      entries. */
  function WithArrayResults(lists: ReportLists, o: ArrayOutcome): ReportLists {
    lists.(filled := lists.filled + o.filled, errors := lists.errors + o.errors)
  }

  /** Appending correctly tagged array entries keeps the report partitioned. */
  lemma ArrayResultsPartitioned(lists: ReportLists, o: ArrayOutcome, sheetName: string)
    requires Partitioned(lists) && OutcomeTagged(o, sheetName)
    ensures Partitioned(WithArrayResults(lists, o))
  {
    var l := WithArrayResults(lists, o);
    forall i | 0 <= i < |l.filled| ensures l.filled[i].status == Filled {
      if i >= |lists.filled| {
        assert l.filled[i] == o.filled[i - |lists.filled|];
      }
    }
    forall i | 0 <= i < |l.errors| ensures l.errors[i].status == Failed {
      if i >= |lists.errors| {
        assert l.errors[i] == o.errors[i - |lists.errors|];
      }
    }
  }

  lemma CellsFoldSnoc(env: Env, cells: map<Coord, CellValue>, lists: ReportLists, sheetName: string,
                      ms: seq<seq<(string, Json)>>, i: nat)
    requires i < |ms|
    ensures var (before, report) := CellsFold(env, cells, lists, sheetName, ms[..i]);
            var o := CellFill(env, before, ms[i]);
            CellsFold(env, cells, lists, sheetName, ms[..i + 1]) == (Written(before, o.write), Added(report, sheetName, o.result))
  {
    assert ms[..i + 1][..i] == ms[..i];
  }

  /** The single-cell mappings of a sheet, through `_fill_cell` and
      `_add_to_report`. */
  method FillCells(env: Env, sheet: Sheet, ms: seq<seq<(string, Json)>>, report: FillReport)
    modifies sheet, report
    ensures (sheet.cells, report.Lists()) == CellsFold(env, old(sheet.cells), old(report.Lists()), sheet.title, ms)
  {
    for i := 0 to |ms|
      invariant (sheet.cells, report.Lists()) == CellsFold(env, old(sheet.cells), old(report.Lists()), sheet.title, ms[..i])
    {
      CellsFoldSnoc(env, old(sheet.cells), old(report.Lists()), sheet.title, ms, i);
      var result := FillCell(env, sheet, ms[i]);
      report.AddToReport(sheet.title, result);
    }
    assert ms[..|ms|] == ms;
  }

  /** The body of `fill`'s loop for one sheet of the workbook; `raised` when it
      raises, which makes `fill` return an error. */
  method FillSheet(env: Env, sheet: Sheet, cfg: seq<(string, Json)>, report: FillReport, placement: Placement)
    returns (raised: bool)
    modifies sheet, report
    ensures var o := SheetFill(env, old(sheet.cells), old(report.Lists()), sheet.title, cfg, placement);
            raised == o.raised && sheet.cells == o.cells && report.Lists() == o.lists
  {
    if HasKey(cfg, "mappings") {
      var ms := MappingsOf(cfg);
      if ms.None? {
        return true;
      }
      FillCells(env, sheet, ms.value, report);
    }
    if HasKey(cfg, "array_source") {
      raised := FillArrayData(sheet, cfg, env.data, report, placement);
    } else {
      raised := false;
    }
  }

  /** Adding one result keeps the report partitioned by status. */
  lemma AddedKeepsPartition(lists: ReportLists, sheetName: string, result: FillResult)
    requires Partitioned(lists)
    ensures Partitioned(Added(lists, sheetName, result))
  {
    AddedAllPartition(lists, sheetName, [result]);
    assert [result][..0] == [];
  }

  lemma {:induction false} CellsFoldPartition(env: Env, cells: map<Coord, CellValue>, lists: ReportLists, sheetName: string,
                                            ms: seq<seq<(string, Json)>>)
    requires Partitioned(lists)
    ensures Partitioned(CellsFold(env, cells, lists, sheetName, ms).1)
    ensures Size(CellsFold(env, cells, lists, sheetName, ms).1) == Size(lists) + |ms|
  {
    if ms != [] {
      CellsFoldPartition(env, cells, lists, sheetName, ms[..|ms| - 1]);
      var (before, report) := CellsFold(env, cells, lists, sheetName, ms[..|ms| - 1]);
      AddedKeepsPartition(report, sheetName, CellFill(env, before, ms[|ms| - 1]).result);
    }
  }

  lemma CellPhasePartitioned(env: Env, cells: map<Coord, CellValue>, lists: ReportLists, sheetName: string,
                             cfg: seq<(string, Json)>)
    requires Partitioned(lists)
    ensures var single := CellPhase(env, cells, lists, sheetName, cfg);
            !single.raised ==> Partitioned(single.lists)
  {
    if HasKey(cfg, "mappings") && MappingsOf(cfg).Some? {
      CellsFoldPartition(env, cells, lists, sheetName, MappingsOf(cfg).value);
    }
  }

  /** Filling a sheet, as written or corrected, when it does not raise, keeps
      every entry of the report in the list of its status. */
  lemma SheetFillPartitioned(env: Env, cells: map<Coord, CellValue>, lists: ReportLists, sheetName: string,
                             cfg: seq<(string, Json)>, placement: Placement)
    requires Partitioned(lists)
    ensures var o := SheetFill(env, cells, lists, sheetName, cfg, placement);
            !o.raised ==> Partitioned(o.lists)
  {
    var single := CellPhase(env, cells, lists, sheetName, cfg);
    CellPhasePartitioned(env, cells, lists, sheetName, cfg);
    if !single.raised && HasKey(cfg, "array_source") {
      ArrayFillTagged(single.cells, sheetName, cfg, env.data, placement);
      ArrayResultsPartitioned(single.lists, ArrayFill(single.cells, sheetName, cfg, env.data, placement), sheetName);
    }
  }
}
