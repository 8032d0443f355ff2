/** JSON values as `json.load` produces them, and the path navigator the template
    filler uses to read them (`_navigate_json_path`). */
module JsonPath {
  import opened Wrappers
  import opened Strings

  /** A decoded JSON value. Python's `None` is `JNull`; integers and floats are
      kept apart because the filler tells them apart. An object keeps its members
      in document order. */
  datatype Json =
    | JNull
    | JBool(b: bool)
    | JInt(i: int)
    | JReal(r: real)
    | JStr(s: string)
    | JArray(items: seq<Json>)
    | JObject(fields: seq<(string, Json)>)

  /** `key in d` for a decoded object. */
  predicate HasKey(fields: seq<(string, Json)>, key: string) {
    exists i :: 0 <= i < |fields| && fields[i].0 == key
  }

  /** `d.get(key)`: the value of the last member named `key` (the one `json.load`
      keeps), `JNull` when there is none. */
  function Get(fields: seq<(string, Json)>, key: string): (r: Json)
    ensures !HasKey(fields, key) ==> r == JNull
    ensures HasKey(fields, key) ==> exists i :: 0 <= i < |fields| && fields[i] == (key, r)
  {
    if fields == [] then JNull
    else if fields[|fields| - 1].0 == key then fields[|fields| - 1].1
    else
      var init := fields[..|fields| - 1];
      assert forall i :: 0 <= i < |init| ==> init[i] == fields[i];
      Get(init, key)
  }

  /** `d.get(key, default)`. */
  function GetOr(fields: seq<(string, Json)>, key: string, default: Json): Json {
    if HasKey(fields, key) then Get(fields, key) else default
  }

  /** Python truthiness of a decoded value. */
  predicate Truthy(v: Json) {
    match v
    case JNull => false
    case JBool(b) => b
    case JInt(i) => i != 0
    case JReal(r) => r != 0.0
    case JStr(s) => s != []
    case JArray(items) => items != []
    case JObject(fields) => fields != []
  }

  // ---------------------------------------------------------------------------
  // Splitting a path: re.split(r'\.(?![^\[]*\])', path)

  /** The look-ahead `(?=[^\[]*\])`: the first bracket in `t` is a closing one. */
  predicate ClosesBeforeOpen(t: string) {
    if t == [] then false
    else if t[0] == ']' then true
    else if t[0] == '[' then false
    else ClosesBeforeOpen(t[1..])
  }

  /** The pieces of `path` between the dots that are not inside an index
      expression. */
  function SplitPath(path: string): (r: seq<string>)
    ensures |r| >= 1
  {
    if path == [] then [""]
    else
      var rest := SplitPath(path[1..]);
      if path[0] == '.' && !ClosesBeforeOpen(path[1..]) then [""] + rest
      else [[path[0]] + rest[0]] + rest[1..]
  }

  /** Splitting loses nothing: joining the pieces with dots gives the path back. */
  lemma {:induction false} SplitPathJoin(path: string)
    ensures Join(SplitPath(path), ".") == path
  {
    if path != [] {
      var rest := SplitPath(path[1..]);
      SplitPathJoin(path[1..]);
      if path[0] == '.' && !ClosesBeforeOpen(path[1..]) {
        assert Join([""] + rest, ".") == "" + "." + Join(rest, ".");
      } else if |rest| == 1 {
        assert path == [path[0]] + path[1..];
      } else {
        var parts := [[path[0]] + rest[0]] + rest[1..];
        assert parts[1..] == rest[1..];
        assert Join(parts, ".") == [path[0]] + rest[0] + "." + Join(rest[1..], ".");
        assert Join(rest, ".") == rest[0] + "." + Join(rest[1..], ".");
      }
    }
  }

  /** A path without dots is a single piece. */
  lemma {:induction false} SplitWithoutDots(path: string)
    requires '.' !in path
    ensures SplitPath(path) == [path]
  {
    if path != [] {
      SplitWithoutDots(path[1..]);
      assert path[0] != '.';
      assert [path[0]] + path[1..] == path;
    }
  }

  lemma {:induction false} NoBracketNoClose(t: string)
    requires ']' !in t
    ensures !ClosesBeforeOpen(t)
  {
    if t != [] && t[0] != '[' {
      NoBracketNoClose(t[1..]);
    }
  }

  /** `a.b` with no dot in `a` and no dot or closing bracket in `b` splits into
      `a` and `b`. */
  lemma {:induction false} SplitOneDot(a: string, b: string)
    requires '.' !in a && '.' !in b && ']' !in b
    ensures SplitPath(a + "." + b) == [a, b]
  {
    if a == [] {
      assert (a + "." + b)[1..] == b;
      SplitWithoutDots(b);
      NoBracketNoClose(b);
    } else {
      var p := a + "." + b;
      SplitOneDot(a[1..], b);
      assert p[1..] == a[1..] + "." + b;
      assert p[0] == a[0] && a[0] != '.';
      assert [a[0]] + a[1..] == a;
    }
  }

  // ---------------------------------------------------------------------------
  // One step: re.match(r'(\w+)\[(\d+)\]', part)

  /** The longest prefix of word characters. */
  function WordRun(s: string): (r: string)
    ensures |r| <= |s| && r == s[..|r|]
    ensures forall k :: 0 <= k < |r| ==> IsWordChar(r[k])
    ensures |r| < |s| ==> !IsWordChar(s[|r|])
  {
    if s != [] && IsWordChar(s[0]) then [s[0]] + WordRun(s[1..]) else []
  }

  /** The longest prefix of ASCII digits. */
  function DigitRun(s: string): (r: string)
    ensures |r| <= |s| && r == s[..|r|]
    ensures forall k :: 0 <= k < |r| ==> IsDigit(r[k])
    ensures |r| < |s| ==> !IsDigit(s[|r|])
  {
    if s != [] && IsDigit(s[0]) then [s[0]] + DigitRun(s[1..]) else []
  }

  /** The value of a string of ASCII digits. */
  function Decimal(d: string): nat
    requires forall k :: 0 <= k < |d| ==> IsDigit(d[k])
  {
    if d == [] then 0 else Decimal(d[..|d| - 1]) * 10 + DigitValue(d[|d| - 1])
  }

  lemma {:induction false} DecimalOfNatToString(n: nat)
    ensures Decimal(NatToString(n)) == n
  {
    if n >= 10 {
      DecimalOfNatToString(n / 10);
      var s := NatToString(n);
      assert s[..|s| - 1] == NatToString(n / 10);
    }
  }

  /** The key and index of an `key[index]` piece. The match is anchored at the
      start only. Backtracking cannot change it: a shorter word run is followed by
      a word character, never `[`, and a shorter digit run by a digit, never `]`. */
  function IndexedPart(part: string): Option<(string, nat)> {
    var key := WordRun(part);
    var rest := part[|key|..];
    if key == [] || rest == [] || rest[0] != '[' then None
    else
      var digits := DigitRun(rest[1..]);
      var after := rest[1 + |digits|..];
      if digits == [] || after == [] || after[0] != ']' then None
      else Some((key, Decimal(digits)))
  }

  predicate AllDigits(s: string) {
    forall k :: 0 <= k < |s| ==> IsDigit(s[k])
  }

  /** One piece of the path applied to the current value; `JNull` wherever the
      navigator gives up. */
  function Step(current: Json, part: string): Json {
    match IndexedPart(part)
    case Some((key, index)) =>
      if current.JObject? && HasKey(current.fields, key) then
        var v := Get(current.fields, key);
        if v.JArray? && index < |v.items| then v.items[index] else JNull
      else if current.JArray? && AllDigits(key) then
        if Decimal(key) < |current.items| then current.items[Decimal(key)] else JNull
      else JNull
    case None =>
      if current.JObject? then Get(current.fields, part) else JNull
  }

  /** The pieces applied one after another, stopping at `JNull`. */
  function Walk(current: Json, parts: seq<string>): Json
    decreases |parts|
  {
    if parts == [] then current
    else if current.JNull? then JNull
    else Walk(Step(current, parts[0]), parts[1..])
  }

  /** What `_navigate_json_path` returns. */
  function Navigate(data: Json, path: string): (r: Json)
    ensures data.JNull? || path == [] ==> r == JNull
    ensures path != [] && data.JObject? && HasKey(data.fields, path) ==> r == Get(data.fields, path)
  {
    if data.JNull? || path == [] then JNull
    else if data.JObject? && HasKey(data.fields, path) then Get(data.fields, path)
    else Walk(data, SplitPath(path))
  }

  /** `_navigate_json_path`: a direct key first, then the pieces of the path in
      turn. */
  method NavigateJsonPath(data: Json, path: string) returns (r: Json)
    ensures r == Navigate(data, path)
  {
    if data.JNull? || path == [] {
      return JNull;
    }
    if data.JObject? && HasKey(data.fields, path) {
      return Get(data.fields, path);
    }
    var current := data;
    var parts := SplitPath(path);
    var i := 0;
    while i < |parts|
      invariant 0 <= i <= |parts|
      invariant Walk(current, parts[i..]) == Walk(data, parts)
    {
      if current.JNull? {
        return JNull;
      }
      assert parts[i..][1..] == parts[i + 1..];
      current := Step(current, parts[i]);
      i := i + 1;
    }
    return current;
  }

  /** A plain key (no dot, not of the form `key[index]`) reads one member, and
      `JNull` when the object lacks it. */
  lemma NavigateKey(fields: seq<(string, Json)>, key: string)
    requires key != [] && '.' !in key && IndexedPart(key).None?
    ensures Navigate(JObject(fields), key) == Get(fields, key)
  {
    SplitWithoutDots(key);
    WalkOne(JObject(fields), key);
  }

  lemma WalkOne(data: Json, part: string)
    requires !data.JNull?
    ensures Walk(data, [part]) == Step(data, part)
  {
    assert [part][1..] == [];
  }

  /** A plain key applied to a value that is not an object gives `JNull`. */
  lemma NavigateKeyOfNonObject(data: Json, key: string)
    requires key != [] && '.' !in key && IndexedPart(key).None? && !data.JObject?
    ensures Navigate(data, key).JNull?
  {
    SplitWithoutDots(key);
    if !data.JNull? {
      WalkOne(data, key);
    }
  }

  /** `a.b` reads member `b` of member `a`, unless the object has the whole path
      as a key of its own. */
  lemma NavigateDotted(fields: seq<(string, Json)>, a: string, b: string)
    requires a != [] && b != [] && '.' !in a && '.' !in b && ']' !in b
    requires IndexedPart(a).None? && IndexedPart(b).None?
    requires !HasKey(fields, a + "." + b)
    ensures Navigate(JObject(fields), a + "." + b) ==
            if Get(fields, a).JObject? then Get(Get(fields, a).fields, b) else JNull
  {
    SplitOneDot(a, b);
    var first := Step(JObject(fields), a);
    assert first == Get(fields, a);
    assert Walk(JObject(fields), [a, b]) == Walk(first, [b]) by {
      assert [a, b][1..] == [b];
    }
    if !first.JNull? {
      WalkOne(first, b);
    }
  }

  /** `key[n]` reads element `n` of the array under `key`; an index past the end,
      a missing key or a non-array value gives `JNull`. */
  lemma NavigateIndexed(fields: seq<(string, Json)>, key: string, n: nat)
    requires key != [] && forall k :: 0 <= k < |key| ==> IsWordChar(key[k])
    requires !HasKey(fields, key + "[" + NatToString(n) + "]")
    ensures var v := Get(fields, key);
            Navigate(JObject(fields), key + "[" + NatToString(n) + "]") ==
            if HasKey(fields, key) && v.JArray? && n < |v.items| then v.items[n] else JNull
  {
    var path := key + "[" + NatToString(n) + "]";
    IndexedPartOf(key, n);
    assert '.' !in path by {
      assert forall k :: 0 <= k < |path| ==> path[k] == '[' || path[k] == ']' || IsWordChar(path[k]);
    }
    SplitWithoutDots(path);
    WalkOne(JObject(fields), path);
  }

  /** The piece `key[n]` is read as key `key` and index `n`. */
  lemma IndexedPartOf(key: string, n: nat)
    requires key != [] && forall k :: 0 <= k < |key| ==> IsWordChar(key[k])
    ensures IndexedPart(key + "[" + NatToString(n) + "]") == Some((key, n))
  {
    var digits := NatToString(n);
    var path := key + "[" + digits + "]";
    var rest := "[" + digits + "]";
    assert path == key + rest;
    WordRunOf(key, rest);
    assert path[|key|..] == rest;
    assert rest[1..] == digits + "]";
    DigitRunOf(digits, "]");
    assert rest[1 + |digits|..] == "]";
    DecimalOfNatToString(n);
  }

  lemma {:induction false} WordRunOf(w: string, t: string)
    requires forall k :: 0 <= k < |w| ==> IsWordChar(w[k])
    requires t != [] && !IsWordChar(t[0])
    ensures WordRun(w + t) == w
  {
    if w != [] {
      WordRunOf(w[1..], t);
      assert (w + t)[1..] == w[1..] + t;
    }
  }

  lemma {:induction false} DigitRunOf(d: string, t: string)
    requires forall k :: 0 <= k < |d| ==> IsDigit(d[k])
    requires t != [] && !IsDigit(t[0])
    ensures DigitRun(d + t) == d
  {
    if d != [] {
      DigitRunOf(d[1..], t);
      assert (d + t)[1..] == d[1..] + t;
    }
  }
}
