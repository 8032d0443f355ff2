/** The section logic of the full Docling processor: each page of a CoStar report is
    classified by the first section header pattern found on it, pages without one
    inherit the section of the page before ("sticky" assignment), and pages and
    tables are then grouped per section with the page range each section covers.
    The page dictionary is given as a map from page number to page data together with
    its keys in insertion order. */
module FullProcessor {
  import opened Wrappers
  import opened Strings
  import opened Ordering
  import DoclingProcessor

  /** The section slugs and their header variants, in the order they are tried. */
  const COSTAR_SECTIONS: seq<(string, seq<string>)> := [
    ("subject_property", ["Subject Property", "Property Summary", "Property Overview", "Property Details"]),
    ("rent_comps", ["Rent Comps", "Rent Comparables", "Rental Comparables", "Comparable Rentals", "Lease Comps"]),
    ("construction", ["Construction", "Under Construction", "Pipeline", "Development Pipeline", "New Construction"]),
    ("sale_comps", ["Sale Comps", "Sale Comparables", "Sales Comparables", "Comparable Sales", "Recent Sales"]),
    ("demographics", ["Demographics", "Population", "Demographic Analysis", "Area Demographics"]),
    ("submarket_report", ["Submarket Report", "Submarket Analysis", "Submarket Overview", "Multi-Family Submarket"]),
    ("market_report", ["Market Report", "Market Analysis", "Market Overview", "Multi-Family Market"])
  ]

  const UNKNOWN: string := "unknown"

  /** Every key the grouped result may have: the slugs, then "unknown". */
  const ALL_SLUGS: seq<string> := [
    "subject_property", "rent_comps", "construction", "sale_comps",
    "demographics", "submarket_report", "market_report", UNKNOWN
  ]

  /** A section table: slugs with their header variants, tried in order. */
  type SectionTable = seq<(string, seq<string>)>

  /** Every slug of the table is a key of the grouped result other than "unknown". */
  predicate SlugsKnown(table: SectionTable) {
    forall k :: 0 <= k < |table| ==> table[k].0 in ALL_SLUGS && table[k].0 != UNKNOWN
  }

  lemma CostarSlugsKnown()
    ensures SlugsKnown(COSTAR_SECTIONS)
  {
  }

  /** Some header variant of section `k`, upper-cased, occurs in the upper-cased text. */
  predicate SlugMatches(table: SectionTable, k: nat, textUpper: string)
    requires k < |table|
  {
    exists j :: 0 <= j < |table[k].1| && Contains(textUpper, Upper(table[k].1[j]))
  }

  /** The inner loop over one section's variants, from variant `j` on. */
  function AnyVariantFrom(variants: seq<string>, textUpper: string, j: nat): (b: bool)
    requires j <= |variants|
    ensures b <==> exists m :: j <= m < |variants| && Contains(textUpper, Upper(variants[m]))
    decreases |variants| - j
  {
    if j == |variants| then false
    else Contains(textUpper, Upper(variants[j])) || AnyVariantFrom(variants, textUpper, j + 1)
  }

  /** The outer loop over the sections, from section `k` on: the first one that
      matches. */
  function FirstSlugFrom(table: SectionTable, textUpper: string, k: nat): (r: Option<nat>)
    requires k <= |table|
    ensures r.Some? ==> k <= r.value < |table| && SlugMatches(table, r.value, textUpper)
                        && forall i :: k <= i < r.value ==> !SlugMatches(table, i, textUpper)
    ensures r.None? ==> forall i :: k <= i < |table| ==> !SlugMatches(table, i, textUpper)
    decreases |table| - k
  {
    if k == |table| then None
    else if AnyVariantFrom(table[k].1, textUpper, 0) then Some(k)
    else FirstSlugFrom(table, textUpper, k + 1)
  }

  /** `_detect_section_from_text` over the section table `table` (the CoStar table in
      the processor, see `DetectSectionFromText`): `None` for empty text;
      otherwise the first slug, in table order, one of whose variants occurs in the
      text ignoring case. */
  function DetectSectionFromText(table: SectionTable, text: string): (r: Option<string>)
    ensures text == [] ==> r.None?
    ensures r.Some? ==> exists k :: 0 <= k < |table| && r.value == table[k].0
                          && SlugMatches(table, k, Upper(text))
                          && forall i :: 0 <= i < k ==> !SlugMatches(table, i, Upper(text))
    ensures r.None? && text != [] ==> forall k :: 0 <= k < |table| ==> !SlugMatches(table, k, Upper(text))
    ensures SlugsKnown(table) && r.Some? ==> r.value in ALL_SLUGS && r.value != UNKNOWN
  {
    if text == [] then None
    else
      match FirstSlugFrom(table, Upper(text), 0)
      case Some(k) => Some(table[k].0)
      case None => None
  }

  /** The position of the first text of `texts` in which a section is detected. */
  function FirstDetecting(table: SectionTable, texts: seq<string>): (r: Option<nat>)
    ensures r.Some? ==> r.value < |texts| && DetectSectionFromText(table, texts[r.value]).Some?
                        && forall k :: 0 <= k < r.value ==> DetectSectionFromText(table, texts[k]).None?
    ensures r.None? ==> forall i :: 0 <= i < |texts| ==> DetectSectionFromText(table, texts[i]).None?
  {
    if texts == [] then None
    else if DetectSectionFromText(table, texts[0]).Some? then Some(0)
    else
      match FirstDetecting(table, texts[1..])
      case Some(i) => Some(i + 1)
      case None => None
  }

  /** The section detected in the first text of `texts` in which there is one. */
  function FirstDetected(table: SectionTable, texts: seq<string>): (r: Option<string>)
    ensures SlugsKnown(table) && r.Some? ==> r.value in ALL_SLUGS && r.value != UNKNOWN
  {
    match FirstDetecting(table, texts)
    case Some(i) => DetectSectionFromText(table, texts[i])
    case None => None
  }

  /** Python's `xs[:n]`. */
  function Take<T>(xs: seq<T>, n: nat): (r: seq<T>)
    ensures |r| <= n && |r| <= |xs| && r == xs[..|r|]
    ensures |xs| <= n ==> r == xs
  {
    if |xs| <= n then xs else xs[..n]
  }

  /** `_get_page_section` on the texts of a page's headers and text items: headers
      first, then the first five text items, else "unknown". */
  function GetPageSection(table: SectionTable, textItems: seq<string>, headers: seq<string>): (r: string)
    ensures FirstDetected(table, headers).Some? ==> r == FirstDetected(table, headers).value
    ensures FirstDetected(table, headers).None? && FirstDetected(table, Take(textItems, 5)).Some? ==>
              r == FirstDetected(table, Take(textItems, 5)).value
    ensures SlugsKnown(table) ==> (r == UNKNOWN <==> FirstDetected(table, headers).None? && FirstDetected(table, Take(textItems, 5)).None?)
    ensures SlugsKnown(table) ==> r in ALL_SLUGS
  {
    match FirstDetected(table, headers)
    case Some(s) => s
    case None =>
      match FirstDetected(table, Take(textItems, 5))
      case Some(s) => s
      case None => UNKNOWN
  }

  /** Text items after the fifth never influence the page's section. */
  lemma OnlyFirstFiveTextItems(table: SectionTable, t1: seq<string>, t2: seq<string>, headers: seq<string>)
    requires Take(t1, 5) == Take(t2, 5)
    ensures GetPageSection(table, t1, headers) == GetPageSection(table, t2, headers)
  {
  }

  /** A section detected in some header wins over anything the text items say: the
      page gets the section of the first detecting header, which is at or before
      that header. */
  lemma HeadersBeforeText(table: SectionTable, textItems: seq<string>, headers: seq<string>, i: nat)
    requires SlugsKnown(table)
    requires i < |headers| && DetectSectionFromText(table, headers[i]).Some?
    ensures FirstDetecting(table, headers).Some? && FirstDetecting(table, headers).value <= i
    ensures GetPageSection(table, textItems, headers) == DetectSectionFromText(table, headers[FirstDetecting(table, headers).value]).value
    ensures GetPageSection(table, textItems, headers) != UNKNOWN
  {
  }

  // ---------------------------------------------------------------------------
  // Pages

  type TextEntry = DoclingProcessor.TextEntry
  type HeaderEntry = DoclingProcessor.HeaderEntry
  type TableEntry = DoclingProcessor.TableEntry

  /** One page as the full processor's page extraction records it. */
  datatype PageData = PageData(pageNumber: int, textItems: seq<TextEntry>, tables: seq<TableEntry>,
                               headers: seq<HeaderEntry>, rawTextParts: seq<string>)

  /** What `_get_page_section` says about a page. */
  function Detected(table: SectionTable, page: PageData): (r: string)
    ensures SlugsKnown(table) ==> r in ALL_SLUGS
  {
    var texts := seq(|page.textItems|, i requires 0 <= i < |page.textItems| => page.textItems[i].text);
    var headers := seq(|page.headers|, i requires 0 <= i < |page.headers| => page.headers[i].text);
    GetPageSection(table, texts, headers)
  }

  /** `keys` lists the keys of `pages` once each: the dictionary's iteration order. */
  predicate KeysOf<V>(pages: map<int, V>, keys: seq<int>) {
    Distinct(keys) && (forall p :: p in pages ==> p in keys) && (forall i :: 0 <= i < |keys| ==> keys[i] in pages)
  }

  /** Sticky assignment: `s` is the latest section other than "unknown" detected on
      a page at or before `p`, or "unknown" when there is none. */
  ghost predicate Sticky(table: SectionTable, pages: map<int, PageData>, p: int, s: string) {
    (s == UNKNOWN && forall q :: q in pages && q <= p ==> Detected(table, pages[q]) == UNKNOWN)
    || (s != UNKNOWN &&
        exists q :: q in pages && q <= p && Detected(table, pages[q]) == s
          && forall m :: m in pages && q < m <= p ==> Detected(table, pages[m]) == UNKNOWN)
  }

  /** There is only one sticky section for a page. */
  lemma StickyUnique(table: SectionTable, pages: map<int, PageData>, p: int, s1: string, s2: string)
    requires Sticky(table, pages, p, s1) && Sticky(table, pages, p, s2)
    ensures s1 == s2
  {
    if s1 != UNKNOWN && s2 != UNKNOWN {
      var q1 :| q1 in pages && q1 <= p && Detected(table, pages[q1]) == s1
                && forall m :: m in pages && q1 < m <= p ==> Detected(table, pages[m]) == UNKNOWN;
      var q2 :| q2 in pages && q2 <= p && Detected(table, pages[q2]) == s2
                && forall m :: m in pages && q2 < m <= p ==> Detected(table, pages[m]) == UNKNOWN;
    }
  }

  /** Every page of `bySection` carries its sticky section. */
  ghost predicate AllSticky(table: SectionTable, pages: map<int, PageData>, bySection: map<int, string>) {
    forall p :: p in bySection ==> Sticky(table, pages, p, bySection[p]) && bySection[p] in ALL_SLUGS
  }

  lemma AllStickyStep(table: SectionTable, pages: map<int, PageData>, bySection: map<int, string>, p: int, s: string)
    requires AllSticky(table, pages, bySection) && Sticky(table, pages, p, s) && s in ALL_SLUGS
    ensures AllSticky(table, pages, bySection[p := s])
  {
  }

  /** `_assign_page_sections` with the section table `table` (the processor's is
      `COSTAR_SECTIONS`, see `CostarSlugsKnown`): every page gets its sticky section. */
  method AssignPageSections(table: SectionTable, pages: map<int, PageData>, keys: seq<int>) returns (bySection: map<int, string>)
    requires SlugsKnown(table) && KeysOf(pages, keys)
    ensures forall p :: p in bySection <==> p in pages
    ensures AllSticky(table, pages, bySection)
  {
    var ks := Sort(keys);
    bySection := map[];
    var current := UNKNOWN;
    var i := 0;
    while i < |ks|
      invariant 0 <= i <= |ks|
      invariant forall p :: p in bySection ==> p in pages
      invariant forall j :: 0 <= j < i ==> ks[j] in bySection
      invariant AllSticky(table, pages, bySection)
      invariant current in ALL_SLUGS
      invariant i == 0 ==> current == UNKNOWN
      invariant i > 0 ==> Sticky(table, pages, ks[i - 1], current)
    {
      var p := ks[i];
      assert p in keys;
      var detected := Detected(table, pages[p]);
      StickyNext(table, pages, ks, i, current);
      if detected != UNKNOWN {
        current := detected;
      }
      AllStickyStep(table, pages, bySection, p, current);
      bySection := bySection[p := current];
      i := i + 1;
    }
  }

  /** One step of the sticky assignment over the sorted keys `ks`. */
  lemma StickyNext(table: SectionTable, pages: map<int, PageData>, ks: seq<int>, i: nat, current: string)
    requires Increasing(ks) && i < |ks| && ks[i] in pages && forall q :: q in pages ==> q in ks
    requires i == 0 ==> current == UNKNOWN
    requires i > 0 ==> Sticky(table, pages, ks[i - 1], current)
    ensures Sticky(table, pages, ks[i], if Detected(table, pages[ks[i]]) != UNKNOWN then Detected(table, pages[ks[i]]) else current)
  {
    if Detected(table, pages[ks[i]]) != UNKNOWN {
      StickyFresh(table, pages, ks[i]);
    } else if i == 0 {
      StickyFirst(table, pages, ks);
    } else {
      StickyCarried(table, pages, ks, i, current);
    }
  }

  lemma StickyFresh(table: SectionTable, pages: map<int, PageData>, p: int)
    requires p in pages && Detected(table, pages[p]) != UNKNOWN
    ensures Sticky(table, pages, p, Detected(table, pages[p]))
  {
  }

  lemma StickyFirst(table: SectionTable, pages: map<int, PageData>, ks: seq<int>)
    requires Increasing(ks) && |ks| > 0 && forall q :: q in pages ==> q in ks
    requires ks[0] in pages && Detected(table, pages[ks[0]]) == UNKNOWN
    ensures Sticky(table, pages, ks[0], UNKNOWN)
  {
    forall q | q in pages && q <= ks[0]
      ensures Detected(table, pages[q]) == UNKNOWN
    {
      var j :| 0 <= j < |ks| && ks[j] == q;
      if j > 0 {
        assert ks[0] < ks[j];
      }
    }
  }

  lemma StickyCarried(table: SectionTable, pages: map<int, PageData>, ks: seq<int>, i: nat, s: string)
    requires Increasing(ks) && 0 < i < |ks| && forall q :: q in pages ==> q in ks
    requires ks[i] in pages && Detected(table, pages[ks[i]]) == UNKNOWN
    requires Sticky(table, pages, ks[i - 1], s)
    ensures Sticky(table, pages, ks[i], s)
  {
    NoPageBetween(pages, ks, i);
    StickyOverGap(table, pages, ks[i - 1], ks[i], s);
  }

  /** No page lies strictly between two neighbouring sorted keys. */
  lemma NoPageBetween(pages: map<int, PageData>, ks: seq<int>, i: nat)
    requires Increasing(ks) && 0 < i < |ks| && forall q :: q in pages ==> q in ks
    ensures forall m :: m in pages && ks[i - 1] < m <= ks[i] ==> m == ks[i]
  {
    forall m | m in pages && ks[i - 1] < m <= ks[i]
      ensures m == ks[i]
    {
      var j :| 0 <= j < |ks| && ks[j] == m;
    }
  }

  /** The section carries over to the next page `hi` when nothing is detected there. */
  lemma StickyOverGap(table: SectionTable, pages: map<int, PageData>, lo: int, hi: int, s: string)
    requires lo < hi && hi in pages && Detected(table, pages[hi]) == UNKNOWN
    requires forall m :: m in pages && lo < m <= hi ==> m == hi
    requires Sticky(table, pages, lo, s)
    ensures Sticky(table, pages, hi, s)
  {
    if s != UNKNOWN {
      var q :| q in pages && q <= lo && Detected(table, pages[q]) == s
               && forall m :: m in pages && q < m <= lo ==> Detected(table, pages[m]) == UNKNOWN;
      assert forall m :: m in pages && q < m <= hi ==> Detected(table, pages[m]) == UNKNOWN;
    }
  }

  // ---------------------------------------------------------------------------
  // Grouping

  /** A table as the grouping sees it: its position and the page its provenance
      names, if any. */
  datatype TableData = TableData(tableIndex: nat, pageNumber: Option<int>)

  /** A page as it is stored in a section: the internal fields are dropped and its
      tables are only counted. */
  datatype CleanPage = CleanPage(pageNumber: int, textItems: seq<TextEntry>, headers: seq<HeaderEntry>, tableCount: nat)

  datatype SectionData = SectionData(pages: seq<CleanPage>, tables: seq<TableData>, rawText: string,
                                     startPage: Option<int>, endPage: Option<int>)

  const EMPTY_SECTION := SectionData([], [], "", None, None)

  /** `page_sections.get(p, "unknown")`. */
  function SectionOf(pageSections: map<int, string>, p: int): (r: string)
    ensures p in pageSections ==> r == pageSections[p]
    ensures p !in pageSections ==> r == UNKNOWN
  {
    if p in pageSections then pageSections[p] else UNKNOWN
  }

  /** The section a table goes to: that of its page, page 1 when it names none. */
  function TableSection(pageSections: map<int, string>, t: TableData): string {
    SectionOf(pageSections, t.pageNumber.GetOr(1))
  }

  function Clean(page: PageData): (c: CleanPage)
    ensures c.pageNumber == page.pageNumber && c.tableCount == |page.tables|
  {
    CleanPage(page.pageNumber, page.textItems, page.headers, |page.tables|)
  }

  /** What a page adds to its section's raw text. */
  function PageText(page: PageData): string {
    Join(page.rawTextParts, "\n") + "\n\n"
  }

  /** A section after page `p` is placed into it. */
  function AddPage(d: SectionData, p: int, page: PageData): (r: SectionData)
    ensures r.pages == d.pages + [Clean(page)] && r.tables == d.tables
    ensures r.rawText == d.rawText + PageText(page)
    ensures r.startPage == (if d.startPage.None? then Some(p) else d.startPage)
    ensures r.endPage == Some(p)
  {
    d.(pages := d.pages + [Clean(page)], rawText := d.rawText + PageText(page),
       startPage := if d.startPage.None? then Some(p) else d.startPage, endPage := Some(p))
  }

  /** The pages of `ks` that belong to section `slug`, in the order of `ks`. */
  function PagesOn(pageSections: map<int, string>, ks: seq<int>, slug: string): (r: seq<int>)
    ensures forall x :: x in r <==> x in ks && SectionOf(pageSections, x) == slug
    ensures |r| <= |ks|
  {
    if ks == [] then []
    else
      var init := PagesOn(pageSections, ks[..|ks| - 1], slug);
      if SectionOf(pageSections, ks[|ks| - 1]) == slug then init + [ks[|ks| - 1]] else init
  }

  /** The reference for one section: what the page loop leaves in it after the
      pages `ks`. */
  function Accumulated(pages: map<int, PageData>, ks: seq<int>, pageSections: map<int, string>, slug: string): SectionData
    requires forall i :: 0 <= i < |ks| ==> ks[i] in pages
  {
    if ks == [] then EMPTY_SECTION
    else
      var d := Accumulated(pages, ks[..|ks| - 1], pageSections, slug);
      var p := ks[|ks| - 1];
      if SectionOf(pageSections, p) == slug then AddPage(d, p, pages[p]) else d
  }

  /** The tables of `tables` that belong to section `slug`, in order. */
  function TablesIn(pageSections: map<int, string>, tables: seq<TableData>, slug: string): (r: seq<TableData>)
    ensures forall t :: t in r <==> t in tables && TableSection(pageSections, t) == slug
  {
    if tables == [] then []
    else
      var init := TablesIn(pageSections, tables[..|tables| - 1], slug);
      if TableSection(pageSections, tables[|tables| - 1]) == slug then init + [tables[|tables| - 1]] else init
  }

  /** The reference for one section of the grouped result. */
  function SectionFor(pages: map<int, PageData>, ks: seq<int>, tables: seq<TableData>,
                      pageSections: map<int, string>, slug: string): SectionData
    requires forall i :: 0 <= i < |ks| ==> ks[i] in pages
  {
    Accumulated(pages, ks, pageSections, slug).(tables := TablesIn(pageSections, tables, slug))
  }

  /** A section survives the final filter. */
  predicate Kept(d: SectionData) {
    d.pages != [] || d.tables != []
  }

  /** After the page loop has seen `ks`: every section holds what `Accumulated`
      says. */
  ghost predicate PagesPlaced(pages: map<int, PageData>, ks: seq<int>, pageSections: map<int, string>,
                              data: map<string, SectionData>)
    requires forall i :: 0 <= i < |ks| ==> ks[i] in pages
  {
    forall slug :: slug in data ==> data[slug] == Accumulated(pages, ks, pageSections, slug)
  }

  lemma PageStep(pages: map<int, PageData>, ks: seq<int>, pageSections: map<int, string>,
                 i: nat, previous: map<string, SectionData>, data: map<string, SectionData>)
    requires forall k :: 0 <= k < |ks| ==> ks[k] in pages
    requires i < |ks| && PagesPlaced(pages, ks[..i], pageSections, previous)
    requires SectionOf(pageSections, ks[i]) in previous
    requires data == previous[SectionOf(pageSections, ks[i]) :=
                              AddPage(previous[SectionOf(pageSections, ks[i])], ks[i], pages[ks[i]])]
    ensures PagesPlaced(pages, ks[..i + 1], pageSections, data)
  {
    assert ks[..i + 1][..i] == ks[..i];
    forall slug | slug in data
      ensures data[slug] == Accumulated(pages, ks[..i + 1], pageSections, slug)
    {
      assert previous[slug] == Accumulated(pages, ks[..i], pageSections, slug);
    }
  }

  /** Before the table loop, no section has tables. */
  lemma PagesWithoutTables(pages: map<int, PageData>, ks: seq<int>, pageSections: map<int, string>,
                           data: map<string, SectionData>)
    requires forall k :: 0 <= k < |ks| ==> ks[k] in pages
    requires PagesPlaced(pages, ks, pageSections, data)
    ensures TablesPlaced(pages, ks, pageSections, [], data)
  {
    forall slug | slug in data
      ensures data[slug] == SectionFor(pages, ks, [], pageSections, slug)
    {
      AccumulatedHasNoTables(pages, ks, pageSections, slug);
    }
  }

  lemma {:induction false} AccumulatedHasNoTables(pages: map<int, PageData>, ks: seq<int>, pageSections: map<int, string>, slug: string)
    requires forall k :: 0 <= k < |ks| ==> ks[k] in pages
    ensures Accumulated(pages, ks, pageSections, slug).tables == []
  {
    if ks != [] {
      AccumulatedHasNoTables(pages, ks[..|ks| - 1], pageSections, slug);
    }
  }

  /** After the table loop has seen `tables`: every section holds its pages and
      the tables seen so far that belong to it. */
  ghost predicate TablesPlaced(pages: map<int, PageData>, ks: seq<int>, pageSections: map<int, string>,
                               tables: seq<TableData>, data: map<string, SectionData>)
    requires forall i :: 0 <= i < |ks| ==> ks[i] in pages
  {
    forall slug :: slug in data ==> data[slug] == SectionFor(pages, ks, tables, pageSections, slug)
  }

  lemma TableStep(pages: map<int, PageData>, ks: seq<int>, pageSections: map<int, string>, tables: seq<TableData>,
                  j: nat, previous: map<string, SectionData>, data: map<string, SectionData>)
    requires forall i :: 0 <= i < |ks| ==> ks[i] in pages
    requires j < |tables| && TablesPlaced(pages, ks, pageSections, tables[..j], previous)
    requires TableSection(pageSections, tables[j]) in previous
    requires data == previous[TableSection(pageSections, tables[j]) :=
                              previous[TableSection(pageSections, tables[j])].(tables := previous[TableSection(pageSections, tables[j])].tables + [tables[j]])]
    ensures TablesPlaced(pages, ks, pageSections, tables[..j + 1], data)
  {
    assert tables[..j + 1][..j] == tables[..j];
    forall slug | slug in data
      ensures data[slug] == SectionFor(pages, ks, tables[..j + 1], pageSections, slug)
    {
      assert previous[slug] == SectionFor(pages, ks, tables[..j], pageSections, slug);
    }
  }

  /** Every section a page or table can be sent to has an entry. */
  predicate Covers(data: map<string, SectionData>, pageSections: map<int, string>) {
    UNKNOWN in data && forall p :: p in pageSections ==> pageSections[p] in data
  }

  /** The page loop of `_group_by_section`. */
  method PlacePages(pages: map<int, PageData>, ks: seq<int>, pageSections: map<int, string>,
                    init: map<string, SectionData>) returns (data: map<string, SectionData>)
    requires forall k :: 0 <= k < |ks| ==> ks[k] in pages
    requires Covers(init, pageSections)
    requires PagesPlaced(pages, [], pageSections, init)
    ensures data.Keys == init.Keys
    ensures PagesPlaced(pages, ks, pageSections, data)
  {
    data := init;
    var i := 0;
    while i < |ks|
      invariant 0 <= i <= |ks|
      invariant data.Keys == init.Keys
      invariant PagesPlaced(pages, ks[..i], pageSections, data)
    {
      var p := ks[i];
      var section := SectionOf(pageSections, p);
      var previous := data;
      data := data[section := AddPage(data[section], p, pages[p])];
      PageStep(pages, ks, pageSections, i, previous, data);
      i := i + 1;
    }
    assert ks[..i] == ks;
  }

  /** The table loop of `_group_by_section`. */
  method PlaceTables(pages: map<int, PageData>, ks: seq<int>, pageSections: map<int, string>,
                     tables: seq<TableData>, init: map<string, SectionData>) returns (data: map<string, SectionData>)
    requires forall k :: 0 <= k < |ks| ==> ks[k] in pages
    requires Covers(init, pageSections)
    requires TablesPlaced(pages, ks, pageSections, [], init)
    ensures data.Keys == init.Keys
    ensures TablesPlaced(pages, ks, pageSections, tables, data)
  {
    data := init;
    var j := 0;
    while j < |tables|
      invariant 0 <= j <= |tables|
      invariant data.Keys == init.Keys
      invariant TablesPlaced(pages, ks, pageSections, tables[..j], data)
    {
      var t := tables[j];
      var section := TableSection(pageSections, t);
      var previous := data;
      data := data[section := data[section].(tables := data[section].tables + [t])];
      TableStep(pages, ks, pageSections, tables, j, previous, data);
      j := j + 1;
    }
    assert tables[..j] == tables;
  }

  /** `_group_by_section`: the sections with at least one page or table, each with
      its pages in ascending order, its tables in order, its raw text and its page
      range. A page whose section is not a known key makes the source raise
      KeyError; that is excluded by the precondition. */
  method GroupBySection(pages: map<int, PageData>, keys: seq<int>, tables: seq<TableData>,
                        pageSections: map<int, string>) returns (grouped: map<string, SectionData>)
    requires KeysOf(pages, keys)
    requires forall p :: p in pageSections ==> pageSections[p] in ALL_SLUGS
    ensures forall i :: 0 <= i < |Sort(keys)| ==> Sort(keys)[i] in pages
    ensures forall slug :: slug in grouped <==> slug in ALL_SLUGS && Kept(SectionFor(pages, Sort(keys), tables, pageSections, slug))
    ensures forall slug :: slug in grouped ==> grouped[slug] == SectionFor(pages, Sort(keys), tables, pageSections, slug)
  {
    var data := map slug | slug in ALL_SLUGS :: EMPTY_SECTION;
    var ks := Sort(keys);
    assert forall i :: 0 <= i < |ks| ==> ks[i] in keys;
    assert UNKNOWN in ALL_SLUGS;
    data := PlacePages(pages, ks, pageSections, data);
    PagesWithoutTables(pages, ks, pageSections, data);
    data := PlaceTables(pages, ks, pageSections, tables, data);
    assert forall slug :: slug in data <==> slug in ALL_SLUGS;
    assert forall slug :: slug in data ==> data[slug] == SectionFor(pages, ks, tables, pageSections, slug);
    grouped := map slug | slug in data && Kept(data[slug]) :: data[slug];
  }

  function PageNumbersOf(cs: seq<CleanPage>): (r: seq<int>)
    ensures |r| == |cs| && forall i :: 0 <= i < |cs| ==> r[i] == cs[i].pageNumber
  {
    if cs == [] then [] else PageNumbersOf(cs[..|cs| - 1]) + [cs[|cs| - 1].pageNumber]
  }

  /** Each page is stored under its own number. */
  predicate NumberedByKey(pages: map<int, PageData>) {
    forall p :: p in pages ==> pages[p].pageNumber == p
  }

  /** A section's pages are exactly the pages assigned to it, in the order visited,
      and its page range runs from the first of them to the last. */
  lemma AccumulatedPages(pages: map<int, PageData>, ks: seq<int>, pageSections: map<int, string>, slug: string)
    requires forall k :: 0 <= k < |ks| ==> ks[k] in pages
    requires NumberedByKey(pages)
    ensures PageNumbersOf(Accumulated(pages, ks, pageSections, slug).pages) == PagesOn(pageSections, ks, slug)
    ensures Accumulated(pages, ks, pageSections, slug).startPage ==
              (if PagesOn(pageSections, ks, slug) == [] then None else Some(PagesOn(pageSections, ks, slug)[0]))
    ensures Accumulated(pages, ks, pageSections, slug).endPage ==
              (if PagesOn(pageSections, ks, slug) == [] then None
               else Some(PagesOn(pageSections, ks, slug)[|PagesOn(pageSections, ks, slug)| - 1]))
  {
    AccumulatedNumbers(pages, ks, pageSections, slug);
    AccumulatedRange(pages, ks, pageSections, slug);
  }

  lemma {:induction false} AccumulatedNumbers(pages: map<int, PageData>, ks: seq<int>, pageSections: map<int, string>, slug: string)
    requires forall k :: 0 <= k < |ks| ==> ks[k] in pages
    requires NumberedByKey(pages)
    ensures PageNumbersOf(Accumulated(pages, ks, pageSections, slug).pages) == PagesOn(pageSections, ks, slug)
  {
    if ks != [] {
      var init := ks[..|ks| - 1];
      AccumulatedNumbers(pages, init, pageSections, slug);
      var d := Accumulated(pages, init, pageSections, slug);
      var p := ks[|ks| - 1];
      if SectionOf(pageSections, p) == slug {
        assert PageNumbersOf(d.pages + [Clean(pages[p])]) == PageNumbersOf(d.pages) + [p];
      }
    }
  }

  lemma {:induction false} AccumulatedRange(pages: map<int, PageData>, ks: seq<int>, pageSections: map<int, string>, slug: string)
    requires forall k :: 0 <= k < |ks| ==> ks[k] in pages
    ensures var d := Accumulated(pages, ks, pageSections, slug);
            var on := PagesOn(pageSections, ks, slug);
            d.startPage == (if on == [] then None else Some(on[0]))
            && d.endPage == (if on == [] then None else Some(on[|on| - 1]))
  {
    if ks != [] {
      var init := ks[..|ks| - 1];
      AccumulatedRange(pages, init, pageSections, slug);
      var p := ks[|ks| - 1];
      if SectionOf(pageSections, p) == slug {
        var on := PagesOn(pageSections, init, slug);
        assert PagesOn(pageSections, ks, slug) == on + [p];
        assert (on + [p])[0] == if on == [] then p else on[0];
      }
    }
  }

  /** The pages of a section are in ascending order when the keys are. */
  lemma {:induction false} PagesOnIncreasing(pageSections: map<int, string>, ks: seq<int>, slug: string)
    requires Increasing(ks)
    ensures Increasing(PagesOn(pageSections, ks, slug))
  {
    if ks != [] {
      var init := ks[..|ks| - 1];
      PagesOnIncreasing(pageSections, init, slug);
      var r := PagesOn(pageSections, init, slug);
      forall k | 0 <= k < |r|
        ensures r[k] < ks[|ks| - 1]
      {
        assert r[k] in r;
      }
    }
  }

  /** Every page lands in exactly one section, the one assigned to it (or
      "unknown"), and that section is kept; the sections' pages are in ascending
      order. */
  lemma EveryPageInOneSection(pages: map<int, PageData>, keys: seq<int>, tables: seq<TableData>,
                              pageSections: map<int, string>, p: int)
    requires KeysOf(pages, keys) && NumberedByKey(pages) && p in pages
    ensures forall i :: 0 <= i < |Sort(keys)| ==> Sort(keys)[i] in pages
    ensures forall slug ::
              p in PageNumbersOf(SectionFor(pages, Sort(keys), tables, pageSections, slug).pages) <==> slug == SectionOf(pageSections, p)
    ensures Kept(SectionFor(pages, Sort(keys), tables, pageSections, SectionOf(pageSections, p)))
    ensures forall slug :: Increasing(PageNumbersOf(SectionFor(pages, Sort(keys), tables, pageSections, slug).pages))
  {
    var ks := Sort(keys);
    assert forall i :: 0 <= i < |ks| ==> ks[i] in keys;
    forall slug
      ensures PageNumbersOf(SectionFor(pages, ks, tables, pageSections, slug).pages) == PagesOn(pageSections, ks, slug)
      ensures Increasing(PagesOn(pageSections, ks, slug))
    {
      AccumulatedPages(pages, ks, pageSections, slug);
      PagesOnIncreasing(pageSections, ks, slug);
    }
    assert p in keys;
    assert p in PagesOn(pageSections, ks, SectionOf(pageSections, p));
  }
}
