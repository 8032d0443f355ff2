/** The basic Docling processor's two passes over the document's item stream:
    `_extract_sections`, which cuts the stream into header-led sections, and
    `_extract_pages`, which groups items by page number and lists the pages in
    ascending order. The converted document is given as the sequence of items that
    `iterate_items()` yields. */
module DoclingProcessor {
  import opened Wrappers
  import opened Ordering

  datatype ItemKind = TextItem | TableItem | OtherItem

  /** An item's `DocItemLabel`: the section-header label, or any other label by its
      string form. */
  datatype ItemLabel = SectionHeader | OtherLabel(name: string)

  /** `str(label)`. */
  function LabelName(l: ItemLabel): string {
    match l
    case SectionHeader => "section_header"
    case OtherLabel(name) => name
  }

  /** One item of the stream with its nesting level; `page` is the page number of the
      item's first provenance entry, `None` when it has none. */
  datatype DocItem = DocItem(kind: ItemKind, itemLabel: ItemLabel, text: string, page: Option<int>, level: int)

  predicate IsHeader(item: DocItem) {
    item.itemLabel == SectionHeader
  }

  /** The page an item is filed under: its provenance page, else page 1. */
  function PageOf(item: DocItem): (p: int)
    ensures item.page.None? ==> p == 1
    ensures item.page.Some? ==> p == item.page.value
  {
    item.page.GetOr(1)
  }

  // ---------------------------------------------------------------------------
  // Sections

  datatype Section = Section(header: string, level: int, pageNumber: int, content: seq<string>)

  /** The texts that go into a section's content: those of text items that are not
      section headers, in stream order. */
  function BodyTexts(items: seq<DocItem>): seq<string> {
    if items == [] then []
    else
      var last := items[|items| - 1];
      BodyTexts(items[..|items| - 1]) + (if last.kind == TextItem && !IsHeader(last) then [last.text] else [])
  }

  /** The position of the last section header, if there is one. */
  function LastHeader(items: seq<DocItem>): (r: Option<nat>)
    ensures r.Some? ==> r.value < |items| && IsHeader(items[r.value])
                        && forall k :: r.value < k < |items| ==> !IsHeader(items[k])
    ensures r.None? ==> forall k :: 0 <= k < |items| ==> !IsHeader(items[k])
  {
    if items == [] then None
    else if IsHeader(items[|items| - 1]) then Some(|items| - 1)
    else LastHeader(items[..|items| - 1])
  }

  /** The position of the first section header, if there is one. */
  function FirstHeader(items: seq<DocItem>): (r: Option<nat>)
    ensures r.Some? ==> r.value < |items| && IsHeader(items[r.value])
                        && forall k :: 0 <= k < r.value ==> !IsHeader(items[k])
    ensures r.None? ==> forall k :: 0 <= k < |items| ==> !IsHeader(items[k])
  {
    if items == [] then None
    else if IsHeader(items[0]) then Some(0)
    else
      match FirstHeader(items[1..])
      case Some(k) => Some(k + 1)
      case None => None
  }

  /** The section opened by the header at `h`, holding every body text after it. */
  function SectionAt(items: seq<DocItem>, h: nat): Section
    requires h < |items|
  {
    Section(items[h].text, items[h].level, PageOf(items[h]), BodyTexts(items[h + 1..]))
  }

  /** The reference segmentation: the last header opens the last section, whose
      content is the body text after it; the part before that header is cut the same
      way; text before the first header belongs to no section. */
  function SectionsOf(items: seq<DocItem>): seq<Section>
    decreases |items|
  {
    match LastHeader(items)
    case None => []
    case Some(h) => SectionsOf(items[..h]) + [SectionAt(items, h)]
  }

  /** The sections closed so far followed by the open one, if any. */
  function Closed(sections: seq<Section>, current: Option<Section>): seq<Section> {
    sections + (if current.Some? then [current.value] else [])
  }

  /** What `_extract_sections` holds after reading `xs`: nothing before the first
      header; afterwards, the sections of the stream before the last header, and
      that header's section open. */
  ghost predicate Scanned(xs: seq<DocItem>, sections: seq<Section>, current: Option<Section>) {
    match LastHeader(xs)
    case None => current.None? && sections == []
    case Some(h) => sections == SectionsOf(xs[..h]) && current == Some(SectionAt(xs, h))
  }

  /** `_extract_sections`: a single pass with the section being built in `current`,
      which is appended to the result when the next header arrives and at the end. */
  method ExtractSections(items: seq<DocItem>) returns (sections: seq<Section>)
    ensures sections == SectionsOf(items)
  {
    sections := [];
    var current: Option<Section> := None;
    var i := 0;
    while i < |items|
      invariant 0 <= i <= |items|
      invariant Scanned(items[..i], sections, current)
    {
      var item := items[i];
      assert items[..i + 1] == items[..i] + [item];
      if IsHeader(item) {
        ScanHeader(items[..i], item, sections, current);
        if current.Some? {
          sections := sections + [current.value];
        }
        current := Some(Section(item.text, item.level, PageOf(item), []));
      } else {
        ScanBody(items[..i], item, sections, current);
        if current.Some? && item.kind == TextItem {
          current := Some(current.value.(content := current.value.content + [item.text]));
        }
      }
      i := i + 1;
    }
    assert items[..i] == items;
    ScanDone(items, sections, current);
    if current.Some? {
      sections := sections + [current.value];
    }
  }

  /** A header closes the open section and opens an empty one. */
  lemma ScanHeader(xs: seq<DocItem>, item: DocItem, sections: seq<Section>, current: Option<Section>)
    requires IsHeader(item) && Scanned(xs, sections, current)
    ensures Scanned(xs + [item], Closed(sections, current), Some(Section(item.text, item.level, PageOf(item), [])))
  {
    StepHeader(xs, item);
    ScanDone(xs, sections, current);
  }

  /** Any other item leaves the closed sections alone and adds its text, if it is a
      text item, to the open section. */
  lemma ScanBody(xs: seq<DocItem>, item: DocItem, sections: seq<Section>, current: Option<Section>)
    requires !IsHeader(item) && Scanned(xs, sections, current)
    ensures Scanned(xs + [item], sections,
                    if current.Some? && item.kind == TextItem
                    then Some(current.value.(content := current.value.content + [item.text]))
                    else current)
  {
    StepBody(xs, item);
    if LastHeader(xs).Some? {
      var h := LastHeader(xs).value;
      var sec := SectionAt(xs, h);
      assert sec.content + [] == sec.content;
    }
  }

  lemma StepHeader(xs: seq<DocItem>, item: DocItem)
    requires IsHeader(item)
    ensures LastHeader(xs + [item]) == Some(|xs|)
    ensures (xs + [item])[..|xs|] == xs
    ensures SectionAt(xs + [item], |xs|) == Section(item.text, item.level, PageOf(item), [])
  {
    assert (xs + [item])[|xs| + 1..] == [];
  }

  lemma StepBody(xs: seq<DocItem>, item: DocItem)
    requires !IsHeader(item)
    ensures LastHeader(xs + [item]) == LastHeader(xs)
    ensures LastHeader(xs).Some? ==>
      var h := LastHeader(xs).value;
      (xs + [item])[..h] == xs[..h]
      && SectionAt(xs + [item], h) ==
         SectionAt(xs, h).(content := SectionAt(xs, h).content + (if item.kind == TextItem then [item.text] else []))
  {
    assert (xs + [item])[..|xs|] == xs;
    if LastHeader(xs).Some? {
      SectionAtSnoc(xs, item, LastHeader(xs).value);
    }
  }

  /** Appending a non-header item leaves the header at `h` in place and adds the
      item's text, if any, to that header's section. */
  lemma SectionAtSnoc(xs: seq<DocItem>, item: DocItem, h: nat)
    requires h < |xs| && !IsHeader(item)
    ensures (xs + [item])[..h] == xs[..h]
    ensures SectionAt(xs + [item], h) ==
            SectionAt(xs, h).(content := SectionAt(xs, h).content + (if item.kind == TextItem then [item.text] else []))
  {
    assert (xs + [item])[h + 1..] == xs[h + 1..] + [item];
    BodyTextsSnoc(xs[h + 1..], item);
  }

  lemma BodyTextsSnoc(ys: seq<DocItem>, item: DocItem)
    requires !IsHeader(item)
    ensures BodyTexts(ys + [item]) == BodyTexts(ys) + (if item.kind == TextItem then [item.text] else [])
  {
    assert (ys + [item])[..|ys|] == ys;
  }

  lemma ScanDone(xs: seq<DocItem>, sections: seq<Section>, current: Option<Section>)
    requires Scanned(xs, sections, current)
    ensures Closed(sections, current) == SectionsOf(xs)
  {
  }

  function HeaderCount(items: seq<DocItem>): nat {
    if items == [] then 0
    else HeaderCount(items[..|items| - 1]) + (if IsHeader(items[|items| - 1]) then 1 else 0)
  }

  lemma {:induction false} HeaderCountNone(items: seq<DocItem>)
    requires forall k :: 0 <= k < |items| ==> !IsHeader(items[k])
    ensures HeaderCount(items) == 0
  {
    if items != [] {
      HeaderCountNone(items[..|items| - 1]);
    }
  }

  lemma {:induction false} HeaderCountAppend(a: seq<DocItem>, b: seq<DocItem>)
    ensures HeaderCount(a + b) == HeaderCount(a) + HeaderCount(b)
    decreases |b|
  {
    if b != [] {
      assert (a + b)[..|a + b| - 1] == a + b[..|b| - 1];
      HeaderCountAppend(a, b[..|b| - 1]);
    } else {
      assert a + b == a;
    }
  }

  /** One section per header item. */
  lemma {:induction false} SectionCount(items: seq<DocItem>)
    ensures |SectionsOf(items)| == HeaderCount(items)
    decreases |items|
  {
    match LastHeader(items)
    case None =>
      HeaderCountNone(items);
    case Some(h) =>
      SectionCount(items[..h]);
      assert items == items[..h] + ([items[h]] + items[h + 1..]);
      HeaderCountAppend(items[..h], [items[h]] + items[h + 1..]);
      HeaderCountAppend([items[h]], items[h + 1..]);
      assert [items[h]][..0] == [];
      HeaderCountNone(items[h + 1..]);
  }

  lemma {:induction false} BodyTextsAppend(a: seq<DocItem>, b: seq<DocItem>)
    ensures BodyTexts(a + b) == BodyTexts(a) + BodyTexts(b)
    decreases |b|
  {
    if b != [] {
      assert (a + b)[..|a + b| - 1] == a + b[..|b| - 1];
      BodyTextsAppend(a, b[..|b| - 1]);
    } else {
      assert a + b == a;
    }
  }

  /** All section contents together are exactly the body texts after the first
      header: text before it is dropped, and every later non-header text item lands,
      in order, in some section. */
  function AllContent(sections: seq<Section>): seq<string> {
    if sections == [] then []
    else AllContent(sections[..|sections| - 1]) + sections[|sections| - 1].content
  }

  lemma {:induction false} ContentIsTextAfterFirstHeader(items: seq<DocItem>)
    ensures AllContent(SectionsOf(items)) == AfterFirstHeader(items)
    decreases |items|
  {
    match LastHeader(items)
    case None =>
    case Some(h) =>
      ContentIsTextAfterFirstHeader(items[..h]);
      ContentStep(items, h);
  }

  /** The body texts after the first header; none when there is no header. */
  function AfterFirstHeader(items: seq<DocItem>): seq<string> {
    match FirstHeader(items)
    case None => []
    case Some(f) => BodyTexts(items[f + 1..])
  }

  lemma ContentStep(items: seq<DocItem>, h: nat)
    requires LastHeader(items) == Some(h)
    requires AllContent(SectionsOf(items[..h])) == AfterFirstHeader(items[..h])
    ensures AllContent(SectionsOf(items)) == AfterFirstHeader(items)
  {
    ContentOfLastSection(items, h);
    AfterFirstHeaderStep(items, h);
  }

  /** The last section adds the body texts after the last header. */
  lemma ContentOfLastSection(items: seq<DocItem>, h: nat)
    requires LastHeader(items) == Some(h)
    ensures AllContent(SectionsOf(items)) == AllContent(SectionsOf(items[..h])) + BodyTexts(items[h + 1..])
  {
    var ss := SectionsOf(items);
    assert ss == SectionsOf(items[..h]) + [SectionAt(items, h)];
    assert ss[..|ss| - 1] == SectionsOf(items[..h]);
  }

  /** So do the body texts after the first header. */
  lemma AfterFirstHeaderStep(items: seq<DocItem>, h: nat)
    requires LastHeader(items) == Some(h)
    ensures AfterFirstHeader(items) == AfterFirstHeader(items[..h]) + BodyTexts(items[h + 1..])
  {
    if FirstHeader(items[..h]).None? {
      OnlyHeaderStep(items, h);
    } else {
      LaterHeaderStep(items, h);
    }
  }

  /** The last header is also the first one. */
  lemma OnlyHeaderStep(items: seq<DocItem>, h: nat)
    requires h < |items| && IsHeader(items[h]) && FirstHeader(items[..h]).None?
    ensures AfterFirstHeader(items) == BodyTexts(items[h + 1..])
  {
    var prefix := items[..h];
    forall k | 0 <= k < h
      ensures !IsHeader(items[k])
    {
      assert items[k] == prefix[k];
    }
    FirstHeaderAt(items, h);
  }

  /** A header at `f` comes before the last one, at `h`. */
  lemma LaterHeaderStep(items: seq<DocItem>, h: nat)
    requires h < |items| && IsHeader(items[h]) && FirstHeader(items[..h]).Some?
    ensures AfterFirstHeader(items) == AfterFirstHeader(items[..h]) + BodyTexts(items[h + 1..])
  {
    var f := FirstHeader(items[..h]).value;
    FirstHeaderPrefix(items, h);
    SplitAtHeader(items, f + 1, h);
  }

  /** Cutting the stream at a header item splits its body texts. */
  lemma SplitAtHeader(items: seq<DocItem>, a: nat, h: nat)
    requires a <= h < |items| && IsHeader(items[h])
    ensures BodyTexts(items[a..]) == BodyTexts(items[..h][a..]) + BodyTexts(items[h + 1..])
  {
    var left := items[..h][a..];
    var right := items[h + 1..];
    assert items[a..] == left + ([items[h]] + right);
    BodyTextsAppend(left, [items[h]] + right);
    BodyTextsAppend([items[h]], right);
    assert [items[h]][..0] == [];
  }

  lemma {:induction false} FirstHeaderAt(items: seq<DocItem>, h: nat)
    requires h < |items| && IsHeader(items[h])
    requires forall k :: 0 <= k < h ==> !IsHeader(items[k])
    ensures FirstHeader(items) == Some(h)
  {
    if h > 0 {
      FirstHeaderAt(items[1..], h - 1);
    }
  }

  lemma {:induction false} FirstHeaderPrefix(items: seq<DocItem>, h: nat)
    requires h <= |items| && FirstHeader(items[..h]).Some?
    ensures FirstHeader(items) == FirstHeader(items[..h])
  {
    var f := FirstHeader(items[..h]).value;
    FirstHeaderAt(items, f);
  }

  // ---------------------------------------------------------------------------
  // Pages

  datatype TextEntry = TextEntry(text: string, itemLabel: string, level: int)
  datatype HeaderEntry = HeaderEntry(text: string, level: int)
  /** A table on a page; `tableRef` stands for the item's identity and is its
      position in the stream. */
  datatype TableEntry = TableEntry(tableRef: nat, level: int)
  datatype Page = Page(pageNumber: int, textItems: seq<TextEntry>, tables: seq<TableEntry>, headers: seq<HeaderEntry>)

  /** The distinct page numbers of the stream in order of first appearance, which is
      the key order of the dictionary `_extract_pages` fills. */
  function PageNumbers(items: seq<DocItem>): (r: seq<int>)
    ensures Distinct(r)
    ensures forall p :: p in r <==> exists k :: 0 <= k < |items| && PageOf(items[k]) == p
  {
    if items == [] then []
    else
      var init := PageNumbers(items[..|items| - 1]);
      var p := PageOf(items[|items| - 1]);
      assert forall k :: 0 <= k < |items| - 1 ==> items[..|items| - 1][k] == items[k];
      if p in init then init else init + [p]
  }

  /** `page` with `item`, found at position `ref` of the stream, filed into it. */
  function File(page: Page, item: DocItem, ref: nat): Page {
    if item.kind == TextItem && IsHeader(item) then
      page.(headers := page.headers + [HeaderEntry(item.text, item.level)])
    else if item.kind == TextItem then
      page.(textItems := page.textItems + [TextEntry(item.text, LabelName(item.itemLabel), item.level)])
    else if item.kind == TableItem then
      page.(tables := page.tables + [TableEntry(ref, item.level)])
    else page
  }

  /** Reference definition of page `p`: the header texts, the other text items and
      the tables filed under `p`, each in stream order. */
  function PageOn(items: seq<DocItem>, p: int): Page {
    if items == [] then Page(p, [], [], [])
    else
      var page := PageOn(items[..|items| - 1], p);
      var item := items[|items| - 1];
      if PageOf(item) != p then page else File(page, item, |items| - 1)
  }

  /** `_extract_pages`: one pass filing each item under its page, then the pages in
      ascending page order. */
  method ExtractPages(items: seq<DocItem>) returns (pages: seq<Page>)
    ensures |pages| == |PageNumbers(items)|
    ensures forall i, j :: 0 <= i < j < |pages| ==> pages[i].pageNumber < pages[j].pageNumber
    ensures forall k :: 0 <= k < |pages| ==> pages[k].pageNumber in PageNumbers(items)
    ensures forall i :: 0 <= i < |items| ==>
              exists k :: 0 <= k < |pages| && pages[k].pageNumber == PageOf(items[i])
    ensures forall k :: 0 <= k < |pages| ==> pages[k] == PageOn(items, pages[k].pageNumber)
  {
    var byPage, order := FilePages(items);
    var ks := Sort(order);
    pages := seq(|ks|, k requires 0 <= k < |ks| => byPage[ks[k]]);
    PagesInOrder(items, byPage, ks, pages);
  }

  /** The loop of `_extract_pages`: every item filed under its page, in a dictionary
      whose keys, in insertion order, are `order`. */
  method FilePages(items: seq<DocItem>) returns (byPage: map<int, Page>, order: seq<int>)
    ensures Filed(items, byPage, order)
  {
    byPage := map[];
    order := [];
    var i := 0;
    while i < |items|
      invariant 0 <= i <= |items|
      invariant Filed(items[..i], byPage, order)
    {
      var item := items[i];
      var p := PageOf(item);
      ghost var previous := byPage;
      ghost var previousOrder := order;
      if p !in byPage {
        byPage := byPage[p := Page(p, [], [], [])];
        order := order + [p];
      }
      var page := byPage[p];
      if item.kind == TextItem {
        if IsHeader(item) {
          page := page.(headers := page.headers + [HeaderEntry(item.text, item.level)]);
        } else {
          page := page.(textItems := page.textItems + [TextEntry(item.text, LabelName(item.itemLabel), item.level)]);
        }
      } else if item.kind == TableItem {
        page := page.(tables := page.tables + [TableEntry(i, item.level)]);
      }
      assert page == File(byPage[p], item, i);
      byPage := byPage[p := page];
      FiledStep(items, i, previous, previousOrder, byPage, order);
      i := i + 1;
    }
    assert items[..i] == items;
  }

  /** The pages listed by ascending key are the reference pages, one per page number. */
  lemma PagesInOrder(items: seq<DocItem>, byPage: map<int, Page>, ks: seq<int>, pages: seq<Page>)
    requires forall p :: p in byPage <==> p in PageNumbers(items)
    requires forall p :: p in byPage ==> byPage[p] == PageOn(items, p)
    requires ks == Sort(PageNumbers(items))
    requires |pages| == |ks| && forall k :: 0 <= k < |ks| ==> ks[k] in byPage && pages[k] == byPage[ks[k]]
    ensures |pages| == |PageNumbers(items)|
    ensures forall i, j :: 0 <= i < j < |pages| ==> pages[i].pageNumber < pages[j].pageNumber
    ensures forall k :: 0 <= k < |pages| ==> pages[k].pageNumber in PageNumbers(items)
    ensures forall i :: 0 <= i < |items| ==>
              exists k :: 0 <= k < |pages| && pages[k].pageNumber == PageOf(items[i])
    ensures forall k :: 0 <= k < |pages| ==> pages[k] == PageOn(items, pages[k].pageNumber)
  {
    SortDistinctLength(PageNumbers(items));
    forall k | 0 <= k < |ks|
      ensures pages[k].pageNumber == ks[k]
    {
      PageNumberKept(items, ks[k]);
    }
    forall i | 0 <= i < |items|
      ensures exists k :: 0 <= k < |pages| && pages[k].pageNumber == PageOf(items[i])
    {
      assert PageOf(items[i]) in ks;
      var k :| 0 <= k < |ks| && ks[k] == PageOf(items[i]);
      assert pages[k].pageNumber == PageOf(items[i]);
    }
  }

  /** What `_extract_pages` holds after reading `xs`: the keys in insertion order and
      each page as the reference definition gives it. */
  ghost predicate Filed(xs: seq<DocItem>, byPage: map<int, Page>, order: seq<int>) {
    order == PageNumbers(xs)
    && (forall p :: p in byPage <==> p in order)
    && (forall p :: p in byPage ==> byPage[p] == PageOn(xs, p))
  }

  lemma FiledStep(items: seq<DocItem>, i: nat, before: map<int, Page>, order: seq<int>,
                  after: map<int, Page>, newOrder: seq<int>)
    requires i < |items| && Filed(items[..i], before, order)
    requires var p := PageOf(items[i]);
             newOrder == (if p in before then order else order + [p])
             && after == before[p := File(if p in before then before[p] else Page(p, [], [], []), items[i], i)]
    ensures Filed(items[..i + 1], after, newOrder)
  {
    var p := PageOf(items[i]);
    PageOnStep(items, i);
    if p !in before {
      PageOnAbsent(items[..i], p);
    }
    forall q | q in after
      ensures after[q] == PageOn(items[..i + 1], q)
    {
      if q != p {
        assert after[q] == before[q];
      }
    }
  }

  lemma PageOnStep(items: seq<DocItem>, i: nat)
    requires i < |items|
    ensures items[..i + 1][..i] == items[..i]
    ensures forall q :: PageOn(items[..i + 1], q) ==
                        if PageOf(items[i]) != q then PageOn(items[..i], q)
                        else File(PageOn(items[..i], q), items[i], i)
    ensures PageNumbers(items[..i + 1]) ==
      if PageOf(items[i]) in PageNumbers(items[..i]) then PageNumbers(items[..i])
      else PageNumbers(items[..i]) + [PageOf(items[i])]
  {
    assert items[..i + 1][..i] == items[..i];
  }

  /** A page nobody has filed anything under yet is empty. */
  lemma {:induction false} PageOnAbsent(items: seq<DocItem>, p: int)
    requires p !in PageNumbers(items)
    ensures PageOn(items, p) == Page(p, [], [], [])
  {
    if items != [] {
      var init := items[..|items| - 1];
      assert p !in PageNumbers(init);
      PageOnAbsent(init, p);
    }
  }

  lemma {:induction false} PageNumberKept(items: seq<DocItem>, p: int)
    ensures PageOn(items, p).pageNumber == p
  {
    if items != [] {
      PageNumberKept(items[..|items| - 1], p);
    }
  }

  /** Every header text item is listed among the headers of the page it is filed
      under, page 1 when it has no provenance. */
  lemma {:induction false} HeaderFiledOnItsPage(items: seq<DocItem>, i: nat)
    requires i < |items| && items[i].kind == TextItem && IsHeader(items[i])
    ensures HeaderEntry(items[i].text, items[i].level) in PageOn(items, PageOf(items[i])).headers
    ensures items[i].page.None? ==> HeaderEntry(items[i].text, items[i].level) in PageOn(items, 1).headers
  {
    var p := PageOf(items[i]);
    if i < |items| - 1 {
      HeaderFiledOnItsPage(items[..|items| - 1], i);
      HeadersGrow(items, p);
    }
  }

  lemma HeadersGrow(items: seq<DocItem>, p: int)
    requires items != []
    ensures forall e :: e in PageOn(items[..|items| - 1], p).headers ==> e in PageOn(items, p).headers
  {
  }
}
