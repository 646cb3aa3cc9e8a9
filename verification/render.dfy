/** The configuration reference document. Standard output is a sequence of
    lines: each element is the argument of one Println call (a fixed block
    may span several physical lines); the bytes written are every element
    followed by a newline. */
module Render {
  import opened Text
  import opened ConfigItems
  import opened Buckets

  /** The fixed preamble printed first: a do-not-edit comment naming the
      generator, the document title and an introductory paragraph. Its
      wording is not part of this model; it is one line of the output. */
  const Header: string

  const TocCommonBullet: string := "- [Common Variables/Arguments][section-config-common]"

  const TocManualBullet: string :=
    "- [Variables/Arguments only Applicable to Manual Setup][section-config-manual-setup]"

  const TocDockerBullets: string :=
    "- [Variables only Applicable to a Docker-composed Instance][section-config-docker]\n"
    + "  - [`FIREWORQ_PORT`](#env-port)"

  const CommonSectionHeading: string :=
    "\n## <a name=\"config-common\">Common Variables/Arguments</a>"

  const ManualSectionHeading: string :=
    "\n## <a name=\"config-manual-setup\">Variables/Arguments only Applicable to Manual Setup</a>"

  const DockerSection: string :=
    "\n## <a name=\"config-docker\">Variables only Applicable to a Docker-composed Instance</a>\n"
    + "\n### <a name=\"env-port\">`FIREWORQ_PORT`</a>\n"
    + "\nDefault: `8080`\n"
    + "\nSpecifies the port number of a daemon."

  /** The closing block of reference-style link definitions. It is written
      with Print, not Println; its literal ends in a newline, so it is the
      line below followed by a newline. */
  const LinkDefinitions: string :=
    "\n[section-config-common]: #config-common\n"
    + "[section-config-manual-setup]: #config-manual-setup\n"
    + "[section-config-docker]: #config-docker\n"
    + "[section-manual-setup]: ./production.md#manual-setup\n"
    + "[section-graceful-restart]: ./production.md#graceful-restart\n"
    + "\n[api-put-queue]: ./api.md#api-put-queue\n"
    + "[api-put-routing]: ./api.md#api-put-routing"

  const HeadingPrefix: string := "### <a name=\""

  /** Only these two categories have a section in the document. */
  predicate Rendered(category: string) { category == "common" || category == "manual" }

  // ---------------------------------------------------------------------
  // Table of contents

  /** A nested list entry holding the item's link. */
  function TocLine(item: Item): (t: string)
    ensures |t| == 4 + |Link(item)|
    ensures t[..4] == "  - " && t[4..] == Link(item)
  {
    "  - " + Link(item)
  }

  function TocLines(items: seq<Item>): seq<string>
  {
    seq(|items|, k requires 0 <= k < |items| => TocLine(items[k]))
  }

  /** printTableOfContents: one line per item, in the bucket's order. */
  method PrintTableOfContents(items: seq<Item>) returns (lines: seq<string>)
    ensures |lines| == |items|
    ensures forall k :: 0 <= k < |items| ==> lines[k] == "  - " + Link(items[k])
    ensures lines == TocLines(items)
  {
    lines := [];
    for i := 0 to |items|
      invariant |lines| == i
      invariant forall k :: 0 <= k < i ==> lines[k] == TocLine(items[k])
    {
      lines := lines + [TocLine(items[i])];
    }
  }

  // ---------------------------------------------------------------------
  // Per-item sections

  /** The level-3 heading of an item's section, carrying its anchor. */
  function Heading(item: Item): (h: string)
    ensures |h| == |HeadingPrefix| + |AnchorName(item)| + |LinkLabel(item)| + 6
    ensures h[..|HeadingPrefix|] == HeadingPrefix
    ensures h[|HeadingPrefix| + |AnchorName(item)|] == '"'
  {
    HeadingPrefix + AnchorName(item) + "\">" + LinkLabel(item) + "</a>"
  }

  function DefaultLine(value: string): string { "Default: `" + value + "`" }

  /** Reads the anchor name out of a line that opens with an anchored heading. */
  function HeadingAnchor(line: string): Option<string>
  {
    if |HeadingPrefix| <= |line| && line[..|HeadingPrefix|] == HeadingPrefix then
      match SplitAtFirst(line[|HeadingPrefix|..], '"')
      case None => None
      case Some(parts) => Some(parts.0)
    else None
  }

  /** The lines of one item's section. */
  function DescriptionBlock(item: Item): (b: seq<string>)
    ensures |b| == if item.defaultValue != "" then 3 else 2
    ensures b[0] == Heading(item)
    ensures item.defaultValue != "" ==> b[1] == DefaultLine(item.defaultValue)
    ensures b[|b| - 1] == item.description
  {
    [Heading(item)]
    + (if item.defaultValue != "" then [DefaultLine(item.defaultValue)] else [])
    + [item.description]
  }

  /** printDescription: the heading, a Default line only for a non-empty
      default, and the description unchanged as the last line. */
  method PrintDescription(item: Item) returns (lines: seq<string>)
    ensures |lines| == if item.defaultValue != "" then 3 else 2
    ensures lines[0] == Heading(item)
    ensures item.defaultValue != "" ==> lines[1] == "Default: `" + item.defaultValue + "`"
    ensures lines[|lines| - 1] == item.description
    ensures lines == DescriptionBlock(item)
  {
    lines := [Heading(item)];
    if item.defaultValue != "" {
      lines := lines + [DefaultLine(item.defaultValue)];
    }
    lines := lines + [item.description];
  }

  function Descriptions(items: seq<Item>): seq<string>
  {
    if items == [] then []
    else Descriptions(items[..|items| - 1]) + DescriptionBlock(items[|items| - 1])
  }

  /** printDescriptions: the blocks of the items, one after the other, in order. */
  method PrintDescriptions(items: seq<Item>) returns (lines: seq<string>)
    ensures lines == Descriptions(items)
  {
    lines := [];
    for i := 0 to |items|
      invariant lines == Descriptions(items[..i])
    {
      var block := PrintDescription(items[i]);
      lines := lines + block;
      assert items[..i + 1][..i] == items[..i];
    }
    assert items[..|items|] == items;
  }

  // ---------------------------------------------------------------------
  // The whole document

  /** The table of contents: a bullet per category with the lines of its
      bucket beneath it, then the fixed Docker bullet. */
  function TableOfContents(tocCommon: seq<string>, tocManual: seq<string>): seq<string>
  {
    [TocCommonBullet] + tocCommon + [TocManualBullet] + tocManual + [TocDockerBullets]
  }

  /** The two data-driven sections, each a heading followed by its blocks. */
  function Sections(common: seq<string>, manual: seq<string>): seq<string>
  {
    [CommonSectionHeading] + common + [ManualSectionHeading] + manual
  }

  /** The page around the four data-driven runs of lines. */
  function Page(tocCommon: seq<string>, tocManual: seq<string>, common: seq<string>, manual: seq<string>)
    : seq<string>
  {
    [Header] + TableOfContents(tocCommon, tocManual) + Sections(common, manual)
    + [DockerSection] + [LinkDefinitions]
  }

  /** The lines of the document, given the common and the manual bucket. */
  function Layout(common: seq<Item>, manual: seq<Item>): seq<string>
  {
    Page(TocLines(common), TocLines(manual), Descriptions(common), Descriptions(manual))
  }

  /** The document printed for the items: only the common and the manual
      bucket are laid out. */
  function Document(items: seq<Item>): seq<string>
  {
    Layout(Filter(items, "common"), Filter(items, "manual"))
  }

  /** printConfigDoc: header, bucketing, the table of contents of the common
      and manual buckets, their sections, the Docker section and the link
      definitions. */
  method PrintConfigDoc(items: seq<Item>) returns (out: seq<string>)
    ensures out == Document(items)
  {
    out := [Header];
    var categorized := Categorize(items);
    ghost var common, manual := Filter(items, "common"), Filter(items, "manual");

    // `part` is the part of the document written since the last fixed block
    // that starts a level of Layout.
    ghost var part: seq<string> := [TocCommonBullet];
    out := out + [TocCommonBullet];
    var lines := PrintTableOfContents(Bucket(categorized, "common"));
    Grow([Header], part, lines); part := part + lines;
    out := out + lines;

    Grow([Header], part, [TocManualBullet]); part := part + [TocManualBullet];
    out := out + [TocManualBullet];
    lines := PrintTableOfContents(Bucket(categorized, "manual"));
    Grow([Header], part, lines); part := part + lines;
    out := out + lines;

    Grow([Header], part, [TocDockerBullets]); part := part + [TocDockerBullets];
    out := out + [TocDockerBullets];
    assert part == TableOfContents(TocLines(common), TocLines(manual));
    ghost var front := out;

    part := [CommonSectionHeading];
    out := out + [CommonSectionHeading];
    lines := PrintDescriptions(Bucket(categorized, "common"));
    Grow(front, part, lines); part := part + lines;
    out := out + lines;

    Grow(front, part, [ManualSectionHeading]); part := part + [ManualSectionHeading];
    out := out + [ManualSectionHeading];
    lines := PrintDescriptions(Bucket(categorized, "manual"));
    Grow(front, part, lines); part := part + lines;
    out := out + lines;
    assert part == Sections(Descriptions(common), Descriptions(manual));

    out := out + [DockerSection];
    out := out + [LinkDefinitions];
  }

  /** Appending to the document is appending to its last part. Stated as a
      lemma so that each step of PrintConfigDoc appeals to it directly. */
  lemma Grow(front: seq<string>, part: seq<string>, more: seq<string>)
    ensures front + part + more == front + (part + more)
  {
  }

  /** Position of an item's table-of-contents line in the document. */
  function TocIndex(items: seq<Item>, i: nat): nat
    requires i < |items| && Rendered(items[i].category)
  {
    var before := |Filter(items[..i], items[i].category)|;
    if items[i].category == "common" then 2 + before
    else 3 + |Filter(items, "common")| + before
  }

  /** Position of an item's section heading in the document. */
  function HeadingIndex(items: seq<Item>, i: nat): nat
    requires i < |items| && Rendered(items[i].category)
  {
    var common, manual := Filter(items, "common"), Filter(items, "manual");
    var before := |Descriptions(Filter(items[..i], items[i].category))|;
    var sections := 5 + |common| + |manual|;
    if items[i].category == "common" then sections + before
    else sections + |Descriptions(common)| + 1 + before
  }

  // ---------------------------------------------------------------------
  // Lemmas

  lemma {:induction false} DescriptionsAppend(a: seq<Item>, b: seq<Item>)
    ensures Descriptions(a + b) == Descriptions(a) + Descriptions(b)
  {
    if b == [] {
      assert a + b == a;
    } else {
      var b', last := b[..|b| - 1], b[|b| - 1];
      assert (a + b)[..|a + b| - 1] == a + b';
      assert (a + b)[|a + b| - 1] == last;
      DescriptionsAppend(a, b');
      Grow(Descriptions(a), Descriptions(b'), DescriptionBlock(last));
    }
  }

  /** Every item contributes two or three lines to its section. */
  lemma {:induction false} DescriptionsLength(items: seq<Item>)
    ensures 2 * |items| <= |Descriptions(items)| <= 3 * |items|
  {
    if items != [] {
      DescriptionsLength(items[..|items| - 1]);
    }
  }

  /** The k-th block starts with the k-th item's heading, and the blocks of
      earlier items come first. */
  lemma HeadingOfBlock(items: seq<Item>, k: nat)
    requires k < |items|
    ensures |Descriptions(items[..k])| + 2 <= |Descriptions(items[..k + 1])| <= |Descriptions(items)|
    ensures Descriptions(items)[|Descriptions(items[..k])|] == Heading(items[k])
  {
    var pre, x, post := items[..k], items[k], items[k + 1..];
    assert items[..k + 1] == pre + [x];
    assert items == (pre + [x]) + post;
    DescriptionsAppend(pre + [x], post);
    DescriptionsAppend(pre, [x]);
    assert Descriptions([x]) == DescriptionBlock(x) by {
      assert [x][..0] == [];
    }
  }

  lemma HeadingAnchorOf(anchor: string, shown: string)
    requires '"' !in anchor
    ensures HeadingAnchor(HeadingPrefix + anchor + "\">" + shown + "</a>") == Some(anchor)
  {
    var rest := ">" + shown + "</a>";
    var h := HeadingPrefix + anchor + "\">" + shown + "</a>";
    assert h == HeadingPrefix + (anchor + ['"'] + rest);
    SplitAtFirstOf(anchor, '"', rest);
  }

  /** The anchor read back from an item's heading is the item's anchor. */
  lemma HeadingAnchorIsAnchor(item: Item)
    requires ValidName(item.name)
    ensures HeadingAnchor(Heading(item)) == Some(AnchorName(item))
  {
    var anchor := AnchorName(item);
    AnchorNameChars(item);
    assert '"' !in anchor by {
      forall i | 0 <= i < |anchor| ensures anchor[i] != '"' {
        assert IsAnchorChar(anchor[i]);
      }
    }
    HeadingAnchorOf(anchor, LinkLabel(item));
  }

  /** The text between `">` and `</a>` of an anchored heading is its label. */
  lemma AnchorTagText(anchor: string, shown: string)
    ensures var h := HeadingPrefix + anchor + "\">" + shown + "</a>";
      var s := |HeadingPrefix| + |anchor| + 2;
      s + |shown| <= |h| && h[s..s + |shown|] == shown
  {
    var front := HeadingPrefix + anchor + "\">";
    var h := front + shown + "</a>";
    assert h == (front + shown) + "</a>";
    assert (front + shown)[|front|..] == shown;
  }

  /** The entry of an item in the table of contents shows its label. */
  lemma TocLineShowsLabel(item: Item)
    ensures 5 + |LinkLabel(item)| <= |TocLine(item)|
    ensures TocLine(item)[5..5 + |LinkLabel(item)|] == LinkLabel(item)
  {
    var link, l := Link(item), LinkLabel(item);
    LinkShowsLabel(item);
    assert TocLine(item)[5..5 + |l|] == link[1..1 + |l|];
  }

  /** The visible text of an item's heading is its link label. */
  lemma HeadingShowsLabel(item: Item)
    ensures var s := |HeadingPrefix| + |AnchorName(item)| + 2;
      s + |LinkLabel(item)| <= |Heading(item)|
      && Heading(item)[s..s + |LinkLabel(item)|] == LinkLabel(item)
  {
    AnchorTagText(AnchorName(item), LinkLabel(item));
  }

  // Positions of the four data-driven runs in a page.

  lemma PageTocCommon(tc: seq<string>, tm: seq<string>, c: seq<string>, m: seq<string>, k: nat)
    requires k < |tc|
    ensures 2 + k < |Page(tc, tm, c, m)| && Page(tc, tm, c, m)[2 + k] == tc[k]
  {
    assert Page(tc, tm, c, m)[1 + (1 + k)] == TableOfContents(tc, tm)[1 + k];
  }

  lemma PageTocManual(tc: seq<string>, tm: seq<string>, c: seq<string>, m: seq<string>, k: nat)
    requires k < |tm|
    ensures 3 + |tc| + k < |Page(tc, tm, c, m)| && Page(tc, tm, c, m)[3 + |tc| + k] == tm[k]
  {
    assert Page(tc, tm, c, m)[1 + (2 + |tc| + k)] == TableOfContents(tc, tm)[2 + |tc| + k];
  }

  lemma PageCommon(tc: seq<string>, tm: seq<string>, c: seq<string>, m: seq<string>, d: nat)
    requires d < |c|
    ensures 5 + |tc| + |tm| + d < |Page(tc, tm, c, m)|
    ensures Page(tc, tm, c, m)[5 + |tc| + |tm| + d] == c[d]
  {
    var toc := TableOfContents(tc, tm);
    assert |toc| == 3 + |tc| + |tm|;
    assert Page(tc, tm, c, m)[1 + |toc| + (1 + d)] == Sections(c, m)[1 + d];
  }

  lemma PageManual(tc: seq<string>, tm: seq<string>, c: seq<string>, m: seq<string>, d: nat)
    requires d < |m|
    ensures 6 + |tc| + |tm| + |c| + d < |Page(tc, tm, c, m)|
    ensures Page(tc, tm, c, m)[6 + |tc| + |tm| + |c| + d] == m[d]
  {
    var toc := TableOfContents(tc, tm);
    assert |toc| == 3 + |tc| + |tm|;
    assert Page(tc, tm, c, m)[1 + |toc| + (2 + |c| + d)] == Sections(c, m)[2 + |c| + d];
  }

  lemma LayoutCommonToc(common: seq<Item>, manual: seq<Item>, k: nat)
    requires k < |common|
    ensures 2 + k < |Layout(common, manual)|
    ensures Layout(common, manual)[2 + k] == TocLine(common[k])
  {
    PageTocCommon(TocLines(common), TocLines(manual), Descriptions(common), Descriptions(manual), k);
  }

  lemma LayoutManualToc(common: seq<Item>, manual: seq<Item>, k: nat)
    requires k < |manual|
    ensures 3 + |common| + k < |Layout(common, manual)|
    ensures Layout(common, manual)[3 + |common| + k] == TocLine(manual[k])
  {
    var tc, tm := TocLines(common), TocLines(manual);
    assert |tc| == |common| && tm[k] == TocLine(manual[k]);
    PageTocManual(tc, tm, Descriptions(common), Descriptions(manual), k);
  }

  lemma LayoutCommonSection(common: seq<Item>, manual: seq<Item>, d: nat)
    requires d < |Descriptions(common)|
    ensures 5 + |common| + |manual| + d < |Layout(common, manual)|
    ensures Layout(common, manual)[5 + |common| + |manual| + d] == Descriptions(common)[d]
  {
    PageCommon(TocLines(common), TocLines(manual), Descriptions(common), Descriptions(manual), d);
  }

  lemma LayoutManualSection(common: seq<Item>, manual: seq<Item>, d: nat)
    requires d < |Descriptions(manual)|
    ensures 6 + |common| + |manual| + |Descriptions(common)| + d < |Layout(common, manual)|
    ensures Layout(common, manual)[6 + |common| + |manual| + |Descriptions(common)| + d]
      == Descriptions(manual)[d]
  {
    var tc, tm := TocLines(common), TocLines(manual);
    assert |tc| == |common| && |tm| == |manual|;
    PageManual(tc, tm, Descriptions(common), Descriptions(manual), d);
  }

  /** Where an item sits in its own bucket and in that bucket's sections. */
  lemma PlaceInBucket(items: seq<Item>, i: nat, c: string)
    requires i < |items| && items[i].category == c
    ensures var bucket, before := Filter(items, c), Filter(items[..i], c);
      && |before| < |bucket| && bucket[|before|] == items[i]
      && |Descriptions(before)| < |Descriptions(bucket)|
      && Descriptions(bucket)[|Descriptions(before)|] == Heading(items[i])
  {
    var bucket, before := Filter(items, c), Filter(items[..i], c);
    FilterPosition(items, i);
    assert bucket[..|before|] == before;
    HeadingOfBlock(bucket, |before|);
  }

  /** An item of a rendered category has its table-of-contents line before
      its section heading, at the positions TocIndex and HeadingIndex. */
  lemma TocLineAndHeadingOf(items: seq<Item>, i: nat)
    requires i < |items| && Rendered(items[i].category)
    ensures TocIndex(items, i) < HeadingIndex(items, i) < |Document(items)|
    ensures Document(items)[TocIndex(items, i)] == TocLine(items[i])
    ensures Document(items)[HeadingIndex(items, i)] == Heading(items[i])
  {
    if items[i].category == "common" {
      CommonTocLine(items, i);
      CommonHeading(items, i);
    } else {
      ManualTocLine(items, i);
      ManualHeading(items, i);
    }
  }

  lemma CommonTocLine(items: seq<Item>, i: nat)
    requires i < |items| && items[i].category == "common"
    ensures TocIndex(items, i) < 5 + |Filter(items, "common")| + |Filter(items, "manual")|
    ensures Document(items)[TocIndex(items, i)] == TocLine(items[i])
  {
    var common, manual := Filter(items, "common"), Filter(items, "manual");
    var before := Filter(items[..i], "common");
    PlaceInBucket(items, i, "common");
    assert TocIndex(items, i) == 2 + |before|;
    LayoutCommonToc(common, manual, |before|);
  }

  lemma CommonHeading(items: seq<Item>, i: nat)
    requires i < |items| && items[i].category == "common"
    ensures 5 + |Filter(items, "common")| + |Filter(items, "manual")| <= HeadingIndex(items, i) < |Document(items)|
    ensures Document(items)[HeadingIndex(items, i)] == Heading(items[i])
  {
    var common, manual := Filter(items, "common"), Filter(items, "manual");
    var before := Filter(items[..i], "common");
    PlaceInBucket(items, i, "common");
    var d := |Descriptions(before)|;
    assert HeadingIndex(items, i) == 5 + |common| + |manual| + d;
    LayoutCommonSection(common, manual, d);
    assert Document(items)[HeadingIndex(items, i)] == Descriptions(common)[d];
  }

  lemma ManualTocLine(items: seq<Item>, i: nat)
    requires i < |items| && items[i].category == "manual"
    ensures TocIndex(items, i) < 5 + |Filter(items, "common")| + |Filter(items, "manual")|
    ensures Document(items)[TocIndex(items, i)] == TocLine(items[i])
  {
    var common, manual := Filter(items, "common"), Filter(items, "manual");
    var before := Filter(items[..i], "manual");
    assert items[i].category != "common" by {
      assert items[i].category[0] == 'm' != "common"[0];
    }
    PlaceInBucket(items, i, "manual");
    assert TocIndex(items, i) == 3 + |common| + |before|;
    LayoutManualToc(common, manual, |before|);
  }

  lemma ManualHeading(items: seq<Item>, i: nat)
    requires i < |items| && items[i].category == "manual"
    ensures 5 + |Filter(items, "common")| + |Filter(items, "manual")| <= HeadingIndex(items, i) < |Document(items)|
    ensures Document(items)[HeadingIndex(items, i)] == Heading(items[i])
  {
    var common, manual := Filter(items, "common"), Filter(items, "manual");
    var before := Filter(items[..i], "manual");
    assert items[i].category != "common" by {
      assert items[i].category[0] == 'm' != "common"[0];
    }
    PlaceInBucket(items, i, "manual");
    var d := |Descriptions(before)|;
    var k := 6 + |common| + |manual| + |Descriptions(common)| + d;
    assert HeadingIndex(items, i) == k;
    LayoutManualSection(common, manual, d);
    assert Layout(common, manual)[k] == Descriptions(manual)[d];
  }

  /** No dangling link: the target of every table-of-contents link is the
      anchor that the same item's section heading declares. */
  lemma EveryTocLinkResolves(items: seq<Item>, i: nat)
    requires i < |items| && Rendered(items[i].category) && ValidName(items[i].name)
    ensures TocIndex(items, i) < HeadingIndex(items, i) < |Document(items)|
    ensures Document(items)[TocIndex(items, i)] == "  - " + Link(items[i])
    ensures LinkFragment(Link(items[i])) == Some(AnchorName(items[i]))
    ensures HeadingAnchor(Document(items)[HeadingIndex(items, i)]) == Some(AnchorName(items[i]))
  {
    TocLineAndHeadingOf(items, i);
    LinkTargetIsAnchor(items[i]);
    HeadingAnchorIsAnchor(items[i]);
  }

  /** Every table-of-contents link shows the item's label, and so does the
      heading of the section it points at. */
  lemma EveryTocLinkShowsLabel(items: seq<Item>, i: nat)
    requires i < |items| && Rendered(items[i].category)
    ensures TocIndex(items, i) < HeadingIndex(items, i) < |Document(items)|
    ensures var toc, l := Document(items)[TocIndex(items, i)], LinkLabel(items[i]);
      5 + |l| <= |toc| && toc[5..5 + |l|] == l
    ensures var h, l := Document(items)[HeadingIndex(items, i)], LinkLabel(items[i]);
      var s := |HeadingPrefix| + |AnchorName(items[i])| + 2;
      s + |l| <= |h| && h[s..s + |l|] == l
  {
    TocLineAndHeadingOf(items, i);
    TocLineShowsLabel(items[i]);
    HeadingShowsLabel(items[i]);
  }

  /** Two items of one rendered category appear in input order, both in the
      table of contents and among the sections. */
  lemma DocumentFollowsInputOrder(items: seq<Item>, i: nat, j: nat)
    requires i < j < |items|
    requires items[i].category == items[j].category && Rendered(items[i].category)
    ensures TocIndex(items, i) < TocIndex(items, j)
    ensures HeadingIndex(items, i) < HeadingIndex(items, j)
  {
    var c := items[i].category;
    var bi, bj := Filter(items[..i], c), Filter(items[..j], c);
    FilterKeepsOrder(items, i, j);
    // bi followed by items[i] is a prefix of bj
    assert items[..j] == items[..i] + [items[i]] + items[i + 1..j];
    FilterAppend(items[..i] + [items[i]], items[i + 1..j], c);
    FilterAppend(items[..i], [items[i]], c);
    FilterSingle(items[i], c);
    var mid := Filter(items[i + 1..j], c);
    assert bj == (bi + [items[i]]) + mid;
    DescriptionsAppend(bi + [items[i]], mid);
    DescriptionsAppend(bi, [items[i]]);
    assert Descriptions([items[i]]) == DescriptionBlock(items[i]) by {
      assert [items[i]][..0] == [];
    }
  }

  /** Items of any category other than common and manual add no line. */
  lemma UnrenderedCategoriesAddNothing(a: seq<Item>, x: Item, b: seq<Item>)
    requires !Rendered(x.category)
    ensures Document(a + [x] + b) == Document(a + b)
  {
    FilterSkips(a, x, b, "common");
    FilterSkips(a, x, b, "manual");
  }

  /** With no items the document still has both section headings, the
      Docker section and the link definitions, and nothing else. */
  lemma EmptyInputDocument()
    ensures Document([]) == [Header, TocCommonBullet, TocManualBullet, TocDockerBullets,
      CommonSectionHeading, ManualSectionHeading, DockerSection, LinkDefinitions]
  {
  }

  /** The document has the eight fixed lines, one table-of-contents line per
      rendered item and two or three section lines per rendered item. */
  lemma DocumentSize(items: seq<Item>)
    ensures var n := |Filter(items, "common")| + |Filter(items, "manual")|;
      8 + 3 * n <= |Document(items)| <= 8 + 4 * n
  {
    var common, manual := Filter(items, "common"), Filter(items, "manual");
    DescriptionsLength(common);
    DescriptionsLength(manual);
  }
}
