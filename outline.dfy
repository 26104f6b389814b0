/**
 * What the converter's output looks like: a level-0 title followed by a
 * well-nested outline, one level-1 heading per section marker, one level-2
 * heading per subsection marker, blocks that emit nothing exactly when they
 * are blank, and paragraph texts that are stripped.
 */
module ReportOutline {
  import opened PyStr
  import opened ReportToDoc

  // ----- node-wise properties -----

  /** Every node of `doc` satisfies `p`. */
  predicate All(doc: seq<Node>, p: Node -> bool) {
    forall k :: 0 <= k < |doc| ==> p(doc[k])
  }

  predicate IsPara(n: Node) { n.Para? }

  predicate IsBullet(n: Node) { n.Bullet? }

  /** Running text: a paragraph or a bullet, not a heading. */
  predicate IsText(n: Node) { !n.Heading? }

  /** Paragraphs are non-empty and stripped, bullets stripped. */
  predicate IsClean(n: Node) {
    match n
    case Heading(_, _) => true
    case Para(t) => t != [] && IsStripped(t)
    case Bullet(t) => IsStripped(t)
  }

  lemma AllAppend(a: seq<Node>, b: seq<Node>, p: Node -> bool)
    ensures All(a + b, p) <==> All(a, p) && All(b, p)
  {
    if All(a, p) && All(b, p) {
      forall k | 0 <= k < |a + b| ensures p((a + b)[k]) {
        if k < |a| {
          assert (a + b)[k] == a[k];
        } else {
          assert (a + b)[k] == b[k - |a|];
        }
      }
    }
    if All(a + b, p) {
      forall k | 0 <= k < |a| ensures p(a[k]) {
        assert (a + b)[k] == a[k];
      }
      forall k | 0 <= k < |b| ensures p(b[k]) {
        assert (a + b)[k + |a|] == b[k];
      }
    }
  }

  /** A node property every piece has, the concatenation has. */
  lemma {:induction false} EmitAll(part: Part, xs: seq<string>, n: nat, p: Node -> bool)
    requires n <= |xs|
    requires forall i :: 0 <= i < n ==> All(Nodes(part, xs[i]), p)
    ensures All(Emit(part, xs, n), p)
  {
    if n > 0 {
      EmitAll(part, xs, n - 1, p);
      AllAppend(Emit(part, xs, n - 1), Nodes(part, xs[n - 1]), p);
    }
  }

  // ----- blocks and items -----

  /** A paragraph of a section's own text emits nothing exactly when it is
      blank, and one stripped paragraph otherwise. */
  lemma ParagraphShape(para: string)
    ensures ParagraphNodes(para) == [] <==> AllSpace(para)
    ensures All(ParagraphNodes(para), IsPara) && All(ParagraphNodes(para), IsClean)
  {
    StripEmpty(para);
    StripIsStripped(para);
  }

  /** A list item emits at most one bullet, with stripped text. */
  lemma ItemShape(item: string)
    ensures |ItemNodes(item)| <= 1
    ensures ItemNodes(item) == [] <==> AllSpace(item)
    ensures All(ItemNodes(item), IsBullet) && All(ItemNodes(item), IsClean)
  {
    StripEmpty(item);
    StripIsStripped(Unbullet(item));
  }

  /** The item "- " passes the blank test before its marker is removed,
      so it becomes a bullet with empty text. */
  lemma BareMarkerItem()
    ensures ItemNodes("- ") == [Bullet([])]
  {
    StripEmpty("- ");
    assert !IsSpace("- "[0]);
    assert Unbullet("- ") == [];
  }

  lemma {:induction false} EmitItemsLength(items: seq<string>, n: nat)
    requires 1 <= n <= |items|
    ensures |ItemNodes(items[0])| <= |Emit(Item, items, n)| <= n
  {
    ItemShape(items[n - 1]);
    if n > 1 {
      EmitItemsLength(items, n - 1);
    }
  }

  /** The pieces of a block whose stripped text begins with "- ": the first
      piece keeps that marker, so it is not blank. */
  lemma FirstItemMarked(t: string)
    requires StartsWith(t, "- ")
    ensures ItemNodes(Split(t, ItemMark)[0]) != []
  {
    var items := Split(t, ItemMark);
    SplitFirstAtLeast(t, ItemMark, 2);
    assert items[0][0] == t[0] == '-';
    ItemShape(items[0]);
  }

  /** A block of a subsection emits nothing exactly when it is blank; a
      block beginning with "- " emits only bullets, at least one and at
      most one per item; any other block one stripped paragraph. */
  lemma BlockShape(para: string)
    ensures BlockNodes(para) == [] <==> AllSpace(para)
    ensures All(BlockNodes(para), IsText) && All(BlockNodes(para), IsClean)
    ensures Strip(para) != [] && !StartsWith(Strip(para), "- ") ==> BlockNodes(para) == [Para(Strip(para))]
    ensures StartsWith(Strip(para), "- ") ==>
              All(BlockNodes(para), IsBullet)
              && 1 <= |BlockNodes(para)| <= |Split(Strip(para), ItemMark)|
  {
    StripEmpty(para);
    StripIsStripped(para);
    var t := Strip(para);
    if t != [] && StartsWith(t, "- ") {
      var items := Split(t, ItemMark);
      forall i | 0 <= i < |items|
        ensures All(ItemNodes(items[i]), IsBullet) && All(ItemNodes(items[i]), IsClean)
        ensures All(ItemNodes(items[i]), IsText)
      {
        ItemShape(items[i]);
      }
      EmitAll(Item, items, |items|, IsBullet);
      EmitAll(Item, items, |items|, IsClean);
      EmitAll(Item, items, |items|, IsText);
      FirstItemMarked(t);
      EmitItemsLength(items, |items|);
    }
  }

  // ----- sections -----

  /** The source's test `subsections[0].startswith('###')` holds exactly
      when the section body itself begins with "###": such a section has
      no text of its own. */
  lemma FirstChunkMarker(c: string)
    ensures StartsWith(Split(c, SubsectionMark)[0], "###") <==> StartsWith(c, "###")
  {
    var first := Split(c, SubsectionMark)[0];
    if StartsWith(c, "###") {
      SplitFirstAtLeast(c, SubsectionMark, 3);
      assert first[..3] == c[..3];
    }
    if StartsWith(first, "###") {
      assert c[..3] == first[..3];
    }
  }

  /** A section's own text is a run of stripped paragraphs. */
  lemma DirectShape(chunk: string)
    ensures All(DirectNodes(chunk), IsPara) && All(DirectNodes(chunk), IsClean)
  {
    if !StartsWith(chunk, "###") {
      var paras := Split(Strip(chunk), BlankLine);
      forall i | 0 <= i < |paras|
        ensures All(ParagraphNodes(paras[i]), IsPara) && All(ParagraphNodes(paras[i]), IsClean)
      {
        ParagraphShape(paras[i]);
      }
      EmitAll(Paragraph, paras, |paras|, IsPara);
      EmitAll(Paragraph, paras, |paras|, IsClean);
    }
  }

  /** A section whose body begins with "###" has no text of its own: its
      heading is followed directly by its subsections. */
  lemma OwnTextSkipped(sec: string)
    requires StartsWith(Content(sec), "###")
    ensures var subs := Split(Content(sec), SubsectionMark);
            SectionNodes(sec) == [Heading(1, HeadLine(sec))] + FlatMap(Subsection, subs[1..])
  {
    FirstChunkMarker(Content(sec));
  }

  /** A subsection whose text after the heading line is blank emits only
      its heading. */
  lemma BlankSubsection(sub: string)
    requires AllSpace(AfterFirstLine(Strip(sub)))
    ensures SubsectionNodes(sub) == [Heading(2, HeadLine(sub))]
  {
    StripEmpty(AfterFirstLine(Strip(sub)));
  }

  /** The body of a subsection: text nodes only, all clean. */
  lemma SubsectionBodyShape(sub: string)
    ensures SubsectionNodes(sub)[0] == Heading(2, HeadLine(sub))
    ensures All(SubsectionNodes(sub)[1..], IsText) && All(SubsectionNodes(sub)[1..], IsClean)
  {
    var body := SubsectionNodes(sub)[1..];
    if Content(sub) != [] {
      var blocks := Split(Content(sub), BlankLine);
      forall i | 0 <= i < |blocks|
        ensures All(BlockNodes(blocks[i]), IsText) && All(BlockNodes(blocks[i]), IsClean)
      {
        BlockShape(blocks[i]);
      }
      EmitAll(Block, blocks, |blocks|, IsText);
      EmitAll(Block, blocks, |blocks|, IsClean);
      assert body == FlatMap(Block, blocks);
    } else {
      assert body == [];
    }
  }

  // ----- nesting -----

  /** The heading level in force after `node`, when `level` was in force
      before it. */
  function Step(level: nat, node: Node): nat {
    if node.Heading? then node.level else level
  }

  /** `node` may follow a heading of `level` (0 for the title): a section
      heading anywhere, a subsection heading inside a section, a paragraph
      under any heading but the title, a bullet only inside a subsection. */
  predicate Fits(level: nat, node: Node) {
    match node
    case Heading(l, _) => 1 <= l <= level + 1
    case Para(_) => level >= 1
    case Bullet(_) => level == 2
  }

  /** The level in force after `doc`, when `start` was in force before it. */
  function LevelAfter(doc: seq<Node>, start: nat): nat
  {
    if doc == [] then start else Step(LevelAfter(doc[..|doc| - 1], start), doc[|doc| - 1])
  }

  /** Every node of `doc` fits the level in force before it. */
  predicate Nested(doc: seq<Node>, start: nat)
  {
    doc == [] || (Nested(doc[..|doc| - 1], start) && Fits(LevelAfter(doc[..|doc| - 1], start), doc[|doc| - 1]))
  }

  /** A document outline: the title heading and then a well-nested run of
      sections. */
  predicate Outline(doc: seq<Node>) {
    |doc| >= 1 && doc[0].Heading? && doc[0].level == 0 && Nested(doc[1..], 0)
  }

  lemma {:induction false} NestedAppend(a: seq<Node>, b: seq<Node>, start: nat)
    ensures LevelAfter(a + b, start) == LevelAfter(b, LevelAfter(a, start))
    ensures Nested(a + b, start) <==> Nested(a, start) && Nested(b, LevelAfter(a, start))
    decreases |b|
  {
    if b == [] {
      assert a + b == a;
    } else {
      var b' := b[..|b| - 1];
      assert (a + b)[..|a + b| - 1] == a + b';
      assert (a + b)[|a + b| - 1] == b[|b| - 1];
      NestedAppend(a, b', start);
    }
  }

  /** Paragraphs fit under any heading but the title, and change no level. */
  lemma {:induction false} ProseNested(doc: seq<Node>, level: nat)
    requires All(doc, IsPara) && level >= 1
    ensures Nested(doc, level) && LevelAfter(doc, level) == level
  {
    if doc != [] {
      var d := doc[..|doc| - 1];
      assert All(d, IsPara) by {
        assert forall k :: 0 <= k < |d| ==> d[k] == doc[k];
      }
      ProseNested(d, level);
      assert IsPara(doc[|doc| - 1]);
    }
  }

  /** Paragraphs and bullets fit inside a subsection and change no level. */
  lemma {:induction false} TextNested(doc: seq<Node>)
    requires All(doc, IsText)
    ensures Nested(doc, 2) && LevelAfter(doc, 2) == 2
  {
    if doc != [] {
      var d := doc[..|doc| - 1];
      assert All(d, IsText) by {
        assert forall k :: 0 <= k < |d| ==> d[k] == doc[k];
      }
      TextNested(d);
      assert IsText(doc[|doc| - 1]);
    }
  }

  /** A subsection fits inside any section and leaves level 2 in force. */
  lemma SubsectionNested(sub: string, level: nat)
    requires level >= 1
    ensures Nested(SubsectionNodes(sub), level) && LevelAfter(SubsectionNodes(sub), level) == 2
  {
    var nodes := SubsectionNodes(sub);
    SubsectionBodyShape(sub);
    TextNested(nodes[1..]);
    assert nodes == [nodes[0]] + nodes[1..];
    NestedAppend([nodes[0]], nodes[1..], level);
    assert [nodes[0]][..0] == [];
  }

  /** When every piece, entered at any level between `lo` and `hi`, is
      well nested and leaves a level between `lo` and `hi` in force, so is
      and does their concatenation. */
  lemma {:induction false} EmitNested(part: Part, xs: seq<string>, n: nat, lo: nat, hi: nat, start: nat)
    requires n <= |xs| && lo <= start <= hi
    requires forall i, l :: 0 <= i < n && lo <= l <= hi ==>
               Nested(Nodes(part, xs[i]), l) && lo <= LevelAfter(Nodes(part, xs[i]), l) <= hi
    ensures Nested(Emit(part, xs, n), start) && lo <= LevelAfter(Emit(part, xs, n), start) <= hi
  {
    if n > 0 {
      var e := Emit(part, xs, n - 1);
      EmitNested(part, xs, n - 1, lo, hi, start);
      NestedAppend(e, Nodes(part, xs[n - 1]), start);
    }
  }

  /** A section fits anywhere after the title and leaves level 1 or 2 in
      force. */
  lemma SectionNested(sec: string, level: nat)
    requires level <= 2
    ensures Nested(SectionNodes(sec), level)
    ensures 1 <= LevelAfter(SectionNodes(sec), level) <= 2
  {
    var subs := Split(Content(sec), SubsectionMark);
    var xs := subs[1..];
    var head := [Heading(1, HeadLine(sec))];
    var direct := DirectNodes(subs[0]);
    var rest := FlatMap(Subsection, xs);
    assert head[..0] == [];
    DirectShape(subs[0]);
    ProseNested(direct, 1);
    NestedAppend(head, direct, level);
    forall i, l | 0 <= i < |xs| && 1 <= l <= 2
      ensures Nested(SubsectionNodes(xs[i]), l) && 1 <= LevelAfter(SubsectionNodes(xs[i]), l) <= 2
    {
      SubsectionNested(xs[i], l);
    }
    EmitNested(Subsection, xs, |xs|, 1, 2, 1);
    NestedAppend(head + direct, rest, level);
  }

  /** The converted document is an outline: the title, then sections whose
      subsections, paragraphs and bullets each sit under a heading they may
      sit under. */
  lemma DocOutline(md: string)
    ensures Outline(Doc(md))
  {
    var secs := Split(md, SectionMark)[1..];
    forall i, l | 0 <= i < |secs| && 0 <= l <= 2
      ensures Nested(SectionNodes(secs[i]), l) && 0 <= LevelAfter(SectionNodes(secs[i]), l) <= 2
    {
      SectionNested(secs[i], l);
    }
    EmitNested(Section, secs, |secs|, 0, 2, 0);
    assert Doc(md)[1..] == FlatMap(Section, secs);
  }

  // ----- headings -----

  /** The texts of the level-`level` headings of `doc`, in order. */
  function Headings(doc: seq<Node>, level: nat): seq<string>
  {
    if doc == [] then []
    else
      var last := doc[|doc| - 1];
      Headings(doc[..|doc| - 1], level) + (if last.Heading? && last.level == level then [last.text] else [])
  }

  lemma {:induction false} HeadingsAppend(a: seq<Node>, b: seq<Node>, level: nat)
    ensures Headings(a + b, level) == Headings(a, level) + Headings(b, level)
    decreases |b|
  {
    if b == [] {
      assert a + b == a;
    } else {
      assert (a + b)[..|a + b| - 1] == a + b[..|b| - 1];
      assert (a + b)[|a + b| - 1] == b[|b| - 1];
      HeadingsAppend(a, b[..|b| - 1], level);
    }
  }

  /** Neither the title nor a section heading. */
  predicate IsMinor(n: Node) { !(n.Heading? && n.level <= 1) }

  lemma {:induction false} TextHeadings(doc: seq<Node>, level: nat)
    requires All(doc, IsText)
    ensures Headings(doc, level) == []
  {
    if doc != [] {
      var d := doc[..|doc| - 1];
      assert All(d, IsText) by {
        assert forall k :: 0 <= k < |d| ==> d[k] == doc[k];
      }
      TextHeadings(d, level);
      assert IsText(doc[|doc| - 1]);
    }
  }

  lemma {:induction false} MinorHeadings(doc: seq<Node>, level: nat)
    requires All(doc, IsMinor) && level <= 1
    ensures Headings(doc, level) == []
  {
    if doc != [] {
      var d := doc[..|doc| - 1];
      assert All(d, IsMinor) by {
        assert forall k :: 0 <= k < |d| ==> d[k] == doc[k];
      }
      MinorHeadings(d, level);
      assert IsMinor(doc[|doc| - 1]);
    }
  }

  /** The heading lines of the first `n` chunks of `xs`. */
  function HeadLines(xs: seq<string>, n: nat): (hs: seq<string>)
    requires n <= |xs|
    ensures |hs| == n
  {
    if n == 0 then [] else HeadLines(xs, n - 1) + [HeadLine(xs[n - 1])]
  }

  /** The `k`-th heading line is the heading line of the `k`-th chunk. */
  lemma {:induction false} HeadLinesAt(xs: seq<string>, n: nat, k: nat)
    requires k < n <= |xs|
    ensures HeadLines(xs, n)[k] == HeadLine(xs[k])
  {
    if k < n - 1 {
      HeadLinesAt(xs, n - 1, k);
    }
  }

  /** One more piece that heads one level-`level` heading with its own
      heading line. */
  lemma HeadLinesStep(e: seq<Node>, d: seq<Node>, xs: seq<string>, n: nat, level: nat)
    requires 1 <= n <= |xs|
    requires Headings(e, level) == HeadLines(xs, n - 1) && Headings(d, level) == [HeadLine(xs[n - 1])]
    ensures Headings(e + d, level) == HeadLines(xs, n)
  {
    HeadingsAppend(e, d, level);
  }

  lemma NoHeadingsStep(e: seq<Node>, d: seq<Node>, level: nat)
    requires Headings(e, level) == [] && Headings(d, level) == []
    ensures Headings(e + d, level) == []
  {
    HeadingsAppend(e, d, level);
  }

  /** A subsection: its heading line at level 2, then only running text. */
  lemma SubsectionHeadings(sub: string)
    ensures Headings(SubsectionNodes(sub), 2) == [HeadLine(sub)]
    ensures All(SubsectionNodes(sub), IsMinor)
  {
    var nodes := SubsectionNodes(sub);
    SubsectionBodyShape(sub);
    TextHeadings(nodes[1..], 2);
    assert nodes == [nodes[0]] + nodes[1..];
    HeadingsAppend([nodes[0]], nodes[1..], 2);
    assert [nodes[0]][..0] == [];
    assert forall k :: 1 <= k < |nodes| ==> nodes[k] == nodes[1..][k - 1];
  }

  /** A run of subsections holds only subsection headings and text. */
  lemma SubsectionsMinor(xs: seq<string>)
    ensures All(FlatMap(Subsection, xs), IsMinor)
  {
    forall i | 0 <= i < |xs| ensures All(SubsectionNodes(xs[i]), IsMinor) {
      SubsectionHeadings(xs[i]);
    }
    EmitAll(Subsection, xs, |xs|, IsMinor);
  }

  /** The level-2 headings of a run of subsections are their heading lines. */
  lemma {:induction false} SubsectionsHeadings(xs: seq<string>, n: nat)
    requires n <= |xs|
    ensures Headings(Emit(Subsection, xs, n), 2) == HeadLines(xs, n)
  {
    if n > 0 {
      SubsectionsHeadings(xs, n - 1);
      SubsectionHeadings(xs[n - 1]);
      HeadLinesStep(Emit(Subsection, xs, n - 1), SubsectionNodes(xs[n - 1]), xs, n, 2);
    }
  }

  /** What follows a section's heading holds neither a title nor a section
      heading. */
  lemma SectionBodyMinor(chunk: string, xs: seq<string>)
    ensures All(DirectNodes(chunk) + FlatMap(Subsection, xs), IsMinor)
  {
    DirectShape(chunk);
    assert All(DirectNodes(chunk), IsMinor);
    SubsectionsMinor(xs);
    AllAppend(DirectNodes(chunk), FlatMap(Subsection, xs), IsMinor);
  }

  /** A section heads one level-1 heading, its heading line, and holds no
      title heading. */
  lemma SectionHeadings(sec: string)
    ensures Headings(SectionNodes(sec), 1) == [HeadLine(sec)]
    ensures Headings(SectionNodes(sec), 0) == []
  {
    var subs := Split(Content(sec), SubsectionMark);
    var head := [Heading(1, HeadLine(sec))];
    var body := DirectNodes(subs[0]) + FlatMap(Subsection, subs[1..]);
    assert head[..0] == [];
    SectionBodyMinor(subs[0], subs[1..]);
    MinorHeadings(body, 0);
    MinorHeadings(body, 1);
    Regroup(head, DirectNodes(subs[0]), FlatMap(Subsection, subs[1..]), []);
    HeadingsAppend(head, body, 0);
    HeadingsAppend(head, body, 1);
  }

  /** The level-2 headings of a section are the heading lines of its
      subsections, one per subsection marker. */
  lemma SectionSubheadings(sec: string)
    ensures var subs := Split(Content(sec), SubsectionMark);
            Headings(SectionNodes(sec), 2) == HeadLines(subs[1..], |subs| - 1)
  {
    var subs := Split(Content(sec), SubsectionMark);
    var head := [Heading(1, HeadLine(sec))];
    var direct := DirectNodes(subs[0]);
    assert head[..0] == [];
    DirectShape(subs[0]);
    assert All(direct, IsText);
    TextHeadings(direct, 2);
    SubsectionsHeadings(subs[1..], |subs| - 1);
    HeadingsAppend(head, direct, 2);
    HeadingsAppend(head + direct, FlatMap(Subsection, subs[1..]), 2);
  }

  /** A run of sections holds no title heading, and its level-1 headings are
      the sections' heading lines. */
  lemma {:induction false} SectionsHeadings(secs: seq<string>, n: nat)
    requires n <= |secs|
    ensures Headings(Emit(Section, secs, n), 0) == []
    ensures Headings(Emit(Section, secs, n), 1) == HeadLines(secs, n)
  {
    if n > 0 {
      var e, d := Emit(Section, secs, n - 1), SectionNodes(secs[n - 1]);
      SectionsHeadings(secs, n - 1);
      SectionHeadings(secs[n - 1]);
      NoHeadingsStep(e, d, 0);
      HeadLinesStep(e, d, secs, n, 1);
    }
  }

  /** The title is the only level-0 heading, and the level-1 headings are
      the heading lines of the sections, one per section marker. */
  lemma DocHeadings(md: string)
    ensures var sections := Split(md, SectionMark);
            && Headings(Doc(md), 0) == [Title(md)]
            && Headings(Doc(md), 1) == HeadLines(sections[1..], |sections| - 1)
  {
    var secs := Split(md, SectionMark)[1..];
    var head := [Heading(0, Title(md))];
    assert head[..0] == [];
    SectionsHeadings(secs, |secs|);
    HeadingsAppend(head, FlatMap(Section, secs), 0);
    HeadingsAppend(head, FlatMap(Section, secs), 1);
  }

  /** A heading line is one line: it holds no line break, and it is where
      the stripped text begins. */
  lemma HeadLineOneLine(text: string)
    ensures StartsWith(Strip(text), HeadLine(text))
    ensures forall k :: 0 <= k < |HeadLine(text)| ==> HeadLine(text)[k] != '\n'
  {
    var h := HeadLine(text);
    SplitPiecesFree(Strip(text), "\n");
    forall k | 0 <= k < |h| ensures h[k] != '\n' {
      assert !OccursAt(h, "\n", k);
      assert h[k..k + 1] == [h[k]];
    }
  }

  /** The title is the first chunk, stripped, with every "# " cut out. */
  lemma TitleText(md: string)
    ensures Doc(md)[0] == Heading(0, Title(md))
    ensures Title(md) == Join("", Split(Strip(Split(md, SectionMark)[0]), "# "))
  {
    ReplaceIsJoinOfSplit(Strip(Split(md, SectionMark)[0]), "# ", "");
  }

  // ----- clean text -----

  lemma SectionClean(sec: string)
    ensures All(SectionNodes(sec), IsClean)
  {
    var subs := Split(Content(sec), SubsectionMark);
    var xs := subs[1..];
    DirectShape(subs[0]);
    forall i | 0 <= i < |xs| ensures All(SubsectionNodes(xs[i]), IsClean) {
      var nodes := SubsectionNodes(xs[i]);
      SubsectionBodyShape(xs[i]);
      assert nodes == [nodes[0]] + nodes[1..];
      AllAppend([nodes[0]], nodes[1..], IsClean);
    }
    EmitAll(Subsection, xs, |xs|, IsClean);
    AllAppend([Heading(1, HeadLine(sec))], DirectNodes(subs[0]), IsClean);
    AllAppend([Heading(1, HeadLine(sec))] + DirectNodes(subs[0]), FlatMap(Subsection, xs), IsClean);
  }

  /** Every paragraph of the document is non-empty and stripped, and every
      bullet is stripped. */
  lemma DocClean(md: string)
    ensures All(Doc(md), IsClean)
  {
    var secs := Split(md, SectionMark)[1..];
    forall i | 0 <= i < |secs| ensures All(SectionNodes(secs[i]), IsClean) {
      SectionClean(secs[i]);
    }
    EmitAll(Section, secs, |secs|, IsClean);
    AllAppend([Heading(0, Title(md))], FlatMap(Section, secs), IsClean);
  }
}
