/**
 * The report converter (convert-report-to-doc.py): the Markdown text is cut
 * on literal heading markers and re-emitted as a flat sequence of document
 * nodes -- a level-0 title, level-1 section headings, level-2 subsection
 * headings, plain paragraphs and bulleted-list items.
 *
 * `Convert` is the converter's loop nest; `Doc` says the same thing one
 * piece at a time and is what the lemmas below talk about.
 */
module ReportToDoc {
  import opened PyStr

  /** One call on the document: `add_heading(text, level)`,
      `add_paragraph(text)` or `add_paragraph(text, style='List Bullet')`. */
  datatype Node = Heading(level: nat, text: string) | Para(text: string) | Bullet(text: string)

  const SectionMark: string := "\n## "
  const SubsectionMark: string := "\n### "
  const BlankLine: string := "\n\n"
  const ItemMark: string := "\n- "

  // ----- the pieces of the document, one source statement at a time -----

  /** The title: the text before the first section marker, stripped, with
      every "# " removed. */
  function Title(md: string): string
  {
    Replace(Strip(Split(md, SectionMark)[0]), "# ", "")
  }

  /** The heading of a section or subsection: the first line of its
      stripped text. */
  function HeadLine(text: string): string
  {
    Split(Strip(text), "\n")[0]
  }

  /** The text after the first line break of `t` (empty when there is
      none). */
  function AfterFirstLine(t: string): string
    decreases |t|
  {
    if t == [] then [] else if t[0] == '\n' then t[1..] else AfterFirstLine(t[1..])
  }

  /** The body of a section or subsection: what follows its heading line,
      stripped. */
  function Content(text: string): string
  {
    Strip(AfterFirstLine(Strip(text)))
  }

  /** Joining the lines after the first gives back the text after the first
      line break: the source's `'\n'.join(lines[1:])`. */
  lemma {:induction false} JoinTailLines(t: string)
    ensures Join("\n", Split(t, "\n")[1..]) == AfterFirstLine(t)
    decreases |t|
  {
    if |t| >= 1 {
      var rest := Split(t[1..], "\n");
      if t[..1] == "\n" {
        assert Split(t, "\n")[1..] == rest;
        SplitJoin(t[1..], "\n");
      } else {
        assert Split(t, "\n")[1..] == rest[1..];
        JoinTailLines(t[1..]);
      }
    }
  }

  /** The kinds of text piece the converter cuts the report into. The node
      functions of all kinds form one recursive group keyed on this tag, so
      that the verifier unfolds one level of the report at a time rather than
      all nested levels at once. */
  datatype Part = Section | Subsection | Paragraph | Block | Item

  /** How deep a piece sits: a piece only holds pieces of lower rank. */
  function Rank(part: Part): nat
  {
    match part
    case Section => 3
    case Subsection => 2
    case Block => 1
    case Paragraph => 0
    case Item => 0
  }

  /** The nodes one piece of kind `part` emits. */
  function Nodes(part: Part, text: string): seq<Node>
    decreases Rank(part), 1
  {
    match part
    case Section => SectionNodes(text)
    case Subsection => SubsectionNodes(text)
    case Paragraph => ParagraphNodes(text)
    case Block => BlockNodes(text)
    case Item => ItemNodes(text)
  }

  /** The nodes the first `n` pieces of `xs` emit, in order. */
  function Emit(part: Part, xs: seq<string>, n: nat): seq<Node>
    requires n <= |xs|
    decreases Rank(part), 2, n
  {
    if n == 0 then [] else Emit(part, xs, n - 1) + Nodes(part, xs[n - 1])
  }

  /** The nodes all the pieces of `xs` emit, in order. */
  function FlatMap(part: Part, xs: seq<string>): seq<Node>
    decreases Rank(part), 3
  {
    Emit(part, xs, |xs|)
  }

  /** One more piece: `after` extends `before` by exactly what `xs[n]`
      emits. */
  lemma EmitStep(part: Part, xs: seq<string>, n: nat, start: seq<Node>, before: seq<Node>, after: seq<Node>)
    requires n < |xs|
    requires before == start + Emit(part, xs, n) && after == before + Nodes(part, xs[n])
    ensures after == start + Emit(part, xs, n + 1)
  {
  }

  /** A paragraph of a section's own text. */
  function ParagraphNodes(para: string): seq<Node>
  {
    if Strip(para) != [] then [Para(Strip(para))] else []
  }

  /** A section's own text: the chunk before its first subsection marker,
      skipped when it begins with "###". */
  function DirectNodes(chunk: string): seq<Node>
    decreases 1, 0
  {
    if StartsWith(chunk, "###") then []
    else FlatMap(Paragraph, Split(Strip(chunk), BlankLine))
  }

  /** A list item's text with one leading "- " removed. */
  function Unbullet(item: string): string
  {
    if StartsWith(item, "- ") then item[2..] else item
  }

  /** One item of a bulleted block: kept when it is not blank. */
  function ItemNodes(item: string): seq<Node>
  {
    if Strip(item) != [] then [Bullet(Strip(Unbullet(item)))] else []
  }

  /** One blank-line separated block of a subsection: a bulleted list when
      its stripped text begins with "- ", a paragraph otherwise. */
  function BlockNodes(para: string): seq<Node>
    decreases 1, 0
  {
    if Strip(para) == [] then []
    else if StartsWith(Strip(para), "- ") then FlatMap(Item, Split(Strip(para), ItemMark))
    else [Para(Strip(para))]
  }

  function SubsectionNodes(sub: string): seq<Node>
    decreases 2, 0
  {
    [Heading(2, HeadLine(sub))]
      + (if Content(sub) != [] then FlatMap(Block, Split(Content(sub), BlankLine)) else [])
  }

  function SectionNodes(sec: string): seq<Node>
    decreases 3, 0
  {
    var subs := Split(Content(sec), SubsectionMark);
    [Heading(1, HeadLine(sec))] + DirectNodes(subs[0]) + FlatMap(Subsection, subs[1..])
  }

  /** The whole document produced from `md`. */
  function Doc(md: string): seq<Node>
  {
    [Heading(0, Title(md))] + FlatMap(Section, Split(md, SectionMark)[1..])
  }

  // ----- the converter -----

  /** The body of the converter: the title heading, then each section in
      order. */
  method Convert(md: string) returns (doc: seq<Node>)
    ensures doc == Doc(md)
  {
    var sections := Split(md, SectionMark);
    var title := Replace(Strip(sections[0]), "# ", "");
    doc := [Heading(0, title)];
    for i := 1 to |sections|
      invariant doc == [Heading(0, title)] + Emit(Section, sections[1..], i - 1)
    {
      ghost var before := doc;
      doc := AddSection(doc, sections[i]);
      EmitStep(Section, sections[1..], i - 1, [Heading(0, title)], before, doc);
    }
  }

  /** One pass of the section loop: its heading, its own paragraphs, then
      each subsection. */
  method AddSection(doc: seq<Node>, section: string) returns (doc': seq<Node>)
    ensures doc' == doc + SectionNodes(section)
  {
    var sectionLines := Split(Strip(section), "\n");
    var sectionTitle := sectionLines[0];
    var sectionContent := Strip(Join("\n", sectionLines[1..]));
    SectionLines(section);
    doc' := doc + [Heading(1, sectionTitle)];
    var subsections := Split(sectionContent, SubsectionMark);
    SectionParts(section, subsections);
    ghost var heading, own := doc', DirectNodes(subsections[0]);
    if !StartsWith(subsections[0], "###") {
      doc' := AddParagraphs(doc', Split(Strip(subsections[0]), BlankLine));
    }
    assert doc' == heading + own;
    ghost var others := FlatMap(Subsection, subsections[1..]);
    doc' := AddSubsections(doc', subsections);
    Regroup(doc, [Heading(1, sectionTitle)], own, others);
  }

  /** Regrouping concatenated pieces of output. */
  lemma Regroup(a: seq<Node>, b: seq<Node>, c: seq<Node>, d: seq<Node>)
    ensures a + b + c == a + (b + c)
    ensures a + b + c + d == a + (b + c + d)
  {
  }

  /** A section's nodes from the chunks of its body. */
  lemma SectionParts(section: string, subsections: seq<string>)
    requires subsections == Split(Content(section), SubsectionMark)
    ensures SectionNodes(section) == [Heading(1, HeadLine(section))] + DirectNodes(subsections[0])
                                       + FlatMap(Subsection, subsections[1..])
  {
  }

  /** The heading line and the body as the section loop computes them. */
  lemma SectionLines(section: string)
    ensures var lines := Split(Strip(section), "\n");
            && lines[0] == HeadLine(section)
            && Strip(Join("\n", lines[1..])) == Content(section)
  {
    JoinTailLines(Strip(section));
  }

  /** The subsection loop of a section: every chunk after the first. */
  method AddSubsections(doc: seq<Node>, subsections: seq<string>) returns (doc': seq<Node>)
    requires |subsections| >= 1
    ensures doc' == doc + FlatMap(Subsection, subsections[1..])
  {
    doc' := doc;
    for j := 1 to |subsections|
      invariant doc' == doc + Emit(Subsection, subsections[1..], j - 1)
    {
      ghost var before := doc';
      doc' := AddSubsection(doc', subsections[j]);
      EmitStep(Subsection, subsections[1..], j - 1, doc, before, doc');
    }
  }

  /** The paragraph loop of a section's own text: every non-blank paragraph,
      stripped. */
  method AddParagraphs(doc: seq<Node>, paragraphs: seq<string>) returns (doc': seq<Node>)
    ensures doc' == doc + FlatMap(Paragraph, paragraphs)
  {
    doc' := doc;
    for k := 0 to |paragraphs|
      invariant doc' == doc + Emit(Paragraph, paragraphs, k)
    {
      ghost var before := doc';
      var para := paragraphs[k];
      if Strip(para) != [] {
        doc' := doc' + [Para(Strip(para))];
      }
      EmitStep(Paragraph, paragraphs, k, doc, before, doc');
    }
  }

  /** One pass of the subsection loop: its heading, then its blocks when its
      body is not empty. */
  method AddSubsection(doc: seq<Node>, subsection: string) returns (doc': seq<Node>)
    ensures doc' == doc + SubsectionNodes(subsection)
  {
    var subsectionLines := Split(Strip(subsection), "\n");
    var subsectionTitle := subsectionLines[0];
    var subsectionContent := Strip(Join("\n", subsectionLines[1..]));
    JoinTailLines(Strip(subsection));
    doc' := doc + [Heading(2, subsectionTitle)];
    if subsectionContent != [] {
      doc' := AddBlocks(doc', Split(subsectionContent, BlankLine));
    }
  }

  /** The paragraph loop of a subsection. */
  method AddBlocks(doc: seq<Node>, paragraphs: seq<string>) returns (doc': seq<Node>)
    ensures doc' == doc + FlatMap(Block, paragraphs)
  {
    doc' := doc;
    for k := 0 to |paragraphs|
      invariant doc' == doc + Emit(Block, paragraphs, k)
    {
      ghost var before := doc';
      doc' := AddBlock(doc', paragraphs[k]);
      EmitStep(Block, paragraphs, k, doc, before, doc');
    }
  }

  /** One pass of the paragraph loop inside a subsection: a block whose text
      begins with "- " is a bulleted list, any other non-blank block a
      paragraph. */
  method AddBlock(doc: seq<Node>, para: string) returns (doc': seq<Node>)
    ensures doc' == doc + BlockNodes(para)
  {
    doc' := doc;
    if Strip(para) != [] {
      if StartsWith(Strip(para), "- ") {
        doc' := AddItems(doc', Split(Strip(para), ItemMark));
      } else {
        doc' := doc' + [Para(Strip(para))];
      }
    }
  }

  /** The item loop of a bulleted block. */
  method AddItems(doc: seq<Node>, items: seq<string>) returns (doc': seq<Node>)
    ensures doc' == doc + FlatMap(Item, items)
  {
    doc' := doc;
    for m := 0 to |items|
      invariant doc' == doc + Emit(Item, items, m)
    {
      ghost var before := doc';
      var listItem := items[m];
      if Strip(listItem) != [] {
        if StartsWith(listItem, "- ") {
          listItem := listItem[2..];
        }
        doc' := doc' + [Bullet(Strip(listItem))];
      }
      EmitStep(Item, items, m, doc, before, doc');
    }
  }
}
