/**
 * A section whose body opens with a subsection heading line.
 *
 * The converter cuts a section's body on "\n### ", so a subsection that
 * starts on the body's first line has no line break in front of it and
 * stays in the first chunk; that chunk then begins with "###" and is
 * skipped as the section's own text. The whole subsection, heading and
 * content, is lost. `FirstSubsectionDropped` states this about the
 * converter as written; `IntendedSectionNodes` cuts the body at every line
 * that opens with "### ", the first one included, and `IntendedSubheadings`
 * proves that it gives that subsection its heading.
 */
module ReportFix {
  import opened PyStr
  import opened ReportToDoc
  import opened ReportOutline

  /** A section as the converter evidently means it: a subsection also
      starts on the first line of the body. */
  function IntendedSectionNodes(sec: string): seq<Node>
  {
    var subs := Split("\n" + Content(sec), SubsectionMark);
    [Heading(1, HeadLine(sec))] + DirectNodes(subs[0]) + FlatMap(Subsection, subs[1..])
  }

  /** The heading lines of a list: the first one, then those of the rest. */
  lemma {:induction false} HeadLinesCons(xs: seq<string>, n: nat)
    requires 1 <= n <= |xs|
    ensures HeadLines(xs, n) == [HeadLine(xs[0])] + HeadLines(xs[1..], n - 1)
  {
    if n > 1 {
      HeadLinesCons(xs, n - 1);
      assert xs[1..][n - 2] == xs[n - 1];
    }
  }

  /** The body opens with the subsection text `"### " + t`: as written the
      converter cuts it into the pieces of `t`, the first glued to the
      marker, and the intended cut gives exactly the pieces of `t`. */
  lemma OpeningCuts(sec: string)
    requires StartsWith(Content(sec), "### ")
    ensures var t := Content(sec)[4..];
            && Split(Content(sec), SubsectionMark)
                 == ["### " + Split(t, SubsectionMark)[0]] + Split(t, SubsectionMark)[1..]
            && Split("\n" + Content(sec), SubsectionMark) == [[]] + Split(t, SubsectionMark)
  {
    var c := Content(sec);
    var t := c[4..];
    assert c == "### " + t;
    assert Lacks("### ", SubsectionMark[0]);
    SplitPrefix("### ", t, SubsectionMark);
    assert "\n" + c == SubsectionMark + t;
    SplitLeadingSep(SubsectionMark, t);
  }

  /** As written: when a section's body opens with a subsection heading
      line, that subsection emits nothing, so the section has one level-2
      heading fewer than it has subsections. */
  lemma FirstSubsectionDropped(sec: string)
    requires StartsWith(Content(sec), "### ")
    ensures var subs := Split(Content(sec)[4..], SubsectionMark);
            && SectionNodes(sec) == [Heading(1, HeadLine(sec))] + FlatMap(Subsection, subs[1..])
            && Headings(SectionNodes(sec), 2) == HeadLines(subs[1..], |subs| - 1)
            && Headings(IntendedSectionNodes(sec), 2) == [HeadLine(subs[0])] + Headings(SectionNodes(sec), 2)
  {
    var subs := Split(Content(sec)[4..], SubsectionMark);
    OpeningCuts(sec);
    OwnTextSkipped(sec);
    SectionSubheadings(sec);
    IntendedSubheadings(sec);
    HeadLinesCons(subs, |subs|);
  }

  /** The section "S", whose body is the one subsection "### A": the
      converter emits the section heading and nothing else. */
  lemma DroppedExample()
    ensures SectionNodes("S\n### A") == [Heading(1, "S")]
  {
    var sec := "S\n### A";
    ExampleText();
    var subs := Split("A", SubsectionMark);
    assert subs == ["A"];
    FirstSubsectionDropped(sec);
    assert FlatMap(Subsection, subs[1..]) == [];
  }

  /** The same section cut as intended also emits the subsection's
      heading. */
  lemma IntendedExample()
    ensures IntendedSectionNodes("S\n### A") == [Heading(1, "S"), Heading(2, "A")]
  {
    var sec := "S\n### A";
    ExampleText();
    assert Split("A", SubsectionMark) == ["A"];
    OpeningCuts(sec);
    var subs := Split("\n" + Content(sec), SubsectionMark);
    assert subs == [[], "A"];
    assert DirectNodes([]) == [] by {
      assert Strip([]) == [];
      assert Split([], BlankLine) == [[]];
      assert FlatMap(Paragraph, [[]]) == ParagraphNodes([]);
    }
    ExampleSubsection();
    assert FlatMap(Subsection, subs[1..]) == SubsectionNodes("A");
  }

  lemma ExampleText()
    ensures Content("S\n### A") == "### A" && HeadLine("S\n### A") == "S"
  {
    var sec := "S\n### A";
    assert Strip(sec) == sec;
    assert AfterFirstLine(sec) == AfterFirstLine(sec[1..]) == sec[2..] == "### A";
    assert Strip("### A") == "### A";
    var r := Split(sec[1..], "\n");
    assert r[0] == [] by {
      assert sec[1..][..1] == "\n";
    }
    assert Split(sec, "\n")[0] == [sec[0]] + r[0];
  }

  lemma ExampleSubsection()
    ensures SubsectionNodes("A") == [Heading(2, "A")]
  {
    assert Strip("A") == "A";
    var a := "A";
    assert a[..1] != "\n";
    var rest := Split(a[1..], "\n");
    assert a[1..] == [] && rest == [[]];
    assert [a[0]] + rest[0] == a;
    assert Split(a, "\n") == [a];
    assert AfterFirstLine("A") == [];
    assert HeadLine("A") == "A" && Content("A") == [];
  }

  /** Corrected: every chunk after the first of the intended cut is one
      subsection with its level-2 heading, and a body opening with
      `"### " + t` has one heading for every piece of `t`, the first
      included. */
  lemma IntendedSubheadings(sec: string)
    ensures var subs := Split("\n" + Content(sec), SubsectionMark);
            Headings(IntendedSectionNodes(sec), 2) == HeadLines(subs[1..], |subs| - 1)
    ensures StartsWith(Content(sec), "### ") ==>
              var pieces := Split(Content(sec)[4..], SubsectionMark);
              Headings(IntendedSectionNodes(sec), 2) == HeadLines(pieces, |pieces|)
  {
    var subs := Split("\n" + Content(sec), SubsectionMark);
    var head := [Heading(1, HeadLine(sec))];
    var direct := DirectNodes(subs[0]);
    assert head[..0] == [];
    DirectShape(subs[0]);
    TextHeadings(direct, 2);
    SubsectionsHeadings(subs[1..], |subs| - 1);
    HeadingsAppend(head, direct, 2);
    HeadingsAppend(head + direct, FlatMap(Subsection, subs[1..]), 2);
    if StartsWith(Content(sec), "### ") {
      OpeningCuts(sec);
    }
  }

  /** Corrected and written agree on every section whose body does not open
      with "###". */
  lemma IntendedAgrees(sec: string)
    requires !StartsWith(Content(sec), "###")
    ensures IntendedSectionNodes(sec) == SectionNodes(sec)
  {
    IntendedCutAgrees(Content(sec));
  }

  /** A body that does not open with "###": the intended cut only puts a
      line break in front of the first chunk, which changes none of its
      nodes. */
  lemma IntendedCutAgrees(c: string)
    requires !StartsWith(c, "###")
    ensures var r := Split(c, SubsectionMark);
            && Split("\n" + c, SubsectionMark) == ["\n" + r[0]] + r[1..]
            && DirectNodes("\n" + r[0]) == DirectNodes(r[0])
  {
    var r := Split(c, SubsectionMark);
    assert !StartsWith("\n" + c, SubsectionMark) by {
      if |SubsectionMark| <= |"\n" + c| {
        assert ("\n" + c)[1..4] == c[..3];
      }
    }
    SplitOneChar('\n', c, SubsectionMark);
    StripSpaceCons('\n', r[0]);
    assert !StartsWith("\n" + r[0], "###");
    assert !StartsWith(r[0], "###") by {
      if |r[0]| >= 3 {
        assert r[0][..3] == c[..3];
      }
    }
  }
}
