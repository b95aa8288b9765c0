/** The Word export builder: the ordered list of paragraphs that
    `createDocxDocument` gives the docx library, and the slide-deck
    placeholder `createPptxPresentation`. */
module DocumentExport {
  import opened Wrappers
  import opened Strings
  import opened Sequences

  datatype HeadingLevel = Title | Heading1 | Heading2

  datatype Alignment = Center

  /** Space before and after a paragraph, in twentieths of a point. */
  datatype Spacing = Spacing(before: Option<nat>, after: nat)

  /** One paragraph of the Word document: its text, its heading level (none
      for body text), its alignment, its spacing, and whether it is attached
      to the "default-numbering" list at level 0. */
  datatype Paragraph = Paragraph(
    text: string,
    heading: Option<HeadingLevel>,
    alignment: Option<Alignment>,
    spacing: Spacing,
    numbered: bool)

  datatype DocumentSection = DocumentSection(
    title: string,
    content: string,
    subsections: Option<seq<DocumentSection>>)

  datatype ExportDocxOptions = ExportDocxOptions(
    title: string,
    author: Option<string>,
    abstractText: Option<string>,
    sections: seq<DocumentSection>,
    references: Option<seq<string>>)

  /** The author used when the options carry none. */
  const DefaultAuthor: string := "AI Generated"

  /** Section bodies are cut into paragraphs at every blank line. */
  const ParagraphBreak: string := "\n\n"

  function TitleParagraph(title: string): Paragraph {
    Paragraph(title, Some(Title), Some(Center), Spacing(None, 400), false)
  }

  function AuthorParagraph(author: string): Paragraph {
    Paragraph(author, None, Some(Center), Spacing(None, 200), false)
  }

  function AbstractHeading(): Paragraph {
    Paragraph("Abstract", Some(Heading1), None, Spacing(Some(400), 200), false)
  }

  function AbstractParagraph(text: string): Paragraph {
    Paragraph(text, None, None, Spacing(None, 400), false)
  }

  function SectionHeading(title: string): Paragraph {
    Paragraph(title, Some(Heading1), None, Spacing(Some(400), 200), true)
  }

  function SubsectionHeading(title: string): Paragraph {
    Paragraph(title, Some(Heading2), None, Spacing(Some(200), 100), false)
  }

  function BodyParagraph(text: string): Paragraph {
    Paragraph(text, None, None, Spacing(None, 200), false)
  }

  function ReferencesHeading(): Paragraph {
    Paragraph("References", Some(Heading1), None, Spacing(Some(400), 200), false)
  }

  /** The paragraph for the reference numbered `k` (counting from 1). */
  function ReferenceParagraph(k: nat, reference: string): Paragraph {
    Paragraph("[" + NatToString(k) + "] " + reference, None, None, Spacing(None, 100), false)
  }

  // ---------------------------------------------------------------------
  // The paragraph list, specified piece by piece.
  // ---------------------------------------------------------------------

  function EffectiveAuthor(o: ExportDocxOptions): string {
    o.author.GetOr(DefaultAuthor)
  }

  predicate HasAbstract(o: ExportDocxOptions) {
    o.abstractText.Some? && o.abstractText.value != ""
  }

  predicate HasReferences(o: ExportDocxOptions) {
    o.references.Some? && |o.references.value| > 0
  }

  /** Title, then the author line when the author is non-empty, then the
      abstract heading and text when the abstract is non-empty. */
  function FrontMatter(o: ExportDocxOptions): seq<Paragraph> {
    [TitleParagraph(o.title)]
    + (if EffectiveAuthor(o) != "" then [AuthorParagraph(EffectiveAuthor(o))] else [])
    + (if HasAbstract(o) then [AbstractHeading(), AbstractParagraph(o.abstractText.value)] else [])
  }

  /** The body paragraph one chunk of a section body yields: its trimmed
      text, or nothing when that is empty. */
  function ChunkParagraph(chunk: string): seq<Paragraph> {
    if Trim(chunk) != "" then [BodyParagraph(Trim(chunk))] else []
  }

  function ChunkParagraphs(chunks: seq<string>): seq<Paragraph> {
    FlatMap(ChunkParagraph, chunks)
  }

  /** A section body, cut at every blank line. */
  function ContentParagraphs(content: string): seq<Paragraph> {
    ChunkParagraphs(SplitOn(content, ParagraphBreak))
  }

  /** A subsection: its level-2 heading and its body. Its own subsections
      are not looked at. */
  function SubsectionBlock(sub: DocumentSection): seq<Paragraph> {
    [SubsectionHeading(sub.title)] + ContentParagraphs(sub.content)
  }

  function SubsectionsBlock(subs: seq<DocumentSection>): seq<Paragraph> {
    FlatMap(SubsectionBlock, subs)
  }

  /** A section: its numbered level-1 heading, its body, its subsections. */
  function SectionBlock(s: DocumentSection): seq<Paragraph> {
    [SectionHeading(s.title)] + ContentParagraphs(s.content)
    + SubsectionsBlock(s.subsections.GetOr([]))
  }

  function SectionsBlock(sections: seq<DocumentSection>): seq<Paragraph> {
    FlatMap(SectionBlock, sections)
  }

  function ReferenceLines(refs: seq<string>): seq<Paragraph> {
    if refs == [] then []
    else ReferenceLines(refs[..|refs| - 1]) + [ReferenceParagraph(|refs|, refs[|refs| - 1])]
  }

  function ReferencesBlock(o: ExportDocxOptions): seq<Paragraph> {
    if HasReferences(o) then [ReferencesHeading()] + ReferenceLines(o.references.value) else []
  }

  /** The whole paragraph list of the exported document. */
  function DocxParagraphs(o: ExportDocxOptions): seq<Paragraph> {
    FrontMatter(o) + SectionsBlock(o.sections) + ReferencesBlock(o)
  }

  // ---------------------------------------------------------------------
  // The builder, appending paragraph by paragraph as the source does.
  // ---------------------------------------------------------------------

  /** Appends one body paragraph per chunk whose trimmed text is non-empty. */
  method PushChunks(children: seq<Paragraph>, chunks: seq<string>) returns (out: seq<Paragraph>)
    ensures out == children + ChunkParagraphs(chunks)
  {
    out := children;
    var i := 0;
    while i < |chunks|
      invariant 0 <= i <= |chunks|
      invariant out == children + ChunkParagraphs(chunks[..i])
    {
      ghost var prev := out;
      var para := chunks[i];
      if Trim(para) != "" {
        out := out + [BodyParagraph(Trim(para))];
      }
      FlatMapSnoc(ChunkParagraph, children, prev, chunks, i);
      i := i + 1;
    }
    assert chunks[..i] == chunks;
  }

  /** One pass of the subsection loop: the subsection's heading and body
      paragraphs. */
  method PushSubsection(children: seq<Paragraph>, subsection: DocumentSection) returns (out: seq<Paragraph>)
    ensures out == children + SubsectionBlock(subsection)
  {
    out := children + [SubsectionHeading(subsection.title)];
    out := PushChunks(out, SplitOn(subsection.content, ParagraphBreak));
  }

  /** The subsection loop of one section. */
  method PushSubsections(children: seq<Paragraph>, subsections: seq<DocumentSection>) returns (out: seq<Paragraph>)
    ensures out == children + SubsectionsBlock(subsections)
  {
    out := children;
    var j := 0;
    while j < |subsections|
      invariant 0 <= j <= |subsections|
      invariant out == children + SubsectionsBlock(subsections[..j])
    {
      ghost var prev := out;
      out := PushSubsection(out, subsections[j]);
      FlatMapSnoc(SubsectionBlock, children, prev, subsections, j);
      j := j + 1;
    }
    assert subsections[..j] == subsections;
  }

  /** One pass of the section loop: the section's heading, its body
      paragraphs, then each subsection in turn. */
  method PushSection(children: seq<Paragraph>, section: DocumentSection) returns (out: seq<Paragraph>)
    ensures out == children + SectionBlock(section)
  {
    out := children + [SectionHeading(section.title)];
    out := PushChunks(out, SplitOn(section.content, ParagraphBreak));
    out := PushSubsections(out, section.subsections.GetOr([]));
  }

  /** The section loop. */
  method PushSections(children: seq<Paragraph>, sections: seq<DocumentSection>) returns (out: seq<Paragraph>)
    ensures out == children + SectionsBlock(sections)
  {
    out := children;
    var i := 0;
    while i < |sections|
      invariant 0 <= i <= |sections|
      invariant out == children + SectionsBlock(sections[..i])
    {
      ghost var prev := out;
      out := PushSection(out, sections[i]);
      FlatMapSnoc(SectionBlock, children, prev, sections, i);
      i := i + 1;
    }
    assert sections[..i] == sections;
  }

  /** The references block: the heading, then "[k] reference" for each
      reference in turn. */
  method PushReferences(children: seq<Paragraph>, references: seq<string>) returns (out: seq<Paragraph>)
    requires |references| > 0
    ensures out == children + [ReferencesHeading()] + ReferenceLines(references)
  {
    out := children + [ReferencesHeading()];
    var k := 0;
    while k < |references|
      invariant 0 <= k <= |references|
      invariant out == children + [ReferencesHeading()] + ReferenceLines(references[..k])
    {
      out := out + [ReferenceParagraph(k + 1, references[k])];
      assert references[..k + 1][..k] == references[..k];
      k := k + 1;
    }
    assert references[..k] == references;
  }

  /** The title, author and abstract paragraphs at the head of the document. */
  method PushFrontMatter(options: ExportDocxOptions) returns (children: seq<Paragraph>)
    ensures children == FrontMatter(options)
  {
    var author := options.author.GetOr(DefaultAuthor);
    children := [TitleParagraph(options.title)];
    if author != "" {
      children := children + [AuthorParagraph(author)];
    }
    if options.abstractText.Some? && options.abstractText.value != "" {
      children := children + [AbstractHeading(), AbstractParagraph(options.abstractText.value)];
    }
  }

  /** `createDocxDocument`: builds the paragraph list of the document. */
  method CreateDocxDocument(options: ExportDocxOptions) returns (children: seq<Paragraph>)
    ensures children == DocxParagraphs(options)
  {
    children := PushFrontMatter(options);
    children := PushSections(children, options.sections);
    if options.references.Some? && |options.references.value| > 0 {
      children := PushReferences(children, options.references.value);
    }
  }

  // ---------------------------------------------------------------------
  // What the paragraph list promises.
  // ---------------------------------------------------------------------

  /** Every body paragraph a section's chunks yield is plain, left-aligned,
      un-numbered text that is non-empty and already trimmed, and is the
      trim of one of the chunks: blank chunks yield nothing. */
  lemma ChunkParagraphsTrimmed(chunks: seq<string>)
    ensures forall p :: p in ChunkParagraphs(chunks) ==>
      p == BodyParagraph(p.text) && p.text != [] && Trim(p.text) == p.text
      && exists c :: c in chunks && Trim(c) == p.text
  {
    forall p | p in ChunkParagraphs(chunks)
      ensures p == BodyParagraph(p.text) && p.text != [] && Trim(p.text) == p.text
      ensures exists c :: c in chunks && Trim(c) == p.text
    {
      FlatMapMember(ChunkParagraph, chunks, p);
      var i :| 0 <= i < |chunks| && p in ChunkParagraph(chunks[i]);
      TrimIdempotent(chunks[i]);
      assert chunks[i] in chunks;
    }
  }

  /** Chunks that are all non-blank yield exactly one paragraph each, in
      their order, holding the trimmed chunk. */
  lemma ChunkParagraphsNonBlank(chunks: seq<string>)
    requires forall i :: 0 <= i < |chunks| ==> Trim(chunks[i]) != ""
    ensures |ChunkParagraphs(chunks)| == |chunks|
    ensures forall i :: 0 <= i < |chunks| ==>
      ChunkParagraphs(chunks)[i] == BodyParagraph(Trim(chunks[i]))
  {
    FlatMapSingletons(ChunkParagraph, chunks);
  }

  /** Chunks that are all blank after trimming yield no paragraph at all. */
  lemma ChunkParagraphsBlank(chunks: seq<string>)
    requires forall i :: 0 <= i < |chunks| ==> Trim(chunks[i]) == ""
    ensures ChunkParagraphs(chunks) == []
  {
    FlatMapEmpty(ChunkParagraph, chunks);
  }

  /** An empty or all-white-space section body yields its heading with no
      paragraph under it. */
  lemma BlankContentNoParagraphs(content: string)
    requires AllSpace(content)
    ensures ContentParagraphs(content) == []
  {
    var chunks := SplitOn(content, ParagraphBreak);
    SplitOnBlank(content, ParagraphBreak);
    forall i | 0 <= i < |chunks| ensures Trim(chunks[i]) == "" {
      assert chunks[i] in chunks;
      TrimBlank(chunks[i]);
    }
    ChunkParagraphsBlank(chunks);
  }

  /** A subsection with its own subsections dropped. */
  function Shallow(s: DocumentSection): DocumentSection {
    s.(subsections := None)
  }

  function ShallowAll(subs: seq<DocumentSection>): (r: seq<DocumentSection>)
    ensures |r| == |subs|
  {
    seq(|subs|, i requires 0 <= i < |subs| => Shallow(subs[i]))
  }

  /** Only one level of subsections is rendered: removing everything below
      the subsections of a section leaves its paragraphs as they were. */
  lemma SubsectionsIgnoreDeeper(subs: seq<DocumentSection>)
    ensures SubsectionsBlock(ShallowAll(subs)) == SubsectionsBlock(subs)
  {
    FlatMapPointwise(SubsectionBlock, ShallowAll(subs), subs);
  }

  /** Every paragraph after the front matter is left-aligned, is no title,
      and is not the abstract heading. */
  predicate AfterFrontMatter(p: Paragraph) {
    p.alignment == None && p.heading != Some(Title) && p != AbstractHeading()
  }

  lemma ChunkParagraphsAfterFront(chunks: seq<string>)
    ensures forall p :: p in ChunkParagraphs(chunks) ==> AfterFrontMatter(p)
  {
    ChunkParagraphsTrimmed(chunks);
  }

  lemma SubsectionsAfterFront(subs: seq<DocumentSection>)
    ensures forall p :: p in SubsectionsBlock(subs) ==> AfterFrontMatter(p)
  {
    forall p | p in SubsectionsBlock(subs) ensures AfterFrontMatter(p) {
      FlatMapMember(SubsectionBlock, subs, p);
      var i :| 0 <= i < |subs| && p in SubsectionBlock(subs[i]);
      ChunkParagraphsAfterFront(SplitOn(subs[i].content, ParagraphBreak));
    }
  }

  lemma SectionsAfterFront(sections: seq<DocumentSection>)
    ensures forall p :: p in SectionsBlock(sections) ==> AfterFrontMatter(p)
  {
    forall p | p in SectionsBlock(sections) ensures AfterFrontMatter(p) {
      FlatMapMember(SectionBlock, sections, p);
      var i :| 0 <= i < |sections| && p in SectionBlock(sections[i]);
      ChunkParagraphsAfterFront(SplitOn(sections[i].content, ParagraphBreak));
      SubsectionsAfterFront(sections[i].subsections.GetOr([]));
    }
  }

  /** The references block: the "References" heading, then one line per
      reference, the k-th (from 0) reading "[k+1] " and the reference. */
  lemma {:induction false} ReferenceLinesNumbered(refs: seq<string>)
    ensures |ReferenceLines(refs)| == |refs|
    ensures forall k :: 0 <= k < |refs| ==>
      ReferenceLines(refs)[k] == ReferenceParagraph(k + 1, refs[k])
      && ReferenceLines(refs)[k].text == "[" + NatToString(k + 1) + "] " + refs[k]
  {
    if refs != [] {
      ReferenceLinesNumbered(refs[..|refs| - 1]);
    }
  }

  lemma {:induction false} ReferencesAfterFront(o: ExportDocxOptions)
    ensures forall p :: p in ReferencesBlock(o) ==> AfterFrontMatter(p)
  {
    if HasReferences(o) {
      ReferenceLinesNumbered(o.references.value);
      forall p | p in ReferencesBlock(o) ensures AfterFrontMatter(p) {
        if p != ReferencesHeading() {
          var k :| 0 <= k < |ReferenceLines(o.references.value)| && ReferenceLines(o.references.value)[k] == p;
        } else {
          assert p.text != AbstractHeading().text by {
            assert p.text[0] == 'R';
          }
        }
      }
    }
  }

  /** The first paragraph is the title, as a centred title-level heading. */
  lemma TitleFirst(o: ExportDocxOptions)
    ensures |DocxParagraphs(o)| >= 1
    ensures DocxParagraphs(o)[0].text == o.title
    ensures DocxParagraphs(o)[0].heading == Some(Title)
    ensures DocxParagraphs(o)[0].alignment == Some(Center)
  {
  }

  /** Everything after the front matter. */
  function Body(o: ExportDocxOptions): seq<Paragraph> {
    SectionsBlock(o.sections) + ReferencesBlock(o)
  }

  lemma {:induction false} BodyAfterFront(o: ExportDocxOptions)
    ensures DocxParagraphs(o) == FrontMatter(o) + Body(o)
    ensures forall p :: p in Body(o) ==> AfterFrontMatter(p)
  {
    SectionsAfterFront(o.sections);
    ReferencesAfterFront(o);
  }

  /** A paragraph past the front matter keeps to the body's layout. */
  lemma PastFront(front: seq<Paragraph>, body: seq<Paragraph>, i: nat)
    requires forall p :: p in body ==> AfterFrontMatter(p)
    requires |front| <= i < |front| + |body|
    ensures AfterFrontMatter((front + body)[i])
  {
    assert (front + body)[i] == body[i - |front|];
  }

  /** The author line: present, centred and right after the title exactly
      when the author is non-empty, which, since an omitted author is "AI
      Generated", is whenever the author is not given as "". */
  lemma {:induction false} AuthorLine(o: ExportDocxOptions)
    ensures EffectiveAuthor(o) == "" <==> o.author == Some("")
    ensures EffectiveAuthor(o) != "" <==>
      (|DocxParagraphs(o)| >= 2 && DocxParagraphs(o)[1].alignment == Some(Center))
    ensures EffectiveAuthor(o) != "" ==> DocxParagraphs(o)[1] == AuthorParagraph(EffectiveAuthor(o))
  {
    BodyAfterFront(o);
    var front, body := FrontMatter(o), Body(o);
    if EffectiveAuthor(o) == "" && !HasAbstract(o) && 2 <= |front + body| {
      PastFront(front, body, 1);
    }
  }

  /** The abstract heading appears only when the abstract is non-empty, and
      then exactly once, right after the title and author lines, followed by
      the abstract text and then by every section. */
  lemma {:induction false} AbstractPlacement(o: ExportDocxOptions)
    ensures var a := if EffectiveAuthor(o) != "" then 1 else 0;
      forall i :: 0 <= i < |DocxParagraphs(o)| && DocxParagraphs(o)[i] == AbstractHeading() ==>
        HasAbstract(o) && i == a + 1
    ensures var a := if EffectiveAuthor(o) != "" then 1 else 0;
      HasAbstract(o) ==>
        |DocxParagraphs(o)| >= a + 3
        && DocxParagraphs(o)[a + 1] == AbstractHeading()
        && DocxParagraphs(o)[a + 2] == AbstractParagraph(o.abstractText.value)
        && DocxParagraphs(o)[a + 3..] == SectionsBlock(o.sections) + ReferencesBlock(o)
  {
    BodyAfterFront(o);
    var front, body := FrontMatter(o), Body(o);
    forall i | 0 <= i < |front + body| && (front + body)[i] == AbstractHeading()
      ensures HasAbstract(o) && i == (if EffectiveAuthor(o) != "" then 1 else 0) + 1
    {
      if i >= |front| {
        PastFront(front, body, i);
        assert false;
      }
    }
    if HasAbstract(o) {
      assert (front + body)[|front|..] == body;
    }
  }

  /** The references block comes last and is present exactly when the
      reference list is non-empty; it numbers the references from 1 in the
      order given. */
  lemma {:induction false} ReferencesPlacement(o: ExportDocxOptions)
    ensures var d := DocxParagraphs(o);
      var n := if HasReferences(o) then |o.references.value| + 1 else 0;
      |d| == |FrontMatter(o)| + |SectionsBlock(o.sections)| + n
      && d[|d| - n..] == ReferencesBlock(o)
    ensures var d := DocxParagraphs(o);
      HasReferences(o) ==>
        var refs := o.references.value;
        d[|d| - |refs| - 1] == ReferencesHeading()
        && forall k :: 0 <= k < |refs| ==>
          d[|d| - |refs| + k].text == "[" + NatToString(k + 1) + "] " + refs[k]
  {
    var d := DocxParagraphs(o);
    if HasReferences(o) {
      var refs := o.references.value;
      ReferenceLinesNumbered(refs);
      assert |ReferencesBlock(o)| == |refs| + 1;
      forall k | 0 <= k < |refs|
        ensures d[|d| - |refs| + k].text == "[" + NatToString(k + 1) + "] " + refs[k]
      {
        assert d[|d| - |refs| + k] == ReferencesBlock(o)[k + 1];
      }
    }
  }

  /** Two pieces free of line breaks, joined by a blank line, split back
      into those two pieces. */
  lemma SplitTwo(p1: string, p2: string)
    requires forall i :: 0 <= i < |p1| ==> p1[i] != '\n'
    requires forall i :: 0 <= i < |p2| ==> p2[i] != '\n'
    ensures SplitOn(p1 + ParagraphBreak + p2, ParagraphBreak) == [p1, p2]
  {
    SplitOnNoSep(p2, ParagraphBreak);
    SplitOnLeadingSep(p2, ParagraphBreak);
    SplitOnPlainPrefix(p1, ParagraphBreak + p2, ParagraphBreak);
    assert p1 + ParagraphBreak + p2 == p1 + (ParagraphBreak + p2);
    assert p1 + [] == p1;
  }

  /** Two single-line paragraphs separated by one blank line give exactly
      two body paragraphs, in order. */
  lemma TwoParagraphs(p1: string, p2: string)
    requires p1 != [] && !IsSpace(p1[0]) && !IsSpace(p1[|p1| - 1])
    requires p2 != [] && !IsSpace(p2[0]) && !IsSpace(p2[|p2| - 1])
    requires forall i :: 0 <= i < |p1| ==> p1[i] != '\n'
    requires forall i :: 0 <= i < |p2| ==> p2[i] != '\n'
    ensures ContentParagraphs(p1 + ParagraphBreak + p2) == [BodyParagraph(p1), BodyParagraph(p2)]
  {
    SplitTwo(p1, p2);
    var chunks := SplitOn(p1 + ParagraphBreak + p2, ParagraphBreak);
    TrimUnpadded(p1);
    TrimUnpadded(p2);
    ChunkParagraphsNonBlank(chunks);
  }

  // ---------------------------------------------------------------------
  // Slide deck.
  // ---------------------------------------------------------------------

  datatype SlideType = TitleSlide | ContentSlide | ImageSlide | QuoteSlide

  datatype SlideData = SlideData(
    slideType: SlideType,
    title: string,
    content: Option<seq<string>>,
    speakerNotes: Option<string>,
    imageUrl: Option<string>)

  datatype ExportPptxOptions = ExportPptxOptions(title: string, slides: seq<SlideData>)

  /** `createPptxPresentation`: the server hands the slide description back
      unchanged; the slides are laid out in the browser. */
  function CreatePptxPresentation(options: ExportPptxOptions): (r: ExportPptxOptions)
    ensures r == options
  {
    options
  }
}
