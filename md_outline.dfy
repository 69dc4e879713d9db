/**
 * MdOutline.read (md_outline.py): a Markdown outline becomes chapters and
 * sections with descriptions. '# ' and '## ' headings open chapters, '### '
 * headings open sections titled by the heading, and the lines below a
 * heading become the description of what it opened.
 */
module MdOutlines {
  import opened Wrappers
  import opened Strings
  import opened NovxGlobals
  import opened Elements
  import opened Sections
  import opened NvTrees
  import opened MdDrafts
  import MdFiles

  /** write_desc's text: the lines joined, newlines removed. */
  function DescText(lines: seq<string>): string
  {
    Replace(Join("", lines), "\n", "")
  }

  /** write_desc(element, lines) as a method over the lines. */
  method WriteDesc(lines: seq<string>) returns (text: string)
    ensures text == DescText(lines)
  {
    var newlines: seq<string> := [];
    var i := 0;
    while i < |lines|
      invariant 0 <= i <= |lines|
      invariant newlines == lines[..i]
    {
      newlines := newlines + [lines[i]];
      i := i + 1;
    }
    assert lines[..i] == lines;
    text := Join("", newlines);
    text := Replace(text, "\n", "");
  }

  /** Lines read from the file hold no newline, so the description is their concatenation. */
  lemma {:induction false} DescIsJoined(lines: seq<string>)
    requires forall i :: 0 <= i < |lines| ==> '\n' !in lines[i]
    ensures DescText(lines) == Join("", lines)
  {
    if lines == [] {
    } else if |lines| == 1 {
      MdFiles.ReplaceLine(lines[0], "", "\n", "");
      assert lines[0] + "" == lines[0];
    } else {
      assert Join("", lines) == lines[0] + Join("", lines[1..]);
      MdFiles.ReplaceLine(lines[0], Join("", lines[1..]), "\n", "");
      DescIsJoined(lines[1..]);
    }
  }

  function WithChapterDesc(c: ChapterRec, desc: string): ChapterRec
  {
    c.(withNotes := c.withNotes.(basic := c.withNotes.basic.(desc := Some(desc))))
  }

  function WithSectionDesc(s: SectionRec, desc: string): SectionRec
  {
    s.(withTags := s.withTags.(withNotes := s.withTags.withNotes.(basic := s.withTags.withNotes.basic.(desc := Some(desc)))))
  }

  /** The lines go to the open section's description, else to the open chapter's, else nowhere. */
  function Described(d: Draft, scId: Option<string>, chId: Option<string>, lines: seq<string>): (r: Draft)
    requires scId.Some? ==> scId.value in d.sections
    requires chId.Some? ==> chId.value in d.chapters
    ensures r.kids == d.kids && r.sections.Keys == d.sections.Keys && r.chapters.Keys == d.chapters.Keys
    ensures scId.Some? ==>
              && r.chapters == d.chapters
              && r.sections == d.sections[scId.value := WithSectionDesc(d.sections[scId.value], DescText(lines))]
    ensures scId.None? && chId.Some? ==>
              && r.sections == d.sections
              && r.chapters == d.chapters[chId.value := WithChapterDesc(d.chapters[chId.value], DescText(lines))]
    ensures scId.None? && chId.None? ==> r == d
  {
    if scId.Some? then
      d.(sections := d.sections[scId.value := WithSectionDesc(d.sections[scId.value], DescText(lines))])
    else if chId.Some? then
      d.(chapters := d.chapters[chId.value := WithChapterDesc(d.chapters[chId.value], DescText(lines))])
    else d
  }

  /** str.lstrip(chars): drops leading characters that are in chars. */
  function LStripChars(s: string, chars: string): (r: string)
    ensures |r| <= |s| && r == s[|s| - |r|..]
    ensures r == [] || r[0] !in chars
  {
    if s != [] && s[0] in chars then LStripChars(s[1..], chars) else s
  }

  /** A chapter heading: '# ' (level 1) or '## ' (level 0). */
  predicate ChapterHeading(line: string)
  {
    StartsWith(line, "# ") || StartsWith(line, "## ")
  }

  /** mdLine.split('# ')[1] of a chapter heading, which always has a second part. */
  function ChapterTitle(line: string): string
    requires ChapterHeading(line)
  {
    HeadingSplits(line);
    Split(line, "# ")[1]
  }

  lemma HeadingSplits(line: string)
    requires ChapterHeading(line)
    ensures |Split(line, "# ")| >= 2
  {
    if StartsWith(line, "# ") {
      assert line[0..][..2] == "# ";
      ContainsAt(line, "# ", 0);
    } else {
      assert line[1..][..2] == "# ";
      ContainsAt(line, "# ", 1);
    }
    match Find(line, "# ")
    case Some(k) =>
      assert Split(line, "# ") == [line[..k]] + Split(line[k + 2..], "# ");
  }

  /** The title of a '### ' heading: the line without its leading '#' and space characters, stripped. */
  function SectionTitle(line: string): string
  {
    Strip(LStripChars(line, "# "))
  }

  /** A new section under the open chapter; before any chapter it is in no chapter's list. */
  function SectionAdded(d: Draft, chId: Option<string>, id: string, title: string): (r: Draft)
    ensures r.chapters == d.chapters && r.sections == d.sections[id := NewSection(title)]
    ensures chId.Some? ==> r.kids == d.kids[chId.value := ChildrenOf(d.kids, chId.value) + [id]]
    ensures chId.None? ==> r.kids == d.kids
  {
    match chId
    case Some(c) => AddSection(d, c, id, title)
    case None => d.(sections := d.sections[id := NewSection(title)])
  }

  /** The description write before a heading and at the end of the file. */
  method WriteOpenDesc(d: Draft, scId: Option<string>, chId: Option<string>, lines: seq<string>) returns (r: Draft)
    requires scId.Some? ==> scId.value in d.sections
    requires chId.Some? ==> chId.value in d.chapters
    ensures r == Described(d, scId, chId, lines)
  {
    r := d;
    if scId.Some? {
      var text := WriteDesc(lines);
      r := d.(sections := d.sections[scId.value := WithSectionDesc(d.sections[scId.value], text)]);
    } else if chId.Some? {
      var text := WriteDesc(lines);
      r := d.(chapters := d.chapters[chId.value := WithChapterDesc(d.chapters[chId.value], text)]);
    }
  }

  /** The loop's variables: the novel so far, chId, scId, lines, chCount, scCount. */
  datatype OutlineState = OutlineState(draft: Draft, chId: Option<string>, scId: Option<string>,
                                       lines: seq<string>, chCount: nat, scCount: nat)

  /** The open section and the open chapter exist; chapter IDs are made for chapters. */
  predicate Inv(st: OutlineState)
  {
    && (st.scId.Some? ==> st.scId.value in st.draft.sections)
    && (st.chId.Some? ==> st.chId.value in st.draft.chapters && StartsWith(st.chId.value, CHAPTER_PREFIX))
  }

  function Start(d0: Draft): OutlineState
  {
    OutlineState(d0, None, None, [], 0, 0)
  }

  /**
   * One pass of the loop body. A section opened before any chapter is
   * appended to the tree under None; the tree is not part of this model
   * there, so such a section is in no chapter's list.
   */
  function Step(st: OutlineState, line: string, createId: IdMaker): (r: OutlineState)
    requires Inv(st) && MakesFreshIds(createId)
    ensures Inv(r)
  {
    if ChapterHeading(line) then
      var d := Described(st.draft, st.scId, st.chId, st.lines);
      var chId := createId(d.chapters.Keys, CHAPTER_PREFIX);
      st.(draft := AddChapter(d, chId, ChapterTitle(line), if StartsWith(line, "# ") then 1 else 0),
          chId := Some(chId), scId := None, lines := [], chCount := st.chCount + 1)
    else if StartsWith(line, "### ") then
      var d := Described(st.draft, st.scId, st.chId, st.lines);
      var scId := createId(d.sections.Keys, SECTION_PREFIX);
      st.(draft := SectionAdded(d, st.chId, scId, SectionTitle(line)), scId := Some(scId), lines := [],
          scCount := st.scCount + 1)
    else if line != "" || st.lines != [] then
      st.(lines := st.lines + [line])
    else st
  }

  function Fold(st0: OutlineState, lines: seq<string>, createId: IdMaker): (r: OutlineState)
    requires Inv(st0) && MakesFreshIds(createId)
    ensures Inv(r)
  {
    if lines == [] then st0
    else Step(Fold(st0, lines[..|lines| - 1], createId), lines[|lines| - 1], createId)
  }

  /**
   * A chapter heading writes the lines collected to what was open, adds a
   * chapter under a new ID at the end of the book (level 1 for '# ', 0 for
   * '## ') and starts collecting anew.
   */
  lemma ChapterHeadingStep(st: OutlineState, line: string, createId: IdMaker)
    requires Inv(st) && MakesFreshIds(createId) && ChapterHeading(line)
    ensures var r := Step(st, line, createId);
      var c := createId(st.draft.chapters.Keys, CHAPTER_PREFIX);
      && c !in st.draft.chapters && r.chId == Some(c) && r.scId.None? && r.lines == []
      && r.chCount == st.chCount + 1 && r.scCount == st.scCount
      && r.draft.sections == Described(st.draft, st.scId, st.chId, st.lines).sections
      && r.draft.chapters[c] == NewChapter(ChapterTitle(line), if StartsWith(line, "# ") then 1 else 0)
      && ChildrenOf(r.draft.kids, CH_ROOT) == ChildrenOf(st.draft.kids, CH_ROOT) + [c]
  {
  }

  /**
   * A section heading writes the lines collected to what was open and adds a
   * section under a new ID to the open chapter, titled by the heading.
   */
  lemma SectionHeadingStep(st: OutlineState, line: string, createId: IdMaker)
    requires Inv(st) && MakesFreshIds(createId) && !ChapterHeading(line) && StartsWith(line, "### ")
    ensures var r := Step(st, line, createId);
      var s := createId(st.draft.sections.Keys, SECTION_PREFIX);
      && s !in st.draft.sections && r.scId == Some(s) && r.chId == st.chId && r.lines == []
      && r.scCount == st.scCount + 1 && r.chCount == st.chCount
      && r.draft.chapters == Described(st.draft, st.scId, st.chId, st.lines).chapters
      && r.draft.sections[s] == NewSection(SectionTitle(line))
      && (st.chId.Some? ==> ChildrenOf(r.draft.kids, st.chId.value) == ChildrenOf(st.draft.kids, st.chId.value) + [s])
  {
  }

  /** A heading's text, already trimmed, is the section title as it stands. */
  lemma HeadingTitle(t: string)
    requires NoOuterSpace(t) && (t == [] || t[0] !in "# ")
    ensures SectionTitle("### " + t) == t
  {
    LStripPrefix("### ", t, "# ");
    StripOfTrimmed(t);
  }

  /** lstrip(chars) removes a prefix made of chars and stops at the first other character. */
  lemma {:induction false} LStripPrefix(p: string, t: string, chars: string)
    requires forall i :: 0 <= i < |p| ==> p[i] in chars
    requires t == [] || t[0] !in chars
    ensures LStripChars(p + t, chars) == t
  {
    if p != [] {
      assert (p + t)[1..] == p[1..] + t;
      LStripPrefix(p[1..], t, chars);
    }
  }

  /** A '### ' heading without text gives the empty title, not 'Section <n>'. */
  lemma EmptyHeadingTitle()
    ensures SectionTitle("### ") == ""
  {
    HeadingTitle("");
    assert "### " + "" == "### ";
  }

  /** Any other line is collected, except empty lines before the first. */
  lemma TextLineStep(st: OutlineState, line: string, createId: IdMaker)
    requires Inv(st) && MakesFreshIds(createId) && !ChapterHeading(line) && !StartsWith(line, "### ")
    ensures Step(st, line, createId) == if line == "" && st.lines == [] then st else st.(lines := st.lines + [line])
  {
  }

  /** The number of chapter headings among the lines. */
  function ChapterHeadings(lines: seq<string>): nat
  {
    if lines == [] then 0
    else ChapterHeadings(lines[..|lines| - 1]) + (if ChapterHeading(lines[|lines| - 1]) then 1 else 0)
  }

  /** Every chapter heading adds one chapter at the end of the book, in file order. */
  lemma {:induction false} ChapterCount(d0: Draft, lines: seq<string>, createId: IdMaker)
    requires MakesFreshIds(createId)
    ensures var r := Fold(Start(d0), lines, createId);
      && r.chCount == ChapterHeadings(lines)
      && |ChildrenOf(r.draft.kids, CH_ROOT)| == |ChildrenOf(d0.kids, CH_ROOT)| + ChapterHeadings(lines)
      && ChildrenOf(d0.kids, CH_ROOT) <= ChildrenOf(r.draft.kids, CH_ROOT)
  {
    if lines != [] {
      var prev := Fold(Start(d0), lines[..|lines| - 1], createId);
      ChapterCount(d0, lines[..|lines| - 1], createId);
      var line := lines[|lines| - 1];
      if ChapterHeading(line) {
        ChapterHeadingStep(prev, line, createId);
      } else if StartsWith(line, "### ") {
        SectionKeepsBook(prev, line, createId);
      } else {
        TextLineStep(prev, line, createId);
      }
    }
  }

  /** A section heading leaves the book's list of chapters as it was. */
  lemma SectionKeepsBook(st: OutlineState, line: string, createId: IdMaker)
    requires Inv(st) && MakesFreshIds(createId) && !ChapterHeading(line) && StartsWith(line, "### ")
    ensures var r := Step(st, line, createId);
      r.chCount == st.chCount && ChildrenOf(r.draft.kids, CH_ROOT) == ChildrenOf(st.draft.kids, CH_ROOT)
  {
    if st.chId.Some? {
      ChapterIdNotRoot(st.chId.value);
    }
  }

  /** Lines before the first heading change nothing: they are dropped at the first heading. */
  lemma {:induction false} PreambleDropped(d0: Draft, lines: seq<string>, createId: IdMaker)
    requires MakesFreshIds(createId)
    requires forall i :: 0 <= i < |lines| ==> !ChapterHeading(lines[i]) && !StartsWith(lines[i], "### ")
    ensures var r := Fold(Start(d0), lines, createId);
      r.draft == d0 && r.chId.None? && r.scId.None? && Described(r.draft, r.scId, r.chId, r.lines) == d0
  {
    if lines != [] {
      PreambleDropped(d0, lines[..|lines| - 1], createId);
    }
  }

  /** No line holds a newline. */
  predicate SingleLines(lines: seq<string>)
  {
    forall i :: 0 <= i < |lines| ==> '\n' !in lines[i]
  }

  /** The lines collected are lines of the file, so none holds a newline. */
  lemma {:induction false} CollectedLinesFree(st0: OutlineState, lines: seq<string>, createId: IdMaker)
    requires Inv(st0) && MakesFreshIds(createId)
    requires SingleLines(st0.lines) && SingleLines(lines)
    ensures SingleLines(Fold(st0, lines, createId).lines)
  {
    if lines != [] {
      var init := lines[..|lines| - 1];
      assert forall i :: 0 <= i < |init| ==> init[i] == lines[i];
      CollectedLinesFree(st0, init, createId);
      var prev := Fold(st0, init, createId);
      var line := lines[|lines| - 1];
      assert '\n' !in line;
      var r := Step(prev, line, createId);
      if r.lines != [] && r.lines != prev.lines {
        assert r.lines == prev.lines + [line];
      }
    }
  }

  /** The description read is the lines after the heading, concatenated. */
  lemma LastDescription(d0: Draft, text: string, createId: IdMaker)
    requires MakesFreshIds(createId)
    ensures var st := Fold(Start(d0), Split(text, "\n"), createId);
      DescText(st.lines) == Join("", st.lines)
  {
    SplitPartsFree(text, '\n');
    assert "\n" == ['\n'];
    assert SingleLines(Split(text, "\n"));
    CollectedLinesFree(Start(d0), Split(text, "\n"), createId);
    DescIsJoined(Fold(Start(d0), Split(text, "\n"), createId).lines);
  }

  /** read() on the file's text: the lines after the last heading go to what it opened. */
  function Outlined(d0: Draft, text: string, createId: IdMaker): Draft
    requires MakesFreshIds(createId)
  {
    var st := Fold(Start(d0), Split(text, "\n"), createId);
    Described(st.draft, st.scId, st.chId, st.lines)
  }

  /** MdOutline.read on the file's text. */
  method Read(d0: Draft, text: string, createId: IdMaker) returns (d: Draft)
    requires MakesFreshIds(createId)
    ensures d == Outlined(d0, text, createId)
  {
    var chCount, scCount := 0, 0;
    var lines: seq<string> := [];
    var chId: Option<string> := None;
    var scId: Option<string> := None;
    d := d0;
    var mdLines := Split(text, "\n");
    var i := 0;
    while i < |mdLines|
      invariant 0 <= i <= |mdLines|
      invariant Fold(Start(d0), mdLines[..i], createId) == OutlineState(d, chId, scId, lines, chCount, scCount)
    {
      TakeSnoc(mdLines, i);
      d, chId, scId, lines, chCount, scCount := ReadLine(d, chId, scId, lines, chCount, scCount, mdLines[i], createId);
      i := i + 1;
    }
    TakeAll(mdLines);
    d := WriteOpenDesc(d, scId, chId, lines);
  }

  /** One pass of read()'s loop: a chapter heading, a section heading or a line of text. */
  method ReadLine(d0: Draft, chId0: Option<string>, scId0: Option<string>, lines0: seq<string>,
                  chCount0: nat, scCount0: nat, mdLine: string, createId: IdMaker)
    returns (d: Draft, chId: Option<string>, scId: Option<string>, lines: seq<string>, chCount: nat, scCount: nat)
    requires Inv(OutlineState(d0, chId0, scId0, lines0, chCount0, scCount0)) && MakesFreshIds(createId)
    ensures var r := Step(OutlineState(d0, chId0, scId0, lines0, chCount0, scCount0), mdLine, createId);
      d == r.draft && chId == r.chId && scId == r.scId && lines == r.lines && chCount == r.chCount && scCount == r.scCount
  {
    if StartsWith(mdLine, "# ") || StartsWith(mdLine, "## ") {
      d, chId, scId, lines, chCount, scCount
        := ReadChapterHeading(d0, chId0, scId0, lines0, chCount0, scCount0, mdLine, createId);
    } else if StartsWith(mdLine, "### ") {
      d, chId, scId, lines, chCount, scCount
        := ReadSectionHeading(d0, chId0, scId0, lines0, chCount0, scCount0, mdLine, createId);
    } else {
      d, chId, scId, lines, chCount, scCount := d0, chId0, scId0, lines0, chCount0, scCount0;
      if mdLine != "" || lines != [] {
        lines := lines + [mdLine];
      }
    }
  }

  /** A chapter heading: the open element's description is written and a chapter opens. */
  method ReadChapterHeading(d0: Draft, chId0: Option<string>, scId0: Option<string>, lines0: seq<string>,
                            chCount0: nat, scCount0: nat, mdLine: string, createId: IdMaker)
    returns (d: Draft, chId: Option<string>, scId: Option<string>, lines: seq<string>, chCount: nat, scCount: nat)
    requires Inv(OutlineState(d0, chId0, scId0, lines0, chCount0, scCount0)) && MakesFreshIds(createId)
    requires ChapterHeading(mdLine)
    ensures var r := Step(OutlineState(d0, chId0, scId0, lines0, chCount0, scCount0), mdLine, createId);
      d == r.draft && chId == r.chId && scId == r.scId && lines == r.lines && chCount == r.chCount && scCount == r.scCount
  {
    var described := WriteOpenDesc(d0, scId0, chId0, lines0);
    scId := None;
    chCount := chCount0 + 1;
    scCount := scCount0;
    var newId := createId(described.chapters.Keys, CHAPTER_PREFIX);
    d := AddChapter(described, newId, ChapterTitle(mdLine), if StartsWith(mdLine, "# ") then 1 else 0);
    chId := Some(newId);
    lines := [];
  }

  /** A section heading: the open element's description is written and a section opens. */
  method ReadSectionHeading(d0: Draft, chId0: Option<string>, scId0: Option<string>, lines0: seq<string>,
                            chCount0: nat, scCount0: nat, mdLine: string, createId: IdMaker)
    returns (d: Draft, chId: Option<string>, scId: Option<string>, lines: seq<string>, chCount: nat, scCount: nat)
    requires Inv(OutlineState(d0, chId0, scId0, lines0, chCount0, scCount0)) && MakesFreshIds(createId)
    requires !ChapterHeading(mdLine) && StartsWith(mdLine, "### ")
    ensures var r := Step(OutlineState(d0, chId0, scId0, lines0, chCount0, scCount0), mdLine, createId);
      d == r.draft && chId == r.chId && scId == r.scId && lines == r.lines && chCount == r.chCount && scCount == r.scCount
  {
    var described := WriteOpenDesc(d0, scId0, chId0, lines0);
    var scTitle := SectionTitle(mdLine);
    lines := [];
    chId := chId0;
    chCount := chCount0;
    scCount := scCount0 + 1;
    var newId := createId(described.sections.Keys, SECTION_PREFIX);
    d := SectionAdded(described, chId, newId, scTitle);
    scId := Some(newId);
  }
}
