/**
 * MdImport.read (md_import.py): a Markdown manuscript becomes chapters and
 * sections. A line starting with '#' opens a chapter, a line with the
 * scene divider closes the open section, and the first non-empty line after
 * either opens a section that collects the lines up to the next one.
 */
module MdImports {
  import opened Wrappers
  import opened Strings
  import opened NovxGlobals
  import opened Elements
  import opened Sections
  import opened NvTrees
  import opened MdDrafts
  import MdFiles

  /** Fewer words than this make a section an outline (status 1), else a draft (status 2). */
  const LOW_WORDCOUNT := 10

  /** What mdLine.split('# ')[1] raises for a heading without '# '. */
  const INDEX_ERROR := "list index out of range"

  /** Chapter() as created before its title is read. */
  const EMPTY_CHAPTER := ChapterRec(NotesRec(BasicRec(None, None, None), None), None, None, None, None)

  // ----- write_section_content -----

  /** Each collected line as a paragraph. */
  function Wrapped(lines: seq<string>): (r: seq<string>)
    ensures |r| == |lines|
  {
    seq(|lines|, i requires 0 <= i < |lines| => "<p>" + lines[i] + "</p>")
  }

  /** The section content: the paragraphs joined, newlines removed. */
  function ContentText(lines: seq<string>): string
  {
    Replace(Join("", Wrapped(lines)), "\n", "")
  }

  /** Status 1 (outline) below LOW_WORDCOUNT words, else 2 (draft). */
  function StatusOf(text: string): int
  {
    if ContentWordCount(Some(text)) < LOW_WORDCOUNT then 1 else 2
  }

  /** The draft after write_section_content(scId, lines). */
  function Written(d: Draft, scId: Option<string>, lines: seq<string>): (r: Draft)
    requires scId.Some? ==> scId.value in d.sections
    ensures r.chapters == d.chapters && r.kids == d.kids && r.sections.Keys == d.sections.Keys
    ensures scId.None? ==> r == d
    ensures scId.Some? ==> forall s :: s in d.sections && s != scId.value ==> r.sections[s] == d.sections[s]
    ensures scId.Some? ==>
              && r.sections[scId.value] == d.sections[scId.value].(sectionContent := Some(ContentText(lines)),
                                                                   status := r.sections[scId.value].status)
              && (r.sections[scId.value].status == Some(1) <==> ContentWordCount(Some(ContentText(lines))) < LOW_WORDCOUNT)
              && (r.sections[scId.value].status == Some(2) <==> ContentWordCount(Some(ContentText(lines))) >= LOW_WORDCOUNT)
  {
    match scId
    case None => d
    case Some(id) =>
      var text := ContentText(lines);
      d.(sections := d.sections[id := d.sections[id].(sectionContent := Some(text), status := Some(StatusOf(text)))])
  }

  /** write_section_content(scId, lines) */
  method WriteSectionContent(d: Draft, scId: Option<string>, lines: seq<string>) returns (r: Draft)
    requires scId.Some? ==> scId.value in d.sections
    ensures r == Written(d, scId, lines)
  {
    if scId.None? {
      return d;
    }
    var newlines: seq<string> := [];
    var i := 0;
    while i < |lines|
      invariant 0 <= i <= |lines|
      invariant newlines == Wrapped(lines[..i])
    {
      newlines := newlines + ["<p>" + lines[i] + "</p>"];
      i := i + 1;
    }
    assert lines[..i] == lines;
    var text := Join("", newlines);
    text := Replace(text, "\n", "");
    var sc := d.sections[scId.value].(sectionContent := Some(text));
    if ContentWordCount(sc.sectionContent) < LOW_WORDCOUNT {
      sc := sc.(status := Some(1));
    } else {
      sc := sc.(status := Some(2));
    }
    r := d.(sections := d.sections[scId.value := sc]);
  }

  /** A line without newline becomes exactly one paragraph, in front of the others; an empty one gives '<p></p>'. */
  lemma ContentCons(line: string, rest: seq<string>)
    requires '\n' !in line
    ensures ContentText([line] + rest) == "<p>" + line + "</p>" + ContentText(rest)
  {
    var p := "<p>" + line + "</p>";
    assert '\n' !in p;
    var w := Wrapped([line] + rest);
    assert w == [p] + Wrapped(rest);
    if rest == [] {
      assert Join("", w) == p + "";
      MdFiles.ReplaceLine(p, "", "\n", "");
    } else {
      assert w[1..] == Wrapped(rest);
      assert Join("", w) == p + (Join("", Wrapped(rest)));
      MdFiles.ReplaceLine(p, Join("", Wrapped(rest)), "\n", "");
    }
  }

  // ----- the line loop -----

  /** The variables of the loop: the novel written so far, chId, scId, lines, chCount, scCount, and the error raised. */
  datatype ImportState = ImportState(draft: Draft, chId: Option<string>, scId: Option<string>, lines: seq<string>,
                                     chCount: nat, scCount: nat, error: Option<string>)

  /** The open section exists and the open chapter's ID was made for a chapter. */
  predicate Inv(st: ImportState)
  {
    && (st.scId.Some? ==> st.scId.value in st.draft.sections)
    && (st.chId.Some? ==> StartsWith(st.chId.value, CHAPTER_PREFIX))
  }

  function Start(d0: Draft): ImportState
  {
    ImportState(d0, None, None, [], 0, 0, None)
  }

  /** mdLine.split('# ')[1]: the title between the first '# ' and the next; None where Python raises. */
  function ChapterTitle(line: string): Option<string>
  {
    var parts := Split(line, "# ");
    if |parts| >= 2 then Some(parts[1]) else None
  }

  /** One pass of the loop body on mdLine. */
  function Step(st: ImportState, line: string, createId: IdMaker): (r: ImportState)
    requires Inv(st) && st.error.None? && MakesFreshIds(createId)
    ensures Inv(r)
  {
    if StartsWith(line, "#") then
      var d := Written(st.draft, st.scId, st.lines);
      var chId := createId(d.chapters.Keys, CHAPTER_PREFIX);
      match ChapterTitle(line)
      case None =>
        st.(draft := d.(chapters := d.chapters[chId := EMPTY_CHAPTER]), chId := Some(chId), scId := None,
            chCount := st.chCount + 1, error := Some(INDEX_ERROR))
      case Some(title) =>
        st.(draft := AddChapter(d, chId, title, if StartsWith(line, "# ") then 1 else 0),
            chId := Some(chId), scId := None, chCount := st.chCount + 1)
    else if Contains(line, MdFiles.SECTION_DIVIDER) then
      st.(draft := Written(st.draft, st.scId, st.lines), scId := None)
    else if st.scId.Some? then
      if line != "" || st.lines != [] then st.(lines := st.lines + [line]) else st
    else if line != "" && st.chId.Some? then
      var scId := createId(st.draft.sections.Keys, SECTION_PREFIX);
      st.(draft := AddSection(st.draft, st.chId.value, scId, "Section " + IntToString(st.scCount + 1)),
          scId := Some(scId), lines := [line], scCount := st.scCount + 1)
    else st
  }

  /** The loop over the lines; it stops at the first error. */
  function Fold(st0: ImportState, lines: seq<string>, createId: IdMaker): (r: ImportState)
    requires Inv(st0) && st0.error.None? && MakesFreshIds(createId)
    ensures Inv(r)
  {
    if lines == [] then st0
    else
      var prev := Fold(st0, lines[..|lines| - 1], createId);
      if prev.error.Some? then prev else Step(prev, lines[|lines| - 1], createId)
  }

  /** After the loop the open section is written, unless the loop raised. */
  function Finish(st: ImportState): Draft
    requires Inv(st)
  {
    if st.error.Some? then st.draft else Written(st.draft, st.scId, st.lines)
  }

  /** read() on the file's text: the novel afterwards and the error raised, if any. */
  function Imported(d0: Draft, text: string, createId: IdMaker): (Draft, Option<string>)
    requires MakesFreshIds(createId)
  {
    var st := Fold(Start(d0), Split(text, "\n"), createId);
    (Finish(st), st.error)
  }

  /** split('# ') has a second part exactly when the line contains '# '. */
  lemma TitleFound(line: string)
    ensures ChapterTitle(line).Some? <==> Contains(line, "# ")
  {
    var parts := Split(line, "# ");
    match Find(line, "# ")
    case None =>
      assert parts == [line];
    case Some(k) =>
      assert parts == [line[..k]] + Split(line[k + 2..], "# ");
  }

  /**
   * A heading writes the open section, closes it and adds a chapter under a
   * new ID at the end of the book: level 1 for '# ', 0 otherwise. Without
   * '# ' the title cannot be read: the empty chapter stays and the read
   * fails. The collected lines and the section count are kept.
   */
  lemma HeadingStep(st: ImportState, line: string, createId: IdMaker)
    requires Inv(st) && st.error.None? && MakesFreshIds(createId)
    requires StartsWith(line, "#")
    ensures var r := Step(st, line, createId);
      var c := createId(st.draft.chapters.Keys, CHAPTER_PREFIX);
      && c !in st.draft.chapters && r.chId == Some(c) && r.scId.None?
      && r.draft.sections == Written(st.draft, st.scId, st.lines).sections
      && r.lines == st.lines && r.scCount == st.scCount && r.chCount == st.chCount + 1
      && (r.error.None? <==> Contains(line, "# "))
      && (r.error.Some? ==> r.error == Some(INDEX_ERROR) && r.draft.chapters == st.draft.chapters[c := EMPTY_CHAPTER])
      && (r.error.None? ==>
            && r.draft.chapters == st.draft.chapters[c := NewChapter(ChapterTitle(line).value,
                                                                      if StartsWith(line, "# ") then 1 else 0)]
            && ChildrenOf(r.draft.kids, CH_ROOT) == ChildrenOf(st.draft.kids, CH_ROOT) + [c])
  {
    TitleFound(line);
  }

  /** A divider line writes the open section and closes it; nothing else changes. */
  lemma DividerStep(st: ImportState, line: string, createId: IdMaker)
    requires Inv(st) && st.error.None? && MakesFreshIds(createId)
    requires !StartsWith(line, "#") && Contains(line, MdFiles.SECTION_DIVIDER)
    ensures Step(st, line, createId) == st.(draft := Written(st.draft, st.scId, st.lines), scId := None)
  {
  }

  /** Inside a section every line is collected, empty ones too, except empty lines before the first. */
  lemma CollectStep(st: ImportState, line: string, createId: IdMaker)
    requires Inv(st) && st.error.None? && MakesFreshIds(createId)
    requires !StartsWith(line, "#") && !Contains(line, MdFiles.SECTION_DIVIDER) && st.scId.Some?
    ensures Step(st, line, createId).draft == st.draft
    ensures Step(st, line, createId).lines == if line == "" && st.lines == [] then [] else st.lines + [line]
  {
  }

  /**
   * Outside a section, a non-empty line in a chapter opens a new section
   * there, titled by the section count over the whole file, and starts its
   * lines; any other line is dropped.
   */
  lemma OpenSectionStep(st: ImportState, line: string, createId: IdMaker)
    requires Inv(st) && st.error.None? && MakesFreshIds(createId)
    requires !StartsWith(line, "#") && !Contains(line, MdFiles.SECTION_DIVIDER) && st.scId.None?
    ensures var r := Step(st, line, createId);
      var c := createId(st.draft.sections.Keys, SECTION_PREFIX);
      if line != "" && st.chId.Some? then
        && c !in st.draft.sections && r.scId == Some(c) && r.lines == [line] && r.scCount == st.scCount + 1
        && r.draft.sections == st.draft.sections[c := NewSection("Section " + IntToString(st.scCount + 1))]
        && ChildrenOf(r.draft.kids, st.chId.value) == ChildrenOf(st.draft.kids, st.chId.value) + [c]
      else r == st
  {
  }

  /** Text before the first heading is dropped: without a chapter no section opens. */
  lemma {:induction false} PreambleIgnored(d0: Draft, lines: seq<string>, createId: IdMaker)
    requires MakesFreshIds(createId)
    requires forall i :: 0 <= i < |lines| ==> !StartsWith(lines[i], "#")
    ensures Fold(Start(d0), lines, createId) == Start(d0)
  {
    if lines != [] {
      PreambleIgnored(d0, lines[..|lines| - 1], createId);
    }
  }

  /**
   * Every line starting with '#' adds one chapter at the end of the book, in
   * file order, as long as the read does not fail.
   */
  lemma {:induction false} ChapterCount(d0: Draft, lines: seq<string>, createId: IdMaker)
    requires MakesFreshIds(createId)
    requires Fold(Start(d0), lines, createId).error.None?
    ensures var r := Fold(Start(d0), lines, createId);
      && r.chCount == CountStarting(lines, "#")
      && |ChildrenOf(r.draft.kids, CH_ROOT)| == |ChildrenOf(d0.kids, CH_ROOT)| + CountStarting(lines, "#")
      && ChildrenOf(d0.kids, CH_ROOT) <= ChildrenOf(r.draft.kids, CH_ROOT)
  {
    if lines != [] {
      var init := lines[..|lines| - 1];
      var prev := Fold(Start(d0), init, createId);
      var line := lines[|lines| - 1];
      ChapterCount(d0, init, createId);
      TitleFound(line);
      if !StartsWith(line, "#") && !Contains(line, MdFiles.SECTION_DIVIDER) && prev.scId.None?
         && line != "" && prev.chId.Some? {
        ChapterIdNotRoot(prev.chId.value);
      }
    }
  }

  /** Once the loop has raised, later lines change nothing. */
  lemma {:induction false} FoldStops(st0: ImportState, lines: seq<string>, k: nat, createId: IdMaker)
    requires Inv(st0) && st0.error.None? && MakesFreshIds(createId)
    requires k <= |lines| && Fold(st0, lines[..k], createId).error.Some?
    ensures Fold(st0, lines, createId) == Fold(st0, lines[..k], createId)
  {
    if k < |lines| {
      assert lines[..|lines| - 1][..k] == lines[..k];
      FoldStops(st0, lines[..|lines| - 1], k, createId);
    } else {
      assert lines[..k] == lines;
    }
  }

  /** One pass of read()'s loop body on mdLine, on the loop's variables. */
  method ReadLine(st: ImportState, mdLine: string, createId: IdMaker) returns (r: ImportState)
    requires Inv(st) && st.error.None? && MakesFreshIds(createId)
    ensures r == Step(st, mdLine, createId)
  {
    var d, chId, scId, lines, chCount, scCount := st.draft, st.chId, st.scId, st.lines, st.chCount, st.scCount;
    if StartsWith(mdLine, "#") {
      d := WriteSectionContent(d, scId, lines);
      scId := None;
      chCount := chCount + 1;
      var newId := createId(d.chapters.Keys, CHAPTER_PREFIX);
      chId := Some(newId);
      var parts := Split(mdLine, "# ");
      if |parts| < 2 {
        d := d.(chapters := d.chapters[newId := EMPTY_CHAPTER]);
        return ImportState(d, chId, scId, lines, chCount, scCount, Some(INDEX_ERROR));
      }
      d := AddChapter(d, newId, parts[1], if StartsWith(mdLine, "# ") then 1 else 0);
    } else if Contains(mdLine, MdFiles.SECTION_DIVIDER) {
      d := WriteSectionContent(d, scId, lines);
      scId := None;
    } else if scId.Some? {
      if mdLine != "" || lines != [] {
        lines := lines + [mdLine];
      }
    } else if mdLine != "" && chId.Some? {
      scCount := scCount + 1;
      var newId := createId(d.sections.Keys, SECTION_PREFIX);
      d := AddSection(d, chId.value, newId, "Section " + IntToString(scCount));
      scId := Some(newId);
      lines := [mdLine];
    }
    r := ImportState(d, chId, scId, lines, chCount, scCount, None);
  }

  /** MdImport.read on the file's text. */
  method Read(d0: Draft, text: string, createId: IdMaker) returns (d: Draft, error: Option<string>)
    requires MakesFreshIds(createId)
    ensures (d, error) == Imported(d0, text, createId)
  {
    var st := Start(d0);
    var mdLines := Split(text, "\n");
    var i := 0;
    while i < |mdLines|
      invariant 0 <= i <= |mdLines|
      invariant st.error.None? && Fold(Start(d0), mdLines[..i], createId) == st
    {
      assert mdLines[..i + 1][..i] == mdLines[..i];
      st := ReadLine(st, mdLines[i], createId);
      if st.error.Some? {
        FoldStops(Start(d0), mdLines, i + 1, createId);
        return st.draft, st.error;
      }
      i := i + 1;
    }
    assert mdLines[..i] == mdLines;
    d := WriteSectionContent(st.draft, st.scId, st.lines);
    error := None;
  }
}
