/**
 * FileExport (file_export.py): the template-based export every written file
 * format shares. The text is made of a file header, the chapters with their
 * sections, the characters, locations, items, plot lines and project notes,
 * and a file footer; each line is a template of string.Template filled from
 * a mapping of the element it shows.
 *
 * The loops of _get_chapters and _get_sections are stated on the lines they
 * collect (a Piece: the template and what it is filled for, with the numbers
 * the loops count); filling them in is a second step, over a Mapper that
 * gives each piece its mapping. The export reads the novel's values (a
 * Project) and changes nothing in it; write replaces the file over a store
 * of files, keeping a backup.
 */
module FileExports {
  import opened Wrappers
  import opened Strings
  import opened NvTrees
  import opened NovxGlobals
  import opened Sections
  import opened Elements
  import opened Novels
  import J = JsonFiles

  // ----- string.Template -----

  /** A piece of a template: literal text, or a $Name placeholder. */
  datatype Chunk = Lit(text: string) | Field(name: string)

  /** A template, parsed into its pieces; the empty template is the empty sequence. */
  type Template = seq<Chunk>

  /** A substitution mapping, each value as str() gives it. */
  type Mapping = map<string, string>

  function ChunkText(c: Chunk): string
  {
    match c
    case Lit(s) => s
    case Field(n) => "$" + n
  }

  /** The template as it is written. */
  function TemplateText(t: Template): string
  {
    if t == [] then "" else ChunkText(t[0]) + TemplateText(t[1..])
  }

  function ChunkValue(c: Chunk, m: Mapping): string
  {
    match c
    case Lit(s) => s
    case Field(n) => if n in m then m[n] else "$" + n
  }

  /** safe_substitute(mapping): each placeholder the mapping has is replaced by its value; any other stays as written. */
  function Substitute(t: Template, m: Mapping): string
  {
    if t == [] then "" else ChunkValue(t[0], m) + Substitute(t[1..], m)
  }

  /** Substituting from an empty mapping gives back the template's own text. */
  lemma {:induction false} SubstituteNothing(t: Template)
    ensures Substitute(t, map[]) == TemplateText(t)
  {
    if t != [] {
      SubstituteNothing(t[1..]);
    }
  }

  /** Substitution works piece by piece. */
  lemma {:induction false} SubstituteConcat(a: Template, b: Template, m: Mapping)
    ensures Substitute(a + b, m) == Substitute(a, m) + Substitute(b, m)
  {
    if a != [] {
      assert (a + b)[0] == a[0];
      assert (a + b)[1..] == a[1..] + b;
      SubstituteConcat(a[1..], b, m);
    } else {
      assert a + b == b;
    }
  }

  /** The placeholders of a template. */
  predicate HasFields(t: Template)
  {
    exists i :: 0 <= i < |t| && t[i].Field?
  }

  // ----- the templates of a file format -----

  /** The class attributes a format sets: its templates, the section divider and the headings. */
  datatype Templates = Templates(
    fileHeader: Template, partTemplate: Template, chapterTemplate: Template, unusedChapterTemplate: Template,
    sectionTemplate: Template, firstSectionTemplate: Template, unusedSectionTemplate: Template,
    stage1Template: Template, stage2Template: Template, sectionDivider: string,
    chapterEndTemplate: Template, unusedChapterEndTemplate: Template,
    characterSectionHeading: string, characterTemplate: Template,
    locationSectionHeading: string, locationTemplate: Template,
    itemSectionHeading: string, itemTemplate: Template,
    fileFooter: Template, projectNoteTemplate: Template, arcTemplate: Template)

  datatype ElementKind = CharacterKind | LocationKind | ItemKind | ArcKind | ProjectNoteKind

  /**
   * One line of the export before substitution: a text taken as it is (a
   * heading or the section divider), or a template with what it is filled
   * for. A chapter carries the number it shows (0 for none), a section the
   * number it shows, the word total so far and whether it comes first in
   * its chapter.
   */
  datatype Piece =
    | Verbatim(text: string)
    | FileHeader(t: Template)
    | FileFooter(t: Template)
    | ChapterPiece(t: Template, chId: string, number: int)
    | SectionPiece(t: Template, scId: string, number: int, wordsTotal: int, first: bool)
    | ElementPiece(kind: ElementKind, t: Template, id: string)

  /** The text of a KeyError for a missing key. */
  function KeyError(key: string): string
  {
    "'" + key + "'"
  }

  /** The text of the TypeError comparing None with a number raises. */
  function NoneCompared(op: string): string
  {
    "'" + op + "' not supported between instances of 'NoneType' and 'int'"
  }

  // ----- _get_sections -----

  /** The four ways _get_sections treats a section, checked in this order. */
  datatype SectionKind = Stage1 | Stage2 | UnusedSection | NormalSection

  function KindOf(scType: Option<int>, chapterUnused: bool): SectionKind
  {
    if scType == Some(2) then Stage1
    else if scType == Some(3) then Stage2
    else if scType == Some(1) || chapterUnused then UnusedSection
    else NormalSection
  }

  /** The template of a kind; a normal section first in its chapter takes the first-section template when there is one. */
  function KindTemplate(t: Templates, kind: SectionKind, first: bool): Template
  {
    match kind
    case Stage1 => t.stage1Template
    case Stage2 => t.stage2Template
    case UnusedSection => t.unusedSectionTemplate
    case NormalSection => if first && t.firstSectionTemplate != [] then t.firstSectionTemplate else t.sectionTemplate
  }

  /** Stages and unused sections are skipped when their template is empty; normal sections never are. */
  predicate KindShown(t: Templates, kind: SectionKind)
  {
    kind == NormalSection || KindTemplate(t, kind, false) != []
  }

  /** A section _get_sections numbers and adds to the word total: accepted, normal, in a chapter that is not unused. */
  predicate Counted(p: J.Project, accept: string -> bool, chapterUnused: bool, scId: string)
  {
    accept(scId) && scId in p.sections && KindOf(p.sections[scId].scType, chapterUnused) == NormalSection
  }

  /** A section that gets a line. */
  predicate Shown(t: Templates, p: J.Project, accept: string -> bool, chapterUnused: bool, scId: string)
  {
    accept(scId) && scId in p.sections && KindShown(t, KindOf(p.sections[scId].scType, chapterUnused))
  }

  /** The words a section adds to the total: its content's word count. */
  function Words(p: J.Project, scId: string): nat
    requires scId in p.sections
  {
    ContentWordCount(p.sections[scId].sectionContent)
  }

  /** A divider goes before a section unless it comes first in its chapter, is appended to the previous one, or is a stage. */
  predicate DividerBefore(first: bool, sc: SectionRec)
    requires sc.scType.Some?
  {
    !(first || sc.appendToPrev == Some(true) || sc.scType.value > 1)
  }

  /** The state the section loop carries: the lines, the section number, the word total and the first-in-chapter flag. */
  datatype SectionsState = SectionsState(lines: seq<Piece>, number: int, wordsTotal: int, first: bool)

  /** One pass of the loop of _get_sections. */
  function SectionStep(t: Templates, p: J.Project, accept: string -> bool, chapterUnused: bool,
                       scId: string, st: SectionsState): (r: Result<SectionsState>)
    ensures !accept(scId) ==> r == Ok(st)
    ensures r.Err? <==>
      accept(scId) && (scId !in p.sections || (Shown(t, p, accept, chapterUnused, scId) && p.sections[scId].scType.None?))
    ensures r.Ok? && !Shown(t, p, accept, chapterUnused, scId) ==> r.value == st
    ensures r.Ok? ==> r.value.number == st.number + (if Counted(p, accept, chapterUnused, scId) then 1 else 0)
    ensures r.Ok? ==>
      r.value.wordsTotal == st.wordsTotal + (if Counted(p, accept, chapterUnused, scId) then Words(p, scId) else 0)
    ensures r.Ok? && Shown(t, p, accept, chapterUnused, scId) ==>
      var sc := p.sections[scId];
      var piece := SectionPiece(KindTemplate(t, KindOf(sc.scType, chapterUnused), st.first), scId,
                                if Counted(p, accept, chapterUnused, scId) then st.number + 1 else 0,
                                r.value.wordsTotal, st.first);
      r.value.lines == st.lines + (if DividerBefore(st.first, sc) then [Verbatim(t.sectionDivider)] else []) + [piece]
      && (r.value.first <==> st.first && sc.scType.value > 1)
  {
    if !accept(scId) then Ok(st)
    else if scId !in p.sections then Err(KeyError(scId))
    else
      var sc := p.sections[scId];
      var kind := KindOf(sc.scType, chapterUnused);
      if !KindShown(t, kind) then Ok(st)
      else if sc.scType.None? then
        Err(if st.first || sc.appendToPrev == Some(true) then NoneCompared("<") else NoneCompared(">"))
      else
        var counted := kind == NormalSection;
        var number := if counted then st.number + 1 else st.number;
        var total := if counted then st.wordsTotal + ContentWordCount(sc.sectionContent) else st.wordsTotal;
        var divider := if DividerBefore(st.first, sc) then [Verbatim(t.sectionDivider)] else [];
        var piece := SectionPiece(KindTemplate(t, kind, st.first), scId, if counted then number else 0, total, st.first);
        Ok(SectionsState(st.lines + divider + [piece], number, total, st.first && sc.scType.value >= 2))
  }

  /** The loop of _get_sections over the sections ids, from the state st. */
  function SectionLines(t: Templates, p: J.Project, accept: string -> bool, chapterUnused: bool,
                    ids: seq<string>, st: SectionsState): Result<SectionsState>
  {
    if ids == [] then Ok(st)
    else
      var prev :- SectionLines(t, p, accept, chapterUnused, ids[..|ids| - 1], st);
      SectionStep(t, p, accept, chapterUnused, ids[|ids| - 1], prev)
  }

  /** The sections of ids the loop counts, in order. */
  function CountedIds(p: J.Project, accept: string -> bool, chapterUnused: bool, ids: seq<string>): (r: seq<string>)
    ensures forall s :: s in r ==> s in p.sections
  {
    if ids == [] then []
    else
      var rest := CountedIds(p, accept, chapterUnused, ids[..|ids| - 1]);
      var s := ids[|ids| - 1];
      if Counted(p, accept, chapterUnused, s) then rest + [s] else rest
  }

  /** The sections of ids that get a line, in order. */
  function ShownIds(t: Templates, p: J.Project, accept: string -> bool, chapterUnused: bool, ids: seq<string>): seq<string>
  {
    if ids == [] then []
    else
      var rest := ShownIds(t, p, accept, chapterUnused, ids[..|ids| - 1]);
      var s := ids[|ids| - 1];
      if Shown(t, p, accept, chapterUnused, s) then rest + [s] else rest
  }

  /** The words of the sections ids. */
  function WordsOf(p: J.Project, ids: seq<string>): int
    requires forall s :: s in ids ==> s in p.sections
  {
    if ids == [] then 0 else WordsOf(p, ids[..|ids| - 1]) + Words(p, ids[|ids| - 1])
  }

  /** The sections of the section lines among ps, in order. */
  function SectionIdsIn(ps: seq<Piece>): seq<string>
  {
    if ps == [] then []
    else SectionIdsIn(ps[..|ps| - 1]) + (if ps[|ps| - 1].SectionPiece? then [ps[|ps| - 1].scId] else [])
  }

  lemma {:induction false} SectionIdsInConcat(a: seq<Piece>, b: seq<Piece>)
    ensures SectionIdsIn(a + b) == SectionIdsIn(a) + SectionIdsIn(b)
    decreases |b|
  {
    if b != [] {
      assert (a + b)[..|a + b| - 1] == a + b[..|b| - 1];
      SectionIdsInConcat(a, b[..|b| - 1]);
    } else {
      assert a + b == a;
    }
  }

  /**
   * The section number grows by one for each counted section and the word
   * total by its words: only normal sections of chapters that are not unused
   * advance them, and both carry on from the state the loop starts with.
   */
  lemma {:induction false} SectionsCount(t: Templates, p: J.Project, accept: string -> bool, chapterUnused: bool,
                                         ids: seq<string>, st: SectionsState)
    requires SectionLines(t, p, accept, chapterUnused, ids, st).Ok?
    ensures var r := SectionLines(t, p, accept, chapterUnused, ids, st).value;
      var counted := CountedIds(p, accept, chapterUnused, ids);
      r.number == st.number + |counted| && r.wordsTotal == st.wordsTotal + WordsOf(p, counted)
  {
    if ids != [] {
      var init := ids[..|ids| - 1];
      SectionsCount(t, p, accept, chapterUnused, init, st);
      var s := ids[|ids| - 1];
      var c0 := CountedIds(p, accept, chapterUnused, init);
      if Counted(p, accept, chapterUnused, s) {
        assert (c0 + [s])[..|c0 + [s]| - 1] == c0;
      }
    }
  }

  /**
   * The lines the loop adds hold exactly the sections that are shown, in
   * their order: a rejected section, and a stage or unused section whose
   * template is empty, adds nothing.
   */
  lemma {:induction false} SectionsOrder(t: Templates, p: J.Project, accept: string -> bool, chapterUnused: bool,
                                         ids: seq<string>, st: SectionsState)
    requires SectionLines(t, p, accept, chapterUnused, ids, st).Ok?
    ensures var r := SectionLines(t, p, accept, chapterUnused, ids, st).value;
      |st.lines| <= |r.lines| && r.lines[..|st.lines|] == st.lines
      && SectionIdsIn(r.lines[|st.lines|..]) == ShownIds(t, p, accept, chapterUnused, ids)
  {
    if ids != [] {
      var init := ids[..|ids| - 1];
      SectionsOrder(t, p, accept, chapterUnused, init, st);
      var prev := SectionLines(t, p, accept, chapterUnused, init, st).value;
      var s := ids[|ids| - 1];
      StepLines(t, p, accept, chapterUnused, s, prev);
      var r := SectionStep(t, p, accept, chapterUnused, s, prev).value;
      PrefixChain(st.lines, prev.lines, r.lines);
      SectionIdsInConcat(prev.lines[|st.lines|..], r.lines[|prev.lines|..]);
    }
  }

  /** One pass of the loop appends to the lines, and what it appends holds the section exactly when it is shown. */
  lemma StepLines(t: Templates, p: J.Project, accept: string -> bool, chapterUnused: bool,
                  s: string, prev: SectionsState)
    requires SectionStep(t, p, accept, chapterUnused, s, prev).Ok?
    ensures var r := SectionStep(t, p, accept, chapterUnused, s, prev).value;
      |prev.lines| <= |r.lines| && r.lines[..|prev.lines|] == prev.lines
      && SectionIdsIn(r.lines[|prev.lines|..]) == if Shown(t, p, accept, chapterUnused, s) then [s] else []
  {
    var r := SectionStep(t, p, accept, chapterUnused, s, prev).value;
    if Shown(t, p, accept, chapterUnused, s) {
      var added := r.lines[|prev.lines|..];
      var sc := p.sections[s];
      if DividerBefore(prev.first, sc) {
        assert added == [Verbatim(t.sectionDivider)] + [added[1]];
        SectionIdsInConcat([Verbatim(t.sectionDivider)], [added[1]]);
        assert SectionIdsIn([Verbatim(t.sectionDivider)]) == [] by {
          assert [Verbatim(t.sectionDivider)][..0] == [];
        }
        assert SectionIdsIn([added[1]]) == [s] by {
          assert [added[1]][..0] == [];
        }
      } else {
        assert SectionIdsIn(added) == [s] by {
          assert added[..0] == [];
        }
      }
    } else {
      assert r.lines[|prev.lines|..] == [];
    }
  }

  /** A shown section that is a stage: its type is above 1. */
  predicate IsStage(p: J.Project, scId: string)
  {
    scId in p.sections && p.sections[scId].scType.Some? && p.sections[scId].scType.value > 1
  }

  /**
   * Only shown sections of type 0 or 1 end the chapter's first position:
   * skipped stages and unused sections, and shown stages, leave the flag
   * as it was.
   */
  lemma {:induction false} SectionsFirst(t: Templates, p: J.Project, accept: string -> bool, chapterUnused: bool,
                                         ids: seq<string>, st: SectionsState)
    requires SectionLines(t, p, accept, chapterUnused, ids, st).Ok?
    ensures SectionLines(t, p, accept, chapterUnused, ids, st).value.first <==>
      st.first && forall s :: s in ShownIds(t, p, accept, chapterUnused, ids) ==> IsStage(p, s)
  {
    if ids != [] {
      var init := ids[..|ids| - 1];
      SectionsFirst(t, p, accept, chapterUnused, init, st);
      ShownTyped(t, p, accept, chapterUnused, init, st);
      var s := ids[|ids| - 1];
      var rest := ShownIds(t, p, accept, chapterUnused, init);
      var prev := SectionLines(t, p, accept, chapterUnused, init, st).value;
      var r := SectionStep(t, p, accept, chapterUnused, s, prev);
      assert r == SectionLines(t, p, accept, chapterUnused, ids, st);
      if Shown(t, p, accept, chapterUnused, s) {
        assert r.value.first <==> prev.first && IsStage(p, s);
        assert forall x :: x in rest + [s] <==> x in rest || x == s;
      }
    }
  }

  /** The shown sections of a loop that succeeds all have a type. */
  lemma {:induction false} ShownTyped(t: Templates, p: J.Project, accept: string -> bool, chapterUnused: bool,
                                      ids: seq<string>, st: SectionsState)
    requires SectionLines(t, p, accept, chapterUnused, ids, st).Ok?
    ensures forall s :: s in ShownIds(t, p, accept, chapterUnused, ids) ==>
      s in p.sections && p.sections[s].scType.Some?
  {
    if ids != [] {
      ShownTyped(t, p, accept, chapterUnused, ids[..|ids| - 1], st);
    }
  }

  /** _get_sections: the loop over the sections of a chapter. */
  method GetSections(t: Templates, p: J.Project, accept: string -> bool, chapterUnused: bool,
                     ids: seq<string>, st0: SectionsState) returns (r: Result<SectionsState>)
    ensures r == SectionLines(t, p, accept, chapterUnused, ids, st0)
  {
    var st := st0;
    var i := 0;
    while i < |ids|
      invariant 0 <= i <= |ids|
      invariant SectionLines(t, p, accept, chapterUnused, ids[..i], st0) == Ok(st)
    {
      assert ids[..i + 1][..i] == ids[..i];
      var next := SectionStep(t, p, accept, chapterUnused, ids[i], st);
      if next.Err? {
        assert ids[..i + 1][..i] == ids[..i];
        SectionsFailLater(t, p, accept, chapterUnused, ids, i + 1, st0);
        return next;
      }
      st := next.value;
      i := i + 1;
    }
    assert ids[..i] == ids;
    r := Ok(st);
  }

  /** Once the loop fails on a prefix, it fails on the whole sequence, with the same error. */
  lemma {:induction false} SectionsFailLater(t: Templates, p: J.Project, accept: string -> bool, chapterUnused: bool,
                                             ids: seq<string>, k: nat, st: SectionsState)
    requires k <= |ids| && SectionLines(t, p, accept, chapterUnused, ids[..k], st).Err?
    ensures SectionLines(t, p, accept, chapterUnused, ids, st) == SectionLines(t, p, accept, chapterUnused, ids[..k], st)
    decreases |ids| - k
  {
    if k < |ids| {
      assert ids[..k + 1][..k] == ids[..k];
      SectionsFailLater(t, p, accept, chapterUnused, ids, k + 1, st);
    } else {
      assert ids[..k] == ids;
    }
  }

  // ----- _get_chapters -----

  /** The filters of an export, one per element kind; the base Filter accepts everything. */
  datatype Filters = Filters(chapter: string -> bool, section: string -> bool, character: string -> bool,
                             location: string -> bool, item: string -> bool, arc: string -> bool)

  /** What accepts every ID: the Filter base class. */
  function AcceptAll(): (f: Filters)
    ensures forall x :: f.chapter(x) && f.section(x) && f.character(x) && f.location(x) && f.item(x) && f.arc(x)
  {
    var yes := (x: string) => true;
    Filters(yes, yes, yes, yes, yes, yes)
  }

  /** The state the chapter loop carries: the lines, the chapter number and the section loop's counters. */
  datatype ChaptersState = ChaptersState(lines: seq<Piece>, chapterNumber: int, sectionNumber: int, wordsTotal: int)

  /** A chapter of type 1 (unused): its sections are all shown as unused. */
  predicate Unused(ch: ChapterRec)
  {
    ch.chType == Some(1)
  }

  /** A chapter that gets the next chapter number: neither unused nor a part with a part template. */
  predicate Numbered(t: Templates, ch: ChapterRec)
  {
    !Unused(ch) && !(ch.chLevel == Some(1) && t.partTemplate != [])
  }

  /** The heading line of a chapter, with the number it shows (0 for none). */
  function ChapterHead(t: Templates, ch: ChapterRec, chId: string, number: int): seq<Piece>
  {
    if Unused(ch) then (if t.unusedChapterTemplate != [] then [ChapterPiece(t.unusedChapterTemplate, chId, 0)] else [])
    else if ch.chLevel == Some(1) && t.partTemplate != [] then [ChapterPiece(t.partTemplate, chId, 0)]
    else [ChapterPiece(t.chapterTemplate, chId, number)]
  }

  /** The ending line of a chapter, when its kind has a non-empty ending template. */
  function ChapterEnd(t: Templates, ch: ChapterRec, chId: string, number: int): seq<Piece>
  {
    if Unused(ch) then (if t.unusedChapterEndTemplate != [] then [ChapterPiece(t.unusedChapterEndTemplate, chId, number)] else [])
    else if t.chapterEndTemplate != [] then [ChapterPiece(t.chapterEndTemplate, chId, number)]
    else []
  }

  /** The section loop a chapter starts: no lines yet, first in chapter, the counters carried on. */
  function ChapterSections(t: Templates, p: J.Project, f: Filters, ch: ChapterRec, chId: string, st: ChaptersState): Result<SectionsState>
  {
    SectionLines(t, p, f.section, Unused(ch), ChildrenOf(p.kids, chId), SectionsState([], st.sectionNumber, st.wordsTotal, true))
  }

  /** One pass of the loop of _get_chapters: the heading, the sections and the ending of an accepted chapter. */
  function ChapterStep(t: Templates, p: J.Project, f: Filters, chId: string, st: ChaptersState): (r: Result<ChaptersState>)
    ensures !f.chapter(chId) ==> r == Ok(st)
    ensures f.chapter(chId) && chId !in p.chapters ==> r == Err(KeyError(chId))
    ensures f.chapter(chId) && chId in p.chapters ==>
      var ch := p.chapters[chId];
      var number := if Numbered(t, ch) then st.chapterNumber + 1 else st.chapterNumber;
      var secs := ChapterSections(t, p, f, ch, chId, st);
      (r.Ok? <==> secs.Ok?)
      && (r.Ok? ==>
            r.value.chapterNumber == number
            && r.value.sectionNumber == secs.value.number && r.value.wordsTotal == secs.value.wordsTotal
            && var shown := if Numbered(t, ch) then number else 0;
            r.value.lines == st.lines + ChapterHead(t, ch, chId, shown) + secs.value.lines + ChapterEnd(t, ch, chId, shown))
  {
    if !f.chapter(chId) then Ok(st)
    else if chId !in p.chapters then Err(KeyError(chId))
    else
      var ch := p.chapters[chId];
      var number := if Numbered(t, ch) then st.chapterNumber + 1 else st.chapterNumber;
      var shown := if Numbered(t, ch) then number else 0;
      var secs :- ChapterSections(t, p, f, ch, chId, st);
      Ok(ChaptersState(st.lines + ChapterHead(t, ch, chId, shown) + secs.lines + ChapterEnd(t, ch, chId, shown),
                       number, secs.number, secs.wordsTotal))
  }

  /** The loop of _get_chapters over the chapter ids ids. */
  function ChapterLines(t: Templates, p: J.Project, f: Filters, ids: seq<string>, st: ChaptersState): Result<ChaptersState>
  {
    if ids == [] then Ok(st)
    else
      var prev :- ChapterLines(t, p, f, ids[..|ids| - 1], st);
      ChapterStep(t, p, f, ids[|ids| - 1], prev)
  }

  /** The chapters of ids that get a number, in order. */
  function NumberedIds(t: Templates, p: J.Project, f: Filters, ids: seq<string>): seq<string>
  {
    if ids == [] then []
    else
      var rest := NumberedIds(t, p, f, ids[..|ids| - 1]);
      var c := ids[|ids| - 1];
      if f.chapter(c) && c in p.chapters && Numbered(t, p.chapters[c]) then rest + [c] else rest
  }

  /** The sections the chapters of ids count, chapter by chapter. */
  function CountedInChapters(p: J.Project, f: Filters, ids: seq<string>): (r: seq<string>)
    ensures forall s :: s in r ==> s in p.sections
  {
    if ids == [] then []
    else
      var rest := CountedInChapters(p, f, ids[..|ids| - 1]);
      var c := ids[|ids| - 1];
      if f.chapter(c) && c in p.chapters then rest + CountedIds(p, f.section, Unused(p.chapters[c]), ChildrenOf(p.kids, c))
      else rest
  }

  lemma {:induction false} WordsOfConcat(p: J.Project, a: seq<string>, b: seq<string>)
    requires forall s :: s in a + b ==> s in p.sections
    ensures WordsOf(p, a + b) == WordsOf(p, a) + WordsOf(p, b)
    decreases |b|
  {
    if b == [] {
      assert a + b == a;
    } else {
      ConcatInit(a, b);
      WordsOfConcat(p, a, b[..|b| - 1]);
    }
  }

  /**
   * Chapter numbers count the numbered chapters; section numbers and the
   * word total run on across chapters, counting each chapter's counted
   * sections.
   */
  lemma {:induction false} ChaptersCount(t: Templates, p: J.Project, f: Filters, ids: seq<string>, st: ChaptersState)
    requires ChapterLines(t, p, f, ids, st).Ok?
    ensures var r := ChapterLines(t, p, f, ids, st).value;
      var counted := CountedInChapters(p, f, ids);
      r.chapterNumber == st.chapterNumber + |NumberedIds(t, p, f, ids)|
      && r.sectionNumber == st.sectionNumber + |counted|
      && r.wordsTotal == st.wordsTotal + WordsOf(p, counted)
  {
    if ids != [] {
      var init := ids[..|ids| - 1];
      ChaptersCount(t, p, f, init, st);
      var c := ids[|ids| - 1];
      var prev := ChapterLines(t, p, f, init, st).value;
      if f.chapter(c) && c in p.chapters {
        var ch := p.chapters[c];
        var kids := ChildrenOf(p.kids, c);
        var s0 := SectionsState([], prev.sectionNumber, prev.wordsTotal, true);
        SectionsCount(t, p, f.section, Unused(ch), kids, s0);
        var before := CountedInChapters(p, f, init);
        var here := CountedIds(p, f.section, Unused(ch), kids);
        WordsOfConcat(p, before, here);
      }
    }
  }

  /** _get_chapters: the loop over the chapters, each running the section loop. */
  method GetChapters(t: Templates, p: J.Project, f: Filters, ids: seq<string>) returns (r: Result<ChaptersState>)
    ensures r == ChapterLines(t, p, f, ids, ChaptersState([], 0, 0, 0))
  {
    var st0 := ChaptersState([], 0, 0, 0);
    var st := st0;
    var i := 0;
    while i < |ids|
      invariant 0 <= i <= |ids|
      invariant ChapterLines(t, p, f, ids[..i], st0) == Ok(st)
    {
      assert ids[..i + 1][..i] == ids[..i];
      var chId := ids[i];
      if f.chapter(chId) {
        if chId !in p.chapters {
          ChaptersFailLater(t, p, f, ids, i + 1, st0);
          return Err(KeyError(chId));
        }
        var ch := p.chapters[chId];
        var number := st.chapterNumber;
        var shown := 0;
        if Numbered(t, ch) {
          number := number + 1;
          shown := number;
        }
        var secs := GetSections(t, p, f.section, Unused(ch), ChildrenOf(p.kids, chId),
                                SectionsState([], st.sectionNumber, st.wordsTotal, true));
        if secs.Err? {
          ChaptersFailLater(t, p, f, ids, i + 1, st0);
          return Err(secs.error);
        }
        st := ChaptersState(st.lines + ChapterHead(t, ch, chId, shown) + secs.value.lines + ChapterEnd(t, ch, chId, shown),
                            number, secs.value.number, secs.value.wordsTotal);
      }
      i := i + 1;
    }
    assert ids[..i] == ids;
    r := Ok(st);
  }

  /** Once the chapter loop fails on a prefix, it fails on the whole sequence, with the same error. */
  lemma {:induction false} ChaptersFailLater(t: Templates, p: J.Project, f: Filters, ids: seq<string>, k: nat, st: ChaptersState)
    requires k <= |ids| && ChapterLines(t, p, f, ids[..k], st).Err?
    ensures ChapterLines(t, p, f, ids, st) == ChapterLines(t, p, f, ids[..k], st)
    decreases |ids| - k
  {
    if k < |ids| {
      assert ids[..k + 1][..k] == ids[..k];
      ChaptersFailLater(t, p, f, ids, k + 1, st);
    } else {
      assert ids[..k] == ids;
    }
  }

  // ----- characters, locations, items, plot lines, project notes -----

  /** The ids that pass accept, in order. */
  function Accepted(accept: string -> bool, ids: seq<string>): (r: seq<string>)
    ensures forall x :: x in r <==> x in ids && accept(x)
    ensures |r| <= |ids|
  {
    if ids == [] then []
    else
      var rest := Accepted(accept, ids[..|ids| - 1]);
      var x := ids[|ids| - 1];
      assert forall y :: y in ids <==> y in ids[..|ids| - 1] || y == x;
      if accept(x) then rest + [x] else rest
  }

  /** One line per id, the template filled for it. */
  function ElementPieces(kind: ElementKind, t: Template, ids: seq<string>): (r: seq<Piece>)
    ensures |r| == |ids| && forall i :: 0 <= i < |ids| ==> r[i] == ElementPiece(kind, t, ids[i])
  {
    seq(|ids|, i requires 0 <= i < |ids| => ElementPiece(kind, t, ids[i]))
  }

  /** The heading when there is one: an empty heading adds no line. */
  function Heading(heading: string): seq<Piece>
  {
    if heading != "" then [Verbatim(heading)] else []
  }

  /**
   * _get_characters, _get_locations, _get_items: the heading, then a line
   * for each element the filter accepts, in the tree's order.
   */
  function ElementLines(heading: string, kind: ElementKind, t: Template, accept: string -> bool, ids: seq<string>): seq<Piece>
  {
    Heading(heading) + ElementPieces(kind, t, Accepted(accept, ids))
  }

  /** The loop of _get_characters, _get_locations and _get_items. */
  method GetElements(heading: string, kind: ElementKind, t: Template, accept: string -> bool, ids: seq<string>)
      returns (lines: seq<Piece>)
    ensures lines == ElementLines(heading, kind, t, accept, ids)
  {
    var body: seq<Piece> := [];
    var i := 0;
    while i < |ids|
      invariant 0 <= i <= |ids|
      invariant body == ElementPieces(kind, t, Accepted(accept, ids[..i]))
    {
      AcceptedStep(accept, ids, i);
      if accept(ids[i]) {
        ElementPiecesSnoc(kind, t, Accepted(accept, ids[..i]), ids[i]);
        body := body + [ElementPiece(kind, t, ids[i])];
      }
      i := i + 1;
    }
    assert ids[..i] == ids;
    lines := Heading(heading) + body;
  }

  /** One more id: it is added at the end when accepted. */
  lemma AcceptedStep(accept: string -> bool, ids: seq<string>, i: nat)
    requires i < |ids|
    ensures Accepted(accept, ids[..i + 1]) == if accept(ids[i]) then Accepted(accept, ids[..i]) + [ids[i]] else Accepted(accept, ids[..i])
  {
    assert ids[..i + 1][..i] == ids[..i];
  }

  lemma ElementPiecesSnoc(kind: ElementKind, t: Template, ids: seq<string>, x: string)
    ensures ElementPieces(kind, t, ids + [x]) == ElementPieces(kind, t, ids) + [ElementPiece(kind, t, x)]
  {
  }

  /** The element lines hold a line for exactly the accepted ids. */
  lemma ElementLinesHold(heading: string, kind: ElementKind, t: Template, accept: string -> bool, ids: seq<string>)
    ensures forall x :: ElementPiece(kind, t, x) in ElementLines(heading, kind, t, accept, ids) <==> x in ids && accept(x)
  {
    var lines := ElementLines(heading, kind, t, accept, ids);
    var acc := Accepted(accept, ids);
    forall x
      ensures ElementPiece(kind, t, x) in lines <==> x in acc
    {
      if ElementPiece(kind, t, x) in lines {
        var j :| 0 <= j < |lines| && lines[j] == ElementPiece(kind, t, x);
        assert j >= |Heading(heading)|;
        assert acc[j - |Heading(heading)|] == x;
      }
      if x in acc {
        var j :| 0 <= j < |acc| && acc[j] == x;
        assert lines[|Heading(heading)| + j] == ElementPiece(kind, t, x);
      }
    }
  }

  /** _get_arcs: a line for each accepted plot line, and none at all when the arc template is empty. */
  function ArcLines(t: Templates, accept: string -> bool, ids: seq<string>): seq<Piece>
  {
    if t.arcTemplate != [] then ElementPieces(ArcKind, t.arcTemplate, Accepted(accept, ids)) else []
  }

  /** _get_projectNotes: a line for every project note; no filter applies. */
  function ProjectNoteLines(t: Templates, ids: seq<string>): seq<Piece>
  {
    ElementPieces(ProjectNoteKind, t.projectNoteTemplate, ids)
  }

  /** _get_text before substitution: the header, the chapters, the other elements and the footer, in this order. */
  function TextPieces(t: Templates, p: J.Project, f: Filters): Result<seq<Piece>>
  {
    var chapters :- ChapterLines(t, p, f, ChildrenOf(p.kids, CH_ROOT), ChaptersState([], 0, 0, 0));
    Ok(Assembled(t, p, f, chapters.lines))
  }

  /** The lines of the file around the chapter lines. */
  function Assembled(t: Templates, p: J.Project, f: Filters, chapters: seq<Piece>): seq<Piece>
  {
    [FileHeader(t.fileHeader)] + chapters
    + ElementLines(t.characterSectionHeading, CharacterKind, t.characterTemplate, f.character, ChildrenOf(p.kids, CR_ROOT))
    + ElementLines(t.locationSectionHeading, LocationKind, t.locationTemplate, f.location, ChildrenOf(p.kids, LC_ROOT))
    + ElementLines(t.itemSectionHeading, ItemKind, t.itemTemplate, f.item, ChildrenOf(p.kids, IT_ROOT))
    + ArcLines(t, f.arc, ChildrenOf(p.kids, PL_ROOT))
    + ProjectNoteLines(t, ChildrenOf(p.kids, PN_ROOT))
    + [FileFooter(t.fileFooter)]
  }

  /** _convert_from_novx of FileExport: None becomes ''; any other text is taken as it is. */
  function ConvertFromNovx(text: Option<string>): (r: string)
    ensures text.None? ==> r == ""
    ensures text.Some? ==> r == text.value
  {
    if text.None? then "" else text.value
  }

  // ----- parts of the mappings -----

  /** A number shown in a mapping: 0 shows as '' (no number). */
  function NumberText(n: int): (r: string)
    ensures r == "" <==> n == 0
  {
    if n == 0 then "" else IntToString(n)
  }

  /** The eight labels _get_renamings gives. */
  datatype Renamings = Renamings(plotProgress: string, characterization: string, worldBuilding: string,
                                 goal: string, conflict: string, outcome: string, chrBio: string, chrGoals: string)

  /** A custom label when it is set and non-empty, else the default. */
  function Label(custom: Option<string>, default: string): string
  {
    if Truthy(custom) then custom.value else default
  }

  /**
   * _get_renamings: each custom label of the novel, falling back to its
   * default when unset or empty; no label comes out empty.
   */
  function GetRenamings(n: NovelRec): (r: Renamings)
    ensures r.plotProgress != "" && r.characterization != "" && r.worldBuilding != "" && r.goal != ""
      && r.conflict != "" && r.outcome != "" && r.chrBio != "" && r.chrGoals != ""
    ensures Truthy(n.customGoal) ==> r.goal == n.customGoal.value
    ensures !Truthy(n.customGoal) ==> r.goal == "Opening"
    ensures Truthy(n.customChrBio) ==> r.chrBio == n.customChrBio.value
    ensures !Truthy(n.customChrBio) ==> r.chrBio == "Bio"
  {
    Renamings(Label(n.customPlotProgress, "Plot progress"), Label(n.customCharacterization, "Characterization"),
              Label(n.customWorldBuilding, "World building"), Label(n.customGoal, "Opening"),
              Label(n.customConflict, "Peak em. moment"), Label(n.customOutcome, "Ending"),
              Label(n.customChrBio, "Bio"), Label(n.customChrGoals, "Goals"))
  }

  /** Labels the novel customises are passed through unchanged; the rest are the defaults. */
  lemma RenamingsFallBack(n: NovelRec)
    requires !Truthy(n.customPlotProgress) && !Truthy(n.customCharacterization) && !Truthy(n.customWorldBuilding)
    requires !Truthy(n.customGoal) && !Truthy(n.customConflict) && !Truthy(n.customOutcome)
    requires !Truthy(n.customChrBio) && !Truthy(n.customChrGoals)
    ensures GetRenamings(n) == Renamings("Plot progress", "Characterization", "World building", "Opening",
                                         "Peak em. moment", "Ending", "Bio", "Goals")
  {
  }

  /** A duration value is shown unless it is None or '0'. */
  predicate DurationShown(v: Option<string>)
  {
    v.Some? && v.value != "0"
  }

  /** The LastsDays, LastsHours or LastsMinutes value of the mapping. */
  function DurationValue(v: Option<string>): string
  {
    if DurationShown(v) then v.value else ""
  }

  /** One part of the combined duration: the value and its unit, or nothing. */
  function DurationPart(v: Option<string>, unit: string): string
  {
    if DurationShown(v) then v.value + unit else ""
  }

  /** The Duration of the section mapping: 'Nd ', 'Nh ' and 'Nmin', each only when shown. */
  function Duration(sc: SectionRec): string
  {
    DurationPart(sc.lastsDays, "d ") + DurationPart(sc.lastsHours, "h ") + DurationPart(sc.lastsMinutes, "min")
  }

  /** The duration is empty exactly when every part is None or '0'. */
  lemma DurationEmpty(sc: SectionRec)
    ensures Duration(sc) == "" <==>
      !DurationShown(sc.lastsDays) && !DurationShown(sc.lastsHours) && !DurationShown(sc.lastsMinutes)
  {
    if DurationShown(sc.lastsDays) {
      assert |Duration(sc)| >= |DurationPart(sc.lastsDays, "d ")| >= 2;
    } else if DurationShown(sc.lastsHours) {
      assert |Duration(sc)| >= |DurationPart(sc.lastsHours, "h ")| >= 2;
    } else if DurationShown(sc.lastsMinutes) {
      assert |Duration(sc)| >= 3;
    }
  }

  /** The Time and OdsTime of the section mapping, from a time 'h:m:s'; other splits raise. */
  function TimeFields(time: Option<string>): (r: Result<(string, string)>)
    ensures time.None? ==> r == Ok(("", ""))
    ensures time.Some? ==> (r.Ok? <==> |Split(time.value, ":")| == 3)
  {
    match time
    case None => Ok(("", ""))
    case Some(t) =>
      var parts := Split(t, ":");
      if |parts| != 3 then Err("too many values to unpack (expected 3)")
      else Ok((parts[0] + ":" + parts[1], "PT" + parts[0] + "H" + parts[1] + "M" + parts[2] + "S"))
  }

  lemma {:induction false} FindCharAfter(a: string, c: char, rest: string)
    requires !Contains(a, [c])
    ensures Find(a + [c] + rest, [c]) == Some(|a|)
  {
    var s := a + [c] + rest;
    if a == [] {
      assert StartsWith(s, [c]);
    } else {
      assert !StartsWith(a, [c]);
      assert !StartsWith(s, [c]);
      assert s[1..] == a[1..] + [c] + rest;
      FindCharAfter(a[1..], c, rest);
    }
  }

  lemma SplitAtFirst(a: string, c: char, rest: string)
    requires !Contains(a, [c])
    ensures Split(a + [c] + rest, [c]) == [a] + Split(rest, [c])
  {
    var t := a + [c] + rest;
    FindCharAfter(a, c, rest);
    assert t[..|a|] == a;
    assert t[|a| + 1..] == rest;
  }

  /** A time written hours:minutes:seconds gives 'hours:minutes' and the ISO 8601 duration 'PThoursHminutesMsecondsS'. */
  lemma TimeOfClock(h: string, m: string, s: string)
    requires !Contains(h, ":") && !Contains(m, ":") && !Contains(s, ":")
    ensures TimeFields(Some(h + ":" + m + ":" + s)) == Ok((h + ":" + m, "PT" + h + "H" + m + "M" + s + "S"))
  {
    var t := h + ":" + m + ":" + s;
    assert t == h + [':'] + (m + [':'] + s);
    SplitAtFirst(h, ':', m + [':'] + s);
    SplitAtFirst(m, ':', s);
    assert Split(s, ":") == [s];
    assert Split(t, ":") == [h, m, s];
  }

  /** The titles of the listed characters, in order; an ID the novel does not hold raises KeyError. */
  function Titles(p: J.Project, ids: seq<string>): (r: Result<seq<Option<string>>>)
    ensures r.Ok? <==> forall i :: 0 <= i < |ids| ==> ids[i] in p.characters
    ensures r.Ok? ==> |r.value| == |ids| && forall i :: 0 <= i < |ids| ==> r.value[i] == p.characters[ids[i]].world.withTags.withNotes.basic.title
  {
    if ids == [] then Ok([])
    else if ids[0] !in p.characters then Err(KeyError(ids[0]))
    else
      var rest :- Titles(p, ids[1..]);
      Ok([p.characters[ids[0]].world.withTags.withNotes.basic.title] + rest)
  }

  /** The titles joined by ', ': joining a title that is None raises TypeError. */
  function JoinTitles(titles: seq<Option<string>>): (r: Result<string>)
    ensures r.Ok? <==> forall i :: 0 <= i < |titles| ==> titles[i].Some?
  {
    if forall i :: 0 <= i < |titles| ==> titles[i].Some? then
      Ok(Join(", ", seq(|titles|, i requires 0 <= i < |titles| => titles[i].value)))
    else Err("sequence item: expected str instance, NoneType found")
  }

  /** The Characters and Viewpoint of the section mapping: the titles joined, and the first title. */
  function CharacterFields(p: J.Project, sc: SectionRec): (r: Result<(string, string)>)
    ensures sc.characters.None? ==> r == Ok(("", ""))
    ensures sc.characters == Some([]) ==> r == Ok(("", ""))
  {
    match sc.characters
    case None => Ok(("", ""))
    case Some(ids) =>
      var titles :- Titles(p, ids);
      var joined :- JoinTitles(titles);
      Ok((joined, if titles == [] then "" else titles[0].value))
  }

  /** The viewpoint is the title of the first listed character; the others never affect it. */
  lemma Viewpoint(p: J.Project, sc: SectionRec)
    requires sc.characters.Some? && sc.characters.value != []
    requires CharacterFields(p, sc).Ok?
    ensures var vp := sc.characters.value[0];
      vp in p.characters && p.characters[vp].world.withTags.withNotes.basic.title.Some?
      && CharacterFields(p, sc).value.1 == p.characters[vp].world.withTags.withNotes.basic.title.value
  {
  }

  // ----- substitution -----

  /**
   * The mappings of the template methods (_get_fileHeaderMapping,
   * _get_chapterMapping, _get_sectionMapping and those of the other
   * elements); each can fail, e.g. on an ID the novel does not hold.
   */
  datatype Mapper = Mapper(
    header: Result<Mapping>,
    chapter: (string, int) -> Result<Mapping>,
    section: (string, int, int, bool) -> Result<Mapping>,
    element: (ElementKind, string) -> Result<Mapping>)

  /** The TypeError of indexing the footer's mapping, a list, with a placeholder's name. */
  const FOOTER_ERROR := "list indices must be integers or slices, not str"

  /** A line's text: its template filled from its mapping. */
  function Render(mp: Mapper, pc: Piece): Result<string>
  {
    match pc
    case Verbatim(s) => Ok(s)
    case FileHeader(t) => var m :- mp.header; Ok(Substitute(t, m))
    case FileFooter(t) => if HasFields(t) then Err(FOOTER_ERROR) else Ok(Substitute(t, map[]))
    case ChapterPiece(t, chId, n) => var m :- mp.chapter(chId, n); Ok(Substitute(t, m))
    case SectionPiece(t, scId, n, total, first) => var m :- mp.section(scId, n, total, first); Ok(Substitute(t, m))
    case ElementPiece(kind, t, id) => var m :- mp.element(kind, id); Ok(Substitute(t, m))
  }

  /** The footer is written as it stands when it has no placeholder, and fails to render when it has one. */
  lemma FooterText(mp: Mapper, t: Template)
    ensures Render(mp, FileFooter(t)) == if HasFields(t) then Err(FOOTER_ERROR) else Ok(TemplateText(t))
  {
    SubstituteNothing(t);
  }

  /** ''.join of the rendered lines; the first line that fails to render stops it. */
  function RenderAll(mp: Mapper, ps: seq<Piece>): Result<string>
  {
    if ps == [] then Ok("")
    else
      var prev :- RenderAll(mp, ps[..|ps| - 1]);
      var last :- Render(mp, ps[|ps| - 1]);
      Ok(prev + last)
  }

  /** The text renders exactly when every line does, and is then the lines' texts joined. */
  lemma {:induction false} RenderAllOk(mp: Mapper, ps: seq<Piece>)
    ensures RenderAll(mp, ps).Ok? <==> forall i :: 0 <= i < |ps| ==> Render(mp, ps[i]).Ok?
  {
    if ps != [] {
      var init := ps[..|ps| - 1];
      RenderAllOk(mp, init);
      assert forall i :: 0 <= i < |init| ==> init[i] == ps[i];
    }
  }

  /** Rendering works line by line: the text of a + b is the text of a followed by the text of b. */
  lemma {:induction false} RenderAllConcat(mp: Mapper, a: seq<Piece>, b: seq<Piece>)
    requires RenderAll(mp, a).Ok? && RenderAll(mp, b).Ok?
    ensures RenderAll(mp, a + b) == Ok(RenderAll(mp, a).value + RenderAll(mp, b).value)
    decreases |b|
  {
    var x := RenderAll(mp, a).value;
    if b == [] {
      assert a + b == a;
      assert x + "" == x;
    } else {
      var init := b[..|b| - 1];
      assert (a + b)[..|a + b| - 1] == a + init;
      assert (a + b)[|a + b| - 1] == b[|b| - 1];
      var y := RenderAll(mp, init).value;
      var z := Render(mp, b[|b| - 1]).value;
      RenderAllConcat(mp, a, init);
      assert RenderAll(mp, a + init) == Ok(x + y);
      assert RenderAll(mp, b) == Ok(y + z);
      assert RenderAll(mp, a + b) == Ok((x + y) + z);
      assert (x + y) + z == x + (y + z);
    }
  }

  /** _get_text: the text of the lines, or the first error met. */
  function Text(t: Templates, p: J.Project, f: Filters, mp: Mapper): Result<string>
  {
    var ps :- TextPieces(t, p, f);
    RenderAll(mp, ps)
  }

  /** The loop that renders the lines and joins them. */
  method RenderLines(mp: Mapper, ps: seq<Piece>) returns (r: Result<string>)
    ensures r == RenderAll(mp, ps)
  {
    var text := "";
    var i := 0;
    while i < |ps|
      invariant 0 <= i <= |ps|
      invariant RenderAll(mp, ps[..i]) == Ok(text)
    {
      assert ps[..i + 1][..i] == ps[..i];
      var line := Render(mp, ps[i]);
      if line.Err? {
        RenderFailsLater(mp, ps, i + 1);
        return Err(line.error);
      }
      text := text + line.value;
      i := i + 1;
    }
    assert ps[..i] == ps;
    r := Ok(text);
  }

  lemma {:induction false} RenderFailsLater(mp: Mapper, ps: seq<Piece>, k: nat)
    requires k <= |ps| && RenderAll(mp, ps[..k]).Err?
    ensures RenderAll(mp, ps) == RenderAll(mp, ps[..k])
    decreases |ps| - k
  {
    if k < |ps| {
      assert ps[..k + 1][..k] == ps[..k];
      RenderFailsLater(mp, ps, k + 1);
    } else {
      assert ps[..k] == ps;
    }
  }

  lemma AcceptedAll(ids: seq<string>)
    ensures Accepted((x: string) => true, ids) == ids
  {
    if ids != [] {
      AcceptedAll(ids[..|ids| - 1]);
      assert ids[..|ids| - 1] + [ids[|ids| - 1]] == ids;
    }
  }

  /** _get_text: the lines of each part in order, then their text. */
  method GetText(t: Templates, p: J.Project, f: Filters, mp: Mapper) returns (r: Result<string>)
    ensures r == Text(t, p, f, mp)
  {
    var chapters := GetChapters(t, p, f, ChildrenOf(p.kids, CH_ROOT));
    if chapters.Err? {
      return Err(chapters.error);
    }
    var characters := GetElements(t.characterSectionHeading, CharacterKind, t.characterTemplate, f.character, ChildrenOf(p.kids, CR_ROOT));
    var locations := GetElements(t.locationSectionHeading, LocationKind, t.locationTemplate, f.location, ChildrenOf(p.kids, LC_ROOT));
    var items := GetElements(t.itemSectionHeading, ItemKind, t.itemTemplate, f.item, ChildrenOf(p.kids, IT_ROOT));
    var arcs := [];
    if t.arcTemplate != [] {
      arcs := GetElements("", ArcKind, t.arcTemplate, f.arc, ChildrenOf(p.kids, PL_ROOT));
      assert arcs == [] + ArcLines(t, f.arc, ChildrenOf(p.kids, PL_ROOT));
    }
    assert arcs == ArcLines(t, f.arc, ChildrenOf(p.kids, PL_ROOT));
    var notes := GetElements("", ProjectNoteKind, t.projectNoteTemplate, (x: string) => true, ChildrenOf(p.kids, PN_ROOT));
    AcceptedAll(ChildrenOf(p.kids, PN_ROOT));
    assert notes == [] + ProjectNoteLines(t, ChildrenOf(p.kids, PN_ROOT));
    assert notes == ProjectNoteLines(t, ChildrenOf(p.kids, PN_ROOT));
    var ps := [FileHeader(t.fileHeader)] + chapters.value.lines + characters + locations + items + arcs + notes
              + [FileFooter(t.fileFooter)];
    assert ps == Assembled(t, p, f, chapters.value.lines);
    r := RenderLines(mp, ps);
  }

  // ----- write -----

  /** os.replace(src, dst): dst gets src's content, replacing what it held, and src is gone. */
  function Moved(files: map<string, string>, src: string, dst: string): (r: map<string, string>)
    requires src in files
    ensures dst in r && r[dst] == files[src]
    ensures src != dst ==> src !in r
    ensures forall x :: x != src && x != dst ==> (x in r <==> x in files) && (x in files ==> r[x] == files[x])
  {
    if src == dst then files else (files - {src})[dst := files[src]]
  }

  /** The files an export writes to, each path with its text. */
  class FileStore {
    var files: map<string, string>

    constructor(files: map<string, string>)
      ensures this.files == files
    {
      this.files := files;
    }

    /** os.replace, which fails when ok is false and then changes nothing. */
    method Replace(src: string, dst: string, ok: bool) returns (done: bool)
      requires src in files
      modifies this
      ensures done == ok
      ensures files == if ok then Moved(old(files), src, dst) else old(files)
    {
      if ok {
        files := Moved(files, src, dst);
      }
      done := ok;
    }

    /** open(path, 'w') and f.write(text), which fail when ok is false and then change nothing. */
    method WriteText(path: string, text: string, ok: bool) returns (done: bool)
      modifies this
      ensures done == ok
      ensures files == if ok then old(files)[path := text] else old(files)
    {
      if ok {
        files := files[path := text];
      }
      done := ok;
    }
  }

  function BackupPath(path: string): string
  {
    path + ".bak"
  }

  function OverwriteError(path: string): string
  {
    "Cannot overwrite file: \"" + path + "\"."
  }

  function WriteError(path: string): string
  {
    "Cannot write file: \"" + path + "\"."
  }

  /**
   * What write does to the files, given whether moving the old file to its
   * backup and writing the new one succeed: an existing file is moved to
   * path.bak first; when the write then fails, the backup is moved back.
   */
  function WriteOutcome(files: map<string, string>, path: string, text: Result<string>,
                        replaceOk: bool, writeOk: bool): (Result<()>, map<string, string>)
  {
    if text.Err? then (Err(text.error), files)
    else if path in files then
      if !replaceOk then (Err(OverwriteError(path)), files)
      else
        var moved := Moved(files, path, BackupPath(path));
        if writeOk then (Ok(()), moved[path := text.value])
        else (Err(WriteError(path)), Moved(moved, BackupPath(path), path))
    else if writeOk then (Ok(()), files[path := text.value])
    else (Err(WriteError(path)), files)
  }

  /** write succeeds exactly when the text is made, the file is written and, if it existed, its backup is made. */
  lemma WriteSucceeds(files: map<string, string>, path: string, text: Result<string>, replaceOk: bool, writeOk: bool)
    ensures WriteOutcome(files, path, text, replaceOk, writeOk).0.Ok? <==>
      text.Ok? && writeOk && (path in files ==> replaceOk)
  {
  }

  /**
   * A successful write leaves the new text at path and the old one, if
   * any, at path.bak; no other file changes.
   */
  lemma WrittenFiles(files: map<string, string>, path: string, text: Result<string>, replaceOk: bool, writeOk: bool)
    requires WriteOutcome(files, path, text, replaceOk, writeOk).0.Ok?
    ensures var r := WriteOutcome(files, path, text, replaceOk, writeOk).1;
      path in r && r[path] == text.value
      && (path in files ==> BackupPath(path) in r && r[BackupPath(path)] == files[path])
      && forall x :: x != path && x != BackupPath(path) ==> (x in r <==> x in files) && (x in r ==> r[x] == files[x])
  {
    assert path != BackupPath(path) by {
      assert |BackupPath(path)| == |path| + 4;
    }
  }

  /**
   * A failed write leaves the file at path as it was, or absent as it was,
   * and no other file changes, except that a backup made by an earlier
   * write is lost when the new backup was made and the write then failed.
   */
  lemma FailedWriteKeepsFiles(files: map<string, string>, path: string, text: Result<string>, replaceOk: bool, writeOk: bool)
    requires WriteOutcome(files, path, text, replaceOk, writeOk).0.Err?
    ensures var r := WriteOutcome(files, path, text, replaceOk, writeOk).1;
      (path in r <==> path in files) && (path in files ==> r[path] == files[path])
      && (forall x :: x != BackupPath(path) ==> (x in r <==> x in files) && (x in r ==> r[x] == files[x]))
      && (text.Ok? && path in files && replaceOk ==> BackupPath(path) !in r)
      && (text.Err? || path !in files || !replaceOk ==> r == files)
  {
    assert path != BackupPath(path) by {
      assert |BackupPath(path)| == |path| + 4;
    }
  }

  /** write: the text first, then the backup, then the file; a write that fails restores the backup. */
  method Write(store: FileStore, t: Templates, p: J.Project, f: Filters, mp: Mapper, path: string,
               replaceOk: bool, writeOk: bool) returns (r: Result<()>)
    modifies store
    ensures (r, store.files) == WriteOutcome(old(store.files), path, Text(t, p, f, mp), replaceOk, writeOk)
  {
    var text := GetText(t, p, f, mp);
    if text.Err? {
      return Err(text.error);
    }
    var backedUp := false;
    if path in store.files {
      var done := store.Replace(path, BackupPath(path), replaceOk);
      if !done {
        return Err(OverwriteError(path));
      }
      backedUp := true;
    }
    var written := store.WriteText(path, text.value, writeOk);
    if !written {
      if backedUp {
        assert BackupPath(path) in store.files;
        var _ := store.Replace(BackupPath(path), path, true);
      }
      return Err(WriteError(path));
    }
    r := Ok(());
  }
}
