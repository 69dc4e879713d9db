/**
 * MdnovFile (mdnov_file.py): the .mdnov project file. It is written through
 * the template export: every element becomes a block that starts with
 * '@@' and its ID, holds the element's YAML metadata between '---' lines
 * and ends with its texts, each as a '%%Key:' field. The class also keeps
 * the daily word count log with the counts as decimal strings.
 */
module MdnovFiles {
  import opened Wrappers
  import opened Strings
  import opened OrderedMaps
  import opened NovxGlobals
  import opened Elements
  import opened Sections
  import opened Novels
  import opened NvTrees
  import opened ProjectRules
  import J = JsonFiles
  import FX = FileExports
  import PrjFiles
  import Calendar

  // ----- text fields -----

  /**
   * _add_key: a text field '%%Key:', a blank line, the stripped text and a
   * blank line; nothing at all when the key or the text is empty or None.
   */
  function AddKey(text: Option<string>, key: string): (r: string)
    ensures r == "" <==> key == "" || !Truthy(text)
    ensures r != "" ==> StartsWith(r, "%%" + key + ":\n\n") && EndsWith(r, "\n\n")
  {
    if key == "" || !Truthy(text) then ""
    else "%%" + key + ":\n\n" + Strip(text.value) + "\n\n"
  }

  /** The text before the first c, or all of s when there is none. */
  function UpTo(s: string, c: char): (r: string)
    ensures c !in r && |r| <= |s| && r == s[..|r|]
  {
    if s == [] || s[0] == c then [] else [s[0]] + UpTo(s[1..], c)
  }

  lemma {:induction false} UpToSeparator(a: string, c: char, rest: string)
    requires c !in a && rest != [] && rest[0] == c
    ensures UpTo(a + rest, c) == a
  {
    if a != [] {
      assert (a + rest)[1..] == a[1..] + rest;
      UpToSeparator(a[1..], c, rest);
    } else {
      assert a + rest == rest;
    }
  }

  /** The key a text field names: what follows '%%' up to the first ':'. */
  function FieldKey(field: string): string
  {
    if |field| < 2 then "" else UpTo(field[2..], ':')
  }

  /** The text a field holds: what lies between '%%Key:' with its blank line and the closing blank line. */
  function FieldText(field: string): string
  {
    var start := |FieldKey(field)| + 5;
    if start <= |field| - 2 then field[start..|field| - 2] else ""
  }

  /** A field gives back its key, which holds no ':', and the stripped text, which has no outer whitespace. */
  lemma FieldRoundTrip(text: Option<string>, key: string)
    requires key != "" && ':' !in key && Truthy(text)
    ensures FieldKey(AddKey(text, key)) == key
    ensures FieldText(AddKey(text, key)) == Strip(text.value) && NoOuterSpace(FieldText(AddKey(text, key)))
  {
    var body := Strip(text.value);
    var r := AddKey(text, key);
    var tail := ":\n\n" + body + "\n\n";
    AppendFour("%%", key, ":\n\n", body, "\n\n");
    MiddleSlice("%%", key + tail, []);
    AppendThree(key, ":\n\n", body, "\n\n");
    UpToSeparator(key, ':', tail);
    MiddleSlice("%%" + key + ":\n\n", body, "\n\n");
  }

  // ----- YAML metadata -----

  /** _add_yaml: the element's to_yaml lines joined by newlines. */
  function YamlText(lines: seq<string>): (r: string)
    ensures lines == [] ==> r == ""
    ensures |lines| == 1 ==> r == lines[0]
  {
    Join("\n", lines)
  }

  // ----- the block templates -----

  /** What follows the ID of a block up to its metadata: a line of four spaces and the opening '---'. */
  const BLOCK_OPEN := "\n    \n---\n"
  /** What closes a block's metadata: the closing '---' and a blank line. */
  const BLOCK_CLOSE := "\n---\n\n"

  /** One placeholder per field name, in order. */
  function FieldChunks(fields: seq<string>): (r: FX.Template)
    ensures |r| == |fields|
  {
    if fields == [] then [] else [FX.Field(fields[0])] + FieldChunks(fields[1..])
  }

  /** '@@$ID' and the metadata block. */
  function BlockHead(): FX.Template
  {
    [FX.Lit("@@")] + ([FX.Field("ID")] + ([FX.Lit(BLOCK_OPEN)] + ([FX.Field("YAML")] + [FX.Lit(BLOCK_CLOSE)])))
  }

  /** The block head, the text fields named and a closing newline. */
  function Block(fields: seq<string>): FX.Template
  {
    BlockHead() + FieldChunks(fields) + [FX.Lit("\n")]
  }

  /** A block as written: the ID, the metadata, the text fields and a newline. */
  function BlockValue(id: string, yaml: string, body: string): string
  {
    "@@" + id + BLOCK_OPEN + yaml + BLOCK_CLOSE + body + "\n"
  }

  const CHAPTER_FIELDS := ["Desc", "Notes"]
  const SECTION_FIELDS := ["Desc", "Notes", "Goal", "Conflict", "Outcome", "SectionContent"]
  const CHARACTER_FIELDS := ["Desc", "Bio", "Goals"]
  const LOCATION_FIELDS := ["Desc"]

  /** The file header: the book's block, without text fields, and two more newlines. */
  function HeaderTemplate(): FX.Template
  {
    [FX.Lit("@@book" + BLOCK_OPEN), FX.Field("YAML"), FX.Lit("\n---\n\n\n")]
  }

  /**
   * The templates of MdnovFile: parts, chapters and unused chapters share
   * the chapter block; sections, unused sections and stages share the
   * section block; items and project notes use the location block and plot
   * lines a block of the same shape. There is no divider, heading, chapter
   * end or footer.
   */
  function MdnovTemplates(): (t: FX.Templates)
    ensures t.arcTemplate != [] && t.sectionDivider == "" && t.fileFooter == []
  {
    var chapter := Block(CHAPTER_FIELDS);
    var section := Block(SECTION_FIELDS);
    var location := Block(LOCATION_FIELDS);
    FX.Templates(
      fileHeader := HeaderTemplate(), partTemplate := chapter, chapterTemplate := chapter,
      unusedChapterTemplate := chapter, sectionTemplate := section, firstSectionTemplate := [],
      unusedSectionTemplate := section, stage1Template := section, stage2Template := section,
      sectionDivider := "", chapterEndTemplate := [], unusedChapterEndTemplate := [],
      characterSectionHeading := "", characterTemplate := Block(CHARACTER_FIELDS),
      locationSectionHeading := "", locationTemplate := location,
      itemSectionHeading := "", itemTemplate := location,
      fileFooter := [], projectNoteTemplate := location, arcTemplate := Block(LOCATION_FIELDS))
  }

  /** The values of the named fields, one after the other. */
  function FieldsText(fields: seq<string>, m: FX.Mapping): string
    requires forall f :: f in fields ==> f in m
  {
    if fields == [] then "" else m[fields[0]] + FieldsText(fields[1..], m)
  }

  lemma SubstituteCons(c: FX.Chunk, t: FX.Template, m: FX.Mapping)
    ensures FX.Substitute([c] + t, m) == FX.ChunkValue(c, m) + FX.Substitute(t, m)
  {
    assert ([c] + t)[1..] == t;
  }

  lemma {:induction false} FieldChunksText(fields: seq<string>, m: FX.Mapping)
    requires forall f :: f in fields ==> f in m
    ensures FX.Substitute(FieldChunks(fields), m) == FieldsText(fields, m)
  {
    if fields != [] {
      SubstituteCons(FX.Field(fields[0]), FieldChunks(fields[1..]), m);
      FieldChunksText(fields[1..], m);
    }
  }

  lemma HeadText(m: FX.Mapping)
    requires "ID" in m && "YAML" in m
    ensures FX.Substitute(BlockHead(), m) == "@@" + m["ID"] + BLOCK_OPEN + m["YAML"] + BLOCK_CLOSE
  {
    var t4 := [FX.Lit(BLOCK_CLOSE)];
    var t3 := [FX.Field("YAML")] + t4;
    var t2 := [FX.Lit(BLOCK_OPEN)] + t3;
    var t1 := [FX.Field("ID")] + t2;
    SubstituteCons(FX.Lit(BLOCK_CLOSE), [], m);
    assert [FX.Lit(BLOCK_CLOSE)] + [] == t4;
    assert FX.Substitute(t4, m) == BLOCK_CLOSE;
    SubstituteCons(FX.Field("YAML"), t4, m);
    SubstituteCons(FX.Lit(BLOCK_OPEN), t3, m);
    SubstituteCons(FX.Field("ID"), t2, m);
    SubstituteCons(FX.Lit("@@"), t1, m);
    calc {
      FX.Substitute(BlockHead(), m);
      "@@" + (m["ID"] + (BLOCK_OPEN + (m["YAML"] + BLOCK_CLOSE)));
      "@@" + m["ID"] + BLOCK_OPEN + m["YAML"] + BLOCK_CLOSE;
    }
  }

  /** A block filled from a mapping that has all its fields. */
  lemma BlockText(fields: seq<string>, m: FX.Mapping)
    requires "ID" in m && "YAML" in m && forall f :: f in fields ==> f in m
    ensures FX.Substitute(Block(fields), m) == BlockValue(m["ID"], m["YAML"], FieldsText(fields, m))
  {
    FX.SubstituteConcat(BlockHead() + FieldChunks(fields), [FX.Lit("\n")], m);
    FX.SubstituteConcat(BlockHead(), FieldChunks(fields), m);
    FieldChunksText(fields, m);
    SubstituteCons(FX.Lit("\n"), [], m);
    assert [FX.Lit("\n")] + [] == [FX.Lit("\n")];
    HeadText(m);
  }

  // ----- the mappings -----

  /** The AttributeError _get_arcMapping raises: the novel has plot lines, not arcs. */
  const ARCS_ERROR := "'Novel' object has no attribute 'arcs'"

  function HeaderFields(n: NovelRec): FX.Mapping
  {
    map["YAML" := YamlText(n.AppendYaml([])), "Desc" := AddKey(n.basic.desc, "Desc")]
  }

  /** The chapter's fields; its Notes field is filled from the description. */
  function ChapterFields(ch: ChapterRec, yaml: seq<string>): FX.Mapping
  {
    var desc := ch.withNotes.basic.desc;
    map["YAML" := YamlText(yaml), "Desc" := AddKey(desc, "Desc"), "Notes" := AddKey(desc, "Notes")]
  }

  function SectionFields(sc: SectionRec): FX.Mapping
    requires sc.status.Some? && sc.scene.Some?
  {
    SectionMap(YamlText(sc.AppendYaml([])),
               AddKey(sc.withTags.withNotes.basic.desc, "Desc"),
               AddKey(sc.goal, "Goal"),
               AddKey(sc.conflict, "Conflict"),
               AddKey(sc.outcome, "Outcome"),
               AddKey(sc.withTags.withNotes.notes, "Notes"),
               AddKey(sc.sectionContent, "Content"))
  }

  function SectionMap(yaml: string, desc: string, goal: string, conflict: string, outcome: string,
                      notes: string, content: string): FX.Mapping
  {
    map["YAML" := yaml, "Desc" := desc, "Goal" := goal, "Conflict" := conflict,
        "Outcome" := outcome, "Notes" := notes, "SectionContent" := content]
  }

  /** The character's fields; its Notes field is filled from the description. */
  function CharacterFields(cr: CharacterRec): FX.Mapping
  {
    var desc := cr.world.withTags.withNotes.basic.desc;
    map["YAML" := YamlText(cr.YamlLines()), "Desc" := AddKey(desc, "Desc"),
        "Bio" := AddKey(cr.bio, "Bio"), "Goals" := AddKey(cr.goals, "Goals"),
        "Notes" := AddKey(desc, "Notes")]
  }

  /** A location's or item's fields; its Notes field is filled from the description. */
  function WorldFields(w: WorldRec): FX.Mapping
  {
    var desc := w.withTags.withNotes.basic.desc;
    map["YAML" := YamlText(w.YamlLines()), "Desc" := AddKey(desc, "Desc"), "Notes" := AddKey(desc, "Notes")]
  }

  function NoteFields(b: BasicRec): FX.Mapping
  {
    map["YAML" := YamlText(b.YamlLines()), "Desc" := AddKey(b.desc, "Desc")]
  }

  /** _get_fileHeaderMapping: the export's mapping with the novel's fields added. */
  function HeaderMapping(base: Result<FX.Mapping>, n: NovelRec): Result<FX.Mapping>
  {
    var m :- base;
    Ok(m + HeaderFields(n))
  }

  /** _get_chapterMapping; the chapter's to_yaml lines are given, as the Chapter class is not part of this model. */
  function ChapterMapping(base: Result<FX.Mapping>, p: J.Project, chId: string,
                          chapterYaml: ChapterRec -> seq<string>): Result<FX.Mapping>
  {
    var m :- base;
    if chId !in p.chapters then Err(FX.KeyError(chId))
    else Ok(m + ChapterFields(p.chapters[chId], chapterYaml(p.chapters[chId])))
  }

  /** _get_sectionMapping; to_yaml compares status and scene with numbers, which fails when they are None. */
  function SectionMapping(base: Result<FX.Mapping>, p: J.Project, scId: string): Result<FX.Mapping>
  {
    var m :- base;
    if scId !in p.sections then Err(FX.KeyError(scId))
    else if p.sections[scId].status.None? || p.sections[scId].scene.None? then Err(FX.NoneCompared(">"))
    else Ok(m + SectionFields(p.sections[scId]))
  }

  /** A plot line's fields, as _get_arcMapping means to fill them from the plot line. */
  function ArcFields(pl: PlotLineRec): FX.Mapping
  {
    map["YAML" := YamlText(pl.YamlLines()), "Desc" := AddKey(pl.withNotes.basic.desc, "Desc")]
  }

  /**
   * The mappings of characters, locations, items, project notes and plot
   * lines; a plot line's mapping reads the plot line (the corrected
   * _get_arcMapping).
   */
  function ElementMapping(base: Result<FX.Mapping>, p: J.Project, kind: FX.ElementKind, id: string): Result<FX.Mapping>
  {
    var m :- base;
    match kind
    case CharacterKind =>
      if id in p.characters then Ok(m + CharacterFields(p.characters[id])) else Err(FX.KeyError(id))
    case LocationKind =>
      if id in p.locations then Ok(m + WorldFields(p.locations[id])) else Err(FX.KeyError(id))
    case ItemKind =>
      if id in p.items then Ok(m + WorldFields(p.items[id])) else Err(FX.KeyError(id))
    case ProjectNoteKind =>
      if id in p.projectNotes then Ok(m + NoteFields(p.projectNotes[id])) else Err(FX.KeyError(id))
    case ArcKind =>
      if id in p.plotLines then Ok(m + ArcFields(p.plotLines[id])) else Err(FX.KeyError(id))
  }

  /** The element mappings as written: _get_arcMapping asks the novel for arcs and always fails. */
  function ElementMappingAsWritten(base: Result<FX.Mapping>, p: J.Project, kind: FX.ElementKind, id: string)
    : Result<FX.Mapping>
  {
    if kind.ArcKind? then (var m :- base; Err(ARCS_ERROR))
    else ElementMapping(base, p, kind, id)
  }

  /** The mappings of MdnovFile as written. */
  function MdnovMapperAsWritten(base: FX.Mapper, p: J.Project, chapterYaml: ChapterRec -> seq<string>): FX.Mapper
  {
    FX.Mapper(HeaderMapping(base.header, p.novel), ChapterMapper(base.chapter, p, chapterYaml),
              SectionMapper(base.section, p), (kind, id) => ElementMappingAsWritten(base.element(kind, id), p, kind, id))
  }

  /** The mappings of MdnovFile, over those of the export it extends. */
  function MdnovMapper(base: FX.Mapper, p: J.Project, chapterYaml: ChapterRec -> seq<string>): FX.Mapper
  {
    FX.Mapper(HeaderMapping(base.header, p.novel), ChapterMapper(base.chapter, p, chapterYaml),
              SectionMapper(base.section, p), ElementMapper(base.element, p))
  }

  function ChapterMapper(base: (string, int) -> Result<FX.Mapping>, p: J.Project,
                         chapterYaml: ChapterRec -> seq<string>): (string, int) -> Result<FX.Mapping>
  {
    (chId, n) => ChapterMapping(base(chId, n), p, chId, chapterYaml)
  }

  function SectionMapper(base: (string, int, int, bool) -> Result<FX.Mapping>, p: J.Project)
    : (string, int, int, bool) -> Result<FX.Mapping>
  {
    (scId, n, total, first) => SectionMapping(base(scId, n, total, first), p, scId)
  }

  function ElementMapper(base: (FX.ElementKind, string) -> Result<FX.Mapping>, p: J.Project)
    : (FX.ElementKind, string) -> Result<FX.Mapping>
  {
    (kind, id) => ElementMapping(base(kind, id), p, kind, id)
  }

  /** A section's text fields in the order they are written. */
  function SectionBody(sc: SectionRec): string
  {
    AddKey(sc.withTags.withNotes.basic.desc, "Desc") + (AddKey(sc.withTags.withNotes.notes, "Notes")
    + (AddKey(sc.goal, "Goal") + (AddKey(sc.conflict, "Conflict") + (AddKey(sc.outcome, "Outcome")
    + AddKey(sc.sectionContent, "Content")))))
  }

  /** The field names of the same length differ. */
  lemma FieldNamesDiffer()
    ensures "YAML" != "Desc" && "YAML" != "Goal" && "Desc" != "Goal"
  {
    assert "YAML"[0] != "Desc"[0] && "YAML"[0] != "Goal"[0] && "Desc"[0] != "Goal"[0];
  }

  lemma SectionMapLookups(m: FX.Mapping, yaml: string, desc: string, goal: string, conflict: string,
                          outcome: string, notes: string, content: string)
    ensures var mm := m + SectionMap(yaml, desc, goal, conflict, outcome, notes, content);
      mm["Desc"] == desc && mm["Notes"] == notes && mm["Goal"] == goal
      && mm["Conflict"] == conflict && mm["Outcome"] == outcome && mm["SectionContent"] == content
  {
    FieldNamesDiffer();
  }

  lemma SectionMapText(m: FX.Mapping, yaml: string, desc: string, goal: string, conflict: string,
                       outcome: string, notes: string, content: string)
    ensures var mm := m + SectionMap(yaml, desc, goal, conflict, outcome, notes, content);
      "YAML" in mm && mm["YAML"] == yaml && ("ID" in m ==> "ID" in mm && mm["ID"] == m["ID"])
    ensures forall f :: f in SECTION_FIELDS ==> f in m + SectionMap(yaml, desc, goal, conflict, outcome, notes, content)
    ensures FieldsText(SECTION_FIELDS, m + SectionMap(yaml, desc, goal, conflict, outcome, notes, content))
      == desc + (notes + (goal + (conflict + (outcome + content))))
  {
    var mm := m + SectionMap(yaml, desc, goal, conflict, outcome, notes, content);
    var fs := SECTION_FIELDS;
    SectionMapLookups(m, yaml, desc, goal, conflict, outcome, notes, content);
    assert FieldsText(fs[6..], mm) == "";
    assert FieldsText(fs[5..], mm) == content;
    assert FieldsText(fs[4..], mm) == outcome + content;
    assert FieldsText(fs[3..], mm) == conflict + (outcome + content);
    assert FieldsText(fs[2..], mm) == goal + (conflict + (outcome + content));
    assert FieldsText(fs[1..], mm) == notes + (goal + (conflict + (outcome + content)));
  }

  /** The text of the .mdnov file: the export's text with these templates and mappings. */
  function MdnovText(base: FX.Mapper, p: J.Project, f: FX.Filters, chapterYaml: ChapterRec -> seq<string>): Result<string>
  {
    FX.Text(MdnovTemplates(), p, f, MdnovMapper(base, p, chapterYaml))
  }

  /** The text of the .mdnov file as written, whose plot line mapping fails. */
  function MdnovTextAsWritten(base: FX.Mapper, p: J.Project, f: FX.Filters, chapterYaml: ChapterRec -> seq<string>)
    : Result<string>
  {
    FX.Text(MdnovTemplates(), p, f, MdnovMapperAsWritten(base, p, chapterYaml))
  }

  /**
   * A section's block: its ID and metadata, then its description, notes,
   * goal, conflict, outcome and content in this order, each as a field and
   * each absent when empty.
   */
  lemma SectionBlock(m: FX.Mapping, sc: SectionRec)
    requires "ID" in m && sc.status.Some? && sc.scene.Some?
    ensures FX.Substitute(Block(SECTION_FIELDS), m + SectionFields(sc))
      == BlockValue(m["ID"], YamlText(sc.AppendYaml([])), SectionBody(sc))
  {
    SectionMapText(m, YamlText(sc.AppendYaml([])),
                   AddKey(sc.withTags.withNotes.basic.desc, "Desc"), AddKey(sc.goal, "Goal"),
                   AddKey(sc.conflict, "Conflict"), AddKey(sc.outcome, "Outcome"),
                   AddKey(sc.withTags.withNotes.notes, "Notes"), AddKey(sc.sectionContent, "Content"));
    BlockText(SECTION_FIELDS, m + SectionFields(sc));
  }

  /** A chapter's Notes field shows its description: the chapter's own notes are never written. */
  lemma ChapterNotesFromDesc(m: FX.Mapping, ch: ChapterRec, yaml: seq<string>, notes: Option<string>)
    requires "ID" in m
    ensures FX.Substitute(Block(CHAPTER_FIELDS), m + ChapterFields(ch, yaml))
      == BlockValue(m["ID"], YamlText(yaml), AddKey(ch.withNotes.basic.desc, "Desc") + AddKey(ch.withNotes.basic.desc, "Notes"))
    ensures ChapterFields(ch.(withNotes := ch.withNotes.(notes := notes)), yaml) == ChapterFields(ch, yaml)
  {
    var mm := m + ChapterFields(ch, yaml);
    var fs := CHAPTER_FIELDS;
    assert FieldsText(fs[2..], mm) == "";
    assert FieldsText(fs[1..], mm) == mm["Notes"];
    assert FieldsText(fs, mm) == mm["Desc"] + mm["Notes"];
    BlockText(fs, mm);
  }

  /** Characters, locations and items alike write their description where the notes belong. */
  lemma WorldNotesFromDesc(cr: CharacterRec, w: WorldRec, notes: Option<string>)
    ensures CharacterFields(cr)["Notes"] == AddKey(cr.world.withTags.withNotes.basic.desc, "Notes")
    ensures WorldFields(w)["Notes"] == AddKey(w.withTags.withNotes.basic.desc, "Notes")
    ensures var w' := w.(withTags := w.withTags.(withNotes := w.withTags.withNotes.(notes := notes)));
      WorldFields(w')["Notes"] == WorldFields(w)["Notes"]
  {
  }

  /** As written, a plot line has no mapping: the .mdnov export asks the novel for arcs, which it does not have. */
  lemma ArcMappingFails(base: FX.Mapper, p: J.Project, chapterYaml: ChapterRec -> seq<string>, plId: string)
    ensures MdnovMapperAsWritten(base, p, chapterYaml).element(FX.ArcKind, plId).Err?
  {
    assert MdnovMapperAsWritten(base, p, chapterYaml).element(FX.ArcKind, plId)
      == ElementMappingAsWritten(base.element(FX.ArcKind, plId), p, FX.ArcKind, plId);
  }

  /**
   * Corrected, a plot line of the project has the export's mapping with its
   * metadata and description added, and its block holds them.
   */
  lemma ArcMappingFixed(base: FX.Mapper, p: J.Project, chapterYaml: ChapterRec -> seq<string>, plId: string)
    requires plId in p.plotLines && base.element(FX.ArcKind, plId).Ok? && "ID" in base.element(FX.ArcKind, plId).value
    ensures MdnovMapper(base, p, chapterYaml).element(FX.ArcKind, plId)
      == Ok(base.element(FX.ArcKind, plId).value + ArcFields(p.plotLines[plId]))
    ensures var m := base.element(FX.ArcKind, plId).value + ArcFields(p.plotLines[plId]);
      FX.Substitute(MdnovTemplates().arcTemplate, m)
      == BlockValue(base.element(FX.ArcKind, plId).value["ID"], YamlText(p.plotLines[plId].YamlLines()),
                    AddKey(p.plotLines[plId].withNotes.basic.desc, "Desc"))
  {
    ArcElementFixed(base, p, chapterYaml, plId);
    ArcBlock(base.element(FX.ArcKind, plId).value, p.plotLines[plId]);
  }

  lemma ArcElementFixed(base: FX.Mapper, p: J.Project, chapterYaml: ChapterRec -> seq<string>, plId: string)
    requires plId in p.plotLines && base.element(FX.ArcKind, plId).Ok?
    ensures MdnovMapper(base, p, chapterYaml).element(FX.ArcKind, plId)
      == Ok(base.element(FX.ArcKind, plId).value + ArcFields(p.plotLines[plId]))
  {
    var b := base.element(FX.ArcKind, plId);
    assert MdnovMapper(base, p, chapterYaml).element == ElementMapper(base.element, p);
    assert ElementMapper(base.element, p)(FX.ArcKind, plId) == ElementMapping(b, p, FX.ArcKind, plId);
    assert ElementMapping(b, p, FX.ArcKind, plId) == Ok(b.value + ArcFields(p.plotLines[plId]));
  }

  /** A plot line's block holds the ID, the plot line's metadata and its description. */
  lemma ArcBlock(b: FX.Mapping, pl: PlotLineRec)
    requires "ID" in b
    ensures FX.Substitute(MdnovTemplates().arcTemplate, b + ArcFields(pl))
      == BlockValue(b["ID"], YamlText(pl.YamlLines()), AddKey(pl.withNotes.basic.desc, "Desc"))
  {
    var m := b + ArcFields(pl);
    assert m["ID"] == b["ID"] && m["YAML"] == YamlText(pl.YamlLines());
    var desc := AddKey(pl.withNotes.basic.desc, "Desc");
    assert FieldsText(LOCATION_FIELDS, m) == desc by {
      assert LOCATION_FIELDS[1..] == [];
    }
    BlockText(LOCATION_FIELDS, m);
  }

  /**
   * As written, a project with a plot line the filter accepts cannot be written as
   * .mdnov: the plot line's mapping fails, so the text fails and the files
   * stay as they were.
   */
  lemma PlotLineBreaksExport(base: FX.Mapper, p: J.Project, f: FX.Filters, chapterYaml: ChapterRec -> seq<string>,
                             plId: string, files: map<string, string>, path: string, replaceOk: bool, writeOk: bool)
    requires plId in ChildrenOf(p.kids, PL_ROOT) && f.arc(plId)
    ensures MdnovTextAsWritten(base, p, f, chapterYaml).Err?
    ensures FX.WriteOutcome(files, path, MdnovTextAsWritten(base, p, f, chapterYaml), replaceOk, writeOk).1 == files
  {
    ArcMappingFails(base, p, chapterYaml, plId);
    FailingArcBreaksText(MdnovTemplates(), p, f, MdnovMapperAsWritten(base, p, chapterYaml), plId);
  }

  /** With a plot line template, an accepted plot line whose mapping fails makes the text fail. */
  lemma FailingArcBreaksText(t: FX.Templates, p: J.Project, f: FX.Filters, mp: FX.Mapper, plId: string)
    requires t.arcTemplate != [] && plId in ChildrenOf(p.kids, PL_ROOT) && f.arc(plId)
    requires mp.element(FX.ArcKind, plId).Err?
    ensures FX.Text(t, p, f, mp).Err?
  {
    var pieces := FX.TextPieces(t, p, f);
    if pieces.Ok? {
      var pc := FX.ElementPiece(FX.ArcKind, t.arcTemplate, plId);
      ArcPieceListed(t, p, f, plId);
      assert FX.Render(mp, pc).Err?;
      ListedPieceFails(mp, pieces.value, pc);
    }
  }

  /** Every plot line the filter accepts has its line among the pieces of the text. */
  lemma ArcPieceListed(t: FX.Templates, p: J.Project, f: FX.Filters, plId: string)
    requires t.arcTemplate != [] && plId in ChildrenOf(p.kids, PL_ROOT) && f.arc(plId)
    ensures FX.TextPieces(t, p, f).Ok? ==> FX.ElementPiece(FX.ArcKind, t.arcTemplate, plId) in FX.TextPieces(t, p, f).value
  {
    var acc := FX.Accepted(f.arc, ChildrenOf(p.kids, PL_ROOT));
    var j :| 0 <= j < |acc| && acc[j] == plId;
    var arcs := FX.ArcLines(t, f.arc, ChildrenOf(p.kids, PL_ROOT));
    assert arcs[j] == FX.ElementPiece(FX.ArcKind, t.arcTemplate, plId);
  }

  /** One piece that fails to render makes the whole text fail. */
  lemma ListedPieceFails(mp: FX.Mapper, ps: seq<FX.Piece>, pc: FX.Piece)
    requires pc in ps && FX.Render(mp, pc).Err?
    ensures FX.RenderAll(mp, ps).Err?
  {
    FX.RenderAllOk(mp, ps);
  }

  // ----- the word count log -----

  /** The texts of one WC element of the PROGRESS section: Date, Count and WithUnused. */
  datatype WcEntry = WcEntry(date: Option<string>, count: Option<string>, withUnused: Option<string>)

  /** The log entry a WC element gives: all three texts must pass their checks and be non-empty. */
  function Verified(e: WcEntry): (r: Option<(string, (string, string))>)
  {
    var d, c, t := VerifiedDate(e.date), VerifiedIntString(e.count), VerifiedIntString(e.withUnused);
    if Truthy(d) && Truthy(c) && Truthy(t) then Some((d.value, (c.value, t.value))) else None
  }

  /** _read_word_count_log: the passing entries put into the log, in order; a later entry for a date wins. */
  function LogRead(log: OMap<string, (string, string)>, es: seq<WcEntry>): (r: OMap<string, (string, string)>)
    requires log.Valid()
    ensures r.Valid()
  {
    if es == [] then log
    else
      var rest := LogRead(log, es[..|es| - 1]);
      var e := Verified(es[|es| - 1]);
      if e.Some? then rest.Put(e.value.0, e.value.1) else rest
  }

  /**
   * A WC element gives a log entry exactly when its date is an ISO date and
   * both counts are strings int() accepts; the entry holds the texts as read.
   */
  lemma VerifiedEntry(e: WcEntry)
    ensures Verified(e).Some? <==>
      e.date.Some? && Calendar.IsIsoDate(e.date.value)
      && e.count.Some? && ParseInt(e.count.value).Some?
      && e.withUnused.Some? && ParseInt(e.withUnused.value).Some?
    ensures Verified(e).Some? ==> Verified(e).value == (e.date.value, (e.count.value, e.withUnused.value))
  {
  }

  /** One more WC element is one more step of the read. */
  lemma LogReadStep(log: OMap<string, (string, string)>, es: seq<WcEntry>, i: nat)
    requires log.Valid() && i < |es|
    ensures var prev := LogRead(log, es[..i]);
      LogRead(log, es[..i + 1]) == if Verified(es[i]).Some? then prev.Put(Verified(es[i]).value.0, Verified(es[i]).value.1) else prev
  {
    assert es[..i + 1][..i] == es[..i];
  }

  /** Every entry of the log read was there before or comes from a WC element that passed its checks. */
  lemma {:induction false} LogReadSound(log: OMap<string, (string, string)>, es: seq<WcEntry>)
    requires log.Valid()
    ensures var r := LogRead(log, es);
      forall k :: k in r.m ==> (k in log.m && r.m[k] == log.m[k]) || exists i :: 0 <= i < |es| && Verified(es[i]) == Some((k, r.m[k]))
  {
    if es != [] {
      LogReadSound(log, es[..|es| - 1]);
      forall k | k in LogRead(log, es).m
        ensures var r := LogRead(log, es);
          (k in log.m && r.m[k] == log.m[k]) || exists i :: 0 <= i < |es| && Verified(es[i]) == Some((k, r.m[k]))
      {
        LogReadSoundAt(log, es, es[..|es| - 1], k);
      }
    }
  }

  /** The step of LogReadSound for one date: the last element put it there, or it was there one element earlier. */
  lemma LogReadSoundAt(log: OMap<string, (string, string)>, es: seq<WcEntry>, init: seq<WcEntry>, k: string)
    requires log.Valid() && es != [] && init == es[..|es| - 1]
    requires var prev := LogRead(log, init);
      k in prev.m ==> (k in log.m && prev.m[k] == log.m[k]) || exists i :: 0 <= i < |init| && Verified(init[i]) == Some((k, prev.m[k]))
    requires k in LogRead(log, es).m
    ensures var r := LogRead(log, es);
      (k in log.m && r.m[k] == log.m[k]) || exists i :: 0 <= i < |es| && Verified(es[i]) == Some((k, r.m[k]))
  {
    LogReadStep(log, es, |es| - 1);
    assert es[..|es|] == es;
    var r := LogRead(log, es);
    var e := Verified(es[|es| - 1]);
    if e.Some? && e.value.0 == k {
      assert Verified(es[|es| - 1]) == Some((k, r.m[k]));
    } else {
      var prev := LogRead(log, init);
      assert r.m[k] == prev.m[k];
      if !(k in log.m && prev.m[k] == log.m[k]) {
        var i :| 0 <= i < |init| && Verified(init[i]) == Some((k, prev.m[k]));
        assert es[i] == init[i];
      }
    }
  }

  /** Every WC element that passes its checks leaves its date in the log. */
  lemma {:induction false} LogReadComplete(log: OMap<string, (string, string)>, es: seq<WcEntry>)
    requires log.Valid()
    ensures forall k :: k in log.m ==> k in LogRead(log, es).m
    ensures forall i :: 0 <= i < |es| && Verified(es[i]).Some? ==> Verified(es[i]).value.0 in LogRead(log, es).m
  {
    if es != [] {
      var init := es[..|es| - 1];
      LogReadComplete(log, init);
      LogReadStep(log, es, |es| - 1);
      assert es[..|es|] == es;
      var prev := LogRead(log, init);
      assert forall k :: k in prev.m ==> k in LogRead(log, es).m;
      forall i | 0 <= i < |es| && Verified(es[i]).Some?
        ensures Verified(es[i]).value.0 in LogRead(log, es).m
      {
        if i < |es| - 1 {
          assert es[i] == init[i];
        }
      }
    }
  }

  /** A pair of counts as the log keeps them: str() of each. */
  function CountStrings(counts: (int, int)): (string, string)
  {
    (IntToString(counts.0), IntToString(counts.1))
  }

  /** The decimal strings the log keeps parse back to the counts, so a later read keeps them. */
  lemma CountStringsRead(counts: (int, int))
    ensures ParseInt(CountStrings(counts).0) == Some(counts.0) && ParseInt(CountStrings(counts).1) == Some(counts.1)
    ensures VerifiedIntString(Some(CountStrings(counts).0)) == Some(CountStrings(counts).0)
    ensures VerifiedIntString(Some(CountStrings(counts).1)) == Some(CountStrings(counts).1)
  {
    ParseIntOfIntToString(counts.0);
    ParseIntOfIntToString(counts.1);
  }


  class MdnovFile {
    const novel: Novel
    /** Daily word counts: date -> (count, count with unused), as decimal strings. */
    var wcLog: OMap<string, (string, string)>
    /** Counts missing in the log. */
    var wcLogUpdate: OMap<string, (string, string)>
    var timestamp: Option<int>

    ghost predicate Valid()
      reads this
    {
      wcLog.Valid() && wcLogUpdate.Valid()
    }

    constructor(novel: Novel)
      ensures Valid() && this.novel == novel
      ensures wcLog == Empty() && wcLogUpdate == Empty() && timestamp == None
    {
      this.novel := novel;
      wcLog := Empty();
      wcLogUpdate := Empty();
      timestamp := None;
    }

    /** count_words: the rule PrjFile applies, over the same novel. */
    method CountWords() returns (count: int, totalCount: int)
      requires Countable(novel)
      ensures (count, totalCount) == ChapterWords(novel, ChapterIds(novel))
      ensures 0 <= count <= totalCount
    {
      count, totalCount := ProjectRules.CountWords(novel);
    }

    /** adjust_section_types: the rule PrjFile applies, over the same novel. */
    method AdjustSectionTypes()
      requires Adjustable(novel)
      modifies (set c | c in novel.chapters.Values)`chType, (set s | s in novel.sections.Values)`scType
      modifies set c | c in novel.chapters.Values :: c.OnChange()
      modifies set s | s in novel.sections.Values :: s.OnChange()
      ensures Levels(novel) == old(Levels(novel)) && Trash(novel) == old(Trash(novel))
      ensures var a := Adjusted(ChapterIds(novel), Levels(novel), Trash(novel), novel.tree.children,
                                TypeState(0, old(ChTypes(novel)), old(ScTypes(novel))));
        ChTypes(novel) == a.ch && ScTypes(novel) == a.sc
    {
      ProjectRules.AdjustSectionTypes(novel);
    }

    /** _get_timestamp: the file's modification time, None when it cannot be read. */
    method GetTimestamp(mtime: Option<int>)
      modifies this`timestamp
      ensures timestamp == mtime
    {
      timestamp := mtime;
    }

    /**
     * _keep_word_count: when the decimal strings of the actual counts differ
     * from the last logged ones, they are noted as missing under the file's
     * date (today's when the modification time gives none).
     */
    method KeepWordCount(fileDate: Option<string>, today: string)
      requires Valid() && Countable(novel)
      modifies this`wcLogUpdate
      ensures Valid()
      ensures wcLog.keys == [] ==> wcLogUpdate == old(wcLogUpdate)
      ensures wcLog.keys != [] ==>
        var last := wcLog.m[wcLog.keys[|wcLog.keys| - 1]];
        var actual := CountStrings(old(ChapterWords(novel, ChapterIds(novel))));
        wcLogUpdate == if actual == last then old(wcLogUpdate) else old(wcLogUpdate).Put(fileDate.GetOr(today), actual)
    {
      if wcLog.keys == [] {
        return;
      }
      var actualCountInt, actualTotalCountInt := CountWords();
      var actual := CountStrings((actualCountInt, actualTotalCountInt));
      var actualCount, actualTotalCount := actual.0, actual.1;
      var latestDate := wcLog.keys[|wcLog.keys| - 1];
      var latestCount, latestTotalCount := wcLog.m[latestDate].0, wcLog.m[latestDate].1;
      if actualCount != latestCount || actualTotalCount != latestTotalCount {
        wcLogUpdate := wcLogUpdate.Put(fileDate.GetOr(today), (actualCount, actualTotalCount));
      }
    }

    /**
     * _update_word_count_log: when the project saves word counts, today's
     * counts as strings join the missing ones and all of them are copied into
     * the log; either way nothing is missing afterwards.
     */
    method UpdateWordCountLog(today: string)
      requires Valid() && Countable(novel)
      modifies this`wcLog, this`wcLogUpdate
      ensures Valid() && wcLogUpdate == Empty()
      ensures novel.saveWordCount == Some(true) ==>
        var upd := old(wcLogUpdate).Put(today, CountStrings(old(ChapterWords(novel, ChapterIds(novel)))));
        wcLog == PrjFiles.Merged(old(wcLog), upd.keys, upd.m)
      ensures novel.saveWordCount != Some(true) ==> wcLog == old(wcLog)
    {
      ghost var counts := ChapterWords(novel, ChapterIds(novel));
      if novel.saveWordCount == Some(true) {
        var upd := WithTodaysCounts(today);
        assert upd == old(wcLogUpdate).Put(today, CountStrings(counts));
        wcLog := PrjFiles.MergeLog(wcLog, upd);
      }
      wcLogUpdate := Empty();
    }

    /** The missing counts with today's counts added, as strings. */
    method WithTodaysCounts(today: string) returns (upd: OMap<string, (string, string)>)
      requires Valid() && Countable(novel)
      ensures upd.Valid()
      ensures upd == wcLogUpdate.Put(today, CountStrings(ChapterWords(novel, ChapterIds(novel))))
    {
      var newCount, newTotalCount := CountWords();
      upd := wcLogUpdate.Put(today, CountStrings((newCount, newTotalCount)));
    }

    /** _read_word_count_log over the WC elements of the PROGRESS section (none when it is absent). */
    method ReadWordCountLog(es: seq<WcEntry>)
      requires Valid()
      modifies this`wcLog
      ensures Valid() && wcLog == LogRead(old(wcLog), es)
    {
      var i := 0;
      while i < |es|
        invariant 0 <= i <= |es|
        invariant wcLog == LogRead(old(wcLog), es[..i])
        invariant Valid()
      {
        LogReadStep(old(wcLog), es, i);
        var wcDate := VerifiedDate(es[i].date);
        var wcCount := VerifiedIntString(es[i].count);
        var wcTotalCount := VerifiedIntString(es[i].withUnused);
        if Truthy(wcDate) && Truthy(wcCount) && Truthy(wcTotalCount) {
          wcLog := wcLog.Put(wcDate.value, (wcCount.value, wcTotalCount.value));
        }
        i := i + 1;
      }
      assert es[..i] == es;
    }

    /**
     * write: the export's write, then the new modification time is taken.
     * Neither log is touched, and no template holds a word count.
     */
    method Write(store: FX.FileStore, base: FX.Mapper, p: J.Project, f: FX.Filters,
                 chapterYaml: ChapterRec -> seq<string>, path: string,
                 replaceOk: bool, writeOk: bool, mtime: Option<int>) returns (r: Result<()>)
      modifies store, this`timestamp
      ensures (r, store.files) == FX.WriteOutcome(old(store.files), path, MdnovText(base, p, f, chapterYaml), replaceOk, writeOk)
      ensures timestamp == if r.Ok? then mtime else old(timestamp)
      ensures wcLog == old(wcLog) && wcLogUpdate == old(wcLogUpdate)
    {
      r := FX.Write(store, MdnovTemplates(), p, f, MdnovMapper(base, p, chapterYaml), path, replaceOk, writeOk);
      if r.Ok? {
        GetTimestamp(mtime);
      }
    }
  }
}
