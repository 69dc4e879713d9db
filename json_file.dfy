/**
 * JsonFile (json_file.py): the .json project format. Reading checks the
 * version, reads the groups of elements in a fixed order (project,
 * locations, items, characters, chapters with their sections, plot lines
 * with their points, project notes), removes references to elements that do
 * not exist, creates the sections' back references, adjusts the section
 * types and reads the word count log. Writing builds one object per group
 * in tree order and the compacted word count log.
 *
 * The read is stated on the value of the project it leaves (a Project: the
 * element values by ID, the sections' back references and the tree), not on
 * element objects; a failure anywhere in the read is the 'Corrupt project
 * data' error.
 */
module JsonFiles {
  import opened Wrappers
  import opened Strings
  import opened OrderedMaps
  import opened NovxGlobals
  import opened Elements
  import opened Sections
  import opened NvTrees
  import opened Novels
  import opened JsonValues
  import opened JsonCodecs
  import opened ProjectRules
  import PrjFiles

  const MajorVersion: int := 1
  const MinorVersion: int := 0

  /** The text of an object key, as json.load gives it: an ID, a date or a path. */
  function NameText(n: Name): string
  {
    if n.S? then n.text else KeyName(n.key)
  }

  /** The texts of the keys ks, in order. */
  function KeyTexts(ks: seq<Name>): (r: seq<string>)
    ensures |r| == |ks|
  {
    if ks == [] then [] else KeyTexts(ks[..|ks| - 1]) + [NameText(ks[|ks| - 1])]
  }

  lemma {:induction false} KeyTextsAt(ks: seq<Name>, i: nat)
    requires i < |ks|
    ensures KeyTexts(ks)[i] == NameText(ks[i])
  {
    if i < |ks| - 1 {
      KeyTextsAt(ks[..|ks| - 1], i);
    }
  }

  lemma KeyTextsStep(ks: seq<Name>, n: nat)
    requires 0 < n <= |ks|
    ensures KeyTexts(ks[..n]) == KeyTexts(ks[..n - 1]) + [NameText(ks[n - 1])]
  {
    assert ks[..n][..n - 1] == ks[..n - 1];
  }

  /** d[k] for a key of the object: a parsed object has a value under each of its keys. */
  function Member(o: JDict, k: Name): Json
  {
    if k in o.m then o.m[k] else JNull
  }

  // ----- _check_version -----

  /** jsonData['mdnov'], when jsonData is an object holding it. */
  function RootOf(data: Json): Option<Json>
  {
    if data.JObj? && F(KMdnov) in data.obj.m then Some(data.obj.m[F(KMdnov)]) else None
  }

  /**
   * The exceptions the version check lets through, by their Python class;
   * read() reports their text inside its 'Corrupt project data' error.
   */
  const TypeErrorName := "TypeError"
  const KeyErrorName := "KeyError"
  const AttributeErrorName := "AttributeError"
  const ValueErrorName := "ValueError"

  /**
   * `'mdnov' in jsonData`: a key of an object, an item of a list, a part of
   * a string; `in` raises TypeError on a number, a bool or None.
   */
  function MdnovIn(data: Json): (r: Result<bool>)
    ensures r.Err? <==> data.JNum? || data.JBool? || data.JNull?
    ensures r.Err? ==> r == Err(TypeErrorName)
    ensures data.JObj? ==> r == Ok(RootOf(data).Some?)
  {
    match data
    case JObj(o) => Ok(F(KMdnov) in o.m)
    case JList(items) => Ok(JStr("mdnov") in items)
    case JStr(s) => Ok(Contains(s, "mdnov"))
    case _ => Err(TypeErrorName)
  }

  /**
   * The two numbers of jsonData['mdnov']['version']: the string split at
   * '.' into exactly two parts, each read by int(). Where a step raises,
   * the exception: indexing what is not an object (TypeError), a missing
   * 'version' (KeyError), split() on what is not a string (AttributeError),
   * a wrong number of parts or a part int() refuses (ValueError).
   */
  function StatedVersion(root: Json): (r: Result<(int, int)>)
    ensures r.Ok? <==> (root.JObj? && F(KVersion) in root.obj.m && root.obj.m[F(KVersion)].JStr?
      && (var parts := Split(root.obj.m[F(KVersion)].s, ".");
          |parts| == 2 && ParseInt(parts[0]).Some? && ParseInt(parts[1]).Some?))
    ensures r.Ok? ==> var parts := Split(root.obj.m[F(KVersion)].s, ".");
      r.value == (ParseInt(parts[0]).value, ParseInt(parts[1]).value)
    ensures r.Err? ==> r.error in {TypeErrorName, KeyErrorName, AttributeErrorName, ValueErrorName}
  {
    if !root.JObj? then Err(TypeErrorName)
    else if F(KVersion) !in root.obj.m then Err(KeyErrorName)
    else if !root.obj.m[F(KVersion)].JStr? then Err(AttributeErrorName)
    else
      var parts := Split(root.obj.m[F(KVersion)].s, ".");
      if |parts| == 2 && ParseInt(parts[0]).Some? && ParseInt(parts[1]).Some? then
        Ok((ParseInt(parts[0]).value, ParseInt(parts[1]).value))
      else Err(ValueErrorName)
  }

  const NoRootError := "No valid JSON root element found in file"
  const NewerError := "The project was created with a newer mdnovel version"
  const OutdatedError := "The project was created with an outdated mdnovel version"

  /**
   * _check_version: a file without 'mdnov' is refused; an exception while
   * the version is read passes through unchanged (only NotImplementedError
   * would be turned into a message, and nothing here raises it); a major
   * version other than 1 and, with major version 1, a minor version above 0
   * are refused.
   */
  function CheckVersion(data: Json): (r: Result<()>)
    ensures r.Ok? ==> RootOf(data).Some? && RootOf(data).value.JObj?
    ensures data.JObj? && RootOf(data).None? ==> r == Err(NoRootError)
    ensures !data.JObj? ==> r.Err? && (r == Err(NoRootError) || r == Err(TypeErrorName))
    ensures RootOf(data).Some? && StatedVersion(RootOf(data).value).Err? ==>
      r == Err(StatedVersion(RootOf(data).value).error)
    ensures RootOf(data).Some? && StatedVersion(RootOf(data).value).Ok? ==>
      var v := StatedVersion(RootOf(data).value).value;
      (r.Ok? <==> v.0 == MajorVersion && v.1 <= MinorVersion)
      && (v.0 > MajorVersion ==> r == Err(NewerError))
      && (v.0 < MajorVersion ==> r == Err(OutdatedError))
      && (v.0 == MajorVersion && v.1 > MinorVersion ==> r == Err(NewerError))
  {
    var present :- MdnovIn(data);
    if !present then Err(NoRootError)
    else if !data.JObj? then Err(TypeErrorName)  // jsonData['mdnov'] on a list or a string
    else
      var v :- StatedVersion(data.obj.m[F(KMdnov)]);
      if v.0 > MajorVersion then Err(NewerError)
      else if v.0 < MajorVersion then Err(OutdatedError)
      else if v.1 > MinorVersion then Err(NewerError)
      else Ok(())
  }

  /** The version string write puts into every file. */
  function VersionText(): string
  {
    IntToString(MajorVersion) + "." + IntToString(MinorVersion)
  }

  lemma VersionTextParts()
    ensures VersionText() == "1.0"
    ensures Split(VersionText(), ".") == ["1", "0"]
  {
    assert IntToString(1) == "1" && IntToString(0) == "0";
    var s := "1.0";
    assert s[..1] == "1" && s[1..] == ".0" && s[1..][..1] == ".";
    assert !StartsWith(s, ".");
    assert StartsWith(s[1..], ".");
    assert Find(s, ".") == Some(1);
    assert s[2..] == "0";
    assert "0"[..1] == "0" && "0"[1..] == [];
    assert !StartsWith("0", ".") && !StartsWith([], ".");
    assert Find("0", ".") == None;
    assert Split("0", ".") == ["0"];
  }

  /** The root write starts from: {'version': '1.0'}, then the groups. */
  lemma WrittenVersionReads(root: JDict)
    requires F(KVersion) in root.m && root.m[F(KVersion)] == JStr(VersionText())
    ensures StatedVersion(JObj(root)) == Ok((1, 0))
  {
    VersionTextParts();
    VersionNumbersRead();
  }

  lemma WrittenVersionPasses(root: JDict)
    requires F(KVersion) in root.m && root.m[F(KVersion)] == JStr(VersionText())
    ensures CheckVersion(JObj(Empty<Name, Json>().Put(F(KMdnov), JObj(root)))) == Ok(())
  {
    WrittenVersionReads(root);
    CurrentVersionPasses(JObj(root));
  }

  /** A file whose only root holds the current version passes the check. */
  lemma CurrentVersionPasses(root: Json)
    requires StatedVersion(root) == Ok((MajorVersion, MinorVersion))
    ensures CheckVersion(JObj(Empty<Name, Json>().Put(F(KMdnov), root))) == Ok(())
  {
    var data := JObj(Empty<Name, Json>().Put(F(KMdnov), root));
    assert data.obj.m == map[F(KMdnov) := root];
    CurrentRootPasses(data, root);
  }

  lemma CurrentRootPasses(data: Json, root: Json)
    requires data.JObj? && F(KMdnov) in data.obj.m && data.obj.m[F(KMdnov)] == root
    requires StatedVersion(root) == Ok((MajorVersion, MinorVersion))
    ensures CheckVersion(data) == Ok(())
  {
    assert MdnovIn(data) == Ok(true);
  }

  // ----- the project value the read fills -----

  /**
   * The novel's element dicts, the sections' back references (scPlotLines and
   * scPlotPoints, by section ID), the tree's children by parent, and the
   * word count log.
   */
  datatype Project = Project(
    novel: NovelRec,
    chapters: map<string, ChapterRec>,
    sections: map<string, SectionRec>,
    scPlotLines: map<string, seq<string>>,
    scPlotPoints: map<string, map<string, string>>,
    characters: map<string, CharacterRec>,
    locations: map<string, WorldRec>,
    items: map<string, WorldRec>,
    plotLines: map<string, PlotLineRec>,
    plotPoints: map<string, PlotPointRec>,
    projectNotes: map<string, BasicRec>,
    kids: map<string, seq<string>>,
    wcLog: OMap<string, Json>)

  /** The novel before the read: no elements, an empty tree and an empty log. */
  function EmptyProject(novel: NovelRec): (p: Project)
  {
    Project(novel, map[], map[], map[], map[], map[], map[], map[], map[], map[], map[], map[], Empty())
  }

  /** tree.append(parent, child) */
  function Append(kids: map<string, seq<string>>, parent: string, child: string): (r: map<string, seq<string>>)
    ensures ChildrenOf(r, parent) == ChildrenOf(kids, parent) + [child]
    ensures forall x :: x != parent ==> ChildrenOf(r, x) == ChildrenOf(kids, x)
  {
    kids[parent := ChildrenOf(kids, parent) + [child]]
  }

  // The elements as their constructors create them: every property None.
  const NewNotes: NotesRec := NotesRec(BasicRec(None, None, None), None)
  const NewTags: TagsRec := TagsRec(NewNotes, None)
  const NewWorld: WorldRec := WorldRec(NewTags, None)
  const NewCharacter: CharacterRec := CharacterRec(NewWorld, None, None, None, None, None, None)
  const NewChapter: ChapterRec := ChapterRec(NewNotes, None, None, None, None)
  const NewSection: SectionRec := SectionRec(NewTags, None, None, None, None, None, None, None, None, None,
                                             None, None, None, None, None, None, None, None, None, None, None)
  const NewPlotLine: PlotLineRec := PlotLineRec(NewNotes, None, None)
  const NewPlotPoint: PlotPointRec := PlotPointRec(NewNotes, None)

  /**
   * `for id in group` over a group value: an object gives its keys, and so
   * nothing for an empty one; so do an empty list or string. A missing or
   * null group (root.get(..., None)) is skipped when nullOk; where the
   * default is {} a null group fails, as does any other value (an ID must
   * index the group and start with a two-letter prefix).
   */
  function GroupOf(v: Json, nullOk: bool): (r: Result<JDict>)
    ensures r.Ok? <==> (v.JNull? && nullOk) || v.JObj? || v == JList([]) || v == JStr([])
    ensures r.Ok? ==> r.value == if v.JObj? then v.obj else Empty()
  {
    match v
    case JObj(o) => Ok(o)
    case JNull => if nullOk then Ok(Empty()) else Err("'NoneType' object is not iterable")
    case JList(items) => if items == [] then Ok(Empty()) else Err("list indices must be integers")
    case JStr(s) => if s == [] then Ok(Empty()) else Err("bad ID")
    case _ => Err("object is not iterable")
  }

  /** The object an element's import_data reads: it must be a dict. */
  function ElementData(v: Json): (r: Result<map<Name, Json>>)
    ensures r.Ok? <==> v.JObj?
    ensures r.Ok? ==> r.value == v.obj.m
  {
    if v.JObj? then Ok(v.obj.m) else Err("object has no attribute 'get'")
  }

  /** The IDs of the first n keys of a group, and what each read gave, the later of equal IDs winning. */
  datatype Group<R> = Group(ids: seq<string>, recs: map<string, R>)

  /**
   * The loop of _read_locations, _read_items and _read_characters over the
   * first n keys of a group: each ID is checked against the prefix, and its
   * object is read into a new element.
   */
  function ReadGroup<R>(g: JDict, n: nat, prefix: string, decode: map<Name, Json> -> Result<R>): (r: Result<Group<R>>)
    requires n <= |g.keys|
    ensures r.Ok? ==> r.value.ids == KeyTexts(g.keys[..n])
    ensures r.Ok? ==> forall id :: id in r.value.recs <==> id in r.value.ids
    ensures r.Ok? <==> forall i :: 0 <= i < n ==>
      StartsWith(NameText(g.keys[i]), prefix)
      && Member(g, g.keys[i]).JObj? && decode(Member(g, g.keys[i]).obj.m).Ok?
  {
    if n == 0 then Ok(Group([], map[]))
    else
      var rest :- ReadGroup(g, n - 1, prefix, decode);
      var k := g.keys[n - 1];
      var ok :- PrjFiles.CheckId(NameText(k), prefix);
      var d :- ElementData(Member(g, k));
      var rec :- decode(d);
      KeyTextsStep(g.keys, n);
      Ok(Group(rest.ids + [NameText(k)], rest.recs[NameText(k) := rec]))
  }

  /** _read_locations, _read_items, _read_characters, _read_project_notes: a group that may be missing. */
  function ReadElements<R>(root: JDict, group: Key, prefix: string, decode: map<Name, Json> -> Result<R>): (r: Result<Group<R>>)
    ensures r.Ok? ==> forall id :: id in r.value.recs <==> id in r.value.ids
    ensures r.Ok? ==> forall id :: id in r.value.ids ==> StartsWith(id, prefix)
    ensures r.Ok? && Get(root.m, group, JNull).JObj? ==> r.value.ids == KeyTexts(Get(root.m, group, JNull).obj.keys)
    ensures r.Ok? && Get(root.m, group, JNull).JNull? ==> r.value.ids == []
  {
    var g :- GroupOf(Get(root.m, group, JNull), true);
    var grp :- ReadGroup(g, |g.keys|, prefix, decode);
    assert g.keys[..|g.keys|] == g.keys;
    forall id | id in grp.ids ensures StartsWith(id, prefix) {
      var i :| 0 <= i < |grp.ids| && grp.ids[i] == id;
      KeyTextsAt(g.keys, i);
    }
    Ok(grp)
  }

  /** The children of parent, followed by ids appended one by one. */
  function AppendAll(kids: map<string, seq<string>>, parent: string, ids: seq<string>): (r: map<string, seq<string>>)
    ensures ChildrenOf(r, parent) == ChildrenOf(kids, parent) + ids
    ensures forall x :: x != parent ==> ChildrenOf(r, x) == ChildrenOf(kids, x)
  {
    kids[parent := ChildrenOf(kids, parent) + ids]
  }

  /** intersection(list, dict): the entries that are keys, in order; iterating None raises. */
  function Intersect(l: Option<seq<string>>, reference: set<string>): (r: Result<Option<seq<string>>>)
    ensures r.Ok? <==> l.Some?
    ensures r.Ok? ==> r.value.Some? && forall x :: x in r.value.value <==> x in l.value && x in reference
  {
    if l.Some? then Ok(Some(Intersection(l.value, reference))) else Err("'NoneType' object is not iterable")
  }

  /** Every reference of the section names an element that exists. */
  predicate RefsKnown(sc: SectionRec, p: Project)
  {
    && (sc.characters.Some? ==> forall x :: x in sc.characters.value ==> x in p.characters)
    && (sc.locations.Some? ==> forall x :: x in sc.locations.value ==> x in p.locations)
    && (sc.items.Some? ==> forall x :: x in sc.items.value ==> x in p.items)
  }

  /** A section read from JSON has a type, a status and a scene. */
  lemma SectionDecodeTyped(d: map<Name, Json>, r: SectionRec)
    requires DecodeSection(d, r).Ok?
    ensures DecodeSection(d, r).value.scType.Some?
  {
    var withTags := DecodeTags(d, r.withTags).value;
    assert DecodeSection(d, r) == SectionFieldsOf(d, r.(withTags := withTags));
  }

  /** A chapter read from JSON has a type. */
  lemma ChapterDecodeTyped(d: map<Name, Json>, r: ChapterRec)
    requires DecodeChapter(d, r).Ok?
    ensures DecodeChapter(d, r).value.chType.Some?
  {
    var withNotes := DecodeNotes(d, r.withNotes).value;
    assert DecodeChapter(d, r) == ChapterFieldsOf(d, r.(withNotes := withNotes));
  }

  /** A decoder whose sections always have a type, as DecodeSection's do. */
  ghost predicate TypedSections(decode: map<Name, Json> -> Result<SectionRec>)
  {
    forall d :: decode(d).Ok? ==> decode(d).value.scType.Some?
  }

  /** A decoder whose chapters always have a type, as DecodeChapter's do. */
  ghost predicate TypedChapters(decode: map<Name, Json> -> Result<ChapterRec>)
  {
    forall d :: decode(d).Ok? ==> decode(d).value.chType.Some?
  }

  // The element decoders the read uses: each element starts as its constructor creates it.
  function DecodeNewSection(d: map<Name, Json>): Result<SectionRec> { DecodeSection(d, NewSection) }
  function DecodeNewChapter(d: map<Name, Json>): Result<ChapterRec> { DecodeChapter(d, NewChapter) }
  function DecodeNewWorld(d: map<Name, Json>): Result<WorldRec> { DecodeWorld(d, NewWorld) }
  function DecodeNewCharacter(d: map<Name, Json>): Result<CharacterRec> { DecodeCharacter(d, NewCharacter) }
  function DecodeNewPlotLine(d: map<Name, Json>): Result<PlotLineRec> { DecodePlotLine(d, NewPlotLine) }
  function DecodeNewPlotPoint(d: map<Name, Json>): Result<PlotPointRec> { DecodePlotPoint(d, NewPlotPoint) }
  function DecodeNewNote(d: map<Name, Json>): Result<BasicRec> { DecodeBasic(d, NewNotes.basic) }

  lemma NewSectionDecoderTyped()
    ensures TypedSections(DecodeNewSection)
  {
    forall d | DecodeSection(d, NewSection).Ok? ensures DecodeSection(d, NewSection).value.scType.Some? {
      SectionDecodeTyped(d, NewSection);
    }
  }

  lemma NewChapterDecoderTyped()
    ensures TypedChapters(DecodeNewChapter)
  {
    forall d | DecodeChapter(d, NewChapter).Ok? ensures DecodeChapter(d, NewChapter).value.chType.Some? {
      ChapterDecodeTyped(d, NewChapter);
    }
  }

  /**
   * _read_section: a new section read from its object (decode is
   * SectionJson.import_data into a new Section), then its character,
   * location and item lists cut down to the elements that exist.
   */
  function ReadSection(v: Json, p: Project, decode: map<Name, Json> -> Result<SectionRec>): (r: Result<SectionRec>)
    requires TypedSections(decode)
    ensures r.Ok? ==> RefsKnown(r.value, p) && r.value.scType.Some?
    ensures r.Ok? <==> v.JObj? && decode(v.obj.m).Ok? && decode(v.obj.m).value.characters.Some?
                       && decode(v.obj.m).value.locations.Some? && decode(v.obj.m).value.items.Some?
  {
    var d :- ElementData(v);
    var sc :- decode(d);
    var characters :- Intersect(sc.characters, p.characters.Keys);
    var locations :- Intersect(sc.locations, p.locations.Keys);
    var items :- Intersect(sc.items, p.items.Keys);
    Ok(sc.(characters := characters, locations := locations, items := items))
  }

  /** A section the read has filed under id: it has a type and only known references. */
  ghost predicate SectionSound(p: Project, id: string)
  {
    && id in p.sections && p.sections[id].scType.Some? && RefsKnown(p.sections[id], p)
  }

  /**
   * The chapter part of the tree after the read: every chapter under the
   * chapter root exists and has a type, and every section under a chapter
   * ID is sound.
   */
  ghost predicate ChapterTree(p: Project)
  {
    && (forall c :: c in ChildrenOf(p.kids, CH_ROOT) ==>
          StartsWith(c, CHAPTER_PREFIX) && c in p.chapters && p.chapters[c].chType.Some?)
    && (forall x :: StartsWith(x, CHAPTER_PREFIX) ==> forall s :: s in ChildrenOf(p.kids, x) ==> SectionSound(p, s))
  }

  lemma ChapterIdNotRoot(x: string)
    requires StartsWith(x, CHAPTER_PREFIX)
    ensures x != CH_ROOT
  {
    assert x[0] == 'c' && CH_ROOT[0] == 'C';
  }

  /** The checks one key of a chapter's 'SECTIONS' must pass. */
  predicate SectionKeyOk(g: JDict, k: Name, p: Project, decode: map<Name, Json> -> Result<SectionRec>)
    requires TypedSections(decode)
  {
    StartsWith(NameText(k), SECTION_PREFIX) && ReadSection(Member(g, k), p, decode).Ok?
  }

  /** One pass of the section loop: the section under k read, filed and appended to chId. */
  function AddSection(q: Project, g: JDict, k: Name, chId: string, p: Project,
                      decode: map<Name, Json> -> Result<SectionRec>): (r: Result<Project>)
    requires TypedSections(decode)
    requires q.characters == p.characters && q.locations == p.locations && q.items == p.items
    ensures r.Ok? <==> SectionKeyOk(g, k, p, decode)
    ensures r.Ok? ==> r.value == q.(sections := r.value.sections, scPlotLines := r.value.scPlotLines,
                                    scPlotPoints := r.value.scPlotPoints, kids := Append(q.kids, chId, NameText(k)))
    ensures r.Ok? ==> r.value.sections.Keys == q.sections.Keys + {NameText(k)}
    ensures r.Ok? ==> SectionSound(r.value, NameText(k))
    ensures r.Ok? ==> forall id :: SectionSound(q, id) ==> SectionSound(r.value, id)
  {
    var scId := NameText(k);
    var _ :- PrjFiles.CheckId(scId, SECTION_PREFIX);
    var sc :- ReadSection(Member(g, k), p, decode);
    Ok(q.(sections := q.sections[scId := sc],
          scPlotLines := q.scPlotLines[scId := []],
          scPlotPoints := q.scPlotPoints[scId := map[]],
          kids := Append(q.kids, chId, scId)))
  }

  /**
   * The section loop of _read_chapters_and_sections over the first n keys of
   * a chapter's 'SECTIONS': each ID is checked, its section read and
   * appended to the chapter in the tree. A new section has no back references yet.
   */
  function ReadSections(g: JDict, n: nat, chId: string, p: Project,
                        decode: map<Name, Json> -> Result<SectionRec>): (r: Result<Project>)
    requires n <= |g.keys| && TypedSections(decode)
    ensures r.Ok? <==> forall i :: 0 <= i < n ==> SectionKeyOk(g, g.keys[i], p, decode)
    ensures r.Ok? ==> r.value == p.(sections := r.value.sections, scPlotLines := r.value.scPlotLines,
                                    scPlotPoints := r.value.scPlotPoints, kids := r.value.kids)
    ensures r.Ok? ==> ChildrenOf(r.value.kids, chId) == ChildrenOf(p.kids, chId) + KeyTexts(g.keys[..n])
    ensures r.Ok? ==> forall x :: x != chId ==> ChildrenOf(r.value.kids, x) == ChildrenOf(p.kids, x)
    ensures r.Ok? ==> forall id :: id in r.value.sections <==> id in p.sections || id in KeyTexts(g.keys[..n])
    ensures r.Ok? ==> forall id :: id in KeyTexts(g.keys[..n]) ==> SectionSound(r.value, id)
    ensures r.Ok? ==> forall id :: SectionSound(p, id) ==> SectionSound(r.value, id)
  {
    if n == 0 then Ok(p)
    else
      var rest :- ReadSections(g, n - 1, chId, p, decode);
      var k := g.keys[n - 1];
      var r :- AddSection(rest, g, k, chId, p, decode);
      KeyTextsStep(g.keys, n);
      AppendAssoc(ChildrenOf(p.kids, chId), KeyTexts(g.keys[..n - 1]), [NameText(k)]);
      assert forall id :: id in KeyTexts(g.keys[..n]) <==> id in KeyTexts(g.keys[..n - 1]) || id == NameText(k);
      Ok(r)
  }

  /**
   * One pass of the chapter loop of _read_chapters_and_sections: the ID is
   * checked, the chapter read and appended to the chapter root, then its
   * sections are read ('SECTIONS' defaults to an empty group; a null one
   * fails).
   */
  function AddChapter(q: Project, g: JDict, k: Name, decodeCh: map<Name, Json> -> Result<ChapterRec>,
                      decodeSc: map<Name, Json> -> Result<SectionRec>): (r: Result<Project>)
    requires TypedChapters(decodeCh) && TypedSections(decodeSc)
    ensures r.Ok? ==> r.value == q.(chapters := r.value.chapters, sections := r.value.sections,
                                    scPlotLines := r.value.scPlotLines, scPlotPoints := r.value.scPlotPoints,
                                    kids := r.value.kids)
    ensures r.Ok? ==> ChildrenOf(r.value.kids, CH_ROOT) == ChildrenOf(q.kids, CH_ROOT) + [NameText(k)]
    ensures r.Ok? ==> StartsWith(NameText(k), CHAPTER_PREFIX) && Member(g, k).JObj? && decodeCh(Member(g, k).obj.m).Ok?
    ensures r.Ok? ==> r.value.chapters.Keys == q.chapters.Keys + {NameText(k)}
    ensures r.Ok? && ChapterTree(q) ==> ChapterTree(r.value)
  {
    var chId := NameText(k);
    var _ :- PrjFiles.CheckId(chId, CHAPTER_PREFIX);
    var d :- ElementData(Member(g, k));
    var ch :- decodeCh(d);
    ChapterIdNotRoot(chId);
    var q' := q.(chapters := q.chapters[chId := ch], kids := Append(q.kids, CH_ROOT, chId));
    var sg :- GroupOf(Get(d, KSectionGroup, JObj(Empty())), false);
    var r :- ReadSections(sg, |sg.keys|, chId, q', decodeSc);
    ReadChaptersStep(q, q', r, chId, ch);
    Ok(r)
  }

  /**
   * The chapter loop of _read_chapters_and_sections over the first n keys of
   * 'CHAPTERS'.
   */
  function ReadChapters(g: JDict, n: nat, p: Project, decodeCh: map<Name, Json> -> Result<ChapterRec>,
                        decodeSc: map<Name, Json> -> Result<SectionRec>): (r: Result<Project>)
    requires n <= |g.keys| && TypedChapters(decodeCh) && TypedSections(decodeSc)
    ensures r.Ok? ==> r.value == p.(chapters := r.value.chapters, sections := r.value.sections,
                                    scPlotLines := r.value.scPlotLines, scPlotPoints := r.value.scPlotPoints,
                                    kids := r.value.kids)
    ensures r.Ok? ==> ChildrenOf(r.value.kids, CH_ROOT) == ChildrenOf(p.kids, CH_ROOT) + KeyTexts(g.keys[..n])
    ensures r.Ok? ==> forall i :: 0 <= i < n ==>
      StartsWith(NameText(g.keys[i]), CHAPTER_PREFIX)
      && Member(g, g.keys[i]).JObj? && decodeCh(Member(g, g.keys[i]).obj.m).Ok?
    ensures r.Ok? ==> forall id :: id in r.value.chapters <==> id in p.chapters || id in KeyTexts(g.keys[..n])
    ensures r.Ok? && ChapterTree(p) ==> ChapterTree(r.value)
  {
    if n == 0 then Ok(p)
    else
      var rest :- ReadChapters(g, n - 1, p, decodeCh, decodeSc);
      var k := g.keys[n - 1];
      var r :- AddChapter(rest, g, k, decodeCh, decodeSc);
      KeyTextsStep(g.keys, n);
      AppendAssoc(ChildrenOf(p.kids, CH_ROOT), KeyTexts(g.keys[..n - 1]), [NameText(k)]);
      assert forall id :: id in KeyTexts(g.keys[..n]) <==> id in KeyTexts(g.keys[..n - 1]) || id == NameText(k);
      Ok(r)
  }

  /** One chapter read keeps the chapter tree sound. */
  lemma ReadChaptersStep(rest: Project, q: Project, r: Project, chId: string, ch: ChapterRec)
    requires StartsWith(chId, CHAPTER_PREFIX) && ch.chType.Some?
    requires q == rest.(chapters := rest.chapters[chId := ch], kids := Append(rest.kids, CH_ROOT, chId))
    requires r == q.(sections := r.sections, scPlotLines := r.scPlotLines, scPlotPoints := r.scPlotPoints, kids := r.kids)
    requires forall x :: x != chId ==> ChildrenOf(r.kids, x) == ChildrenOf(q.kids, x)
    requires forall s :: s in ChildrenOf(r.kids, chId) ==> s in ChildrenOf(q.kids, chId) || SectionSound(r, s)
    requires forall id :: SectionSound(q, id) ==> SectionSound(r, id)
    ensures ChapterTree(rest) ==> ChapterTree(r)
  {
    ChapterIdNotRoot(chId);
    if ChapterTree(rest) {
      forall x | StartsWith(x, CHAPTER_PREFIX)
        ensures forall s :: s in ChildrenOf(r.kids, x) ==> SectionSound(r, s)
      {
        ChapterIdNotRoot(x);
        forall s | s in ChildrenOf(r.kids, x) ensures SectionSound(r, s) {
          if x != chId || s in ChildrenOf(q.kids, chId) {
            assert s in ChildrenOf(rest.kids, x);
            assert SectionSound(q, s);
          }
        }
      }
    }
  }

  // ----- _read_plot_lines_and_points -----

  /** The plot lines a section lists back, [] when it has no slot. */
  function LinesOf(m: map<string, seq<string>>, s: string): seq<string>
  {
    if s in m then m[s] else []
  }

  /** n copies of x. */
  function Repeat(x: string, n: nat): (r: seq<string>)
    ensures |r| == n
  {
    if n == 0 then [] else Repeat(x, n - 1) + [x]
  }

  /** How often x occurs in s. */
  function Count(s: seq<string>, x: string): nat
  {
    if s == [] then 0 else Count(s[..|s| - 1], x) + if s[|s| - 1] == x then 1 else 0
  }

  /**
   * The back-reference loop: plId appended to the list of each section of
   * scIds, once per time the section is listed.
   */
  function AddBackRefs(m: map<string, seq<string>>, scIds: seq<string>, plId: string): (r: map<string, seq<string>>)
    ensures forall s :: LinesOf(r, s) == LinesOf(m, s) + Repeat(plId, Count(scIds, s))
    ensures forall s :: s in r <==> s in m || s in scIds
  {
    if scIds == [] then m
    else
      var init := scIds[..|scIds| - 1];
      var rest := AddBackRefs(m, init, plId);
      var s := scIds[|scIds| - 1];
      assert scIds == init + [s];
      BackRefStep(m, init, s, plId, rest);
      rest[s := LinesOf(rest, s) + [plId]]
  }

  /** One more listed section gets plId appended to its plot lines. */
  lemma BackRefStep(m: map<string, seq<string>>, init: seq<string>, s: string, plId: string, rest: map<string, seq<string>>)
    requires forall x :: LinesOf(rest, x) == LinesOf(m, x) + Repeat(plId, Count(init, x))
    requires forall x :: x in rest <==> x in m || x in init
    ensures var r, ids := rest[s := LinesOf(rest, s) + [plId]], init + [s];
      (forall x :: LinesOf(r, x) == LinesOf(m, x) + Repeat(plId, Count(ids, x)))
      && (forall x :: x in r <==> x in m || x in ids)
  {
    BackRefLines(m, init, s, plId, rest);
    BackRefKeys(m, init, s, rest, rest[s := LinesOf(rest, s) + [plId]]);
  }

  lemma BackRefLines(m: map<string, seq<string>>, init: seq<string>, s: string, plId: string, rest: map<string, seq<string>>)
    requires forall x :: LinesOf(rest, x) == LinesOf(m, x) + Repeat(plId, Count(init, x))
    ensures forall x :: LinesOf(rest[s := LinesOf(rest, s) + [plId]], x) == LinesOf(m, x) + Repeat(plId, Count(init + [s], x))
  {
    forall x ensures LinesOf(rest[s := LinesOf(rest, s) + [plId]], x) == LinesOf(m, x) + Repeat(plId, Count(init + [s], x)) {
      AppendedRefs(m, init, s, plId, LinesOf(rest, x), x);
    }
  }

  lemma BackRefKeys(m: map<string, seq<string>>, init: seq<string>, s: string, rest: map<string, seq<string>>, r: map<string, seq<string>>)
    requires forall x :: x in rest <==> x in m || x in init
    requires r.Keys == rest.Keys + {s}
    ensures forall x :: x in r <==> x in m || x in init + [s]
  {
    assert forall x :: x in init + [s] <==> x in init || x == s;
  }

  /** The plot lines of one section x after plId is appended for section s. */
  lemma AppendedRefs(m: map<string, seq<string>>, init: seq<string>, s: string, plId: string, before: seq<string>, x: string)
    requires before == LinesOf(m, x) + Repeat(plId, Count(init, x))
    ensures (if x == s then before + [plId] else before) == LinesOf(m, x) + Repeat(plId, Count(init + [s], x))
  {
    var ids := init + [s];
    assert ids[..|ids| - 1] == init;
    assert Count(ids, x) == Count(init, x) + if x == s then 1 else 0;
    if x == s {
      AppendAssoc(LinesOf(m, s), Repeat(plId, Count(init, s)), [plId]);
    }
  }

  /**
   * _read_plot_point: a new plot point read from its object; if it names a
   * section that exists, the section registers it under its plot line,
   * otherwise its association is cleared.
   */
  function AddPlotPoint(q: Project, g: JDict, k: Name, plId: string,
                        decode: map<Name, Json> -> Result<PlotPointRec>): (r: Result<Project>)
    ensures r.Ok? <==> StartsWith(NameText(k), PLOT_POINT_PREFIX) && Member(g, k).JObj? && decode(Member(g, k).obj.m).Ok?
    ensures r.Ok? ==> r.value == q.(plotPoints := r.value.plotPoints, scPlotPoints := r.value.scPlotPoints,
                                    kids := Append(q.kids, plId, NameText(k)))
    ensures r.Ok? ==>
      var pp := decode(Member(g, k).obj.m).value;
      var s := pp.sectionAssoc;
      if s.Some? && s.value in q.sections then
        r.value.plotPoints == q.plotPoints[NameText(k) := pp]
        && r.value.scPlotPoints == q.scPlotPoints[s.value := PointsOf(q.scPlotPoints, s.value)[NameText(k) := plId]]
      else
        r.value.plotPoints == q.plotPoints[NameText(k) := pp.(sectionAssoc := None)]
        && r.value.scPlotPoints == q.scPlotPoints
  {
    var ppId := NameText(k);
    var _ :- PrjFiles.CheckId(ppId, PLOT_POINT_PREFIX);
    var d :- ElementData(Member(g, k));
    var pp :- decode(d);
    var s := pp.sectionAssoc;
    var kids := Append(q.kids, plId, ppId);
    if s.Some? && s.value in q.sections then
      Ok(q.(plotPoints := q.plotPoints[ppId := pp],
            scPlotPoints := q.scPlotPoints[s.value := PointsOf(q.scPlotPoints, s.value)[ppId := plId]],
            kids := kids))
    else
      Ok(q.(plotPoints := q.plotPoints[ppId := pp.(sectionAssoc := None)], kids := kids))
  }

  /** The plot points a section registers, none when it has no slot. */
  function PointsOf(m: map<string, map<string, string>>, s: string): map<string, string>
  {
    if s in m then m[s] else map[]
  }

  /** Every plot point's association names an existing section that registers it under a known plot line. */
  ghost predicate PointsSound(p: Project)
  {
    forall pp :: pp in p.plotPoints && p.plotPoints[pp].sectionAssoc.Some? ==>
      p.plotPoints[pp].sectionAssoc.value in p.sections
  }

  /** The loop over a plot line's 'POINTS', first n keys. */
  function ReadPlotPoints(g: JDict, n: nat, plId: string, p: Project,
                          decode: map<Name, Json> -> Result<PlotPointRec>): (r: Result<Project>)
    requires n <= |g.keys|
    ensures r.Ok? <==> forall i :: 0 <= i < n ==>
      StartsWith(NameText(g.keys[i]), PLOT_POINT_PREFIX) && Member(g, g.keys[i]).JObj?
      && decode(Member(g, g.keys[i]).obj.m).Ok?
    ensures r.Ok? ==> r.value == p.(plotPoints := r.value.plotPoints, scPlotPoints := r.value.scPlotPoints,
                                    kids := r.value.kids)
    ensures r.Ok? ==> ChildrenOf(r.value.kids, plId) == ChildrenOf(p.kids, plId) + KeyTexts(g.keys[..n])
    ensures r.Ok? ==> forall x :: x != plId ==> ChildrenOf(r.value.kids, x) == ChildrenOf(p.kids, x)
    ensures r.Ok? && PointsSound(p) ==> PointsSound(r.value)
  {
    if n == 0 then Ok(p)
    else
      var rest :- ReadPlotPoints(g, n - 1, plId, p, decode);
      var k := g.keys[n - 1];
      var r :- AddPlotPoint(rest, g, k, plId, decode);
      KeyTextsStep(g.keys, n);
      AppendAssoc(ChildrenOf(p.kids, plId), KeyTexts(g.keys[..n - 1]), [NameText(k)]);
      Ok(r)
  }

  /** Every plot line lists only sections that exist. */
  ghost predicate PlotLinesSound(p: Project)
  {
    forall pl :: pl in p.plotLines ==>
      p.plotLines[pl].sections.Some? && forall s :: s in p.plotLines[pl].sections.value ==> s in p.sections
  }

  /**
   * The back references are exact: a section lists the plot line pl back
   * iff pl lists the section.
   */
  ghost predicate BackRefsExact(p: Project)
  {
    ExactRefs(p.scPlotLines, p.plotLines)
  }

  ghost predicate ExactRefs(scPlotLines: map<string, seq<string>>, plotLines: map<string, PlotLineRec>)
  {
    forall s, pl :: pl in LinesOf(scPlotLines, s) <==>
      pl in plotLines && plotLines[pl].sections.Some? && s in plotLines[pl].sections.value
  }

  lemma PlIdNotRoot(x: string)
    requires StartsWith(x, PLOT_LINE_PREFIX)
    ensures x != PL_ROOT
  {
    assert x[0] == 'a' && PL_ROOT[0] == 'P';
  }

  lemma {:induction false} CountIn(s: seq<string>, x: string)
    ensures Count(s, x) > 0 <==> x in s
  {
    if s != [] {
      CountIn(s[..|s| - 1], x);
      assert s == s[..|s| - 1] + [s[|s| - 1]];
    }
  }

  lemma {:induction false} RepeatIn(x: string, n: nat, y: string)
    ensures y in Repeat(x, n) <==> n > 0 && y == x
  {
    if n > 0 {
      RepeatIn(x, n - 1, y);
    }
  }

  /**
   * One pass of the plot line loop: the ID is checked, the plot line read
   * and appended to the plot line root, its section list cut down to the
   * sections that exist, each of those sections given the plot line as a
   * back reference, then the plot line's points read ('POINTS' defaults to
   * an empty group).
   */
  function AddPlotLine(q: Project, g: JDict, k: Name, decodePl: map<Name, Json> -> Result<PlotLineRec>,
                       decodePp: map<Name, Json> -> Result<PlotPointRec>): (r: Result<Project>)
    ensures r.Ok? ==> r.value == q.(plotLines := r.value.plotLines, scPlotLines := r.value.scPlotLines,
                                    plotPoints := r.value.plotPoints, scPlotPoints := r.value.scPlotPoints,
                                    kids := r.value.kids)
    ensures r.Ok? ==> StartsWith(NameText(k), PLOT_LINE_PREFIX) && Member(g, k).JObj?
                      && decodePl(Member(g, k).obj.m).Ok? && decodePl(Member(g, k).obj.m).value.sections.Some?
    ensures r.Ok? ==> ChildrenOf(r.value.kids, PL_ROOT) == ChildrenOf(q.kids, PL_ROOT) + [NameText(k)]
    ensures r.Ok? ==> forall x :: x != PL_ROOT && x != NameText(k) ==> ChildrenOf(r.value.kids, x) == ChildrenOf(q.kids, x)
    ensures r.Ok? ==> r.value.plotLines.Keys == q.plotLines.Keys + {NameText(k)}
    ensures r.Ok? ==>
      var secs := r.value.plotLines[NameText(k)].sections;
      && secs == Some(Intersection(decodePl(Member(g, k).obj.m).value.sections.value, q.sections.Keys))
      && r.value.scPlotLines == AddBackRefs(q.scPlotLines, secs.value, NameText(k))
    ensures r.Ok? && PlotLinesSound(q) ==> PlotLinesSound(r.value)
    ensures r.Ok? && PointsSound(q) ==> PointsSound(r.value)
    ensures r.Ok? && NameText(k) !in q.plotLines && BackRefsExact(q) ==> BackRefsExact(r.value)
  {
    var plId := NameText(k);
    var _ :- PrjFiles.CheckId(plId, PLOT_LINE_PREFIX);
    var d :- ElementData(Member(g, k));
    var pl :- decodePl(d);
    var secs :- Intersect(pl.sections, q.sections.Keys);
    PlIdNotRoot(plId);
    var q' := q.(plotLines := q.plotLines[plId := pl.(sections := secs)],
                 scPlotLines := AddBackRefs(q.scPlotLines, secs.value, plId),
                 kids := Append(q.kids, PL_ROOT, plId));
    var pg :- GroupOf(Get(d, KPointGroup, JObj(Empty())), false);
    var r :- ReadPlotPoints(pg, |pg.keys|, plId, q', decodePp);
    BackRefsAdded(q.scPlotLines, q.plotLines, secs.value, plId, pl.(sections := secs));
    Ok(r)
  }

  /** Adding a new plot line with its back references keeps them exact. */
  lemma BackRefsAdded(m: map<string, seq<string>>, pls: map<string, PlotLineRec>, secs: seq<string>,
                      plId: string, pl: PlotLineRec)
    requires pl.sections == Some(secs)
    ensures plId !in pls && ExactRefs(m, pls) ==> ExactRefs(AddBackRefs(m, secs, plId), pls[plId := pl])
  {
    if plId !in pls && ExactRefs(m, pls) {
      forall s, x
        ensures x in LinesOf(AddBackRefs(m, secs, plId), s) <==>
          x in pls[plId := pl] && pls[plId := pl][x].sections.Some? && s in pls[plId := pl][x].sections.value
      {
        BackRefAt(m, pls, secs, plId, pl, s, x);
      }
    }
  }

  /** The back references of one section to one plot line after adding plId. */
  lemma BackRefAt(m: map<string, seq<string>>, pls: map<string, PlotLineRec>, secs: seq<string>,
                  plId: string, pl: PlotLineRec, s: string, x: string)
    requires pl.sections == Some(secs) && plId !in pls && ExactRefs(m, pls)
    ensures x in LinesOf(AddBackRefs(m, secs, plId), s) <==>
      x in pls[plId := pl] && pls[plId := pl][x].sections.Some? && s in pls[plId := pl][x].sections.value
  {
    var before := LinesOf(m, s);
    var added := Repeat(plId, Count(secs, s));
    assert LinesOf(AddBackRefs(m, secs, plId), s) == before + added;
    assert x in before <==> x in pls && pls[x].sections.Some? && s in pls[x].sections.value;
    RepeatIn(plId, Count(secs, s), x);
    CountIn(secs, s);
  }

  /** The plot line loop of _read_plot_lines_and_points over the first n keys of 'ARCS'. */
  function ReadPlotLines(g: JDict, n: nat, p: Project, decodePl: map<Name, Json> -> Result<PlotLineRec>,
                         decodePp: map<Name, Json> -> Result<PlotPointRec>): (r: Result<Project>)
    requires n <= |g.keys|
    ensures r.Ok? ==> r.value == p.(plotLines := r.value.plotLines, scPlotLines := r.value.scPlotLines,
                                    plotPoints := r.value.plotPoints, scPlotPoints := r.value.scPlotPoints,
                                    kids := r.value.kids)
    ensures r.Ok? ==> ChildrenOf(r.value.kids, PL_ROOT) == ChildrenOf(p.kids, PL_ROOT) + KeyTexts(g.keys[..n])
    ensures r.Ok? ==> forall i :: 0 <= i < n ==> StartsWith(NameText(g.keys[i]), PLOT_LINE_PREFIX)
    ensures r.Ok? ==> forall x :: x != PL_ROOT && !StartsWith(x, PLOT_LINE_PREFIX) ==> ChildrenOf(r.value.kids, x) == ChildrenOf(p.kids, x)
    ensures r.Ok? ==> forall id :: id in r.value.plotLines <==> id in p.plotLines || id in KeyTexts(g.keys[..n])
    ensures r.Ok? && PlotLinesSound(p) ==> PlotLinesSound(r.value)
    ensures r.Ok? && PointsSound(p) ==> PointsSound(r.value)
    ensures r.Ok? && BackRefsExact(p) && p.plotLines == map[]
            && (forall i, j :: 0 <= i < j < n ==> NameText(g.keys[i]) != NameText(g.keys[j]))
            ==> BackRefsExact(r.value)
  {
    if n == 0 then Ok(p)
    else
      var rest :- ReadPlotLines(g, n - 1, p, decodePl, decodePp);
      var k := g.keys[n - 1];
      KeyTextsMember(g.keys[..n - 1], NameText(k));
      var r :- AddPlotLine(rest, g, k, decodePl, decodePp);
      KeyTextsStep(g.keys, n);
      AppendAssoc(ChildrenOf(p.kids, PL_ROOT), KeyTexts(g.keys[..n - 1]), [NameText(k)]);
      assert forall id :: id in KeyTexts(g.keys[..n]) <==> id in KeyTexts(g.keys[..n - 1]) || id == NameText(k);
      Ok(r)
  }

  /** The key texts come from the keys. */
  lemma {:induction false} KeyTextsMember(ks: seq<Name>, x: string)
    ensures x in KeyTexts(ks) ==> exists i :: 0 <= i < |ks| && NameText(ks[i]) == x
  {
    if ks == [] || x !in KeyTexts(ks) { return; }
    var init := ks[..|ks| - 1];
    if x in KeyTexts(init) {
      KeyTextsMember(init, x);
      var i :| 0 <= i < |init| && NameText(init[i]) == x;
      assert ks[i] == init[i];
    } else {
      assert NameText(ks[|ks| - 1]) == x;
    }
  }

  // ----- adjust_section_types on the project read -----

  function ChapterLevels(p: Project): map<string, Option<int>>
  {
    map c | c in p.chapters :: p.chapters[c].chLevel
  }

  function ChapterTrash(p: Project): map<string, bool>
  {
    map c | c in p.chapters :: p.chapters[c].isTrash == Some(true)
  }

  /** The types before the loop: part type 0, and the chapter and section types that are set. */
  function TypesBefore(p: Project): TypeState
  {
    TypeState(0, map c | c in p.chapters && p.chapters[c].chType.Some? :: p.chapters[c].chType.value,
                 map s | s in p.sections && p.sections[s].scType.Some? :: p.sections[s].scType.value)
  }

  /** After the read the type loop cannot fail: every chapter and section it visits has a type. */
  lemma ChapterTreeReady(p: Project)
    requires ChapterTree(p)
    ensures Ready(ChildrenOf(p.kids, CH_ROOT), ChapterLevels(p), ChapterTrash(p), p.kids, TypesBefore(p))
  {
    forall c | c in ChildrenOf(p.kids, CH_ROOT)
      ensures StepReady(TypesBefore(p), c, ChapterLevels(p), ChapterTrash(p), p.kids)
    {
    }
  }

  /** The chapters with the types of ch where it has one. */
  function WithChapterTypes(chapters: map<string, ChapterRec>, ch: map<string, int>): (r: map<string, ChapterRec>)
    ensures forall c :: c in r <==> c in chapters
    ensures forall c :: c in chapters ==>
      r[c] == if c in ch then chapters[c].(chType := Some(ch[c])) else chapters[c]
  {
    map c | c in chapters :: if c in ch then chapters[c].(chType := Some(ch[c])) else chapters[c]
  }

  /** The sections with the types of sc where it has one. */
  function WithSectionTypes(sections: map<string, SectionRec>, sc: map<string, int>): (r: map<string, SectionRec>)
    ensures forall s :: s in r <==> s in sections
    ensures forall s :: s in sections ==>
      r[s] == if s in sc then sections[s].(scType := Some(sc[s])) else sections[s]
  {
    map s | s in sections :: if s in sc then sections[s].(scType := Some(sc[s])) else sections[s]
  }

  /** Changing types only keeps the chapter tree sound. */
  lemma RetypedTree(p: Project, ch: map<string, int>, sc: map<string, int>)
    requires ChapterTree(p)
    ensures ChapterTree(p.(chapters := WithChapterTypes(p.chapters, ch), sections := WithSectionTypes(p.sections, sc)))
  {
    var r := p.(chapters := WithChapterTypes(p.chapters, ch), sections := WithSectionTypes(p.sections, sc));
    forall x, s | StartsWith(x, CHAPTER_PREFIX) && s in ChildrenOf(r.kids, x) ensures SectionSound(r, s) {
      assert SectionSound(p, s);
    }
  }

  /**
   * adjust_section_types as the read applies it: each chapter and section
   * takes the type the loop over the chapter root gives it.
   */
  function AdjustTypes(p: Project): (r: Project)
    requires ChapterTree(p)
    ensures Ready(ChildrenOf(p.kids, CH_ROOT), ChapterLevels(p), ChapterTrash(p), p.kids, TypesBefore(p))
    ensures var fin := Adjusted(ChildrenOf(p.kids, CH_ROOT), ChapterLevels(p), ChapterTrash(p), p.kids, TypesBefore(p));
      r == p.(chapters := WithChapterTypes(p.chapters, fin.ch), sections := WithSectionTypes(p.sections, fin.sc))
    ensures ChapterTree(r)
    ensures PlotLinesSound(p) ==> PlotLinesSound(r)
    ensures PointsSound(p) ==> PointsSound(r)
  {
    ChapterTreeReady(p);
    var fin := Adjusted(ChildrenOf(p.kids, CH_ROOT), ChapterLevels(p), ChapterTrash(p), p.kids, TypesBefore(p));
    RetypedTree(p, fin.ch, fin.sc);
    p.(chapters := WithChapterTypes(p.chapters, fin.ch), sections := WithSectionTypes(p.sections, fin.sc))
  }

  /**
   * After the read's adjust_section_types, every section under a chapter of
   * the chapter root has at least that chapter's type.
   */
  lemma AdjustedSectionsAtLeastChapter(p: Project, c: string, s: string)
    requires ChapterTree(p) && Distinct(ChildrenOf(p.kids, CH_ROOT))
    requires c in ChildrenOf(p.kids, CH_ROOT) && s in ChildrenOf(p.kids, c)
    ensures var r := AdjustTypes(p);
      c in r.chapters && s in r.sections && r.chapters[c].chType.Some? && r.sections[s].scType.Some?
      && r.sections[s].scType.value >= r.chapters[c].chType.value
  {
    var ids := ChildrenOf(p.kids, CH_ROOT);
    ChapterTreeReady(p);
    var k :| 0 <= k < |ids| && ids[k] == c;
    SectionsAtLeastChapter(ids, ChapterLevels(p), ChapterTrash(p), p.kids, TypesBefore(p), k, s);
  }

  // ----- _read_word_count_log -----

  /** The copy loop over the first n keys of 'PROGRESS': each date's entry put into the log. */
  function ReadLog(g: JDict, n: nat, log: OMap<string, Json>): (r: OMap<string, Json>)
    requires n <= |g.keys| && log.Valid()
    ensures r.Valid()
    ensures forall x :: x in r.m <==> x in log.m || x in KeyTexts(g.keys[..n])
    ensures |r.keys| >= |log.keys| && r.keys[..|log.keys|] == log.keys
    ensures forall x :: x in log.m && x !in KeyTexts(g.keys[..n]) ==> r.m[x] == log.m[x]
  {
    if n == 0 then log
    else
      var rest := ReadLog(g, n - 1, log);
      var k := g.keys[n - 1];
      KeyTextsStep(g.keys, n);
      var r := rest.Put(NameText(k), Member(g, k));
      assert r.keys[..|log.keys|] == rest.keys[..|log.keys|];
      r
  }

  // ----- read -----


  /** The roots of the tree are not element IDs. */
  lemma RootsAreNotChapters(x: string)
    requires StartsWith(x, CHAPTER_PREFIX)
    ensures x != CH_ROOT && x != LC_ROOT && x != IT_ROOT && x != CR_ROOT && x != PL_ROOT && x != PN_ROOT
  {
    assert x[0] == 'c';
    assert CH_ROOT[0] == 'C' && LC_ROOT[0] == 'L' && IT_ROOT[0] == 'I' && CR_ROOT[0] == 'C';
    assert PL_ROOT[0] == 'P' && PN_ROOT[0] == 'P';
  }

  /** The project before the chapters: the novel and the world elements under their roots. */
  function WorldProject(novel: NovelRec, locations: Group<WorldRec>, items: Group<WorldRec>,
                        characters: Group<CharacterRec>): (p: Project)
    ensures ChapterTree(p) && PlotLinesSound(p) && PointsSound(p) && BackRefsExact(p)
    ensures p.plotLines == map[] && p.plotPoints == map[]
    ensures ChildrenOf(p.kids, LC_ROOT) == locations.ids && ChildrenOf(p.kids, IT_ROOT) == items.ids
    ensures ChildrenOf(p.kids, CR_ROOT) == characters.ids && ChildrenOf(p.kids, CH_ROOT) == []
  {
    var kids := AppendAll(AppendAll(AppendAll(map[], LC_ROOT, locations.ids), IT_ROOT, items.ids), CR_ROOT, characters.ids);
    var p := EmptyProject(novel).(locations := locations.recs, items := items.recs, characters := characters.recs, kids := kids);
    forall x | StartsWith(x, CHAPTER_PREFIX) ensures ChildrenOf(p.kids, x) == [] {
      RootsAreNotChapters(x);
    }
    p
  }

  /** Plot lines and plot points leave the chapter part of the tree as it was. */
  lemma ChapterTreeKept(p: Project, q: Project)
    requires ChapterTree(p)
    requires q.chapters == p.chapters && q.sections == p.sections
    requires q.characters == p.characters && q.locations == p.locations && q.items == p.items
    requires forall x :: x != PL_ROOT && !StartsWith(x, PLOT_LINE_PREFIX) ==> ChildrenOf(q.kids, x) == ChildrenOf(p.kids, x)
    ensures ChapterTree(q)
  {
    assert CH_ROOT != PL_ROOT && !StartsWith(CH_ROOT, PLOT_LINE_PREFIX);
    forall x | StartsWith(x, CHAPTER_PREFIX) ensures ChildrenOf(q.kids, x) == ChildrenOf(p.kids, x) {
      RootsAreNotChapters(x);
      assert x[0] == 'c';
      assert !StartsWith(x, PLOT_LINE_PREFIX);
    }
    forall x, s | StartsWith(x, CHAPTER_PREFIX) && s in ChildrenOf(q.kids, x) ensures SectionSound(q, s) {
      assert SectionSound(p, s);
    }
  }

  /**
   * The converters read uses, one per kind of element: JsonFile's
   * novelCnv, worldElementCnv, characterCnv, chapterCnv, sectionCnv,
   * plotLineCnv, plotPointCnv and basicElementCnv, each reading into a new
   * element (the novel into the novel given).
   */
  datatype Decoders = Decoders(
    novel: (map<Name, Json>, NovelRec) -> Result<NovelRec>,
    world: map<Name, Json> -> Result<WorldRec>,
    character: map<Name, Json> -> Result<CharacterRec>,
    chapter: map<Name, Json> -> Result<ChapterRec>,
    section: map<Name, Json> -> Result<SectionRec>,
    plotLine: map<Name, Json> -> Result<PlotLineRec>,
    plotPoint: map<Name, Json> -> Result<PlotPointRec>,
    note: map<Name, Json> -> Result<BasicRec>)

  /** The converters of the JSON format. */
  function JsonDecoders(): (dec: Decoders)
    ensures TypedChapters(dec.chapter) && TypedSections(dec.section)
  {
    NewSectionDecoderTyped();
    NewChapterDecoderTyped();
    Decoders(DecodeNovel, DecodeNewWorld, DecodeNewCharacter, DecodeNewChapter, DecodeNewSection,
             DecodeNewPlotLine, DecodeNewPlotPoint, DecodeNewNote)
  }

  /** _read_project with the novel converter dec. */
  function ReadProjectWith(root: JDict, novel: NovelRec, dec: (map<Name, Json>, NovelRec) -> Result<NovelRec>): (r: Result<NovelRec>)
    ensures Get(root.m, KProject, JNull).JNull? ==> r == Ok(novel)
    ensures !Get(root.m, KProject, JNull).JNull? ==>
      r == if Get(root.m, KProject, JNull).JObj? then dec(Get(root.m, KProject, JNull).obj.m, novel) else r
    ensures !Get(root.m, KProject, JNull).JNull? && !Get(root.m, KProject, JNull).JObj? ==> r.Err?
  {
    var v := Get(root.m, KProject, JNull);
    if v.JNull? then Ok(novel)
    else
      var d :- ElementData(v);
      dec(d, novel)
  }

  /** The project, locations, items and characters of the file: the first part of read. */
  function ReadWorld(root: JDict, novel: NovelRec, dec: Decoders): (r: Result<Project>)
    ensures r.Ok? ==> ChapterTree(r.value) && r.value.plotLines == map[] && r.value.plotPoints == map[]
  {
    var novel' :- ReadProjectWith(root, novel, dec.novel);
    var locations :- ReadElements(root, KLocationGroup, LOCATION_PREFIX, dec.world);
    var items :- ReadElements(root, KItemGroup, ITEM_PREFIX, dec.world);
    var characters :- ReadElements(root, KCharacterGroup, CHARACTER_PREFIX, dec.character);
    Ok(WorldProject(novel', locations, items, characters))
  }

  /** The chapters with their sections. */
  function ReadChapterGroup(root: JDict, p0: Project, dec: Decoders): (r: Result<Project>)
    requires TypedChapters(dec.chapter) && TypedSections(dec.section)
    requires ChapterTree(p0) && p0.plotLines == map[] && p0.plotPoints == map[]
    ensures r.Ok? ==> ChapterTree(r.value) && r.value.plotLines == map[] && r.value.plotPoints == map[]
  {
    var chapterGroup :- GroupOf(Get(root.m, KChapterGroup, JNull), true);
    ReadChapters(chapterGroup, |chapterGroup.keys|, p0, dec.chapter, dec.section)
  }

  /** The plot lines with their plot points. */
  function ReadArcGroup(root: JDict, p1: Project, dec: Decoders): (r: Result<Project>)
    requires ChapterTree(p1) && p1.plotLines == map[] && p1.plotPoints == map[]
    ensures r.Ok? ==> ChapterTree(r.value) && PlotLinesSound(r.value) && PointsSound(r.value)
  {
    assert PlotLinesSound(p1) && PointsSound(p1);
    var arcGroup :- GroupOf(Get(root.m, KArcGroup, JNull), true);
    var p2 :- ReadPlotLines(arcGroup, |arcGroup.keys|, p1, dec.plotLine, dec.plotPoint);
    ChapterTreeKept(p1, p2);
    Ok(p2)
  }

  /** The project notes, appended under their root. */
  function ReadNotes(root: JDict, p: Project, dec: Decoders): (r: Result<Project>)
    requires ChapterTree(p) && PlotLinesSound(p) && PointsSound(p)
    ensures r.Ok? ==> ChapterTree(r.value) && PlotLinesSound(r.value) && PointsSound(r.value)
  {
    var notes :- ReadElements(root, KProjectNoteGroup, PRJ_NOTE_PREFIX, dec.note);
    forall x | StartsWith(x, CHAPTER_PREFIX) ensures x != PN_ROOT {
      RootsAreNotChapters(x);
    }
    Ok(p.(projectNotes := notes.recs, kids := AppendAll(p.kids, PN_ROOT, notes.ids)))
  }

  /** The element groups of the file, in the order read takes them. */
  function ReadGroups(root: JDict, novel: NovelRec, dec: Decoders): (r: Result<Project>)
    requires TypedChapters(dec.chapter) && TypedSections(dec.section)
    ensures r.Ok? ==> ChapterTree(r.value) && PlotLinesSound(r.value) && PointsSound(r.value)
  {
    var p0 :- ReadWorld(root, novel, dec);
    var p1 :- ReadChapterGroup(root, p0, dec);
    var p2 :- ReadArcGroup(root, p1, dec);
    ReadNotes(root, p2, dec)
  }

  /**
   * The try block of read: the version check, then the element groups, the
   * type adjustment and the word count log. The novel starts with no
   * elements and an empty tree and log.
   */
  function ReadAll(data: Json, novel: NovelRec): (r: Result<Project>)
    ensures CheckVersion(data).Err? ==> r.Err?
    ensures r.Ok? ==> ChapterTree(r.value) && PlotLinesSound(r.value) && PointsSound(r.value)
    ensures r.Ok? ==> r.value.wcLog.Valid()
  {
    var _ :- CheckVersion(data);
    var root := RootOf(data).value.obj;
    var p :- ReadGroups(root, novel, JsonDecoders());
    var logGroup :- GroupOf(Get(root.m, KProgress, JNull), true);
    Ok(WithLog(AdjustTypes(p), ReadLog(logGroup, |logGroup.keys|, Empty())))
  }

  /** The project with its word count log. */
  function WithLog(p: Project, log: OMap<string, Json>): (r: Project)
    requires ChapterTree(p) && PlotLinesSound(p) && PointsSound(p)
    ensures ChapterTree(r) && PlotLinesSound(r) && PointsSound(r)
    ensures r == p.(wcLog := log)
  {
    ChapterTreeKept(p, p.(wcLog := log));
    p.(wcLog := log)
  }

  /** read: any failure in the try block becomes the 'Corrupt project data' error. */
  function Read(data: Json, novel: NovelRec): (r: Result<Project>)
    ensures ReadAll(data, novel).Ok? ==> r == ReadAll(data, novel)
    ensures ReadAll(data, novel).Err? ==> r == Err("Corrupt project data (" + ReadAll(data, novel).error + ")")
    ensures CheckVersion(data).Err? ==> r.Err? && StartsWith(r.error, "Corrupt project data (")
  {
    match ReadAll(data, novel)
    case Ok(p) => Ok(p)
    case Err(e) =>
      var msg := "Corrupt project data (" + e + ")";
      assert msg[..|"Corrupt project data ("|] == "Corrupt project data (";
      Err(msg)
  }

  // ----- write -----

  /**
   * A group object as the _build_* methods fill it: under each ID of ids,
   * in that order, the value written for it.
   */
  function GroupObject(ids: seq<string>, vals: map<string, Json>): (r: JDict)
    requires forall id :: id in ids ==> id in vals
    ensures r.Valid()
    ensures forall n :: n in r.m <==> n.S? && n.text in ids
    ensures forall n :: n in r.m ==> r.m[n] == vals[n.text]
    ensures r.keys == [] <==> ids == []
    ensures Distinct(ids) ==> r.keys == TextNames(ids)
  {
    if ids == [] then Empty()
    else
      var n := |ids|;
      var rest := GroupObject(ids[..n - 1], vals);
      GroupObjectStep(ids, vals, rest);
      rest.Put(S(ids[n - 1]), vals[ids[n - 1]])
  }

  /** Putting the last ID's value after the group of the others gives the group of all of them. */
  lemma GroupObjectStep(ids: seq<string>, vals: map<string, Json>, rest: JDict)
    requires ids != [] && forall id :: id in ids ==> id in vals
    requires var init := ids[..|ids| - 1];
      rest.Valid()
      && (forall n :: n in rest.m <==> n.S? && n.text in init)
      && (forall n :: n in rest.m ==> rest.m[n] == vals[n.text])
      && (Distinct(init) ==> rest.keys == TextNames(init))
    ensures var r := rest.Put(S(ids[|ids| - 1]), vals[ids[|ids| - 1]]);
      r.Valid()
      && (forall n :: n in r.m <==> n.S? && n.text in ids)
      && (forall n :: n in r.m ==> r.m[n] == vals[n.text])
      && r.keys != []
      && (Distinct(ids) ==> r.keys == TextNames(ids))
  {
    var n := |ids|;
    assert forall x :: x in ids <==> x in ids[..n - 1] || x == ids[n - 1];
    TextNamesSnoc(ids);
  }

  lemma TextNamesSnoc(ids: seq<string>)
    requires ids != []
    ensures TextNames(ids) == TextNames(ids[..|ids| - 1]) + [S(ids[|ids| - 1])]
    ensures Distinct(ids) ==> Distinct(ids[..|ids| - 1]) && ids[|ids| - 1] !in ids[..|ids| - 1]
  {
    var n := |ids|;
    assert forall i :: 0 <= i < n - 1 ==> ids[..n - 1][i] == ids[i];
  }

  /** The key texts of a written group are its IDs, in order. */
  lemma {:induction false} GroupObjectOrder(ids: seq<string>, vals: map<string, Json>)
    requires Distinct(ids) && forall id :: id in ids ==> id in vals
    ensures KeyTexts(GroupObject(ids, vals).keys) == ids
  {
    KeyTextsOfTextNames(ids);
  }

  lemma {:induction false} KeyTextsOfTextNames(ids: seq<string>)
    ensures KeyTexts(TextNames(ids)) == ids
  {
    if ids != [] {
      var n := |ids|;
      TextNamesSnoc(ids);
      assert TextNames(ids)[..n - 1] == TextNames(ids[..n - 1]);
      KeyTextsOfTextNames(ids[..n - 1]);
      assert ids == ids[..n - 1] + [ids[n - 1]];
    }
  }

  /** if jsonGroup: root[key] = jsonGroup (an empty group is not written). */
  function WithGroup(o: JDict, k: Key, g: JDict): (r: JDict)
    ensures g.keys == [] ==> r == o
    ensures g.keys != [] ==> r == Set(o, F(k), JObj(g))
  {
    if g.keys == [] then o else Set(o, F(k), JObj(g))
  }

  /** A section the export can write: its status and scene are set (the export compares them with numbers). */
  predicate Writable(r: SectionRec)
  {
    r.status.Some? && r.scene.Some?
  }

  /** The tree names only elements the novel holds (a missing one makes the write raise KeyError), and writable sections. */
  ghost predicate Consistent(p: Project)
  {
    (forall c :: c in ChildrenOf(p.kids, CH_ROOT) ==>
       c in p.chapters && forall s :: s in ChildrenOf(p.kids, c) ==> s in p.sections && Writable(p.sections[s]))
    && (forall x :: x in ChildrenOf(p.kids, CR_ROOT) ==> x in p.characters)
    && (forall x :: x in ChildrenOf(p.kids, LC_ROOT) ==> x in p.locations)
    && (forall x :: x in ChildrenOf(p.kids, IT_ROOT) ==> x in p.items)
    && (forall pl :: pl in ChildrenOf(p.kids, PL_ROOT) ==>
          pl in p.plotLines && forall pp :: pp in ChildrenOf(p.kids, pl) ==> pp in p.plotPoints)
    && (forall x :: x in ChildrenOf(p.kids, PN_ROOT) ==> x in p.projectNotes)
  }

  /**
   * The converters write uses, one per kind of element: their export_data
   * into the empty dict each _build_* method passes.
   */
  datatype Encoders = Encoders(
    novel: NovelRec -> JDict,
    world: WorldRec -> JDict,
    character: CharacterRec -> JDict,
    chapter: ChapterRec -> JDict,
    section: SectionRec --> JDict,
    plotLine: PlotLineRec -> JDict,
    plotPoint: PlotPointRec -> JDict,
    note: BasicRec -> JDict)

  /** The section converter can write every writable section. */
  ghost predicate WritesSections(enc: Encoders)
  {
    forall r :: Writable(r) ==> enc.section.requires(r)
  }

  /** The converters of the JSON format. */
  function JsonEncoders(): (enc: Encoders)
    ensures WritesSections(enc)
  {
    Encoders(EncodeNovel, EncodeWorld, EncodeCharacter, EncodeChapter, EncodeSection,
             EncodePlotLine, EncodePlotPoint, EncodeBasic)
  }

  function SectionValues(p: Project, enc: Encoders): map<string, Json>
    requires WritesSections(enc)
  {
    map s | s in p.sections && Writable(p.sections[s]) :: JObj(enc.section(p.sections[s]))
  }

  function PlotPointValues(p: Project, enc: Encoders): map<string, Json>
  {
    map pp | pp in p.plotPoints :: JObj(enc.plotPoint(p.plotPoints[pp]))
  }

  /** One chapter of _build_chapters_and_sections: its fields, then its sections, if any, under 'SECTIONS'. */
  function ChapterValue(p: Project, enc: Encoders, c: string): (r: Json)
    requires WritesSections(enc)
    requires c in p.chapters && forall s :: s in ChildrenOf(p.kids, c) ==> s in p.sections && Writable(p.sections[s])
    ensures r.JObj?
    ensures ChildrenOf(p.kids, c) == [] ==> r == JObj(enc.chapter(p.chapters[c]))
    ensures ChildrenOf(p.kids, c) != [] ==>
      r.obj.m == enc.chapter(p.chapters[c]).m[F(KSectionGroup) := JObj(GroupObject(ChildrenOf(p.kids, c), SectionValues(p, enc)))]
  {
    JObj(WithGroup(enc.chapter(p.chapters[c]), KSectionGroup, GroupObject(ChildrenOf(p.kids, c), SectionValues(p, enc))))
  }

  /** One plot line of _build_plot_lines_and_points: its fields, then its points, if any, under 'POINTS'. */
  function PlotLineValue(p: Project, enc: Encoders, pl: string): (r: Json)
    requires pl in p.plotLines && forall pp :: pp in ChildrenOf(p.kids, pl) ==> pp in p.plotPoints
    ensures r.JObj?
    ensures ChildrenOf(p.kids, pl) == [] ==> r == JObj(enc.plotLine(p.plotLines[pl]))
    ensures ChildrenOf(p.kids, pl) != [] ==>
      r.obj.m == enc.plotLine(p.plotLines[pl]).m[F(KPointGroup) := JObj(GroupObject(ChildrenOf(p.kids, pl), PlotPointValues(p, enc)))]
  {
    JObj(WithGroup(enc.plotLine(p.plotLines[pl]), KPointGroup, GroupObject(ChildrenOf(p.kids, pl), PlotPointValues(p, enc))))
  }

  function CharacterValues(p: Project, enc: Encoders): map<string, Json>
  {
    map x | x in p.characters :: JObj(enc.character(p.characters[x]))
  }

  function LocationValues(p: Project, enc: Encoders): map<string, Json>
  {
    map x | x in p.locations :: JObj(enc.world(p.locations[x]))
  }

  function ItemValues(p: Project, enc: Encoders): map<string, Json>
  {
    map x | x in p.items :: JObj(enc.world(p.items[x]))
  }

  function NoteValues(p: Project, enc: Encoders): map<string, Json>
  {
    map x | x in p.projectNotes :: JObj(enc.note(p.projectNotes[x]))
  }

  function ChapterValues(p: Project, enc: Encoders): map<string, Json>
    requires Consistent(p) && WritesSections(enc)
  {
    map c | c in ChildrenOf(p.kids, CH_ROOT) :: ChapterValue(p, enc, c)
  }

  function PlotLineValues(p: Project, enc: Encoders): map<string, Json>
    requires Consistent(p)
  {
    map pl | pl in ChildrenOf(p.kids, PL_ROOT) :: PlotLineValue(p, enc, pl)
  }

  /** The six element groups of _build_chapters_and_sections and its siblings, each in tree order. */
  datatype Groups = Groups(ch: JDict, cr: JDict, lc: JDict, it: JDict, pl: JDict, pn: JDict)

  function BuildGroups(p: Project, enc: Encoders): Groups
    requires Consistent(p) && WritesSections(enc)
  {
    Groups(GroupObject(ChildrenOf(p.kids, CH_ROOT), ChapterValues(p, enc)),
           GroupObject(ChildrenOf(p.kids, CR_ROOT), CharacterValues(p, enc)),
           GroupObject(ChildrenOf(p.kids, LC_ROOT), LocationValues(p, enc)),
           GroupObject(ChildrenOf(p.kids, IT_ROOT), ItemValues(p, enc)),
           GroupObject(ChildrenOf(p.kids, PL_ROOT), PlotLineValues(p, enc)),
           GroupObject(ChildrenOf(p.kids, PN_ROOT), NoteValues(p, enc)))
  }

  /**
   * The 'mdnov' object write builds: the version, the project, then the
   * groups that are not empty in the order chapters, characters, locations,
   * items, plot lines, project notes and the kept word count log entries.
   */
  function BuildRoot(p: Project, enc: Encoders, kept: seq<string>): (root: JDict)
    requires Consistent(p) && WritesSections(enc) && forall wc :: wc in kept ==> wc in p.wcLog.m
  {
    var g := BuildGroups(p, enc);
    RootOfGroups(enc.novel(p.novel), g.ch, g.cr, g.lc, g.it, g.pl, g.pn, GroupObject(kept, p.wcLog.m))
  }

  /** The root's keys in writing order. */
  const RootKeyList: seq<Key> := [KVersion, KProject, KChapterGroup, KCharacterGroup, KLocationGroup, KItemGroup,
                                  KArcGroup, KProjectNoteGroup, KProgress]
  const RootKeySet: set<Key> := {KVersion, KProject, KChapterGroup, KCharacterGroup, KLocationGroup, KItemGroup,
                                 KArcGroup, KProjectNoteGroup, KProgress}

  /** A group is written only when it is not empty. */
  function GroupEntry(g: JDict): Option<Json>
  {
    if g.keys == [] then None else Some(JObj(g))
  }

  /** What the root holds under k. */
  function RootEntry(novel: JDict, ch: JDict, cr: JDict, lc: JDict, it: JDict, pl: JDict, pn: JDict, log: JDict, k: Key): Option<Json>
  {
    if k == KVersion then Some(JStr(VersionText()))
    else if k == KProject then Some(JObj(novel))
    else if k == KChapterGroup then GroupEntry(ch)
    else if k == KCharacterGroup then GroupEntry(cr)
    else if k == KLocationGroup then GroupEntry(lc)
    else if k == KItemGroup then GroupEntry(it)
    else if k == KArcGroup then GroupEntry(pl)
    else if k == KProjectNoteGroup then GroupEntry(pn)
    else if k == KProgress then GroupEntry(log)
    else None
  }

  /** The root object from the project object and the group objects. */
  function RootOfGroups(novel: JDict, ch: JDict, cr: JDict, lc: JDict, it: JDict, pl: JDict, pn: JDict, log: JDict): JDict
  {
    var entry := k => RootEntry(novel, ch, cr, lc, it, pl, pn, log, k);
    OMap(WrittenKeys(RootKeyList, entry), Entries(RootKeySet, entry))
  }

  /** Where each group of the written root is. */
  lemma RootGroups(novel: JDict, ch: JDict, cr: JDict, lc: JDict, it: JDict, pl: JDict, pn: JDict, log: JDict, k: Key)
    requires k in RootKeySet
    ensures Get(RootOfGroups(novel, ch, cr, lc, it, pl, pn, log).m, k, JNull) ==
      var e := RootEntry(novel, ch, cr, lc, it, pl, pn, log, k); if e.Some? then e.value else JNull
  {
    EntriesGet(RootKeySet, k => RootEntry(novel, ch, cr, lc, it, pl, pn, log, k), k, JNull);
  }

  /** The file write produces: {'mdnov': root}. */
  function FileOf(root: JDict): Json
  {
    JObj(Empty<Name, Json>().Put(F(KMdnov), JObj(root)))
  }

  /** A written file passes the version check of read. */
  lemma WrittenFilePasses(novel: JDict, ch: JDict, cr: JDict, lc: JDict, it: JDict, pl: JDict, pn: JDict, log: JDict)
    ensures CheckVersion(FileOf(RootOfGroups(novel, ch, cr, lc, it, pl, pn, log))) == Ok(())
  {
    RootGroups(novel, ch, cr, lc, it, pl, pn, log, KVersion);
    WrittenVersionPasses(RootOfGroups(novel, ch, cr, lc, it, pl, pn, log));
  }

  /** The file built from a project passes the version check. */
  lemma BuiltFilePasses(p: Project, enc: Encoders, kept: seq<string>)
    requires Consistent(p) && WritesSections(enc) && forall wc :: wc in kept ==> wc in p.wcLog.m
    ensures CheckVersion(FileOf(BuildRoot(p, enc, kept))) == Ok(())
  {
    var g := BuildGroups(p, enc);
    WrittenFilePasses(enc.novel(p.novel), g.ch, g.cr, g.lc, g.it, g.pl, g.pn, GroupObject(kept, p.wcLog.m));
  }

  /**
   * A group written from the IDs ids reads back with the same IDs in the
   * same order, whenever the read of its elements succeeds.
   */
  lemma WrittenGroupReadsBack<R>(root: JDict, group: Key, ids: seq<string>, vals: map<string, Json>,
                                 prefix: string, decode: map<Name, Json> -> Result<R>)
    requires Distinct(ids) && forall id :: id in ids ==> id in vals
    requires Get(root.m, group, JNull) == if ids == [] then JNull else JObj(GroupObject(ids, vals))
    ensures ReadElements(root, group, prefix, decode).Ok? ==> ReadElements(root, group, prefix, decode).value.ids == ids
  {
    if ids != [] {
      GroupObjectOrder(ids, vals);
    }
  }

  // ----- _build_word_count_log -----

  /**
   * Python's == on parsed JSON values: a bool equals the number of its
   * value, strings and numbers compare by value, lists item by item, and
   * objects by their entries.
   */
  predicate PyEq(a: Json, b: Json)
  {
    match a
    case JNull => b.JNull?
    case JBool(x) => (b.JBool? && b.b == x) || (b.JNum? && b.n == if x then 1 else 0)
    case JNum(n) => (b.JNum? && b.n == n) || (b.JBool? && n == if b.b then 1 else 0)
    case JStr(t) => b == JStr(t)
    case JList(xs) => b.JList? && |xs| == |b.items| && forall i :: 0 <= i < |xs| ==> PyEq(xs[i], b.items[i])
    case JObj(o) => b.JObj? && o.m == b.obj.m
  }

  /** Python's == is symmetric on parsed JSON values. */
  lemma {:induction false} PyEqSym(a: Json, b: Json)
    requires PyEq(a, b)
    ensures PyEq(b, a)
  {
    if a.JList? {
      forall i | 0 <= i < |b.items| ensures PyEq(b.items[i], a.items[i]) {
        PyEqSym(a.items[i], b.items[i]);
      }
    }
  }

  /** Python's == is transitive on parsed JSON values. */
  lemma {:induction false} PyEqTrans(a: Json, b: Json, c: Json)
    requires PyEq(a, b) && PyEq(b, c)
    ensures PyEq(a, c)
  {
    if a.JList? {
      forall i | 0 <= i < |a.items| ensures PyEq(a.items[i], c.items[i]) {
        PyEqTrans(a.items[i], b.items[i], c.items[i]);
      }
    }
  }

  /** Every value equals itself. */
  lemma {:induction false} PyEqRefl(a: Json)
    ensures PyEq(a, a)
  {
    if a.JList? {
      forall i | 0 <= i < |a.items| ensures PyEq(a.items[i], a.items[i]) {
        PyEqRefl(a.items[i]);
      }
    }
  }

  /** entry[0] and entry[1] of a log entry, when both can be taken. */
  function CountsOf(entry: Json): (r: Option<(Json, Json)>)
    ensures r.Some? <==> PrjFiles.Item(entry, 0).Ok? && PrjFiles.Item(entry, 1).Ok?
    ensures r.Some? ==> r.value == (PrjFiles.Item(entry, 0).value, PrjFiles.Item(entry, 1).value)
  {
    match (PrjFiles.Item(entry, 0), PrjFiles.Item(entry, 1))
    case (Ok(c), Ok(t)) => Some((c, t))
    case _ => None
  }

  /** Two pairs of counts that Python finds equal, component by component. */
  predicate SameCounts(a: (Json, Json), b: (Json, Json))
  {
    PyEq(a.0, b.0) && PyEq(a.1, b.1)
  }

  /** The loop's state: the dates kept so far and the last kept counts (None, None before the first). */
  datatype LogState = LogState(kept: seq<string>, last: (Json, Json))

  const NoCounts: (Json, Json) := (JNull, JNull)

  /** The counts of the last kept date, or (None, None) when none was kept yet. */
  ghost predicate LastKept(log: map<string, Json>, st: LogState)
  {
    if st.kept == [] then st.last == NoCounts
    else
      var wc := st.kept[|st.kept| - 1];
      wc in log && CountsOf(log[wc]) == Some(st.last)
  }

  /** The dates kept so far are in the log, and their entries can be indexed twice. */
  ghost predicate KeptIndexable(log: map<string, Json>, kept: seq<string>)
  {
    forall wc :: wc in kept ==> wc in log && CountsOf(log[wc]).Some?
  }

  /** One pass of the loop, for the date wc. */
  function KeepStep(log: map<string, Json>, st: LogState, wc: string): (r: Result<LogState>)
    requires wc in log && LastKept(log, st) && KeptIndexable(log, st.kept)
    ensures r.Ok? <==> CountsOf(log[wc]).Some?
    ensures r.Err? ==> r == Err("list index out of range")
    ensures r.Ok? ==> LastKept(log, r.value) && KeptIndexable(log, r.value.kept)
    ensures r.Ok? ==> SameCounts(CountsOf(log[wc]).value, r.value.last)
    ensures r.Ok? ==> r.value.kept == st.kept || r.value.kept == st.kept + [wc]
    ensures r.Ok? && r.value.kept != st.kept ==> !SameCounts(CountsOf(log[wc]).value, st.last)
  {
    match CountsOf(log[wc])
    case None => Err("list index out of range")
    case Some(counts) =>
      if SameCounts(counts, st.last) then Ok(st)
      else
        PyEqRefl(counts.0);
        PyEqRefl(counts.1);
        Ok(LogState(st.kept + [wc], counts))
  }

  /** Consecutive kept dates have counts that differ, and the first differs from (None, None). */
  ghost predicate KeptDistinct(log: map<string, Json>, kept: seq<string>)
    requires KeptIndexable(log, kept)
  {
    (kept != [] ==> !SameCounts(CountsOf(log[kept[0]]).value, NoCounts))
    && forall j :: 0 < j < |kept| ==> !SameCounts(CountsOf(log[kept[j]]).value, CountsOf(log[kept[j - 1]]).value)
  }

  /**
   * The loop of _build_word_count_log over the first n dates of the log,
   * when the project saves word counts: an entry whose counts equal the last
   * kept counts is skipped, any other is kept and its counts become the last
   * ones. An entry that cannot be indexed twice raises.
   */
  function Compact(log: map<string, Json>, ks: seq<string>, n: nat): (r: Result<LogState>)
    requires n <= |ks| && forall wc :: wc in ks ==> wc in log
    ensures r.Ok? <==> forall i :: 0 <= i < n ==> CountsOf(log[ks[i]]).Some?
    ensures r.Ok? ==> LastKept(log, r.value) && KeptIndexable(log, r.value.kept)
    ensures r.Ok? ==> |r.value.kept| <= n && forall wc :: wc in r.value.kept ==> wc in ks
    ensures r.Ok? ==> KeptDistinct(log, r.value.kept)
    ensures r.Ok? && n > 0 ==> SameCounts(CountsOf(log[ks[n - 1]]).value, r.value.last)
  {
    if n == 0 then Ok(LogState([], NoCounts))
    else
      var st :- Compact(log, ks, n - 1);
      var r :- KeepStep(log, st, ks[n - 1]);
      Ok(r)
  }

  /**
   * The dates _build_word_count_log writes: none for an empty log or a
   * project that does not save word counts, otherwise those the compaction
   * keeps, in log order.
   */
  function KeptDates(log: OMap<string, Json>, save: bool): (r: Result<seq<string>>)
    requires log.Valid()
    ensures r.Err? <==> save && exists i :: 0 <= i < |log.keys| && CountsOf(log.m[log.keys[i]]).None?
    ensures r.Err? ==> r == Err("list index out of range")
    ensures r.Ok? && save ==> r.value == RunStarts(log.m, log.keys, |log.keys|)
    ensures !save || log.keys == [] ==> r == Ok([])
    ensures r.Err? <==> save && Compact(log.m, log.keys, |log.keys|).Err?
    ensures r.Ok? ==> forall wc :: wc in r.value ==> wc in log.m
  {
    if log.keys == [] || !save then Ok([])
    else
      var c := Compact(log.m, log.keys, |log.keys|);
      if c.Err? then
        var i :| 0 <= i < |log.keys| && CountsOf(log.m[log.keys[i]]).None?;
        CompactFirstFailure(log.m, log.keys, |log.keys|, i);
        Err(c.error)
      else
        CompactRuns(log.m, log.keys, |log.keys|);
        Ok(c.value.kept)
  }

  /** The loop of _build_word_count_log. */
  method BuildWordCountLog(log: OMap<string, Json>, save: bool) returns (r: Result<seq<string>>)
    requires log.Valid()
    ensures r == KeptDates(log, save)
  {
    if log.keys == [] || !save {
      // An empty log returns at once; without saving, every pass skips its entry.
      return Ok([]);
    }
    assert forall wc :: wc in log.keys ==> wc in log.m;
    var st := LogState([], NoCounts);
    var i := 0;
    while i < |log.keys|
      invariant 0 <= i <= |log.keys|
      invariant Compact(log.m, log.keys, i) == Ok(st)
    {
      var wc := log.keys[i];
      var counts := CountsOf(log.m[wc]);
      if counts.None? {
        CompactFails(log.m, log.keys, i, |log.keys|);
        return Err("list index out of range");
      }
      CompactStep(log.m, log.keys, i, st);
      if !SameCounts(counts.value, st.last) {
        st := LogState(st.kept + [wc], counts.value);
      }
      i := i + 1;
    }
    return Ok(st.kept);
  }

  /** One more date of the loop is one more KeepStep. */
  lemma CompactNext(log: map<string, Json>, ks: seq<string>, i: nat, st: LogState)
    requires i < |ks| && (forall wc :: wc in ks ==> wc in log) && Compact(log, ks, i) == Ok(st)
    ensures Compact(log, ks, i + 1) == KeepStep(log, st, ks[i])
  {
  }

  /** One more date of the loop keeps it when its counts differ from the last kept ones. */
  lemma CompactStep(log: map<string, Json>, ks: seq<string>, i: nat, st: LogState)
    requires i < |ks| && (forall wc :: wc in ks ==> wc in log) && Compact(log, ks, i) == Ok(st)
    requires CountsOf(log[ks[i]]).Some?
    ensures var counts := CountsOf(log[ks[i]]).value;
      Compact(log, ks, i + 1) == Ok(if SameCounts(counts, st.last) then st else LogState(st.kept + [ks[i]], counts))
  {
    assert LastKept(log, st) && KeptIndexable(log, st.kept);
    CompactNext(log, ks, i, st);
  }

  /** A failure stops the loop. */
  lemma CompactErr(log: map<string, Json>, ks: seq<string>, n: nat)
    requires 0 < n <= |ks| && (forall wc :: wc in ks ==> wc in log) && Compact(log, ks, n - 1).Err?
    ensures Compact(log, ks, n) == Err(Compact(log, ks, n - 1).error)
  {
  }

  /** A date whose entry cannot be indexed twice makes the whole loop fail with IndexError. */
  lemma {:induction false} CompactFails(log: map<string, Json>, ks: seq<string>, i: nat, n: nat)
    requires i < n <= |ks| && (forall wc :: wc in ks ==> wc in log)
    requires Compact(log, ks, i).Ok? && CountsOf(log[ks[i]]).None?
    ensures Compact(log, ks, n) == Err("list index out of range")
  {
    if n == i + 1 {
      var st := Compact(log, ks, i).value;
      assert LastKept(log, st) && KeptIndexable(log, st.kept);
      CompactNext(log, ks, i, st);
      assert !KeepStep(log, st, ks[i]).Ok?;
    } else {
      CompactFails(log, ks, i, n - 1);
      CompactErr(log, ks, n);
    }
  }

  /** The compacted log ends with the counts of the full log's last entry, so nothing the project reports is lost. */
  lemma CompactKeepsLatest(log: OMap<string, Json>)
    requires log.Valid() && log.keys != []
    requires Compact(log.m, log.keys, |log.keys|).Ok?
    ensures var st := Compact(log.m, log.keys, |log.keys|).value;
      var latest := CountsOf(log.m[log.keys[|log.keys| - 1]]).value;
      (st.kept == [] ==> SameCounts(latest, NoCounts))
      && (st.kept != [] ==> SameCounts(latest, CountsOf(log.m[st.kept[|st.kept| - 1]]).value))
  {
  }

  /** The counts the date at position j is compared with: those of the date before it, (None, None) for the first. */
  function PrevCounts(log: map<string, Json>, ks: seq<string>, j: nat): (Json, Json)
    requires j <= |ks| && (forall wc :: wc in ks ==> wc in log)
    requires j > 0 ==> CountsOf(log[ks[j - 1]]).Some?
  {
    if j == 0 then NoCounts else CountsOf(log[ks[j - 1]]).value
  }

  /**
   * The first date of every run of equal consecutive counts among the first
   * n dates, in log order.
   */
  function RunStarts(log: map<string, Json>, ks: seq<string>, n: nat): seq<string>
    requires n <= |ks| && (forall wc :: wc in ks ==> wc in log)
    requires forall i :: 0 <= i < n ==> CountsOf(log[ks[i]]).Some?
  {
    if n == 0 then []
    else
      RunStarts(log, ks, n - 1)
        + if SameCounts(CountsOf(log[ks[n - 1]]).value, PrevCounts(log, ks, n - 1)) then [] else [ks[n - 1]]
  }

  /**
   * The compaction keeps exactly the first date of every run of equal
   * consecutive counts: comparing with the last kept counts is comparing
   * with the date before, because every skipped date equals the last kept one.
   */
  lemma {:induction false} CompactRuns(log: map<string, Json>, ks: seq<string>, n: nat)
    requires n <= |ks| && (forall wc :: wc in ks ==> wc in log)
    requires Compact(log, ks, n).Ok?
    ensures forall i :: 0 <= i < n ==> CountsOf(log[ks[i]]).Some?
    ensures Compact(log, ks, n).value.kept == RunStarts(log, ks, n)
    ensures SameCounts(PrevCounts(log, ks, n), Compact(log, ks, n).value.last)
  {
    if n == 0 {
      PyEqRefl(JNull);
    } else {
      var st := Compact(log, ks, n - 1).value;
      CompactRuns(log, ks, n - 1);
      var c := CountsOf(log[ks[n - 1]]).value;
      var prev := PrevCounts(log, ks, n - 1);
      CompactStep(log, ks, n - 1, st);
      assert Compact(log, ks, n).value == if SameCounts(c, st.last) then st else LogState(st.kept + [ks[n - 1]], c);
      assert RunStarts(log, ks, n) == st.kept + if SameCounts(c, prev) then [] else [ks[n - 1]];
      assert PrevCounts(log, ks, n) == c;
      // SameCounts(prev, st.last), so c equals st.last exactly when it equals prev.
      SameCountsSym(prev, st.last);
      if SameCounts(c, st.last) {
        SameCountsTrans(c, st.last, prev);
        SameCountsSym(c, st.last);
      } else {
        if SameCounts(c, prev) {
          SameCountsTrans(c, prev, st.last);
        }
        SameCountsRefl(c);
      }
    }
  }

  lemma SameCountsRefl(a: (Json, Json))
    ensures SameCounts(a, a)
  {
    PyEqRefl(a.0);
    PyEqRefl(a.1);
  }

  lemma SameCountsSym(a: (Json, Json), b: (Json, Json))
    requires SameCounts(a, b)
    ensures SameCounts(b, a)
  {
    PyEqSym(a.0, b.0);
    PyEqSym(a.1, b.1);
  }

  lemma SameCountsTrans(a: (Json, Json), b: (Json, Json), c: (Json, Json))
    requires SameCounts(a, b) && SameCounts(b, c)
    ensures SameCounts(a, c)
  {
    PyEqTrans(a.0, b.0, c.0);
    PyEqTrans(a.1, b.1, c.1);
  }

  /** A date is among the run starts exactly when its counts differ from those of the date before it. */
  lemma {:induction false} RunStartsMember(log: map<string, Json>, ks: seq<string>, n: nat, j: nat)
    requires n <= |ks| && (forall wc :: wc in ks ==> wc in log) && Distinct(ks)
    requires forall i :: 0 <= i < n ==> CountsOf(log[ks[i]]).Some?
    requires j < n
    ensures ks[j] in RunStarts(log, ks, n) <==> !SameCounts(CountsOf(log[ks[j]]).value, PrevCounts(log, ks, j))
  {
    var rest := RunStarts(log, ks, n - 1);
    var last := if SameCounts(CountsOf(log[ks[n - 1]]).value, PrevCounts(log, ks, n - 1)) then [] else [ks[n - 1]];
    assert RunStarts(log, ks, n) == rest + last;
    assert ks[j] in rest + last <==> ks[j] in rest || ks[j] in last;
    if j < n - 1 {
      RunStartsMember(log, ks, n - 1, j);
      assert ks[j] != ks[n - 1];
    } else {
      RunStartsIn(log, ks, n - 1);
      assert ks[j] in ks[..n - 1] <==> exists i :: 0 <= i < n - 1 && ks[i] == ks[j];
    }
  }

  /** The run starts among the first n dates are taken from those dates. */
  lemma {:induction false} RunStartsIn(log: map<string, Json>, ks: seq<string>, n: nat)
    requires n <= |ks| && (forall wc :: wc in ks ==> wc in log)
    requires forall i :: 0 <= i < n ==> CountsOf(log[ks[i]]).Some?
    ensures forall wc :: wc in RunStarts(log, ks, n) ==> wc in ks[..n]
  {
    if n > 0 {
      RunStartsIn(log, ks, n - 1);
      assert ks[..n] == ks[..n - 1] + [ks[n - 1]];
    }
  }

  /** The first date whose entry cannot be indexed twice decides the failure of the loop. */
  lemma {:induction false} CompactFirstFailure(log: map<string, Json>, ks: seq<string>, n: nat, i: nat)
    requires n <= |ks| && (forall wc :: wc in ks ==> wc in log)
    requires i < n && CountsOf(log[ks[i]]).None?
    ensures Compact(log, ks, n) == Err("list index out of range")
  {
    if Compact(log, ks, i).Ok? {
      CompactFails(log, ks, i, n);
    } else {
      var k :| 0 <= k < i && CountsOf(log[ks[k]]).None?;
      CompactFirstFailure(log, ks, n, k);
    }
  }

  /** Retyping leaves the tree consistent with the element dicts. */
  lemma RetypedConsistent(p: Project, ch: map<string, int>, sc: map<string, int>)
    requires Consistent(p)
    ensures Consistent(p.(chapters := WithChapterTypes(p.chapters, ch), sections := WithSectionTypes(p.sections, sc)))
  {
    var q := p.(chapters := WithChapterTypes(p.chapters, ch), sections := WithSectionTypes(p.sections, sc));
    assert forall s :: s in q.sections <==> s in p.sections;
    assert forall s :: s in p.sections ==> Writable(p.sections[s]) == Writable(q.sections[s]);
  }

  /** The types adjusted before the write keep the tree consistent. */
  function Retyped(p: Project): (q: Project)
    requires ChapterTree(p) && Consistent(p)
    ensures q == AdjustTypes(p) && Consistent(q) && q.wcLog == p.wcLog && q.novel == p.novel
  {
    ChapterTreeReady(p);
    var fin := Adjusted(ChildrenOf(p.kids, CH_ROOT), ChapterLevels(p), ChapterTrash(p), p.kids, TypesBefore(p));
    RetypedConsistent(p, fin.ch, fin.sc);
    AdjustTypes(p)
  }

  /**
   * What write puts in the file, from the word count log
   * _update_word_count_log leaves: the section types are adjusted, the log
   * compacted when the project saves word counts, and the root built; the
   * file always passes read's version check.
   */
  function WrittenFile(p: Project, enc: Encoders): (r: Result<Json>)
    requires ChapterTree(p) && Consistent(p) && p.wcLog.Valid() && WritesSections(enc)
    ensures r.Ok? ==> CheckVersion(r.value) == Ok(())
    ensures r.Err? <==> p.novel.saveWordCount == Some(true) && Compact(p.wcLog.m, p.wcLog.keys, |p.wcLog.keys|).Err?
  {
    var q := Retyped(p);
    assert q.wcLog == p.wcLog && q.novel == p.novel;
    match KeptDates(q.wcLog, q.novel.saveWordCount == Some(true))
    case Err(e) => Err(e)
    case Ok(kept) => Ok(BuiltFile(q, enc, kept))
  }

  /** The file built from a project and the kept dates, which passes the version check. */
  function BuiltFile(p: Project, enc: Encoders, kept: seq<string>): (r: Json)
    requires Consistent(p) && WritesSections(enc) && forall wc :: wc in kept ==> wc in p.wcLog.m
    ensures CheckVersion(r) == Ok(())
  {
    BuiltFilePasses(p, enc, kept);
    FileOf(BuildRoot(p, enc, kept))
  }

  /** write: the section types adjusted, the word count log compacted, the file built. */
  method Write(p: Project) returns (r: Result<Json>)
    requires ChapterTree(p) && Consistent(p) && p.wcLog.Valid()
    ensures r == WrittenFile(p, JsonEncoders())
  {
    var q := Retyped(p);
    var kept :- BuildWordCountLog(q.wcLog, q.novel.saveWordCount == Some(true));
    return Ok(BuiltFile(q, JsonEncoders(), kept));
  }
}
