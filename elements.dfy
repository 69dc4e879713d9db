/**
 * The element model: BasicElement and the classes built on it. Python's
 * class chain BasicElement <- BasicElementNotes <- BasicElementTags <-
 * WorldElement <- Character is modelled by composition: each class holds its
 * base part as a constant reference, and each property lives in exactly one
 * object. Every setter stores the new value and calls the change callback
 * only when the value differs from the stored one. A null callback model
 * stands for do_nothing, the default callback.
 */
module Elements {
  import opened Wrappers
  import opened Strings
  import opened OrderedMaps
  import opened NovxGlobals
  import opened ModelBases

  /** links: relative path -> full path (or None), in insertion order. */
  type Links = OMap<string, Option<string>>

  /** Python's != on two optional dicts: dict equality ignores insertion order. */
  predicate DictsDiffer<V(==)>(a: Option<OMap<string, V>>, b: Option<OMap<string, V>>)
  {
    a.None? != b.None? || (a.Some? && b.Some? && a.value.m != b.value.m)
  }

  /** 'LinkPath: p', then 'FullPath: f' when f is set and not empty. */
  function LinkEntry(path: string, fullPath: Option<string>): seq<string>
  {
    ["LinkPath: " + path] + (if Truthy(fullPath) then ["FullPath: " + fullPath.value] else [])
  }

  function LinkLines(paths: seq<string>, m: map<string, Option<string>>): seq<string>
  {
    if paths == [] then []
    else (if paths[0] in m then LinkEntry(paths[0], m[paths[0]]) else []) + LinkLines(paths[1..], m)
  }

  lemma {:induction false} LinkLinesAppend(paths: seq<string>, p: string, m: map<string, Option<string>>)
    requires p in m
    ensures LinkLines(paths + [p], m) == LinkLines(paths, m) + LinkEntry(p, m[p])
  {
    if paths == [] {
      assert [p][1..] == [];
    } else {
      var head := if paths[0] in m then LinkEntry(paths[0], m[paths[0]]) else [];
      SnocTail(paths, p);
      assert LinkLines(paths + [p], m) == head + LinkLines(paths[1..] + [p], m);
      LinkLinesAppend(paths[1..], p, m);
      AppendAssoc(head, LinkLines(paths[1..], m), LinkEntry(p, m[p]));
    }
  }

  /** An optional 'Key: value' line, written when the value is set and not empty. */
  function TextLine(key: string, value: Option<string>): seq<string>
  {
    if Truthy(value) then [key + ": " + value.value] else []
  }

  /** An optional 'Key: a;b;c' line, written when the list is set and not empty. */
  function ListLine(key: string, value: Option<seq<string>>): seq<string>
  {
    if NonEmpty(value) then [key + ": " + ListToString(value.value)] else []
  }

  /** A 'key: 1' flag line, written when the flag is True. */
  function FlagLine(key: string, value: Option<bool>): seq<string>
  {
    if value == Some(true) then [key + ": 1"] else []
  }

  /** A 'key: n' number line, written only when write holds. */
  function NumberLine(key: string, write: bool, n: int): seq<string>
  {
    if write then [key + ": " + IntToString(n)] else []
  }

  // ----- abstract values -----

  datatype BasicRec = BasicRec(title: Option<string>, desc: Option<string>, links: Option<Links>)
  {
    /** BasicElement.to_yaml */
    function YamlLines(): seq<string>
    {
      TextLine("Title", title)
      + (if links.Some? && links.value.m != map[] then LinkLines(links.value.keys, links.value.m) else [])
    }
  }

  datatype NotesRec = NotesRec(basic: BasicRec, notes: Option<string>)

  datatype TagsRec = TagsRec(withNotes: NotesRec, tags: Option<seq<string>>)
  {
    /** BasicElementTags.to_yaml */
    function YamlLines(): seq<string>
    {
      withNotes.basic.YamlLines() + ListLine("Tags", tags)
    }
  }

  datatype WorldRec = WorldRec(withTags: TagsRec, aka: Option<string>)
  {
    /** WorldElement.to_yaml */
    function YamlLines(): seq<string>
    {
      withTags.YamlLines() + TextLine("Aka", aka)
    }
  }

  datatype CharacterRec = CharacterRec(
    world: WorldRec,
    bio: Option<string>, goals: Option<string>, fullName: Option<string>,
    isMajor: Option<bool>, birthDate: Option<string>, deathDate: Option<string>)
  {
    /** Character.to_yaml */
    function YamlLines(): seq<string>
    {
      world.YamlLines() + CharacterLines()
    }

    /** The lines Character.to_yaml adds to the world-element lines. */
    function CharacterLines(): seq<string>
    {
      FlagLine("major", isMajor) + TextLine("FullName", fullName)
      + TextLine("BirthDate", birthDate) + TextLine("DeathDate", deathDate)
    }
  }

  datatype PlotLineRec = PlotLineRec(withNotes: NotesRec, shortName: Option<string>, sections: Option<seq<string>>)
  {
    /** PlotLine.to_yaml */
    function YamlLines(): seq<string>
    {
      withNotes.basic.YamlLines() + TextLine("ShortName", shortName) + ListLine("Sections", sections)
    }
  }

  datatype PlotPointRec = PlotPointRec(withNotes: NotesRec, sectionAssoc: Option<string>)
  {
    /** PlotPoint.to_yaml */
    function YamlLines(): seq<string>
    {
      withNotes.basic.YamlLines() + TextLine("Section", sectionAssoc)
    }
  }

  datatype ChapterRec = ChapterRec(
    withNotes: NotesRec, chType: Option<int>, chLevel: Option<int>,
    isTrash: Option<bool>, noNumber: Option<bool>)

  // ----- classes -----

  class BasicElement {
    /** The model whose on_element_change is this element's callback; null is do_nothing. */
    const onChange: ModelBase?
    var title: Option<string>
    var desc: Option<string>
    var links: Option<Links>

    function Rec(): BasicRec
      reads this
    {
      BasicRec(title, desc, links)
    }

    constructor(onChange: ModelBase? := null, title: Option<string> := None,
                desc: Option<string> := None, links: Option<Links> := None)
      ensures this.onChange == onChange
      ensures Rec() == BasicRec(title, desc, links)
    {
      this.onChange := onChange;
      this.title := title;
      this.desc := desc;
      this.links := links;
    }

    /** on_element_change(): the model's callback, or do_nothing when there is none. */
    method Notify()
      modifies onChange
      ensures Notified(onChange, true)
    {
      if onChange != null {
        onChange.OnElementChange();
      }
    }

    method SetTitle(v: Option<string>)
      modifies this`title, onChange
      ensures title == v
      ensures Rec() == old(Rec()).(title := v)
      ensures Notified(onChange, old(title) != v)
    {
      if title != v {
        title := v;
        Notify();
      }
    }

    method SetDesc(v: Option<string>)
      modifies this`desc, onChange
      ensures desc == v
      ensures Rec() == old(Rec()).(desc := v)
      ensures Notified(onChange, old(desc) != v)
    {
      if desc != v {
        desc := v;
        Notify();
      }
    }

    /** The links setter; dictionaries with the same entries in another order count as equal. */
    method SetLinks(v: Option<Links>)
      modifies this`links, onChange
      ensures DictsDiffer(old(links), v) ==> links == v
      ensures !DictsDiffer(old(links), v) ==> links == old(links)
      ensures Notified(onChange, DictsDiffer(old(links), v))
    {
      if DictsDiffer(links, v) {
        links := v;
        Notify();
      }
    }

    /** to_yaml: append the Title line and the link lines to yaml, in link order. */
    method ToYaml(yaml: seq<string>) returns (r: seq<string>)
      ensures r == yaml + Rec().YamlLines()
    {
      r := yaml + TextLine("Title", title);
      if links.Some? && links.value.m != map[] {
        var paths := links.value.keys;
        var m := links.value.m;
        var i := 0;
        while i < |paths|
          invariant 0 <= i <= |paths|
          invariant r == yaml + TextLine("Title", title) + LinkLines(paths[..i], m)
        {
          if paths[i] in m {
            r := r + LinkEntry(paths[i], m[paths[i]]);
            LinkLinesAppend(paths[..i], paths[i], m);
          } else {
            assert LinkLines(paths[..i] + [paths[i]], m) == LinkLines(paths[..i], m) by {
              LinkLinesAbsent(paths[..i], paths[i], m);
            }
          }
          assert paths[..i + 1] == paths[..i] + [paths[i]];
          i := i + 1;
        }
        assert paths[..i] == paths;
      }
    }
  }

  lemma {:induction false} LinkLinesAbsent(paths: seq<string>, p: string, m: map<string, Option<string>>)
    requires p !in m
    ensures LinkLines(paths + [p], m) == LinkLines(paths, m)
  {
    if paths == [] {
      assert [p][1..] == [];
    } else {
      assert (paths + [p])[1..] == paths[1..] + [p];
      LinkLinesAbsent(paths[1..], p, m);
    }
  }

  class BasicElementNotes {
    const basic: BasicElement
    var notes: Option<string>

    function OnChange(): ModelBase? { basic.onChange }

    function Rec(): NotesRec
      reads this, basic
    {
      NotesRec(basic.Rec(), notes)
    }

    constructor(onChange: ModelBase? := null, title: Option<string> := None, desc: Option<string> := None,
                links: Option<Links> := None, notes: Option<string> := None)
      ensures fresh(basic) && OnChange() == onChange
      ensures Rec() == NotesRec(BasicRec(title, desc, links), notes)
    {
      basic := new BasicElement(onChange, title, desc, links);
      this.notes := notes;
    }

    method Notify()
      modifies OnChange()
      ensures Notified(OnChange(), true)
    {
      basic.Notify();
    }

    method SetNotes(v: Option<string>)
      modifies this`notes, OnChange()
      ensures notes == v
      ensures Rec() == old(Rec()).(notes := v)
      ensures Notified(OnChange(), old(notes) != v)
    {
      if notes != v {
        notes := v;
        Notify();
      }
    }
  }

  class BasicElementTags {
    const withNotes: BasicElementNotes
    var tags: Option<seq<string>>

    function OnChange(): ModelBase? { withNotes.basic.onChange }

    function Rec(): TagsRec
      reads this, withNotes, withNotes.basic
    {
      TagsRec(withNotes.Rec(), tags)
    }

    constructor(onChange: ModelBase? := null, title: Option<string> := None, desc: Option<string> := None,
                links: Option<Links> := None, notes: Option<string> := None, tags: Option<seq<string>> := None)
      ensures fresh(withNotes) && fresh(withNotes.basic) && OnChange() == onChange
      ensures Rec() == TagsRec(NotesRec(BasicRec(title, desc, links), notes), tags)
    {
      withNotes := new BasicElementNotes(onChange, title, desc, links, notes);
      this.tags := tags;
    }

    method Notify()
      modifies OnChange()
      ensures Notified(OnChange(), true)
    {
      withNotes.Notify();
    }

    method SetTags(v: Option<seq<string>>)
      modifies this`tags, OnChange()
      ensures tags == v
      ensures Rec() == old(Rec()).(tags := v)
      ensures Notified(OnChange(), old(tags) != v)
    {
      if tags != v {
        tags := v;
        Notify();
      }
    }

    /** to_yaml: the base lines, then 'Tags: …' when there are tags. */
    method ToYaml(yaml: seq<string>) returns (r: seq<string>)
      ensures r == yaml + Rec().YamlLines()
    {
      r := withNotes.basic.ToYaml(yaml);
      r := r + ListLine("Tags", tags);
    }
  }

  /** A location or an item. */
  class WorldElement {
    const withTags: BasicElementTags
    var aka: Option<string>

    function OnChange(): ModelBase? { withTags.withNotes.basic.onChange }

    function Rec(): WorldRec
      reads this, withTags, withTags.withNotes, withTags.withNotes.basic
    {
      WorldRec(withTags.Rec(), aka)
    }

    constructor(onChange: ModelBase? := null, title: Option<string> := None, desc: Option<string> := None,
                links: Option<Links> := None, notes: Option<string> := None, tags: Option<seq<string>> := None,
                aka: Option<string> := None)
      ensures fresh(withTags) && fresh(withTags.withNotes) && fresh(withTags.withNotes.basic)
      ensures OnChange() == onChange
      ensures Rec() == WorldRec(TagsRec(NotesRec(BasicRec(title, desc, links), notes), tags), aka)
    {
      withTags := new BasicElementTags(onChange, title, desc, links, notes, tags);
      this.aka := aka;
    }

    method SetAka(v: Option<string>)
      modifies this`aka, OnChange()
      ensures aka == v
      ensures Rec() == old(Rec()).(aka := v)
      ensures Notified(OnChange(), old(aka) != v)
    {
      if aka != v {
        aka := v;
        withTags.Notify();
      }
    }

    /** to_yaml: the tag-level lines, then 'Aka: …' when aka is set. */
    method ToYaml(yaml: seq<string>) returns (r: seq<string>)
      ensures r == yaml + Rec().YamlLines()
    {
      r := withTags.ToYaml(yaml);
      r := r + TextLine("Aka", aka);
    }
  }

  class Character {
    const world: WorldElement
    var bio: Option<string>
    var goals: Option<string>
    var fullName: Option<string>
    var isMajor: Option<bool>
    var birthDate: Option<string>
    var deathDate: Option<string>

    function OnChange(): ModelBase? { world.withTags.withNotes.basic.onChange }

    function Rec(): CharacterRec
      reads this, world, world.withTags, world.withTags.withNotes, world.withTags.withNotes.basic
    {
      CharacterRec(world.Rec(), bio, goals, fullName, isMajor, birthDate, deathDate)
    }

    constructor(onChange: ModelBase? := null, title: Option<string> := None, desc: Option<string> := None,
                links: Option<Links> := None, notes: Option<string> := None, tags: Option<seq<string>> := None,
                aka: Option<string> := None,
                bio: Option<string> := None, goals: Option<string> := None, fullName: Option<string> := None,
                isMajor: Option<bool> := None, birthDate: Option<string> := None, deathDate: Option<string> := None)
      ensures fresh(world) && fresh(world.withTags) && fresh(world.withTags.withNotes)
      ensures fresh(world.withTags.withNotes.basic)
      ensures OnChange() == onChange
      ensures Rec() == CharacterRec(
        WorldRec(TagsRec(NotesRec(BasicRec(title, desc, links), notes), tags), aka),
        bio, goals, fullName, isMajor, birthDate, deathDate)
    {
      world := new WorldElement(onChange, title, desc, links, notes, tags, aka);
      this.bio, this.goals, this.fullName := bio, goals, fullName;
      this.isMajor, this.birthDate, this.deathDate := isMajor, birthDate, deathDate;
    }

    method Notify()
      modifies OnChange()
      ensures Notified(OnChange(), true)
    {
      world.withTags.Notify();
    }

    method SetBio(v: Option<string>)
      modifies this`bio, OnChange()
      ensures bio == v
      ensures Rec() == old(Rec()).(bio := v)
      ensures Notified(OnChange(), old(bio) != v)
    {
      if bio != v { bio := v; Notify(); }
    }

    method SetGoals(v: Option<string>)
      modifies this`goals, OnChange()
      ensures goals == v
      ensures Rec() == old(Rec()).(goals := v)
      ensures Notified(OnChange(), old(goals) != v)
    {
      if goals != v { goals := v; Notify(); }
    }

    method SetFullName(v: Option<string>)
      modifies this`fullName, OnChange()
      ensures fullName == v
      ensures Rec() == old(Rec()).(fullName := v)
      ensures Notified(OnChange(), old(fullName) != v)
    {
      if fullName != v { fullName := v; Notify(); }
    }

    method SetIsMajor(v: Option<bool>)
      modifies this`isMajor, OnChange()
      ensures isMajor == v
      ensures Rec() == old(Rec()).(isMajor := v)
      ensures Notified(OnChange(), old(isMajor) != v)
    {
      if isMajor != v { isMajor := v; Notify(); }
    }

    method SetBirthDate(v: Option<string>)
      modifies this`birthDate, OnChange()
      ensures birthDate == v
      ensures Rec() == old(Rec()).(birthDate := v)
      ensures Notified(OnChange(), old(birthDate) != v)
    {
      if birthDate != v { birthDate := v; Notify(); }
    }

    method SetDeathDate(v: Option<string>)
      modifies this`deathDate, OnChange()
      ensures deathDate == v
      ensures Rec() == old(Rec()).(deathDate := v)
      ensures Notified(OnChange(), old(deathDate) != v)
    {
      if deathDate != v { deathDate := v; Notify(); }
    }

    /** to_yaml: the world-element lines, then major, FullName, BirthDate, DeathDate. */
    method ToYaml(yaml: seq<string>) returns (r: seq<string>)
      ensures r == yaml + Rec().YamlLines()
    {
      r := world.ToYaml(yaml);
      ghost var worldLines := r;
      r := r + FlagLine("major", isMajor);
      r := r + TextLine("FullName", fullName);
      r := r + TextLine("BirthDate", birthDate);
      r := r + TextLine("DeathDate", deathDate);
      AppendFour(worldLines, FlagLine("major", isMajor), TextLine("FullName", fullName),
                 TextLine("BirthDate", birthDate), TextLine("DeathDate", deathDate));
      AppendAssoc(yaml, world.Rec().YamlLines(), Rec().CharacterLines());
    }
  }

  class PlotLine {
    const withNotes: BasicElementNotes
    var shortName: Option<string>
    var sections: Option<seq<string>>

    function OnChange(): ModelBase? { withNotes.basic.onChange }

    function Rec(): PlotLineRec
      reads this, withNotes, withNotes.basic
    {
      PlotLineRec(withNotes.Rec(), shortName, sections)
    }

    constructor(onChange: ModelBase? := null, title: Option<string> := None, desc: Option<string> := None,
                links: Option<Links> := None, notes: Option<string> := None,
                shortName: Option<string> := None, sections: Option<seq<string>> := None)
      ensures fresh(withNotes) && fresh(withNotes.basic) && OnChange() == onChange
      ensures Rec() == PlotLineRec(NotesRec(BasicRec(title, desc, links), notes), shortName, sections)
    {
      withNotes := new BasicElementNotes(onChange, title, desc, links, notes);
      this.shortName, this.sections := shortName, sections;
    }

    method SetShortName(v: Option<string>)
      modifies this`shortName, OnChange()
      ensures shortName == v
      ensures Rec() == old(Rec()).(shortName := v)
      ensures Notified(OnChange(), old(shortName) != v)
    {
      if shortName != v { shortName := v; withNotes.Notify(); }
    }

    method SetSections(v: Option<seq<string>>)
      modifies this`sections, OnChange()
      ensures sections == v
      ensures Rec() == old(Rec()).(sections := v)
      ensures Notified(OnChange(), old(sections) != v)
    {
      if sections != v { sections := v; withNotes.Notify(); }
    }

    /** to_yaml: the base lines, then ShortName and Sections when set. */
    method ToYaml(yaml: seq<string>) returns (r: seq<string>)
      ensures r == yaml + Rec().YamlLines()
    {
      r := withNotes.basic.ToYaml(yaml);
      r := r + TextLine("ShortName", shortName);
      r := r + ListLine("Sections", sections);
    }
  }

  class PlotPoint {
    const withNotes: BasicElementNotes
    var sectionAssoc: Option<string>

    function OnChange(): ModelBase? { withNotes.basic.onChange }

    function Rec(): PlotPointRec
      reads this, withNotes, withNotes.basic
    {
      PlotPointRec(withNotes.Rec(), sectionAssoc)
    }

    constructor(onChange: ModelBase? := null, title: Option<string> := None, desc: Option<string> := None,
                links: Option<Links> := None, notes: Option<string> := None,
                sectionAssoc: Option<string> := None)
      ensures fresh(withNotes) && fresh(withNotes.basic) && OnChange() == onChange
      ensures Rec() == PlotPointRec(NotesRec(BasicRec(title, desc, links), notes), sectionAssoc)
    {
      withNotes := new BasicElementNotes(onChange, title, desc, links, notes);
      this.sectionAssoc := sectionAssoc;
    }

    method SetSectionAssoc(v: Option<string>)
      modifies this`sectionAssoc, OnChange()
      ensures sectionAssoc == v
      ensures Rec() == old(Rec()).(sectionAssoc := v)
      ensures Notified(OnChange(), old(sectionAssoc) != v)
    {
      if sectionAssoc != v { sectionAssoc := v; withNotes.Notify(); }
    }

    /** to_yaml: the base lines, then 'Section: id' when an association is set. */
    method ToYaml(yaml: seq<string>) returns (r: seq<string>)
      ensures r == yaml + Rec().YamlLines()
    {
      r := withNotes.basic.ToYaml(yaml);
      r := r + TextLine("Section", sectionAssoc);
    }
  }

  /**
   * A chapter. chapter.py is not part of this model: the class is reconstructed
   * from the attributes the codecs and file engines use, with the same setter
   * discipline as its sibling classes.
   */
  class Chapter {
    const withNotes: BasicElementNotes
    var chType: Option<int>
    var chLevel: Option<int>
    var isTrash: Option<bool>
    var noNumber: Option<bool>

    function OnChange(): ModelBase? { withNotes.basic.onChange }

    function Rec(): ChapterRec
      reads this, withNotes, withNotes.basic
    {
      ChapterRec(withNotes.Rec(), chType, chLevel, isTrash, noNumber)
    }

    constructor(onChange: ModelBase? := null, title: Option<string> := None, desc: Option<string> := None,
                links: Option<Links> := None, notes: Option<string> := None,
                chType: Option<int> := None, chLevel: Option<int> := None,
                isTrash: Option<bool> := None, noNumber: Option<bool> := None)
      ensures fresh(withNotes) && fresh(withNotes.basic) && OnChange() == onChange
      ensures Rec() == ChapterRec(NotesRec(BasicRec(title, desc, links), notes), chType, chLevel, isTrash, noNumber)
    {
      withNotes := new BasicElementNotes(onChange, title, desc, links, notes);
      this.chType, this.chLevel := chType, chLevel;
      this.isTrash, this.noNumber := isTrash, noNumber;
    }

    method SetChType(v: Option<int>)
      modifies this`chType, OnChange()
      ensures chType == v
      ensures Rec() == old(Rec()).(chType := v)
      ensures Notified(OnChange(), old(chType) != v)
    {
      if chType != v { chType := v; withNotes.Notify(); }
    }

    method SetChLevel(v: Option<int>)
      modifies this`chLevel, OnChange()
      ensures chLevel == v
      ensures Rec() == old(Rec()).(chLevel := v)
      ensures Notified(OnChange(), old(chLevel) != v)
    {
      if chLevel != v { chLevel := v; withNotes.Notify(); }
    }

    method SetIsTrash(v: Option<bool>)
      modifies this`isTrash, OnChange()
      ensures isTrash == v
      ensures Rec() == old(Rec()).(isTrash := v)
      ensures Notified(OnChange(), old(isTrash) != v)
    {
      if isTrash != v { isTrash := v; withNotes.Notify(); }
    }

    method SetNoNumber(v: Option<bool>)
      modifies this`noNumber, OnChange()
      ensures noNumber == v
      ensures Rec() == old(Rec()).(noNumber := v)
      ensures Notified(OnChange(), old(noNumber) != v)
    {
      if noNumber != v { noNumber := v; withNotes.Notify(); }
    }
  }
}
