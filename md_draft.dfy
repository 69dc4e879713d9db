/**
 * What the Markdown readers (md_import.py, md_outline.py) write into the
 * novel, as values: the chapter and section records by ID and the tree's
 * children by parent. Both readers create chapters and sections the same
 * way. create_id is not part of this model; it is an IdMaker whose result
 * is a new key that starts with the prefix asked for.
 */
module MdDrafts {
  import opened Wrappers
  import opened Strings
  import opened NovxGlobals
  import opened Elements
  import opened Sections
  import opened NvTrees

  datatype Draft = Draft(chapters: map<string, ChapterRec>, sections: map<string, SectionRec>,
                         kids: map<string, seq<string>>)

  /** create_id(elements, prefix), given the IDs in use. */
  type IdMaker = (set<string>, string) -> string

  /** An ID made is new and starts with its prefix. */
  ghost predicate MakesFreshIds(createId: IdMaker)
  {
    forall keys, prefix :: createId(keys, prefix) !in keys && StartsWith(createId(keys, prefix), prefix)
  }

  /** A chapter ID never names the book's root. */
  lemma ChapterIdNotRoot(id: string)
    requires StartsWith(id, CHAPTER_PREFIX)
    ensures id != CH_ROOT
  {
    assert id[0] == 'c' && CH_ROOT[0] == 'C';
  }

  /** A new Chapter() with title, type 0 (normal) and level. */
  function NewChapter(title: string, level: int): ChapterRec
  {
    ChapterRec(NotesRec(BasicRec(Some(title), None, None), None), Some(0), Some(level), None, None)
  }

  /** Section(status=1, scType=0, scene=0) with a title. */
  function NewSection(title: string): SectionRec
  {
    SectionRec(TagsRec(NotesRec(BasicRec(Some(title), None, None), None), None), None,
               Some(0), Some(0), Some(1), None, None, None, None, None,
               None, None, None, None, None, None, None, None, None, None, None)
  }

  /** The draft with a new chapter at the end of the book, under the ID made for it. */
  function AddChapter(d: Draft, id: string, title: string, level: int): (r: Draft)
    ensures r.sections == d.sections && id in r.chapters && r.chapters.Keys == d.chapters.Keys + {id}
    ensures ChildrenOf(r.kids, CH_ROOT) == ChildrenOf(d.kids, CH_ROOT) + [id]
  {
    d.(chapters := d.chapters[id := NewChapter(title, level)],
       kids := d.kids[CH_ROOT := ChildrenOf(d.kids, CH_ROOT) + [id]])
  }

  /** The draft with a new section appended to the chapter chId. */
  function AddSection(d: Draft, chId: string, id: string, title: string): (r: Draft)
    ensures r.chapters == d.chapters && id in r.sections && r.sections.Keys == d.sections.Keys + {id}
    ensures ChildrenOf(r.kids, chId) == ChildrenOf(d.kids, chId) + [id]
    ensures forall p :: p != chId ==> ChildrenOf(r.kids, p) == ChildrenOf(d.kids, p)
  {
    d.(sections := d.sections[id := NewSection(title)],
       kids := d.kids[chId := ChildrenOf(d.kids, chId) + [id]])
  }

  /** The number of lines that start with prefix. */
  function CountStarting(lines: seq<string>, prefix: string): nat
  {
    if lines == [] then 0
    else CountStarting(lines[..|lines| - 1], prefix) + (if StartsWith(lines[|lines| - 1], prefix) then 1 else 0)
  }
}
