/**
 * NvWorkFile (nv_work_file.py): the .mdnov file as the application works
 * on it. It extends MdnovFile, whose object it holds here, with the
 * localized file date, the changed-on-disk test and a trash bin that is
 * kept at the end of the book.
 */
module NvWorkFiles {
  import opened Wrappers
  import opened NovxGlobals
  import opened Elements
  import opened Novels
  import opened NvTrees
  import opened ProjectRules
  import opened MdnovFiles
  import J = JsonFiles
  import FX = FileExports

  // ----- the trash bin -----

  /** A chapter the loop moves: it is in the trash and a chapter follows it. */
  predicate Movable(c: string, all: seq<string>, trash: map<string, bool>)
    requires c in trash
  {
    trash[c] && NextIn(all, c).Some?
  }

  /** The first of ids that is movable among the chapters all. */
  function FirstTrash(ids: seq<string>, all: seq<string>, trash: map<string, bool>): (r: Option<string>)
    requires forall c :: c in ids ==> c in trash
    ensures r.Some? ==> r.value in ids
  {
    if ids == [] then None
    else if Movable(ids[0], all, trash) then Some(ids[0])
    else FirstTrash(ids[1..], all, trash)
  }

  /** FirstTrash finds a chapter exactly when one is movable, and then the first movable one. */
  lemma {:induction false} FirstTrashIsFirst(ids: seq<string>, all: seq<string>, trash: map<string, bool>)
    requires forall c :: c in ids ==> c in trash
    ensures var r := FirstTrash(ids, all, trash);
      && (r.None? <==> forall c :: c in ids ==> !Movable(c, all, trash))
      && (r.Some? ==>
            exists i :: && 0 <= i < |ids| && ids[i] == r.value && Movable(r.value, all, trash)
                         && forall j :: 0 <= j < i ==> !Movable(ids[j], all, trash))
  {
    if ids != [] && !Movable(ids[0], all, trash) {
      var tail := ids[1..];
      FirstTrashIsFirst(tail, all, trash);
      assert forall c :: c in ids ==> c == ids[0] || c in tail;
      var r := FirstTrash(tail, all, trash);
      if r.Some? {
        var i :| 0 <= i < |tail| && tail[i] == r.value && Movable(r.value, all, trash)
          && forall j :: 0 <= j < i ==> !Movable(tail[j], all, trash);
        assert ids[i + 1] == r.value;
        assert forall j :: 1 <= j < i + 1 ==> ids[j] == tail[j - 1];
      }
    }
  }

  /**
   * The chapter tree after the trash rule: the first trash chapter that is
   * not last moves to the end of the book; no other node moves.
   */
  function TrashMoved(kids: map<string, seq<string>>, trash: map<string, bool>): map<string, seq<string>>
    requires forall c :: c in ChildrenOf(kids, CH_ROOT) ==> c in trash
  {
    var ids := ChildrenOf(kids, CH_ROOT);
    match FirstTrash(ids, ids, trash)
    case None => kids
    case Some(c) => kids[CH_ROOT := Without(ids, c) + [c]]
  }

  /**
   * At most one chapter moves: the moved one is a trash chapter that was
   * not last, no trash chapter before it was movable, it is last
   * afterwards and the others keep their order. The book keeps its
   * chapters and every other node its children.
   */
  lemma TrashMovedShape(kids: map<string, seq<string>>, trash: map<string, bool>)
    requires forall c :: c in ChildrenOf(kids, CH_ROOT) ==> c in trash
    ensures var ids := ChildrenOf(kids, CH_ROOT);
      var r := ChildrenOf(TrashMoved(kids, trash), CH_ROOT);
      && (forall c :: c in r <==> c in ids)
      && (forall n :: n != CH_ROOT ==> ChildrenOf(TrashMoved(kids, trash), n) == ChildrenOf(kids, n))
      && (|| r == ids
          || exists i :: && 0 <= i < |ids| && Movable(ids[i], ids, trash)
                         && (forall j :: 0 <= j < i ==> !Movable(ids[j], ids, trash))
                         && r == Without(ids, ids[i]) + [ids[i]])
      && (r == ids <==> forall c :: c in ids ==> !Movable(c, ids, trash))
  {
    var ids := ChildrenOf(kids, CH_ROOT);
    var f := FirstTrash(ids, ids, trash);
    FirstTrashIsFirst(ids, ids, trash);
    if f.Some? {
      var c := f.value;
      var r := Without(ids, c) + [c];
      assert |ids| >= 2 && NextIn(ids, c).Some?;
      var k :| 0 <= k < |ids| - 1 && ids[k] == c;
      assert r != ids by {
        LastNotMovable(ids, c, k);
      }
    }
  }

  /** A movable chapter is not the last one, so moving it changes the order. */
  lemma LastNotMovable(ids: seq<string>, c: string, k: int)
    requires 0 <= k < |ids| - 1 && ids[k] == c
    ensures Without(ids, c) + [c] != ids
  {
    var w := Without(ids, c);
    if |w| + 1 == |ids| {
      assert (w + [c])[k] == w[k];
      assert w[k] in w;
    }
  }

  /** No occurrence of x is left. */
  lemma {:induction false} WithoutCount(s: seq<string>, x: string)
    ensures multiset(Without(s, x))[x] == 0
  {
    if s != [] {
      WithoutCount(s[1..], x);
    }
  }

  /** The last element of a sequence that holds it nowhere else has no successor. */
  lemma LastHasNoNext(s: seq<string>, c: string)
    requires c !in s
    ensures NextIn(s + [c], c).None?
  {
    assert forall i :: 0 <= i < |s| ==> (s + [c])[i] == s[i];
  }

  /**
   * With a single trash chapter the rule settles: once it has moved to the
   * end, it stays there.
   */
  lemma TrashMovedSettles(kids: map<string, seq<string>>, trash: map<string, bool>, c: string)
    requires forall x :: x in ChildrenOf(kids, CH_ROOT) ==> x in trash
    requires forall x :: x in ChildrenOf(kids, CH_ROOT) && trash[x] ==> x == c
    ensures forall x :: x in ChildrenOf(TrashMoved(kids, trash), CH_ROOT) ==> x in trash
    ensures TrashMoved(TrashMoved(kids, trash), trash) == TrashMoved(kids, trash)
  {
    var ids := ChildrenOf(kids, CH_ROOT);
    TrashMovedShape(kids, trash);
    var once := TrashMoved(kids, trash);
    var f := FirstTrash(ids, ids, trash);
    FirstTrashIsFirst(ids, ids, trash);
    if f.Some? {
      assert f.value == c;
      FirstTrashIsFirst(Without(ids, c) + [c], Without(ids, c) + [c], trash);
      var r := Without(ids, c) + [c];
      assert ChildrenOf(once, CH_ROOT) == r;
      LastHasNoNext(Without(ids, c), c);
      assert forall x :: x in r ==> !Movable(x, r, trash);
    }
  }

  class NvWorkFile {
    /** The MdnovFile this file extends. */
    const base: MdnovFile

    constructor(base: MdnovFile)
      ensures this.base == base
    {
      this.base := base;
    }

    /** fileDate: 'Never' without a timestamp, else the timestamp in the locale's format. */
    function FileDate(format: int -> string): (r: string)
      reads base
      ensures base.timestamp.None? ==> r == "Never"
      ensures base.timestamp.Some? ==> r == format(base.timestamp.value)
    {
      if base.timestamp.None? then "Never" else format(base.timestamp.value)
    }

    /**
     * has_changed_on_disk: whether the file's modification time differs from
     * the one taken when the file was last read or written; false when the
     * modification time cannot be read (mtime is None).
     */
    function HasChangedOnDisk(mtime: Option<int>): (r: bool)
      reads base
      ensures r ==> mtime.Some?
      ensures mtime.Some? ==> (r <==> base.timestamp != Some(mtime.value))
    {
      match mtime
      case None => false
      case Some(t) => base.timestamp != Some(t)
    }

    /**
     * write: a successful write takes the modification time, so the file is
     * not seen as changed on disk while that time stands; a failed write
     * leaves the stored time, and so the test, as it was.
     */
    method Write(store: FX.FileStore, mapper: FX.Mapper, p: J.Project, f: FX.Filters,
                 chapterYaml: ChapterRec -> seq<string>, path: string,
                 replaceOk: bool, writeOk: bool, mtime: Option<int>) returns (r: Result<()>)
      modifies store, base`timestamp
      ensures (r, store.files) == FX.WriteOutcome(old(store.files), path, MdnovText(mapper, p, f, chapterYaml), replaceOk, writeOk)
      ensures r.Ok? ==> !HasChangedOnDisk(mtime)
      ensures r.Err? ==> base.timestamp == old(base.timestamp)
    {
      r := base.Write(store, mapper, p, f, chapterYaml, path, replaceOk, writeOk, mtime);
    }

    /**
     * adjust_section_types: the rule of MdnovFile, then the trash rule on the
     * chapter tree.
     */
    method AdjustSectionTypes()
      requires Adjustable(base.novel)
      modifies (set c | c in base.novel.chapters.Values)`chType, (set s | s in base.novel.sections.Values)`scType
      modifies set c | c in base.novel.chapters.Values :: c.OnChange()
      modifies set s | s in base.novel.sections.Values :: s.OnChange()
      modifies base.novel.tree
      ensures Levels(base.novel) == old(Levels(base.novel)) && Trash(base.novel) == old(Trash(base.novel))
      ensures var a := Adjusted(old(ChapterIds(base.novel)), Levels(base.novel), Trash(base.novel), old(base.novel.tree.children),
                                TypeState(0, old(ChTypes(base.novel)), old(ScTypes(base.novel))));
        ChTypes(base.novel) == a.ch && ScTypes(base.novel) == a.sc
      ensures forall c :: c in old(ChapterIds(base.novel)) ==> c in Trash(base.novel)
      ensures base.novel.tree.children == TrashMoved(old(base.novel.tree.children), Trash(base.novel))
    {
      var novel := base.novel;
      assert forall c :: c in ChapterIds(novel) ==> ChapterReady(novel, c);
      base.AdjustSectionTypes();
      ghost var a := Adjusted(old(ChapterIds(novel)), Levels(novel), Trash(novel), old(novel.tree.children),
                              TypeState(0, old(ChTypes(novel)), old(ScTypes(novel))));
      ghost var ch, sc, levels, trash := ChTypes(novel), ScTypes(novel), Levels(novel), Trash(novel);
      assert ch == a.ch && sc == a.sc;
      MoveTrash(novel);
      assert ChTypes(novel) == ch && ScTypes(novel) == sc && Levels(novel) == levels && Trash(novel) == trash;
    }
  }

  /** Moving a tree node changes no chapter and no section. */
  twostate lemma ChTypesKept(novel: Novel)
    requires unchanged(novel) && forall c :: c in novel.chapters.Values ==> unchanged(c)
    ensures ChTypes(novel) == old(ChTypes(novel)) && Levels(novel) == old(Levels(novel))
  {
  }

  twostate lemma TrashKept(novel: Novel)
    requires unchanged(novel) && forall c :: c in novel.chapters.Values ==> unchanged(c)
    ensures Trash(novel) == old(Trash(novel))
  {
  }

  twostate lemma ScTypesKept(novel: Novel)
    requires unchanged(novel) && forall s :: s in novel.sections.Values ==> unchanged(s)
    ensures ScTypes(novel) == old(ScTypes(novel))
  {
  }

  /** The loop of adjust_section_types that moves the first movable trash chapter to the end. */
  method MoveTrash(novel: Novel)
    requires forall c :: c in ChapterIds(novel) ==> c in novel.chapters
    modifies novel.tree
    ensures ChTypes(novel) == old(ChTypes(novel)) && Levels(novel) == old(Levels(novel))
    ensures ScTypes(novel) == old(ScTypes(novel)) && Trash(novel) == old(Trash(novel))
    ensures forall c :: c in old(ChapterIds(novel)) ==> c in Trash(novel)
    ensures novel.tree.children == TrashMoved(old(novel.tree.children), Trash(novel))
  {
    ghost var trash := Trash(novel);
    var chIds := novel.tree.GetChildren(CH_ROOT);
    var i := 0;
    while i < |chIds|
      invariant 0 <= i <= |chIds|
      invariant novel.tree.children == old(novel.tree.children)
      invariant FirstTrash(chIds, chIds, trash) == FirstTrash(chIds[i..], chIds, trash)
    {
      var chId := chIds[i];
      assert chIds[i..][1..] == chIds[i + 1..];
      if novel.chapters[chId].isTrash == Some(true) && novel.tree.Next(CH_ROOT, chId).Some? {
        novel.tree.MoveToEnd(chId, CH_ROOT);
        ChTypesKept(novel);
        ScTypesKept(novel);
        TrashKept(novel);
        return;
      }
      i := i + 1;
    }
  }
}
