/**
 * The two rules PrjFile (prj_file.py) and MdnovFile (mdnov_file.py) both
 * implement, line for line alike: count_words and adjust_section_types. They
 * are written once here, over the novel the file holds, and both file
 * classes call them.
 */
module ProjectRules {
  import opened Wrappers
  import opened OrderedMaps
  import opened NovxGlobals
  import opened ModelBases
  import opened Elements
  import opened Sections
  import opened NvTrees
  import opened Novels

  /** The chapters under the chapter root, in tree order. */
  function ChapterIds(novel: Novel): seq<string>
    reads novel, novel.tree
  {
    novel.tree.GetChildren(CH_ROOT)
  }

  /** `not chapter.isTrash` fails only for a chapter whose flag is True. */
  predicate InTrash(ch: Chapter)
    reads ch`isTrash
  {
    ch.isTrash == Some(true)
  }

  // ----- count_words -----

  /**
   * What count_words looks up without failing: every listed chapter exists,
   * and the sections listed under a chapter that is not in the trash exist
   * and have a type (comparing None with 2 raises).
   */
  ghost predicate Countable(novel: Novel)
    reads novel, novel.tree, novel.chapters.Values, novel.sections.Values
  {
    forall c :: c in ChapterIds(novel) ==>
      c in novel.chapters &&
      (!InTrash(novel.chapters[c]) ==> SectionsTyped(novel, novel.tree.GetChildren(c)))
  }

  ghost predicate SectionsTyped(novel: Novel, scIds: seq<string>)
    reads novel, (set x | x in novel.sections.Values)`scType
  {
    forall s :: s in scIds ==> s in novel.sections && novel.sections[s].scType.Some?
  }

  /**
   * (count, totalCount) over the sections scIds: a section of type 0 (normal)
   * adds its words to both, a section of type 1 (unused) to the total only,
   * and a stage (type 2 or 3) to neither.
   */
  function SectionWords(novel: Novel, scIds: seq<string>): (r: (int, int))
    requires SectionsTyped(novel, scIds)
    reads novel, novel.sections.Values
    ensures 0 <= r.0 <= r.1
  {
    if scIds == [] then (0, 0)
    else
      var rest := SectionWords(novel, scIds[..|scIds| - 1]);
      var sc := novel.sections[scIds[|scIds| - 1]];
      if sc.scType.value < 2 then
        (if sc.scType.value == 0 then rest.0 + sc.wordCount else rest.0, rest.1 + sc.wordCount)
      else rest
  }

  /** The counts of the sections of the chapters chIds; chapters in the trash count nothing. */
  function ChapterWords(novel: Novel, chIds: seq<string>): (r: (int, int))
    requires forall c :: c in chIds ==>
      c in novel.chapters && (!InTrash(novel.chapters[c]) ==> SectionsTyped(novel, novel.tree.GetChildren(c)))
    reads novel, novel.tree, novel.chapters.Values, novel.sections.Values
    ensures 0 <= r.0 <= r.1
  {
    if chIds == [] then (0, 0)
    else
      var rest := ChapterWords(novel, chIds[..|chIds| - 1]);
      var c := chIds[|chIds| - 1];
      if InTrash(novel.chapters[c]) then rest
      else
        var own := SectionWords(novel, novel.tree.GetChildren(c));
        (rest.0 + own.0, rest.1 + own.1)
  }

  /**
   * count_words: the words of the normal sections and of the normal and
   * unused sections, over the chapters in tree order, skipping the trash.
   * The count is never greater than the total.
   */
  method CountWords(novel: Novel) returns (count: int, totalCount: int)
    requires Countable(novel)
    ensures (count, totalCount) == ChapterWords(novel, ChapterIds(novel))
    ensures 0 <= count <= totalCount
  {
    count, totalCount := 0, 0;
    var chIds := novel.tree.GetChildren(CH_ROOT);
    var i := 0;
    while i < |chIds|
      invariant 0 <= i <= |chIds|
      invariant (count, totalCount) == ChapterWords(novel, chIds[..i])
    {
      var chId := chIds[i];
      assert chIds[..i + 1][..i] == chIds[..i];
      if !InTrash(novel.chapters[chId]) {
        var own0, own1 := CountSectionWords(novel, novel.tree.GetChildren(chId));
        count, totalCount := count + own0, totalCount + own1;
      }
      i := i + 1;
    }
    assert chIds[..i] == chIds;
  }

  /** The inner loop of count_words, over the sections of one chapter. */
  method CountSectionWords(novel: Novel, scIds: seq<string>) returns (count: int, totalCount: int)
    requires SectionsTyped(novel, scIds)
    ensures (count, totalCount) == SectionWords(novel, scIds)
  {
    count, totalCount := 0, 0;
    var j := 0;
    while j < |scIds|
      invariant 0 <= j <= |scIds|
      invariant (count, totalCount) == SectionWords(novel, scIds[..j])
    {
      var sc := novel.sections[scIds[j]];
      assert scIds[..j + 1][..j] == scIds[..j];
      if sc.scType.value < 2 {
        totalCount := totalCount + sc.wordCount;
        if sc.scType.value == 0 {
          count := count + sc.wordCount;
        }
      }
      j := j + 1;
    }
    assert scIds[..j] == scIds;
  }

  // ----- adjust_section_types -----

  /** The types adjust_section_types reads and writes, by ID, and the part type it carries along. */
  datatype TypeState = TypeState(partType: int, ch: map<string, int>, sc: map<string, int>)

  /** `if scType < chType: scType = chType`, which is the larger of the two. */
  function Raise(scType: int, chType: int): (r: int)
    ensures r >= scType && r >= chType && (r == scType || r == chType)
  {
    if scType < chType then chType else scType
  }

  /**
   * The section loop of one chapter: each listed section whose type is below
   * t is raised to t. Raising twice to t is raising once, so a section
   * listed twice ends up as one listed once.
   */
  function RaiseSections(scIds: seq<string>, t: int, sc: map<string, int>): (r: map<string, int>)
    requires forall s :: s in scIds ==> s in sc
    ensures r.Keys == sc.Keys
    ensures forall s :: s in r ==> r[s] == if s in scIds then Raise(sc[s], t) else sc[s]
  {
    if scIds == [] then sc
    else
      var rest := RaiseSections(scIds[..|scIds| - 1], t, sc);
      var s := scIds[|scIds| - 1];
      assert forall x :: x in scIds <==> x in scIds[..|scIds| - 1] || x == s;
      rest[s := Raise(rest[s], t)]
  }

  /** What the loop needs of one chapter c: it has a type and its sections have types. */
  ghost predicate StepReady(a: TypeState, c: string, levels: map<string, Option<int>>,
                            trash: map<string, bool>, kids: map<string, seq<string>>)
  {
    c in a.ch && c in levels && c in trash && forall s :: s in ChildrenOf(kids, c) ==> s in a.sc
  }

  /**
   * One pass of the chapter loop: a part (level 1) sets the part type to its
   * own type; any other chapter that is not in the trash takes a non-zero
   * part type; then the chapter's sections are raised to its type.
   */
  function ChapterStep(a: TypeState, c: string, levels: map<string, Option<int>>,
                       trash: map<string, bool>, kids: map<string, seq<string>>): (r: TypeState)
    requires StepReady(a, c, levels, trash, kids)
    ensures r.ch.Keys == a.ch.Keys && r.sc.Keys == a.sc.Keys
  {
    var b := PartTypeStep(a, c, levels, trash);
    b.(sc := RaiseSections(ChildrenOf(kids, c), b.ch[c], b.sc))
  }

  /** The part-type rule of one pass of the chapter loop. */
  function PartTypeStep(a: TypeState, c: string, levels: map<string, Option<int>>, trash: map<string, bool>): (r: TypeState)
    requires c in a.ch && c in levels && c in trash
    ensures r.ch.Keys == a.ch.Keys && r.sc == a.sc
    ensures levels[c] == Some(1) ==> r.partType == a.ch[c] && r.ch == a.ch
    ensures levels[c] != Some(1) && a.partType != 0 && !trash[c] ==>
      r.partType == a.partType && r.ch == a.ch[c := a.partType]
    ensures levels[c] != Some(1) && (a.partType == 0 || trash[c]) ==> r == a
  {
    if levels[c] == Some(1) then a.(partType := a.ch[c])
    else if a.partType != 0 && !trash[c] then a.(ch := a.ch[c := a.partType])
    else a
  }

  ghost predicate Ready(chIds: seq<string>, levels: map<string, Option<int>>, trash: map<string, bool>,
                        kids: map<string, seq<string>>, a: TypeState)
  {
    forall c :: c in chIds ==> StepReady(a, c, levels, trash, kids)
  }

  /** The whole chapter loop, from the state a, over chIds in order. */
  function Adjusted(chIds: seq<string>, levels: map<string, Option<int>>, trash: map<string, bool>,
                    kids: map<string, seq<string>>, a: TypeState): (r: TypeState)
    requires Ready(chIds, levels, trash, kids, a)
    ensures r.ch.Keys == a.ch.Keys && r.sc.Keys == a.sc.Keys
  {
    if chIds == [] then a
    else
      ReadyPrefix(chIds, |chIds| - 1, levels, trash, kids, a);
      var rest := Adjusted(chIds[..|chIds| - 1], levels, trash, kids, a);
      var c := chIds[|chIds| - 1];
      assert StepReady(a, c, levels, trash, kids);
      ChapterStep(rest, c, levels, trash, kids)
  }

  /** Whether each chapter is a part, by ID. */
  function Levels(novel: Novel): map<string, Option<int>>
    reads novel, (set x | x in novel.chapters.Values)`chLevel
  {
    map c | c in novel.chapters :: novel.chapters[c].chLevel
  }

  /** Whether each chapter is in the trash, by ID. */
  function Trash(novel: Novel): map<string, bool>
    reads novel, (set x | x in novel.chapters.Values)`isTrash
  {
    map c | c in novel.chapters :: InTrash(novel.chapters[c])
  }

  /** The chapter types that are set, by ID. */
  function ChTypes(novel: Novel): map<string, int>
    reads novel, (set x | x in novel.chapters.Values)`chType
  {
    map c | c in novel.chapters && novel.chapters[c].chType.Some? :: novel.chapters[c].chType.value
  }

  /** The section types that are set, by ID. */
  function ScTypes(novel: Novel): map<string, int>
    reads novel, (set x | x in novel.sections.Values)`scType
  {
    map s | s in novel.sections && novel.sections[s].scType.Some? :: novel.sections[s].scType.value
  }

  /** No chapter object is filed under two IDs. */
  ghost predicate ChaptersDistinct(novel: Novel)
    reads novel
  {
    forall a, b :: a in novel.chapters && b in novel.chapters && a != b ==> novel.chapters[a] != novel.chapters[b]
  }

  /**
   * What adjust_section_types looks up without failing: every listed chapter
   * exists and has a type, and so does every section listed under it; a
   * missing ID raises, and comparing None raises.
   */
  ghost predicate Adjustable(novel: Novel)
    reads novel, novel.tree, (set x | x in novel.chapters.Values)`chType, (set x | x in novel.sections.Values)`scType
  {
    && ChaptersDistinct(novel) && novel.SectionsDistinct()
    && forall c :: c in ChapterIds(novel) ==> ChapterReady(novel, c)
  }

  /** The chapter c and the sections under it exist and have a type. */
  ghost predicate ChapterReady(novel: Novel, c: string)
    reads novel, novel.tree, (set x | x in novel.chapters.Values)`chType, (set x | x in novel.sections.Values)`scType
  {
    c in novel.chapters && novel.chapters[c].chType.Some? && SectionsTyped(novel, novel.tree.GetChildren(c))
  }

  /** A chapter whose ID and section IDs are keys of the type snapshots is ready. */
  lemma ReadyOfKeys(novel: Novel, c: string)
    requires c in ChTypes(novel) && forall s :: s in novel.tree.GetChildren(c) ==> s in ScTypes(novel)
    ensures ChapterReady(novel, c)
  {
  }

  lemma AdjustableReady(novel: Novel)
    requires Adjustable(novel)
    ensures Ready(ChapterIds(novel), Levels(novel), Trash(novel), novel.tree.children,
                  TypeState(0, ChTypes(novel), ScTypes(novel)))
  {
    forall c | c in ChapterIds(novel)
      ensures StepReady(TypeState(0, ChTypes(novel), ScTypes(novel)), c, Levels(novel), Trash(novel), novel.tree.children)
    {
      assert ChapterReady(novel, c);
    }
  }

  /** The change callbacks of the novel's chapters and sections are among mbs. */
  ghost predicate CallbacksIn(novel: Novel, mbs: set<ModelBase?>)
    reads novel
  {
    && (forall c :: c in novel.chapters.Values ==> c.OnChange() in mbs)
    && (forall s :: s in novel.sections.Values ==> s.OnChange() in mbs)
  }

  /**
   * adjust_section_types: chapters after a part of a non-zero type take the
   * part's type unless they are in the trash, and every section is raised to
   * at least its chapter's type. Only types change.
   */
  method AdjustSectionTypes(novel: Novel)
    requires Adjustable(novel)
    modifies (set c | c in novel.chapters.Values)`chType, (set s | s in novel.sections.Values)`scType
    modifies set c | c in novel.chapters.Values :: c.OnChange()
    modifies set s | s in novel.sections.Values :: s.OnChange()
    ensures old(Ready(ChapterIds(novel), Levels(novel), Trash(novel), novel.tree.children,
                      TypeState(0, ChTypes(novel), ScTypes(novel))))
    ensures Levels(novel) == old(Levels(novel)) && Trash(novel) == old(Trash(novel))
    ensures var a := Adjusted(ChapterIds(novel), Levels(novel), Trash(novel), novel.tree.children,
                              TypeState(0, old(ChTypes(novel)), old(ScTypes(novel))));
      ChTypes(novel) == a.ch && ScTypes(novel) == a.sc
  {
    AdjustableReady(novel);
    ghost var mbs := (set c | c in novel.chapters.Values :: c.OnChange())
                     + (set s | s in novel.sections.Values :: s.OnChange());
    var chIds := novel.tree.GetChildren(CH_ROOT);
    ghost var tree, kids := novel.tree, novel.tree.children;
    ghost var a0 := TypeState(0, ChTypes(novel), ScTypes(novel));
    AdjustChapters(novel, chIds, Levels(novel), Trash(novel), a0, mbs);
    assert novel.tree == tree && tree.children == kids;
    ghost var a := Adjusted(chIds, old(Levels(novel)), old(Trash(novel)), kids, a0);
    assert ChTypes(novel) == a.ch && ScTypes(novel) == a.sc;
  }

  /** The chapter loop of adjust_section_types over chIds, from the snapshots a0. */
  method AdjustChapters(novel: Novel, chIds: seq<string>, ghost levels: map<string, Option<int>>,
                        ghost trash: map<string, bool>, ghost a0: TypeState, ghost mbs: set<ModelBase?>)
    requires CallbacksIn(novel, mbs)
    requires ChaptersDistinct(novel) && novel.SectionsDistinct()
    requires levels == Levels(novel) && trash == Trash(novel)
    requires a0 == TypeState(0, ChTypes(novel), ScTypes(novel))
    requires Ready(chIds, levels, trash, novel.tree.children, a0)
    modifies (set c | c in novel.chapters.Values)`chType, (set s | s in novel.sections.Values)`scType
    modifies mbs
    ensures Levels(novel) == levels && Trash(novel) == trash
    ensures var a := Adjusted(chIds, levels, trash, novel.tree.children, a0);
      ChTypes(novel) == a.ch && ScTypes(novel) == a.sc
  {
    ghost var kids := novel.tree.children;
    var partType := 0;
    var i := 0;
    while i < |chIds|
      invariant 0 <= i <= |chIds|
      invariant Levels(novel) == levels && Trash(novel) == trash && novel.tree.children == kids
      invariant Ready(chIds[..i], levels, trash, kids, a0)
      invariant var a := Adjusted(chIds[..i], levels, trash, kids, a0);
        partType == a.partType && ChTypes(novel) == a.ch && ScTypes(novel) == a.sc
    {
      var chId := chIds[i];
      AdjustedStep(chIds, i, levels, trash, kids, a0);
      ghost var a := Adjusted(chIds[..i], levels, trash, kids, a0);
      partType := AdjustChapter(novel, chId, partType, a, levels, trash, kids, mbs);
      i := i + 1;
    }
    assert chIds[..i] == chIds;
  }

  /** One more step of the chapter loop. */
  lemma AdjustedStep(ids: seq<string>, i: nat, levels: map<string, Option<int>>, trash: map<string, bool>,
                     kids: map<string, seq<string>>, a: TypeState)
    requires i < |ids| && Ready(ids, levels, trash, kids, a)
    ensures Ready(ids[..i], levels, trash, kids, a) && Ready(ids[..i + 1], levels, trash, kids, a)
    ensures StepReady(a, ids[i], levels, trash, kids)
    ensures StepReady(Adjusted(ids[..i], levels, trash, kids, a), ids[i], levels, trash, kids)
    ensures Adjusted(ids[..i + 1], levels, trash, kids, a)
            == ChapterStep(Adjusted(ids[..i], levels, trash, kids, a), ids[i], levels, trash, kids)
  {
    assert ids[i] in ids;
    assert ids[..i + 1][..i] == ids[..i];
    ReadyPrefix(ids, i, levels, trash, kids, a);
    ReadyPrefix(ids, i + 1, levels, trash, kids, a);
  }

  /** The chapters of a prefix of chIds are ready as well. */
  lemma ReadyPrefix(chIds: seq<string>, i: nat, levels: map<string, Option<int>>, trash: map<string, bool>,
                    kids: map<string, seq<string>>, a: TypeState)
    requires i <= |chIds| && Ready(chIds, levels, trash, kids, a)
    ensures Ready(chIds[..i], levels, trash, kids, a)
  {
    forall c | c in chIds[..i]
      ensures StepReady(a, c, levels, trash, kids)
    {
      assert c in chIds;
    }
  }

  /** One pass of the chapter loop of adjust_section_types, on the snapshots. */
  method AdjustChapter(novel: Novel, chId: string, partType: int, ghost a: TypeState,
                       ghost levels: map<string, Option<int>>, ghost trash: map<string, bool>,
                       ghost kids: map<string, seq<string>>, ghost mbs: set<ModelBase?>)
    returns (newPartType: int)
    requires CallbacksIn(novel, mbs)
    requires ChaptersDistinct(novel) && novel.SectionsDistinct()
    requires a == TypeState(partType, ChTypes(novel), ScTypes(novel))
    requires levels == Levels(novel) && trash == Trash(novel)
    requires kids == novel.tree.children && StepReady(a, chId, levels, trash, kids)
    modifies (set c | c in novel.chapters.Values)`chType, (set s | s in novel.sections.Values)`scType
    modifies mbs
    ensures levels == Levels(novel) && trash == Trash(novel) && kids == novel.tree.children
    ensures var b := ChapterStep(a, chId, levels, trash, kids);
      newPartType == b.partType && ChTypes(novel) == b.ch && ScTypes(novel) == b.sc
  {
    var t;
    newPartType, t := SetChapterType(novel, chId, partType, a, levels, trash, mbs);
    ghost var b := PartTypeStep(a, chId, levels, trash);
    var scIds := novel.tree.GetChildren(chId);
    assert scIds == ChildrenOf(kids, chId);
    assert forall s :: s in scIds ==> s in ScTypes(novel);
    RaiseSectionTypes(novel, scIds, t, mbs);
    assert ScTypes(novel) == RaiseSections(scIds, t, a.sc);
  }

  /** The part-type rule of adjust_section_types for one chapter; t is the chapter's type after it. */
  method SetChapterType(novel: Novel, chId: string, partType: int, ghost a: TypeState,
                        ghost levels: map<string, Option<int>>, ghost trash: map<string, bool>,
                        ghost mbs: set<ModelBase?>)
    returns (newPartType: int, t: int)
    requires CallbacksIn(novel, mbs) && ChaptersDistinct(novel)
    requires a.partType == partType && a.ch == ChTypes(novel) && levels == Levels(novel) && trash == Trash(novel)
    requires chId in a.ch
    modifies (set c | c in novel.chapters.Values)`chType
    modifies mbs
    ensures levels == Levels(novel) && trash == Trash(novel) && ScTypes(novel) == old(ScTypes(novel))
    ensures var b := PartTypeStep(a, chId, levels, trash);
      newPartType == b.partType && ChTypes(novel) == b.ch && t == b.ch[chId]
  {
    var ch := novel.chapters[chId];
    newPartType := partType;
    t := ch.chType.value;
    if ch.chLevel == Some(1) {
      newPartType := ch.chType.value;
    } else if partType != 0 && !InTrash(ch) {
      ch.SetChType(Some(partType));
      t := partType;
      assert ChTypes(novel) == old(ChTypes(novel))[chId := partType];
    }
  }

  /** The section loop of adjust_section_types for one chapter of type t, on the snapshots. */
  method RaiseSectionTypes(novel: Novel, scIds: seq<string>, t: int, ghost mbs: set<ModelBase?>)
    requires CallbacksIn(novel, mbs)
    requires novel.SectionsDistinct() && SectionsTyped(novel, scIds)
    modifies (set s | s in novel.sections.Values)`scType
    modifies mbs
    ensures ScTypes(novel) == RaiseSections(scIds, t, old(ScTypes(novel)))
    ensures ChTypes(novel) == old(ChTypes(novel))
    ensures Levels(novel) == old(Levels(novel)) && Trash(novel) == old(Trash(novel))
  {
    RaiseSectionLoop(novel, scIds, t, mbs);
    ghost var r := RaiseSections(scIds, t, old(ScTypes(novel)));
    forall s | s in novel.sections
      ensures s in ScTypes(novel) <==> s in r
      ensures s in r ==> ScTypes(novel)[s] == r[s]
    {
    }
    assert ScTypes(novel).Keys == r.Keys;
  }

  /** The section loop of adjust_section_types for one chapter of type t. */
  method RaiseSectionLoop(novel: Novel, scIds: seq<string>, t: int, ghost mbs: set<ModelBase?>)
    requires CallbacksIn(novel, mbs)
    requires novel.SectionsDistinct() && SectionsTyped(novel, scIds)
    modifies (set s | s in novel.sections.Values)`scType
    modifies mbs
    ensures forall s :: s in novel.sections ==>
      novel.sections[s].scType
      == if s in scIds then Some(Raise(old(novel.sections[s].scType.value), t)) else old(novel.sections[s].scType)
    ensures ChTypes(novel) == old(ChTypes(novel))
    ensures Levels(novel) == old(Levels(novel)) && Trash(novel) == old(Trash(novel))
  {
    var j := 0;
    while j < |scIds|
      invariant 0 <= j <= |scIds|
      invariant forall s :: s in novel.sections ==>
        novel.sections[s].scType
        == if s in scIds[..j] then Some(Raise(old(novel.sections[s].scType.value), t)) else old(novel.sections[s].scType)
    {
      var scId := scIds[j];
      var sc := novel.sections[scId];
      assert forall s :: s in scIds[..j + 1] <==> s in scIds[..j] || s == scId;
      if sc.scType.value < t {
        sc.SetScType(Some(t));
      }
      j := j + 1;
    }
    assert scIds[..j] == scIds;
  }

  // ----- what adjust_section_types achieves -----

  /** The type of the last part among ids, or p0 when there is none. */
  function LastPart(ids: seq<string>, levels: map<string, Option<int>>, ch: map<string, int>, p0: int): int
    requires forall c :: c in ids ==> c in levels && c in ch
  {
    if ids == [] then p0
    else
      var c := ids[|ids| - 1];
      if levels[c] == Some(1) then ch[c] else LastPart(ids[..|ids| - 1], levels, ch, p0)
  }

  /** Readiness depends only on the keys of the state. */
  lemma ReadyKeys(ids: seq<string>, levels: map<string, Option<int>>, trash: map<string, bool>,
                  kids: map<string, seq<string>>, a: TypeState, b: TypeState)
    requires Ready(ids, levels, trash, kids, a) && a.ch.Keys == b.ch.Keys && a.sc.Keys == b.sc.Keys
    ensures Ready(ids, levels, trash, kids, b)
  {
    forall c | c in ids
      ensures StepReady(b, c, levels, trash, kids)
    {
      assert StepReady(a, c, levels, trash, kids);
    }
  }

  /** Running the loop over x and then over y is running it over x + y. */
  lemma {:induction false} AdjustedConcat(x: seq<string>, y: seq<string>, levels: map<string, Option<int>>,
                                          trash: map<string, bool>, kids: map<string, seq<string>>, a: TypeState)
    requires Ready(x + y, levels, trash, kids, a)
    ensures Ready(x, levels, trash, kids, a)
    ensures Ready(y, levels, trash, kids, Adjusted(x, levels, trash, kids, a))
    ensures Adjusted(x + y, levels, trash, kids, a) == Adjusted(y, levels, trash, kids, Adjusted(x, levels, trash, kids, a))
  {
    ReadyParts(x, y, levels, trash, kids, a);
    ReadyKeys(y, levels, trash, kids, a, Adjusted(x, levels, trash, kids, a));
    if y != [] {
      var y' := y[..|y| - 1];
      ConcatInit(x, y);
      ReadyPrefix(x + y, |x + y'|, levels, trash, kids, a);
      AdjustedConcat(x, y', levels, trash, kids, a);
    } else {
      assert x + y == x;
    }
  }

  /** Both parts of a ready sequence of chapters are ready. */
  lemma ReadyParts(x: seq<string>, y: seq<string>, levels: map<string, Option<int>>,
                   trash: map<string, bool>, kids: map<string, seq<string>>, a: TypeState)
    requires Ready(x + y, levels, trash, kids, a)
    ensures Ready(x, levels, trash, kids, a) && Ready(y, levels, trash, kids, a)
  {
    forall c | c in x || c in y
      ensures StepReady(a, c, levels, trash, kids)
    {
      assert c in x + y;
    }
  }

  /**
   * A chapter the loop does not visit, or a part, keeps its type: the loop
   * only ever assigns the types of visited chapters that are not parts.
   */
  lemma {:induction false} ChapterKept(ids: seq<string>, levels: map<string, Option<int>>, trash: map<string, bool>,
                                       kids: map<string, seq<string>>, a: TypeState, c: string)
    requires Ready(ids, levels, trash, kids, a) && c in a.ch
    requires c !in ids || (c in levels && levels[c] == Some(1))
    ensures Adjusted(ids, levels, trash, kids, a).ch[c] == a.ch[c]
  {
    if ids != [] {
      ReadyPrefix(ids, |ids| - 1, levels, trash, kids, a);
      ChapterKept(ids[..|ids| - 1], levels, trash, kids, a, c);
    }
  }

  /** The part type carried along is the type of the last part visited. */
  lemma {:induction false} PartTypeIsLastPart(ids: seq<string>, levels: map<string, Option<int>>, trash: map<string, bool>,
                                              kids: map<string, seq<string>>, a: TypeState)
    requires Ready(ids, levels, trash, kids, a)
    ensures Adjusted(ids, levels, trash, kids, a).partType == LastPart(ids, levels, a.ch, a.partType)
  {
    if ids != [] {
      var c := ids[|ids| - 1];
      assert c in ids;
      ReadyPrefix(ids, |ids| - 1, levels, trash, kids, a);
      PartTypeIsLastPart(ids[..|ids| - 1], levels, trash, kids, a);
      assert StepReady(a, c, levels, trash, kids);
      if levels[c] == Some(1) {
        ChapterKept(ids[..|ids| - 1], levels, trash, kids, a, c);
      }
    }
  }

  /** Section types never go down. */
  lemma {:induction false} SectionTypesGrow(ids: seq<string>, levels: map<string, Option<int>>, trash: map<string, bool>,
                                            kids: map<string, seq<string>>, a: TypeState, s: string)
    requires Ready(ids, levels, trash, kids, a) && s in a.sc
    ensures Adjusted(ids, levels, trash, kids, a).sc[s] >= a.sc[s]
  {
    if ids != [] {
      ReadyPrefix(ids, |ids| - 1, levels, trash, kids, a);
      SectionTypesGrow(ids[..|ids| - 1], levels, trash, kids, a, s);
    }
  }

  /** The state right after chapter ids[k] was visited, and the final state, agree on that chapter. */
  lemma ChapterAfterItsStep(ids: seq<string>, levels: map<string, Option<int>>, trash: map<string, bool>,
                            kids: map<string, seq<string>>, a: TypeState, k: nat)
    requires Ready(ids, levels, trash, kids, a) && Distinct(ids) && k < |ids|
    ensures Ready(ids[..k + 1], levels, trash, kids, a) && StepReady(a, ids[k], levels, trash, kids)
    ensures var mid := Adjusted(ids[..k + 1], levels, trash, kids, a);
      var fin := Adjusted(ids, levels, trash, kids, a);
      fin.ch[ids[k]] == mid.ch[ids[k]] && forall s :: s in mid.sc ==> fin.sc[s] >= mid.sc[s]
  {
    assert ids[k] in ids;
    assert ids == ids[..k + 1] + ids[k + 1..];
    AdjustedConcat(ids[..k + 1], ids[k + 1..], levels, trash, kids, a);
    var mid := Adjusted(ids[..k + 1], levels, trash, kids, a);
    assert ids[k] !in ids[k + 1..] by {
      assert forall j :: k < j < |ids| ==> ids[j] != ids[k];
    }
    ChapterKept(ids[k + 1..], levels, trash, kids, mid, ids[k]);
    forall s | s in mid.sc
      ensures Adjusted(ids, levels, trash, kids, a).sc[s] >= mid.sc[s]
    {
      SectionTypesGrow(ids[k + 1..], levels, trash, kids, mid, s);
    }
  }

  /**
   * The part-type rule: in the end a chapter that is neither a part nor in
   * the trash has the type of the last part before it, when that type is not
   * 0; every other chapter keeps its type.
   */
  lemma ChapterTypeRule(ids: seq<string>, levels: map<string, Option<int>>, trash: map<string, bool>,
                        kids: map<string, seq<string>>, a: TypeState, k: nat)
    requires Ready(ids, levels, trash, kids, a) && Distinct(ids) && k < |ids|
    ensures StepReady(a, ids[k], levels, trash, kids)
    ensures forall c :: c in ids[..k] ==> c in levels && c in a.ch
    ensures var c, p := ids[k], LastPart(ids[..k], levels, a.ch, a.partType);
      Adjusted(ids, levels, trash, kids, a).ch[c]
      == if levels[c] != Some(1) && p != 0 && !trash[c] then p else a.ch[c]
  {
    assert ids[k] in ids;
    ReadyPrefix(ids, k, levels, trash, kids, a);
    ChapterAfterItsStep(ids, levels, trash, kids, a, k);
    assert ids[..k + 1][..k] == ids[..k];
    assert ids[k] !in ids[..k] by {
      forall j | 0 <= j < k
        ensures ids[..k][j] != ids[k]
      {
      }
    }
    ChapterKept(ids[..k], levels, trash, kids, a, ids[k]);
    PartTypeIsLastPart(ids[..k], levels, trash, kids, a);
  }

  /** After the loop every section of a visited chapter has at least that chapter's type. */
  lemma SectionsAtLeastChapter(ids: seq<string>, levels: map<string, Option<int>>, trash: map<string, bool>,
                               kids: map<string, seq<string>>, a: TypeState, k: nat, s: string)
    requires Ready(ids, levels, trash, kids, a) && Distinct(ids) && k < |ids|
    requires s in ChildrenOf(kids, ids[k])
    ensures StepReady(a, ids[k], levels, trash, kids)
    ensures var fin := Adjusted(ids, levels, trash, kids, a);
      s in fin.sc && fin.sc[s] >= fin.ch[ids[k]]
  {
    ChapterAfterItsStep(ids, levels, trash, kids, a, k);
    AdjustedStep(ids, k, levels, trash, kids, a);
  }

  /**
   * adjust_section_types is idempotent: running the loop again from its own
   * result, with the part type reset, changes no type.
   */
  lemma AdjustIdempotent(ids: seq<string>, levels: map<string, Option<int>>, trash: map<string, bool>,
                         kids: map<string, seq<string>>, a: TypeState)
    requires Ready(ids, levels, trash, kids, a) && Distinct(ids)
    ensures var fin := Adjusted(ids, levels, trash, kids, a);
      Ready(ids, levels, trash, kids, fin.(partType := a.partType))
      && Adjusted(ids, levels, trash, kids, fin.(partType := a.partType)) == fin
  {
    ReadyKeys(ids, levels, trash, kids, a, Adjusted(ids, levels, trash, kids, a).(partType := a.partType));
    IdempotentPrefix(ids, levels, trash, kids, a, |ids|);
    assert ids[..|ids|] == ids;
  }

  lemma {:induction false} IdempotentPrefix(ids: seq<string>, levels: map<string, Option<int>>, trash: map<string, bool>,
                                            kids: map<string, seq<string>>, a: TypeState, k: nat)
    requires Ready(ids, levels, trash, kids, a) && Distinct(ids) && k <= |ids|
    ensures var fin := Adjusted(ids, levels, trash, kids, a);
      Ready(ids[..k], levels, trash, kids, a)
      && Ready(ids[..k], levels, trash, kids, fin.(partType := a.partType))
      && Adjusted(ids[..k], levels, trash, kids, fin.(partType := a.partType))
         == fin.(partType := Adjusted(ids[..k], levels, trash, kids, a).partType)
  {
    var fin := Adjusted(ids, levels, trash, kids, a);
    var start := fin.(partType := a.partType);
    ReadyKeys(ids, levels, trash, kids, a, start);
    ReadyPrefix(ids, k, levels, trash, kids, a);
    ReadyPrefix(ids, k, levels, trash, kids, start);
    if k == 0 {
      assert ids[..0] == [];
    } else {
      IdempotentPrefix(ids, levels, trash, kids, a, k - 1);
      IdempotentStep(ids, levels, trash, kids, a, k - 1);
    }
  }

  /** The induction step of IdempotentPrefix. */
  lemma IdempotentStep(ids: seq<string>, levels: map<string, Option<int>>, trash: map<string, bool>,
                       kids: map<string, seq<string>>, a: TypeState, j: nat)
    requires Ready(ids, levels, trash, kids, a) && Distinct(ids) && j < |ids|
    requires var fin := Adjusted(ids, levels, trash, kids, a);
      Ready(ids, levels, trash, kids, fin.(partType := a.partType))
      && Ready(ids[..j], levels, trash, kids, a)
      && Ready(ids[..j], levels, trash, kids, fin.(partType := a.partType))
      && Adjusted(ids[..j], levels, trash, kids, fin.(partType := a.partType))
         == fin.(partType := Adjusted(ids[..j], levels, trash, kids, a).partType)
    ensures var fin := Adjusted(ids, levels, trash, kids, a);
      Ready(ids[..j + 1], levels, trash, kids, a)
      && Ready(ids[..j + 1], levels, trash, kids, fin.(partType := a.partType))
      && Adjusted(ids[..j + 1], levels, trash, kids, fin.(partType := a.partType))
         == fin.(partType := Adjusted(ids[..j + 1], levels, trash, kids, a).partType)
  {
    var fin := Adjusted(ids, levels, trash, kids, a);
    var start := fin.(partType := a.partType);
    var c := ids[j];
    AdjustedStep(ids, j, levels, trash, kids, a);
    AdjustedStep(ids, j, levels, trash, kids, start);
    var run1 := Adjusted(ids[..j], levels, trash, kids, a);
    var b1 := PartTypeStep(run1, c, levels, trash);
    ChapterTypeRule(ids, levels, trash, kids, a, j);
    PartTypeIsLastPart(ids[..j], levels, trash, kids, a);
    if levels[c] == Some(1) {
      ChapterKept(ids, levels, trash, kids, a, c);
      ChapterKept(ids[..j], levels, trash, kids, a, c);
    }
    forall s | s in ChildrenOf(kids, c)
      ensures fin.sc[s] >= fin.ch[c]
    {
      SectionsAtLeastChapter(ids, levels, trash, kids, a, j, s);
    }
    StepOnFinal(fin, run1.partType, b1.partType, c, levels, trash, kids);
  }

  /** One pass of the loop over a state that already has its final types changes only the part type. */
  lemma StepOnFinal(fin: TypeState, p: int, p': int, c: string, levels: map<string, Option<int>>,
                    trash: map<string, bool>, kids: map<string, seq<string>>)
    requires StepReady(fin.(partType := p), c, levels, trash, kids)
    requires levels[c] == Some(1) ==> fin.ch[c] == p'
    requires levels[c] != Some(1) ==> p' == p && (p != 0 && !trash[c] ==> fin.ch[c] == p)
    requires forall s :: s in ChildrenOf(kids, c) ==> fin.sc[s] >= fin.ch[c]
    ensures ChapterStep(fin.(partType := p), c, levels, trash, kids) == fin.(partType := p')
  {
    var b := PartTypeStep(fin.(partType := p), c, levels, trash);
    assert b.ch == fin.ch;
    assert RaiseSections(ChildrenOf(kids, c), b.ch[c], fin.sc) == fin.sc;
  }
}
