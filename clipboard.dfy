/**
 * ClipboardManager (clipboard_manager.py): copying a tree element puts it
 * on the clipboard as a JSON object tagged by its kind, without its
 * references to other elements; pasting reads the tag back, creates the
 * element of that kind after the selected node and the children after it.
 */
module Clipboard {
  import opened Wrappers
  import opened Strings
  import opened OrderedMaps
  import opened NovxGlobals
  import opened JsonValues

  // ----- the tag and prefix maps -----

  /** The JSON tag copy_element writes for each element prefix. */
  const TAGS: map<string, string> := map[
    CHAPTER_PREFIX := "CHAPTER", SECTION_PREFIX := "SECTION", PLOT_LINE_PREFIX := "ARC",
    PLOT_POINT_PREFIX := "POINT", CHARACTER_PREFIX := "CHARACTER", LOCATION_PREFIX := "LOCATION",
    ITEM_PREFIX := "ITEM", PRJ_NOTE_PREFIX := "PROJECTNOTE"]

  /** The element prefix paste_element reads back from each JSON tag. */
  const PREFIXES: map<string, string> := map[
    "CHAPTER" := CHAPTER_PREFIX, "SECTION" := SECTION_PREFIX, "ARC" := PLOT_LINE_PREFIX,
    "POINT" := PLOT_POINT_PREFIX, "CHARACTER" := CHARACTER_PREFIX, "LOCATION" := LOCATION_PREFIX,
    "ITEM" := ITEM_PREFIX, "PROJECTNOTE" := PRJ_NOTE_PREFIX]

  /** Every element copied under a tag is pasted back as the same kind, and every tag pasted is one copy writes. */
  lemma TagsRoundTrip()
    ensures forall p :: p in TAGS ==> TAGS[p] in PREFIXES && PREFIXES[TAGS[p]] == p
    ensures forall t :: t in PREFIXES ==> PREFIXES[t] in TAGS && TAGS[PREFIXES[t]] == t
  {
    assert TAGS.Keys == {"ch", "sc", "ac", "ap", "cr", "lc", "it", "pn"};
    assert PREFIXES.Keys == {"CHAPTER", "SECTION", "ARC", "POINT", "CHARACTER", "LOCATION", "ITEM", "PROJECTNOTE"};
  }

  // ----- copy_element -----

  /** node[:2] */
  function NodePrefix(node: string): (r: string)
    ensures |r| <= 2 && StartsWith(node, r)
  {
    if |node| < 2 then node else node[..2]
  }

  /**
   * The tag copy_element puts the selected node under, or None where it
   * returns without copying: a prefix was asked for and the node has
   * another, or the node is no element (a root, say).
   */
  function CopyTag(node: string, elemPrefix: Option<string>): (r: Option<string>)
    ensures elemPrefix.Some? && NodePrefix(node) != elemPrefix.value ==> r.None?
    ensures r.Some? <==> (elemPrefix.None? || elemPrefix.value == NodePrefix(node)) && NodePrefix(node) in TAGS
    ensures r.Some? ==> r.value == TAGS[NodePrefix(node)]
  {
    var nodePrefix := NodePrefix(node);
    if elemPrefix.Some? && nodePrefix != elemPrefix.value then None
    else if nodePrefix !in TAGS then None
    else Some(TAGS[nodePrefix])
  }

  // ----- _remove_references -----

  /** The keys that point at other elements; a copy carries none of them. */
  const REFERENCES: seq<Name> := [F(KCharacters), F(KLocations), F(KItems), S("PlotlineNotes"), F(KSections), F(KSection)]

  /** The object without the keys in refs, the others in their order. */
  function Without<K(==,!new), V>(d: OMap<K, V>, refs: seq<K>): (r: OMap<K, V>)
    requires d.Valid()
    ensures r.Valid()
    decreases |refs|
  {
    if refs == [] then d
    else
      var d' := if refs[0] in d.m then d.Remove(refs[0]) else d;
      Without(d', refs[1..])
  }

  /** Exactly the listed keys are gone; every other key keeps its value. */
  lemma {:induction false} WithoutKeys<K(!new), V>(d: OMap<K, V>, refs: seq<K>)
    requires d.Valid()
    ensures forall k :: k in Without(d, refs).m <==> k in d.m && k !in refs
    ensures forall k :: k in Without(d, refs).m ==> Without(d, refs).m[k] == d.m[k]
    decreases |refs|
  {
    if refs != [] {
      var d' := if refs[0] in d.m then d.Remove(refs[0]) else d;
      WithoutKeys(d', refs[1..]);
    }
  }

  /** The remaining keys keep their order. */
  lemma {:induction false} WithoutKeepsOrder<K(!new), V>(d: OMap<K, V>, refs: seq<K>, x: K, y: K)
    requires d.Valid()
    requires x in Without(d, refs).keys && y in Without(d, refs).keys && x in d.keys && y in d.keys
    requires Index(d.keys, x) < Index(d.keys, y)
    ensures Index(Without(d, refs).keys, x) < Index(Without(d, refs).keys, y)
    decreases |refs|
  {
    WithoutKeys(d, refs);
    if refs != [] {
      var d' := if refs[0] in d.m then d.Remove(refs[0]) else d;
      WithoutKeys(d', refs[1..]);
      if refs[0] in d.m {
        RemoveKeyOrder(d.keys, refs[0], x, y);
      }
      WithoutKeepsOrder(d', refs[1..], x, y);
    }
  }

  /** The position of x in ks. */
  function Index<K(==)>(ks: seq<K>, x: K): (r: nat)
    requires x in ks
    ensures r < |ks| && ks[r] == x
  {
    if ks[0] == x then 0 else 1 + Index(ks[1..], x)
  }

  lemma {:induction false} RemoveKeyOrder<K(!new)>(ks: seq<K>, k: K, x: K, y: K)
    requires Distinct(ks) && x in ks && y in ks && x != k && y != k
    requires Index(ks, x) < Index(ks, y)
    ensures x in RemoveKey(ks, k) && y in RemoveKey(ks, k)
    ensures Index(RemoveKey(ks, k), x) < Index(RemoveKey(ks, k), y)
  {
    var r := RemoveKey(ks, k);
    if ks[0] == k {
      assert Index(ks, x) == 1 + Index(ks[1..], x) && Index(ks, y) == 1 + Index(ks[1..], y);
      RemoveKeyOrder(ks[1..], k, x, y);
    } else if ks[0] == x {
      assert r[0] == x;
    } else {
      assert r == [ks[0]] + RemoveKey(ks[1..], k);
      assert Index(ks, x) == 1 + Index(ks[1..], x) && Index(ks, y) == 1 + Index(ks[1..], y);
      RemoveKeyOrder(ks[1..], k, x, y);
      assert Index(r, x) == 1 + Index(r[1..], x) && Index(r, y) == 1 + Index(r[1..], y);
    }
  }

  /** A second removal changes nothing. */
  lemma {:induction false} WithoutIdempotent<K(!new), V>(d: OMap<K, V>, refs: seq<K>)
    requires d.Valid()
    ensures Without(Without(d, refs), refs) == Without(d, refs)
  {
    WithoutKeys(d, refs);
    WithoutAbsent(Without(d, refs), refs);
  }

  /** Removing keys that are absent is no change. */
  lemma {:induction false} WithoutAbsent<K(!new), V>(d: OMap<K, V>, refs: seq<K>)
    requires d.Valid()
    requires forall k :: k in refs ==> k !in d.m
    ensures Without(d, refs) == d
    decreases |refs|
  {
    if refs != [] {
      assert refs[0] in refs;
      WithoutAbsent(d, refs[1..]);
    }
  }

  /** A JSON object that the code changes in place. */
  class JsonObject {
    var entries: JDict

    constructor(entries: JDict)
      ensures this.entries == entries
    {
      this.entries := entries;
    }
  }

  /** _remove_references: deletes each reference key that the object holds. */
  method RemoveReferences(jsonElement: JsonObject)
    requires jsonElement.entries.Valid()
    modifies jsonElement
    ensures jsonElement.entries == Without(old(jsonElement.entries), REFERENCES)
  {
    var i := 0;
    while i < |REFERENCES|
      invariant 0 <= i <= |REFERENCES|
      invariant jsonElement.entries.Valid()
      invariant Without(old(jsonElement.entries), REFERENCES) == Without(jsonElement.entries, REFERENCES[i..])
    {
      var jsonRef := REFERENCES[i];
      assert REFERENCES[i..][1..] == REFERENCES[i + 1..];
      if jsonRef in jsonElement.entries.m {
        jsonElement.entries := jsonElement.entries.Remove(jsonRef);
      }
      i := i + 1;
    }
  }

  // ----- paste_element -----

  /** The model's element creators paste_element calls. */
  datatype Creator = AddChapter | AddSection | AddStage | AddPlotLine | AddPlotPoint
                   | AddCharacter | AddLocation | AddItem | AddProjectNote

  /** int(x) on a JSON value; None where Python raises. */
  function IntValue(v: Json): Option<int>
  {
    match v
    case JNum(n) => Some(n)
    case JBool(b) => Some(if b then 1 else 0)
    case JStr(s) => ParseInt(s)
    case _ => None
  }

  /**
   * How pasted section data is created: a type above 1 makes a stage,
   * anything else (a missing type counts as 0) a section. None where the
   * data is no object or its type is no number.
   */
  function SectionCreator(data: Json): (r: Option<Creator>)
    ensures data.JObj? && F(KType) !in data.obj.m ==> r == Some(AddSection)
    ensures r.Some? ==>
              && data.JObj? && IntValue(Get(data.obj.m, KType, JNum(0))).Some?
              && (r.value == AddStage <==> IntValue(Get(data.obj.m, KType, JNum(0))).value > 1)
              && (r.value == AddSection <==> IntValue(Get(data.obj.m, KType, JNum(0))).value <= 1)
    ensures r.None? <==> !data.JObj? || IntValue(Get(data.obj.m, KType, JNum(0))).None?
  {
    match data
    case JObj(o) => (
      match IntValue(Get(o.m, KType, JNum(0)))
      case None => None
      case Some(t) => Some(if t > 1 then AddStage else AddSection))
    case _ => None
  }

  /** The creator for an element prefix other than the section's. */
  function CreatorOf(prefix: string): Option<Creator>
  {
    if prefix == CHAPTER_PREFIX then Some(AddChapter)
    else if prefix == PLOT_LINE_PREFIX then Some(AddPlotLine)
    else if prefix == PLOT_POINT_PREFIX then Some(AddPlotPoint)
    else if prefix == CHARACTER_PREFIX then Some(AddCharacter)
    else if prefix == LOCATION_PREFIX then Some(AddLocation)
    else if prefix == ITEM_PREFIX then Some(AddItem)
    else if prefix == PRJ_NOTE_PREFIX then Some(AddProjectNote)
    else None
  }

  /**
   * What paste_element creates for the clipboard object whose first key is
   * rootKey: None where it returns without pasting (an unknown tag, a
   * prefix asked for that differs, section data that cannot be read).
   */
  function PasteCreator(rootKey: string, data: Json, elemPrefix: Option<string>): (r: Option<Creator>)
    ensures rootKey !in PREFIXES ==> r.None?
    ensures rootKey in PREFIXES && elemPrefix.Some? && elemPrefix.value != PREFIXES[rootKey] ==> r.None?
    ensures r.Some? && rootKey == "SECTION" ==> r == SectionCreator(data)
    ensures r == Some(AddStage) || r == Some(AddSection) ==> rootKey == "SECTION"
  {
    if rootKey !in PREFIXES then None
    else
      var nodePrefix := PREFIXES[rootKey];
      if elemPrefix.Some? && nodePrefix != elemPrefix.value then None
      else if nodePrefix == SECTION_PREFIX then SectionCreator(data)
      else CreatorOf(nodePrefix)
  }

  /** A section tag is pasted as a section or a stage, never as anything else. */
  lemma CopiedSectionPastedAsSection(data: Json)
    requires data.JObj?
    ensures PasteCreator(TAGS[SECTION_PREFIX], data, None) == SectionCreator(data)
    ensures PasteCreator(TAGS[SECTION_PREFIX], data, Some(CHAPTER_PREFIX)).None?
  {
  }

  /** How a pasted plot line's points are created: always as plot points. */
  function PointCreator(data: Json): (r: Option<Creator>)
    ensures r == Some(AddPlotPoint)
  {
    Some(AddPlotPoint)
  }

  /**
   * The children of a pasted chapter or plot line: each child in the
   * clipboard's order is created after the one created before it, starting
   * after the parent. kindOf is SectionCreator or PointCreator;
   * create(kind, targetNode) is the model's add_stage, add_section or
   * add_plot_point. On data that cannot be read, the ones created so far
   * stay and the paste stops.
   */
  function ChildIds(children: seq<Json>, first: string, kindOf: Json -> Option<Creator>,
                    create: (Creator, string) -> string): (r: Option<seq<string>>)
    ensures r.Some? ==> |r.value| == |children|
    decreases |children|
  {
    if children == [] then Some([])
    else
      match kindOf(children[0])
      case None => None
      case Some(kind) =>
        var id := create(kind, first);
        match ChildIds(children[1..], id, kindOf, create)
        case None => None
        case Some(rest) => Some([id] + rest)
  }

  /** Each child is created with its own creator, after the child created before it. */
  lemma {:induction false} ChildIdsChain(children: seq<Json>, first: string, kindOf: Json -> Option<Creator>,
                                               create: (Creator, string) -> string)
    requires ChildIds(children, first, kindOf, create).Some?
    ensures var ids := ChildIds(children, first, kindOf, create).value;
      forall k :: 0 <= k < |children| ==>
        && kindOf(children[k]).Some?
        && ids[k] == create(kindOf(children[k]).value, if k == 0 then first else ids[k - 1])
    decreases |children|
  {
    if children != [] {
      var id := create(kindOf(children[0]).value, first);
      ChildIdsChain(children[1..], id, kindOf, create);
      var ids := ChildIds(children, first, kindOf, create).value;
      var rest := ChildIds(children[1..], id, kindOf, create).value;
      assert ids == [id] + rest;
      forall k | 1 <= k < |children|
        ensures kindOf(children[k]).Some?
        ensures ids[k] == create(kindOf(children[k]).value, ids[k - 1])
      {
        assert children[k] == children[1..][k - 1];
        assert ids[k] == rest[k - 1];
        if k > 1 {
          assert ids[k - 1] == rest[k - 2];
        }
      }
    }
  }

  /** The points of a pasted plot line are all created, one per point in the clipboard. */
  lemma {:induction false} PointsAlwaysPasted(children: seq<Json>, first: string, create: (Creator, string) -> string)
    ensures ChildIds(children, first, PointCreator, create).Some?
    ensures |ChildIds(children, first, PointCreator, create).value| == |children|
    decreases |children|
  {
    if children != [] {
      PointsAlwaysPasted(children[1..], create(AddPlotPoint, first), create);
    }
  }

  /** The child loops of paste_element: sections of a pasted chapter, points of a pasted plot line. */
  method PasteChildren(children: seq<Json>, parent: string, kindOf: Json -> Option<Creator>,
                       create: (Creator, string) -> string)
    returns (ids: seq<string>, ok: bool)
    ensures ok <==> ChildIds(children, parent, kindOf, create).Some?
    ensures ok ==> ids == ChildIds(children, parent, kindOf, create).value
  {
    var targetNode := parent;
    ids := [];
    var i := 0;
    assert children[0..] == children;
    assert Prefixed([], ChildIds(children, parent, kindOf, create)) == ChildIds(children, parent, kindOf, create) by {
      PrefixedEmpty(ChildIds(children, parent, kindOf, create));
    }
    while i < |children|
      invariant 0 <= i <= |children|
      invariant ChildIds(children, parent, kindOf, create) == Prefixed(ids, ChildIds(children[i..], targetNode, kindOf, create))
    {
      var kind := kindOf(children[i]);
      assert children[i..][0] == children[i];
      if kind.None? {
        ok := false;
        return;
      }
      var scId := create(kind.value, targetNode);
      assert children[i..][1..] == children[i + 1..];
      PrefixedAppend(ids, scId, ChildIds(children[i + 1..], scId, kindOf, create));
      ids := ids + [scId];
      targetNode := scId;
      i := i + 1;
    }
    ok := true;
    assert children[i..] == [];
    assert ids + [] == ids;
  }

  lemma PrefixedEmpty(rest: Option<seq<string>>)
    ensures Prefixed([], rest) == rest
  {
    if rest.Some? {
      assert [] + rest.value == rest.value;
    }
  }

  /** ids in front of a result, or None. */
  function Prefixed(ids: seq<string>, rest: Option<seq<string>>): Option<seq<string>>
  {
    match rest
    case None => None
    case Some(r) => Some(ids + r)
  }

  lemma PrefixedAppend(ids: seq<string>, id: string, rest: Option<seq<string>>)
    ensures Prefixed(ids, Prefixed([id], rest)) == Prefixed(ids + [id], rest)
  {
    if rest.Some? {
      assert ids + ([id] + rest.value) == (ids + [id]) + rest.value;
    }
  }
}
