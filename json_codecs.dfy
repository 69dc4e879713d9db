/**
 * The element codecs of the .json project format as pure functions. DecodeX
 * is the element value import_data leaves when it reads an object into an
 * element whose value was r, or the error a setter's type assertion raises.
 * XOwnEntry is what export_data writes under one of the keys its class adds
 * (None when it writes nothing there); XMap is the dict export_data fills,
 * starting from the empty dict every caller passes, and XKeys the order in
 * which the keys were written. The export only writes values that are not
 * the default, so a round trip gives NormX(r): the value with every default
 * spelled the way the import reads it back.
 */
module JsonCodecs {
  import opened Wrappers
  import opened Strings
  import opened OrderedMaps
  import opened NovxGlobals
  import opened Elements
  import opened Sections
  import opened Novels
  import YamlCodecs
  import opened JsonValues

  // ----- shared value forms -----

  /** An optional list of strings as export_data writes it. */
  function ListJson(l: Option<seq<string>>): (r: Json)
    ensures l.Some? ==> StrListOf(r) == Ok(l)
  {
    if l.Some? then StrListJson(l.value) else JNull
  }

  /** An optional links dict as export_data writes it. */
  function LinksValue(l: Option<Links>): (r: Json)
    ensures l.Some? ==> LinksOf(r) == Ok(l)
  {
    if l.Some? then LinksRoundTrip(l.value); LinksJson(l.value) else JNull
  }

  /** Python truthiness of a links dict. */
  predicate LinksTruthy(l: Option<Links>)
  {
    l.Some? && l.value.m != map[]
  }

  /** Python truthiness of an optional int. */
  predicate NumTruthy(n: Option<int>)
  {
    n.Some? && n.value != 0
  }

  /** A text field written only when it is truthy. */
  function TextEntry(v: Option<string>): (r: Option<Json>)
    ensures r.Some? <==> Truthy(v)
    ensures r.Some? ==> TextOf(r.value) == Ok(v) && StrOf(r.value) == v
  {
    When(Truthy(v), TextJson(v))
  }

  /** A flag written as true only when it is set. */
  function FlagEntry(b: Option<bool>): (r: Option<Json>)
    ensures r.Some? <==> b == Some(true)
    ensures r.Some? ==> FlagOf(r.value) == Ok(Some(true))
  {
    When(b == Some(true), JBool(true))
  }

  /** A list written only when it is not empty. */
  function ListEntry(l: Option<seq<string>>): (r: Option<Json>)
    ensures r.Some? <==> NonEmpty(l)
    ensures r.Some? ==> StrListOf(r.value) == Ok(l)
  {
    When(NonEmpty(l), ListJson(l))
  }

  /** A number written when its condition holds. */
  function NumberEntry(write: bool, n: int): (r: Option<Json>)
    ensures r.Some? <==> write
    ensures r.Some? ==> r.value == JNum(n)
  {
    When(write, JNum(n))
  }

  /** A text field after the round trip: an empty string is not written and comes back as None. */
  function NormText(v: Option<string>): (r: Option<string>)
    ensures Truthy(v) ==> r == v
    ensures !Truthy(v) ==> r.None?
  {
    if Truthy(v) then v else None
  }

  /** A list after the round trip: an empty or missing list comes back as []. */
  function NormList(l: Option<seq<string>>): (r: Option<seq<string>>)
    ensures NonEmpty(l) ==> r == l
    ensures !NonEmpty(l) ==> r == Some([])
  {
    if NonEmpty(l) then l else Some([])
  }

  /** A flag after the round trip: only True is written, and a missing flag reads as False. */
  function NormFlag(b: Option<bool>): (r: Option<bool>)
    ensures r.Some? && (r.value <==> b == Some(true))
  {
    Some(b == Some(true))
  }

  /** A flag that is set, True or False, survives the round trip. */
  lemma NormFlagKeeps(b: Option<bool>)
    requires b.Some?
    ensures NormFlag(b) == b
  {
    if b.value {
      assert NormFlag(b) == Some(true);
    } else {
      assert NormFlag(b) == Some(false);
    }
  }

  /** A duration written only when it is truthy and not '0'. */
  function DurationEntry(v: Option<string>): (r: Option<Json>)
    ensures r.Some? <==> Truthy(v) && v.value != "0"
    ensures r.Some? ==> StrOf(r.value) == v
  {
    When(Truthy(v) && v.value != "0", TextJson(v))
  }

  /** A duration after the export: '' and '0' are not written. */
  function NormDuration(v: Option<string>): (r: Option<string>)
    ensures Truthy(v) && v.value != "0" ==> r == v
    ensures !(Truthy(v) && v.value != "0") ==> r.None?
  {
    if Truthy(v) && v.value != "0" then v else None
  }

  /** A count after the round trip: 0 is not written and comes back as None. */
  function NormCount(n: Option<int>): (r: Option<int>)
    ensures NumTruthy(n) ==> r == n
    ensures !NumTruthy(n) ==> r.None?
  {
    if NumTruthy(n) then n else None
  }

  // ----- BasicElementJson -----

  const BasicOwnKeys: set<Key> := {KTitle, KDesc, KLinks}
  const BasicOwnList: seq<Key> := [KTitle, KDesc, KLinks]
  const BasicKeySet: set<Key> := BasicOwnKeys

  /** BasicElementJson.import_data: Title and Desc default to None, Links to {}. */
  function DecodeBasic(d: map<Name, Json>, r: BasicRec): Result<BasicRec>
  {
    var title :- TextOf(Get(d, KTitle, JNull));
    var desc :- TextOf(Get(d, KDesc, JNull));
    var links :- LinksOf(Get(d, KLinks, JObj(Empty())));
    Ok(BasicRec(title, desc, if DictsDiffer(r.links, links) then links else r.links))
  }

  /** BasicElementJson.export_data: each key only when its value is truthy. */
  function BasicOwnEntry(r: BasicRec, k: Key): Option<Json>
  {
    match k
    case KTitle => TextEntry(r.title)
    case KDesc => TextEntry(r.desc)
    case KLinks => When(LinksTruthy(r.links), LinksValue(r.links))
    case _ => None
  }

  function BasicOwnFn(r: BasicRec): Key -> Option<Json>
  {
    k => BasicOwnEntry(r, k)
  }

  function BasicOwn(r: BasicRec): (m: map<Name, Json>)
    ensures forall n :: n in m ==> n.F? && n.key in BasicOwnKeys
  {
    Entries(BasicOwnKeys, BasicOwnFn(r))
  }

  /** Title, Desc and Links, each only when truthy. */
  function BasicMap(r: BasicRec): map<Name, Json>
  {
    BasicOwn(r)
  }

  function BasicKeys(r: BasicRec): seq<Name>
  {
    WrittenKeys(BasicOwnList, BasicOwnFn(r))
  }

  function EncodeBasic(r: BasicRec): JDict
  {
    OMap(BasicKeys(r), BasicMap(r))
  }

  /**
   * Empty title and desc come back as None; links that were never set come
   * back as {}, and links that were set keep their value.
   */
  function NormBasic(r: BasicRec): BasicRec
  {
    BasicRec(NormText(r.title), NormText(r.desc), if r.links.None? then Some(Empty()) else r.links)
  }

  /** The export writes only keys of BasicKeySet. */
  lemma BasicMapKeys(r: BasicRec)
    ensures forall n :: n in BasicMap(r) ==> n.F? && n.key in BasicKeySet
  {
  }

  /** The import is read from BasicOwnKeys only. */
  lemma BasicFrame(d: map<Name, Json>, e: map<Name, Json>, r: BasicRec)
    requires Agree(d, e, BasicOwnKeys)
    ensures DecodeBasic(d, r) == DecodeBasic(e, r)
  {
    AgreeGet(d, e, BasicOwnKeys, KTitle, JNull);
    AgreeGet(d, e, BasicOwnKeys, KDesc, JNull);
    AgreeGet(d, e, BasicOwnKeys, KLinks, JObj(Empty()));
  }

  /** Exporting a basic element and importing the object into it again gives NormBasic. */
  lemma BasicRoundTrip(r: BasicRec)
    ensures DecodeBasic(EncodeBasic(r).m, r) == Ok(NormBasic(r))
  {
    BasicTitleBack(r);
    BasicDescBack(r);
    BasicLinksBack(r);
  }

  /** An exported title reads back as NormText has it. */
  lemma BasicTitleBack(r: BasicRec)
    ensures TextOf(Get(BasicOwn(r), KTitle, JNull)) == Ok(NormText(r.title))
  {
    EntriesGet(BasicOwnKeys, BasicOwnFn(r), KTitle, JNull);
  }

  /** An exported description reads back as NormText has it. */
  lemma BasicDescBack(r: BasicRec)
    ensures TextOf(Get(BasicOwn(r), KDesc, JNull)) == Ok(NormText(r.desc))
  {
    EntriesGet(BasicOwnKeys, BasicOwnFn(r), KDesc, JNull);
  }

  /** Exported links read back unchanged; missing links read as {}, which replaces only a never-set value. */
  lemma BasicLinksBack(r: BasicRec)
    ensures LinksOf(Get(BasicOwn(r), KLinks, JObj(Empty()))).Ok?
    ensures var l := LinksOf(Get(BasicOwn(r), KLinks, JObj(Empty()))).value;
      (if DictsDiffer(r.links, l) then l else r.links) == NormBasic(r).links
  {
    EntriesGet(BasicOwnKeys, BasicOwnFn(r), KLinks, JObj(Empty()));
    if LinksTruthy(r.links) {
      assert Get(BasicOwn(r), KLinks, JObj(Empty())) == LinksValue(r.links);
    } else {
      assert Get(BasicOwn(r), KLinks, JObj(Empty())) == JObj(Empty());
      LinksOfEmpty();
    }
  }

  // ----- BasicElementNotesJson -----

  const NotesOwnKeys: set<Key> := {KNotes}
  const NotesOwnList: seq<Key> := [KNotes]
  const NotesKeySet: set<Key> := BasicKeySet + NotesOwnKeys

  /** BasicElementNotesJson.import_data: the base fields, then Notes (default None). */
  function DecodeNotes(d: map<Name, Json>, r: NotesRec): Result<NotesRec>
  {
    var basic :- DecodeBasic(d, r.basic);
    NotesFieldsOf(d, r.(basic := basic))
  }

  function NotesFieldsOf(d: map<Name, Json>, r: NotesRec): Result<NotesRec>
  {
    var notes :- TextOf(Get(d, KNotes, JNull));
    Ok(r.(notes := notes))
  }

  /** Notes, when truthy. */
  function NotesOwnEntry(r: NotesRec, k: Key): Option<Json>
  {
    if k == KNotes then TextEntry(r.notes) else None
  }

  function NotesOwnFn(r: NotesRec): Key -> Option<Json>
  {
    k => NotesOwnEntry(r, k)
  }

  function NotesOwn(r: NotesRec): (m: map<Name, Json>)
    ensures forall n :: n in m ==> n.F? && n.key in NotesOwnKeys
  {
    Entries(NotesOwnKeys, NotesOwnFn(r))
  }

  /** The base entries, then Notes. */
  function NotesMap(r: NotesRec): map<Name, Json>
  {
    BasicMap(r.basic) + NotesOwn(r)
  }

  function NotesKeys(r: NotesRec): seq<Name>
  {
    BasicKeys(r.basic) + WrittenKeys(NotesOwnList, NotesOwnFn(r))
  }

  function EncodeNotes(r: NotesRec): JDict
  {
    OMap(NotesKeys(r), NotesMap(r))
  }

  function NormNotes(r: NotesRec): NotesRec
  {
    NotesRec(NormBasic(r.basic), NormText(r.notes))
  }

  /** The keys this class adds are new. */
  lemma NotesKeysDisjoint()
    ensures BasicKeySet !! NotesOwnKeys
  {
  }

  /** The export writes only keys of NotesKeySet. */
  lemma NotesMapKeys(r: NotesRec)
    ensures forall n :: n in NotesMap(r) ==> n.F? && n.key in NotesKeySet
  {
    BasicMapKeys(r.basic);
  }

  /** The fields this class adds are read from NotesOwnKeys only. */
  lemma NotesFieldsFrame(d: map<Name, Json>, e: map<Name, Json>, r: NotesRec)
    requires Agree(d, e, NotesOwnKeys)
    ensures NotesFieldsOf(d, r) == NotesFieldsOf(e, r)
  {
    AgreeGet(d, e, NotesOwnKeys, KNotes, JNull);
  }

  /** The import reads only keys of NotesKeySet. */
  lemma NotesFrame(d: map<Name, Json>, e: map<Name, Json>, r: NotesRec)
    requires Agree(d, e, NotesKeySet)
    ensures DecodeNotes(d, r) == DecodeNotes(e, r)
  {
    BasicFrame(d, e, r.basic);
    AgreeSubset(d, e, NotesKeySet, NotesOwnKeys);
    if DecodeBasic(d, r.basic).Ok? {
      NotesFieldsFrame(d, e, r.(basic := DecodeBasic(d, r.basic).value));
    }
  }

  /** The fields this class adds come back as NormNotes has them. */
  lemma NotesFieldsRoundTrip(r: NotesRec)
    ensures NotesFieldsOf(NotesOwn(r), r.(basic := NormBasic(r.basic))) == Ok(NormNotes(r))
  {
    NotesNotesBack(r);

  }

  /** Any object that agrees with the export on the keys this class reads imports as NormNotes. */
  lemma NotesDecodeOf(d: map<Name, Json>, r: NotesRec)
    requires Agree(d, BasicMap(r.basic), BasicKeySet)
    requires Agree(d, NotesOwn(r), NotesOwnKeys)
    ensures DecodeNotes(d, r) == Ok(NormNotes(r))
  {
    BasicFrame(d, BasicMap(r.basic), r.basic);
    BasicRoundTrip(r.basic);
    NotesFieldsFrame(d, NotesOwn(r), r.(basic := NormBasic(r.basic)));
    NotesFieldsRoundTrip(r);
  }

  /** Exporting an element with notes and importing it again gives NormNotes. */
  lemma NotesRoundTrip(r: NotesRec)
    ensures DecodeNotes(EncodeNotes(r).m, r) == Ok(NormNotes(r))
  {
    BasicMapKeys(r.basic);
    NotesKeysDisjoint();
    UnionAgree(BasicMap(r.basic), NotesOwn(r), BasicKeySet, NotesOwnKeys);
    NotesDecodeOf(NotesMap(r), r);

  }

  /** Notes reads back as NormText has it. */
  lemma NotesNotesBack(r: NotesRec)
    ensures TextOf(Get(NotesOwn(r), KNotes, JNull)) == Ok(NormText(r.notes))
  {
    EntriesGet(NotesOwnKeys, NotesOwnFn(r), KNotes, JNull);
  }


  // ----- BasicElementTagsJson -----

  const TagsOwnKeys: set<Key> := {KTags}
  const TagsOwnList: seq<Key> := [KTags]
  const TagsKeySet: set<Key> := NotesKeySet + TagsOwnKeys

  /** BasicElementTagsJson.import_data: the fields with notes, then Tags (default []). */
  function DecodeTags(d: map<Name, Json>, r: TagsRec): Result<TagsRec>
  {
    var withNotes :- DecodeNotes(d, r.withNotes);
    TagsFieldsOf(d, r.(withNotes := withNotes))
  }

  function TagsFieldsOf(d: map<Name, Json>, r: TagsRec): Result<TagsRec>
  {
    var tags :- StrListOf(Get(d, KTags, JList([])));
    Ok(r.(tags := tags))
  }

  /** The tag list as a JSON list, only when it is not empty. */
  function TagsOwnEntry(r: TagsRec, k: Key): Option<Json>
  {
    if k == KTags then ListEntry(r.tags) else None
  }

  function TagsOwnFn(r: TagsRec): Key -> Option<Json>
  {
    k => TagsOwnEntry(r, k)
  }

  function TagsOwn(r: TagsRec): (m: map<Name, Json>)
    ensures forall n :: n in m ==> n.F? && n.key in TagsOwnKeys
  {
    Entries(TagsOwnKeys, TagsOwnFn(r))
  }

  /** The entries with notes, then Tags. */
  function TagsMap(r: TagsRec): map<Name, Json>
  {
    NotesMap(r.withNotes) + TagsOwn(r)
  }

  function TagsKeys(r: TagsRec): seq<Name>
  {
    NotesKeys(r.withNotes) + WrittenKeys(TagsOwnList, TagsOwnFn(r))
  }

  function EncodeTags(r: TagsRec): JDict
  {
    OMap(TagsKeys(r), TagsMap(r))
  }

  function NormTags(r: TagsRec): TagsRec
  {
    TagsRec(NormNotes(r.withNotes), NormList(r.tags))
  }

  /** The keys this class adds are new. */
  lemma TagsKeysDisjoint()
    ensures NotesKeySet !! TagsOwnKeys
  {
  }

  /** The export writes only keys of TagsKeySet. */
  lemma TagsMapKeys(r: TagsRec)
    ensures forall n :: n in TagsMap(r) ==> n.F? && n.key in TagsKeySet
  {
    NotesMapKeys(r.withNotes);
  }

  /** The fields this class adds are read from TagsOwnKeys only. */
  lemma TagsFieldsFrame(d: map<Name, Json>, e: map<Name, Json>, r: TagsRec)
    requires Agree(d, e, TagsOwnKeys)
    ensures TagsFieldsOf(d, r) == TagsFieldsOf(e, r)
  {
    AgreeGet(d, e, TagsOwnKeys, KTags, JList([]));
  }

  /** The import reads only keys of TagsKeySet. */
  lemma TagsFrame(d: map<Name, Json>, e: map<Name, Json>, r: TagsRec)
    requires Agree(d, e, TagsKeySet)
    ensures DecodeTags(d, r) == DecodeTags(e, r)
  {
    NotesFrame(d, e, r.withNotes);
    AgreeSubset(d, e, TagsKeySet, TagsOwnKeys);
    if DecodeNotes(d, r.withNotes).Ok? {
      TagsFieldsFrame(d, e, r.(withNotes := DecodeNotes(d, r.withNotes).value));
    }
  }

  /** The fields this class adds come back as NormTags has them. */
  lemma TagsFieldsRoundTrip(r: TagsRec)
    ensures TagsFieldsOf(TagsOwn(r), r.(withNotes := NormNotes(r.withNotes))) == Ok(NormTags(r))
  {
    TagsTagsBack(r);

  }

  /** Any object that agrees with the export on the keys this class reads imports as NormTags. */
  lemma TagsDecodeOf(d: map<Name, Json>, r: TagsRec)
    requires Agree(d, NotesMap(r.withNotes), NotesKeySet)
    requires Agree(d, TagsOwn(r), TagsOwnKeys)
    ensures DecodeTags(d, r) == Ok(NormTags(r))
  {
    NotesFrame(d, NotesMap(r.withNotes), r.withNotes);
    NotesRoundTrip(r.withNotes);
    TagsFieldsFrame(d, TagsOwn(r), r.(withNotes := NormNotes(r.withNotes)));
    TagsFieldsRoundTrip(r);
  }

  /** Exporting a tagged element and importing it again gives NormTags; a non-empty tag list keeps its order. */
  lemma TagsRoundTrip(r: TagsRec)
    ensures DecodeTags(EncodeTags(r).m, r) == Ok(NormTags(r))
  {
    NotesMapKeys(r.withNotes);
    TagsKeysDisjoint();
    UnionAgree(NotesMap(r.withNotes), TagsOwn(r), NotesKeySet, TagsOwnKeys);
    TagsDecodeOf(TagsMap(r), r);

  }

  /** The tag list reads back as NormList has it. */
  lemma TagsTagsBack(r: TagsRec)
    ensures StrListOf(Get(TagsOwn(r), KTags, JList([]))) == Ok(NormList(r.tags))
  {
    EntriesGet(TagsOwnKeys, TagsOwnFn(r), KTags, JList([]));
  }


  // ----- WorldElementJson -----

  const WorldOwnKeys: set<Key> := {KAka}
  const WorldOwnList: seq<Key> := [KAka]
  const WorldKeySet: set<Key> := TagsKeySet + WorldOwnKeys

  /** WorldElementJson.import_data: the tag-level fields, then Aka (default None). */
  function DecodeWorld(d: map<Name, Json>, r: WorldRec): Result<WorldRec>
  {
    var withTags :- DecodeTags(d, r.withTags);
    WorldFieldsOf(d, r.(withTags := withTags))
  }

  function WorldFieldsOf(d: map<Name, Json>, r: WorldRec): Result<WorldRec>
  {
    var aka :- TextOf(Get(d, KAka, JNull));
    Ok(r.(aka := aka))
  }

  /** Aka, when truthy. */
  function WorldOwnEntry(r: WorldRec, k: Key): Option<Json>
  {
    if k == KAka then TextEntry(r.aka) else None
  }

  function WorldOwnFn(r: WorldRec): Key -> Option<Json>
  {
    k => WorldOwnEntry(r, k)
  }

  function WorldOwn(r: WorldRec): (m: map<Name, Json>)
    ensures forall n :: n in m ==> n.F? && n.key in WorldOwnKeys
  {
    Entries(WorldOwnKeys, WorldOwnFn(r))
  }

  /** The tag-level entries, then Aka. */
  function WorldMap(r: WorldRec): map<Name, Json>
  {
    TagsMap(r.withTags) + WorldOwn(r)
  }

  function WorldKeys(r: WorldRec): seq<Name>
  {
    TagsKeys(r.withTags) + WrittenKeys(WorldOwnList, WorldOwnFn(r))
  }

  function EncodeWorld(r: WorldRec): JDict
  {
    OMap(WorldKeys(r), WorldMap(r))
  }

  function NormWorld(r: WorldRec): WorldRec
  {
    WorldRec(NormTags(r.withTags), NormText(r.aka))
  }

  /** The keys this class adds are new. */
  lemma WorldKeysDisjoint()
    ensures TagsKeySet !! WorldOwnKeys
  {
  }

  /** The export writes only keys of WorldKeySet. */
  lemma WorldMapKeys(r: WorldRec)
    ensures forall n :: n in WorldMap(r) ==> n.F? && n.key in WorldKeySet
  {
    TagsMapKeys(r.withTags);
  }

  /** The fields this class adds are read from WorldOwnKeys only. */
  lemma WorldFieldsFrame(d: map<Name, Json>, e: map<Name, Json>, r: WorldRec)
    requires Agree(d, e, WorldOwnKeys)
    ensures WorldFieldsOf(d, r) == WorldFieldsOf(e, r)
  {
    AgreeGet(d, e, WorldOwnKeys, KAka, JNull);
  }

  /** The import reads only keys of WorldKeySet. */
  lemma WorldFrame(d: map<Name, Json>, e: map<Name, Json>, r: WorldRec)
    requires Agree(d, e, WorldKeySet)
    ensures DecodeWorld(d, r) == DecodeWorld(e, r)
  {
    TagsFrame(d, e, r.withTags);
    AgreeSubset(d, e, WorldKeySet, WorldOwnKeys);
    if DecodeTags(d, r.withTags).Ok? {
      WorldFieldsFrame(d, e, r.(withTags := DecodeTags(d, r.withTags).value));
    }
  }

  /** The fields this class adds come back as NormWorld has them. */
  lemma WorldFieldsRoundTrip(r: WorldRec)
    ensures WorldFieldsOf(WorldOwn(r), r.(withTags := NormTags(r.withTags))) == Ok(NormWorld(r))
  {
    WorldAkaBack(r);

  }

  /** Any object that agrees with the export on the keys this class reads imports as NormWorld. */
  lemma WorldDecodeOf(d: map<Name, Json>, r: WorldRec)
    requires Agree(d, TagsMap(r.withTags), TagsKeySet)
    requires Agree(d, WorldOwn(r), WorldOwnKeys)
    ensures DecodeWorld(d, r) == Ok(NormWorld(r))
  {
    TagsFrame(d, TagsMap(r.withTags), r.withTags);
    TagsRoundTrip(r.withTags);
    WorldFieldsFrame(d, WorldOwn(r), r.(withTags := NormTags(r.withTags)));
    WorldFieldsRoundTrip(r);
  }

  /** Exporting a location or item and importing it again gives NormWorld. */
  lemma WorldRoundTrip(r: WorldRec)
    ensures DecodeWorld(EncodeWorld(r).m, r) == Ok(NormWorld(r))
  {
    TagsMapKeys(r.withTags);
    WorldKeysDisjoint();
    UnionAgree(TagsMap(r.withTags), WorldOwn(r), TagsKeySet, WorldOwnKeys);
    WorldDecodeOf(WorldMap(r), r);

  }

  /** Aka reads back as NormText has it. */
  lemma WorldAkaBack(r: WorldRec)
    ensures TextOf(Get(WorldOwn(r), KAka, JNull)) == Ok(NormText(r.aka))
  {
    EntriesGet(WorldOwnKeys, WorldOwnFn(r), KAka, JNull);
  }


  // ----- CharacterJson -----

  const CharacterOwnKeys: set<Key> := {KMajor, KFullName, KBirthDate, KDeathDate, KBio, KGoals}
  const CharacterOwnList: seq<Key> := [KMajor, KFullName, KBirthDate, KDeathDate, KBio, KGoals]
  const CharacterKeySet: set<Key> := WorldKeySet + CharacterOwnKeys

  /** CharacterJson.import_data: the world-element fields, then major (default False), FullName, the two dates through verified_date, Bio and Goals. */
  function DecodeCharacter(d: map<Name, Json>, r: CharacterRec): Result<CharacterRec>
  {
    var world :- DecodeWorld(d, r.world);
    CharacterFieldsOf(d, r.(world := world))
  }

  function CharacterFieldsOf(d: map<Name, Json>, r: CharacterRec): Result<CharacterRec>
  {
    var isMajor :- FlagOf(Get(d, KMajor, JBool(false)));
    var fullName :- TextOf(Get(d, KFullName, JNull));
    var birthDate := VerifiedDate(StrOf(Get(d, KBirthDate, JNull)));
    var deathDate := VerifiedDate(StrOf(Get(d, KDeathDate, JNull)));
    var bio :- TextOf(Get(d, KBio, JNull));
    var goals :- TextOf(Get(d, KGoals, JNull));
    Ok(CharacterRec(r.world, bio, goals, fullName, isMajor, birthDate, deathDate))
  }

  /** major as true for major characters, then FullName, the dates, Bio and Goals when truthy. */
  function CharacterOwnEntry(r: CharacterRec, k: Key): Option<Json>
  {
    match k
    case KMajor => FlagEntry(r.isMajor)
    case KFullName => TextEntry(r.fullName)
    case KBirthDate => TextEntry(r.birthDate)
    case KDeathDate => TextEntry(r.deathDate)
    case KBio => TextEntry(r.bio)
    case KGoals => TextEntry(r.goals)
    case _ => None
  }

  function CharacterOwnFn(r: CharacterRec): Key -> Option<Json>
  {
    k => CharacterOwnEntry(r, k)
  }

  function CharacterOwn(r: CharacterRec): (m: map<Name, Json>)
    ensures forall n :: n in m ==> n.F? && n.key in CharacterOwnKeys
  {
    Entries(CharacterOwnKeys, CharacterOwnFn(r))
  }

  /** The world-element entries, then the character's own. */
  function CharacterMap(r: CharacterRec): map<Name, Json>
  {
    WorldMap(r.world) + CharacterOwn(r)
  }

  function CharacterKeys(r: CharacterRec): seq<Name>
  {
    WorldKeys(r.world) + WrittenKeys(CharacterOwnList, CharacterOwnFn(r))
  }

  function EncodeCharacter(r: CharacterRec): JDict
  {
    OMap(CharacterKeys(r), CharacterMap(r))
  }

  /** A date that is not an ISO date is dropped by verified_date on the way back. */
  function NormCharacter(r: CharacterRec): CharacterRec
  {
    CharacterRec(NormWorld(r.world), NormText(r.bio), NormText(r.goals), NormText(r.fullName),
                 NormFlag(r.isMajor), VerifiedDate(NormText(r.birthDate)), VerifiedDate(NormText(r.deathDate)))
  }

  /** The keys this class adds are new. */
  lemma CharacterKeysDisjoint()
    ensures WorldKeySet !! CharacterOwnKeys
  {
  }

  /** The export writes only keys of CharacterKeySet. */
  lemma CharacterMapKeys(r: CharacterRec)
    ensures forall n :: n in CharacterMap(r) ==> n.F? && n.key in CharacterKeySet
  {
    WorldMapKeys(r.world);
  }

  /** The fields this class adds are read from CharacterOwnKeys only. */
  lemma CharacterFieldsFrame(d: map<Name, Json>, e: map<Name, Json>, r: CharacterRec)
    requires Agree(d, e, CharacterOwnKeys)
    ensures CharacterFieldsOf(d, r) == CharacterFieldsOf(e, r)
  {
    AgreeGet(d, e, CharacterOwnKeys, KMajor, JBool(false));
    AgreeGet(d, e, CharacterOwnKeys, KFullName, JNull);
    AgreeGet(d, e, CharacterOwnKeys, KBirthDate, JNull);
    AgreeGet(d, e, CharacterOwnKeys, KDeathDate, JNull);
    AgreeGet(d, e, CharacterOwnKeys, KBio, JNull);
    AgreeGet(d, e, CharacterOwnKeys, KGoals, JNull);
  }

  /** The import reads only keys of CharacterKeySet. */
  lemma CharacterFrame(d: map<Name, Json>, e: map<Name, Json>, r: CharacterRec)
    requires Agree(d, e, CharacterKeySet)
    ensures DecodeCharacter(d, r) == DecodeCharacter(e, r)
  {
    WorldFrame(d, e, r.world);
    AgreeSubset(d, e, CharacterKeySet, CharacterOwnKeys);
    if DecodeWorld(d, r.world).Ok? {
      CharacterFieldsFrame(d, e, r.(world := DecodeWorld(d, r.world).value));
    }
  }

  /** The fields this class adds come back as NormCharacter has them. */
  lemma CharacterFieldsRoundTrip(r: CharacterRec)
    ensures CharacterFieldsOf(CharacterOwn(r), r.(world := NormWorld(r.world))) == Ok(NormCharacter(r))
  {
    CharacterMajorBack(r);
    CharacterFullNameBack(r);
    CharacterBirthDateBack(r);
    CharacterDeathDateBack(r);
    CharacterBioBack(r);
    CharacterGoalsBack(r);

  }

  /** Any object that agrees with the export on the keys this class reads imports as NormCharacter. */
  lemma CharacterDecodeOf(d: map<Name, Json>, r: CharacterRec)
    requires Agree(d, WorldMap(r.world), WorldKeySet)
    requires Agree(d, CharacterOwn(r), CharacterOwnKeys)
    ensures DecodeCharacter(d, r) == Ok(NormCharacter(r))
  {
    WorldFrame(d, WorldMap(r.world), r.world);
    WorldRoundTrip(r.world);
    CharacterFieldsFrame(d, CharacterOwn(r), r.(world := NormWorld(r.world)));
    CharacterFieldsRoundTrip(r);
  }

  /** Exporting a character and importing it again gives NormCharacter; unlike the .mdnov codec, Bio and Goals are carried. */
  lemma CharacterRoundTrip(r: CharacterRec)
    ensures DecodeCharacter(EncodeCharacter(r).m, r) == Ok(NormCharacter(r))
  {
    WorldMapKeys(r.world);
    CharacterKeysDisjoint();
    UnionAgree(WorldMap(r.world), CharacterOwn(r), WorldKeySet, CharacterOwnKeys);
    CharacterDecodeOf(CharacterMap(r), r);

  }

  /** major reads back as NormFlag has it. */
  lemma CharacterMajorBack(r: CharacterRec)
    ensures FlagOf(Get(CharacterOwn(r), KMajor, JBool(false))) == Ok(NormFlag(r.isMajor))
  {
    EntriesGet(CharacterOwnKeys, CharacterOwnFn(r), KMajor, JBool(false));
  }

  /** FullName reads back as NormText has it. */
  lemma CharacterFullNameBack(r: CharacterRec)
    ensures TextOf(Get(CharacterOwn(r), KFullName, JNull)) == Ok(NormText(r.fullName))
  {
    EntriesGet(CharacterOwnKeys, CharacterOwnFn(r), KFullName, JNull);
  }

  /** The birth date is read back as the text NormText has. */
  lemma CharacterBirthDateBack(r: CharacterRec)
    ensures StrOf(Get(CharacterOwn(r), KBirthDate, JNull)) == NormText(r.birthDate)
  {
    EntriesGet(CharacterOwnKeys, CharacterOwnFn(r), KBirthDate, JNull);
  }

  /** The death date is read back as the text NormText has. */
  lemma CharacterDeathDateBack(r: CharacterRec)
    ensures StrOf(Get(CharacterOwn(r), KDeathDate, JNull)) == NormText(r.deathDate)
  {
    EntriesGet(CharacterOwnKeys, CharacterOwnFn(r), KDeathDate, JNull);
  }

  /** Bio reads back as NormText has it. */
  lemma CharacterBioBack(r: CharacterRec)
    ensures TextOf(Get(CharacterOwn(r), KBio, JNull)) == Ok(NormText(r.bio))
  {
    EntriesGet(CharacterOwnKeys, CharacterOwnFn(r), KBio, JNull);
  }

  /** Goals reads back as NormText has it. */
  lemma CharacterGoalsBack(r: CharacterRec)
    ensures TextOf(Get(CharacterOwn(r), KGoals, JNull)) == Ok(NormText(r.goals))
  {
    EntriesGet(CharacterOwnKeys, CharacterOwnFn(r), KGoals, JNull);
  }


  // ----- ChapterJson -----

  const ChapterOwnKeys: set<Key> := {KType, KLevel, KIsTrash, KNoNumber}
  const ChapterOwnList: seq<Key> := [KType, KLevel, KIsTrash, KNoNumber]
  const ChapterKeySet: set<Key> := NotesKeySet + ChapterOwnKeys

  /** ChapterJson.import_data: the fields with notes, then type (0 or 1 kept, default 0, anything else 1), level (1 or 2 kept, otherwise 2) and the two flags (default False). */
  function DecodeChapter(d: map<Name, Json>, r: ChapterRec): Result<ChapterRec>
  {
    var withNotes :- DecodeNotes(d, r.withNotes);
    ChapterFieldsOf(d, r.(withNotes := withNotes))
  }

  function ChapterFieldsOf(d: map<Name, Json>, r: ChapterRec): Result<ChapterRec>
  {
    var chType :- ChoiceOf(Get(d, KType, JNum(0)), 0, 1, 1);
    var chLevel :- ChoiceOf(Get(d, KLevel, JNum(2)), 1, 2, 2);
    var isTrash :- FlagOf(Get(d, KIsTrash, JBool(false)));
    var noNumber :- FlagOf(Get(d, KNoNumber, JBool(false)));
    Ok(ChapterRec(r.withNotes, Some(chType), Some(chLevel), isTrash, noNumber))
  }

  /** type when not 0, level only when 1, and each flag only when true. */
  function ChapterOwnEntry(r: ChapterRec, k: Key): Option<Json>
  {
    match k
    case KType => NumberEntry(NumTruthy(r.chType), r.chType.GetOr(0))
    case KLevel => NumberEntry(r.chLevel == Some(1), 1)
    case KIsTrash => FlagEntry(r.isTrash)
    case KNoNumber => FlagEntry(r.noNumber)
    case _ => None
  }

  function ChapterOwnFn(r: ChapterRec): Key -> Option<Json>
  {
    k => ChapterOwnEntry(r, k)
  }

  function ChapterOwn(r: ChapterRec): (m: map<Name, Json>)
    ensures forall n :: n in m ==> n.F? && n.key in ChapterOwnKeys
  {
    Entries(ChapterOwnKeys, ChapterOwnFn(r))
  }

  /** The entries with notes, then the chapter's attributes. */
  function ChapterMap(r: ChapterRec): map<Name, Json>
  {
    NotesMap(r.withNotes) + ChapterOwn(r)
  }

  function ChapterKeys(r: ChapterRec): seq<Name>
  {
    NotesKeys(r.withNotes) + WrittenKeys(ChapterOwnList, ChapterOwnFn(r))
  }

  function EncodeChapter(r: ChapterRec): JDict
  {
    OMap(ChapterKeys(r), ChapterMap(r))
  }

  /** Any non-zero type comes back as 1 (unused), any level but 1 as 2. */
  function NormChapter(r: ChapterRec): ChapterRec
  {
    ChapterRec(NormNotes(r.withNotes), Some(if NumTruthy(r.chType) then 1 else 0),
               Some(if r.chLevel == Some(1) then 1 else 2), NormFlag(r.isTrash), NormFlag(r.noNumber))
  }

  /** The keys this class adds are new. */
  lemma ChapterKeysDisjoint()
    ensures NotesKeySet !! ChapterOwnKeys
  {
  }

  /** The export writes only keys of ChapterKeySet. */
  lemma ChapterMapKeys(r: ChapterRec)
    ensures forall n :: n in ChapterMap(r) ==> n.F? && n.key in ChapterKeySet
  {
    NotesMapKeys(r.withNotes);
  }

  /** The fields this class adds are read from ChapterOwnKeys only. */
  lemma ChapterFieldsFrame(d: map<Name, Json>, e: map<Name, Json>, r: ChapterRec)
    requires Agree(d, e, ChapterOwnKeys)
    ensures ChapterFieldsOf(d, r) == ChapterFieldsOf(e, r)
  {
    AgreeGet(d, e, ChapterOwnKeys, KType, JNum(0));
    AgreeGet(d, e, ChapterOwnKeys, KLevel, JNum(2));
    AgreeGet(d, e, ChapterOwnKeys, KIsTrash, JBool(false));
    AgreeGet(d, e, ChapterOwnKeys, KNoNumber, JBool(false));
  }

  /** The import reads only keys of ChapterKeySet. */
  lemma ChapterFrame(d: map<Name, Json>, e: map<Name, Json>, r: ChapterRec)
    requires Agree(d, e, ChapterKeySet)
    ensures DecodeChapter(d, r) == DecodeChapter(e, r)
  {
    NotesFrame(d, e, r.withNotes);
    AgreeSubset(d, e, ChapterKeySet, ChapterOwnKeys);
    if DecodeNotes(d, r.withNotes).Ok? {
      ChapterFieldsFrame(d, e, r.(withNotes := DecodeNotes(d, r.withNotes).value));
    }
  }

  /** The fields this class adds come back as NormChapter has them. */
  lemma ChapterFieldsRoundTrip(r: ChapterRec)
    ensures ChapterFieldsOf(ChapterOwn(r), r.(withNotes := NormNotes(r.withNotes))) == Ok(NormChapter(r))
  {
    ChapterTypeBack(r);
    ChapterLevelBack(r);
    ChapterIsTrashBack(r);
    ChapterNoNumberBack(r);

  }

  /** Any object that agrees with the export on the keys this class reads imports as NormChapter. */
  lemma ChapterDecodeOf(d: map<Name, Json>, r: ChapterRec)
    requires Agree(d, NotesMap(r.withNotes), NotesKeySet)
    requires Agree(d, ChapterOwn(r), ChapterOwnKeys)
    ensures DecodeChapter(d, r) == Ok(NormChapter(r))
  {
    NotesFrame(d, NotesMap(r.withNotes), r.withNotes);
    NotesRoundTrip(r.withNotes);
    ChapterFieldsFrame(d, ChapterOwn(r), r.(withNotes := NormNotes(r.withNotes)));
    ChapterFieldsRoundTrip(r);
  }

  /** Exporting a chapter and importing it again gives NormChapter. */
  lemma ChapterRoundTrip(r: ChapterRec)
    ensures DecodeChapter(EncodeChapter(r).m, r) == Ok(NormChapter(r))
  {
    NotesMapKeys(r.withNotes);
    ChapterKeysDisjoint();
    UnionAgree(NotesMap(r.withNotes), ChapterOwn(r), NotesKeySet, ChapterOwnKeys);
    ChapterDecodeOf(ChapterMap(r), r);

  }

  /** A non-zero type reads back as 1, anything else as 0. */
  lemma ChapterTypeBack(r: ChapterRec)
    ensures ChoiceOf(Get(ChapterOwn(r), KType, JNum(0)), 0, 1, 1) == Ok(if NumTruthy(r.chType) then 1 else 0)
  {
    EntriesGet(ChapterOwnKeys, ChapterOwnFn(r), KType, JNum(0));
  }

  /** Level 1 reads back as 1, anything else as 2. */
  lemma ChapterLevelBack(r: ChapterRec)
    ensures ChoiceOf(Get(ChapterOwn(r), KLevel, JNum(2)), 1, 2, 2) == Ok(if r.chLevel == Some(1) then 1 else 2)
  {
    EntriesGet(ChapterOwnKeys, ChapterOwnFn(r), KLevel, JNum(2));
  }

  /** isTrash reads back as NormFlag has it. */
  lemma ChapterIsTrashBack(r: ChapterRec)
    ensures FlagOf(Get(ChapterOwn(r), KIsTrash, JBool(false))) == Ok(NormFlag(r.isTrash))
  {
    EntriesGet(ChapterOwnKeys, ChapterOwnFn(r), KIsTrash, JBool(false));
  }

  /** noNumber reads back as NormFlag has it. */
  lemma ChapterNoNumberBack(r: ChapterRec)
    ensures FlagOf(Get(ChapterOwn(r), KNoNumber, JBool(false))) == Ok(NormFlag(r.noNumber))
  {
    EntriesGet(ChapterOwnKeys, ChapterOwnFn(r), KNoNumber, JBool(false));
  }

  /** Valid chapter attributes round-trip exactly. */
  lemma ChapterAttributesRoundTrip(r: ChapterRec)
    requires r.chType == Some(0) || r.chType == Some(1)
    requires r.chLevel == Some(1) || r.chLevel == Some(2)
    requires r.isTrash.Some? && r.noNumber.Some?
    ensures DecodeChapter(EncodeChapter(r).m, r) == Ok(r.(withNotes := NormNotes(r.withNotes)))
  {
    ChapterRoundTrip(r);
    ChapterNormKeepsAttributes(r);
  }

  /** NormChapter changes nothing but the notes-level fields of a chapter with valid attributes. */
  lemma ChapterNormKeepsAttributes(r: ChapterRec)
    requires r.chType == Some(0) || r.chType == Some(1)
    requires r.chLevel == Some(1) || r.chLevel == Some(2)
    requires r.isTrash.Some? && r.noNumber.Some?
    ensures NormChapter(r) == r.(withNotes := NormNotes(r.withNotes))
  {
    NormFlagKeeps(r.isTrash);
    NormFlagKeeps(r.noNumber);
  }

  // ----- PlotLineJson -----

  const PlotLineOwnKeys: set<Key> := {KShortName, KSections}
  const PlotLineOwnList: seq<Key> := [KShortName, KSections]
  const PlotLineKeySet: set<Key> := NotesKeySet + PlotLineOwnKeys

  /** PlotLineJson.import_data: the fields with notes, then ShortName (default None) and Sections (default []). */
  function DecodePlotLine(d: map<Name, Json>, r: PlotLineRec): Result<PlotLineRec>
  {
    var withNotes :- DecodeNotes(d, r.withNotes);
    PlotLineFieldsOf(d, r.(withNotes := withNotes))
  }

  function PlotLineFieldsOf(d: map<Name, Json>, r: PlotLineRec): Result<PlotLineRec>
  {
    var shortName :- TextOf(Get(d, KShortName, JNull));
    var sections :- StrListOf(Get(d, KSections, JList([])));
    Ok(PlotLineRec(r.withNotes, shortName, sections))
  }

  /** ShortName when truthy, Sections when not empty. */
  function PlotLineOwnEntry(r: PlotLineRec, k: Key): Option<Json>
  {
    match k
    case KShortName => TextEntry(r.shortName)
    case KSections => ListEntry(r.sections)
    case _ => None
  }

  function PlotLineOwnFn(r: PlotLineRec): Key -> Option<Json>
  {
    k => PlotLineOwnEntry(r, k)
  }

  function PlotLineOwn(r: PlotLineRec): (m: map<Name, Json>)
    ensures forall n :: n in m ==> n.F? && n.key in PlotLineOwnKeys
  {
    Entries(PlotLineOwnKeys, PlotLineOwnFn(r))
  }

  /** The entries with notes, then ShortName and Sections. */
  function PlotLineMap(r: PlotLineRec): map<Name, Json>
  {
    NotesMap(r.withNotes) + PlotLineOwn(r)
  }

  function PlotLineKeys(r: PlotLineRec): seq<Name>
  {
    NotesKeys(r.withNotes) + WrittenKeys(PlotLineOwnList, PlotLineOwnFn(r))
  }

  function EncodePlotLine(r: PlotLineRec): JDict
  {
    OMap(PlotLineKeys(r), PlotLineMap(r))
  }

  function NormPlotLine(r: PlotLineRec): PlotLineRec
  {
    PlotLineRec(NormNotes(r.withNotes), NormText(r.shortName), NormList(r.sections))
  }

  /** The keys this class adds are new. */
  lemma PlotLineKeysDisjoint()
    ensures NotesKeySet !! PlotLineOwnKeys
  {
  }

  /** The export writes only keys of PlotLineKeySet. */
  lemma PlotLineMapKeys(r: PlotLineRec)
    ensures forall n :: n in PlotLineMap(r) ==> n.F? && n.key in PlotLineKeySet
  {
    NotesMapKeys(r.withNotes);
  }

  /** The fields this class adds are read from PlotLineOwnKeys only. */
  lemma PlotLineFieldsFrame(d: map<Name, Json>, e: map<Name, Json>, r: PlotLineRec)
    requires Agree(d, e, PlotLineOwnKeys)
    ensures PlotLineFieldsOf(d, r) == PlotLineFieldsOf(e, r)
  {
    AgreeGet(d, e, PlotLineOwnKeys, KShortName, JNull);
    AgreeGet(d, e, PlotLineOwnKeys, KSections, JList([]));
  }

  /** The import reads only keys of PlotLineKeySet. */
  lemma PlotLineFrame(d: map<Name, Json>, e: map<Name, Json>, r: PlotLineRec)
    requires Agree(d, e, PlotLineKeySet)
    ensures DecodePlotLine(d, r) == DecodePlotLine(e, r)
  {
    NotesFrame(d, e, r.withNotes);
    AgreeSubset(d, e, PlotLineKeySet, PlotLineOwnKeys);
    if DecodeNotes(d, r.withNotes).Ok? {
      PlotLineFieldsFrame(d, e, r.(withNotes := DecodeNotes(d, r.withNotes).value));
    }
  }

  /** The fields this class adds come back as NormPlotLine has them. */
  lemma PlotLineFieldsRoundTrip(r: PlotLineRec)
    ensures PlotLineFieldsOf(PlotLineOwn(r), r.(withNotes := NormNotes(r.withNotes))) == Ok(NormPlotLine(r))
  {
    PlotLineShortNameBack(r);
    PlotLineSectionsBack(r);

  }

  /** Any object that agrees with the export on the keys this class reads imports as NormPlotLine. */
  lemma PlotLineDecodeOf(d: map<Name, Json>, r: PlotLineRec)
    requires Agree(d, NotesMap(r.withNotes), NotesKeySet)
    requires Agree(d, PlotLineOwn(r), PlotLineOwnKeys)
    ensures DecodePlotLine(d, r) == Ok(NormPlotLine(r))
  {
    NotesFrame(d, NotesMap(r.withNotes), r.withNotes);
    NotesRoundTrip(r.withNotes);
    PlotLineFieldsFrame(d, PlotLineOwn(r), r.(withNotes := NormNotes(r.withNotes)));
    PlotLineFieldsRoundTrip(r);
  }

  /** Exporting a plot line and importing it again gives NormPlotLine; its section list keeps its order. */
  lemma PlotLineRoundTrip(r: PlotLineRec)
    ensures DecodePlotLine(EncodePlotLine(r).m, r) == Ok(NormPlotLine(r))
  {
    NotesMapKeys(r.withNotes);
    PlotLineKeysDisjoint();
    UnionAgree(NotesMap(r.withNotes), PlotLineOwn(r), NotesKeySet, PlotLineOwnKeys);
    PlotLineDecodeOf(PlotLineMap(r), r);

  }

  /** ShortName reads back as NormText has it. */
  lemma PlotLineShortNameBack(r: PlotLineRec)
    ensures TextOf(Get(PlotLineOwn(r), KShortName, JNull)) == Ok(NormText(r.shortName))
  {
    EntriesGet(PlotLineOwnKeys, PlotLineOwnFn(r), KShortName, JNull);
  }

  /** The section list reads back as NormList has it. */
  lemma PlotLineSectionsBack(r: PlotLineRec)
    ensures StrListOf(Get(PlotLineOwn(r), KSections, JList([]))) == Ok(NormList(r.sections))
  {
    EntriesGet(PlotLineOwnKeys, PlotLineOwnFn(r), KSections, JList([]));
  }


  // ----- PlotPointJson -----

  const PlotPointOwnKeys: set<Key> := {KSection}
  const PlotPointOwnList: seq<Key> := [KSection]
  const PlotPointKeySet: set<Key> := NotesKeySet + PlotPointOwnKeys

  /** PlotPointJson.import_data: the fields with notes, then the section association from Section. */
  function DecodePlotPoint(d: map<Name, Json>, r: PlotPointRec): Result<PlotPointRec>
  {
    var withNotes :- DecodeNotes(d, r.withNotes);
    PlotPointFieldsOf(d, r.(withNotes := withNotes))
  }

  function PlotPointFieldsOf(d: map<Name, Json>, r: PlotPointRec): Result<PlotPointRec>
  {
    var sectionAssoc :- TextOf(Get(d, KSection, JNull));
    Ok(r.(sectionAssoc := sectionAssoc))
  }

  /** Section, when an association is set. */
  function PlotPointOwnEntry(r: PlotPointRec, k: Key): Option<Json>
  {
    if k == KSection then TextEntry(r.sectionAssoc) else None
  }

  function PlotPointOwnFn(r: PlotPointRec): Key -> Option<Json>
  {
    k => PlotPointOwnEntry(r, k)
  }

  function PlotPointOwn(r: PlotPointRec): (m: map<Name, Json>)
    ensures forall n :: n in m ==> n.F? && n.key in PlotPointOwnKeys
  {
    Entries(PlotPointOwnKeys, PlotPointOwnFn(r))
  }

  /** The entries with notes, then Section. */
  function PlotPointMap(r: PlotPointRec): map<Name, Json>
  {
    NotesMap(r.withNotes) + PlotPointOwn(r)
  }

  function PlotPointKeys(r: PlotPointRec): seq<Name>
  {
    NotesKeys(r.withNotes) + WrittenKeys(PlotPointOwnList, PlotPointOwnFn(r))
  }

  function EncodePlotPoint(r: PlotPointRec): JDict
  {
    OMap(PlotPointKeys(r), PlotPointMap(r))
  }

  function NormPlotPoint(r: PlotPointRec): PlotPointRec
  {
    PlotPointRec(NormNotes(r.withNotes), NormText(r.sectionAssoc))
  }

  /** The keys this class adds are new. */
  lemma PlotPointKeysDisjoint()
    ensures NotesKeySet !! PlotPointOwnKeys
  {
  }

  /** The export writes only keys of PlotPointKeySet. */
  lemma PlotPointMapKeys(r: PlotPointRec)
    ensures forall n :: n in PlotPointMap(r) ==> n.F? && n.key in PlotPointKeySet
  {
    NotesMapKeys(r.withNotes);
  }

  /** The fields this class adds are read from PlotPointOwnKeys only. */
  lemma PlotPointFieldsFrame(d: map<Name, Json>, e: map<Name, Json>, r: PlotPointRec)
    requires Agree(d, e, PlotPointOwnKeys)
    ensures PlotPointFieldsOf(d, r) == PlotPointFieldsOf(e, r)
  {
    AgreeGet(d, e, PlotPointOwnKeys, KSection, JNull);
  }

  /** The import reads only keys of PlotPointKeySet. */
  lemma PlotPointFrame(d: map<Name, Json>, e: map<Name, Json>, r: PlotPointRec)
    requires Agree(d, e, PlotPointKeySet)
    ensures DecodePlotPoint(d, r) == DecodePlotPoint(e, r)
  {
    NotesFrame(d, e, r.withNotes);
    AgreeSubset(d, e, PlotPointKeySet, PlotPointOwnKeys);
    if DecodeNotes(d, r.withNotes).Ok? {
      PlotPointFieldsFrame(d, e, r.(withNotes := DecodeNotes(d, r.withNotes).value));
    }
  }

  /** The fields this class adds come back as NormPlotPoint has them. */
  lemma PlotPointFieldsRoundTrip(r: PlotPointRec)
    ensures PlotPointFieldsOf(PlotPointOwn(r), r.(withNotes := NormNotes(r.withNotes))) == Ok(NormPlotPoint(r))
  {
    PlotPointSectionBack(r);

  }

  /** Any object that agrees with the export on the keys this class reads imports as NormPlotPoint. */
  lemma PlotPointDecodeOf(d: map<Name, Json>, r: PlotPointRec)
    requires Agree(d, NotesMap(r.withNotes), NotesKeySet)
    requires Agree(d, PlotPointOwn(r), PlotPointOwnKeys)
    ensures DecodePlotPoint(d, r) == Ok(NormPlotPoint(r))
  {
    NotesFrame(d, NotesMap(r.withNotes), r.withNotes);
    NotesRoundTrip(r.withNotes);
    PlotPointFieldsFrame(d, PlotPointOwn(r), r.(withNotes := NormNotes(r.withNotes)));
    PlotPointFieldsRoundTrip(r);
  }

  /** Exporting a plot point and importing it again gives NormPlotPoint. */
  lemma PlotPointRoundTrip(r: PlotPointRec)
    ensures DecodePlotPoint(EncodePlotPoint(r).m, r) == Ok(NormPlotPoint(r))
  {
    NotesMapKeys(r.withNotes);
    PlotPointKeysDisjoint();
    UnionAgree(NotesMap(r.withNotes), PlotPointOwn(r), NotesKeySet, PlotPointOwnKeys);
    PlotPointDecodeOf(PlotPointMap(r), r);

  }

  /** The section association reads back as NormText has it. */
  lemma PlotPointSectionBack(r: PlotPointRec)
    ensures TextOf(Get(PlotPointOwn(r), KSection, JNull)) == Ok(NormText(r.sectionAssoc))
  {
    EntriesGet(PlotPointOwnKeys, PlotPointOwnFn(r), KSection, JNull);
  }


  // ----- SectionJson -----

  const SectionOwnKeys: set<Key> := {KType, KStatus, KScene, KAppend, KContent, KGoal, KConflict, KOutcome, KDate, KDay, KTime, KLastsDays, KLastsHours, KLastsMinutes, KCharacters, KLocations, KItems}
  const SectionOwnList: seq<Key> := [KType, KStatus, KScene, KAppend, KContent, KGoal, KConflict, KOutcome, KDate, KDay, KTime, KLastsDays, KLastsHours, KLastsMinutes, KCharacters, KLocations, KItems]
  const SectionKeySet: set<Key> := TagsKeySet + SectionOwnKeys

  /** SectionJson.import_data: the tag-level fields, then the section's attributes, texts, date, day, time, durations and references. */
  function DecodeSection(d: map<Name, Json>, r: SectionRec): Result<SectionRec>
  {
    var withTags :- DecodeTags(d, r.withTags);
    SectionFieldsOf(d, r.(withTags := withTags))
  }

  /**
   * type, status and scene are kept when in range (0-3, 1-5, 0-3) and replaced
   * by 1, 1 and 0 otherwise; a missing one reads as 0, 1 and 0. The date goes
   * through verified_date and the date setter, the day is read only when no
   * date is left, and time and durations go through verified_time and
   * verified_int_string; missing reference lists read as [].
   */
  function SectionFieldsOf(d: map<Name, Json>, r: SectionRec): Result<SectionRec>
  {
    var scType :- ChoiceOf(Get(d, KType, JNum(0)), 0, 3, 1);
    var status :- ChoiceOf(Get(d, KStatus, JNum(1)), 1, 5, 1);
    var scene :- ChoiceOf(Get(d, KScene, JNum(0)), 0, 3, 0);
    var appendToPrev :- FlagOf(Get(d, KAppend, JBool(false)));
    var sectionContent :- TextOf(Get(d, KContent, JNull));
    var goal :- TextOf(Get(d, KGoal, JNull));
    var conflict :- TextOf(Get(d, KConflict, JNull));
    var outcome :- TextOf(Get(d, KOutcome, JNull));
    var dates := YamlCodecs.DateAfter(r, VerifiedDate(StrOf(Get(d, KDate, JNull))));
    var day := if Truthy(dates.0) then r.day else VerifiedIntString(StrOf(Get(d, KDay, JNull)));
    var time := VerifiedTime(StrOf(Get(d, KTime, JNull)));
    var lastsDays := VerifiedIntString(StrOf(Get(d, KLastsDays, JNull)));
    var lastsHours := VerifiedIntString(StrOf(Get(d, KLastsHours, JNull)));
    var lastsMinutes := VerifiedIntString(StrOf(Get(d, KLastsMinutes, JNull)));
    var characters :- StrListOf(Get(d, KCharacters, JList([])));
    var locations :- StrListOf(Get(d, KLocations, JList([])));
    var items :- StrListOf(Get(d, KItems, JList([])));
    Ok(r.(scType := Some(scType), status := Some(status), scene := Some(scene), appendToPrev := appendToPrev,
          sectionContent := sectionContent, goal := goal, conflict := conflict, outcome := outcome,
          date := dates.0, weekDay := dates.1, localeDate := dates.2, day := day, time := time,
          lastsDays := lastsDays, lastsHours := lastsHours, lastsMinutes := lastsMinutes,
          characters := characters, locations := locations, items := items))
  }

  /**
   * type when truthy, status above 1, scene above 0, append when set; the
   * texts, the date (or else the day) and the time when truthy; durations
   * when truthy and not '0'; reference lists when not empty.
   */
  function SectionOwnEntry(r: SectionRec, k: Key): Option<Json>
  {
    match k
    case KType => NumberEntry(NumTruthy(r.scType), r.scType.GetOr(0))
    case KStatus => NumberEntry(r.status.GetOr(1) > 1, r.status.GetOr(1))
    case KScene => NumberEntry(r.scene.GetOr(0) > 0, r.scene.GetOr(0))
    case KAppend => FlagEntry(r.appendToPrev)
    case KContent => TextEntry(r.sectionContent)
    case KGoal => TextEntry(r.goal)
    case KConflict => TextEntry(r.conflict)
    case KOutcome => TextEntry(r.outcome)
    case KDate => TextEntry(r.date)
    case KDay => When(!Truthy(r.date) && Truthy(r.day), TextJson(r.day))
    case KTime => TextEntry(r.time)
    case KLastsDays => DurationEntry(r.lastsDays)
    case KLastsHours => DurationEntry(r.lastsHours)
    case KLastsMinutes => DurationEntry(r.lastsMinutes)
    case KCharacters => ListEntry(r.characters)
    case KLocations => ListEntry(r.locations)
    case KItems => ListEntry(r.items)
    case _ => None
  }

  function SectionOwnFn(r: SectionRec): Key -> Option<Json>
  {
    k => SectionOwnEntry(r, k)
  }

  function SectionOwn(r: SectionRec): (m: map<Name, Json>)
    ensures forall n :: n in m ==> n.F? && n.key in SectionOwnKeys
  {
    Entries(SectionOwnKeys, SectionOwnFn(r))
  }

  /** The tag-level entries, then the section's own. */
  function SectionMap(r: SectionRec): map<Name, Json>
  {
    TagsMap(r.withTags) + SectionOwn(r)
  }

  function SectionKeys(r: SectionRec): seq<Name>
  {
    TagsKeys(r.withTags) + WrittenKeys(SectionOwnList, SectionOwnFn(r))
  }

  function EncodeSection(r: SectionRec): JDict
    requires r.status.Some? && r.scene.Some?
  {
    OMap(SectionKeys(r), SectionMap(r))
  }

  /**
   * A section after the round trip: attributes out of range come back as
   * their defaults, the date fields as the date setter leaves them for the
   * verified date, the day only when no date is left, time and durations as
   * verified_time and verified_int_string leave them, and the plot line notes,
   * which this codec does not carry, unchanged.
   */
  function NormSection(r: SectionRec): SectionRec
    requires r.status.Some? && r.scene.Some?
  {
    var dates := YamlCodecs.DateAfter(r, VerifiedDate(NormText(r.date)));
    r.(withTags := NormTags(r.withTags),
       scType := Some(if NumTruthy(r.scType) then (if 0 <= r.scType.value <= 3 then r.scType.value else 1) else 0),
       status := Some(if 2 <= r.status.value <= 5 then r.status.value else 1),
       scene := Some(if 1 <= r.scene.value <= 3 then r.scene.value else 0),
       appendToPrev := NormFlag(r.appendToPrev),
       sectionContent := NormText(r.sectionContent), goal := NormText(r.goal),
       conflict := NormText(r.conflict), outcome := NormText(r.outcome),
       date := dates.0, weekDay := dates.1, localeDate := dates.2,
       day := if Truthy(dates.0) then r.day else VerifiedIntString(if Truthy(r.date) then None else NormText(r.day)),
       time := VerifiedTime(NormText(r.time)),
       lastsDays := VerifiedIntString(NormDuration(r.lastsDays)),
       lastsHours := VerifiedIntString(NormDuration(r.lastsHours)),
       lastsMinutes := VerifiedIntString(NormDuration(r.lastsMinutes)),
       characters := NormList(r.characters), locations := NormList(r.locations), items := NormList(r.items))
  }

  /** The keys this class adds are new. */
  lemma SectionKeysDisjoint()
    ensures TagsKeySet !! SectionOwnKeys
  {
  }

  /** The export writes only keys of SectionKeySet. */
  lemma SectionMapKeys(r: SectionRec)
    ensures forall n :: n in SectionMap(r) ==> n.F? && n.key in SectionKeySet
  {
    TagsMapKeys(r.withTags);
  }

  /** The fields this class adds are read from SectionOwnKeys only. */
  lemma SectionFieldsFrame(d: map<Name, Json>, e: map<Name, Json>, r: SectionRec)
    requires Agree(d, e, SectionOwnKeys)
    ensures SectionFieldsOf(d, r) == SectionFieldsOf(e, r)
  {
    AgreeGet(d, e, SectionOwnKeys, KType, JNum(0));
    AgreeGet(d, e, SectionOwnKeys, KStatus, JNum(1));
    AgreeGet(d, e, SectionOwnKeys, KScene, JNum(0));
    AgreeGet(d, e, SectionOwnKeys, KAppend, JBool(false));
    AgreeGet(d, e, SectionOwnKeys, KContent, JNull);
    AgreeGet(d, e, SectionOwnKeys, KGoal, JNull);
    AgreeGet(d, e, SectionOwnKeys, KConflict, JNull);
    AgreeGet(d, e, SectionOwnKeys, KOutcome, JNull);
    AgreeGet(d, e, SectionOwnKeys, KDate, JNull);
    AgreeGet(d, e, SectionOwnKeys, KDay, JNull);
    AgreeGet(d, e, SectionOwnKeys, KTime, JNull);
    AgreeGet(d, e, SectionOwnKeys, KLastsDays, JNull);
    AgreeGet(d, e, SectionOwnKeys, KLastsHours, JNull);
    AgreeGet(d, e, SectionOwnKeys, KLastsMinutes, JNull);
    AgreeGet(d, e, SectionOwnKeys, KCharacters, JList([]));
    AgreeGet(d, e, SectionOwnKeys, KLocations, JList([]));
    AgreeGet(d, e, SectionOwnKeys, KItems, JList([]));
  }

  /** The import reads only keys of SectionKeySet. */
  lemma SectionFrame(d: map<Name, Json>, e: map<Name, Json>, r: SectionRec)
    requires Agree(d, e, SectionKeySet)
    ensures DecodeSection(d, r) == DecodeSection(e, r)
  {
    TagsFrame(d, e, r.withTags);
    AgreeSubset(d, e, SectionKeySet, SectionOwnKeys);
    if DecodeTags(d, r.withTags).Ok? {
      SectionFieldsFrame(d, e, r.(withTags := DecodeTags(d, r.withTags).value));
    }
  }

  /** The fields this class adds come back as NormSection has them. */
  lemma SectionFieldsRoundTrip(r: SectionRec)
    requires r.status.Some? && r.scene.Some?
    ensures SectionFieldsOf(SectionOwn(r), r.(withTags := NormTags(r.withTags))) == Ok(NormSection(r))
  {
    SectionOwnBack(r);
    var d := SectionOwn(r);
    var r1 := r.(withTags := NormTags(r.withTags));
    DateAfterTags(r, NormTags(r.withTags), VerifiedDate(NormText(r.date)));
    SectionFieldsRead(d, r1);
  }

  /** Every field this class adds reads back from the export as NormSection has it. */
  lemma SectionOwnBack(r: SectionRec)
    requires r.status.Some? && r.scene.Some?
    ensures ChoiceOf(Get(SectionOwn(r), KType, JNum(0)), 0, 3, 1) == Ok(if NumTruthy(r.scType) then (if 0 <= r.scType.value <= 3 then r.scType.value else 1) else 0)
    ensures ChoiceOf(Get(SectionOwn(r), KStatus, JNum(1)), 1, 5, 1) == Ok(if 2 <= r.status.value <= 5 then r.status.value else 1)
    ensures ChoiceOf(Get(SectionOwn(r), KScene, JNum(0)), 0, 3, 0) == Ok(if 1 <= r.scene.value <= 3 then r.scene.value else 0)
    ensures FlagOf(Get(SectionOwn(r), KAppend, JBool(false))) == Ok(NormFlag(r.appendToPrev))
    ensures TextOf(Get(SectionOwn(r), KContent, JNull)) == Ok(NormText(r.sectionContent))
    ensures TextOf(Get(SectionOwn(r), KGoal, JNull)) == Ok(NormText(r.goal))
    ensures TextOf(Get(SectionOwn(r), KConflict, JNull)) == Ok(NormText(r.conflict))
    ensures TextOf(Get(SectionOwn(r), KOutcome, JNull)) == Ok(NormText(r.outcome))
    ensures StrOf(Get(SectionOwn(r), KDate, JNull)) == NormText(r.date)
    ensures StrOf(Get(SectionOwn(r), KDay, JNull)) == (if Truthy(r.date) then None else NormText(r.day))
    ensures StrOf(Get(SectionOwn(r), KTime, JNull)) == NormText(r.time)
    ensures StrOf(Get(SectionOwn(r), KLastsDays, JNull)) == NormDuration(r.lastsDays)
    ensures StrOf(Get(SectionOwn(r), KLastsHours, JNull)) == NormDuration(r.lastsHours)
    ensures StrOf(Get(SectionOwn(r), KLastsMinutes, JNull)) == NormDuration(r.lastsMinutes)
    ensures StrListOf(Get(SectionOwn(r), KCharacters, JList([]))) == Ok(NormList(r.characters))
    ensures StrListOf(Get(SectionOwn(r), KLocations, JList([]))) == Ok(NormList(r.locations))
    ensures StrListOf(Get(SectionOwn(r), KItems, JList([]))) == Ok(NormList(r.items))
  {
    SectionTypeBack(r);
    SectionStatusBack(r);
    SectionSceneBack(r);
    SectionAppendBack(r);
    SectionContentBack(r);
    SectionGoalBack(r);
    SectionConflictBack(r);
    SectionOutcomeBack(r);
    SectionDateBack(r);
    SectionDayBack(r);
    SectionTimeBack(r);
    SectionLastsDaysBack(r);
    SectionLastsHoursBack(r);
    SectionLastsMinutesBack(r);
    SectionCharactersBack(r);
    SectionLocationsBack(r);
    SectionItemsBack(r);
  }

  /** The date read does not look at the tags. */
  lemma DateAfterTags(r: SectionRec, t: TagsRec, v: Option<string>)
    ensures YamlCodecs.DateAfter(r.(withTags := t), v) == YamlCodecs.DateAfter(r, v)
  {
  }

  /** When every field reads, the section's fields are what was read. */
  lemma SectionFieldsRead(d: map<Name, Json>, r: SectionRec)
    requires ChoiceOf(Get(d, KType, JNum(0)), 0, 3, 1).Ok? && ChoiceOf(Get(d, KStatus, JNum(1)), 1, 5, 1).Ok?
    requires ChoiceOf(Get(d, KScene, JNum(0)), 0, 3, 0).Ok? && FlagOf(Get(d, KAppend, JBool(false))).Ok?
    requires TextOf(Get(d, KContent, JNull)).Ok? && TextOf(Get(d, KGoal, JNull)).Ok?
    requires TextOf(Get(d, KConflict, JNull)).Ok? && TextOf(Get(d, KOutcome, JNull)).Ok?
    requires StrListOf(Get(d, KCharacters, JList([]))).Ok? && StrListOf(Get(d, KLocations, JList([]))).Ok?
    requires StrListOf(Get(d, KItems, JList([]))).Ok?
    ensures var dates := YamlCodecs.DateAfter(r, VerifiedDate(StrOf(Get(d, KDate, JNull))));
      SectionFieldsOf(d, r) == Ok(r.(
        scType := Some(ChoiceOf(Get(d, KType, JNum(0)), 0, 3, 1).value),
        status := Some(ChoiceOf(Get(d, KStatus, JNum(1)), 1, 5, 1).value),
        scene := Some(ChoiceOf(Get(d, KScene, JNum(0)), 0, 3, 0).value),
        appendToPrev := FlagOf(Get(d, KAppend, JBool(false))).value,
        sectionContent := TextOf(Get(d, KContent, JNull)).value, goal := TextOf(Get(d, KGoal, JNull)).value,
        conflict := TextOf(Get(d, KConflict, JNull)).value, outcome := TextOf(Get(d, KOutcome, JNull)).value,
        date := dates.0, weekDay := dates.1, localeDate := dates.2,
        day := if Truthy(dates.0) then r.day else VerifiedIntString(StrOf(Get(d, KDay, JNull))),
        time := VerifiedTime(StrOf(Get(d, KTime, JNull))),
        lastsDays := VerifiedIntString(StrOf(Get(d, KLastsDays, JNull))),
        lastsHours := VerifiedIntString(StrOf(Get(d, KLastsHours, JNull))),
        lastsMinutes := VerifiedIntString(StrOf(Get(d, KLastsMinutes, JNull))),
        characters := StrListOf(Get(d, KCharacters, JList([]))).value,
        locations := StrListOf(Get(d, KLocations, JList([]))).value,
        items := StrListOf(Get(d, KItems, JList([]))).value))
  {
  }

  /** Any object that agrees with the export on the keys this class reads imports as NormSection. */
  lemma SectionDecodeOf(d: map<Name, Json>, r: SectionRec)
    requires r.status.Some? && r.scene.Some?
    requires Agree(d, TagsMap(r.withTags), TagsKeySet)
    requires Agree(d, SectionOwn(r), SectionOwnKeys)
    ensures DecodeSection(d, r) == Ok(NormSection(r))
  {
    TagsFrame(d, TagsMap(r.withTags), r.withTags);
    TagsRoundTrip(r.withTags);
    SectionFieldsFrame(d, SectionOwn(r), r.(withTags := NormTags(r.withTags)));
    SectionFieldsRoundTrip(r);
  }

  /** Exporting a section and importing it again gives NormSection. */
  lemma SectionRoundTrip(r: SectionRec)
    requires r.status.Some? && r.scene.Some?
    ensures DecodeSection(EncodeSection(r).m, r) == Ok(NormSection(r))
  {
    TagsMapKeys(r.withTags);
    SectionKeysDisjoint();
    UnionAgree(TagsMap(r.withTags), SectionOwn(r), TagsKeySet, SectionOwnKeys);
    SectionDecodeOf(SectionMap(r), r);

  }

  /** A truthy type reads back when in 0..3 and as 1 otherwise; a falsy one as 0. */
  lemma SectionTypeBack(r: SectionRec)
    ensures ChoiceOf(Get(SectionOwn(r), KType, JNum(0)), 0, 3, 1) == Ok(if NumTruthy(r.scType) then (if 0 <= r.scType.value <= 3 then r.scType.value else 1) else 0)
  {
    EntriesGet(SectionOwnKeys, SectionOwnFn(r), KType, JNum(0));
  }

  /** A status in 2..5 reads back, anything else as 1. */
  lemma SectionStatusBack(r: SectionRec)
    requires r.status.Some? && r.scene.Some?
    ensures ChoiceOf(Get(SectionOwn(r), KStatus, JNum(1)), 1, 5, 1) == Ok(if 2 <= r.status.value <= 5 then r.status.value else 1)
  {
    EntriesGet(SectionOwnKeys, SectionOwnFn(r), KStatus, JNum(1));
  }

  /** A scene kind in 1..3 reads back, anything else as 0. */
  lemma SectionSceneBack(r: SectionRec)
    requires r.status.Some? && r.scene.Some?
    ensures ChoiceOf(Get(SectionOwn(r), KScene, JNum(0)), 0, 3, 0) == Ok(if 1 <= r.scene.value <= 3 then r.scene.value else 0)
  {
    EntriesGet(SectionOwnKeys, SectionOwnFn(r), KScene, JNum(0));
  }

  /** append reads back as NormFlag has it. */
  lemma SectionAppendBack(r: SectionRec)
    ensures FlagOf(Get(SectionOwn(r), KAppend, JBool(false))) == Ok(NormFlag(r.appendToPrev))
  {
    EntriesGet(SectionOwnKeys, SectionOwnFn(r), KAppend, JBool(false));
  }

  /** The content reads back as NormText has it. */
  lemma SectionContentBack(r: SectionRec)
    ensures TextOf(Get(SectionOwn(r), KContent, JNull)) == Ok(NormText(r.sectionContent))
  {
    EntriesGet(SectionOwnKeys, SectionOwnFn(r), KContent, JNull);
  }

  /** Goal reads back as NormText has it. */
  lemma SectionGoalBack(r: SectionRec)
    ensures TextOf(Get(SectionOwn(r), KGoal, JNull)) == Ok(NormText(r.goal))
  {
    EntriesGet(SectionOwnKeys, SectionOwnFn(r), KGoal, JNull);
  }

  /** Conflict reads back as NormText has it. */
  lemma SectionConflictBack(r: SectionRec)
    ensures TextOf(Get(SectionOwn(r), KConflict, JNull)) == Ok(NormText(r.conflict))
  {
    EntriesGet(SectionOwnKeys, SectionOwnFn(r), KConflict, JNull);
  }

  /** Outcome reads back as NormText has it. */
  lemma SectionOutcomeBack(r: SectionRec)
    ensures TextOf(Get(SectionOwn(r), KOutcome, JNull)) == Ok(NormText(r.outcome))
  {
    EntriesGet(SectionOwnKeys, SectionOwnFn(r), KOutcome, JNull);
  }

  /** The date is read back as the text NormText has. */
  lemma SectionDateBack(r: SectionRec)
    ensures StrOf(Get(SectionOwn(r), KDate, JNull)) == NormText(r.date)
  {
    EntriesGet(SectionOwnKeys, SectionOwnFn(r), KDate, JNull);
  }

  /** The day is read back only when no date was written. */
  lemma SectionDayBack(r: SectionRec)
    ensures StrOf(Get(SectionOwn(r), KDay, JNull)) == (if Truthy(r.date) then None else NormText(r.day))
  {
    EntriesGet(SectionOwnKeys, SectionOwnFn(r), KDay, JNull);
  }

  /** The time is read back as the text NormText has. */
  lemma SectionTimeBack(r: SectionRec)
    ensures StrOf(Get(SectionOwn(r), KTime, JNull)) == NormText(r.time)
  {
    EntriesGet(SectionOwnKeys, SectionOwnFn(r), KTime, JNull);
  }

  /** The days of the duration are read back as NormDuration has them. */
  lemma SectionLastsDaysBack(r: SectionRec)
    ensures StrOf(Get(SectionOwn(r), KLastsDays, JNull)) == NormDuration(r.lastsDays)
  {
    EntriesGet(SectionOwnKeys, SectionOwnFn(r), KLastsDays, JNull);
  }

  /** The hours of the duration are read back as NormDuration has them. */
  lemma SectionLastsHoursBack(r: SectionRec)
    ensures StrOf(Get(SectionOwn(r), KLastsHours, JNull)) == NormDuration(r.lastsHours)
  {
    EntriesGet(SectionOwnKeys, SectionOwnFn(r), KLastsHours, JNull);
  }

  /** The minutes of the duration are read back as NormDuration has them. */
  lemma SectionLastsMinutesBack(r: SectionRec)
    ensures StrOf(Get(SectionOwn(r), KLastsMinutes, JNull)) == NormDuration(r.lastsMinutes)
  {
    EntriesGet(SectionOwnKeys, SectionOwnFn(r), KLastsMinutes, JNull);
  }

  /** The character references read back as NormList has them. */
  lemma SectionCharactersBack(r: SectionRec)
    ensures StrListOf(Get(SectionOwn(r), KCharacters, JList([]))) == Ok(NormList(r.characters))
  {
    EntriesGet(SectionOwnKeys, SectionOwnFn(r), KCharacters, JList([]));
  }

  /** The location references read back as NormList has them. */
  lemma SectionLocationsBack(r: SectionRec)
    ensures StrListOf(Get(SectionOwn(r), KLocations, JList([]))) == Ok(NormList(r.locations))
  {
    EntriesGet(SectionOwnKeys, SectionOwnFn(r), KLocations, JList([]));
  }

  /** The item references read back as NormList has them. */
  lemma SectionItemsBack(r: SectionRec)
    ensures StrListOf(Get(SectionOwn(r), KItems, JList([]))) == Ok(NormList(r.items))
  {
    EntriesGet(SectionOwnKeys, SectionOwnFn(r), KItems, JList([]));
  }


  // ----- NovelJson -----

  const NovelOwnKeys: set<Key> := {KRenumberChapters, KRenumberParts, KRenumberWithinParts, KRomanChapterNumbers, KRomanPartNumbers, KSaveWordCount, KWorkPhase, KAuthor, KChapterHeadingPrefix, KChapterHeadingSuffix, KPartHeadingPrefix, KPartHeadingSuffix, KCustomPlotProgress, KCustomCharacterization, KCustomWorldBuilding, KCustomGoal, KCustomConflict, KCustomOutcome, KCustomChrBio, KCustomChrGoals, KWordCountStart, KWordTarget, KReferenceDate}
  const NovelOwnList: seq<Key> := [KRenumberChapters, KRenumberParts, KRenumberWithinParts, KRomanChapterNumbers, KRomanPartNumbers, KSaveWordCount, KWorkPhase, KAuthor, KChapterHeadingPrefix, KChapterHeadingSuffix, KPartHeadingPrefix, KPartHeadingSuffix, KCustomPlotProgress, KCustomCharacterization, KCustomWorldBuilding, KCustomGoal, KCustomConflict, KCustomOutcome, KCustomChrBio, KCustomChrGoals, KWordCountStart, KWordTarget, KReferenceDate]
  const NovelKeySet: set<Key> := BasicKeySet + NovelOwnKeys

  /** NovelJson.import_data: the base fields, then the project's flags, work phase, texts, counts and reference date. */
  function DecodeNovel(d: map<Name, Json>, r: NovelRec): Result<NovelRec>
  {
    var basic :- DecodeBasic(d, r.basic);
    NovelFieldsOf(d, r.(basic := basic))
  }

  /**
   * The flags default to False, workPhase is read by WorkPhaseOf, Author, the
   * heading affixes, the custom labels and the counts default to None, and
   * the reference date goes through verified_date and the referenceDate
   * setter. The language and country codes are not part of this format.
   */
  function NovelFieldsOf(d: map<Name, Json>, r: NovelRec): Result<NovelRec>
  {
    var renumberChapters :- FlagOf(Get(d, KRenumberChapters, JBool(false)));
    var renumberParts :- FlagOf(Get(d, KRenumberParts, JBool(false)));
    var renumberWithinParts :- FlagOf(Get(d, KRenumberWithinParts, JBool(false)));
    var romanChapterNumbers :- FlagOf(Get(d, KRomanChapterNumbers, JBool(false)));
    var romanPartNumbers :- FlagOf(Get(d, KRomanPartNumbers, JBool(false)));
    var saveWordCount :- FlagOf(Get(d, KSaveWordCount, JBool(false)));
    var workPhase :- WorkPhaseOf(Get(d, KWorkPhase, JNull));
    var authorName :- TextOf(Get(d, KAuthor, JNull));
    var chapterHeadingPrefix :- TextOf(Get(d, KChapterHeadingPrefix, JNull));
    var chapterHeadingSuffix :- TextOf(Get(d, KChapterHeadingSuffix, JNull));
    var partHeadingPrefix :- TextOf(Get(d, KPartHeadingPrefix, JNull));
    var partHeadingSuffix :- TextOf(Get(d, KPartHeadingSuffix, JNull));
    var customPlotProgress :- TextOf(Get(d, KCustomPlotProgress, JNull));
    var customCharacterization :- TextOf(Get(d, KCustomCharacterization, JNull));
    var customWorldBuilding :- TextOf(Get(d, KCustomWorldBuilding, JNull));
    var customGoal :- TextOf(Get(d, KCustomGoal, JNull));
    var customConflict :- TextOf(Get(d, KCustomConflict, JNull));
    var customOutcome :- TextOf(Get(d, KCustomOutcome, JNull));
    var customChrBio :- TextOf(Get(d, KCustomChrBio, JNull));
    var customChrGoals :- TextOf(Get(d, KCustomChrGoals, JNull));
    var wordCountStart :- IntOf(Get(d, KWordCountStart, JNull));
    var wordTarget :- IntOf(Get(d, KWordTarget, JNull));
    var ref := ReferenceDateAfter(r.referenceDate, r.referenceWeekDay, VerifiedDate(StrOf(Get(d, KReferenceDate, JNull))));
    Ok(r.(renumberChapters := renumberChapters, renumberParts := renumberParts,
          renumberWithinParts := renumberWithinParts, romanChapterNumbers := romanChapterNumbers,
          romanPartNumbers := romanPartNumbers, saveWordCount := saveWordCount,
          workPhase := workPhase, authorName := authorName,
          chapterHeadingPrefix := chapterHeadingPrefix, chapterHeadingSuffix := chapterHeadingSuffix,
          partHeadingPrefix := partHeadingPrefix, partHeadingSuffix := partHeadingSuffix,
          customPlotProgress := customPlotProgress, customCharacterization := customCharacterization,
          customWorldBuilding := customWorldBuilding, customGoal := customGoal,
          customConflict := customConflict, customOutcome := customOutcome,
          customChrBio := customChrBio, customChrGoals := customChrGoals,
          wordCountStart := wordCountStart, wordTarget := wordTarget, referenceDate := ref.0,
          referenceWeekDay := ref.1))
  }

  /**
   * workPhase as import_data reads it: a number in 1..5 is kept, any other
   * number or a missing value gives None; True equals 1 in Python, so it
   * passes the range test and then fails the setter's int assertion; False
   * and any other value give None.
   */
  function WorkPhaseOf(v: Json): (r: Result<Option<int>>)
    ensures v.JNum? ==> r == Ok(if 1 <= v.n <= 5 then Some(v.n) else None)
    ensures r.Err? <==> v == JBool(true)
  {
    match v
    case JNum(n) => Ok(if 1 <= n <= 5 then Some(n) else None)
    case JBool(b) => if b then Err("") else Ok(None)
    case _ => Ok(None)
  }

  /** The flags when set, workPhase whenever it is not None, the texts and counts when truthy. */
  function NovelOwnEntry(r: NovelRec, k: Key): Option<Json>
  {
    match k
    case KRenumberChapters => FlagEntry(r.renumberChapters)
    case KRenumberParts => FlagEntry(r.renumberParts)
    case KRenumberWithinParts => FlagEntry(r.renumberWithinParts)
    case KRomanChapterNumbers => FlagEntry(r.romanChapterNumbers)
    case KRomanPartNumbers => FlagEntry(r.romanPartNumbers)
    case KSaveWordCount => FlagEntry(r.saveWordCount)
    case KWorkPhase => NumberEntry(r.workPhase.Some?, r.workPhase.GetOr(0))
    case KAuthor => TextEntry(r.authorName)
    case KChapterHeadingPrefix => TextEntry(r.chapterHeadingPrefix)
    case KChapterHeadingSuffix => TextEntry(r.chapterHeadingSuffix)
    case KPartHeadingPrefix => TextEntry(r.partHeadingPrefix)
    case KPartHeadingSuffix => TextEntry(r.partHeadingSuffix)
    case KCustomPlotProgress => TextEntry(r.customPlotProgress)
    case KCustomCharacterization => TextEntry(r.customCharacterization)
    case KCustomWorldBuilding => TextEntry(r.customWorldBuilding)
    case KCustomGoal => TextEntry(r.customGoal)
    case KCustomConflict => TextEntry(r.customConflict)
    case KCustomOutcome => TextEntry(r.customOutcome)
    case KCustomChrBio => TextEntry(r.customChrBio)
    case KCustomChrGoals => TextEntry(r.customChrGoals)
    case KWordCountStart => NumberEntry(NumTruthy(r.wordCountStart), r.wordCountStart.GetOr(0))
    case KWordTarget => NumberEntry(NumTruthy(r.wordTarget), r.wordTarget.GetOr(0))
    case KReferenceDate => TextEntry(r.referenceDate)
    case _ => None
  }

  function NovelOwnFn(r: NovelRec): Key -> Option<Json>
  {
    k => NovelOwnEntry(r, k)
  }

  function NovelOwn(r: NovelRec): (m: map<Name, Json>)
    ensures forall n :: n in m ==> n.F? && n.key in NovelOwnKeys
  {
    Entries(NovelOwnKeys, NovelOwnFn(r))
  }

  /** The base entries, then the project's own. */
  function NovelMap(r: NovelRec): map<Name, Json>
  {
    BasicMap(r.basic) + NovelOwn(r)
  }

  function NovelKeys(r: NovelRec): seq<Name>
  {
    BasicKeys(r.basic) + WrittenKeys(NovelOwnList, NovelOwnFn(r))
  }

  function EncodeNovel(r: NovelRec): JDict
  {
    OMap(NovelKeys(r), NovelMap(r))
  }

  /** A work phase after the round trip: one outside 1..5 is written but reads back as None. */
  function NormWorkPhase(w: Option<int>): (r: Option<int>)
    ensures r.Some? <==> w.Some? && 1 <= w.value <= 5
    ensures r.Some? ==> r == w
  {
    if w.Some? && 1 <= w.value <= 5 then w else None
  }

  /**
   * The project after the round trip: flags, texts and counts as the export
   * leaves them, the reference date as the setter leaves it for the verified
   * date, and the language and country codes unchanged.
   */
  function NormNovel(r: NovelRec): NovelRec
  {
    var ref := ReferenceDateAfter(r.referenceDate, r.referenceWeekDay, VerifiedDate(NormText(r.referenceDate)));
    r.(basic := NormBasic(r.basic),
       renumberChapters := NormFlag(r.renumberChapters),
       renumberParts := NormFlag(r.renumberParts),
       renumberWithinParts := NormFlag(r.renumberWithinParts),
       romanChapterNumbers := NormFlag(r.romanChapterNumbers),
       romanPartNumbers := NormFlag(r.romanPartNumbers),
       saveWordCount := NormFlag(r.saveWordCount), workPhase := NormWorkPhase(r.workPhase),
       authorName := NormText(r.authorName),
       chapterHeadingPrefix := NormText(r.chapterHeadingPrefix),
       chapterHeadingSuffix := NormText(r.chapterHeadingSuffix),
       partHeadingPrefix := NormText(r.partHeadingPrefix),
       partHeadingSuffix := NormText(r.partHeadingSuffix),
       customPlotProgress := NormText(r.customPlotProgress),
       customCharacterization := NormText(r.customCharacterization),
       customWorldBuilding := NormText(r.customWorldBuilding),
       customGoal := NormText(r.customGoal), customConflict := NormText(r.customConflict),
       customOutcome := NormText(r.customOutcome), customChrBio := NormText(r.customChrBio),
       customChrGoals := NormText(r.customChrGoals),
       wordCountStart := NormCount(r.wordCountStart), wordTarget := NormCount(r.wordTarget),
       referenceDate := ref.0, referenceWeekDay := ref.1)
  }

  /** The keys this class adds are new. */
  lemma NovelKeysDisjoint()
    ensures BasicKeySet !! NovelOwnKeys
  {
  }

  /** The export writes only keys of NovelKeySet. */
  lemma NovelMapKeys(r: NovelRec)
    ensures forall n :: n in NovelMap(r) ==> n.F? && n.key in NovelKeySet
  {
    BasicMapKeys(r.basic);
  }

  /** The fields this class adds are read from NovelOwnKeys only. */
  lemma NovelFieldsFrame(d: map<Name, Json>, e: map<Name, Json>, r: NovelRec)
    requires Agree(d, e, NovelOwnKeys)
    ensures NovelFieldsOf(d, r) == NovelFieldsOf(e, r)
  {
    AgreeGet(d, e, NovelOwnKeys, KRenumberChapters, JBool(false));
    AgreeGet(d, e, NovelOwnKeys, KRenumberParts, JBool(false));
    AgreeGet(d, e, NovelOwnKeys, KRenumberWithinParts, JBool(false));
    AgreeGet(d, e, NovelOwnKeys, KRomanChapterNumbers, JBool(false));
    AgreeGet(d, e, NovelOwnKeys, KRomanPartNumbers, JBool(false));
    AgreeGet(d, e, NovelOwnKeys, KSaveWordCount, JBool(false));
    AgreeGet(d, e, NovelOwnKeys, KWorkPhase, JNull);
    AgreeGet(d, e, NovelOwnKeys, KAuthor, JNull);
    AgreeGet(d, e, NovelOwnKeys, KChapterHeadingPrefix, JNull);
    AgreeGet(d, e, NovelOwnKeys, KChapterHeadingSuffix, JNull);
    AgreeGet(d, e, NovelOwnKeys, KPartHeadingPrefix, JNull);
    AgreeGet(d, e, NovelOwnKeys, KPartHeadingSuffix, JNull);
    AgreeGet(d, e, NovelOwnKeys, KCustomPlotProgress, JNull);
    AgreeGet(d, e, NovelOwnKeys, KCustomCharacterization, JNull);
    AgreeGet(d, e, NovelOwnKeys, KCustomWorldBuilding, JNull);
    AgreeGet(d, e, NovelOwnKeys, KCustomGoal, JNull);
    AgreeGet(d, e, NovelOwnKeys, KCustomConflict, JNull);
    AgreeGet(d, e, NovelOwnKeys, KCustomOutcome, JNull);
    AgreeGet(d, e, NovelOwnKeys, KCustomChrBio, JNull);
    AgreeGet(d, e, NovelOwnKeys, KCustomChrGoals, JNull);
    AgreeGet(d, e, NovelOwnKeys, KWordCountStart, JNull);
    AgreeGet(d, e, NovelOwnKeys, KWordTarget, JNull);
    AgreeGet(d, e, NovelOwnKeys, KReferenceDate, JNull);
  }

  /** The import reads only keys of NovelKeySet. */
  lemma NovelFrame(d: map<Name, Json>, e: map<Name, Json>, r: NovelRec)
    requires Agree(d, e, NovelKeySet)
    ensures DecodeNovel(d, r) == DecodeNovel(e, r)
  {
    BasicFrame(d, e, r.basic);
    AgreeSubset(d, e, NovelKeySet, NovelOwnKeys);
    if DecodeBasic(d, r.basic).Ok? {
      NovelFieldsFrame(d, e, r.(basic := DecodeBasic(d, r.basic).value));
    }
  }

  /** The fields this class adds come back as NormNovel has them. */
  lemma NovelFieldsRoundTrip(r: NovelRec)
    ensures NovelFieldsOf(NovelOwn(r), r.(basic := NormBasic(r.basic))) == Ok(NormNovel(r))
  {
    NovelRenumberChaptersBack(r);
    NovelRenumberPartsBack(r);
    NovelRenumberWithinPartsBack(r);
    NovelRomanChapterNumbersBack(r);
    NovelRomanPartNumbersBack(r);
    NovelSaveWordCountBack(r);
    NovelWorkPhaseBack(r);
    NovelAuthorBack(r);
    NovelChapterHeadingPrefixBack(r);
    NovelChapterHeadingSuffixBack(r);
    NovelPartHeadingPrefixBack(r);
    NovelPartHeadingSuffixBack(r);
    NovelCustomPlotProgressBack(r);
    NovelCustomCharacterizationBack(r);
    NovelCustomWorldBuildingBack(r);
    NovelCustomGoalBack(r);
    NovelCustomConflictBack(r);
    NovelCustomOutcomeBack(r);
    NovelCustomChrBioBack(r);
    NovelCustomChrGoalsBack(r);
    NovelWordCountStartBack(r);
    NovelWordTargetBack(r);
    NovelReferenceDateBack(r);

  }

  /** Any object that agrees with the export on the keys this class reads imports as NormNovel. */
  lemma NovelDecodeOf(d: map<Name, Json>, r: NovelRec)
    requires Agree(d, BasicMap(r.basic), BasicKeySet)
    requires Agree(d, NovelOwn(r), NovelOwnKeys)
    ensures DecodeNovel(d, r) == Ok(NormNovel(r))
  {
    BasicFrame(d, BasicMap(r.basic), r.basic);
    BasicRoundTrip(r.basic);
    NovelFieldsFrame(d, NovelOwn(r), r.(basic := NormBasic(r.basic)));
    NovelFieldsRoundTrip(r);
  }

  /** Exporting the project's settings and importing them again gives NormNovel. */
  lemma NovelRoundTrip(r: NovelRec)
    ensures DecodeNovel(EncodeNovel(r).m, r) == Ok(NormNovel(r))
  {
    BasicMapKeys(r.basic);
    NovelKeysDisjoint();
    UnionAgree(BasicMap(r.basic), NovelOwn(r), BasicKeySet, NovelOwnKeys);
    NovelDecodeOf(NovelMap(r), r);

  }

  /** RenumberChapters reads back as NormFlag has it. */
  lemma NovelRenumberChaptersBack(r: NovelRec)
    ensures FlagOf(Get(NovelOwn(r), KRenumberChapters, JBool(false))) == Ok(NormFlag(r.renumberChapters))
  {
    EntriesGet(NovelOwnKeys, NovelOwnFn(r), KRenumberChapters, JBool(false));
  }

  /** RenumberParts reads back as NormFlag has it. */
  lemma NovelRenumberPartsBack(r: NovelRec)
    ensures FlagOf(Get(NovelOwn(r), KRenumberParts, JBool(false))) == Ok(NormFlag(r.renumberParts))
  {
    EntriesGet(NovelOwnKeys, NovelOwnFn(r), KRenumberParts, JBool(false));
  }

  /** RenumberWithinParts reads back as NormFlag has it. */
  lemma NovelRenumberWithinPartsBack(r: NovelRec)
    ensures FlagOf(Get(NovelOwn(r), KRenumberWithinParts, JBool(false))) == Ok(NormFlag(r.renumberWithinParts))
  {
    EntriesGet(NovelOwnKeys, NovelOwnFn(r), KRenumberWithinParts, JBool(false));
  }

  /** RomanChapterNumbers reads back as NormFlag has it. */
  lemma NovelRomanChapterNumbersBack(r: NovelRec)
    ensures FlagOf(Get(NovelOwn(r), KRomanChapterNumbers, JBool(false))) == Ok(NormFlag(r.romanChapterNumbers))
  {
    EntriesGet(NovelOwnKeys, NovelOwnFn(r), KRomanChapterNumbers, JBool(false));
  }

  /** RomanPartNumbers reads back as NormFlag has it. */
  lemma NovelRomanPartNumbersBack(r: NovelRec)
    ensures FlagOf(Get(NovelOwn(r), KRomanPartNumbers, JBool(false))) == Ok(NormFlag(r.romanPartNumbers))
  {
    EntriesGet(NovelOwnKeys, NovelOwnFn(r), KRomanPartNumbers, JBool(false));
  }

  /** SaveWordCount reads back as NormFlag has it. */
  lemma NovelSaveWordCountBack(r: NovelRec)
    ensures FlagOf(Get(NovelOwn(r), KSaveWordCount, JBool(false))) == Ok(NormFlag(r.saveWordCount))
  {
    EntriesGet(NovelOwnKeys, NovelOwnFn(r), KSaveWordCount, JBool(false));
  }

  /** A work phase in 1..5 reads back, any other one as None. */
  lemma NovelWorkPhaseBack(r: NovelRec)
    ensures WorkPhaseOf(Get(NovelOwn(r), KWorkPhase, JNull)) == Ok(NormWorkPhase(r.workPhase))
  {
    EntriesGet(NovelOwnKeys, NovelOwnFn(r), KWorkPhase, JNull);
  }

  /** Author reads back as NormText has it. */
  lemma NovelAuthorBack(r: NovelRec)
    ensures TextOf(Get(NovelOwn(r), KAuthor, JNull)) == Ok(NormText(r.authorName))
  {
    EntriesGet(NovelOwnKeys, NovelOwnFn(r), KAuthor, JNull);
  }

  /** ChapterHeadingPrefix reads back as NormText has it. */
  lemma NovelChapterHeadingPrefixBack(r: NovelRec)
    ensures TextOf(Get(NovelOwn(r), KChapterHeadingPrefix, JNull)) == Ok(NormText(r.chapterHeadingPrefix))
  {
    EntriesGet(NovelOwnKeys, NovelOwnFn(r), KChapterHeadingPrefix, JNull);
  }

  /** ChapterHeadingSuffix reads back as NormText has it. */
  lemma NovelChapterHeadingSuffixBack(r: NovelRec)
    ensures TextOf(Get(NovelOwn(r), KChapterHeadingSuffix, JNull)) == Ok(NormText(r.chapterHeadingSuffix))
  {
    EntriesGet(NovelOwnKeys, NovelOwnFn(r), KChapterHeadingSuffix, JNull);
  }

  /** PartHeadingPrefix reads back as NormText has it. */
  lemma NovelPartHeadingPrefixBack(r: NovelRec)
    ensures TextOf(Get(NovelOwn(r), KPartHeadingPrefix, JNull)) == Ok(NormText(r.partHeadingPrefix))
  {
    EntriesGet(NovelOwnKeys, NovelOwnFn(r), KPartHeadingPrefix, JNull);
  }

  /** PartHeadingSuffix reads back as NormText has it. */
  lemma NovelPartHeadingSuffixBack(r: NovelRec)
    ensures TextOf(Get(NovelOwn(r), KPartHeadingSuffix, JNull)) == Ok(NormText(r.partHeadingSuffix))
  {
    EntriesGet(NovelOwnKeys, NovelOwnFn(r), KPartHeadingSuffix, JNull);
  }

  /** CustomPlotProgress reads back as NormText has it. */
  lemma NovelCustomPlotProgressBack(r: NovelRec)
    ensures TextOf(Get(NovelOwn(r), KCustomPlotProgress, JNull)) == Ok(NormText(r.customPlotProgress))
  {
    EntriesGet(NovelOwnKeys, NovelOwnFn(r), KCustomPlotProgress, JNull);
  }

  /** CustomCharacterization reads back as NormText has it. */
  lemma NovelCustomCharacterizationBack(r: NovelRec)
    ensures TextOf(Get(NovelOwn(r), KCustomCharacterization, JNull)) == Ok(NormText(r.customCharacterization))
  {
    EntriesGet(NovelOwnKeys, NovelOwnFn(r), KCustomCharacterization, JNull);
  }

  /** CustomWorldBuilding reads back as NormText has it. */
  lemma NovelCustomWorldBuildingBack(r: NovelRec)
    ensures TextOf(Get(NovelOwn(r), KCustomWorldBuilding, JNull)) == Ok(NormText(r.customWorldBuilding))
  {
    EntriesGet(NovelOwnKeys, NovelOwnFn(r), KCustomWorldBuilding, JNull);
  }

  /** CustomGoal reads back as NormText has it. */
  lemma NovelCustomGoalBack(r: NovelRec)
    ensures TextOf(Get(NovelOwn(r), KCustomGoal, JNull)) == Ok(NormText(r.customGoal))
  {
    EntriesGet(NovelOwnKeys, NovelOwnFn(r), KCustomGoal, JNull);
  }

  /** CustomConflict reads back as NormText has it. */
  lemma NovelCustomConflictBack(r: NovelRec)
    ensures TextOf(Get(NovelOwn(r), KCustomConflict, JNull)) == Ok(NormText(r.customConflict))
  {
    EntriesGet(NovelOwnKeys, NovelOwnFn(r), KCustomConflict, JNull);
  }

  /** CustomOutcome reads back as NormText has it. */
  lemma NovelCustomOutcomeBack(r: NovelRec)
    ensures TextOf(Get(NovelOwn(r), KCustomOutcome, JNull)) == Ok(NormText(r.customOutcome))
  {
    EntriesGet(NovelOwnKeys, NovelOwnFn(r), KCustomOutcome, JNull);
  }

  /** CustomChrBio reads back as NormText has it. */
  lemma NovelCustomChrBioBack(r: NovelRec)
    ensures TextOf(Get(NovelOwn(r), KCustomChrBio, JNull)) == Ok(NormText(r.customChrBio))
  {
    EntriesGet(NovelOwnKeys, NovelOwnFn(r), KCustomChrBio, JNull);
  }

  /** CustomChrGoals reads back as NormText has it. */
  lemma NovelCustomChrGoalsBack(r: NovelRec)
    ensures TextOf(Get(NovelOwn(r), KCustomChrGoals, JNull)) == Ok(NormText(r.customChrGoals))
  {
    EntriesGet(NovelOwnKeys, NovelOwnFn(r), KCustomChrGoals, JNull);
  }

  /** WordCountStart reads back as NormCount has it. */
  lemma NovelWordCountStartBack(r: NovelRec)
    ensures IntOf(Get(NovelOwn(r), KWordCountStart, JNull)) == Ok(NormCount(r.wordCountStart))
  {
    EntriesGet(NovelOwnKeys, NovelOwnFn(r), KWordCountStart, JNull);
  }

  /** WordTarget reads back as NormCount has it. */
  lemma NovelWordTargetBack(r: NovelRec)
    ensures IntOf(Get(NovelOwn(r), KWordTarget, JNull)) == Ok(NormCount(r.wordTarget))
  {
    EntriesGet(NovelOwnKeys, NovelOwnFn(r), KWordTarget, JNull);
  }

  /** The reference date is read back as the text NormText has. */
  lemma NovelReferenceDateBack(r: NovelRec)
    ensures StrOf(Get(NovelOwn(r), KReferenceDate, JNull)) == NormText(r.referenceDate)
  {
    EntriesGet(NovelOwnKeys, NovelOwnFn(r), KReferenceDate, JNull);
  }



}
