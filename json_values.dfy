/**
 * Parsed JSON values as the .json project format holds them. Object keys are
 * either one of the fixed names of the format (the element fields and the
 * group names, a Key spelled by KeyName) or free text (element IDs, dates,
 * link paths). Objects keep their keys in insertion order, as Python's dicts
 * and json.dump do; json.load and json.dump themselves are not modelled.
 */
module JsonValues {
  import opened Wrappers
  import opened OrderedMaps

  /** The fixed object keys of the format. */
  datatype Key =
    | KTitle | KDesc | KLinks | KNotes | KTags | KAka
    | KMajor | KFullName | KBirthDate | KDeathDate | KBio | KGoals
    | KType | KLevel | KIsTrash | KNoNumber
    | KStatus | KScene | KAppend | KContent | KGoal | KConflict | KOutcome
    | KDate | KDay | KTime | KLastsDays | KLastsHours | KLastsMinutes
    | KCharacters | KLocations | KItems
    | KShortName | KSections | KSection
    | KRenumberChapters | KRenumberParts | KRenumberWithinParts
    | KRomanChapterNumbers | KRomanPartNumbers | KSaveWordCount | KWorkPhase | KAuthor
    | KChapterHeadingPrefix | KChapterHeadingSuffix | KPartHeadingPrefix | KPartHeadingSuffix
    | KCustomPlotProgress | KCustomCharacterization | KCustomWorldBuilding
    | KCustomGoal | KCustomConflict | KCustomOutcome | KCustomChrBio | KCustomChrGoals
    | KWordCountStart | KWordTarget | KReferenceDate
    | KMdnov | KVersion | KProject | KChapterGroup | KSectionGroup | KCharacterGroup
    | KLocationGroup | KItemGroup | KArcGroup | KPointGroup | KProjectNoteGroup | KProgress

  /** How each fixed key is spelled in the file. */
  function KeyName(k: Key): string
  {
    match k
    case KTitle => "Title"
    case KDesc => "Desc"
    case KLinks => "Links"
    case KNotes => "Notes"
    case KTags => "Tags"
    case KAka => "Aka"
    case KMajor => "major"
    case KFullName => "FullName"
    case KBirthDate => "BirthDate"
    case KDeathDate => "DeathDate"
    case KBio => "Bio"
    case KGoals => "Goals"
    case KType => "type"
    case KLevel => "level"
    case KIsTrash => "isTrash"
    case KNoNumber => "noNumber"
    case KStatus => "status"
    case KScene => "scene"
    case KAppend => "append"
    case KContent => "Content"
    case KGoal => "Goal"
    case KConflict => "Conflict"
    case KOutcome => "Outcome"
    case KDate => "Date"
    case KDay => "Day"
    case KTime => "Time"
    case KLastsDays => "LastsDays"
    case KLastsHours => "LastsHours"
    case KLastsMinutes => "LastsMinutes"
    case KCharacters => "Characters"
    case KLocations => "Locations"
    case KItems => "Items"
    case KShortName => "ShortName"
    case KSections => "Sections"
    case KSection => "Section"
    case KRenumberChapters => "renumberChapters"
    case KRenumberParts => "renumberParts"
    case KRenumberWithinParts => "renumberWithinParts"
    case KRomanChapterNumbers => "romanChapterNumbers"
    case KRomanPartNumbers => "romanPartNumbers"
    case KSaveWordCount => "saveWordCount"
    case KWorkPhase => "workPhase"
    case KAuthor => "Author"
    case KChapterHeadingPrefix => "ChapterHeadingPrefix"
    case KChapterHeadingSuffix => "ChapterHeadingSuffix"
    case KPartHeadingPrefix => "PartHeadingPrefix"
    case KPartHeadingSuffix => "PartHeadingSuffix"
    case KCustomPlotProgress => "CustomPlotProgress"
    case KCustomCharacterization => "CustomCharacterization"
    case KCustomWorldBuilding => "CustomWorldBuilding"
    case KCustomGoal => "CustomGoal"
    case KCustomConflict => "CustomConflict"
    case KCustomOutcome => "CustomOutcome"
    case KCustomChrBio => "CustomChrBio"
    case KCustomChrGoals => "CustomChrGoals"
    case KWordCountStart => "WordCountStart"
    case KWordTarget => "WordTarget"
    case KReferenceDate => "ReferenceDate"
    case KMdnov => "mdnov"
    case KVersion => "version"
    case KProject => "PROJECT"
    case KChapterGroup => "CHAPTERS"
    case KSectionGroup => "SECTIONS"
    case KCharacterGroup => "CHARACTERS"
    case KLocationGroup => "LOCATIONS"
    case KItemGroup => "ITEMS"
    case KArcGroup => "ARCS"
    case KPointGroup => "POINTS"
    case KProjectNoteGroup => "PROJECTNOTES"
    case KProgress => "PROGRESS"
  }

  /** An object key: a fixed name of the format, or free text. */
  datatype Name = F(key: Key) | S(text: string)

  datatype Json =
    | JNull
    | JBool(b: bool)
    | JNum(n: int)
    | JStr(s: string)
    | JList(items: seq<Json>)
    | JObj(obj: OMap<Name, Json>)

  type JDict = OMap<Name, Json>

  /** d.get(key, default) on the entries of an object. */
  function Get(d: map<Name, Json>, k: Key, default: Json): Json
  {
    if F(k) in d then d[F(k)] else default
  }

  /** d[k] = v: a new key goes to the end, a present key keeps its place. */
  function Set(d: JDict, k: Name, v: Json): (r: JDict)
    ensures r.m == d.m[k := v]
    ensures k in d.m ==> r.keys == d.keys
    ensures k !in d.m ==> r.keys == d.keys + [k]
  {
    OMap(if k in d.m then d.keys else d.keys + [k], d.m[k := v])
  }

  /** Setting a new key keeps an ordered map well formed. */
  lemma SetValid(d: JDict, k: Name, v: Json)
    requires d.Valid()
    ensures Set(d, k, v).Valid()
  {
    if k !in d.m {
      var ks := d.keys + [k];
      forall i, j | 0 <= i < j < |ks| ensures ks[i] != ks[j] {
        if j < |d.keys| {
          assert ks[i] == d.keys[i] && ks[j] == d.keys[j];
        } else {
          assert ks[i] == d.keys[i];
          assert d.keys[i] in d.m;
        }
      }
    }
  }

  /** The names of the fixed keys ks. */
  function FNames(ks: set<Key>): (r: set<Name>)
    ensures forall n :: n in r <==> n.F? && n.key in ks
  {
    set k | k in ks :: F(k)
  }

  /**
   * The entries an export writes for one group of keys: under each key of ks
   * the value entry gives, and nothing where entry gives None.
   */
  function Entries(ks: set<Key>, entry: Key -> Option<Json>): (r: map<Name, Json>)
    ensures forall n :: n in r ==> n.F? && n.key in ks
  {
    map n | n in FNames(ks) && entry(n.key).Some? :: entry(n.key).value
  }

  /** Looking up one of the fixed keys in Entries. */
  lemma EntriesGet(ks: set<Key>, entry: Key -> Option<Json>, k: Key, default: Json)
    requires k in ks
    ensures Get(Entries(ks, entry), k, default) == (if entry(k).Some? then entry(k).value else default)
  {
  }

  /** The keys of those entries in writing order, which is the order of ks. */
  function WrittenKeys(ks: seq<Key>, entry: Key -> Option<Json>): (r: seq<Name>)
    ensures forall n :: n in r <==> n.F? && n.key in ks && entry(n.key).Some?
  {
    if ks == [] then []
    else (if entry(ks[0]).Some? then [F(ks[0])] else []) + WrittenKeys(ks[1..], entry)
  }

  /** Two objects with the same entries under the fixed keys ks. */
  predicate Agree(d: map<Name, Json>, e: map<Name, Json>, ks: set<Key>)
  {
    forall k :: k in ks ==> (F(k) in d <==> F(k) in e) && (F(k) in d ==> d[F(k)] == e[F(k)])
  }

  /** Two objects written under disjoint sets of fixed keys: their union agrees with each on its own keys. */
  lemma UnionAgree(a: map<Name, Json>, b: map<Name, Json>, aks: set<Key>, bks: set<Key>)
    requires forall n :: n in a ==> n.F? && n.key in aks
    requires forall n :: n in b ==> n.F? && n.key in bks
    requires aks !! bks
    ensures Agree(a + b, a, aks) && Agree(a + b, b, bks)
  {
  }

  /** Agreeing objects give the same value, or the same default, under each of the keys. */
  lemma AgreeGet(d: map<Name, Json>, e: map<Name, Json>, ks: set<Key>, k: Key, default: Json)
    requires Agree(d, e, ks) && k in ks
    ensures Get(d, k, default) == Get(e, k, default)
  {
  }

  lemma AgreeSubset(d: map<Name, Json>, e: map<Name, Json>, ks: set<Key>, sub: set<Key>)
    requires Agree(d, e, ks) && sub <= ks
    ensures Agree(d, e, sub)
  {
  }

  /** The value an export writes when its condition holds. */
  function When(write: bool, v: Json): (r: Option<Json>)
    ensures r.Some? <==> write
    ensures write ==> r == Some(v)
  {
    if write then Some(v) else None
  }

  // ----- the values the element setters accept -----

  /** A JSON value handed to a setter that accepts a str or None; anything else fails its type assertion. */
  function TextOf(v: Json): (r: Result<Option<string>>)
    ensures r.Ok? <==> v.JNull? || v.JStr?
    ensures v.JStr? ==> r == Ok(Some(v.s))
    ensures v.JNull? ==> r == Ok(None)
  {
    match v
    case JNull => Ok(None)
    case JStr(s) => Ok(Some(s))
    case _ => Err("")
  }

  /** A JSON value handed to a setter that accepts a bool or None. */
  function FlagOf(v: Json): (r: Result<Option<bool>>)
    ensures r.Ok? <==> v.JNull? || v.JBool?
    ensures v.JBool? ==> r == Ok(Some(v.b))
  {
    match v
    case JNull => Ok(None)
    case JBool(b) => Ok(Some(b))
    case _ => Err("")
  }

  /** A JSON value handed to a setter that accepts an int or None; a bool is not an int there. */
  function IntOf(v: Json): (r: Result<Option<int>>)
    ensures r.Ok? <==> v.JNull? || v.JNum?
    ensures v.JNum? ==> r == Ok(Some(v.n))
  {
    match v
    case JNull => Ok(None)
    case JNum(n) => Ok(Some(n))
    case _ => Err("")
  }

  /**
   * The error for a value a setter takes but the element fields of this
   * model cannot hold (a list with None entries, a string or an object where
   * a list is expected, a path that spells a property name).
   */
  const NotHeld: string := "value not held by the model"

  /** What the list setters take: None, or an iterable whose items other than None are str. */
  predicate ListSetterTakes(v: Json)
  {
    match v
    case JNull => true
    case JList(items) => forall i :: 0 <= i < |items| ==> items[i].JNull? || items[i].JStr?
    case JStr(_) => true  // iterates over one-character strings
    case JObj(_) => true  // iterates over its keys, which are strings
    case _ => false
  }

  /** A JSON value handed to a setter that accepts a list of str, or None. */
  function StrListOf(v: Json): (r: Result<Option<seq<string>>>)
    ensures r.Ok? <==> v.JNull? || (v.JList? && forall i :: 0 <= i < |v.items| ==> v.items[i].JStr?)
    ensures r == Err("") <==> !ListSetterTakes(v)
    ensures r.Err? ==> r == Err("") || r == Err(NotHeld)
    ensures r.Ok? && v.JList? ==>
      r.value.Some? && |r.value.value| == |v.items| && forall i :: 0 <= i < |v.items| ==> r.value.value[i] == v.items[i].s
  {
    match v
    case JNull => Ok(None)
    case JList(items) =>
      if forall i :: 0 <= i < |items| ==> items[i].JStr? then
        Ok(Some(seq(|items|, i requires 0 <= i < |items| => items[i].s)))
      else if forall i :: 0 <= i < |items| ==> items[i].JNull? || items[i].JStr? then Err(NotHeld)
      else Err("")
    case JStr(_) => Err(NotHeld)
    case JObj(_) => Err(NotHeld)
    case _ => Err("")
  }

  /**
   * `value in (lo, ..., hi)` followed by the setter: an int in the range is
   * kept, a bool whose value lies in the range passes the test but fails the
   * setter's int assertion, and anything else gives the default.
   */
  function ChoiceOf(v: Json, lo: int, hi: int, default: int): (r: Result<int>)
    ensures v.JNum? && lo <= v.n <= hi ==> r == Ok(v.n)
    ensures v.JNum? && !(lo <= v.n <= hi) ==> r == Ok(default)
    ensures !v.JNum? && !v.JBool? ==> r == Ok(default)
  {
    match v
    case JNum(n) => Ok(if lo <= n <= hi then n else default)
    case JBool(b) => if lo <= (if b then 1 else 0) <= hi then Err("") else Ok(default)
    case _ => Ok(default)
  }

  /** The string verified_date, verified_time and verified_int_string receive; any other value is not valid there. */
  function StrOf(v: Json): (r: Option<string>)
    ensures r.Some? <==> v.JStr?
  {
    if v.JStr? then Some(v.s) else None
  }

  // ----- the values the exports write -----

  function TextJson(v: Option<string>): (r: Json)
    ensures TextOf(r) == Ok(v)
  {
    if v.Some? then JStr(v.value) else JNull
  }

  function StrListJson(l: seq<string>): (r: Json)
    ensures StrListOf(r) == Ok(Some(l))
  {
    var items := seq(|l|, i requires 0 <= i < |l| => JStr(l[i]));
    assert StrListOf(JList(items)).value.value == l;
    JList(items)
  }

  /** The free-text names of a key sequence. */
  function TextNames(ks: seq<string>): (r: seq<Name>)
    ensures |r| == |ks| && forall i :: 0 <= i < |ks| ==> r[i] == S(ks[i])
  {
    seq(|ks|, i requires 0 <= i < |ks| => S(ks[i]))
  }

  /** The texts of free-text names. */
  function NameTexts(ns: seq<Name>): (r: seq<string>)
    requires forall i :: 0 <= i < |ns| ==> ns[i].S?
    ensures |r| == |ns| && forall i :: 0 <= i < |ns| ==> r[i] == ns[i].text
  {
    seq(|ns|, i requires 0 <= i < |ns| && ns[i].S? => ns[i].text)
  }

  /** A links dict as a JSON object: relative path -> full path or null. */
  function LinksJson(links: OMap<string, Option<string>>): Json
  {
    JObj(OMap(TextNames(links.keys), map p | p in links.m :: S(p) := TextJson(links.m[p])))
  }

  /** A links object whose names are paths and whose values are strings or null. */
  predicate LinksShape(o: JDict)
  {
    (forall i :: 0 <= i < |o.keys| ==> o.keys[i].S?)
    && (forall n :: n in o.m ==> n.S? && (o.m[n].JNull? || o.m[n].JStr?))
  }

  /** The paths named in a links object. */
  function PathsOf(m: map<Name, Json>): (r: set<string>)
    ensures forall p :: p in r <==> S(p) in m
  {
    set n | n in m && n.S? :: n.text
  }

  /**
   * What the links setter takes: None, an object whose values are str or
   * None, or an empty list or string, which iterate over nothing.
   */
  predicate LinksSetterTakes(v: Json)
  {
    match v
    case JNull => true
    case JObj(o) => forall n :: n in o.m ==> o.m[n].JNull? || o.m[n].JStr?
    case JList(items) => items == []
    case JStr(s) => s == []
    case _ => false
  }

  /**
   * The links setter's argument. An empty list reads as an empty links dict
   * and an empty string as None, which is what the core's uses of the stored
   * value (truth tests and iteration, the getter's copy()) see.
   */
  function LinksOf(v: Json): (r: Result<Option<OMap<string, Option<string>>>>)
    ensures r.Ok? <==> v.JNull? || (v.JObj? && LinksShape(v.obj)) || v == JList([]) || v == JStr("")
    ensures r == Err("") <==> !LinksSetterTakes(v)
    ensures r.Err? ==> r == Err("") || r == Err(NotHeld)
    ensures v == JList([]) ==> r == Ok(Some(Empty()))
    ensures v == JStr("") ==> r == Ok(None)
    ensures r.Ok? && v.JObj? ==> r.value.Some? && forall p :: p in r.value.value.m <==> S(p) in v.obj.m
  {
    match v
    case JNull => Ok(None)
    case JObj(o) =>
      if LinksShape(o) then
        Ok(Some(OMap(NameTexts(o.keys), map p | p in PathsOf(o.m) :: TextOf(o.m[S(p)]).value)))
      else if forall n :: n in o.m ==> o.m[n].JNull? || o.m[n].JStr? then Err(NotHeld)
      else Err("")
    case JList(items) => if items == [] then Ok(Some(Empty())) else Err("")
    case JStr(s) => if s == [] then Ok(None) else Err("")
    case _ => Err("")
  }

  /** A links dict written out reads back with the same paths in the same order and the same values. */
  lemma LinksRoundTrip(links: OMap<string, Option<string>>)
    ensures LinksOf(LinksJson(links)) == Ok(Some(links))
  {
    var o := LinksJson(links).obj;
    assert LinksShape(o);
    var back := LinksOf(LinksJson(links)).value.value;
    assert back.keys == links.keys;
    forall p | p in links.m ensures p in back.m && back.m[p] == links.m[p] {
      assert S(p) in o.m;
    }
    assert back.m == links.m;
  }

  /** The default the links import falls back to, {}, reads as an empty links dict. */
  lemma LinksOfEmpty()
    ensures LinksOf(JObj(Empty())) == Ok(Some(Empty()))
  {
    var back := LinksOf(JObj(Empty())).value.value;
    assert back.keys == [];
    assert back.m == map[];
  }
}
