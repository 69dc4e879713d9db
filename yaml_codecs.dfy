/**
 * The element codecs of the .mdnov format, one pair of functions per Python
 * codec class: EncodeX gives the metadata lines export_data appends, DecodeX
 * the element import_data leaves when it reads a metadata dictionary into an
 * element whose state was the given record. Import assigns every property
 * the codec reads, so DecodeX keeps only what the codec does not touch.
 */
module YamlCodecs {
  import opened Wrappers
  import opened Dicts
  import opened Strings
  import opened Calendar
  import opened NovxGlobals
  import opened Elements
  import opened Sections
  import opened Novels
  import opened YamlMeta

  // ----- shared readings -----

  /** `s in ('lo', ..., 'hi')` followed by int(s): a single digit within the bounds. */
  function DigitIn(s: string, lo: nat, hi: nat): (r: Option<nat>)
    ensures r.Some? ==> lo <= r.value <= hi && r.value <= 9 && s == IntToString(r.value)
  {
    if |s| == 1 && IsDigit(s[0]) && lo <= (s[0] as int - '0' as int) <= hi then
      var n := s[0] as int - '0' as int;
      assert s == IntToString(n) by { DigitCharInverse(s[0]); }
      Some(n)
    else None
  }

  lemma DigitCharInverse(c: char)
    requires IsDigit(c)
    ensures [c] == IntToString(c as int - '0' as int)
  {
    DigitCharValue(c as int - '0' as int);
  }

  /** str(n) for a digit within the bounds is accepted as n. */
  lemma DigitInOfDigit(n: nat, lo: nat, hi: nat)
    requires lo <= n <= hi <= 9
    ensures DigitIn(IntToString(n), lo, hi) == Some(n)
  {
    DigitCharValue(n);
  }

  /** A value among the listed one-digit choices, or the default. */
  function ChoiceOr(v: Option<string>, lo: nat, hi: nat, default: int): int
  {
    if v.Some? && DigitIn(v.value, lo, hi).Some? then DigitIn(v.value, lo, hi).value else default
  }

  /** A flag is read as True exactly when its value is '1'. */
  function FlagOf(d: map<string, string>, key: string): Option<bool>
  {
    Some(MetaValue(d, key) == Some("1"))
  }

  /** The strippedTags loop of BasicElementTagsYaml.import_data. */
  function StripEach(tags: seq<string>): (r: seq<string>)
    ensures |r| == |tags|
    ensures forall i :: 0 <= i < |r| ==> r[i] == Strip(tags[i])
  {
    if tags == [] then [] else [Strip(tags[0])] + StripEach(tags[1..])
  }

  lemma StripEachSnoc(tags: seq<string>, i: nat)
    requires i < |tags|
    ensures StripEach(tags)[..i + 1] == StripEach(tags)[..i] + [Strip(tags[i])]
  {
    TakeSnoc(StripEach(tags), i);
  }

  /** string_to_list already strips its entries, so the loop changes nothing. */
  lemma StripEachOfStringToList(text: Option<string>)
    ensures StripEach(StringToList(text)) == StringToList(text)
  {
    var tags := StringToList(text);
    forall i | 0 <= i < |tags| ensures Strip(tags[i]) == tags[i] {
      StripOfTrimmed(tags[i]);
    }
  }

  /** The keys of the tags, world element and character codec are well formed. */
  lemma TagsKeys()
    ensures KeyOk("Title") && KeyOk("Tags") && KeyOk("Aka") && KeyOk("major")
    ensures KeyOk("FullName") && KeyOk("BirthDate") && KeyOk("DeathDate")
  {
  }

  /** The keys of the chapter codec are well formed. */
  lemma ChapterKeys()
    ensures KeyOk("Title") && KeyOk("type") && KeyOk("level") && KeyOk("isTrash")
    ensures KeyOk("noNumber")
  {
  }

  /** The keys of the plot line and plot point codec are well formed. */
  lemma PlotKeys()
    ensures KeyOk("Title") && KeyOk("ShortName") && KeyOk("Sections") && KeyOk("Section")
  {
  }

  /** The keys of the plot line and plot point codec are distinct. */
  lemma PlotDistinct()
    ensures "Title" != "ShortName" && "Title" != "Sections" && "Title" != "Section" && "ShortName" != "Sections"
    ensures "ShortName" != "Section" && "Sections" != "Section"
  {
  }

  /** The keys of the section codec are well formed. */
  lemma SectionKeys()
    ensures KeyOk("Title") && KeyOk("Tags") && KeyOk("type") && KeyOk("status") && KeyOk("scene")
    ensures KeyOk("append") && KeyOk("Date") && KeyOk("Day") && KeyOk("Time") && KeyOk("LastsDays")
    ensures KeyOk("LastsHours") && KeyOk("LastsMinutes") && KeyOk("Characters") && KeyOk("Locations") && KeyOk("Items")
  {
    SectionKeys0();
    SectionKeys1();
    SectionKeys2();
  }

  lemma SectionKeys0()
    ensures KeyOk("Title") && KeyOk("Tags") && KeyOk("type") && KeyOk("status")
    ensures KeyOk("scene") && KeyOk("append")
  {
  }

  lemma SectionKeys1()
    ensures KeyOk("Date") && KeyOk("Day") && KeyOk("Time") && KeyOk("LastsDays")
    ensures KeyOk("LastsHours") && KeyOk("LastsMinutes")
  {
  }

  lemma SectionKeys2()
    ensures KeyOk("Characters") && KeyOk("Locations") && KeyOk("Items")
  {
  }

  /** The keys of the novel codec are well formed. */
  lemma NovelKeys()
    ensures KeyOk("Title") && KeyOk("renumberChapters") && KeyOk("renumberParts") && KeyOk("renumberWithinParts") && KeyOk("romanChapterNumbers")
    ensures KeyOk("romanPartNumbers") && KeyOk("saveWordCount") && KeyOk("workPhase") && KeyOk("Author") && KeyOk("ChapterHeadingPrefix")
    ensures KeyOk("ChapterHeadingSuffix") && KeyOk("PartHeadingPrefix") && KeyOk("PartHeadingSuffix") && KeyOk("CustomPlotProgress") && KeyOk("CustomCharacterization")
    ensures KeyOk("CustomWorldBuilding") && KeyOk("CustomGoal") && KeyOk("CustomConflict") && KeyOk("CustomOutcome") && KeyOk("CustomChrBio")
    ensures KeyOk("CustomChrGoals") && KeyOk("WordCountStart") && KeyOk("WordTarget") && KeyOk("ReferenceDate")
  {
    NovelKeys0();
    NovelKeys1();
    NovelKeys2();
    NovelKeys3();
  }

  lemma NovelKeys0()
    ensures KeyOk("Title") && KeyOk("renumberChapters") && KeyOk("renumberParts") && KeyOk("renumberWithinParts")
    ensures KeyOk("romanChapterNumbers") && KeyOk("romanPartNumbers")
  {
  }

  lemma NovelKeys1()
    ensures KeyOk("saveWordCount") && KeyOk("workPhase") && KeyOk("Author") && KeyOk("ChapterHeadingPrefix")
    ensures KeyOk("ChapterHeadingSuffix") && KeyOk("PartHeadingPrefix")
  {
  }

  lemma NovelKeys2()
    ensures KeyOk("PartHeadingSuffix") && KeyOk("CustomPlotProgress") && KeyOk("CustomCharacterization") && KeyOk("CustomWorldBuilding")
    ensures KeyOk("CustomGoal") && KeyOk("CustomConflict")
  {
  }

  lemma NovelKeys3()
    ensures KeyOk("CustomOutcome") && KeyOk("CustomChrBio") && KeyOk("CustomChrGoals") && KeyOk("WordCountStart")
    ensures KeyOk("WordTarget") && KeyOk("ReferenceDate")
  {
  }

  // ----- BasicElementYaml, BasicElementNotesYaml, BasicElementTagsYaml -----

  function DecodeBasic(d: map<string, string>, r: BasicRec): BasicRec
  {
    r.(title := MetaValue(d, "Title"))
  }

  function EncodeBasic(r: BasicRec): seq<string>
  {
    TextLine("Title", r.title)
  }

  function DecodeNotes(d: map<string, string>, r: NotesRec): NotesRec
  {
    r.(basic := DecodeBasic(d, r.basic))
  }

  function DecodeTags(d: map<string, string>, r: TagsRec): TagsRec
  {
    TagsRec(DecodeNotes(d, r.withNotes), Some(StripEach(StringToList(MetaValue(d, "Tags")))))
  }

  function EncodeTags(r: TagsRec): seq<string>
  {
    EncodeBasic(r.withNotes.basic) + ListLine("Tags", r.tags)
  }

  /** The tagged elements whose export reads back unchanged. */
  predicate TagsOk(r: TagsRec)
  {
    TextOk(r.withNotes.basic.title) && ListOk(r.tags)
  }

  function TagsEntries(r: TagsRec): (m: map<string, string>)
    ensures m.Keys <= TagsKeySet
  {
    Entry("Title", r.withNotes.basic.title) + ListEntry("Tags", r.tags)
  }

  lemma TagsDict(r: TagsRec)
    requires TagsOk(r)
    ensures MetaDictOf(EncodeTags(r)) == TagsEntries(r)
  {
    TagsKeys();
    MetaDictOfAppend(EncodeBasic(r.withNotes.basic), ListLine("Tags", r.tags));
    TextLineDict("Title", r.withNotes.basic.title);
    ListLineDict("Tags", r.tags);
  }

  lemma TagsDecodes(d: map<string, string>, r: TagsRec)
    requires TagsOk(r) && TagsRead(d, r)
    ensures DecodeTags(d, r) == r
  {
    ListEntryReads(d, "Tags", r.tags);
    StripEachOfStringToList(MetaValue(d, "Tags"));
  }

  /** Exporting a tagged element and importing the lines into it again changes nothing. */
  lemma TagsRoundTrip(r: TagsRec)
    requires TagsOk(r)
    ensures DecodeTags(MetaDictOf(EncodeTags(r)), r) == r
  {
    TagsDict(r);
    TagsLookups(r);
    TagsDecodes(MetaDictOf(EncodeTags(r)), r);
  }

  // ----- WorldElementYaml -----

  function DecodeWorld(d: map<string, string>, r: WorldRec): WorldRec
  {
    WorldRec(DecodeTags(d, r.withTags), MetaValue(d, "Aka"))
  }

  function EncodeWorld(r: WorldRec): seq<string>
  {
    EncodeTags(r.withTags) + TextLine("Aka", r.aka)
  }

  predicate WorldOk(r: WorldRec)
  {
    TagsOk(r.withTags) && TextOk(r.aka)
  }

  function WorldEntries(r: WorldRec): map<string, string>
  {
    TagsEntries(r.withTags) + Entry("Aka", r.aka)
  }

  lemma WorldDict(r: WorldRec)
    requires WorldOk(r)
    ensures MetaDictOf(EncodeWorld(r)) == WorldEntries(r)
  {
    TagsKeys();
    MetaDictOfAppend(EncodeTags(r.withTags), TextLine("Aka", r.aka));
    TagsDict(r.withTags);
    TextLineDict("Aka", r.aka);
  }

  lemma WorldDecodes(d: map<string, string>, r: WorldRec)
    requires WorldOk(r) && WorldRead(d, r)
    ensures DecodeWorld(d, r) == r
  {
    TagsDecodes(d, r.withTags);
  }

  /** Exporting a location or item and importing the lines into it again changes nothing. */
  lemma WorldRoundTrip(r: WorldRec)
    requires WorldOk(r)
    ensures DecodeWorld(MetaDictOf(EncodeWorld(r)), r) == r
  {
    WorldDict(r);
    WorldLookups(r);
    WorldDecodes(MetaDictOf(EncodeWorld(r)), r);
  }

  // ----- CharacterYaml -----

  function DecodeCharacter(d: map<string, string>, r: CharacterRec): CharacterRec
  {
    r.(world := DecodeWorld(d, r.world), isMajor := FlagOf(d, "major"),
       fullName := MetaValue(d, "FullName"),
       birthDate := VerifiedDate(MetaValue(d, "BirthDate")),
       deathDate := VerifiedDate(MetaValue(d, "DeathDate")))
  }

  function EncodeCharacter(r: CharacterRec): seq<string>
  {
    EncodeWorld(r.world) + r.CharacterLines()
  }

  predicate CharacterOk(r: CharacterRec)
  {
    WorldOk(r.world) && r.isMajor.Some? && TextOk(r.fullName) && DateOk(r.birthDate) && DateOk(r.deathDate)
  }

  function CharacterEntries(r: CharacterRec): map<string, string>
  {
    WorldEntries(r.world)
    + (FlagEntry("major", r.isMajor) + Entry("FullName", r.fullName)
       + Entry("BirthDate", r.birthDate) + Entry("DeathDate", r.deathDate))
  }

  lemma CharacterDict(r: CharacterRec)
    requires CharacterOk(r)
    ensures MetaDictOf(EncodeCharacter(r)) == CharacterEntries(r)
  {
    TagsKeys();
    var m := FlagLine("major", r.isMajor);
    var f := TextLine("FullName", r.fullName);
    var b := TextLine("BirthDate", r.birthDate);
    var e := TextLine("DeathDate", r.deathDate);
    MetaDictOfAppend(EncodeWorld(r.world), r.CharacterLines());
    MetaDictOfAppend(m, f);
    MetaDictOfAppend(m + f, b);
    MetaDictOfAppend(m + f + b, e);
    WorldDict(r.world);
    FlagLineDict("major", r.isMajor);
    TextLineDict("FullName", r.fullName);
    DateTextOk(r.birthDate);
    TextLineDict("BirthDate", r.birthDate);
    DateTextOk(r.deathDate);
    TextLineDict("DeathDate", r.deathDate);
  }

  lemma CharacterDecodes(d: map<string, string>, r: CharacterRec)
    requires CharacterOk(r) && CharacterRead(d, r)
    ensures DecodeCharacter(d, r) == r
  {
    TagsDecodes(d, r.world.withTags);
    FlagEntryReads(d, "major", r.isMajor);
  }

  /** Exporting a character and importing the lines into it again changes nothing. */
  lemma CharacterRoundTrip(r: CharacterRec)
    requires CharacterOk(r)
    ensures DecodeCharacter(MetaDictOf(EncodeCharacter(r)), r) == r
  {
    CharacterDict(r);
    CharacterLookups0(r);
    CharacterLookups1(r);
    CharacterDecodes(MetaDictOf(EncodeCharacter(r)), r);
  }

  // ----- ChapterYaml -----

  function DecodeChapter(d: map<string, string>, r: ChapterRec): ChapterRec
  {
    r.(withNotes := DecodeNotes(d, r.withNotes),
       chType := Some(ChoiceOr(Some(MetaValueOr(d, "type", "0")), 0, 1, 1)),
       chLevel := Some(if MetaValue(d, "level") == Some("1") then 1 else 2),
       isTrash := FlagOf(d, "isTrash"), noNumber := FlagOf(d, "noNumber"))
  }

  /** The chapter type reads '0' as 0 and anything else, '1' included, as 1. */
  lemma ChapterTypeChoice(typeStr: string)
    ensures ChoiceOr(Some(typeStr), 0, 1, 1) == if typeStr == "0" then 0 else 1
  {
    DigitInOfDigit(0, 0, 1);
    assert IntToString(0) == "0";
  }

  /** type unless 0, level only when 1, then the two flags */
  function ChapterLines(r: ChapterRec): seq<string>
  {
    NumberLine("type", r.chType.Some? && r.chType.value != 0, r.chType.GetOr(0))
    + NumberLine("level", r.chLevel == Some(1), 1)
    + FlagLine("isTrash", r.isTrash) + FlagLine("noNumber", r.noNumber)
  }

  function EncodeChapter(r: ChapterRec): seq<string>
  {
    EncodeBasic(r.withNotes.basic) + ChapterLines(r)
  }

  predicate ChapterOk(r: ChapterRec)
  {
    TextOk(r.withNotes.basic.title) && r.chType in {Some(0), Some(1)} && r.chLevel in {Some(1), Some(2)}
    && r.isTrash.Some? && r.noNumber.Some?
  }

  function ChapterEntries(r: ChapterRec): map<string, string>
  {
    Entry("Title", r.withNotes.basic.title)
    + (NumberEntry("type", r.chType.Some? && r.chType.value != 0, r.chType.GetOr(0))
       + NumberEntry("level", r.chLevel == Some(1), 1)
       + FlagEntry("isTrash", r.isTrash) + FlagEntry("noNumber", r.noNumber))
  }

  lemma ChapterDict(r: ChapterRec)
    requires ChapterOk(r)
    ensures MetaDictOf(EncodeChapter(r)) == ChapterEntries(r)
  {
    ChapterKeys();
    var ty := NumberLine("type", r.chType.Some? && r.chType.value != 0, r.chType.GetOr(0));
    var lv := NumberLine("level", r.chLevel == Some(1), 1);
    var tr := FlagLine("isTrash", r.isTrash);
    var nn := FlagLine("noNumber", r.noNumber);
    MetaDictOfAppend(EncodeBasic(r.withNotes.basic), ChapterLines(r));
    MetaDictOfAppend(ty, lv);
    MetaDictOfAppend(ty + lv, tr);
    MetaDictOfAppend(ty + lv + tr, nn);
    TextLineDict("Title", r.withNotes.basic.title);
    NumberLineDict("type", r.chType.Some? && r.chType.value != 0, r.chType.GetOr(0));
    NumberLineDict("level", r.chLevel == Some(1), 1);
    FlagLineDict("isTrash", r.isTrash);
    FlagLineDict("noNumber", r.noNumber);
  }

  lemma ChapterDecodes(d: map<string, string>, r: ChapterRec)
    requires ChapterOk(r) && ChapterRead(d, r)
    ensures DecodeChapter(d, r) == r
  {
    assert IntToString(1) == "1";
    FlagEntryReads(d, "isTrash", r.isTrash);
    FlagEntryReads(d, "noNumber", r.noNumber);
    DigitInOfDigit(0, 0, 1);
    DigitInOfDigit(1, 0, 1);
  }

  /** Exporting a chapter and importing the lines into it again changes nothing. */
  lemma ChapterRoundTrip(r: ChapterRec)
    requires ChapterOk(r)
    ensures DecodeChapter(MetaDictOf(EncodeChapter(r)), r) == r
  {
    ChapterDict(r);
    ChapterLookups(r);
    ChapterDecodes(MetaDictOf(EncodeChapter(r)), r);
  }

  // ----- PlotLineYaml, PlotPointYaml -----

  function DecodePlotLine(d: map<string, string>, r: PlotLineRec): PlotLineRec
  {
    r.(withNotes := DecodeNotes(d, r.withNotes), shortName := MetaValue(d, "ShortName"),
       sections := Some(StringToList(MetaValue(d, "Sections"))))
  }

  function EncodePlotLine(r: PlotLineRec): seq<string>
  {
    EncodeBasic(r.withNotes.basic) + TextLine("ShortName", r.shortName) + ListLine("Sections", r.sections)
  }

  predicate PlotLineOk(r: PlotLineRec)
  {
    TextOk(r.withNotes.basic.title) && TextOk(r.shortName) && ListOk(r.sections)
  }

  function PlotLineEntries(r: PlotLineRec): map<string, string>
  {
    Entry("Title", r.withNotes.basic.title) + Entry("ShortName", r.shortName) + ListEntry("Sections", r.sections)
  }

  lemma PlotLineDict(r: PlotLineRec)
    requires PlotLineOk(r)
    ensures MetaDictOf(EncodePlotLine(r)) == PlotLineEntries(r)
  {
    PlotKeys();
    var t := EncodeBasic(r.withNotes.basic);
    var n := TextLine("ShortName", r.shortName);
    MetaDictOfAppend(t, n);
    MetaDictOfAppend(t + n, ListLine("Sections", r.sections));
    TextLineDict("Title", r.withNotes.basic.title);
    TextLineDict("ShortName", r.shortName);
    ListLineDict("Sections", r.sections);
  }

  /** Exporting a plot line and importing the lines into it again changes nothing. */
  lemma PlotLineRoundTrip(r: PlotLineRec)
    requires PlotLineOk(r)
    ensures DecodePlotLine(MetaDictOf(EncodePlotLine(r)), r) == r
  {
    var d := MetaDictOf(EncodePlotLine(r));
    PlotLineDict(r);
    PlotLineLookups(r);
    ListEntryReads(d, "Sections", r.sections);
  }

  function DecodePlotPoint(d: map<string, string>, r: PlotPointRec): PlotPointRec
  {
    r.(withNotes := DecodeNotes(d, r.withNotes), sectionAssoc := MetaValue(d, "Section"))
  }

  function EncodePlotPoint(r: PlotPointRec): seq<string>
  {
    EncodeBasic(r.withNotes.basic) + TextLine("Section", r.sectionAssoc)
  }

  predicate PlotPointOk(r: PlotPointRec)
  {
    TextOk(r.withNotes.basic.title) && TextOk(r.sectionAssoc)
  }

  /** Exporting a plot point and importing the lines into it again changes nothing. */
  lemma PlotPointRoundTrip(r: PlotPointRec)
    requires PlotPointOk(r)
    ensures DecodePlotPoint(MetaDictOf(EncodePlotPoint(r)), r) == r
  {
    PlotKeys();
    PlotDistinct();
    var title := Entry("Title", r.withNotes.basic.title);
    var section := Entry("Section", r.sectionAssoc);
    MetaDictOfAppend(EncodeBasic(r.withNotes.basic), TextLine("Section", r.sectionAssoc));
    TextLineDict("Title", r.withNotes.basic.title);
    TextLineDict("Section", r.sectionAssoc);
    assert MetaDictOf(EncodePlotPoint(r)) == title + section;
    LookupLeft(title, section, "Title");
    LookupRight(title, section, "Section");
  }

  // ----- SectionYaml -----

  const TagsKeySet: set<string> := {"Title", "Tags"}
  const AttributeKeySet: set<string> := {"type", "status", "scene", "append"}
  const DateKeySet: set<string> := {"Date", "Day", "Time"}
  const DurationKeySet: set<string> := {"LastsDays", "LastsHours", "LastsMinutes"}
  const ReferenceKeySet: set<string> := {"Characters", "Locations", "Items"}

  /** The key groups of the section codec are disjoint. */
  lemma SectionDisjoint()
    ensures TagsKeySet !! AttributeKeySet && TagsKeySet !! DateKeySet && TagsKeySet !! DurationKeySet
    ensures TagsKeySet !! ReferenceKeySet && AttributeKeySet !! DateKeySet && AttributeKeySet !! DurationKeySet
    ensures AttributeKeySet !! ReferenceKeySet && DateKeySet !! DurationKeySet && DateKeySet !! ReferenceKeySet
    ensures DurationKeySet !! ReferenceKeySet
  {
    SectionTagsAttributeDisjoint();
    SectionTagsDateDisjoint();
    SectionTagsDurationDisjoint();
    SectionTagsReferenceDisjoint();
    SectionAttributeDateDisjoint();
    SectionAttributeDurationDisjoint();
    SectionAttributeReferenceDisjoint();
    SectionDateDurationDisjoint();
    SectionDateReferenceDisjoint();
    SectionDurationReferenceDisjoint();
  }

  lemma SectionTagsAttributeDisjoint()
    ensures TagsKeySet !! AttributeKeySet
  {
  }

  lemma SectionTagsDateDisjoint()
    ensures TagsKeySet !! DateKeySet
  {
  }

  lemma SectionTagsDurationDisjoint()
    ensures TagsKeySet !! DurationKeySet
  {
  }

  lemma SectionTagsReferenceDisjoint()
    ensures TagsKeySet !! ReferenceKeySet
  {
  }

  lemma SectionAttributeDateDisjoint()
    ensures AttributeKeySet !! DateKeySet
  {
  }

  lemma SectionAttributeDurationDisjoint()
    ensures AttributeKeySet !! DurationKeySet
  {
  }

  lemma SectionAttributeReferenceDisjoint()
    ensures AttributeKeySet !! ReferenceKeySet
  {
  }

  lemma SectionDateDurationDisjoint()
    ensures DateKeySet !! DurationKeySet
  {
  }

  lemma SectionDateReferenceDisjoint()
    ensures DateKeySet !! ReferenceKeySet
  {
  }

  lemma SectionDurationReferenceDisjoint()
    ensures DurationKeySet !! ReferenceKeySet
  {
  }

  /**
   * The date, weekday and locale date after the date setter is given v: a
   * value equal to the current date changes nothing, any other one (None or
   * an ISO date, which is all verified_date returns) sets the three fields.
   */
  function DateAfter(r: SectionRec, v: Option<string>): (Option<string>, Option<nat>, Option<string>)
  {
    if v == r.date then (r.date, r.weekDay, r.localeDate) else DateFields(v)
  }

  /** SectionYaml.import_data: the tag-level fields, then the rest of the section's fields. */
  function DecodeSection(d: map<string, string>, r: SectionRec): SectionRec
  {
    SectionFieldsOf(d, r.(withTags := DecodeTags(d, r.withTags)))
  }

  /** The type, status, scene and append fields as import_data reads them. */
  function SectionAttributesOf(d: map<string, string>, r: SectionRec): SectionRec
  {
    r.(scType := Some(ChoiceOr(Some(MetaValueOr(d, "type", "0")), 0, 3, 1)),
       status := Some(ChoiceOr(MetaValue(d, "status"), 2, 5, 1)),
       scene := Some(ChoiceOr(MetaValue(d, "scene"), 1, 3, 0)),
       appendToPrev := FlagOf(d, "append"))
  }

  /** The date fields after the date setter, and the day only when no date is left. */
  function SectionDateOf(d: map<string, string>, r: SectionRec): SectionRec
  {
    var dates := DateAfter(r, VerifiedDate(MetaValue(d, "Date")));
    r.(date := dates.0, weekDay := dates.1, localeDate := dates.2,
       day := if Truthy(dates.0) then r.day else VerifiedIntString(MetaValue(d, "Day")))
  }

  /** The time and the three durations, None where not valid. */
  function SectionDurationsOf(d: map<string, string>, r: SectionRec): SectionRec
  {
    r.(time := VerifiedTime(MetaValue(d, "Time")),
       lastsDays := VerifiedIntString(MetaValue(d, "LastsDays")),
       lastsHours := VerifiedIntString(MetaValue(d, "LastsHours")),
       lastsMinutes := VerifiedIntString(MetaValue(d, "LastsMinutes")))
  }

  /** The three reference lists, split with string_to_list. */
  function SectionReferencesOf(d: map<string, string>, r: SectionRec): SectionRec
  {
    r.(characters := Some(StringToList(MetaValue(d, "Characters"))),
       locations := Some(StringToList(MetaValue(d, "Locations"))),
       items := Some(StringToList(MetaValue(d, "Items"))))
  }

  /** The fields after the tag-level ones: attributes, date, durations and references, in that order. */
  function SectionFieldsOf(d: map<string, string>, r: SectionRec): SectionRec
  {
    SectionReferencesOf(d, SectionDurationsOf(d, SectionDateOf(d, SectionAttributesOf(d, r))))
  }

  /** The tag lines, then the section's attribute, date, duration and reference lines. */
  function EncodeSection(r: SectionRec): seq<string>
    requires r.status.Some? && r.scene.Some?
  {
    EncodeTags(r.withTags) + r.AttributeLines() + r.DateLines() + r.DurationLines() + r.ReferenceLines()
  }

  /** The sections whose export reads back unchanged. */
  predicate SectionOk(r: SectionRec)
  {
    TagsOk(r.withTags)
    && r.scType.Some? && 0 <= r.scType.value <= 3
    && r.status.Some? && 1 <= r.status.value <= 5
    && r.scene.Some? && 0 <= r.scene.value <= 3
    && r.appendToPrev.Some?
    && DateOk(r.date) && (!Truthy(r.date) ==> IntStrOk(r.day)) && TimeOk(r.time)
    && DurationOk(r.lastsDays) && DurationOk(r.lastsHours) && DurationOk(r.lastsMinutes)
    && ListOk(r.characters) && ListOk(r.locations) && ListOk(r.items)
  }

  function AttributeEntries(r: SectionRec): (m: map<string, string>)
    ensures m.Keys <= AttributeKeySet
  {
    NumberEntry("type", r.scType.Some? && r.scType.value != 0, r.scType.GetOr(0))
    + NumberEntry("status", r.status.GetOr(1) > 1, r.status.GetOr(1))
    + NumberEntry("scene", r.scene.GetOr(0) > 0, r.scene.GetOr(0))
    + FlagEntry("append", r.appendToPrev)
  }

  function DateEntries(r: SectionRec): (m: map<string, string>)
    ensures m.Keys <= DateKeySet
  {
    (if Truthy(r.date) then Entry("Date", r.date) else Entry("Day", r.day)) + Entry("Time", r.time)
  }

  function DurationEntries(r: SectionRec): (m: map<string, string>)
    ensures m.Keys <= DurationKeySet
  {
    DurationEntry("LastsDays", r.lastsDays) + DurationEntry("LastsHours", r.lastsHours)
    + DurationEntry("LastsMinutes", r.lastsMinutes)
  }

  function ReferenceEntries(r: SectionRec): (m: map<string, string>)
    ensures m.Keys <= ReferenceKeySet
  {
    ListEntry("Characters", r.characters) + ListEntry("Locations", r.locations) + ListEntry("Items", r.items)
  }

  function SectionEntries(r: SectionRec): map<string, string>
  {
    TagsEntries(r.withTags) + AttributeEntries(r) + DateEntries(r) + DurationEntries(r) + ReferenceEntries(r)
  }

  lemma AttributeDict(r: SectionRec)
    requires SectionOk(r)
    ensures MetaDictOf(r.AttributeLines()) == AttributeEntries(r)
  {
    SectionKeys0();
    var ty := NumberLine("type", r.scType.Some? && r.scType.value != 0, r.scType.GetOr(0));
    var st := NumberLine("status", r.status.GetOr(1) > 1, r.status.GetOr(1));
    var sc := NumberLine("scene", r.scene.GetOr(0) > 0, r.scene.GetOr(0));
    var ap := FlagLine("append", r.appendToPrev);
    MetaDictOfAppend(ty, st);
    MetaDictOfAppend(ty + st, sc);
    MetaDictOfAppend(ty + st + sc, ap);
    NumberLineDict("type", r.scType.Some? && r.scType.value != 0, r.scType.GetOr(0));
    NumberLineDict("status", r.status.GetOr(1) > 1, r.status.GetOr(1));
    NumberLineDict("scene", r.scene.GetOr(0) > 0, r.scene.GetOr(0));
    FlagLineDict("append", r.appendToPrev);
  }

  lemma DateDict(r: SectionRec)
    requires SectionOk(r)
    ensures MetaDictOf(r.DateLines()) == DateEntries(r)
  {
    SectionKeys1();
    MetaDictOfAppend(if Truthy(r.date) then TextLine("Date", r.date) else TextLine("Day", r.day),
                     TextLine("Time", r.time));
    if Truthy(r.date) {
      DateTextOk(r.date);
      TextLineDict("Date", r.date);
    } else {
      IntStrTextOk(r.day);
      TextLineDict("Day", r.day);
    }
    TimeTextOk(r.time);
    TextLineDict("Time", r.time);
  }

  lemma DurationDict(r: SectionRec)
    requires SectionOk(r)
    ensures MetaDictOf(r.DurationLines()) == DurationEntries(r)
  {
    SectionKeys1();
    SectionKeys2();
    var a := DurationLine("LastsDays", r.lastsDays);
    var b := DurationLine("LastsHours", r.lastsHours);
    MetaDictOfAppend(a, b);
    MetaDictOfAppend(a + b, DurationLine("LastsMinutes", r.lastsMinutes));
    DurationLineDict("LastsDays", r.lastsDays);
    DurationLineDict("LastsHours", r.lastsHours);
    DurationLineDict("LastsMinutes", r.lastsMinutes);
  }

  lemma ReferenceDict(r: SectionRec)
    requires SectionOk(r)
    ensures MetaDictOf(r.ReferenceLines()) == ReferenceEntries(r)
  {
    SectionKeys2();
    var a := ListLine("Characters", r.characters);
    var b := ListLine("Locations", r.locations);
    MetaDictOfAppend(a, b);
    MetaDictOfAppend(a + b, ListLine("Items", r.items));
    ListLineDict("Characters", r.characters);
    ListLineDict("Locations", r.locations);
    ListLineDict("Items", r.items);
  }

  lemma SectionDict(r: SectionRec)
    requires SectionOk(r)
    ensures MetaDictOf(EncodeSection(r)) == SectionEntries(r)
  {
    var t := EncodeTags(r.withTags);
    var a := r.AttributeLines();
    var dl := r.DateLines();
    var u := r.DurationLines();
    MetaDictOfAppend(t, a);
    MetaDictOfAppend(t + a, dl);
    MetaDictOfAppend(t + a + dl, u);
    MetaDictOfAppend(t + a + dl + u, r.ReferenceLines());
    TagsDict(r.withTags);
    AttributeDict(r);
    DateDict(r);
    DurationDict(r);
    ReferenceDict(r);
  }

  lemma SectionAttributesDecode(d: map<string, string>, r: SectionRec)
    requires SectionOk(r) && SectionRead(d, r)
    ensures DecodeSection(d, r).scType == r.scType && DecodeSection(d, r).status == r.status
    ensures DecodeSection(d, r).scene == r.scene && DecodeSection(d, r).appendToPrev == r.appendToPrev
  {
    DigitInOfDigit(r.scType.value, 0, 3);
    if r.status.value > 1 {
      DigitInOfDigit(r.status.value, 2, 5);
    }
    if r.scene.value > 0 {
      DigitInOfDigit(r.scene.value, 1, 3);
    }
    FlagEntryReads(d, "append", r.appendToPrev);
  }

  lemma SectionDatesDecode(d: map<string, string>, r: SectionRec)
    requires SectionOk(r) && SectionRead(d, r)
    ensures DecodeSection(d, r).date == r.date && DecodeSection(d, r).weekDay == r.weekDay
    ensures DecodeSection(d, r).localeDate == r.localeDate && DecodeSection(d, r).day == r.day
    ensures DecodeSection(d, r).time == r.time
  {
    if r.date.Some? {
      IsoDateTrimmed(r.date.value);
    }
    assert VerifiedDate(MetaValue(d, "Date")) == r.date;
  }

  lemma SectionDurationsDecode(d: map<string, string>, r: SectionRec)
    requires SectionOk(r) && SectionRead(d, r)
    ensures DecodeSection(d, r).lastsDays == r.lastsDays && DecodeSection(d, r).lastsHours == r.lastsHours
    ensures DecodeSection(d, r).lastsMinutes == r.lastsMinutes
  {
    DurationEntryReads(d, "LastsDays", r.lastsDays);
    DurationEntryReads(d, "LastsHours", r.lastsHours);
    DurationEntryReads(d, "LastsMinutes", r.lastsMinutes);
  }

  lemma SectionReferencesDecode(d: map<string, string>, r: SectionRec)
    requires SectionOk(r) && SectionRead(d, r)
    ensures DecodeSection(d, r).characters == r.characters && DecodeSection(d, r).locations == r.locations
    ensures DecodeSection(d, r).items == r.items
  {
    ListEntryReads(d, "Characters", r.characters);
    ListEntryReads(d, "Locations", r.locations);
    ListEntryReads(d, "Items", r.items);
  }

  lemma SectionDecodes(d: map<string, string>, r: SectionRec)
    requires SectionOk(r) && SectionRead(d, r)
    ensures DecodeSection(d, r) == r
  {
    TagsDecodes(d, r.withTags);
    SectionAttributesDecode(d, r);
    SectionDatesDecode(d, r);
    SectionDurationsDecode(d, r);
    SectionReferencesDecode(d, r);
  }

  /** Exporting a section and importing the lines into it again changes nothing. */
  lemma SectionRoundTrip(r: SectionRec)
    requires SectionOk(r)
    ensures DecodeSection(MetaDictOf(EncodeSection(r)), r) == r
  {
    SectionDict(r);
    SectionLookups(r);
    SectionDecodes(MetaDictOf(EncodeSection(r)), r);
  }

  // ----- NovelYaml -----

  /** `workPhase in ('1', ..., '5')` followed by int(workPhase), else None. */
  function WorkPhaseOf(v: Option<string>): (r: Option<int>)
    ensures r.Some? ==> 1 <= r.value <= 5 && v == Some(IntToString(r.value))
  {
    if v.Some? && DigitIn(v.value, 1, 5).Some? then Some(DigitIn(v.value, 1, 5).value) else None
  }

  /** Each of '1' .. '5' is read as its number. */
  lemma WorkPhaseOfDigit(n: int)
    requires 1 <= n <= 5
    ensures WorkPhaseOf(Some(IntToString(n))) == Some(n)
  {
    DigitInOfDigit(n, 1, 5);
  }

  /** value[1:-1] for a value that is set and not empty; any other value is kept. */
  function Unquote(v: Option<string>): Option<string>
  {
    if Truthy(v) then Some(if |v.value| < 2 then "" else v.value[1..|v.value| - 1]) else v
  }

  /** A heading affix written in double quotes reads back with its own spaces. */
  lemma UnquoteQuoted(s: string)
    ensures Unquote(Some("\"" + s + "\"")) == Some(s)
  {
    var q := "\"" + s + "\"";
    assert q[1..|q| - 1] == s;
  }

  /**
   * A count after `if value is not None: element.count = int(value)`: an
   * absent value keeps the current count, a value int() refuses is an error.
   */
  function CountAfter(current: Option<int>, v: Option<string>): (r: Result<Option<int>>)
    ensures v.None? ==> r == Ok(current)
    ensures v.Some? ==> (r.Ok? <==> ParseInt(v.value).Some?)
    ensures v.Some? && r.Ok? ==> r.value == ParseInt(v.value)
  {
    if v.None? then Ok(current)
    else if ParseInt(v.value).None? then Err("invalid literal for int(): '" + v.value + "'")
    else Ok(ParseInt(v.value))
  }

  /**
   * Every field import_data sets except the two counts, which it may refuse:
   * the title, the settings, and the reference date after its setter.
   */
  function DecodeNovelFields(d: map<string, string>, r: NovelRec): NovelRec
  {
    var ref := ReferenceDateAfter(r.referenceDate, r.referenceWeekDay, VerifiedDate(MetaValue(d, "ReferenceDate")));
    NovelSettingsOf(d, r.(basic := DecodeBasic(d, r.basic))).(referenceDate := ref.0, referenceWeekDay := ref.1)
  }

  /** The flags, work phase, author, heading affixes and field labels as import_data reads them. */
  function NovelSettingsOf(d: map<string, string>, r: NovelRec): NovelRec
  {
    r.(renumberChapters := FlagOf(d, "renumberChapters"),
       renumberParts := FlagOf(d, "renumberParts"),
       renumberWithinParts := FlagOf(d, "renumberWithinParts"),
       romanChapterNumbers := FlagOf(d, "romanChapterNumbers"),
       romanPartNumbers := FlagOf(d, "romanPartNumbers"),
       saveWordCount := FlagOf(d, "saveWordCount"),
       workPhase := WorkPhaseOf(MetaValue(d, "workPhase")),
       authorName := MetaValue(d, "Author"),
       chapterHeadingPrefix := Unquote(MetaValue(d, "ChapterHeadingPrefix")),
       chapterHeadingSuffix := Unquote(MetaValue(d, "ChapterHeadingSuffix")),
       partHeadingPrefix := Unquote(MetaValue(d, "PartHeadingPrefix")),
       partHeadingSuffix := Unquote(MetaValue(d, "PartHeadingSuffix")),
       customPlotProgress := MetaValue(d, "CustomPlotProgress"),
       customCharacterization := MetaValue(d, "CustomCharacterization"),
       customWorldBuilding := MetaValue(d, "CustomWorldBuilding"),
       customGoal := MetaValue(d, "CustomGoal"),
       customConflict := MetaValue(d, "CustomConflict"),
       customOutcome := MetaValue(d, "CustomOutcome"),
       customChrBio := MetaValue(d, "CustomChrBio"),
       customChrGoals := MetaValue(d, "CustomChrGoals"))
  }

  /** NovelYaml.import_data; an int() failure on WordCountStart or WordTarget is an error. */
  function DecodeNovel(d: map<string, string>, r: NovelRec): Result<NovelRec>
  {
    DecodeNovelCounts(d, NovelSettingsOf(d, r.(basic := DecodeBasic(d, r.basic))))
  }

  /** The two counts, then the reference date, read into a project whose other fields are read. */
  function DecodeNovelCounts(d: map<string, string>, r: NovelRec): Result<NovelRec>
  {
    var ws := CountAfter(r.wordCountStart, MetaValue(d, "WordCountStart"));
    var wt := CountAfter(r.wordTarget, MetaValue(d, "WordTarget"));
    var ref := ReferenceDateAfter(r.referenceDate, r.referenceWeekDay, VerifiedDate(MetaValue(d, "ReferenceDate")));
    if ws.Err? then Err(ws.error)
    else if wt.Err? then Err(wt.error)
    else Ok(r.(wordCountStart := ws.value, wordTarget := wt.value, referenceDate := ref.0, referenceWeekDay := ref.1))
  }

  /**
   * The project after import_data stopped at a count int() refuses: every
   * field before the counts is read, WordCountStart too when only WordTarget
   * failed, and the reference date is not reached.
   */
  function NovelInterrupted(d: map<string, string>, r: NovelRec): NovelRec
  {
    CountsInterrupted(d, NovelSettingsOf(d, r.(basic := DecodeBasic(d, r.basic))))
  }

  /** The counts of a project whose count reading stopped: WordCountStart is read unless it is the one refused. */
  function CountsInterrupted(d: map<string, string>, r: NovelRec): NovelRec
  {
    var ws := CountAfter(r.wordCountStart, MetaValue(d, "WordCountStart"));
    if ws.Err? then r else r.(wordCountStart := ws.value)
  }

  /** The title line, then the flag, heading, label and count lines. */
  function EncodeNovel(r: NovelRec): seq<string>
  {
    EncodeBasic(r.basic) + r.FlagLines() + r.HeadingLines() + r.LabelLines() + r.CountLines()
  }

  /**
   * The projects whose export reads back unchanged. The counts need nothing:
   * a count that is not written keeps its value on import.
   */
  predicate NovelOk(r: NovelRec)
  {
    TextOk(r.basic.title)
    && r.renumberChapters.Some?
    && r.renumberParts.Some?
    && r.renumberWithinParts.Some?
    && r.romanChapterNumbers.Some?
    && r.romanPartNumbers.Some?
    && r.saveWordCount.Some?
    && (r.workPhase.None? || 1 <= r.workPhase.value <= 5)
    && TextOk(r.authorName)
    && r.chapterHeadingPrefix != Some("")
    && r.chapterHeadingSuffix != Some("")
    && r.partHeadingPrefix != Some("")
    && r.partHeadingSuffix != Some("")
    && TextOk(r.customPlotProgress)
    && TextOk(r.customCharacterization)
    && TextOk(r.customWorldBuilding)
    && TextOk(r.customGoal)
    && TextOk(r.customConflict)
    && TextOk(r.customOutcome)
    && TextOk(r.customChrBio)
    && TextOk(r.customChrGoals)
    && DateOk(r.referenceDate)
  }

  const NovelFlagKeySet: set<string> := {"renumberChapters", "renumberParts", "renumberWithinParts", "romanChapterNumbers", "romanPartNumbers", "saveWordCount", "workPhase"}
  const NovelHeadingKeySet: set<string> := {"Author", "ChapterHeadingPrefix", "ChapterHeadingSuffix", "PartHeadingPrefix", "PartHeadingSuffix"}
  const NovelLabelKeySet: set<string> := {"CustomPlotProgress", "CustomCharacterization", "CustomWorldBuilding", "CustomGoal", "CustomConflict", "CustomOutcome", "CustomChrBio", "CustomChrGoals"}
  const NovelCountKeySet: set<string> := {"WordCountStart", "WordTarget", "ReferenceDate"}

  /** The key groups of the novel codec are disjoint. */
  lemma NovelDisjoint()
    ensures {"Title"} !! NovelFlagKeySet && {"Title"} !! NovelHeadingKeySet && {"Title"} !! NovelLabelKeySet
    ensures {"Title"} !! NovelCountKeySet && NovelFlagKeySet !! NovelHeadingKeySet && NovelFlagKeySet !! NovelLabelKeySet
    ensures NovelFlagKeySet !! NovelCountKeySet && NovelHeadingKeySet !! NovelLabelKeySet && NovelHeadingKeySet !! NovelCountKeySet
    ensures NovelLabelKeySet !! NovelCountKeySet
  {
    NovelTitleFlagDisjoint();
    NovelTitleHeadingDisjoint();
    NovelTitleLabelDisjoint();
    NovelTitleCountDisjoint();
    NovelFlagHeadingDisjoint();
    NovelFlagLabelDisjoint();
    NovelFlagCountDisjoint();
    NovelHeadingLabelDisjoint();
    NovelHeadingCountDisjoint();
    NovelLabelCountDisjoint();
  }

  lemma NovelTitleFlagDisjoint()
    ensures {"Title"} !! NovelFlagKeySet
  {
  }

  lemma NovelTitleHeadingDisjoint()
    ensures {"Title"} !! NovelHeadingKeySet
  {
  }

  lemma NovelTitleLabelDisjoint()
    ensures {"Title"} !! NovelLabelKeySet
  {
  }

  lemma NovelTitleCountDisjoint()
    ensures {"Title"} !! NovelCountKeySet
  {
  }

  lemma NovelFlagHeadingDisjoint()
    ensures NovelFlagKeySet !! NovelHeadingKeySet
  {
  }

  lemma NovelFlagLabelDisjoint()
    ensures NovelFlagKeySet !! NovelLabelKeySet
  {
  }

  lemma NovelFlagCountDisjoint()
    ensures NovelFlagKeySet !! NovelCountKeySet
  {
  }

  lemma NovelHeadingLabelDisjoint()
    ensures NovelHeadingKeySet !! NovelLabelKeySet
  {
  }

  lemma NovelHeadingCountDisjoint()
    ensures NovelHeadingKeySet !! NovelCountKeySet
  {
  }

  lemma NovelLabelCountDisjoint()
    ensures NovelLabelKeySet !! NovelCountKeySet
  {
  }

  function NovelFlagEntries(r: NovelRec): (m: map<string, string>)
    ensures m.Keys <= NovelFlagKeySet
  {
    FlagEntry("renumberChapters", r.renumberChapters)
    + FlagEntry("renumberParts", r.renumberParts)
    + FlagEntry("renumberWithinParts", r.renumberWithinParts)
    + FlagEntry("romanChapterNumbers", r.romanChapterNumbers)
    + FlagEntry("romanPartNumbers", r.romanPartNumbers)
    + FlagEntry("saveWordCount", r.saveWordCount)
    + NumberEntry("workPhase", r.workPhase.Some?, r.workPhase.GetOr(0))
  }

  function NovelHeadingEntries(r: NovelRec): (m: map<string, string>)
    ensures m.Keys <= NovelHeadingKeySet
  {
    Entry("Author", r.authorName)
    + QuotedEntry("ChapterHeadingPrefix", r.chapterHeadingPrefix)
    + QuotedEntry("ChapterHeadingSuffix", r.chapterHeadingSuffix)
    + QuotedEntry("PartHeadingPrefix", r.partHeadingPrefix)
    + QuotedEntry("PartHeadingSuffix", r.partHeadingSuffix)
  }

  function NovelLabelEntries(r: NovelRec): (m: map<string, string>)
    ensures m.Keys <= NovelLabelKeySet
  {
    var sceneLabels := Entry("CustomPlotProgress", r.customPlotProgress)
      + Entry("CustomCharacterization", r.customCharacterization)
      + Entry("CustomWorldBuilding", r.customWorldBuilding)
      + Entry("CustomGoal", r.customGoal);
    assert sceneLabels.Keys <= {"CustomPlotProgress", "CustomCharacterization", "CustomWorldBuilding", "CustomGoal"};
    sceneLabels
    + Entry("CustomConflict", r.customConflict)
    + Entry("CustomOutcome", r.customOutcome)
    + Entry("CustomChrBio", r.customChrBio)
    + Entry("CustomChrGoals", r.customChrGoals)
  }

  function NovelCountEntries(r: NovelRec): (m: map<string, string>)
    ensures m.Keys <= NovelCountKeySet
  {
    CountEntry("WordCountStart", r.wordCountStart)
    + CountEntry("WordTarget", r.wordTarget)
    + Entry("ReferenceDate", r.referenceDate)
  }

  function NovelEntries(r: NovelRec): map<string, string>
  {
    Entry("Title", r.basic.title) + NovelFlagEntries(r) + NovelHeadingEntries(r) + NovelLabelEntries(r)
    + NovelCountEntries(r)
  }

  lemma NovelFlagDict(r: NovelRec)
    ensures MetaDictOf(r.FlagLines()) == NovelFlagEntries(r)
  {
    NovelKeys();
    MetaDictOfAppend(FlagLine("renumberChapters", r.renumberChapters), FlagLine("renumberParts", r.renumberParts));
    MetaDictOfAppend(FlagLine("renumberChapters", r.renumberChapters) + FlagLine("renumberParts", r.renumberParts), FlagLine("renumberWithinParts", r.renumberWithinParts));
    MetaDictOfAppend(FlagLine("renumberChapters", r.renumberChapters) + FlagLine("renumberParts", r.renumberParts) + FlagLine("renumberWithinParts", r.renumberWithinParts), FlagLine("romanChapterNumbers", r.romanChapterNumbers));
    MetaDictOfAppend(FlagLine("renumberChapters", r.renumberChapters) + FlagLine("renumberParts", r.renumberParts) + FlagLine("renumberWithinParts", r.renumberWithinParts) + FlagLine("romanChapterNumbers", r.romanChapterNumbers), FlagLine("romanPartNumbers", r.romanPartNumbers));
    MetaDictOfAppend(FlagLine("renumberChapters", r.renumberChapters) + FlagLine("renumberParts", r.renumberParts) + FlagLine("renumberWithinParts", r.renumberWithinParts) + FlagLine("romanChapterNumbers", r.romanChapterNumbers) + FlagLine("romanPartNumbers", r.romanPartNumbers), FlagLine("saveWordCount", r.saveWordCount));
    MetaDictOfAppend(FlagLine("renumberChapters", r.renumberChapters) + FlagLine("renumberParts", r.renumberParts) + FlagLine("renumberWithinParts", r.renumberWithinParts) + FlagLine("romanChapterNumbers", r.romanChapterNumbers) + FlagLine("romanPartNumbers", r.romanPartNumbers) + FlagLine("saveWordCount", r.saveWordCount), NumberLine("workPhase", r.workPhase.Some?, r.workPhase.GetOr(0)));
    FlagLineDict("renumberChapters", r.renumberChapters);
    FlagLineDict("renumberParts", r.renumberParts);
    FlagLineDict("renumberWithinParts", r.renumberWithinParts);
    FlagLineDict("romanChapterNumbers", r.romanChapterNumbers);
    FlagLineDict("romanPartNumbers", r.romanPartNumbers);
    FlagLineDict("saveWordCount", r.saveWordCount);
    NumberLineDict("workPhase", r.workPhase.Some?, r.workPhase.GetOr(0));
  }

  lemma NovelHeadingDict(r: NovelRec)
    requires TextOk(r.authorName)
    ensures MetaDictOf(r.HeadingLines()) == NovelHeadingEntries(r)
  {
    NovelKeys();
    MetaDictOfAppend(TextLine("Author", r.authorName), QuotedLine("ChapterHeadingPrefix", r.chapterHeadingPrefix));
    MetaDictOfAppend(TextLine("Author", r.authorName) + QuotedLine("ChapterHeadingPrefix", r.chapterHeadingPrefix), QuotedLine("ChapterHeadingSuffix", r.chapterHeadingSuffix));
    MetaDictOfAppend(TextLine("Author", r.authorName) + QuotedLine("ChapterHeadingPrefix", r.chapterHeadingPrefix) + QuotedLine("ChapterHeadingSuffix", r.chapterHeadingSuffix), QuotedLine("PartHeadingPrefix", r.partHeadingPrefix));
    MetaDictOfAppend(TextLine("Author", r.authorName) + QuotedLine("ChapterHeadingPrefix", r.chapterHeadingPrefix) + QuotedLine("ChapterHeadingSuffix", r.chapterHeadingSuffix) + QuotedLine("PartHeadingPrefix", r.partHeadingPrefix), QuotedLine("PartHeadingSuffix", r.partHeadingSuffix));
    TextLineDict("Author", r.authorName);
    QuotedLineDict("ChapterHeadingPrefix", r.chapterHeadingPrefix);
    QuotedLineDict("ChapterHeadingSuffix", r.chapterHeadingSuffix);
    QuotedLineDict("PartHeadingPrefix", r.partHeadingPrefix);
    QuotedLineDict("PartHeadingSuffix", r.partHeadingSuffix);
  }

  lemma NovelLabelDict(r: NovelRec)
    requires TextOk(r.customPlotProgress) && TextOk(r.customCharacterization) && TextOk(r.customWorldBuilding) && TextOk(r.customGoal)
    requires TextOk(r.customConflict) && TextOk(r.customOutcome) && TextOk(r.customChrBio) && TextOk(r.customChrGoals)
    ensures MetaDictOf(r.LabelLines()) == NovelLabelEntries(r)
  {
    NovelKeys();
    MetaDictOfAppend(TextLine("CustomPlotProgress", r.customPlotProgress), TextLine("CustomCharacterization", r.customCharacterization));
    MetaDictOfAppend(TextLine("CustomPlotProgress", r.customPlotProgress) + TextLine("CustomCharacterization", r.customCharacterization), TextLine("CustomWorldBuilding", r.customWorldBuilding));
    MetaDictOfAppend(TextLine("CustomPlotProgress", r.customPlotProgress) + TextLine("CustomCharacterization", r.customCharacterization) + TextLine("CustomWorldBuilding", r.customWorldBuilding), TextLine("CustomGoal", r.customGoal));
    MetaDictOfAppend(TextLine("CustomPlotProgress", r.customPlotProgress) + TextLine("CustomCharacterization", r.customCharacterization) + TextLine("CustomWorldBuilding", r.customWorldBuilding) + TextLine("CustomGoal", r.customGoal), TextLine("CustomConflict", r.customConflict));
    MetaDictOfAppend(TextLine("CustomPlotProgress", r.customPlotProgress) + TextLine("CustomCharacterization", r.customCharacterization) + TextLine("CustomWorldBuilding", r.customWorldBuilding) + TextLine("CustomGoal", r.customGoal) + TextLine("CustomConflict", r.customConflict), TextLine("CustomOutcome", r.customOutcome));
    MetaDictOfAppend(TextLine("CustomPlotProgress", r.customPlotProgress) + TextLine("CustomCharacterization", r.customCharacterization) + TextLine("CustomWorldBuilding", r.customWorldBuilding) + TextLine("CustomGoal", r.customGoal) + TextLine("CustomConflict", r.customConflict) + TextLine("CustomOutcome", r.customOutcome), TextLine("CustomChrBio", r.customChrBio));
    MetaDictOfAppend(TextLine("CustomPlotProgress", r.customPlotProgress) + TextLine("CustomCharacterization", r.customCharacterization) + TextLine("CustomWorldBuilding", r.customWorldBuilding) + TextLine("CustomGoal", r.customGoal) + TextLine("CustomConflict", r.customConflict) + TextLine("CustomOutcome", r.customOutcome) + TextLine("CustomChrBio", r.customChrBio), TextLine("CustomChrGoals", r.customChrGoals));
    TextLineDict("CustomPlotProgress", r.customPlotProgress);
    TextLineDict("CustomCharacterization", r.customCharacterization);
    TextLineDict("CustomWorldBuilding", r.customWorldBuilding);
    TextLineDict("CustomGoal", r.customGoal);
    TextLineDict("CustomConflict", r.customConflict);
    TextLineDict("CustomOutcome", r.customOutcome);
    TextLineDict("CustomChrBio", r.customChrBio);
    TextLineDict("CustomChrGoals", r.customChrGoals);
  }

  lemma NovelCountDict(r: NovelRec)
    requires DateOk(r.referenceDate)
    ensures MetaDictOf(r.CountLines()) == NovelCountEntries(r)
  {
    NovelKeys();
    MetaDictOfAppend(CountLine("WordCountStart", r.wordCountStart), CountLine("WordTarget", r.wordTarget));
    MetaDictOfAppend(CountLine("WordCountStart", r.wordCountStart) + CountLine("WordTarget", r.wordTarget), TextLine("ReferenceDate", r.referenceDate));
    CountLineDict("WordCountStart", r.wordCountStart);
    CountLineDict("WordTarget", r.wordTarget);
    DateTextOk(r.referenceDate);
    TextLineDict("ReferenceDate", r.referenceDate);
  }

  lemma NovelDict(r: NovelRec)
    requires NovelOk(r)
    ensures MetaDictOf(EncodeNovel(r)) == NovelEntries(r)
  {
    var t := EncodeBasic(r.basic);
    var f := r.FlagLines();
    var h := r.HeadingLines();
    var l := r.LabelLines();
    MetaDictOfAppend(t, f);
    MetaDictOfAppend(t + f, h);
    MetaDictOfAppend(t + f + h, l);
    MetaDictOfAppend(t + f + h + l, r.CountLines());
    NovelKeys();
    TextLineDict("Title", r.basic.title);
    NovelFlagDict(r);
    NovelHeadingDict(r);
    NovelLabelDict(r);
    NovelCountDict(r);
  }

  lemma NovelFlagsDecode(d: map<string, string>, r: NovelRec)
    requires NovelOk(r) && NovelRead(d, r)
    ensures DecodeNovelFields(d, r).renumberChapters == r.renumberChapters
    ensures DecodeNovelFields(d, r).renumberParts == r.renumberParts
    ensures DecodeNovelFields(d, r).renumberWithinParts == r.renumberWithinParts
    ensures DecodeNovelFields(d, r).romanChapterNumbers == r.romanChapterNumbers
    ensures DecodeNovelFields(d, r).romanPartNumbers == r.romanPartNumbers
    ensures DecodeNovelFields(d, r).saveWordCount == r.saveWordCount
    ensures DecodeNovelFields(d, r).workPhase == r.workPhase
  {
    FlagEntryReads(d, "renumberChapters", r.renumberChapters);
    FlagEntryReads(d, "renumberParts", r.renumberParts);
    FlagEntryReads(d, "renumberWithinParts", r.renumberWithinParts);
    FlagEntryReads(d, "romanChapterNumbers", r.romanChapterNumbers);
    FlagEntryReads(d, "romanPartNumbers", r.romanPartNumbers);
    FlagEntryReads(d, "saveWordCount", r.saveWordCount);
    if r.workPhase.Some? {
      WorkPhaseOfDigit(r.workPhase.value);
    }
  }

  lemma NovelHeadingsDecode(d: map<string, string>, r: NovelRec)
    requires NovelOk(r) && NovelRead(d, r)
    ensures DecodeNovelFields(d, r).authorName == r.authorName
    ensures DecodeNovelFields(d, r).chapterHeadingPrefix == r.chapterHeadingPrefix
    ensures DecodeNovelFields(d, r).chapterHeadingSuffix == r.chapterHeadingSuffix
    ensures DecodeNovelFields(d, r).partHeadingPrefix == r.partHeadingPrefix
    ensures DecodeNovelFields(d, r).partHeadingSuffix == r.partHeadingSuffix
  {
    if Truthy(r.chapterHeadingPrefix) { UnquoteQuoted(r.chapterHeadingPrefix.value); }
    if Truthy(r.chapterHeadingSuffix) { UnquoteQuoted(r.chapterHeadingSuffix.value); }
    if Truthy(r.partHeadingPrefix) { UnquoteQuoted(r.partHeadingPrefix.value); }
    if Truthy(r.partHeadingSuffix) { UnquoteQuoted(r.partHeadingSuffix.value); }
  }

  lemma NovelReferenceDecode(d: map<string, string>, r: NovelRec)
    requires NovelOk(r) && NovelRead(d, r)
    ensures DecodeNovelFields(d, r).referenceDate == r.referenceDate
    ensures DecodeNovelFields(d, r).referenceWeekDay == r.referenceWeekDay
  {
    if r.referenceDate.Some? {
      IsoDateTrimmed(r.referenceDate.value);
    }
    assert VerifiedDate(MetaValue(d, "ReferenceDate")) == r.referenceDate;
  }

  lemma NovelLabelsDecode(d: map<string, string>, r: NovelRec)
    requires NovelOk(r) && NovelRead(d, r)
    ensures DecodeNovelFields(d, r).basic == r.basic
    ensures DecodeNovelFields(d, r).customPlotProgress == r.customPlotProgress
    ensures DecodeNovelFields(d, r).customCharacterization == r.customCharacterization
    ensures DecodeNovelFields(d, r).customWorldBuilding == r.customWorldBuilding
    ensures DecodeNovelFields(d, r).customGoal == r.customGoal
    ensures DecodeNovelFields(d, r).customConflict == r.customConflict
    ensures DecodeNovelFields(d, r).customOutcome == r.customOutcome
    ensures DecodeNovelFields(d, r).customChrBio == r.customChrBio
    ensures DecodeNovelFields(d, r).customChrGoals == r.customChrGoals
  {
    EntryReads(d, "Title", r.basic.title);
    EntryReads(d, "CustomPlotProgress", r.customPlotProgress);
    EntryReads(d, "CustomCharacterization", r.customCharacterization);
    EntryReads(d, "CustomWorldBuilding", r.customWorldBuilding);
    EntryReads(d, "CustomGoal", r.customGoal);
    EntryReads(d, "CustomConflict", r.customConflict);
    EntryReads(d, "CustomOutcome", r.customOutcome);
    EntryReads(d, "CustomChrBio", r.customChrBio);
    EntryReads(d, "CustomChrGoals", r.customChrGoals);
  }

  lemma NovelFieldsDecode(d: map<string, string>, r: NovelRec)
    requires NovelOk(r) && NovelRead(d, r)
    ensures DecodeNovelFields(d, r) == r
  {
    NovelFlagsDecode(d, r);
    NovelHeadingsDecode(d, r);
    NovelReferenceDecode(d, r);
    NovelLabelsDecode(d, r);
  }

  lemma NovelDecodes(d: map<string, string>, r: NovelRec)
    requires NovelOk(r) && NovelRead(d, r)
    ensures DecodeNovel(d, r) == Ok(r)
  {
    NovelFieldsDecode(d, r);
    CountEntryReads(r.wordCountStart, "WordCountStart", MetaValue(d, "WordCountStart"));
    CountEntryReads(r.wordTarget, "WordTarget", MetaValue(d, "WordTarget"));
  }

  /** A count reads back from its own line, and a count with no line stays as it is. */
  lemma CountEntryReads(current: Option<int>, k: string, v: Option<string>)
    requires v == MetaValue(CountEntry(k, current), k)
    ensures CountAfter(current, v) == Ok(current)
  {
    if current.Some? && current.value != 0 {
      ParseIntOfIntToString(current.value);
    }
  }

  /** Exporting the project settings and importing the lines into them again changes nothing. */
  lemma NovelRoundTrip(r: NovelRec)
    requires NovelOk(r)
    ensures DecodeNovel(MetaDictOf(EncodeNovel(r)), r) == Ok(r)
  {
    NovelDict(r);
    NovelLookups(r);
    NovelDecodes(MetaDictOf(EncodeNovel(r)), r);
  }

  // ----- lookups -----

  /** A dictionary d holds, under each key of the tagged element codec, what the line for that key writes. */
  predicate TagsRead(d: map<string, string>, r: TagsRec)
  {
    MetaValue(d, "Title") == MetaValue(Entry("Title", r.withNotes.basic.title), "Title")
    && MetaValue(d, "Tags") == MetaValue(ListEntry("Tags", r.tags), "Tags")
  }

  /** The tagged element entries hold, under each key, the entry of its own line. */
  lemma TagsLookups(r: TagsRec)
    ensures MetaValue(TagsEntries(r), "Title") == MetaValue(Entry("Title", r.withNotes.basic.title), "Title")
    ensures MetaValue(TagsEntries(r), "Tags") == MetaValue(ListEntry("Tags", r.tags), "Tags")
  {
    var m0 := Entry("Title", r.withNotes.basic.title);
    var m1 := ListEntry("Tags", r.tags);
    var m2 := m0 + m1;
    assert TagsEntries(r) == m2;
    LookupLeft(m0, m1, "Title");
    LookupRight(m0, m1, "Tags");
  }

  /** A dictionary d holds, under each key of the world element codec, what the line for that key writes. */
  predicate WorldRead(d: map<string, string>, r: WorldRec)
  {
    MetaValue(d, "Title") == MetaValue(Entry("Title", r.withTags.withNotes.basic.title), "Title")
    && MetaValue(d, "Tags") == MetaValue(ListEntry("Tags", r.withTags.tags), "Tags")
    && MetaValue(d, "Aka") == MetaValue(Entry("Aka", r.aka), "Aka")
  }

  /** The world element entries hold, under each key, the entry of its own line. */
  lemma WorldLookups(r: WorldRec)
    ensures MetaValue(WorldEntries(r), "Title") == MetaValue(Entry("Title", r.withTags.withNotes.basic.title), "Title")
    ensures MetaValue(WorldEntries(r), "Tags") == MetaValue(ListEntry("Tags", r.withTags.tags), "Tags")
    ensures MetaValue(WorldEntries(r), "Aka") == MetaValue(Entry("Aka", r.aka), "Aka")
  {
    var m0 := Entry("Title", r.withTags.withNotes.basic.title);
    var m1 := ListEntry("Tags", r.withTags.tags);
    var m2 := m0 + m1;
    var m3 := Entry("Aka", r.aka);
    var m4 := m2 + m3;
    assert WorldEntries(r) == m4;
    LookupLeft(m2, m3, "Title"); LookupLeft(m0, m1, "Title");
    LookupLeft(m2, m3, "Tags"); LookupRight(m0, m1, "Tags");
    LookupRight(m2, m3, "Aka");
  }

  /** A dictionary d holds, under each key of the character codec, what the line for that key writes. */
  predicate CharacterRead(d: map<string, string>, r: CharacterRec)
  {
    MetaValue(d, "Title") == MetaValue(Entry("Title", r.world.withTags.withNotes.basic.title), "Title")
    && MetaValue(d, "Tags") == MetaValue(ListEntry("Tags", r.world.withTags.tags), "Tags")
    && MetaValue(d, "Aka") == MetaValue(Entry("Aka", r.world.aka), "Aka")
    && MetaValue(d, "major") == MetaValue(FlagEntry("major", r.isMajor), "major")
    && MetaValue(d, "FullName") == MetaValue(Entry("FullName", r.fullName), "FullName")
    && MetaValue(d, "BirthDate") == MetaValue(Entry("BirthDate", r.birthDate), "BirthDate")
    && MetaValue(d, "DeathDate") == MetaValue(Entry("DeathDate", r.deathDate), "DeathDate")
  }

  /** The character entries hold, under each key, the entry of its own line. */
  lemma CharacterLookups0(r: CharacterRec)
    ensures MetaValue(CharacterEntries(r), "Title") == MetaValue(Entry("Title", r.world.withTags.withNotes.basic.title), "Title")
    ensures MetaValue(CharacterEntries(r), "Tags") == MetaValue(ListEntry("Tags", r.world.withTags.tags), "Tags")
    ensures MetaValue(CharacterEntries(r), "Aka") == MetaValue(Entry("Aka", r.world.aka), "Aka")
    ensures MetaValue(CharacterEntries(r), "major") == MetaValue(FlagEntry("major", r.isMajor), "major")
    ensures MetaValue(CharacterEntries(r), "FullName") == MetaValue(Entry("FullName", r.fullName), "FullName")
  {
    var m0 := Entry("Title", r.world.withTags.withNotes.basic.title);
    var m1 := ListEntry("Tags", r.world.withTags.tags);
    var m2 := m0 + m1;
    var m3 := Entry("Aka", r.world.aka);
    var m4 := m2 + m3;
    var m5 := FlagEntry("major", r.isMajor);
    var m6 := Entry("FullName", r.fullName);
    var m7 := m5 + m6;
    var m8 := Entry("BirthDate", r.birthDate);
    var m9 := m7 + m8;
    var m10 := Entry("DeathDate", r.deathDate);
    var m11 := m9 + m10;
    var m12 := m4 + m11;
    assert CharacterEntries(r) == m12;
    assert "Title"[0] != "major"[0]; LookupLeft(m4, m11, "Title"); LookupLeft(m2, m3, "Title"); LookupLeft(m0, m1, "Title");
    LookupLeft(m4, m11, "Tags"); LookupLeft(m2, m3, "Tags"); LookupRight(m0, m1, "Tags");
    LookupLeft(m4, m11, "Aka"); LookupRight(m2, m3, "Aka");
    assert "major"[0] != "Title"[0]; LookupRight(m4, m11, "major"); LookupLeft(m9, m10, "major"); LookupLeft(m7, m8, "major"); LookupLeft(m5, m6, "major");
    LookupRight(m4, m11, "FullName"); LookupLeft(m9, m10, "FullName"); LookupLeft(m7, m8, "FullName"); LookupRight(m5, m6, "FullName");
  }

  lemma CharacterLookups1(r: CharacterRec)
    ensures MetaValue(CharacterEntries(r), "BirthDate") == MetaValue(Entry("BirthDate", r.birthDate), "BirthDate")
    ensures MetaValue(CharacterEntries(r), "DeathDate") == MetaValue(Entry("DeathDate", r.deathDate), "DeathDate")
  {
    var m0 := Entry("Title", r.world.withTags.withNotes.basic.title);
    var m1 := ListEntry("Tags", r.world.withTags.tags);
    var m2 := m0 + m1;
    var m3 := Entry("Aka", r.world.aka);
    var m4 := m2 + m3;
    var m5 := FlagEntry("major", r.isMajor);
    var m6 := Entry("FullName", r.fullName);
    var m7 := m5 + m6;
    var m8 := Entry("BirthDate", r.birthDate);
    var m9 := m7 + m8;
    var m10 := Entry("DeathDate", r.deathDate);
    var m11 := m9 + m10;
    var m12 := m4 + m11;
    assert CharacterEntries(r) == m12;
    LookupRight(m4, m11, "BirthDate"); assert "BirthDate"[0] != "DeathDate"[0]; LookupLeft(m9, m10, "BirthDate"); LookupRight(m7, m8, "BirthDate");
    LookupRight(m4, m11, "DeathDate"); assert "DeathDate"[0] != "BirthDate"[0]; LookupRight(m9, m10, "DeathDate");
  }

  /** A dictionary d holds, under each key of the chapter codec, what the line for that key writes. */
  predicate ChapterRead(d: map<string, string>, r: ChapterRec)
  {
    MetaValue(d, "Title") == MetaValue(Entry("Title", r.withNotes.basic.title), "Title")
    && MetaValue(d, "type") == MetaValue(NumberEntry("type", r.chType.Some? && r.chType.value != 0, r.chType.GetOr(0)), "type")
    && MetaValue(d, "level") == MetaValue(NumberEntry("level", r.chLevel == Some(1), 1), "level")
    && MetaValue(d, "isTrash") == MetaValue(FlagEntry("isTrash", r.isTrash), "isTrash")
    && MetaValue(d, "noNumber") == MetaValue(FlagEntry("noNumber", r.noNumber), "noNumber")
  }

  /** The chapter entries hold, under each key, the entry of its own line. */
  lemma ChapterLookups(r: ChapterRec)
    ensures MetaValue(ChapterEntries(r), "Title") == MetaValue(Entry("Title", r.withNotes.basic.title), "Title")
    ensures MetaValue(ChapterEntries(r), "type") == MetaValue(NumberEntry("type", r.chType.Some? && r.chType.value != 0, r.chType.GetOr(0)), "type")
    ensures MetaValue(ChapterEntries(r), "level") == MetaValue(NumberEntry("level", r.chLevel == Some(1), 1), "level")
    ensures MetaValue(ChapterEntries(r), "isTrash") == MetaValue(FlagEntry("isTrash", r.isTrash), "isTrash")
    ensures MetaValue(ChapterEntries(r), "noNumber") == MetaValue(FlagEntry("noNumber", r.noNumber), "noNumber")
  {
    var m0 := Entry("Title", r.withNotes.basic.title);
    var m1 := NumberEntry("type", r.chType.Some? && r.chType.value != 0, r.chType.GetOr(0));
    var m2 := NumberEntry("level", r.chLevel == Some(1), 1);
    var m3 := m1 + m2;
    var m4 := FlagEntry("isTrash", r.isTrash);
    var m5 := m3 + m4;
    var m6 := FlagEntry("noNumber", r.noNumber);
    var m7 := m5 + m6;
    var m8 := m0 + m7;
    assert ChapterEntries(r) == m8;
    assert "Title"[0] != "level"[0]; LookupLeft(m0, m7, "Title");
    LookupRight(m0, m7, "type"); LookupLeft(m5, m6, "type"); LookupLeft(m3, m4, "type"); LookupLeft(m1, m2, "type");
    assert "level"[0] != "Title"[0]; LookupRight(m0, m7, "level"); LookupLeft(m5, m6, "level"); LookupLeft(m3, m4, "level"); LookupRight(m1, m2, "level");
    LookupRight(m0, m7, "isTrash"); LookupLeft(m5, m6, "isTrash"); LookupRight(m3, m4, "isTrash");
    LookupRight(m0, m7, "noNumber"); LookupRight(m5, m6, "noNumber");
  }

  /** A dictionary d holds, under each key of the plot line codec, what the line for that key writes. */
  predicate PlotLineRead(d: map<string, string>, r: PlotLineRec)
  {
    MetaValue(d, "Title") == MetaValue(Entry("Title", r.withNotes.basic.title), "Title")
    && MetaValue(d, "ShortName") == MetaValue(Entry("ShortName", r.shortName), "ShortName")
    && MetaValue(d, "Sections") == MetaValue(ListEntry("Sections", r.sections), "Sections")
  }

  /** The plot line entries hold, under each key, the entry of its own line. */
  lemma PlotLineLookups(r: PlotLineRec)
    ensures MetaValue(PlotLineEntries(r), "Title") == MetaValue(Entry("Title", r.withNotes.basic.title), "Title")
    ensures MetaValue(PlotLineEntries(r), "ShortName") == MetaValue(Entry("ShortName", r.shortName), "ShortName")
    ensures MetaValue(PlotLineEntries(r), "Sections") == MetaValue(ListEntry("Sections", r.sections), "Sections")
  {
    var m0 := Entry("Title", r.withNotes.basic.title);
    var m1 := Entry("ShortName", r.shortName);
    var m2 := m0 + m1;
    var m3 := ListEntry("Sections", r.sections);
    var m4 := m2 + m3;
    assert PlotLineEntries(r) == m4;
    LookupLeft(m2, m3, "Title"); LookupLeft(m0, m1, "Title");
    LookupLeft(m2, m3, "ShortName"); LookupRight(m0, m1, "ShortName");
    LookupRight(m2, m3, "Sections");
  }

  /** A dictionary d holds, under each key of the section codec, what the line for that key writes. */
  predicate SectionRead(d: map<string, string>, r: SectionRec)
  {
    MetaValue(d, "Title") == MetaValue(Entry("Title", r.withTags.withNotes.basic.title), "Title")
    && MetaValue(d, "Tags") == MetaValue(ListEntry("Tags", r.withTags.tags), "Tags")
    && MetaValue(d, "type") == MetaValue(NumberEntry("type", r.scType.Some? && r.scType.value != 0, r.scType.GetOr(0)), "type")
    && MetaValue(d, "status") == MetaValue(NumberEntry("status", r.status.GetOr(1) > 1, r.status.GetOr(1)), "status")
    && MetaValue(d, "scene") == MetaValue(NumberEntry("scene", r.scene.GetOr(0) > 0, r.scene.GetOr(0)), "scene")
    && MetaValue(d, "append") == MetaValue(FlagEntry("append", r.appendToPrev), "append")
    && MetaValue(d, "Date") == MetaValue((if Truthy(r.date) then Entry("Date", r.date) else Entry("Day", r.day)), "Date")
    && MetaValue(d, "Day") == MetaValue((if Truthy(r.date) then Entry("Date", r.date) else Entry("Day", r.day)), "Day")
    && MetaValue(d, "Time") == MetaValue(Entry("Time", r.time), "Time")
    && MetaValue(d, "LastsDays") == MetaValue(DurationEntry("LastsDays", r.lastsDays), "LastsDays")
    && MetaValue(d, "LastsHours") == MetaValue(DurationEntry("LastsHours", r.lastsHours), "LastsHours")
    && MetaValue(d, "LastsMinutes") == MetaValue(DurationEntry("LastsMinutes", r.lastsMinutes), "LastsMinutes")
    && MetaValue(d, "Characters") == MetaValue(ListEntry("Characters", r.characters), "Characters")
    && MetaValue(d, "Locations") == MetaValue(ListEntry("Locations", r.locations), "Locations")
    && MetaValue(d, "Items") == MetaValue(ListEntry("Items", r.items), "Items")
  }

  lemma SectionTagsLookups(r: SectionRec)
    ensures MetaValue(SectionEntries(r), "Title") == MetaValue(Entry("Title", r.withTags.withNotes.basic.title), "Title")
    ensures MetaValue(SectionEntries(r), "Tags") == MetaValue(ListEntry("Tags", r.withTags.tags), "Tags")
  {
    SectionDisjoint();
    Pick5(TagsEntries(r.withTags), AttributeEntries(r), DateEntries(r), DurationEntries(r), ReferenceEntries(r),
          TagsKeySet, AttributeKeySet, DateKeySet, DurationKeySet, ReferenceKeySet);
    Pick2(Entry("Title", r.withTags.withNotes.basic.title), ListEntry("Tags", r.withTags.tags),
          {"Title"}, {"Tags"});
  }

  lemma SectionAttributeLookups(r: SectionRec)
    ensures MetaValue(SectionEntries(r), "type") == MetaValue(NumberEntry("type", r.scType.Some? && r.scType.value != 0, r.scType.GetOr(0)), "type")
    ensures MetaValue(SectionEntries(r), "status") == MetaValue(NumberEntry("status", r.status.GetOr(1) > 1, r.status.GetOr(1)), "status")
    ensures MetaValue(SectionEntries(r), "scene") == MetaValue(NumberEntry("scene", r.scene.GetOr(0) > 0, r.scene.GetOr(0)), "scene")
    ensures MetaValue(SectionEntries(r), "append") == MetaValue(FlagEntry("append", r.appendToPrev), "append")
  {
    SectionDisjoint();
    Pick5(TagsEntries(r.withTags), AttributeEntries(r), DateEntries(r), DurationEntries(r), ReferenceEntries(r),
          TagsKeySet, AttributeKeySet, DateKeySet, DurationKeySet, ReferenceKeySet);
    Pick4(NumberEntry("type", r.scType.Some? && r.scType.value != 0, r.scType.GetOr(0)), NumberEntry("status", r.status.GetOr(1) > 1, r.status.GetOr(1)), NumberEntry("scene", r.scene.GetOr(0) > 0, r.scene.GetOr(0)), FlagEntry("append", r.appendToPrev),
          {"type"}, {"status"}, {"scene"}, {"append"});
  }

  lemma SectionDateLookups(r: SectionRec)
    ensures MetaValue(SectionEntries(r), "Date") == MetaValue((if Truthy(r.date) then Entry("Date", r.date) else Entry("Day", r.day)), "Date")
    ensures MetaValue(SectionEntries(r), "Day") == MetaValue((if Truthy(r.date) then Entry("Date", r.date) else Entry("Day", r.day)), "Day")
    ensures MetaValue(SectionEntries(r), "Time") == MetaValue(Entry("Time", r.time), "Time")
  {
    SectionDisjoint();
    Pick5(TagsEntries(r.withTags), AttributeEntries(r), DateEntries(r), DurationEntries(r), ReferenceEntries(r),
          TagsKeySet, AttributeKeySet, DateKeySet, DurationKeySet, ReferenceKeySet);
    Pick2((if Truthy(r.date) then Entry("Date", r.date) else Entry("Day", r.day)), Entry("Time", r.time),
          {"Date", "Day"}, {"Time"});
  }

  lemma SectionDurationLookups(r: SectionRec)
    ensures MetaValue(SectionEntries(r), "LastsDays") == MetaValue(DurationEntry("LastsDays", r.lastsDays), "LastsDays")
    ensures MetaValue(SectionEntries(r), "LastsHours") == MetaValue(DurationEntry("LastsHours", r.lastsHours), "LastsHours")
    ensures MetaValue(SectionEntries(r), "LastsMinutes") == MetaValue(DurationEntry("LastsMinutes", r.lastsMinutes), "LastsMinutes")
  {
    SectionDisjoint();
    Pick5(TagsEntries(r.withTags), AttributeEntries(r), DateEntries(r), DurationEntries(r), ReferenceEntries(r),
          TagsKeySet, AttributeKeySet, DateKeySet, DurationKeySet, ReferenceKeySet);
    Pick3(DurationEntry("LastsDays", r.lastsDays), DurationEntry("LastsHours", r.lastsHours), DurationEntry("LastsMinutes", r.lastsMinutes),
          {"LastsDays"}, {"LastsHours"}, {"LastsMinutes"});
  }

  lemma SectionReferenceLookups(r: SectionRec)
    ensures MetaValue(SectionEntries(r), "Characters") == MetaValue(ListEntry("Characters", r.characters), "Characters")
    ensures MetaValue(SectionEntries(r), "Locations") == MetaValue(ListEntry("Locations", r.locations), "Locations")
    ensures MetaValue(SectionEntries(r), "Items") == MetaValue(ListEntry("Items", r.items), "Items")
  {
    SectionDisjoint();
    Pick5(TagsEntries(r.withTags), AttributeEntries(r), DateEntries(r), DurationEntries(r), ReferenceEntries(r),
          TagsKeySet, AttributeKeySet, DateKeySet, DurationKeySet, ReferenceKeySet);
    Pick3(ListEntry("Characters", r.characters), ListEntry("Locations", r.locations), ListEntry("Items", r.items),
          {"Characters"}, {"Locations"}, {"Items"});
  }

  /** The section entries hold, under each key, the entry of its own line. */
  lemma SectionLookups(r: SectionRec)
    ensures SectionRead(SectionEntries(r), r)
  {
    SectionTagsLookups(r);
    SectionAttributeLookups(r);
    SectionDateLookups(r);
    SectionDurationLookups(r);
    SectionReferenceLookups(r);
  }

  /** A dictionary d holds, under each key of the novel codec, what the line for that key writes. */
  predicate NovelRead(d: map<string, string>, r: NovelRec)
  {
    MetaValue(d, "Title") == MetaValue(Entry("Title", r.basic.title), "Title")
    && MetaValue(d, "renumberChapters") == MetaValue(FlagEntry("renumberChapters", r.renumberChapters), "renumberChapters")
    && MetaValue(d, "renumberParts") == MetaValue(FlagEntry("renumberParts", r.renumberParts), "renumberParts")
    && MetaValue(d, "renumberWithinParts") == MetaValue(FlagEntry("renumberWithinParts", r.renumberWithinParts), "renumberWithinParts")
    && MetaValue(d, "romanChapterNumbers") == MetaValue(FlagEntry("romanChapterNumbers", r.romanChapterNumbers), "romanChapterNumbers")
    && MetaValue(d, "romanPartNumbers") == MetaValue(FlagEntry("romanPartNumbers", r.romanPartNumbers), "romanPartNumbers")
    && MetaValue(d, "saveWordCount") == MetaValue(FlagEntry("saveWordCount", r.saveWordCount), "saveWordCount")
    && MetaValue(d, "workPhase") == MetaValue(NumberEntry("workPhase", r.workPhase.Some?, r.workPhase.GetOr(0)), "workPhase")
    && MetaValue(d, "Author") == MetaValue(Entry("Author", r.authorName), "Author")
    && MetaValue(d, "ChapterHeadingPrefix") == MetaValue(QuotedEntry("ChapterHeadingPrefix", r.chapterHeadingPrefix), "ChapterHeadingPrefix")
    && MetaValue(d, "ChapterHeadingSuffix") == MetaValue(QuotedEntry("ChapterHeadingSuffix", r.chapterHeadingSuffix), "ChapterHeadingSuffix")
    && MetaValue(d, "PartHeadingPrefix") == MetaValue(QuotedEntry("PartHeadingPrefix", r.partHeadingPrefix), "PartHeadingPrefix")
    && MetaValue(d, "PartHeadingSuffix") == MetaValue(QuotedEntry("PartHeadingSuffix", r.partHeadingSuffix), "PartHeadingSuffix")
    && MetaValue(d, "CustomPlotProgress") == MetaValue(Entry("CustomPlotProgress", r.customPlotProgress), "CustomPlotProgress")
    && MetaValue(d, "CustomCharacterization") == MetaValue(Entry("CustomCharacterization", r.customCharacterization), "CustomCharacterization")
    && MetaValue(d, "CustomWorldBuilding") == MetaValue(Entry("CustomWorldBuilding", r.customWorldBuilding), "CustomWorldBuilding")
    && MetaValue(d, "CustomGoal") == MetaValue(Entry("CustomGoal", r.customGoal), "CustomGoal")
    && MetaValue(d, "CustomConflict") == MetaValue(Entry("CustomConflict", r.customConflict), "CustomConflict")
    && MetaValue(d, "CustomOutcome") == MetaValue(Entry("CustomOutcome", r.customOutcome), "CustomOutcome")
    && MetaValue(d, "CustomChrBio") == MetaValue(Entry("CustomChrBio", r.customChrBio), "CustomChrBio")
    && MetaValue(d, "CustomChrGoals") == MetaValue(Entry("CustomChrGoals", r.customChrGoals), "CustomChrGoals")
    && MetaValue(d, "WordCountStart") == MetaValue(CountEntry("WordCountStart", r.wordCountStart), "WordCountStart")
    && MetaValue(d, "WordTarget") == MetaValue(CountEntry("WordTarget", r.wordTarget), "WordTarget")
    && MetaValue(d, "ReferenceDate") == MetaValue(Entry("ReferenceDate", r.referenceDate), "ReferenceDate")
  }

  lemma NovelFlagLookups(r: NovelRec)
    ensures MetaValue(NovelEntries(r), "renumberChapters") == MetaValue(FlagEntry("renumberChapters", r.renumberChapters), "renumberChapters")
    ensures MetaValue(NovelEntries(r), "renumberParts") == MetaValue(FlagEntry("renumberParts", r.renumberParts), "renumberParts")
    ensures MetaValue(NovelEntries(r), "renumberWithinParts") == MetaValue(FlagEntry("renumberWithinParts", r.renumberWithinParts), "renumberWithinParts")
    ensures MetaValue(NovelEntries(r), "romanChapterNumbers") == MetaValue(FlagEntry("romanChapterNumbers", r.romanChapterNumbers), "romanChapterNumbers")
    ensures MetaValue(NovelEntries(r), "romanPartNumbers") == MetaValue(FlagEntry("romanPartNumbers", r.romanPartNumbers), "romanPartNumbers")
    ensures MetaValue(NovelEntries(r), "saveWordCount") == MetaValue(FlagEntry("saveWordCount", r.saveWordCount), "saveWordCount")
    ensures MetaValue(NovelEntries(r), "workPhase") == MetaValue(NumberEntry("workPhase", r.workPhase.Some?, r.workPhase.GetOr(0)), "workPhase")
  {
    NovelDisjoint();
    Pick5(Entry("Title", r.basic.title), NovelFlagEntries(r), NovelHeadingEntries(r), NovelLabelEntries(r), NovelCountEntries(r),
          {"Title"}, NovelFlagKeySet, NovelHeadingKeySet, NovelLabelKeySet, NovelCountKeySet);
    Pick7(FlagEntry("renumberChapters", r.renumberChapters), FlagEntry("renumberParts", r.renumberParts), FlagEntry("renumberWithinParts", r.renumberWithinParts), FlagEntry("romanChapterNumbers", r.romanChapterNumbers), FlagEntry("romanPartNumbers", r.romanPartNumbers), FlagEntry("saveWordCount", r.saveWordCount), NumberEntry("workPhase", r.workPhase.Some?, r.workPhase.GetOr(0)),
          {"renumberChapters"}, {"renumberParts"}, {"renumberWithinParts"}, {"romanChapterNumbers"}, {"romanPartNumbers"}, {"saveWordCount"}, {"workPhase"});
  }

  lemma NovelHeadingLookups(r: NovelRec)
    ensures MetaValue(NovelEntries(r), "Author") == MetaValue(Entry("Author", r.authorName), "Author")
    ensures MetaValue(NovelEntries(r), "ChapterHeadingPrefix") == MetaValue(QuotedEntry("ChapterHeadingPrefix", r.chapterHeadingPrefix), "ChapterHeadingPrefix")
    ensures MetaValue(NovelEntries(r), "ChapterHeadingSuffix") == MetaValue(QuotedEntry("ChapterHeadingSuffix", r.chapterHeadingSuffix), "ChapterHeadingSuffix")
    ensures MetaValue(NovelEntries(r), "PartHeadingPrefix") == MetaValue(QuotedEntry("PartHeadingPrefix", r.partHeadingPrefix), "PartHeadingPrefix")
    ensures MetaValue(NovelEntries(r), "PartHeadingSuffix") == MetaValue(QuotedEntry("PartHeadingSuffix", r.partHeadingSuffix), "PartHeadingSuffix")
  {
    NovelDisjoint();
    Pick5(Entry("Title", r.basic.title), NovelFlagEntries(r), NovelHeadingEntries(r), NovelLabelEntries(r), NovelCountEntries(r),
          {"Title"}, NovelFlagKeySet, NovelHeadingKeySet, NovelLabelKeySet, NovelCountKeySet);
    Pick5(Entry("Author", r.authorName), QuotedEntry("ChapterHeadingPrefix", r.chapterHeadingPrefix), QuotedEntry("ChapterHeadingSuffix", r.chapterHeadingSuffix), QuotedEntry("PartHeadingPrefix", r.partHeadingPrefix), QuotedEntry("PartHeadingSuffix", r.partHeadingSuffix),
          {"Author"}, {"ChapterHeadingPrefix"}, {"ChapterHeadingSuffix"}, {"PartHeadingPrefix"}, {"PartHeadingSuffix"});
  }

  lemma NovelLabelLookups(r: NovelRec)
    ensures MetaValue(NovelEntries(r), "CustomPlotProgress") == MetaValue(Entry("CustomPlotProgress", r.customPlotProgress), "CustomPlotProgress")
    ensures MetaValue(NovelEntries(r), "CustomCharacterization") == MetaValue(Entry("CustomCharacterization", r.customCharacterization), "CustomCharacterization")
    ensures MetaValue(NovelEntries(r), "CustomWorldBuilding") == MetaValue(Entry("CustomWorldBuilding", r.customWorldBuilding), "CustomWorldBuilding")
    ensures MetaValue(NovelEntries(r), "CustomGoal") == MetaValue(Entry("CustomGoal", r.customGoal), "CustomGoal")
    ensures MetaValue(NovelEntries(r), "CustomConflict") == MetaValue(Entry("CustomConflict", r.customConflict), "CustomConflict")
    ensures MetaValue(NovelEntries(r), "CustomOutcome") == MetaValue(Entry("CustomOutcome", r.customOutcome), "CustomOutcome")
    ensures MetaValue(NovelEntries(r), "CustomChrBio") == MetaValue(Entry("CustomChrBio", r.customChrBio), "CustomChrBio")
    ensures MetaValue(NovelEntries(r), "CustomChrGoals") == MetaValue(Entry("CustomChrGoals", r.customChrGoals), "CustomChrGoals")
  {
    NovelDisjoint();
    Pick5(Entry("Title", r.basic.title), NovelFlagEntries(r), NovelHeadingEntries(r), NovelLabelEntries(r), NovelCountEntries(r),
          {"Title"}, NovelFlagKeySet, NovelHeadingKeySet, NovelLabelKeySet, NovelCountKeySet);
    Pick8(Entry("CustomPlotProgress", r.customPlotProgress), Entry("CustomCharacterization", r.customCharacterization), Entry("CustomWorldBuilding", r.customWorldBuilding), Entry("CustomGoal", r.customGoal), Entry("CustomConflict", r.customConflict), Entry("CustomOutcome", r.customOutcome), Entry("CustomChrBio", r.customChrBio), Entry("CustomChrGoals", r.customChrGoals),
          {"CustomPlotProgress"}, {"CustomCharacterization"}, {"CustomWorldBuilding"}, {"CustomGoal"}, {"CustomConflict"}, {"CustomOutcome"}, {"CustomChrBio"}, {"CustomChrGoals"});
  }

  lemma NovelCountLookups(r: NovelRec)
    ensures MetaValue(NovelEntries(r), "WordCountStart") == MetaValue(CountEntry("WordCountStart", r.wordCountStart), "WordCountStart")
    ensures MetaValue(NovelEntries(r), "WordTarget") == MetaValue(CountEntry("WordTarget", r.wordTarget), "WordTarget")
    ensures MetaValue(NovelEntries(r), "ReferenceDate") == MetaValue(Entry("ReferenceDate", r.referenceDate), "ReferenceDate")
  {
    NovelDisjoint();
    Pick5(Entry("Title", r.basic.title), NovelFlagEntries(r), NovelHeadingEntries(r), NovelLabelEntries(r), NovelCountEntries(r),
          {"Title"}, NovelFlagKeySet, NovelHeadingKeySet, NovelLabelKeySet, NovelCountKeySet);
    Pick3(CountEntry("WordCountStart", r.wordCountStart), CountEntry("WordTarget", r.wordTarget), Entry("ReferenceDate", r.referenceDate),
          {"WordCountStart"}, {"WordTarget"}, {"ReferenceDate"});
  }

  /** The novel entries hold, under each key, the entry of its own line. */
  lemma NovelLookups(r: NovelRec)
    ensures NovelRead(NovelEntries(r), r)
  {
    NovelDisjoint();
    Pick5(Entry("Title", r.basic.title), NovelFlagEntries(r), NovelHeadingEntries(r), NovelLabelEntries(r), NovelCountEntries(r),
          {"Title"}, NovelFlagKeySet, NovelHeadingKeySet, NovelLabelKeySet, NovelCountKeySet);
    NovelFlagLookups(r);
    NovelHeadingLookups(r);
    NovelLabelLookups(r);
    NovelCountLookups(r);
  }
}
