/**
 * The element codec classes of the .mdnov format, as one class: each Python
 * subclass of BasicElementYaml becomes an import and an export method here,
 * and the metadata dictionary the last import built is the class's state.
 * Importing assigns the element's properties through their setters; each
 * import is proved to leave the element's value as the matching decoding
 * function gives it, and each export to append the matching encoding.
 */
module MdnovYaml {
  import opened Wrappers
  import opened Dicts
  import opened Strings
  import opened NovxGlobals
  import opened ModelBases
  import opened Elements
  import opened Sections
  import opened Novels
  import opened YamlMeta
  import opened YamlCodecs

  /** The strippedTags loop: every tag stripped, in order. */
  method StripTags(tags: seq<string>) returns (strippedTags: seq<string>)
    ensures strippedTags == StripEach(tags)
  {
    strippedTags := [];
    var i := 0;
    while i < |tags|
      invariant 0 <= i <= |tags|
      invariant strippedTags == StripEach(tags)[..i]
    {
      StripEachSnoc(tags, i);
      strippedTags := strippedTags + [Strip(tags[i])];
      i := i + 1;
    }
    TakeAll(StripEach(tags));
  }

  class ElementYaml {
    /** _metaDict */
    var metaDict: map<string, string>

    constructor()
      ensures metaDict == map[]
    {
      metaDict := map[];
    }

    /** The loop of BasicElementYaml.import_data: one entry per line holding ':', a later key winning. */
    method ReadLines(yaml: seq<string>)
      modifies this
      ensures metaDict == MetaDictOf(yaml)
    {
      var d: map<string, string> := map[];
      var i := 0;
      while i < |yaml|
        invariant 0 <= i <= |yaml|
        invariant d == MetaDictOf(yaml[..i])
      {
        var entry := yaml[i];
        var colon := Find(entry, ":");
        MetaDictOfSnoc(yaml, i);
        if colon.Some? {
          var metaKey := Strip(entry[..colon.value]);
          var metaValue := Strip(entry[colon.value + 1..]);
          UpdateIsUnion(d, metaKey, metaValue);
          d := d[metaKey := metaValue];
        } else {
          UnionEmpty(d);
        }
        i := i + 1;
      }
      assert yaml[..i] == yaml;
      metaDict := d;
    }

    /** BasicElementYaml.import_data: the title from 'Title', None when absent. */
    method ImportBasic(element: BasicElement, yaml: seq<string>)
      modifies this, element`title, element.onChange
      ensures metaDict == MetaDictOf(yaml)
      ensures element.Rec() == DecodeBasic(metaDict, old(element.Rec()))
    {
      ReadLines(yaml);
      element.SetTitle(MetaValue(metaDict, "Title"));
    }

    /** BasicElementYaml.export_data: the Title line when the title is set and not empty. */
    method ExportBasic(element: BasicElement, yaml: seq<string>) returns (r: seq<string>)
      ensures r == yaml + EncodeBasic(element.Rec())
    {
      r := yaml;
      if Truthy(element.title) {
        r := r + ["Title" + ": " + element.title.value];
      }
    }

    /** BasicElementTagsYaml.import_data: the Tags value split with string_to_list, each entry stripped. */
    method ImportTags(element: BasicElementTags, yaml: seq<string>)
      modifies this, element`tags, element.withNotes.basic`title, element.OnChange()
      ensures metaDict == MetaDictOf(yaml)
      ensures element.Rec() == DecodeTags(metaDict, old(element.Rec()))
    {
      ImportBasic(element.withNotes.basic, yaml);
      var strippedTags := StripTags(StringToList(MetaValue(metaDict, "Tags")));
      element.SetTags(Some(strippedTags));
    }

    /** BasicElementTagsYaml.export_data: the Title line, then the Tags line when there are tags. */
    method ExportTags(element: BasicElementTags, yaml: seq<string>) returns (r: seq<string>)
      ensures r == yaml + EncodeTags(element.Rec())
    {
      r := ExportBasic(element.withNotes.basic, yaml);
      if NonEmpty(element.tags) {
        var line := "Tags: " + ListToString(element.tags.value);
        assert line == "Tags" + ": " + ListToString(element.tags.value);
        r := r + [line];
      }
    }

    /** WorldElementYaml.import_data: the tag-level fields, then aka from 'Aka'. */
    method ImportWorld(element: WorldElement, yaml: seq<string>)
      modifies this, element`aka, element.withTags`tags, element.withTags.withNotes.basic`title
      modifies element.OnChange()
      ensures metaDict == MetaDictOf(yaml)
      ensures element.Rec() == DecodeWorld(metaDict, old(element.Rec()))
    {
      ImportTags(element.withTags, yaml);
      element.SetAka(MetaValue(metaDict, "Aka"));
    }

    /** WorldElementYaml.export_data: the tag-level lines, then the Aka line. */
    method ExportWorld(element: WorldElement, yaml: seq<string>) returns (r: seq<string>)
      ensures r == yaml + EncodeWorld(element.Rec())
    {
      r := ExportTags(element.withTags, yaml);
      r := r + TextLine("Aka", element.aka);
    }

    /** CharacterYaml.import_data: the world-element fields, then major, FullName and the two dates. */
    method ImportCharacter(element: Character, yaml: seq<string>)
      modifies this, element`isMajor, element`fullName, element`birthDate, element`deathDate
      modifies element.world`aka, element.world.withTags`tags, element.world.withTags.withNotes.basic`title
      modifies element.OnChange()
      ensures metaDict == MetaDictOf(yaml)
      ensures element.Rec() == DecodeCharacter(metaDict, old(element.Rec()))
    {
      ImportWorld(element.world, yaml);
      SetCharacterFields(element, FlagOf(metaDict, "major"), MetaValue(metaDict, "FullName"),
        VerifiedDate(MetaValue(metaDict, "BirthDate")), VerifiedDate(MetaValue(metaDict, "DeathDate")));
    }

    /** The four character-level assignments of CharacterYaml.import_data, in order. */
    method SetCharacterFields(element: Character, isMajor: Option<bool>, fullName: Option<string>,
                              birthDate: Option<string>, deathDate: Option<string>)
      modifies element`isMajor, element`fullName, element`birthDate, element`deathDate, element.OnChange()
      ensures element.Rec() == old(element.Rec()).(isMajor := isMajor, fullName := fullName,
                                                   birthDate := birthDate, deathDate := deathDate)
    {
      element.SetIsMajor(isMajor);
      element.SetFullName(fullName);
      element.SetBirthDate(birthDate);
      element.SetDeathDate(deathDate);
    }

    /** CharacterYaml.export_data: the world-element lines, then major, FullName, BirthDate, DeathDate. */
    method ExportCharacter(element: Character, yaml: seq<string>) returns (r: seq<string>)
      ensures r == yaml + EncodeCharacter(element.Rec())
    {
      ghost var rec := element.Rec();
      r := ExportWorld(element.world, yaml);
      ghost var worldLines := r;
      r := r + FlagLine("major", element.isMajor) + TextLine("FullName", element.fullName)
        + TextLine("BirthDate", element.birthDate) + TextLine("DeathDate", element.deathDate);
      AppendFour(worldLines, FlagLine("major", rec.isMajor), TextLine("FullName", rec.fullName),
        TextLine("BirthDate", rec.birthDate), TextLine("DeathDate", rec.deathDate));
      AppendAssoc(yaml, EncodeWorld(rec.world), rec.CharacterLines());
    }

    /** ChapterYaml.import_data: the title, then type, level and the two flags. */
    method ImportChapter(element: Chapter, yaml: seq<string>)
      modifies this, element`chType, element`chLevel, element`isTrash, element`noNumber
      modifies element.withNotes.basic`title, element.OnChange()
      ensures metaDict == MetaDictOf(yaml)
      ensures element.Rec() == DecodeChapter(metaDict, old(element.Rec()))
    {
      ImportBasic(element.withNotes.basic, yaml);
      var typeStr := MetaValueOr(metaDict, "type", "0");
      var chType := 1;
      if typeStr == "0" || typeStr == "1" {
        chType := if typeStr == "0" then 0 else 1;
      }
      ChapterTypeChoice(typeStr);
      var chLevel := if MetaValue(metaDict, "level") == Some("1") then 1 else 2;
      SetChapterFields(element, Some(chType), Some(chLevel), FlagOf(metaDict, "isTrash"), FlagOf(metaDict, "noNumber"));
    }

    /** The four chapter-level assignments of ChapterYaml.import_data, in order. */
    method SetChapterFields(element: Chapter, chType: Option<int>, chLevel: Option<int>,
                            isTrash: Option<bool>, noNumber: Option<bool>)
      modifies element`chType, element`chLevel, element`isTrash, element`noNumber, element.OnChange()
      ensures element.Rec() == old(element.Rec()).(chType := chType, chLevel := chLevel,
                                                   isTrash := isTrash, noNumber := noNumber)
    {
      element.SetChType(chType);
      element.SetChLevel(chLevel);
      element.SetIsTrash(isTrash);
      element.SetNoNumber(noNumber);
    }

    /** ChapterYaml.export_data: the Title line, then type, level and the flags. */
    method ExportChapter(element: Chapter, yaml: seq<string>) returns (r: seq<string>)
      ensures r == yaml + EncodeChapter(element.Rec())
    {
      r := ExportBasic(element.withNotes.basic, yaml);
      var rec := element.Rec();
      var typeLine: seq<string> := [];
      if rec.chType.Some? && rec.chType.value != 0 {
        typeLine := ["type" + ": " + IntToString(rec.chType.value)];
      }
      var levelLine: seq<string> := [];
      if rec.chLevel == Some(1) {
        levelLine := ["level" + ": " + IntToString(1)];
      }
      var lines := typeLine + levelLine + FlagLine("isTrash", rec.isTrash) + FlagLine("noNumber", rec.noNumber);
      assert lines == ChapterLines(rec);
      AppendAssoc(yaml, EncodeBasic(rec.withNotes.basic), lines);
      r := r + lines;
    }

    /** PlotLineYaml.import_data: the title, then ShortName, and Sections split with string_to_list. */
    method ImportPlotLine(element: PlotLine, yaml: seq<string>)
      modifies this, element`shortName, element`sections, element.withNotes.basic`title, element.OnChange()
      ensures metaDict == MetaDictOf(yaml)
      ensures element.Rec() == DecodePlotLine(metaDict, old(element.Rec()))
    {
      ImportBasic(element.withNotes.basic, yaml);
      element.SetShortName(MetaValue(metaDict, "ShortName"));
      element.SetSections(Some(StringToList(MetaValue(metaDict, "Sections"))));
    }

    /** PlotLineYaml.export_data: the Title line, then ShortName and Sections. */
    method ExportPlotLine(element: PlotLine, yaml: seq<string>) returns (r: seq<string>)
      ensures r == yaml + EncodePlotLine(element.Rec())
    {
      r := ExportBasic(element.withNotes.basic, yaml);
      r := r + TextLine("ShortName", element.shortName) + ListLine("Sections", element.sections);
    }

    /** PlotPointYaml.import_data: the title, then the section association from 'Section'. */
    method ImportPlotPoint(element: PlotPoint, yaml: seq<string>)
      modifies this, element`sectionAssoc, element.withNotes.basic`title, element.OnChange()
      ensures metaDict == MetaDictOf(yaml)
      ensures element.Rec() == DecodePlotPoint(metaDict, old(element.Rec()))
    {
      ImportBasic(element.withNotes.basic, yaml);
      element.SetSectionAssoc(MetaValue(metaDict, "Section"));
    }

    /** PlotPointYaml.export_data: the Title line, then the Section line. */
    method ExportPlotPoint(element: PlotPoint, yaml: seq<string>) returns (r: seq<string>)
      ensures r == yaml + EncodePlotPoint(element.Rec())
    {
      r := ExportBasic(element.withNotes.basic, yaml);
      r := r + TextLine("Section", element.sectionAssoc);
    }

    /** SectionYaml.import_data: the tag-level fields, then attributes, date or day, time, durations and references. */
    method ImportSection(element: Section, yaml: seq<string>)
      modifies this, element.withTags`tags, element.withTags.withNotes.basic`title
      modifies element`scType, element`status, element`scene, element`appendToPrev
      modifies element`date, element`weekDay, element`localeDate, element`day, element`time
      modifies element`lastsDays, element`lastsHours, element`lastsMinutes
      modifies element`characters, element`locations, element`items, element.OnChange()
      ensures metaDict == MetaDictOf(yaml)
      ensures element.Rec() == DecodeSection(metaDict, old(element.Rec()))
    {
      ImportTags(element.withTags, yaml);
      assert element.Rec() == old(element.Rec()).(withTags := DecodeTags(metaDict, old(element.Rec()).withTags));
      SetSectionFields(element, metaDict);
    }

    /** The assignments of SectionYaml.import_data after the tag-level fields, group by group. */
    method SetSectionFields(element: Section, d: map<string, string>)
      modifies element`scType, element`status, element`scene, element`appendToPrev
      modifies element`date, element`weekDay, element`localeDate, element`day, element`time
      modifies element`lastsDays, element`lastsHours, element`lastsMinutes
      modifies element`characters, element`locations, element`items, element.OnChange()
      ensures element.Rec() == SectionFieldsOf(d, old(element.Rec()))
    {
      SetSectionAttributes(element, d);
      SetSectionDate(element, d);
      ghost var dated := element.Rec();
      SetSectionDurations(element, d);
      assert element.Rec() == SectionDurationsOf(d, dated);
      SetSectionReferences(element, d);
    }

    /** The type, status, scene and append assignments of SectionYaml.import_data. */
    method SetSectionAttributes(element: Section, d: map<string, string>)
      modifies element`scType, element`status, element`scene, element`appendToPrev, element.OnChange()
      ensures element.Rec() == SectionAttributesOf(d, old(element.Rec()))
    {
      element.SetScType(Some(ChoiceOr(Some(MetaValueOr(d, "type", "0")), 0, 3, 1)));
      element.SetStatus(Some(ChoiceOr(MetaValue(d, "status"), 2, 5, 1)));
      element.SetScene(Some(ChoiceOr(MetaValue(d, "scene"), 1, 3, 0)));
      element.SetAppendToPrev(FlagOf(d, "append"));
    }

    /** The date is verified and assigned; the day is read only when the element has no date afterwards. */
    method SetSectionDate(element: Section, d: map<string, string>)
      modifies element`date, element`weekDay, element`localeDate, element`day, element.OnChange()
      ensures element.Rec() == SectionDateOf(d, old(element.Rec()))
    {
      element.SetDate(VerifiedDate(MetaValue(d, "Date")));
      if !Truthy(element.date) {
        element.SetDay(VerifiedIntString(MetaValue(d, "Day")));
      }
    }

    /** The time and duration assignments of SectionYaml.import_data. */
    method SetSectionDurations(element: Section, d: map<string, string>)
      modifies element`time, element`lastsDays, element`lastsHours, element`lastsMinutes, element.OnChange()
      ensures element.Rec() == SectionDurationsOf(d, old(element.Rec()))
    {
      element.SetTime(VerifiedTime(MetaValue(d, "Time")));
      element.SetLastsDays(VerifiedIntString(MetaValue(d, "LastsDays")));
      element.SetLastsHours(VerifiedIntString(MetaValue(d, "LastsHours")));
      element.SetLastsMinutes(VerifiedIntString(MetaValue(d, "LastsMinutes")));
    }

    /** The three reference-list assignments of SectionYaml.import_data. */
    method SetSectionReferences(element: Section, d: map<string, string>)
      modifies element`characters, element`locations, element`items, element.OnChange()
      ensures element.Rec() == SectionReferencesOf(d, old(element.Rec()))
    {
      element.SetCharacters(Some(StringToList(MetaValue(d, "Characters"))));
      element.SetLocations(Some(StringToList(MetaValue(d, "Locations"))));
      element.SetItems(Some(StringToList(MetaValue(d, "Items"))));
    }

    /** SectionYaml.export_data: the tag-level lines, then attribute, date, duration and reference lines. */
    method ExportSection(element: Section, yaml: seq<string>) returns (r: seq<string>)
      requires element.status.Some? && element.scene.Some?
      ensures r == yaml + EncodeSection(element.Rec())
    {
      ghost var rec := element.Rec();
      r := ExportTags(element.withTags, yaml);
      r := element.AppendAttributeLines(r);
      r := element.AppendDateLines(r);
      r := element.AppendDurationLines(r);
      r := element.AppendReferenceLines(r);
      AppendFive(yaml, EncodeTags(rec.withTags), rec.AttributeLines(), rec.DateLines(),
        rec.DurationLines(), rec.ReferenceLines());
    }

    /** NovelYaml.import_data: the title, flags, work phase, author, affixes, labels, counts and reference date. */
    method ImportNovel(element: Novel, yaml: seq<string>) returns (err: Option<string>)
      modifies this, element.basic`title, element`renumberChapters, element`renumberParts
      modifies element`renumberWithinParts, element`romanChapterNumbers, element`romanPartNumbers
      modifies element`saveWordCount, element`workPhase, element`authorName
      modifies element`chapterHeadingPrefix, element`chapterHeadingSuffix
      modifies element`partHeadingPrefix, element`partHeadingSuffix
      modifies element`customPlotProgress, element`customCharacterization, element`customWorldBuilding
      modifies element`customGoal, element`customConflict, element`customOutcome
      modifies element`customChrBio, element`customChrGoals
      modifies element`wordCountStart, element`wordTarget, element`referenceDate, element`referenceWeekDay
      modifies element.OnChange()
      ensures metaDict == MetaDictOf(yaml)
      ensures var decoded := DecodeNovel(metaDict, old(element.Rec()));
        (err.None? <==> decoded.Ok?) && (decoded.Ok? ==> element.Rec() == decoded.value)
        && (decoded.Err? ==> err == Some(decoded.error))
      ensures err.Some? ==> element.Rec() == NovelInterrupted(metaDict, old(element.Rec()))
    {
      ImportBasic(element.basic, yaml);
      SetNovelSettings(element, metaDict);
      err := ReadNovelCounts(element, metaDict);
    }

    /** The count and reference date assignments that end NovelYaml.import_data, which int() may interrupt. */
    method ReadNovelCounts(element: Novel, d: map<string, string>) returns (err: Option<string>)
      modifies element`wordCountStart, element`wordTarget, element`referenceDate, element`referenceWeekDay
      modifies element.OnChange()
      ensures var decoded := DecodeNovelCounts(d, old(element.Rec()));
        (err.None? <==> decoded.Ok?) && (decoded.Ok? ==> element.Rec() == decoded.value)
        && (decoded.Err? ==> err == Some(decoded.error))
      ensures err.Some? ==> element.Rec() == CountsInterrupted(d, old(element.Rec()))
    {
      var ws := MetaValue(d, "WordCountStart");
      if ws.Some? {
        var n := ParseInt(ws.value);
        if n.None? {
          return Some("invalid literal for int(): '" + ws.value + "'");
        }
        element.SetWordCountStart(n);
      }
      var wt := MetaValue(d, "WordTarget");
      if wt.Some? {
        var n := ParseInt(wt.value);
        if n.None? {
          return Some("invalid literal for int(): '" + wt.value + "'");
        }
        element.SetWordTarget(n);
      }
      element.SetReferenceDate(VerifiedDate(MetaValue(d, "ReferenceDate")));
      return None;
    }

    /** The flag, heading and label assignments of NovelYaml.import_data. */
    method SetNovelSettings(element: Novel, d: map<string, string>)
      modifies element`renumberChapters, element`renumberParts, element`renumberWithinParts
      modifies element`romanChapterNumbers, element`romanPartNumbers, element`saveWordCount, element`workPhase
      modifies element`authorName, element`chapterHeadingPrefix, element`chapterHeadingSuffix
      modifies element`partHeadingPrefix, element`partHeadingSuffix
      modifies element`customPlotProgress, element`customCharacterization, element`customWorldBuilding
      modifies element`customGoal, element`customConflict, element`customOutcome
      modifies element`customChrBio, element`customChrGoals, element.OnChange()
      ensures element.Rec() == NovelSettingsOf(d, old(element.Rec()))
    {
      SetNovelFlags(element, d);
      SetNovelHeadings(element, d);
      SetNovelLabels(element, d);
    }

    /** The six project flags and the work phase. */
    method SetNovelFlags(element: Novel, d: map<string, string>)
      modifies element`renumberChapters, element`renumberParts, element`renumberWithinParts
      modifies element`romanChapterNumbers, element`romanPartNumbers, element`saveWordCount, element`workPhase
      modifies element.OnChange()
      ensures element.Rec() == old(element.Rec()).(
        renumberChapters := FlagOf(d, "renumberChapters"), renumberParts := FlagOf(d, "renumberParts"),
        renumberWithinParts := FlagOf(d, "renumberWithinParts"),
        romanChapterNumbers := FlagOf(d, "romanChapterNumbers"),
        romanPartNumbers := FlagOf(d, "romanPartNumbers"), saveWordCount := FlagOf(d, "saveWordCount"),
        workPhase := WorkPhaseOf(MetaValue(d, "workPhase")))
    {
      element.SetRenumberChapters(FlagOf(d, "renumberChapters"));
      element.SetRenumberParts(FlagOf(d, "renumberParts"));
      element.SetRenumberWithinParts(FlagOf(d, "renumberWithinParts"));
      element.SetRomanChapterNumbers(FlagOf(d, "romanChapterNumbers"));
      element.SetRomanPartNumbers(FlagOf(d, "romanPartNumbers"));
      element.SetSaveWordCount(FlagOf(d, "saveWordCount"));
      element.SetWorkPhase(WorkPhaseOf(MetaValue(d, "workPhase")));
    }

    /** The author and the four heading affixes, each stripped of its first and last character when set. */
    method SetNovelHeadings(element: Novel, d: map<string, string>)
      modifies element`authorName, element`chapterHeadingPrefix, element`chapterHeadingSuffix
      modifies element`partHeadingPrefix, element`partHeadingSuffix, element.OnChange()
      ensures element.Rec() == old(element.Rec()).(authorName := MetaValue(d, "Author"),
        chapterHeadingPrefix := Unquote(MetaValue(d, "ChapterHeadingPrefix")),
        chapterHeadingSuffix := Unquote(MetaValue(d, "ChapterHeadingSuffix")),
        partHeadingPrefix := Unquote(MetaValue(d, "PartHeadingPrefix")),
        partHeadingSuffix := Unquote(MetaValue(d, "PartHeadingSuffix")))
    {
      element.SetAuthorName(MetaValue(d, "Author"));
      element.SetChapterHeadingPrefix(Unquote(MetaValue(d, "ChapterHeadingPrefix")));
      element.SetChapterHeadingSuffix(Unquote(MetaValue(d, "ChapterHeadingSuffix")));
      element.SetPartHeadingPrefix(Unquote(MetaValue(d, "PartHeadingPrefix")));
      element.SetPartHeadingSuffix(Unquote(MetaValue(d, "PartHeadingSuffix")));
    }

    /** The eight custom field labels, None when absent. */
    method SetNovelLabels(element: Novel, d: map<string, string>)
      modifies element`customPlotProgress, element`customCharacterization, element`customWorldBuilding
      modifies element`customGoal, element`customConflict, element`customOutcome
      modifies element`customChrBio, element`customChrGoals, element.OnChange()
      ensures element.Rec() == old(element.Rec()).(
        customPlotProgress := MetaValue(d, "CustomPlotProgress"),
        customCharacterization := MetaValue(d, "CustomCharacterization"),
        customWorldBuilding := MetaValue(d, "CustomWorldBuilding"),
        customGoal := MetaValue(d, "CustomGoal"), customConflict := MetaValue(d, "CustomConflict"),
        customOutcome := MetaValue(d, "CustomOutcome"), customChrBio := MetaValue(d, "CustomChrBio"),
        customChrGoals := MetaValue(d, "CustomChrGoals"))
    {
      element.SetCustomPlotProgress(MetaValue(d, "CustomPlotProgress"));
      element.SetCustomCharacterization(MetaValue(d, "CustomCharacterization"));
      element.SetCustomWorldBuilding(MetaValue(d, "CustomWorldBuilding"));
      element.SetCustomGoal(MetaValue(d, "CustomGoal"));
      element.SetCustomConflict(MetaValue(d, "CustomConflict"));
      element.SetCustomOutcome(MetaValue(d, "CustomOutcome"));
      element.SetCustomChrBio(MetaValue(d, "CustomChrBio"));
      element.SetCustomChrGoals(MetaValue(d, "CustomChrGoals"));
    }

    /** NovelYaml.export_data: the Title line, then flag, heading, label and count lines. */
    method ExportNovel(element: Novel, yaml: seq<string>) returns (r: seq<string>)
      ensures r == yaml + EncodeNovel(element.Rec())
    {
      ghost var rec := element.Rec();
      r := ExportBasic(element.basic, yaml);
      r := element.AppendFlagLines(r);
      r := element.AppendHeadingLines(r);
      r := element.AppendLabelLines(r);
      r := element.AppendCountLines(r);
      AppendFive(yaml, EncodeBasic(rec.basic), rec.FlagLines(), rec.HeadingLines(), rec.LabelLines(),
        rec.CountLines());
    }
  }
}
