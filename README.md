# mdnovel core, modelled in Dafny

mdnovel keeps a novel as a tree of typed elements. The elements are:
- chapters, which group sections;
- characters, locations and items;
- plot lines, which group plot points;
- project notes.

The novel is persisted in two project formats:
- the `.json` project file, the format the application works on;
- the `.mdnov` text file: one `@@ID` block per element, holding the element's YAML-like metadata between `---` lines and its texts as `%%Key:` fields.

This project models the core of that system. It covers:
- the element model;
- the metadata codecs of both formats;
- the project file engines and the daily word count log;
- the template-based export and its text converters;
- the two Markdown readers;
- the small dispatch rules around them: export filters, file factories, the clipboard and the observer base.

Each source class is modelled in the form the source gives it:
- Element classes are Dafny classes whose setters store a value and notify the change callback only when the value differs (`elements.dfy`, `section.dfy`, `novel.dfy`).
- The codecs are pure encode/decode functions with round-trip lemmas (`yaml_meta.dfy`, `yaml_codecs.dfy`, `json_values.dfy`, `json_codecs.dfy`). The imperative import/export methods that change elements in place are proved against those functions (`mdnov_yaml.dfy`, `json_file.dfy`).
- The project engines are classes over the novel, its tree and the word count log:
  - `PrjFile` and `JsonFile`: `prj_file.dfy`, `json_file.dfy`;
  - `MdnovFile`: `mdnov_file.dfy`;
  - `NvWorkFile`: `nv_work_file.dfy`;
  - the rules these engines share (word count and section-type propagation): `project_rules.dfy`.
- `FileExport` states the chapter and section loops on the lines they collect, and the write as a backup-then-replace over a store of files (`file_export.dfy`).
- The text converters and the Markdown readers are methods with loops, proved against reference functions (`md_helper.dfy`, `md_file.dfy`, `html_report.dfy`, `md_import.dfy`, `md_outline.dfy`, `md_draft.dfy`).
- The filters, factories, clipboard rules and observer base are in `filters.dfy`, `factories.dfy`, `clipboard.dfy` and `model_base.dfy`.
- `novx_globals.dfy`, `nv_tree.dfy`, `calendar.dfy`, `strings.dfy`, `ordered_maps.dfy`, `dicts.dfy` and `wrappers.dfy` hold the supporting definitions:
  - Python dicts are ordered maps: a key sequence plus a map;
  - strings are `seq<char>`;
  - Python's string methods, `int()` on ASCII digits and the proleptic Gregorian calendar and ISO formats of `datetime` are written out; the limits of each are listed under "## Left out".

## Model

| member | source | states |
|---|---|---|
| NovxGlobals.StringToList | src/mdnvlib/mdnov/basic_element_tags_yaml.py:16 | every entry of a string split into a list is non-empty and has no outer whitespace |
| NovxGlobals.Intersection | src/mdnvlib/mdnov/mdnov_file.py:444-446 | an entry is kept exactly when it is in the list and among the reference keys; never more entries than the list |
| NovxGlobals.VerifiedDate | src/mdnvlib/mdnov/character_yaml.py:17-18 | a kept value is the input and a well-formed ISO date |
| NovxGlobals.VerifiedIntString | src/mdnvlib/mdnov/section_yaml.py:42 | a kept value is the input and a string int() accepts |
| NovxGlobals.VerifiedTime | src/mdnvlib/mdnov/section_yaml.py:44 | a kept value is the input and a well-formed ISO time |
| NovxGlobals.StringToListInvertsListToString | src/mdnvlib/mdnov/basic_element_tags_yaml.py:16-25 | reading back a written tag list gives the list again, for distinct, trimmed entries without the divider |
| ModelBases.ModelBase.constructor | src/apptk/model/model_base.py:13-16 | no clients and not modified |
| ModelBases.ModelBase.SetModified | src/apptk/model/model_base.py:24-27 | the flag is stored and every client is refreshed once, in registration order |
| ModelBases.ModelBase.RegisterClient | src/apptk/model/model_base.py:29-31 | the client is appended when it is new, otherwise the list is unchanged; clients stay distinct |
| ModelBases.ModelBase.UnregisterClient | src/apptk/model/model_base.py:33-35 | the first occurrence of a registered client is removed, an unknown one changes nothing; afterwards the client is gone |
| ModelBases.ModelBase.OnElementChange | src/apptk/model/model_base.py:37-39 | the model becomes modified and every client is refreshed |
| ModelBases.RemoveFirst | src/apptk/model/model_base.py:35 | list.remove deletes exactly the first occurrence: the clients before it and after it keep their order; one entry fewer, the others all stay, and on a distinct list the removed value is gone |
| ModelBases.FirstIndex | src/apptk/model/model_base.py:35 | list.index finds an occurrence of the value with none before it |
| NvTrees.NvTree.constructor | src/mdnvlib/mdnov/mdnov_file.py:272 | the tree starts without nodes |
| NvTrees.NvTree.GetChildren | src/mdnvlib/mdnov/mdnov_file.py:235 | the stored children in order, none for an unknown node |
| NvTrees.NvTree.Reset | src/mdnvlib/mdnov/mdnov_file.py:272 | every node is forgotten |
| NvTrees.NvTree.Append | src/mdnvlib/mdnov/mdnov_file.py:332 | the child becomes the parent's last child, nothing else changes |
| NvTrees.NvTree.MoveToEnd | src/mdnvlib/model/nv_work_file.py:42 | the node leaves its place among the parent's children and becomes the last one |
| NvTrees.NvTree.Next | src/mdnvlib/model/nv_work_file.py:41 | a next sibling exists exactly when the node occurs before the last position, and it is one of the children |
| NvTrees.Without | src/mdnvlib/model/nv_work_file.py:42 | exactly the elements other than x remain, never more of them |
| NvTrees.NextIn | src/mdnvlib/model/nv_work_file.py:41 | a following element exists exactly when the node occurs before the last position |
| Elements.LinkLinesAppend | src/mdnvlib/model/basic_element.py:97-101 | one more link path adds its LinkPath line and, when the full path is set, its FullPath line, after the earlier links' lines |
| Elements.LinkLinesAbsent | src/mdnvlib/model/basic_element.py:97-101 | a path absent from the links dictionary adds no lines |
| Elements.BasicElement.constructor | src/mdnvlib/model/basic_element.py:19-40 | the new element holds the given title, desc, links and change callback |
| Elements.BasicElement.Notify | src/mdnvlib/model/basic_element.py:85-87 | on_element_change refreshes the model's clients once, or does nothing when there is no model |
| Elements.BasicElement.SetTitle | src/mdnvlib/model/basic_element.py:46-52 | the title becomes the new value, nothing else changes, and the callback runs exactly when the value differs |
| Elements.BasicElement.SetDesc | src/mdnvlib/model/basic_element.py:58-64 | the description becomes the new value; the callback runs exactly when it differs |
| Elements.BasicElement.SetLinks | src/mdnvlib/model/basic_element.py:74-83 | links are replaced and the callback runs exactly when the dictionaries differ as Python dicts (entries, not order) |
| Elements.BasicElement.ToYaml | src/mdnvlib/model/basic_element.py:94-102 | the lines appended to yaml: 'Title: …' when the title is non-empty, then LinkPath (and FullPath when set) per link in insertion order |
| Elements.BasicElementNotes.constructor | src/mdnvlib/model/basic_element_notes.py:13-18 | the new element holds the given notes on top of the basic fields |
| Elements.BasicElementNotes.Notify | src/mdnvlib/model/basic_element.py:85-87 | the callback of the base part |
| Elements.BasicElementNotes.SetNotes | src/mdnvlib/model/basic_element_notes.py:24-30 | notes become the new value; the callback runs exactly when it differs |
| Elements.BasicElementTags.constructor | src/mdnvlib/model/basic_element_tags.py:15-20 | the new element holds the given tags on top of the notes-level fields |
| Elements.BasicElementTags.Notify | src/mdnvlib/model/basic_element.py:85-87 | the callback of the base part |
| Elements.BasicElementTags.SetTags | src/mdnvlib/model/basic_element_tags.py:27-35 | tags become the new list; the callback runs exactly when it differs |
| Elements.BasicElementTags.ToYaml | src/mdnvlib/model/basic_element_tags.py:45-49 | the base lines, then 'Tags: ' with the tags joined by ';' when the list is non-empty |
| Elements.WorldElement.constructor | src/mdnvlib/model/world_element.py:13-18 | the new element holds aka on top of the tag-level fields |
| Elements.WorldElement.SetAka | src/mdnvlib/model/world_element.py:24-30 | aka becomes the new value; the callback runs exactly when it differs |
| Elements.WorldElement.ToYaml | src/mdnvlib/model/world_element.py:36-40 | the tag-level lines, then 'Aka: …' when aka is non-empty |
| Elements.Character.constructor | src/mdnvlib/model/character.py:17-32 | the new character holds bio, goals, fullName, isMajor, birthDate and deathDate on top of the world-element fields |
| Elements.Character.Notify | src/mdnvlib/model/basic_element.py:85-87 | the callback of the base part |
| Elements.Character.SetBio | src/mdnvlib/model/character.py:38-44 | bio becomes the new value; the callback runs exactly when it differs |
| Elements.Character.SetGoals | src/mdnvlib/model/character.py:50-56 | goals become the new value; the callback runs exactly when it differs |
| Elements.Character.SetFullName | src/mdnvlib/model/character.py:62-68 | fullName becomes the new value; the callback runs exactly when it differs |
| Elements.Character.SetIsMajor | src/mdnvlib/model/character.py:76-82 | isMajor becomes the new value; the callback runs exactly when it differs |
| Elements.Character.SetBirthDate | src/mdnvlib/model/character.py:88-94 | birthDate becomes the new value; the callback runs exactly when it differs |
| Elements.Character.SetDeathDate | src/mdnvlib/model/character.py:100-106 | deathDate becomes the new value; the callback runs exactly when it differs |
| Elements.Character.ToYaml | src/mdnvlib/model/character.py:115-125 | the world-element lines, then 'major: 1' for a major character, FullName, BirthDate and DeathDate when set |
| Elements.PlotLine.constructor | src/mdnvlib/model/plot_line.py:15-23 | the new plot line holds shortName and sections on top of the notes-level fields |
| Elements.PlotLine.SetShortName | src/mdnvlib/model/plot_line.py:30-36 | shortName becomes the new value; the callback runs exactly when it differs |
| Elements.PlotLine.SetSections | src/mdnvlib/model/plot_line.py:46-54 | the section list becomes the new value; the callback runs exactly when it differs |
| Elements.PlotLine.ToYaml | src/mdnvlib/model/plot_line.py:68-74 | the base lines, then ShortName and the joined Sections when set |
| Elements.PlotPoint.constructor | src/mdnvlib/model/plot_point.py:13-19 | the new plot point holds sectionAssoc on top of the notes-level fields |
| Elements.PlotPoint.SetSectionAssoc | src/mdnvlib/model/plot_point.py:26-32 | sectionAssoc becomes the new value; the callback runs exactly when it differs |
| Elements.PlotPoint.ToYaml | src/mdnvlib/model/plot_point.py:40-44 | the base lines, then 'Section: id' when an association is set |
| Elements.Chapter.constructor | src/mdnvlib/mdnov/chapter_yaml.py:14-25 | the new chapter holds chType, chLevel, isTrash and noNumber, the properties its readers set |
| Elements.Chapter.SetChType | src/mdnvlib/mdnov/chapter_yaml.py:14-18 | chType becomes the new value; the callback runs exactly when it differs |
| Elements.Chapter.SetChLevel | src/mdnvlib/mdnov/chapter_yaml.py:19-23 | chLevel becomes the new value; the callback runs exactly when it differs |
| Elements.Chapter.SetIsTrash | src/mdnvlib/mdnov/chapter_yaml.py:24 | isTrash becomes the new value; the callback runs exactly when it differs |
| Elements.Chapter.SetNoNumber | src/mdnvlib/mdnov/chapter_yaml.py:25 | noNumber becomes the new value; the callback runs exactly when it differs |
| Calendar.Date.Weekday | src/mdnvlib/model/section.py:86-87 | date.weekday() is a number below 7, Monday being 0 |
| Calendar.FromDayNumber | src/mdnvlib/model/section.py:525 | date.min + timedelta(days=n) is a valid date whose day number is n |
| Calendar.ParseIsoDate | src/mdnvlib/model/section.py:265-266 | date.fromisoformat accepts only valid dates |
| Calendar.ParseIsoTime | src/mdnvlib/model/section.py:514-526 | the time after the date that datetime.fromisoformat accepts (HH, HH:MM or HH:MM:SS with 3 or 6 fraction digits, then optionally a signed HH:MM[:SS[.ffffff]] offset) is a valid time of day: a second below 86400, microseconds below a million, and an offset strictly within a day |
| Calendar.TimeIsoFormat | src/mdnvlib/model/section.py:516-528 | the HH:MM:SS part of isoformat() is eight characters long |
| Calendar.ClockIsoFormatParses | src/mdnvlib/model/section.py:514-528 | the time, microseconds and UTC offset that isoformat() writes after the 'T' parse back to the same time, microseconds and offset |
| Calendar.OffsetDigitsParse | src/mdnvlib/model/section.py:516-528 | the size of a UTC offset as isoformat() writes it (HH:MM, :SS and .ffffff only when needed) parses back, after either sign, to that sign times the size |
| Calendar.OffsetSize | src/mdnvlib/model/section.py:516-528 | the size written after the offset's sign gives back the offset when that sign is applied |
| Calendar.OffsetFieldsTextReads | src/mdnvlib/model/section.py:516-528 | hours, minutes, seconds and microseconds written as an offset have a length fromisoformat takes and read back as the same four fields |
| Calendar.OffsetDigitsFields | src/mdnvlib/model/section.py:516-528 | the written size of an offset has one of the lengths fromisoformat takes (5, 8 or 15) and reads back as its hours, minutes, seconds and microseconds |
| Calendar.FractionShape | src/mdnvlib/model/section.py:516-528 | isoformat() writes no fraction for zero microseconds, otherwise '.' and six digits whose value is the microseconds |
| Calendar.SecondsSplit | src/mdnvlib/model/section.py:516-528 | a second of the day is its hours, minutes and seconds put back together |
| Calendar.IsoTimeEnds | src/mdnvlib/mdnov/section_yaml.py:44 | a time fromisoformat accepts starts and ends with a digit, so it has no outer whitespace |
| Calendar.IsoFormat | src/mdnvlib/model/section.py:525 | date.isoformat() is ten characters long |
| Calendar.ParseIsoFormat | src/mdnvlib/model/section.py:525-529 | date.fromisoformat(d.isoformat()) gives d back |
| Dicts.MetaValue | src/mdnvlib/mdnov/basic_element_yaml.py:29-30 | the value of a present key, None exactly when the key is absent |
| JsonValues.Set | src/mdnvlib/json/basic_element_json.py:18 | d[k] = v stores v; a new key goes to the end of the key order, a present key keeps its place |
| JsonValues.SetValid | src/mdnvlib/json/basic_element_json.py:18 | the key order stays a duplicate-free list of exactly the stored keys |
| JsonValues.EntriesGet | src/mdnvlib/json/basic_element_json.py:12-14 | json.get on the entries an export wrote gives the written value, or the default when nothing was written |
| JsonValues.When | src/mdnvlib/json/basic_element_json.py:17-22 | an export writes its value exactly when its condition holds |
| JsonValues.TextOf | src/mdnvlib/model/basic_element.py:46-49 | a str setter accepts exactly null and strings, and stores the string |
| JsonValues.FlagOf | src/mdnvlib/model/character.py:76-79 | a bool setter accepts exactly null and booleans |
| JsonValues.IntOf | src/mdnvlib/json/chapter_json.py:14-18 | an int setter accepts exactly null and numbers |
| JsonValues.StrListOf | src/mdnvlib/model/basic_element_tags.py:27-32 | the list setter refuses a value (Err("")) exactly when it is not None and not an iterable whose non-None items are str; null and lists of strings are held, keeping the strings in order; the other values the setter takes give NotHeld |
| JsonValues.ChoiceOf | src/mdnvlib/json/chapter_json.py:14-23 | a number inside the allowed range is kept, one outside it and a non-number become the default |
| JsonValues.StrOf | src/mdnvlib/json/character_json.py:17-18 | verified_date receives a string exactly when the JSON value is one |
| JsonValues.TextJson | src/mdnvlib/json/basic_element_json.py:18 | a written text reads back as the same optional text |
| JsonValues.StrListJson | src/mdnvlib/json/basic_element_tags_json.py:19 | a written string list reads back as the same list |
| JsonValues.PathsOf | src/mdnvlib/json/basic_element_json.py:14 | exactly the paths named in a links object |
| JsonValues.LinksOf | src/mdnvlib/model/basic_element.py:74-80 | the links setter refuses a value (Err("")) exactly when it is not None, not an object of str or None values and not an empty list or string; null, such objects, [] (as an empty dict) and "" (as None) are held, an object keeping exactly its paths |
| JsonValues.LinksRoundTrip | src/mdnvlib/json/basic_element_json.py:14-22 | links written out read back with the same paths, order and values |
| JsonValues.LinksOfEmpty | src/mdnvlib/json/basic_element_json.py:14 | the default {} reads as an empty links dict |
| Sections.SpaceWordLimits | src/mdnvlib/model/section.py:25 | ADDITIONAL_WORD_LIMITS.sub(' ', s) never lengthens the text |
| Sections.SpanMatch | src/mdnvlib/model/section.py:28 | a lazy note or comment span covers at least its two delimiters and lies within the text |
| Sections.TagMatch | src/mdnvlib/model/section.py:28 | a lazy <.+?> match covers at least three characters of the text |
| Sections.NoWordLimitMatch | src/mdnvlib/model/section.py:28 | a match of one of the NO_WORD_LIMITS alternatives is non-empty and within the text |
| Sections.DeleteNoWordLimits | src/mdnvlib/model/section.py:122 | NO_WORD_LIMITS.sub('', s) never lengthens the text |
| Sections.SpaceWordLimitsOfPlain | src/mdnvlib/model/section.py:121 | text without dashes and '</p>' passes the first substitution unchanged |
| Sections.DeleteNoWordLimitsOfPlain | src/mdnvlib/model/section.py:122 | text without '<' passes the second substitution unchanged |
| Sections.PlainContentWordCount | src/mdnvlib/model/section.py:120-124 | the word count of plain content is the number of pieces str.split() gives |
| Sections.DurationOf | src/mdnvlib/model/section.py:500-510 | the duration exists only when the three duration strings parse as int(), and then fits timedelta's range of days |
| Sections.EndMoment | src/mdnvlib/model/section.py:515 | the end moment exists exactly when start plus duration stays inside datetime's range, and is that sum |
| Sections.EndDateTimeOf | src/mdnvlib/model/section.py:495-533 | fails only where the duration conversion raises; without a time everything is None; without a date there is no end date; with a date there is no end day |
| Sections.DayBasedEnd | src/mdnvlib/model/section.py:520-530 | without a date, the end day is the start day plus the whole days of start time plus duration, the end time is the remainder with the start's microseconds and UTC offset, and the end date is None |
| Sections.DayBasedEndMoment | src/mdnvlib/model/section.py:520-530 | a valid day and time give the end of the moment start plus duration |
| Sections.DayEndShift | src/mdnvlib/model/section.py:525-529 | n whole days later the time of day, microseconds and offset are the same and the day number is n larger |
| Sections.DayBasedEndInvalid | src/mdnvlib/model/section.py:531-532 | a day or start time that does not parse gives no end at all |
| Sections.DateBasedEnd | src/mdnvlib/model/section.py:512-518 | with a date, the end date and end time read back as the start moment plus the duration, with the start's microseconds and UTC offset |
| Sections.DateFields | src/mdnvlib/model/section.py:85-93 | the constructor keeps a date exactly when it is an ISO date, with its weekday; otherwise date, weekday and locale date are all None |
| Sections.Section.constructor | src/mdnvlib/model/section.py:51-107 | the new section holds the given fields, empty back references and a zero word count |
| Sections.Section.SetSectionContent | src/mdnvlib/model/section.py:113-127 | new content is stored and recounted (0 for None), unchanged content keeps the count; the callback runs exactly on a change |
| Sections.Section.SetScType | src/mdnvlib/model/section.py:137-144 | scType becomes the new value; the callback runs exactly when it differs |
| Sections.Section.SetScene | src/mdnvlib/model/section.py:153-160 | scene becomes the new value; the callback runs exactly when it differs |
| Sections.Section.SetStatus | src/mdnvlib/model/section.py:170-177 | status becomes the new value; the callback runs exactly when it differs |
| Sections.Section.SetAppendToPrev | src/mdnvlib/model/section.py:184-191 | appendToPrev becomes the new value; the callback runs exactly when it differs |
| Sections.Section.SetGoal | src/mdnvlib/model/section.py:196-203 | goal becomes the new value; the callback runs exactly when it differs |
| Sections.Section.SetConflict | src/mdnvlib/model/section.py:208-215 | conflict becomes the new value; the callback runs exactly when it differs |
| Sections.Section.SetOutcome | src/mdnvlib/model/section.py:220-227 | outcome becomes the new value; the callback runs exactly when it differs |
| Sections.Section.SetTime | src/mdnvlib/model/section.py:293-299 | time becomes the new value; the callback runs exactly when it differs |
| Sections.Section.SetDay | src/mdnvlib/model/section.py:305-311 | day becomes the new value; the callback runs exactly when it differs |
| Sections.Section.SetLastsMinutes | src/mdnvlib/model/section.py:317-323 | lastsMinutes becomes the new value; the callback runs exactly when it differs |
| Sections.Section.SetLastsHours | src/mdnvlib/model/section.py:329-335 | lastsHours becomes the new value; the callback runs exactly when it differs |
| Sections.Section.SetLastsDays | src/mdnvlib/model/section.py:341-347 | lastsDays becomes the new value; the callback runs exactly when it differs |
| Sections.Section.SetCharacters | src/mdnvlib/model/section.py:357-365 | the character list becomes the new value; the callback runs exactly when it differs |
| Sections.Section.SetLocations | src/mdnvlib/model/section.py:375-383 | the location list becomes the new value; the callback runs exactly when it differs |
| Sections.Section.SetItems | src/mdnvlib/model/section.py:393-401 | the item list becomes the new value; the callback runs exactly when it differs |
| Sections.Section.SetPlotlineNotes | src/mdnvlib/model/section.py:236-245 | the notes dict is replaced and the callback runs exactly when the dicts differ as Python dicts |
| Sections.Section.SetDate | src/mdnvlib/model/section.py:252-276 | an empty value clears date, weekday and locale date; an ISO date is stored with its weekday; an invalid or equal value changes nothing; nothing else changes |
| Sections.Section.ToYaml | src/mdnvlib/model/section.py:535-574 | the tag-level lines, then type, status above 1, scene above 0, append, Date or else Day, Time, non-zero durations and the reference lists |
| Sections.Section.AppendAttributeLines | src/mdnvlib/model/section.py:537-544 | the type, status, scene and append lines, each only when the source writes it |
| Sections.Section.AppendDateLines | src/mdnvlib/model/section.py:547-552 | Date when set, otherwise Day when set, then Time when set |
| Sections.Section.AppendDurationLines | src/mdnvlib/model/section.py:555-560 | each duration line only when its value is set and not '0' |
| Sections.Section.AppendReferenceLines | src/mdnvlib/model/section.py:563-572 | Characters, Locations and Items joined by ';' when non-empty |
| Sections.Section.GetEndDateTime | src/mdnvlib/model/section.py:495-533 | the end date, time and day that EndDateTimeOf gives for the section's fields |
| Novels.Novel.SetAuthorName | src/mdnvlib/model/novel.py:104-110 | authorName becomes the new value, nothing else changes, and the callback runs exactly when it differs |
| Novels.Novel.SetWordTarget | src/mdnvlib/model/novel.py:116-122 | wordTarget becomes the new value, nothing else changes, and the callback runs exactly when it differs |
| Novels.Novel.SetWordCountStart | src/mdnvlib/model/novel.py:128-134 | wordCountStart becomes the new value, nothing else changes, and the callback runs exactly when it differs |
| Novels.Novel.SetLanguageCode | src/mdnvlib/model/novel.py:141-147 | languageCode becomes the new value, nothing else changes, and the callback runs exactly when it differs |
| Novels.Novel.SetCountryCode | src/mdnvlib/model/novel.py:154-160 | countryCode becomes the new value, nothing else changes, and the callback runs exactly when it differs |
| Novels.Novel.SetRenumberChapters | src/mdnvlib/model/novel.py:168-174 | renumberChapters becomes the new value, nothing else changes, and the callback runs exactly when it differs |
| Novels.Novel.SetRenumberParts | src/mdnvlib/model/novel.py:182-188 | renumberParts becomes the new value, nothing else changes, and the callback runs exactly when it differs |
| Novels.Novel.SetRenumberWithinParts | src/mdnvlib/model/novel.py:196-202 | renumberWithinParts becomes the new value, nothing else changes, and the callback runs exactly when it differs |
| Novels.Novel.SetRomanChapterNumbers | src/mdnvlib/model/novel.py:210-216 | romanChapterNumbers becomes the new value, nothing else changes, and the callback runs exactly when it differs |
| Novels.Novel.SetRomanPartNumbers | src/mdnvlib/model/novel.py:224-230 | romanPartNumbers becomes the new value, nothing else changes, and the callback runs exactly when it differs |
| Novels.Novel.SetSaveWordCount | src/mdnvlib/model/novel.py:238-244 | saveWordCount becomes the new value, nothing else changes, and the callback runs exactly when it differs |
| Novels.Novel.SetWorkPhase | src/mdnvlib/model/novel.py:256-262 | workPhase becomes the new value, nothing else changes, and the callback runs exactly when it differs |
| Novels.Novel.SetChapterHeadingPrefix | src/mdnvlib/model/novel.py:268-274 | chapterHeadingPrefix becomes the new value, nothing else changes, and the callback runs exactly when it differs |
| Novels.Novel.SetChapterHeadingSuffix | src/mdnvlib/model/novel.py:280-286 | chapterHeadingSuffix becomes the new value, nothing else changes, and the callback runs exactly when it differs |
| Novels.Novel.SetPartHeadingPrefix | src/mdnvlib/model/novel.py:292-298 | partHeadingPrefix becomes the new value, nothing else changes, and the callback runs exactly when it differs |
| Novels.Novel.SetPartHeadingSuffix | src/mdnvlib/model/novel.py:304-310 | partHeadingSuffix becomes the new value, nothing else changes, and the callback runs exactly when it differs |
| Novels.Novel.SetCustomPlotProgress | src/mdnvlib/model/novel.py:316-322 | customPlotProgress becomes the new value, nothing else changes, and the callback runs exactly when it differs |
| Novels.Novel.SetCustomCharacterization | src/mdnvlib/model/novel.py:328-334 | customCharacterization becomes the new value, nothing else changes, and the callback runs exactly when it differs |
| Novels.Novel.SetCustomWorldBuilding | src/mdnvlib/model/novel.py:340-346 | customWorldBuilding becomes the new value, nothing else changes, and the callback runs exactly when it differs |
| Novels.Novel.SetCustomGoal | src/mdnvlib/model/novel.py:352-358 | customGoal becomes the new value, nothing else changes, and the callback runs exactly when it differs |
| Novels.Novel.SetCustomConflict | src/mdnvlib/model/novel.py:364-370 | customConflict becomes the new value, nothing else changes, and the callback runs exactly when it differs |
| Novels.Novel.SetCustomOutcome | src/mdnvlib/model/novel.py:376-382 | customOutcome becomes the new value, nothing else changes, and the callback runs exactly when it differs |
| Novels.Novel.SetCustomChrBio | src/mdnvlib/model/novel.py:388-394 | customChrBio becomes the new value, nothing else changes, and the callback runs exactly when it differs |
| Novels.Novel.SetCustomChrGoals | src/mdnvlib/model/novel.py:400-406 | customChrGoals becomes the new value, nothing else changes, and the callback runs exactly when it differs |
| Novels.WeekDayOf | src/mdnvlib/model/novel.py:423 | a weekday exists exactly for an ISO date string, and is that date's weekday, below 7 |
| Novels.LocaleParts | src/mdnvlib/model/novel.py:440-443 | a locale name that splits at '_' into language and country is the two joined by '_' |
| Novels.SplitTwo | src/mdnvlib/model/novel.py:440 | a name with exactly one '_' is its two parts joined by '_' |
| Novels.PlotLinesOf | src/mdnvlib/model/novel.py:598-600 | the plot lines whose section list holds the section, and only those; distinct plot line IDs give distinct entries |
| Novels.FirstPoint | src/mdnvlib/model/novel.py:601-604 | None exactly when no plot point of the list is associated with the section; otherwise an associated one with none before it |
| Novels.PointsOf | src/mdnvlib/model/novel.py:598-604 | each registered plot point is the first point associated with the section in a plot line listing it, mapped to that plot line, and every such first point is registered |
| Novels.Novel.constructor | src/mdnvlib/model/novel.py:17-99 | the new novel holds the given settings, the given tree and empty element collections |
| Novels.Novel.SetReferenceDate | src/mdnvlib/model/novel.py:412-429 | an empty value clears the date and weekday; an ISO date is stored with its weekday; an invalid or equal value changes nothing; the callback runs exactly on a change |
| Novels.Novel.CheckLocale | src/mdnvlib/model/novel.py:431-461 | without a language code the system (or default) locale's two parts are taken; two two-letter codes are kept; anything else becomes 'zxx' and 'none'; the callback runs exactly when the codes are replaced |
| Novels.Novel.ToYaml | src/mdnvlib/model/novel.py:527-591 | the base lines, then the set flags, workPhase, Author, the quoted heading affixes, the custom labels, the word counts and ReferenceDate, each only when set |
| Novels.Novel.AppendFlagLines | src/mdnvlib/model/novel.py:529-542 | a line per set renumbering or numbering flag, then workPhase when it is not None |
| Novels.Novel.AppendHeadingLines | src/mdnvlib/model/novel.py:545-558 | Author, then the chapter and part heading prefixes and suffixes in double quotes |
| Novels.Novel.AppendLabelLines | src/mdnvlib/model/novel.py:561-580 | the custom label lines that are set, in the source's order |
| Novels.Novel.AppendCountLines | src/mdnvlib/model/novel.py:583-590 | WordCountStart, WordTarget and ReferenceDate when set |
| Novels.Novel.PlotLineSections | src/mdnvlib/model/novel.py:599 | one section list per plot line, under the plot line's ID |
| Novels.Novel.PointAssocs | src/mdnvlib/model/novel.py:602 | one section association per plot point, under the plot point's ID |
| Novels.Novel.UpdatePlotLines | src/mdnvlib/model/novel.py:593-604 | every section's back references become PlotLinesOf and PointsOf; plot lines, plot points and the tree are untouched |
| Novels.PlotLinesOfStep | src/mdnvlib/model/novel.py:598-600 | one more plot line appends its ID exactly when it lists the section |
| Novels.PointsOfStep | src/mdnvlib/model/novel.py:598-604 | one more plot line adds its first associated point exactly when it lists the section |
| Novels.FindPoint | src/mdnvlib/model/novel.py:601-604 | the loop over a plot line's children finds FirstPoint |
| Novels.FillBackReferences | src/mdnvlib/model/novel.py:596-604 | one section's scPlotLines and scPlotPoints become PlotLinesOf and PointsOf |
| ProjectRules.SectionWords | src/mdnvlib/file/prj_file.py:80-84 | over a chapter's sections, the normal count never exceeds the count with unused sections, and neither is negative |
| ProjectRules.ChapterWords | src/mdnvlib/file/prj_file.py:78-84 | over the chapters, trashed ones skipped, the normal count never exceeds the total count |
| ProjectRules.CountWords | src/mdnvlib/file/prj_file.py:70-85 | count_words gives ChapterWords over the chapters in tree order: normal sections in both counts, unused ones only in the total, trashed chapters in neither |
| ProjectRules.CountSectionWords | src/mdnvlib/file/prj_file.py:80-84 | the inner loop gives SectionWords over one chapter's sections |
| ProjectRules.Raise | src/mdnvlib/file/prj_file.py:62-63 | the raised section type is the larger of the section's and the chapter's type |
| ProjectRules.RaiseSections | src/mdnvlib/file/prj_file.py:61-63 | each listed section's type is raised to the chapter type, every other section keeps its type |
| ProjectRules.ChapterStep | src/mdnvlib/file/prj_file.py:57-63 | one pass of the chapter loop changes no key set |
| ProjectRules.PartTypeStep | src/mdnvlib/file/prj_file.py:57-60 | a part sets the part type to its own type; another chapter not in the trash takes a non-zero part type; otherwise nothing changes |
| ProjectRules.Adjusted | src/mdnvlib/file/prj_file.py:55-63 | the whole chapter loop changes no key set |
| ProjectRules.AdjustSectionTypes | src/mdnvlib/file/prj_file.py:53-63 | the novel's chapter and section types become those of Adjusted over the chapters in tree order; levels and trash flags are untouched |
| ProjectRules.AdjustChapters | src/mdnvlib/file/prj_file.py:56-63 | the chapter loop leaves the types Adjusted gives |
| ProjectRules.AdjustChapter | src/mdnvlib/file/prj_file.py:57-63 | one pass on the novel matches ChapterStep on the type snapshots |
| ProjectRules.SetChapterType | src/mdnvlib/file/prj_file.py:57-60 | the part-type rule on the novel matches PartTypeStep, section types untouched |
| ProjectRules.RaiseSectionTypes | src/mdnvlib/file/prj_file.py:61-63 | the section types become RaiseSections of the old ones; chapter types untouched |
| ProjectRules.RaiseSectionLoop | src/mdnvlib/file/prj_file.py:61-63 | after the loop every listed section has at least the chapter type |
| ProjectRules.AdjustedConcat | src/mdnvlib/file/prj_file.py:56 | running the loop over x and then over y is running it over x + y |
| ProjectRules.ChapterKept | src/mdnvlib/file/prj_file.py:57-60 | a part, or a chapter the loop does not visit, keeps its type |
| ProjectRules.PartTypeIsLastPart | src/mdnvlib/file/prj_file.py:57-58 | the carried part type is the type of the last part visited |
| ProjectRules.SectionTypesGrow | src/mdnvlib/file/prj_file.py:62-63 | section types never go down |
| ProjectRules.ChapterTypeRule | src/mdnvlib/file/prj_file.py:57-60 | in the end a chapter that is neither a part nor in the trash has the type of the last part before it when that is not 0; every other chapter keeps its type |
| ProjectRules.SectionsAtLeastChapter | src/mdnvlib/file/prj_file.py:61-63 | after the loop every section of a visited chapter has at least its chapter's final type |
| ProjectRules.AdjustIdempotent | src/mdnvlib/file/prj_file.py:53-63 | adjust_section_types is idempotent: a second run changes no type |
| ProjectRules.StepOnFinal | src/mdnvlib/file/prj_file.py:57-63 | a pass over a state that already has its final types changes only the part type |
| YamlMeta.MetaValueOr | src/mdnvlib/mdnov/basic_element_yaml.py:29-34 | the stored value of a present key, the default for an absent one |
| YamlMeta.MetaDictOfAppend | src/mdnvlib/mdnov/basic_element_yaml.py:12-20 | reading a longer list of lines is reading the two parts, the later part winning on a repeated key |
| YamlMeta.MetaDictOfSnoc | src/mdnvlib/mdnov/basic_element_yaml.py:13-18 | reading one more line adds that line's entry over the earlier ones |
| YamlMeta.KeyLine | src/mdnvlib/mdnov/basic_element_yaml.py:15-18 | the line 'k: v' reads as the single entry k -> v for a trimmed, non-empty v, even when v holds ':' |
| YamlMeta.TextLineDict | src/mdnvlib/mdnov/basic_element_yaml.py:24-26 | a text line reads back as its own entry, and a missing one as none |
| YamlMeta.FlagLineDict | src/mdnvlib/mdnov/character_yaml.py:22-23 | a flag line reads back as the entry '1' exactly when the flag is True |
| YamlMeta.JoinTrimmed | src/mdnvlib/mdnov/basic_element_tags_yaml.py:25 | a list joined by list_to_string is non-empty and trimmed when its entries are |
| YamlMeta.ListLineDict | src/mdnvlib/mdnov/basic_element_tags_yaml.py:24-25 | a list line reads back as the joined list under its key |
| YamlMeta.QuotedLineDict | src/mdnvlib/mdnov/novel_yaml.py:99-108 | a quoted heading line reads back as the quoted text under its key |
| YamlMeta.CountLineDict | src/mdnvlib/mdnov/novel_yaml.py:133-136 | a count line reads back as the count's digits under its key |
| YamlMeta.DurationLineDict | src/mdnvlib/mdnov/section_yaml.py:83-88 | a duration line reads back as the duration under its key |
| YamlMeta.NumberLineDict | src/mdnvlib/mdnov/chapter_yaml.py:29-32 | a number line reads back as the number's digits exactly when it was written |
| YamlMeta.EntryReads | src/mdnvlib/mdnov/basic_element_yaml.py:22 | a text reads back as written |
| YamlMeta.FlagEntryReads | src/mdnvlib/mdnov/character_yaml.py:15 | a flag reads back as written: '1' for True, a missing line for False |
| YamlMeta.DurationEntryReads | src/mdnvlib/mdnov/section_yaml.py:47-49 | a duration reads back through verified_int_string as written; a missing line is no duration |
| YamlMeta.ListEntryReads | src/mdnvlib/mdnov/section_yaml.py:52-53 | a list reads back through string_to_list as written |
| YamlCodecs.DigitIn | src/mdnvlib/mdnov/section_yaml.py:21-25 | an accepted string is the digit it is read as, within the bounds |
| YamlCodecs.DigitInOfDigit | src/mdnvlib/mdnov/section_yaml.py:65-66 | str(n) of a digit within the bounds is read back as n |
| YamlCodecs.StripEach | src/mdnvlib/mdnov/basic_element_tags_yaml.py:17-19 | the strippedTags loop strips every tag and keeps their order and number |
| YamlCodecs.StripEachOfStringToList | src/mdnvlib/mdnov/basic_element_tags_yaml.py:16-20 | the loop changes nothing, since string_to_list already strips its entries |
| YamlCodecs.TagsRoundTrip | src/mdnvlib/mdnov/basic_element_tags_yaml.py:14-26 | exporting a tagged element and importing the lines into it again changes nothing |
| YamlCodecs.WorldRoundTrip | src/mdnvlib/mdnov/world_element_yaml.py:13-21 | exporting a location or item and importing the lines into it again changes nothing |
| YamlCodecs.CharacterRoundTrip | src/mdnvlib/mdnov/character_yaml.py:13-30 | exporting a character and importing the lines into it again changes nothing |
| YamlCodecs.ChapterTypeChoice | src/mdnvlib/mdnov/chapter_yaml.py:14-18 | the chapter type reads '0' as 0 and anything else, '1' included, as 1 |
| YamlCodecs.ChapterRoundTrip | src/mdnvlib/mdnov/chapter_yaml.py:12-37 | exporting a chapter of type 0 or 1 and level 1 or 2 and importing the lines into it again changes nothing |
| YamlCodecs.PlotLineRoundTrip | src/mdnvlib/mdnov/plot_line_yaml.py:14-26 | exporting a plot line and importing the lines into it again changes nothing |
| YamlCodecs.PlotPointRoundTrip | src/mdnvlib/mdnov/plot_point_yaml.py:12-20 | exporting a plot point and importing the lines into it again changes nothing |
| YamlCodecs.SectionRoundTrip | src/mdnvlib/mdnov/section_yaml.py:17-102 | exporting a section whose fields are in the ranges the import produces, and importing the lines into it again, changes nothing |
| YamlCodecs.WorkPhaseOf | src/mdnvlib/mdnov/novel_yaml.py:21-25 | an accepted work phase is 1 to 5 and is the number the string spells |
| YamlCodecs.WorkPhaseOfDigit | src/mdnvlib/mdnov/novel_yaml.py:21-25 | each of '1' to '5' is read as its number |
| YamlCodecs.UnquoteQuoted | src/mdnvlib/mdnov/novel_yaml.py:31-34 | a heading affix written in double quotes reads back with its own spaces |
| YamlCodecs.CountAfter | src/mdnvlib/mdnov/novel_yaml.py:67-72 | an absent value keeps the count; a present one fails exactly when int() fails, else becomes that number |
| Strings.ParseIntOfStrip | src/mdnvlib/mdnov/novel_yaml.py:69-72 | int() ignores the whitespace around the number |
| Strings.UnderscoreBetweenDigits | src/mdnvlib/mdnov/novel_yaml.py:69-72 | int() reads digits grouped by an underscore as the digits without it |
| Strings.ParseIntOfGroups | src/mdnvlib/mdnov/novel_yaml.py:69-72 | int() reads digits grouped by single underscores as the value of the digits |
| Strings.ParseIntOfNegGroups | src/mdnvlib/mdnov/novel_yaml.py:69-72 | int() reads such digits after a minus sign as their value negated |
| Strings.ParseIntOfIntToString | src/mdnvlib/mdnov/mdnov_file.py:308-310 | int(str(n)) == n for every integer |
| YamlCodecs.NovelRoundTrip | src/mdnvlib/mdnov/novel_yaml.py:13-141 | exporting the project settings and importing the lines into them again succeeds and changes nothing |
| MdnovYaml.StripTags | src/mdnvlib/mdnov/basic_element_tags_yaml.py:17-19 | the strippedTags loop gives every tag stripped, in order |
| MdnovYaml.ElementYaml.constructor | src/mdnvlib/mdnov/basic_element_yaml.py:12 | the metadata dictionary starts empty |
| MdnovYaml.ElementYaml.ReadLines | src/mdnvlib/mdnov/basic_element_yaml.py:12-20 | the metadata dictionary holds one entry per line with a ':', a later key winning |
| MdnovYaml.ElementYaml.ImportBasic | src/mdnvlib/mdnov/basic_element_yaml.py:11-22 | the element's title becomes the 'Title' value, None when absent; nothing else changes |
| MdnovYaml.ElementYaml.ExportBasic | src/mdnvlib/mdnov/basic_element_yaml.py:24-27 | the Title line is appended when the title is set and not empty |
| MdnovYaml.ElementYaml.ImportTags | src/mdnvlib/mdnov/basic_element_tags_yaml.py:14-20 | the title, then the Tags value split by string_to_list and stripped |
| MdnovYaml.ElementYaml.ExportTags | src/mdnvlib/mdnov/basic_element_tags_yaml.py:22-26 | the Title line, then the Tags line when there are tags |
| MdnovYaml.ElementYaml.ImportWorld | src/mdnvlib/mdnov/world_element_yaml.py:13-15 | the tag-level fields, then aka from 'Aka' |
| MdnovYaml.ElementYaml.ExportWorld | src/mdnvlib/mdnov/world_element_yaml.py:17-21 | the tag-level lines, then the Aka line when set |
| MdnovYaml.ElementYaml.ImportCharacter | src/mdnvlib/mdnov/character_yaml.py:13-18 | the world-element fields, then major ('1' is True), FullName and the two verified dates |
| MdnovYaml.ElementYaml.SetCharacterFields | src/mdnvlib/mdnov/character_yaml.py:15-18 | the four character assignments, nothing else |
| MdnovYaml.ElementYaml.ExportCharacter | src/mdnvlib/mdnov/character_yaml.py:20-30 | the world-element lines, then major, FullName, BirthDate and DeathDate when set |
| MdnovYaml.ElementYaml.ImportChapter | src/mdnvlib/mdnov/chapter_yaml.py:12-25 | the title, then the type ('0' or '1', else 1), the level ('1' is 1, else 2) and the two flags |
| MdnovYaml.ElementYaml.SetChapterFields | src/mdnvlib/mdnov/chapter_yaml.py:14-25 | the four chapter assignments, nothing else |
| MdnovYaml.ElementYaml.ExportChapter | src/mdnvlib/mdnov/chapter_yaml.py:27-37 | the Title line, then type when non-zero, level when 1, and the flags when set |
| MdnovYaml.ElementYaml.ImportPlotLine | src/mdnvlib/mdnov/plot_line_yaml.py:14-18 | the title, then ShortName and Sections split by string_to_list |
| MdnovYaml.ElementYaml.ExportPlotLine | src/mdnvlib/mdnov/plot_line_yaml.py:20-26 | the Title line, then ShortName and the joined Sections when set |
| MdnovYaml.ElementYaml.ImportPlotPoint | src/mdnvlib/mdnov/plot_point_yaml.py:12-14 | the title, then the section association from 'Section' |
| MdnovYaml.ElementYaml.ExportPlotPoint | src/mdnvlib/mdnov/plot_point_yaml.py:16-20 | the Title line, then the Section line when set |
| MdnovYaml.ElementYaml.ImportSection | src/mdnvlib/mdnov/section_yaml.py:17-61 | the tag-level fields, then the attributes, date or day, time, durations and references the codec reads |
| MdnovYaml.ElementYaml.SetSectionFields | src/mdnvlib/mdnov/section_yaml.py:20-61 | the section-level assignments, group by group |
| MdnovYaml.ElementYaml.SetSectionAttributes | src/mdnvlib/mdnov/section_yaml.py:21-37 | type '0'-'3' else 1, status '2'-'5' else 1, scene '1'-'3' else 0, append when '1' |
| MdnovYaml.ElementYaml.SetSectionDate | src/mdnvlib/mdnov/section_yaml.py:40-42 | the verified date is assigned; the day is read only when the section has no date afterwards |
| MdnovYaml.ElementYaml.SetSectionDurations | src/mdnvlib/mdnov/section_yaml.py:44-49 | the verified time and the three verified durations |
| MdnovYaml.ElementYaml.SetSectionReferences | src/mdnvlib/mdnov/section_yaml.py:52-61 | the three reference lists split by string_to_list |
| MdnovYaml.ElementYaml.ExportSection | src/mdnvlib/mdnov/section_yaml.py:63-102 | the tag-level lines, then attribute, date, duration and reference lines, each under the source's condition |
| MdnovYaml.ElementYaml.ImportNovel | src/mdnvlib/mdnov/novel_yaml.py:13-75 | the project settings as DecodeNovel reads them; when int() fails the fields read before it are kept and an error is reported |
| MdnovYaml.ElementYaml.ReadNovelCounts | src/mdnvlib/mdnov/novel_yaml.py:66-75 | the two counts and the reference date, or the interrupted state when int() fails |
| MdnovYaml.ElementYaml.SetNovelSettings | src/mdnvlib/mdnov/novel_yaml.py:15-64 | the flag, heading and label assignments |
| MdnovYaml.ElementYaml.SetNovelFlags | src/mdnvlib/mdnov/novel_yaml.py:15-25 | the six project flags ('1' is True) and the work phase |
| MdnovYaml.ElementYaml.SetNovelHeadings | src/mdnvlib/mdnov/novel_yaml.py:28-50 | the author, and the four heading affixes stripped of their first and last character when set |
| MdnovYaml.ElementYaml.SetNovelLabels | src/mdnvlib/mdnov/novel_yaml.py:53-64 | the eight custom field labels, None when absent |
| MdnovYaml.ElementYaml.ExportNovel | src/mdnvlib/mdnov/novel_yaml.py:77-141 | the Title line, then flag, heading, label and count lines |
| JsonCodecs.NormFlagKeeps | src/mdnvlib/json/chapter_json.py:24-36 | a flag that was set to True or False comes back as it was; only an unset flag becomes False |
| JsonCodecs.BasicRoundTrip | src/mdnvlib/json/basic_element_json.py:16-23 | export_data followed by import_data into the same element gives a basic element (project note) back as NormBasic describes it: empty texts and lists, unset flags and zero counts are not written and read back as their defaults |
| JsonCodecs.BasicFrame | src/mdnvlib/json/basic_element_json.py:11-14 | the import of a basic element (project note) depends only on Title, Desc and Links; two objects agreeing there import alike |
| JsonCodecs.BasicMapKeys | src/mdnvlib/json/basic_element_json.py:16-23 | the export of a basic element (project note) writes no key outside BasicKeySet |
| JsonCodecs.NotesRoundTrip | src/mdnvlib/json/basic_element_notes_json.py:17-21 | export_data followed by import_data into the same element gives an element with notes back as NormNotes describes it: empty texts and lists, unset flags and zero counts are not written and read back as their defaults |
| JsonCodecs.NotesDecodeOf | src/mdnvlib/json/basic_element_notes_json.py:13-15 | any JSON object that agrees with the export on every key the import reads imports as NormNotes; keys written by other classes do not disturb it |
| JsonCodecs.NotesFrame | src/mdnvlib/json/basic_element_notes_json.py:13-15 | the import of an element with notes depends only on the keys of NotesKeySet; two objects agreeing there import alike |
| JsonCodecs.NotesMapKeys | src/mdnvlib/json/basic_element_notes_json.py:17-21 | the export of an element with notes writes no key outside NotesKeySet |
| JsonCodecs.NotesKeysDisjoint | src/mdnvlib/json/basic_element_notes_json.py:17-21 | the keys this class adds are none of the keys its superclass writes, so it cannot overwrite them |
| JsonCodecs.NotesFieldsFrame | src/mdnvlib/json/basic_element_notes_json.py:13-15 | the fields this class adds are read from its own keys only |
| JsonCodecs.NotesFieldsRoundTrip | src/mdnvlib/json/basic_element_notes_json.py:17-21 | the fields this class adds come back after export and import as NormNotes has them |
| JsonCodecs.TagsRoundTrip | src/mdnvlib/json/basic_element_tags_json.py:16-20 | export_data followed by import_data into the same element gives a tagged element back as NormTags describes it: empty texts and lists, unset flags and zero counts are not written and read back as their defaults |
| JsonCodecs.TagsDecodeOf | src/mdnvlib/json/basic_element_tags_json.py:12-14 | any JSON object that agrees with the export on every key the import reads imports as NormTags; keys written by other classes do not disturb it |
| JsonCodecs.TagsFrame | src/mdnvlib/json/basic_element_tags_json.py:12-14 | the import of a tagged element depends only on the keys of TagsKeySet; two objects agreeing there import alike |
| JsonCodecs.TagsMapKeys | src/mdnvlib/json/basic_element_tags_json.py:16-20 | the export of a tagged element writes no key outside TagsKeySet |
| JsonCodecs.TagsKeysDisjoint | src/mdnvlib/json/basic_element_tags_json.py:16-20 | the keys this class adds are none of the keys its superclass writes, so it cannot overwrite them |
| JsonCodecs.TagsFieldsFrame | src/mdnvlib/json/basic_element_tags_json.py:12-14 | the fields this class adds are read from its own keys only |
| JsonCodecs.TagsFieldsRoundTrip | src/mdnvlib/json/basic_element_tags_json.py:16-20 | the fields this class adds come back after export and import as NormTags has them |
| JsonCodecs.CharacterRoundTrip | src/mdnvlib/json/character_json.py:24-40 | export_data followed by import_data into the same element gives a character back as NormCharacter describes it: empty texts and lists, unset flags and zero counts are not written and read back as their defaults |
| JsonCodecs.CharacterDecodeOf | src/mdnvlib/json/character_json.py:13-22 | any JSON object that agrees with the export on every key the import reads imports as NormCharacter; keys written by other classes do not disturb it |
| JsonCodecs.CharacterFrame | src/mdnvlib/json/character_json.py:13-22 | the import of a character depends only on the keys of CharacterKeySet; two objects agreeing there import alike |
| JsonCodecs.CharacterMapKeys | src/mdnvlib/json/character_json.py:24-40 | the export of a character writes no key outside CharacterKeySet |
| JsonCodecs.CharacterKeysDisjoint | src/mdnvlib/json/character_json.py:24-40 | the keys this class adds are none of the keys its superclass writes, so it cannot overwrite them |
| JsonCodecs.CharacterFieldsFrame | src/mdnvlib/json/character_json.py:13-22 | the fields this class adds are read from its own keys only |
| JsonCodecs.CharacterFieldsRoundTrip | src/mdnvlib/json/character_json.py:24-40 | the fields this class adds come back after export and import as NormCharacter has them |
| JsonCodecs.ChapterRoundTrip | src/mdnvlib/json/chapter_json.py:27-37 | export_data followed by import_data into the same element gives a chapter back as NormChapter describes it: empty texts and lists, unset flags and zero counts are not written and read back as their defaults |
| JsonCodecs.ChapterDecodeOf | src/mdnvlib/json/chapter_json.py:12-25 | any JSON object that agrees with the export on every key the import reads imports as NormChapter; keys written by other classes do not disturb it |
| JsonCodecs.ChapterFrame | src/mdnvlib/json/chapter_json.py:12-25 | the import of a chapter depends only on the keys of ChapterKeySet; two objects agreeing there import alike |
| JsonCodecs.ChapterMapKeys | src/mdnvlib/json/chapter_json.py:27-37 | the export of a chapter writes no key outside ChapterKeySet |
| JsonCodecs.ChapterKeysDisjoint | src/mdnvlib/json/chapter_json.py:27-37 | the keys this class adds are none of the keys its superclass writes, so it cannot overwrite them |
| JsonCodecs.ChapterFieldsFrame | src/mdnvlib/json/chapter_json.py:12-25 | the fields this class adds are read from its own keys only |
| JsonCodecs.ChapterFieldsRoundTrip | src/mdnvlib/json/chapter_json.py:27-37 | the fields this class adds come back after export and import as NormChapter has them |
| JsonCodecs.SectionRoundTrip | src/mdnvlib/json/section_json.py:64-113 | export_data followed by import_data into the same element gives a section back as NormSection describes it: empty texts and lists, unset flags and zero counts are not written and read back as their defaults |
| JsonCodecs.SectionDecodeOf | src/mdnvlib/json/section_json.py:15-62 | any JSON object that agrees with the export on every key the import reads imports as NormSection; keys written by other classes do not disturb it |
| JsonCodecs.SectionFrame | src/mdnvlib/json/section_json.py:15-62 | the import of a section depends only on the keys of SectionKeySet; two objects agreeing there import alike |
| JsonCodecs.SectionMapKeys | src/mdnvlib/json/section_json.py:64-113 | the export of a section writes no key outside SectionKeySet |
| JsonCodecs.SectionKeysDisjoint | src/mdnvlib/json/section_json.py:64-113 | the keys this class adds are none of the keys its superclass writes, so it cannot overwrite them |
| JsonCodecs.SectionFieldsFrame | src/mdnvlib/json/section_json.py:15-62 | the fields this class adds are read from its own keys only |
| JsonCodecs.SectionFieldsRoundTrip | src/mdnvlib/json/section_json.py:64-113 | the fields this class adds come back after export and import as NormSection has them |
| JsonCodecs.NovelRoundTrip | src/mdnvlib/json/novel_json.py:43-107 | export_data followed by import_data into the same element gives the project settings back as NormNovel describes it: empty texts and lists, unset flags and zero counts are not written and read back as their defaults |
| JsonCodecs.NovelDecodeOf | src/mdnvlib/json/novel_json.py:13-41 | any JSON object that agrees with the export on every key the import reads imports as NormNovel; keys written by other classes do not disturb it |
| JsonCodecs.NovelFrame | src/mdnvlib/json/novel_json.py:13-41 | the import of the project settings depends only on the keys of NovelKeySet; two objects agreeing there import alike |
| JsonCodecs.NovelMapKeys | src/mdnvlib/json/novel_json.py:43-107 | the export of the project settings writes no key outside NovelKeySet |
| JsonCodecs.NovelKeysDisjoint | src/mdnvlib/json/novel_json.py:43-107 | the keys this class adds are none of the keys its superclass writes, so it cannot overwrite them |
| JsonCodecs.NovelFieldsFrame | src/mdnvlib/json/novel_json.py:13-41 | the fields this class adds are read from its own keys only |
| JsonCodecs.NovelFieldsRoundTrip | src/mdnvlib/json/novel_json.py:43-107 | the fields this class adds come back after export and import as NormNovel has them |
| JsonCodecs.WorldRoundTrip | src/mdnvlib/json/json_file.py:164-167 | export_data followed by import_data into the same element gives a location or item back as NormWorld describes it: empty texts and lists, unset flags and zero counts are not written and read back as their defaults |
| JsonCodecs.WorldDecodeOf | src/mdnvlib/json/json_file.py:297-300 | any JSON object that agrees with the export on every key the import reads imports as NormWorld; keys written by other classes do not disturb it |
| JsonCodecs.WorldFrame | src/mdnvlib/json/json_file.py:297-300 | the import of a location or item depends only on the keys of WorldKeySet; two objects agreeing there import alike |
| JsonCodecs.WorldMapKeys | src/mdnvlib/json/json_file.py:164-167 | the export of a location or item writes no key outside WorldKeySet |
| JsonCodecs.WorldKeysDisjoint | src/mdnvlib/json/json_file.py:164-167 | the keys this class adds are none of the keys its superclass writes, so it cannot overwrite them |
| JsonCodecs.WorldFieldsFrame | src/mdnvlib/json/json_file.py:297-300 | the fields this class adds are read from its own keys only |
| JsonCodecs.WorldFieldsRoundTrip | src/mdnvlib/json/json_file.py:164-167 | the fields this class adds come back after export and import as NormWorld has them |
| JsonCodecs.PlotLineRoundTrip | src/mdnvlib/json/json_file.py:186-189 | export_data followed by import_data into the same element gives a plot line back as NormPlotLine describes it: empty texts and lists, unset flags and zero counts are not written and read back as their defaults |
| JsonCodecs.PlotLineDecodeOf | src/mdnvlib/json/json_file.py:327-330 | any JSON object that agrees with the export on every key the import reads imports as NormPlotLine; keys written by other classes do not disturb it |
| JsonCodecs.PlotLineFrame | src/mdnvlib/json/json_file.py:327-330 | the import of a plot line depends only on the keys of PlotLineKeySet; two objects agreeing there import alike |
| JsonCodecs.PlotLineMapKeys | src/mdnvlib/json/json_file.py:186-189 | the export of a plot line writes no key outside PlotLineKeySet |
| JsonCodecs.PlotLineKeysDisjoint | src/mdnvlib/json/json_file.py:186-189 | the keys this class adds are none of the keys its superclass writes, so it cannot overwrite them |
| JsonCodecs.PlotLineFieldsFrame | src/mdnvlib/json/json_file.py:327-330 | the fields this class adds are read from its own keys only |
| JsonCodecs.PlotLineFieldsRoundTrip | src/mdnvlib/json/json_file.py:186-189 | the fields this class adds come back after export and import as NormPlotLine has them |
| JsonCodecs.PlotPointRoundTrip | src/mdnvlib/json/json_file.py:193-196 | export_data followed by import_data into the same element gives a plot point back as NormPlotPoint describes it: empty texts and lists, unset flags and zero counts are not written and read back as their defaults |
| JsonCodecs.PlotPointDecodeOf | src/mdnvlib/json/json_file.py:352-355 | any JSON object that agrees with the export on every key the import reads imports as NormPlotPoint; keys written by other classes do not disturb it |
| JsonCodecs.PlotPointFrame | src/mdnvlib/json/json_file.py:352-355 | the import of a plot point depends only on the keys of PlotPointKeySet; two objects agreeing there import alike |
| JsonCodecs.PlotPointMapKeys | src/mdnvlib/json/json_file.py:193-196 | the export of a plot point writes no key outside PlotPointKeySet |
| JsonCodecs.PlotPointKeysDisjoint | src/mdnvlib/json/json_file.py:193-196 | the keys this class adds are none of the keys its superclass writes, so it cannot overwrite them |
| JsonCodecs.PlotPointFieldsFrame | src/mdnvlib/json/json_file.py:352-355 | the fields this class adds are read from its own keys only |
| JsonCodecs.PlotPointFieldsRoundTrip | src/mdnvlib/json/json_file.py:193-196 | the fields this class adds come back after export and import as NormPlotPoint has them |
| JsonCodecs.BasicTitleBack | src/mdnvlib/json/basic_element_json.py:12-18 | a title is written when truthy and reads back, an empty or missing one as None |
| JsonCodecs.BasicDescBack | src/mdnvlib/json/basic_element_json.py:13-20 | a description is written when truthy and reads back, an empty or missing one as None |
| JsonCodecs.BasicLinksBack | src/mdnvlib/json/basic_element_json.py:14-22 | non-empty links read back unchanged; missing links read as the empty dict |
| JsonCodecs.NotesNotesBack | src/mdnvlib/json/basic_element_notes_json.py:15-20 | notes are written when truthy and read back, empty or missing notes as None |
| JsonCodecs.TagsTagsBack | src/mdnvlib/json/basic_element_tags_json.py:14-19 | a non-empty tag list reads back in order; an empty or missing one as [] |
| JsonCodecs.CharacterMajorBack | src/mdnvlib/json/character_json.py:15-27 | a major character reads back as major; any other as not major |
| JsonCodecs.CharacterFullNameBack | src/mdnvlib/json/character_json.py:16-29 | a full name reads back when truthy, else None |
| JsonCodecs.CharacterBirthDateBack | src/mdnvlib/json/character_json.py:17-31 | a birth date is written when truthy and passes verified_date on the way back |
| JsonCodecs.CharacterDeathDateBack | src/mdnvlib/json/character_json.py:18-33 | a death date is written when truthy and passes verified_date on the way back |
| JsonCodecs.CharacterBioBack | src/mdnvlib/json/character_json.py:21-37 | Bio reads back when truthy, else None |
| JsonCodecs.CharacterGoalsBack | src/mdnvlib/json/character_json.py:22-39 | Goals reads back when truthy, else None |
| JsonCodecs.ChapterTypeBack | src/mdnvlib/json/chapter_json.py:14-30 | a non-zero chapter type reads back as 1 and 0 as 0 |
| JsonCodecs.ChapterLevelBack | src/mdnvlib/json/chapter_json.py:19-32 | level 1 reads back as 1; every other level as 2 |
| JsonCodecs.ChapterIsTrashBack | src/mdnvlib/json/chapter_json.py:24-34 | the trash flag reads back when set, else False |
| JsonCodecs.ChapterNoNumberBack | src/mdnvlib/json/chapter_json.py:25-36 | the no-number flag reads back when set, else False |
| JsonCodecs.ChapterAttributesRoundTrip | src/mdnvlib/json/chapter_json.py:12-37 | a chapter whose type is 0 or 1, level 1 or 2 and flags set round-trips with its attributes exact |
| JsonCodecs.ChapterNormKeepsAttributes | src/mdnvlib/json/chapter_json.py:12-37 | for a chapter with valid attributes the round trip touches only title, description, links and notes, as NormNotes has them |
| JsonCodecs.SectionTypeBack | src/mdnvlib/json/section_json.py:19-67 | a non-zero type in 0..3 reads back unchanged, any other non-zero type as 1, and 0 as 0 |
| JsonCodecs.SectionStatusBack | src/mdnvlib/json/section_json.py:24-69 | a status in 2..5 reads back unchanged; 1 or any other status as 1 |
| JsonCodecs.SectionSceneBack | src/mdnvlib/json/section_json.py:29-71 | a scene kind in 1..3 reads back unchanged; any other as 0 |
| JsonCodecs.SectionAppendBack | src/mdnvlib/json/section_json.py:35-73 | the append flag reads back when set, else False |
| JsonCodecs.SectionContentBack | src/mdnvlib/json/section_json.py:38-77 | the content reads back when truthy, else None |
| JsonCodecs.SectionGoalBack | src/mdnvlib/json/section_json.py:39-79 | Goal reads back when truthy, else None |
| JsonCodecs.SectionConflictBack | src/mdnvlib/json/section_json.py:40-81 | Conflict reads back when truthy, else None |
| JsonCodecs.SectionOutcomeBack | src/mdnvlib/json/section_json.py:41-83 | Outcome reads back when truthy, else None |
| JsonCodecs.SectionDateBack | src/mdnvlib/json/section_json.py:44-87 | a date is written when truthy and passes verified_date on the way back |
| JsonCodecs.SectionDayBack | src/mdnvlib/json/section_json.py:45-89 | the day is written only when there is no date, and read back only when no date was read |
| JsonCodecs.SectionTimeBack | src/mdnvlib/json/section_json.py:48-91 | a time is written when truthy and passes verified_time on the way back |
| JsonCodecs.SectionLastsDaysBack | src/mdnvlib/json/section_json.py:51-95 | days of duration other than empty or 0 are written and read back through verified_int_string |
| JsonCodecs.SectionLastsHoursBack | src/mdnvlib/json/section_json.py:52-97 | hours of duration other than empty or 0 are written and read back through verified_int_string |
| JsonCodecs.SectionLastsMinutesBack | src/mdnvlib/json/section_json.py:53-99 | minutes of duration other than empty or 0 are written and read back through verified_int_string |
| JsonCodecs.SectionCharactersBack | src/mdnvlib/json/section_json.py:56-103 | a non-empty character list reads back in order; an empty one as [] |
| JsonCodecs.SectionLocationsBack | src/mdnvlib/json/section_json.py:59-107 | a non-empty location list reads back in order; an empty one as [] |
| JsonCodecs.SectionItemsBack | src/mdnvlib/json/section_json.py:62-111 | a non-empty item list reads back in order; an empty one as [] |
| JsonCodecs.WorkPhaseOf | src/mdnvlib/json/novel_json.py:21-25 | a work phase of 1..5 is kept, any other number or a missing value gives None; a value of True, equal to 1 in Python, is refused as an error |
| JsonCodecs.NormWorkPhase | src/mdnvlib/json/novel_json.py:21-58 | a work phase outside 1..5 is written but reads back as None |
| JsonCodecs.NovelWorkPhaseBack | src/mdnvlib/json/novel_json.py:21-58 | a work phase in 1..5 reads back; any other as None |
| JsonCodecs.NovelRenumberChaptersBack | src/mdnvlib/json/novel_json.py:15-46 | the renumberChapters flag reads back when set, else False |
| JsonCodecs.NovelRenumberPartsBack | src/mdnvlib/json/novel_json.py:16-48 | the renumberParts flag reads back when set, else False |
| JsonCodecs.NovelRenumberWithinPartsBack | src/mdnvlib/json/novel_json.py:17-50 | the renumberWithinParts flag reads back when set, else False |
| JsonCodecs.NovelRomanChapterNumbersBack | src/mdnvlib/json/novel_json.py:18-52 | the romanChapterNumbers flag reads back when set, else False |
| JsonCodecs.NovelRomanPartNumbersBack | src/mdnvlib/json/novel_json.py:19-54 | the romanPartNumbers flag reads back when set, else False |
| JsonCodecs.NovelSaveWordCountBack | src/mdnvlib/json/novel_json.py:20-56 | the saveWordCount flag reads back when set, else False |
| JsonCodecs.NovelAuthorBack | src/mdnvlib/json/novel_json.py:26-62 | Author reads back when truthy, else None |
| JsonCodecs.NovelChapterHeadingPrefixBack | src/mdnvlib/json/novel_json.py:27-66 | ChapterHeadingPrefix reads back when truthy, else None |
| JsonCodecs.NovelChapterHeadingSuffixBack | src/mdnvlib/json/novel_json.py:28-68 | ChapterHeadingSuffix reads back when truthy, else None |
| JsonCodecs.NovelPartHeadingPrefixBack | src/mdnvlib/json/novel_json.py:29-72 | PartHeadingPrefix reads back when truthy, else None |
| JsonCodecs.NovelPartHeadingSuffixBack | src/mdnvlib/json/novel_json.py:30-74 | PartHeadingSuffix reads back when truthy, else None |
| JsonCodecs.NovelCustomPlotProgressBack | src/mdnvlib/json/novel_json.py:31-78 | CustomPlotProgress reads back when truthy, else None |
| JsonCodecs.NovelCustomCharacterizationBack | src/mdnvlib/json/novel_json.py:32-80 | CustomCharacterization reads back when truthy, else None |
| JsonCodecs.NovelCustomWorldBuildingBack | src/mdnvlib/json/novel_json.py:33-82 | CustomWorldBuilding reads back when truthy, else None |
| JsonCodecs.NovelCustomGoalBack | src/mdnvlib/json/novel_json.py:34-86 | CustomGoal reads back when truthy, else None |
| JsonCodecs.NovelCustomConflictBack | src/mdnvlib/json/novel_json.py:35-88 | CustomConflict reads back when truthy, else None |
| JsonCodecs.NovelCustomOutcomeBack | src/mdnvlib/json/novel_json.py:36-90 | CustomOutcome reads back when truthy, else None |
| JsonCodecs.NovelCustomChrBioBack | src/mdnvlib/json/novel_json.py:37-94 | CustomChrBio reads back when truthy, else None |
| JsonCodecs.NovelCustomChrGoalsBack | src/mdnvlib/json/novel_json.py:38-96 | CustomChrGoals reads back when truthy, else None |
| JsonCodecs.NovelWordCountStartBack | src/mdnvlib/json/novel_json.py:39-100 | a non-zero word count start reads back; 0 or none as None |
| JsonCodecs.NovelWordTargetBack | src/mdnvlib/json/novel_json.py:40-102 | a non-zero word target reads back; 0 or none as None |
| JsonCodecs.NovelReferenceDateBack | src/mdnvlib/json/novel_json.py:41-106 | a reference date is written when truthy and passes verified_date on the way back |
| JsonCodecs.WorldAkaBack | src/mdnvlib/json/json_file.py:164-167 | aka reads back when truthy, else None |
| JsonCodecs.PlotLineShortNameBack | src/mdnvlib/json/json_file.py:186-189 | the short name reads back when truthy, else None |
| JsonCodecs.PlotLineSectionsBack | src/mdnvlib/json/json_file.py:186-189 | a non-empty section list reads back in order; an empty one as [] |
| JsonCodecs.PlotPointSectionBack | src/mdnvlib/json/json_file.py:193-196 | the section association reads back when truthy, else None |
| JsonFiles.CheckVersion | src/mdnvlib/json/json_file.py:235-250 | an object without 'mdnov' is refused with the no-root error, and a non-object either so or with the TypeError of 'in'; the exception of an unreadable version propagates (only NotImplementedError, which never occurs here, would be caught); a readable version passes exactly when its major version is 1 and its minor version at most 0, and a newer or an outdated major version gets the matching error |
| JsonFiles.MdnovIn | src/mdnvlib/json/json_file.py:237 | 'mdnov' in jsonData raises TypeError exactly on a number, a bool or None, and on an object tests for the key |
| JsonFiles.StatedVersion | src/mdnvlib/json/json_file.py:240-242 | the version is read exactly when the root is an object holding a 'version' string that splits at '.' into two parts int() accepts, and is then those two numbers; otherwise the error is one of TypeError, KeyError, AttributeError and ValueError |
| JsonFiles.WrittenVersionReads | src/mdnvlib/json/json_file.py:240-242 | the version '1.0' written by write reads as (1, 0) |
| JsonFiles.CurrentVersionPasses | src/mdnvlib/json/json_file.py:237-250 | a file whose 'mdnov' root states the current version passes the check |
| JsonFiles.WrittenVersionPasses | src/mdnvlib/json/json_file.py:107-111 | the root that write starts with, whose version is '1.0', states version (1, 0) and passes the version check |
| JsonFiles.VersionTextParts | src/mdnvlib/json/json_file.py:109 | the version written is '1.0', which splits at '.' into exactly the two parts the check reads |
| JsonFiles.Append | src/mdnvlib/json/json_file.py:265 | tree.append adds the child at the end of its parent's children and leaves every other parent's children as they were |
| JsonFiles.AppendAll | src/mdnvlib/json/json_file.py:265-271 | appending IDs one by one puts them, in order, after the parent's existing children and changes no other parent |
| JsonFiles.GroupOf | src/mdnvlib/json/json_file.py:254-258 | iterating a group succeeds exactly for an object (its keys), an empty list or string (nothing), or a missing group where that is allowed |
| JsonFiles.ElementData | src/mdnvlib/json/json_file.py:282-285 | an element's import_data reads its value with .get, which succeeds exactly when the value is an object |
| JsonFiles.ReadGroup | src/mdnvlib/json/json_file.py:279-286 | the element loop succeeds exactly when every ID has the group's prefix, its value is an object and the element's import succeeds; then the IDs read are the group's keys in order, each with its element |
| JsonFiles.ReadElements | src/mdnvlib/json/json_file.py:273-316 | a missing group reads as no elements; an object group reads its keys in order as the IDs, every one with the group's prefix and each with its element |
| JsonFiles.Intersect | src/mdnvlib/json/json_file.py:399-404 | intersection keeps exactly the entries of the list that are keys of the dict, and fails on a missing list as iterating None does |
| JsonFiles.SectionDecodeTyped | src/mdnvlib/json/section_json.py:19-23 | a section read from JSON always has a type |
| JsonFiles.ChapterDecodeTyped | src/mdnvlib/json/chapter_json.py:14-18 | a chapter read from JSON always has a type |
| JsonFiles.ReadSection | src/mdnvlib/json/json_file.py:390-404 | a section is read exactly when its value is an object that imports with character, location and item lists; its references then name only existing characters, locations and items, and it has a type |
| JsonFiles.AddSection | src/mdnvlib/json/json_file.py:268-271 | one section key is read exactly when its ID and object are acceptable; the section is filed under its ID, appended to its chapter, and nothing else of the project changes |
| JsonFiles.ReadSections | src/mdnvlib/json/json_file.py:267-271 | a chapter's sections are read exactly when every key is acceptable; their IDs are appended to the chapter in key order, every other parent keeps its children, and only the section data changes |
| JsonFiles.AddChapter | src/mdnvlib/json/json_file.py:258-271 | one chapter is read when its ID has the chapter prefix and its object imports; its ID is appended to the chapter root after the chapters before it, followed by its sections |
| JsonFiles.ReadChapters | src/mdnvlib/json/json_file.py:252-271 | the chapters are appended to the chapter root in key order, every chapter ID has the chapter prefix, and only chapters, sections and the tree change |
| JsonFiles.ReadChaptersStep | src/mdnvlib/json/json_file.py:258-271 | reading one more chapter keeps every chapter in the tree typed and every section under it present and typed |
| JsonFiles.AddBackRefs | src/mdnvlib/json/json_file.py:339-341 | the back-reference loop appends the plot line ID to each listed section's plot lines as many times as the section is listed, and to no other section |
| JsonFiles.AddPlotPoint | src/mdnvlib/json/json_file.py:349-362 | a plot point is read exactly when its ID has the plot point prefix and its object imports; it is appended to its plot line; a section it names that exists registers it, and an unknown section is cleared |
| JsonFiles.ReadPlotPoints | src/mdnvlib/json/json_file.py:343-347 | a plot line's points are read exactly when every key is acceptable; their IDs are appended to the plot line in key order and no other parent changes |
| JsonFiles.AddPlotLine | src/mdnvlib/json/json_file.py:324-347 | one plot line is read when its ID has the plot line prefix and its object imports with a section list; it is appended to the plot line root, keeping only sections that exist |
| JsonFiles.BackRefsAdded | src/mdnvlib/json/json_file.py:333-341 | adding a new plot line with its back references keeps every section's plot line list exactly the plot lines that list the section |
| JsonFiles.ReadPlotLines | src/mdnvlib/json/json_file.py:318-347 | the plot lines are appended to the plot line root in key order, each with the plot line prefix, and only plot data and the tree change |
| JsonFiles.AdjustTypes | src/mdnvlib/json/json_file.py:91 | the read's adjust_section_types gives each chapter and section the type the chapter loop computes, keeps the chapter tree sound and keeps plot lines and points sound |
| JsonFiles.ChapterTreeReady | src/mdnvlib/json/json_file.py:91 | after the chapters are read, the type adjustment cannot fail: every chapter and section it visits has a type |
| JsonFiles.AdjustedSectionsAtLeastChapter | src/mdnvlib/json/json_file.py:91 | after the adjustment every section in a chapter of the chapter root has a type at least that of its chapter |
| JsonFiles.ReadLog | src/mdnvlib/json/json_file.py:406-413 | the word count log holds the dates it held and every date of 'PROGRESS'; the earlier dates keep their order and any date not in 'PROGRESS' keeps its entry |
| JsonFiles.WorldProject | src/mdnvlib/json/json_file.py:84-87 | the project with its locations, items and characters under their roots, in file order, has no chapters, plot lines or plot points yet, and is sound |
| JsonFiles.ChapterTreeKept | src/mdnvlib/json/json_file.py:318-347 | reading plot lines and plot points leaves the chapter part of the tree sound |
| JsonFiles.JsonDecoders | src/mdnvlib/json/json_file.py:64-71 | the JSON converters read every chapter and section with a type |
| JsonFiles.ReadProjectWith | src/mdnvlib/json/json_file.py:364-373 | a missing 'PROJECT' leaves the novel as it was; an object is imported by the novel converter; any other value fails |
| JsonFiles.ReadWorld | src/mdnvlib/json/json_file.py:84-87 | the first groups read give a sound chapter tree with no plot lines or points |
| JsonFiles.ReadChapterGroup | src/mdnvlib/json/json_file.py:88 | reading the chapters keeps the chapter tree sound and adds no plot lines or points |
| JsonFiles.ReadArcGroup | src/mdnvlib/json/json_file.py:89 | after the plot lines and points are read, the chapter tree, the plot lines and the plot points are all sound |
| JsonFiles.ReadNotes | src/mdnvlib/json/json_file.py:375-388 | reading the project notes keeps the chapter tree, plot lines and plot points sound |
| JsonFiles.ReadGroups | src/mdnvlib/json/json_file.py:83-90 | the groups read in the order read takes them give a sound project |
| JsonFiles.ReadAll | src/mdnvlib/json/json_file.py:81-92 | a file failing the version check is refused; a file read gives a sound project with a valid word count log |
| JsonFiles.WithLog | src/mdnvlib/json/json_file.py:92 | adding the word count log keeps the project sound and changes nothing else |
| JsonFiles.Read | src/mdnvlib/json/json_file.py:73-95 | a successful read is the try block's result; any failure inside it becomes 'Corrupt project data (...)' with the original message |
| JsonFiles.GroupObject | src/mdnvlib/json/json_file.py:130-143 | a group object has exactly the given IDs as keys, each holding its written value; it is empty exactly when there are no IDs, and distinct IDs keep their order |
| JsonFiles.GroupObjectOrder | src/mdnvlib/json/json_file.py:130-143 | the key texts of a written group are its IDs, in order |
| JsonFiles.WithGroup | src/mdnvlib/json/json_file.py:146-147 | an empty group is not written; a non-empty one is put under its key |
| JsonFiles.JsonEncoders | src/mdnvlib/json/json_file.py:64-71 | the JSON converters write every section a valid section can have |
| JsonFiles.ChapterValue | src/mdnvlib/json/json_file.py:132-145 | a chapter is written as its fields, with its sections under 'SECTIONS' only when it has any |
| JsonFiles.PlotLineValue | src/mdnvlib/json/json_file.py:185-198 | a plot line is written as its fields, with its points under 'POINTS' only when it has any |
| JsonFiles.RootGroups | src/mdnvlib/json/json_file.py:107-119 | each group of the written root can be found under its own key, and a group not written reads as missing |
| JsonFiles.WrittenFilePasses | src/mdnvlib/json/json_file.py:107-122 | any file write builds passes read's version check |
| JsonFiles.BuiltFilePasses | src/mdnvlib/json/json_file.py:99-122 | the file built from a consistent project passes read's version check |
| JsonFiles.WrittenGroupReadsBack | src/mdnvlib/json/json_file.py:130-316 | a group written from distinct IDs reads back, when its elements import, with the same IDs in the same order |
| JsonFiles.CountsOf | src/mdnvlib/json/json_file.py:224-225 | a log entry's counts are its items 0 and 1, when both can be taken |
| JsonFiles.KeepStep | src/mdnvlib/json/json_file.py:220-231 | one date of the loop fails with IndexError exactly when its entry cannot be indexed twice; otherwise it is kept exactly when its counts differ from the last kept ones, which then become its counts |
| JsonFiles.Compact | src/mdnvlib/json/json_file.py:220-231 | the loop succeeds exactly when every entry can be indexed; it keeps a subset of the dates in which no two neighbours have the same counts, and its last counts are those of the last date |
| JsonFiles.KeptDates | src/mdnvlib/json/json_file.py:213-233 | no dates are written for an empty log or a project that does not save word counts; it fails with IndexError exactly when saving and some entry cannot be indexed twice; otherwise the dates kept are the run starts, the first date of each run of equal consecutive counts, in log order |
| JsonFiles.BuildWordCountLog | src/mdnvlib/json/json_file.py:213-233 | the loop of _build_word_count_log computes the dates KeptDates specifies |
| JsonFiles.CompactNext | src/mdnvlib/json/json_file.py:220-231 | one more date of the loop is one more KeepStep |
| JsonFiles.CompactErr | src/mdnvlib/json/json_file.py:220-231 | a failure stops the loop: the error stays the same |
| JsonFiles.CompactFails | src/mdnvlib/json/json_file.py:224-225 | a date whose entry cannot be indexed twice makes the whole loop fail with IndexError |
| JsonFiles.CompactKeepsLatest | src/mdnvlib/json/json_file.py:220-233 | the compacted log ends with the counts of the full log's last entry, so the latest word count is never dropped |
| JsonFiles.CompactRuns | src/mdnvlib/json/json_file.py:218-231 | the loop keeps exactly the run starts, and its last counts equal those of the last date seen |
| JsonFiles.RunStartsMember | src/mdnvlib/json/json_file.py:220-231 | a date is kept exactly when its counts differ from those of the date before it, the first date being compared with (None, None) |
| JsonFiles.RunStartsIn | src/mdnvlib/json/json_file.py:220-231 | every kept date is one of the dates looked at |
| JsonFiles.CompactFirstFailure | src/mdnvlib/json/json_file.py:224-225 | any entry that cannot be indexed twice makes the whole loop fail with IndexError |
| JsonFiles.SameCountsTrans | src/mdnvlib/json/json_file.py:224-225 | count pairs equal by Python's == chain: a skipped run compares equal to its first date |
| JsonFiles.PyEqSym | src/mdnvlib/json/json_file.py:224-225 | Python's == on parsed JSON values is symmetric |
| JsonFiles.PyEqTrans | src/mdnvlib/json/json_file.py:224-225 | Python's == on parsed JSON values is transitive |
| JsonFiles.Retyped | src/mdnvlib/json/json_file.py:106 | the type adjustment before write keeps the project consistent and leaves the word count log and the novel unchanged |
| JsonFiles.WrittenFile | src/mdnvlib/json/json_file.py:99-122 | what write produces passes read's version check; it fails exactly when the project saves word counts and a log entry cannot be indexed |
| JsonFiles.Write | src/mdnvlib/json/json_file.py:99-123 | write adjusts the section types, compacts the word count log and builds the file WrittenFile specifies |
| PrjFiles.CheckId | src/mdnvlib/file/prj_file.py:65-68 | an ID passes exactly when it starts with the prefix; otherwise the error names it as a bad ID |
| PrjFiles.Item | src/mdnvlib/file/prj_file.py:100-101 | indexing an entry succeeds exactly for a list or string long enough, giving the item or the one-character string; anything else raises |
| PrjFiles.Merged | src/mdnvlib/file/prj_file.py:115-116 | copying the updates into the log gives a log with every old date and every update date, the updated values winning, and the old dates keeping their order first |
| PrjFiles.MergedIsUnion | src/mdnvlib/file/prj_file.py:115-116 | the copy loop's result holds the same entries as the dict union of log and updates |
| PrjFiles.MergedKeys | src/mdnvlib/file/prj_file.py:115-116 | the copy loop's result has exactly the dates of log and updates |
| PrjFiles.MergedValues | src/mdnvlib/file/prj_file.py:115-116 | every date of the copy loop's result holds the value the dict union gives it |
| PrjFiles.PrjFile.constructor | src/mdnvlib/file/prj_file.py:29-51 | a new project file has no element-change callback, an empty log, no missing counts and no timestamp |
| PrjFiles.PrjFile.GetTimestamp | src/mdnvlib/file/prj_file.py:87-91 | the timestamp becomes the file's modification time, or None when it cannot be read |
| PrjFiles.PrjFile.KeepWordCount | src/mdnvlib/file/prj_file.py:93-107 | an empty log notes nothing; otherwise it fails exactly when the last entry cannot be indexed twice, and notes the actual counts under the file date (or today) exactly when they differ from the last logged ones |
| PrjFiles.PrjFile.UpdateWordCountLog | src/mdnvlib/file/prj_file.py:109-117 | with word counts saved, today's counts join the missing ones and all are merged into the log; otherwise the log is unchanged; either way nothing is left missing |
| PrjFiles.PrjFile.WithTodaysCounts | src/mdnvlib/file/prj_file.py:111-114 | the missing counts with today's counts added under today's date |
| PrjFiles.MergeLog | src/mdnvlib/file/prj_file.py:115-116 | the copy loop computes Merged: the log with every missing entry copied in, in order |
| MdnovFiles.AddKey | src/mdnvlib/mdnov/mdnov_file.py:151-158 | a field is empty exactly when the key or the text is empty or None; otherwise it starts with '%%Key:' and a blank line and ends with a blank line |
| MdnovFiles.UpTo | src/mdnvlib/mdnov/mdnov_file.py:151-158 | the prefix of a text up to, and without, the first given character |
| MdnovFiles.UpToSeparator | src/mdnvlib/mdnov/mdnov_file.py:151-158 | the prefix before a separator is exactly the part written before it |
| MdnovFiles.FieldRoundTrip | src/mdnvlib/mdnov/mdnov_file.py:151-158 | a written field gives back its key and the stripped text, which has no outer whitespace |
| MdnovFiles.YamlText | src/mdnvlib/mdnov/mdnov_file.py:160-163 | no YAML lines give the empty text and a single line gives that line |
| MdnovFiles.FieldChunks | src/mdnvlib/mdnov/mdnov_file.py:77-87 | one placeholder per field name of a template, in order |
| MdnovFiles.MdnovTemplates | src/mdnvlib/mdnov/mdnov_file.py:63-124 | the plot line template is not empty; there is no section divider and no file footer |
| MdnovFiles.FieldChunksText | src/mdnvlib/mdnov/mdnov_file.py:77-87 | the placeholders of a template's field line fill with the named values one after the other |
| MdnovFiles.HeadText | src/mdnvlib/mdnov/mdnov_file.py:71-75 | a block starts with '@@' and the ID, then the YAML between '---' lines |
| MdnovFiles.BlockText | src/mdnvlib/mdnov/mdnov_file.py:71-78 | a block filled from a mapping is the ID, the YAML and the field values in template order |
| MdnovFiles.SectionMapText | src/mdnvlib/mdnov/mdnov_file.py:190-200 | the section mapping fills the section block's field line with description, notes, goal, conflict, outcome and content in that order |
| MdnovFiles.SectionBlock | src/mdnvlib/mdnov/mdnov_file.py:81-88 | a section is written as its ID and metadata, then its description, notes, goal, conflict, outcome and content, each absent when empty |
| MdnovFiles.ChapterNotesFromDesc | src/mdnvlib/mdnov/mdnov_file.py:172-178 | a chapter's block writes its description twice, as Desc and as Notes; its own notes never reach the file |
| MdnovFiles.WorldNotesFromDesc | src/mdnvlib/mdnov/mdnov_file.py:180-223 | characters, locations and items write their description where their notes belong, and changing their notes changes nothing written |
| MdnovFiles.ArcMappingFails | src/mdnvlib/mdnov/mdnov_file.py:165-170 | as written, a plot line's mapping always fails, because the novel has no arcs attribute |
| MdnovFiles.ArcBlock | src/mdnvlib/mdnov/mdnov_file.py:116-123 | a plot line's block filled from its mapping holds the ID, the plot line's metadata and its description field |
| MdnovFiles.ArcMappingFixed | src/mdnvlib/mdnov/mdnov_file.py:165-170 | corrected, a plot line of the project gets the export's mapping with its metadata and description, and its block holds exactly those |
| MdnovFiles.PlotLineBreaksExport | src/mdnvlib/mdnov/mdnov_file.py:165-170 | as written, a project with an accepted plot line cannot be written as .mdnov, and the files stay as they were |
| MdnovFiles.FailingArcBreaksText | src/mdnvlib/mdnov/mdnov_file.py:165-170 | one accepted plot line whose mapping fails makes the whole text fail |
| MdnovFiles.ArcPieceListed | src/mdnvlib/mdnov/mdnov_file.py:116-123 | every accepted plot line has its block among the pieces of the text |
| MdnovFiles.ListedPieceFails | src/mdnvlib/mdnov/mdnov_file.py:165-170 | one piece that fails to render makes the whole text fail |
| MdnovFiles.VerifiedEntry | src/mdnvlib/mdnov/mdnov_file.py:455-458 | a WC element gives a log entry exactly when its date is an ISO date and its count and total count are strings int() accepts; the entry holds the date and the two strings |
| MdnovFiles.LogRead | src/mdnvlib/mdnov/mdnov_file.py:448-459 | the log after the read is a valid ordered log |
| MdnovFiles.LogReadSound | src/mdnvlib/mdnov/mdnov_file.py:448-459 | every entry of the log read was there before or comes from a WC element that passed its checks |
| MdnovFiles.LogReadComplete | src/mdnvlib/mdnov/mdnov_file.py:448-459 | no earlier date is lost, and every WC element that passes its checks leaves its date in the log |
| MdnovFiles.CountStringsRead | src/mdnvlib/mdnov/mdnov_file.py:308-310 | the decimal strings the log keeps parse back to the counts and pass verified_int_string unchanged |
| MdnovFiles.MdnovFile.constructor | src/mdnvlib/mdnov/mdnov_file.py:126-149 | a new .mdnov file has an empty log, no missing counts and no timestamp |
| MdnovFiles.MdnovFile.CountWords | src/mdnvlib/mdnov/mdnov_file.py:244-259 | the counts are those of the project-wide rule: normal sections, then normal and unused ones, of chapters not in the trash; the first is at most the second |
| MdnovFiles.MdnovFile.AdjustSectionTypes | src/mdnvlib/mdnov/mdnov_file.py:232-242 | chapter levels and trash flags are kept, and every chapter and section gets the type of the project-wide adjustment rule |
| MdnovFiles.MdnovFile.GetTimestamp | src/mdnvlib/mdnov/mdnov_file.py:297-301 | the timestamp becomes the file's modification time, or None when it cannot be read |
| MdnovFiles.MdnovFile.KeepWordCount | src/mdnvlib/mdnov/mdnov_file.py:303-319 | an empty log notes nothing; otherwise the decimal strings of the actual counts are noted under the file date (or today) exactly when they differ from the last logged entry |
| MdnovFiles.MdnovFile.UpdateWordCountLog | src/mdnvlib/mdnov/mdnov_file.py:461-470 | with word counts saved, today's counts as strings join the missing ones and all are merged into the log; otherwise the log is unchanged; either way nothing is left missing |
| MdnovFiles.MdnovFile.WithTodaysCounts | src/mdnvlib/mdnov/mdnov_file.py:463-467 | the missing counts with today's counts added as strings under today's date |
| MdnovFiles.MdnovFile.ReadWordCountLog | src/mdnvlib/mdnov/mdnov_file.py:448-459 | the log becomes the one LogRead gives for the WC elements |
| MdnovFiles.MdnovFile.Write | src/mdnvlib/mdnov/mdnov_file.py:288-290 | the file store changes exactly as the export's write of the .mdnov text says, with the corrected plot line mapping; the timestamp is taken only on success, and neither log changes |
| NvWorkFiles.FirstTrash | src/mdnvlib/model/nv_work_file.py:40-43 | the chapter the loop stops at is one of the chapters |
| NvWorkFiles.FirstTrashIsFirst | src/mdnvlib/model/nv_work_file.py:40-43 | the loop finds a chapter exactly when some trash chapter has a successor, and then it is the first such chapter |
| NvWorkFiles.TrashMovedShape | src/mdnvlib/model/nv_work_file.py:34-43 | at most one chapter moves: the first trash chapter that is not last goes to the end and the others keep their order; the book keeps its chapters and every other node its children; nothing moves exactly when no trash chapter has a successor |
| NvWorkFiles.LastNotMovable | src/mdnvlib/model/nv_work_file.py:41-42 | a chapter with a successor really changes the order when it moves to the end |
| NvWorkFiles.WithoutCount | src/mdnvlib/model/nv_work_file.py:42 | removing a node removes every occurrence of it |
| NvWorkFiles.LastHasNoNext | src/mdnvlib/model/nv_work_file.py:41 | a chapter moved to the end has no successor |
| NvWorkFiles.TrashMovedSettles | src/mdnvlib/model/nv_work_file.py:34-43 | with a single trash chapter the rule settles: applying it again after the move changes nothing |
| NvWorkFiles.NvWorkFile.constructor | src/mdnvlib/model/nv_work_file.py:15-25 | a work file is built over the .mdnov file it extends |
| NvWorkFiles.NvWorkFile.FileDate | src/mdnvlib/model/nv_work_file.py:27-32 | the file date is 'Never' without a timestamp and the formatted timestamp otherwise |
| NvWorkFiles.NvWorkFile.HasChangedOnDisk | src/mdnvlib/model/nv_work_file.py:45-55 | the file has changed on disk exactly when its modification time can be read and differs from the timestamp; an unreadable time counts as unchanged |
| NvWorkFiles.NvWorkFile.Write | src/mdnvlib/mdnov/mdnov_file.py:288-290 | the files change as the .mdnov write says; after a successful write the file is not seen as changed on disk, and a failed write keeps the timestamp |
| NvWorkFiles.NvWorkFile.AdjustSectionTypes | src/mdnvlib/model/nv_work_file.py:34-43 | the types become those of the project-wide adjustment rule, levels and trash flags are kept, and then the tree is the one the trash rule gives |
| NvWorkFiles.ChTypesKept | src/mdnvlib/model/nv_work_file.py:42 | moving a tree node changes no chapter type |
| NvWorkFiles.MoveTrash | src/mdnvlib/model/nv_work_file.py:40-43 | the loop changes only the tree, into the one the trash rule gives; types, levels and trash flags stay as they were |
| FileExports.SubstituteNothing | src/mdnvlib/file/file_export.py:305-317 | safe_substitute with an empty mapping leaves every placeholder as it stands |
| FileExports.SubstituteConcat | src/mdnvlib/file/file_export.py:305-317 | substituting a template made of two parts gives the two parts' texts one after the other |
| FileExports.SectionStep | src/mdnvlib/file/file_export.py:677-726 | a rejected section changes nothing; the pass fails exactly when an accepted section is missing or a shown one has no type; a hidden section adds nothing; section number and word total grow only for a counted section |
| FileExports.CountedIds | src/mdnvlib/file/file_export.py:704-708 | the sections the loop counts are sections of the project |
| FileExports.SectionsCount | src/mdnvlib/file/file_export.py:704-708 | the section number grows by one for each counted section and the word total by its words: only accepted normal sections of a used chapter count |
| FileExports.SectionsOrder | src/mdnvlib/file/file_export.py:677-726 | the lines the loop adds come after the earlier lines and hold exactly the shown sections, in their order |
| FileExports.StepLines | src/mdnvlib/file/file_export.py:677-726 | one pass appends to the lines, and what it appends holds the section exactly when it is shown |
| FileExports.SectionsFirst | src/mdnvlib/file/file_export.py:676-725 | the chapter's first position ends exactly when a shown section of type 0 or 1 is met |
| FileExports.ShownTyped | src/mdnvlib/file/file_export.py:687-699 | every section a successful loop shows has a type |
| FileExports.GetSections | src/mdnvlib/file/file_export.py:656-726 | the loop over a chapter's sections gives the lines, section number and word total SectionLines specifies |
| FileExports.SectionsFailLater | src/mdnvlib/file/file_export.py:656-726 | once the section loop fails on a prefix it fails on the whole chapter with the same error |
| FileExports.AcceptAll | src/mdnvlib/file/file_export.py:188-294 | the base filter accepts every chapter, section, character, location, item and plot line |
| FileExports.ChapterStep | src/mdnvlib/file/file_export.py:198-236 | a rejected chapter changes nothing, a missing accepted one raises KeyError; an accepted chapter adds its heading, its sections and its ending, and counts one more chapter exactly when it is numbered |
| FileExports.CountedInChapters | src/mdnvlib/file/file_export.py:198-236 | the sections counted across the chapters are sections of the project |
| FileExports.ChaptersCount | src/mdnvlib/file/file_export.py:188-237 | chapter numbers count the numbered chapters; section numbers and the word total run on across chapters over the counted sections |
| FileExports.GetChapters | src/mdnvlib/file/file_export.py:188-237 | the loop over the chapters gives the lines and counters ChapterLines specifies, starting from zero |
| FileExports.ChaptersFailLater | src/mdnvlib/file/file_export.py:188-237 | once the chapter loop fails on a prefix it fails on the whole book with the same error |
| FileExports.Accepted | src/mdnvlib/file/file_export.py:288-293 | the IDs a filter accepts are exactly the accepted IDs of the list, never more than it holds |
| FileExports.ElementPieces | src/mdnvlib/file/file_export.py:290-293 | one line per ID, the template filled for it, in order |
| FileExports.GetElements | src/mdnvlib/file/file_export.py:277-294 | the loop of _get_characters, _get_locations and _get_items gives the heading, if any, then one line per accepted ID |
| FileExports.AcceptedStep | src/mdnvlib/file/file_export.py:290-292 | one more ID adds itself to the accepted ones exactly when the filter accepts it |
| FileExports.ElementPiecesSnoc | src/mdnvlib/file/file_export.py:290-293 | one more ID adds one more line |
| FileExports.ElementLinesHold | src/mdnvlib/file/file_export.py:277-294 | the element lines hold a line for exactly the accepted IDs |
| FileExports.ConvertFromNovx | src/mdnvlib/file/file_export.py:108-124 | None becomes the empty text; any other text is taken as it is |
| FileExports.NumberText | src/mdnvlib/file/file_export.py:502-503 | a number shows as empty exactly when it is 0 |
| FileExports.GetRenamings | src/mdnvlib/file/file_export.py:452-485 | each label is the novel's custom one when that is set and not empty, otherwise its default; no label is empty |
| FileExports.RenamingsFallBack | src/mdnvlib/file/file_export.py:452-485 | a novel with no custom labels gets the eight default labels |
| FileExports.DurationEmpty | src/mdnvlib/file/file_export.py:573-594 | the combined duration is empty exactly when days, hours and minutes are each None or '0' |
| FileExports.TimeFields | src/mdnvlib/file/file_export.py:563-571 | no time gives empty Time and OdsTime; a time gives them exactly when it splits at ':' into three parts |
| FileExports.FindCharAfter | src/mdnvlib/file/file_export.py:564 | the first separator of a text is the one after a part without separators |
| FileExports.SplitAtFirst | src/mdnvlib/file/file_export.py:564 | splitting at a separator takes off the part before its first occurrence |
| FileExports.TimeOfClock | src/mdnvlib/file/file_export.py:563-567 | a time 'h:m:s' gives the Time 'h:m' and the ISO 8601 duration 'PThHmMsS' |
| FileExports.Titles | src/mdnvlib/file/file_export.py:508-510 | the character titles are taken in list order and fail with KeyError exactly when an ID is not a character |
| FileExports.JoinTitles | src/mdnvlib/file/file_export.py:511 | the titles join exactly when none is None |
| FileExports.CharacterFields | src/mdnvlib/file/file_export.py:507-521 | a section without characters, or with an empty list, has empty Characters and Viewpoint |
| FileExports.Viewpoint | src/mdnvlib/file/file_export.py:513-514 | the viewpoint is the title of the first listed character, which exists and has a title |
| FileExports.FooterText | src/mdnvlib/file/file_export.py:296-303 | the footer is written as it stands when it has no placeholder and fails to render when it has one |
| FileExports.RenderAllOk | src/mdnvlib/file/file_export.py:761-775 | the text renders exactly when every line does |
| FileExports.RenderAllConcat | src/mdnvlib/file/file_export.py:775 | rendering works line by line: the text of a + b is the text of a followed by that of b |
| FileExports.RenderLines | src/mdnvlib/file/file_export.py:775 | the loop that renders and joins the lines gives RenderAll |
| FileExports.RenderFailsLater | src/mdnvlib/file/file_export.py:775 | once rendering fails on a prefix of the lines it fails on all of them with the same error |
| FileExports.AcceptedAll | src/mdnvlib/file/file_export.py:745-759 | a filter that accepts everything keeps every ID in order, as the project note loop does |
| FileExports.GetText | src/mdnvlib/file/file_export.py:761-775 | the header, chapters, characters, locations, items, plot lines, project notes and footer in this order, joined, as Text specifies |
| FileExports.Moved | src/mdnvlib/file/file_export.py:95 | os.replace gives the destination the source's content and removes the source; no other file changes |
| FileExports.FileStore.constructor | src/mdnvlib/file/file_export.py:84-106 | the store starts with the given files |
| FileExports.FileStore.Replace | src/mdnvlib/file/file_export.py:95 | a successful os.replace moves the file; a failed one changes nothing |
| FileExports.FileStore.WriteText | src/mdnvlib/file/file_export.py:101-102 | a successful write puts the text at the path; a failed one changes nothing |
| FileExports.WriteSucceeds | src/mdnvlib/file/file_export.py:84-106 | write succeeds exactly when the text is made, the file can be written and an existing file can be backed up |
| FileExports.WrittenFiles | src/mdnvlib/file/file_export.py:84-106 | a successful write leaves the new text at the path and the old one, if any, at path.bak; no other file changes |
| FileExports.FailedWriteKeepsFiles | src/mdnvlib/file/file_export.py:84-106 | a failed write leaves the file at the path as it was, or absent as it was, and no other file changes; when the text failed or no backup was made nothing changes at all, and a restored backup leaves no path.bak |
| FileExports.Write | src/mdnvlib/file/file_export.py:84-106 | write changes the files and reports exactly as WriteOutcome says for the text GetText makes |
| MdHelpers.MaskingRemovesDashes | src/mdnvlib/md/md_helper.py:10-11 | masking '\n---' never adds a dash and removes at least one while a rule is left, so the first loop ends |
| MdHelpers.CollapsingShortens | src/mdnvlib/md/md_helper.py:14-15 | collapsing '\n\n' never lengthens the text and shortens it while a double newline is left, so the second loop ends |
| MdHelpers.Unruled | src/mdnvlib/md/md_helper.py:10-11 | after the first loop no '\n---' is left |
| MdHelpers.Collapsed | src/mdnvlib/md/md_helper.py:14-15 | after the second loop no '\n\n' is left |
| MdHelpers.SanitizeMarkdown | src/mdnvlib/md/md_helper.py:9-17 | the two loops and the replacements compute Sanitized, whose properties the lemmas below state |
| MdHelpers.CollapseKeepsRuleFree | src/mdnvlib/md/md_helper.py:14-15 | collapsing newlines cannot create a '\n---' that was not there |
| MdHelpers.CollapsedKeepsRuleFree | src/mdnvlib/md/md_helper.py:14-15 | the collapse loop keeps a text free of '\n---' |
| MdHelpers.CollapsedKeepsAbsent | src/mdnvlib/md/md_helper.py:14-15 | the collapse loop creates no text without newlines that was not there |
| MdHelpers.DoubleKeepsRuleFree | src/mdnvlib/md/md_helper.py:16 | doubling the newlines cannot create a '\n---' |
| MdHelpers.NoRule | src/mdnvlib/md/md_helper.py:9-17 | a sanitized text holds no '\n---', so no line of it reads as a YAML separator |
| MdHelpers.NoMarkers | src/mdnvlib/md/md_helper.py:9-17 | a sanitized text holds no '@@' and no '%%', so it cannot open a block or a field of the .mdnov format |
| MdHelpers.DoubledPaired | src/mdnvlib/md/md_helper.py:16 | doubling the newlines of a text without double newlines puts every newline in a pair |
| MdHelpers.StripKeepsPaired | src/mdnvlib/md/md_helper.py:16 | stripping keeps the newlines paired |
| MdHelpers.NewlinesPaired | src/mdnvlib/md/md_helper.py:9-17 | in a sanitized text newlines come in pairs: paragraphs are separated by exactly one blank line |
| MdHelpers.HalveDouble | src/mdnvlib/md/md_helper.py:14-16 | halving paired newlines leaves no double newline, and doubling again restores the text |
| MdHelpers.SanitizedShape | src/mdnvlib/md/md_helper.py:9-17 | a sanitized text has no rule, no block or field marker, paired newlines and no outer whitespace |
| MdHelpers.Idempotent | src/mdnvlib/md/md_helper.py:9-17 | sanitizing a sanitized text changes nothing |
| MdFiles.MdConvert | src/mdnvlib/md/md_file.py:26-44 | no text gives ''; a one-liner is kept as it is; any other text comes out with no leading or trailing whitespace |
| MdFiles.ReplaceLine | src/mdnvlib/md/md_file.py:44 | a line without newlines passes unchanged through a replacement whose pattern starts with a newline |
| MdFiles.CollapseSpaced | src/mdnvlib/md/md_file.py:44 | after the first replacement, paragraphs that were one or two newlines apart are exactly one newline apart |
| MdFiles.CollapseSeparator | src/mdnvlib/md/md_file.py:44 | one newline or two in front of a line of text collapse to one |
| MdFiles.RestStartsWithText | src/mdnvlib/md/md_file.py:44 | spaced paragraphs start with text, not with a newline |
| MdFiles.DoubleJoined | src/mdnvlib/md/md_file.py:44 | after the second replacement, paragraphs one newline apart have one blank line between them |
| MdFiles.OneBlankLine | src/mdnvlib/md/md_file.py:26-44 | whatever mix of single and double newlines separated the paragraphs, the Markdown text puts exactly one blank line between them |
| HtmlReports.Escape | src/mdnvlib/html/html_report.py:49 | after escaping, no '<', '>', '"' or "'" is left in the text |
| HtmlReports.UnescapeStep | src/mdnvlib/html/html_report.py:49 | undoing the escape of one character gives that character back, whatever follows |
| HtmlReports.UnescapePlain | src/mdnvlib/html/html_report.py:49 | a character that needs no escaping is read back as itself |
| HtmlReports.UnescapeLt | src/mdnvlib/html/html_report.py:49 | '&lt;' is read back as '<' |
| HtmlReports.UnescapeGt | src/mdnvlib/html/html_report.py:49 | '&gt;' is read back as '>' |
| HtmlReports.UnescapeQuot | src/mdnvlib/html/html_report.py:49 | '&quot;' is read back as '"' |
| HtmlReports.UnescapeApos | src/mdnvlib/html/html_report.py:49 | '&#x27;' is read back as "'" |
| HtmlReports.UnescapeEscape | src/mdnvlib/html/html_report.py:49 | escaping loses nothing: unescaping the escaped text gives the original back |
| HtmlReports.Paragraphs | src/mdnvlib/html/html_report.py:53-55 | the loop gives one output line per input line, each the input line wrapped in <p> and </p> |
| HtmlReports.ParagraphsOf | src/mdnvlib/html/html_report.py:53-55 | the paragraph list has one entry per line, each the line wrapped in <p> and </p> |
| HtmlReports.HtmlText | src/mdnvlib/html/html_report.py:38-56 | a missing or empty text gives '' |
| HtmlReports.ConvertFromMdnov | src/mdnvlib/html/html_report.py:38-56 | the conversion, loop included, gives the HTML text HtmlText defines |
| HtmlReports.NoNewlineLeft | src/mdnvlib/html/html_report.py:50-51 | replacing every newline by a space leaves no newline |
| HtmlReports.QuickIsOneLine | src/mdnvlib/html/html_report.py:50-51 | the quick conversion always yields a single line |
| HtmlReports.SplitChars | src/mdnvlib/html/html_report.py:54 | every character of a piece of a split occurs in the text split |
| HtmlReports.ParagraphsEscaped | src/mdnvlib/html/html_report.py:46-56 | a non-empty text becomes its escaped, right-stripped lines, each wrapped in <p>…</p> and joined by newlines, and no line carries a raw '<' or '>' |
| HtmlReports.HtmlTextAsWritten | src/mdnvlib/html/html_report.py:38-56 | as written, the report applies the inherited conversion, which hands the text back unchanged |
| HtmlReports.UnescapedMarkup | src/mdnvlib/html/html_report.py:38-56 | the title '<b>' keeps its raw '<' as written, and loses it under the conversion the class defines |
| HtmlReports.ReplaceKeepsAbsent | src/mdnvlib/html/html_report.py:50-51 | replacing newlines by spaces brings in no character other than the space |
| MdDrafts.ChapterIdNotRoot | src/mdnvlib/md/md_import.py:75 | an ID made with the chapter prefix never names the book's root |
| MdDrafts.AddChapter | src/mdnvlib/md/md_import.py:74-84 | adding a chapter keeps the sections, adds the new ID to the chapters and appends it at the end of the book's chapter list |
| MdDrafts.AddSection | src/mdnvlib/md/md_import.py:94-104 | adding a section keeps the chapters, adds the new ID to the sections, appends it to its chapter's list and leaves every other list as it was |
| MdImports.Wrapped | src/mdnvlib/md/md_import.py:34-36 | one paragraph per collected line |
| MdImports.Written | src/mdnvlib/md/md_import.py:31-43 | with no open section nothing changes; otherwise only that section changes: its content becomes the lines as paragraphs, its status 1 below ten words and 2 from ten words on |
| MdImports.WriteSectionContent | src/mdnvlib/md/md_import.py:31-43 | the loop-based write gives the draft Written describes |
| MdImports.ContentCons | src/mdnvlib/md/md_import.py:34-38 | a line without newline becomes exactly one '<p>…</p>' paragraph in front of the others, an empty line '<p></p>' |
| MdImports.Step | src/mdnvlib/md/md_import.py:66-104 | one pass of the loop keeps the reader's invariant: the open chapter and section exist and IDs are unique |
| MdImports.Fold | src/mdnvlib/md/md_import.py:66-104 | the whole loop keeps the reader's invariant and stops at the first error |
| MdImports.TitleFound | src/mdnvlib/md/md_import.py:77 | the chapter title exists exactly when the heading contains '# ' |
| MdImports.HeadingStep | src/mdnvlib/md/md_import.py:67-84 | a heading writes and closes the open section and opens a fresh chapter ID; it fails with IndexError exactly when the line lacks '# ', and otherwise adds the chapter at the end of the book with level 1 for '# ' and 0 otherwise; the collected lines are not cleared |
| MdImports.DividerStep | src/mdnvlib/md/md_import.py:85-88 | a divider writes and closes the open section; nothing else changes |
| MdImports.CollectStep | src/mdnvlib/md/md_import.py:89-92 | inside a section every line is collected, empty ones too, except empty lines before the first |
| MdImports.OpenSectionStep | src/mdnvlib/md/md_import.py:93-104 | outside a section, a non-empty line under a chapter opens a section titled 'Section <n>' at the end of that chapter and starts the lines with it; any other line changes nothing |
| MdImports.PreambleIgnored | src/mdnvlib/md/md_import.py:66-104 | text before the first heading changes nothing: without a chapter no section opens |
| MdImports.ChapterCount | src/mdnvlib/md/md_import.py:66-104 | a read without error adds one chapter per line starting with '#', at the end of the book, keeping the chapters already there in front |
| MdImports.FoldStops | src/mdnvlib/md/md_import.py:66-104 | once the loop has raised, later lines change nothing |
| MdImports.ReadLine | src/mdnvlib/md/md_import.py:66-104 | the imperative loop body computes the step Step defines |
| MdImports.Read | src/mdnvlib/md/md_import.py:26-105 | reading the text gives the draft and error Imported defines: the loop over the text's lines, then the final write |
| MdOutlines.WriteDesc | src/mdnvlib/md/md_outline.py:29-36 | the loop-based join gives the description DescText defines |
| MdOutlines.DescIsJoined | src/mdnvlib/md/md_outline.py:29-36 | for lines read from a file, the description is the lines concatenated without separator |
| MdOutlines.Described | src/mdnvlib/md/md_outline.py:62-70 | the lines become the open section's description, else the open chapter's, else nothing changes; the tree is untouched |
| MdOutlines.LStripChars | src/mdnvlib/md/md_outline.py:91 | lstrip(chars) gives a suffix of the text that does not start with one of chars |
| MdOutlines.HeadingSplits | src/mdnvlib/md/md_outline.py:76 | a chapter heading always splits on '# ' into at least two parts, so the title lookup cannot fail |
| MdOutlines.SectionAdded | src/mdnvlib/md/md_outline.py:94-104 | a new section is added under its ID and appended to the open chapter's list; with no chapter open it lands in no chapter's list |
| MdOutlines.WriteOpenDesc | src/mdnvlib/md/md_outline.py:107-110 | the final write gives the draft Described defines |
| MdOutlines.Step | src/mdnvlib/md/md_outline.py:60-106 | one pass of the loop keeps the reader's invariant: open elements exist and IDs are unique |
| MdOutlines.Fold | src/mdnvlib/md/md_outline.py:60-106 | the whole loop keeps the reader's invariant |
| MdOutlines.ChapterHeadingStep | src/mdnvlib/md/md_outline.py:61-85 | a '# ' or '## ' heading writes the collected lines to what was open, adds a chapter under a fresh ID at the end of the book, level 1 for '# ' and 0 for '## ', and clears the lines |
| MdOutlines.SectionHeadingStep | src/mdnvlib/md/md_outline.py:86-104 | a '### ' heading writes the collected lines to what was open, adds a section under a fresh ID to the open chapter and clears the lines |
| MdOutlines.SectionKeepsBook | src/mdnvlib/md/md_outline.py:86-104 | a section heading leaves the chapter count and the book's list of chapters as they were, even with a chapter open |
| MdOutlines.HeadingTitle | src/mdnvlib/md/md_outline.py:91 | a trimmed heading text that does not start with '#' or a space is the section title as it stands |
| MdOutlines.LStripPrefix | src/mdnvlib/md/md_outline.py:91 | lstrip removes exactly a leading run of the given characters |
| MdOutlines.EmptyHeadingTitle | src/mdnvlib/md/md_outline.py:91-104 | a '### ' heading without text gives the empty title, not 'Section <n>' |
| MdOutlines.TextLineStep | src/mdnvlib/md/md_outline.py:105-106 | any other line is collected, except empty lines before the first |
| MdOutlines.ChapterCount | src/mdnvlib/md/md_outline.py:60-106 | every chapter heading adds one chapter at the end of the book, in file order, keeping the chapters already there in front |
| MdOutlines.PreambleDropped | src/mdnvlib/md/md_outline.py:60-110 | lines before the first heading change nothing |
| MdOutlines.CollectedLinesFree | src/mdnvlib/md/md_outline.py:60-106 | the collected lines come from the file, so none holds a newline |
| MdOutlines.LastDescription | src/mdnvlib/md/md_outline.py:107-110 | the last description is the collected lines concatenated |
| MdOutlines.ReadLine | src/mdnvlib/md/md_outline.py:61-106 | one pass of the loop on the reader's local variables does what Step defines: a chapter heading, a section heading or a collected line |
| MdOutlines.ReadChapterHeading | src/mdnvlib/md/md_outline.py:61-85 | the chapter-heading branch on the reader's local variables does what Step defines for a '# ' or '## ' line |
| MdOutlines.ReadSectionHeading | src/mdnvlib/md/md_outline.py:86-104 | the section-heading branch on the reader's local variables does what Step defines for a '### ' line |
| MdOutlines.Read | src/mdnvlib/md/md_outline.py:26-110 | reading the text gives the draft Outlined defines: the loop over the text's lines, then the final write |
| Filters.SectionFilter | src/mdnvlib/exporter/filter_factory.py:18-33 | a character ID gives the viewpoint filter, else a plot line ID the plot line filter, and exactly every other ID the filter that passes everything |
| Filters.ChapterFilter | src/mdnvlib/exporter/filter_factory.py:35-50 | a character ID gives the chapter viewpoint filter, else a plot line ID the chapter plot line filter, and exactly every other ID the filter that passes everything |
| Filters.FiltersMirror | src/mdnvlib/exporter/filter_factory.py:18-50 | the section and the chapter factory pick the same kind of filter for every ID |
| Filters.PrefixesExclusive | src/mdnvlib/exporter/filter_factory.py:26-30 | no ID starts with both the character and the plot line prefix, so the order of the two tests does not matter |
| Filters.EmptyIdPassesAll | src/mdnvlib/exporter/filter_factory.py:32-33 | the empty ID gets the filter that passes everything, from both factories |
| Filters.ViewpointAccepts | src/mdnvlib/exporter/sc_vp_filter.py:20-35 | a section is accepted exactly when it exists and its first listed character is the filter character; a missing section or an empty or missing list gives false |
| Filters.OnlyViewpointCounts | src/mdnvlib/exporter/sc_vp_filter.py:30 | only the first character counts: changing the others never changes the answer |
| Filters.ViewpointFilters | src/mdnvlib/exporter/sc_vp_filter.py:20-35 | the export filters built for a viewpoint accept exactly the sections ViewpointAccepts accepts, and every other element |
| Filters.ViewpointMessage | src/mdnvlib/exporter/sc_vp_filter.py:37-39 | an unknown character raises; otherwise the message is the label, ': ' and the character's title |
| Factories.LastIndex | src/mdnvlib/converter/export_source_factory.py:30 | the last position of the character, or None exactly when it does not occur |
| Factories.SplitExt | src/mdnvlib/converter/export_source_factory.py:30 | the root and the extension put back together give the path; an extension starts with its only dot and holds no '/' |
| Factories.FirstWithExtension | src/mdnvlib/converter/export_source_factory.py:31-34 | the first class whose extension is the one asked for, or None exactly when there is none |
| Factories.FirstWithSuffix | src/mdnvlib/converter/import_source_factory.py:27-31 | the first class with a suffix whose suffix and extension end the path, or None exactly when there is none |
| Factories.ExportSource | src/mdnvlib/converter/export_source_factory.py:18-36 | succeeds exactly when some class has the path's extension, then reads with the first such class and makes no target; otherwise 'not supported' |
| Factories.ImportSource | src/mdnvlib/converter/import_source_factory.py:15-33 | succeeds exactly when some class's suffix and extension end the path, then reads with the first such class and makes no target; otherwise 'not meant to be written back' |
| Factories.NoSuffixNeverImported | src/mdnvlib/converter/import_source_factory.py:28 | a class without a suffix is never picked for import |
| Factories.EndsWithAny | src/mdnvlib/converter/new_project_factory.py:79-81 | true exactly when the name ends with one of the suffixes |
| Factories.CanImport | src/mdnvlib/converter/new_project_factory.py:69-83 | a file cannot be imported exactly when its name without extension ends with one of the refused suffixes |
| Factories.NewProject | src/mdnvlib/converter/new_project_factory.py:29-67 | fails exactly for a refused file, an unreadable '.md' file or a file no class's suffix matches; otherwise the target is the source path with the project extension, and a '.md' file is read as an outline exactly when it contains '### ' |
| Factories.RefusedBeforeReading | src/mdnvlib/converter/new_project_factory.py:41-42 | a refused file fails before it is read: its content makes no difference |
| Factories.TargetBesideSource | src/mdnvlib/converter/new_project_factory.py:44-45 | the target lies beside the source, with the project extension in place of the source's |
| Clipboard.TagsRoundTrip | src/mdnvlib/controller/clipboard_manager.py:59-100 | every element kind copied under a tag is pasted back as the same kind, and every tag pasted is one that copy writes |
| Clipboard.NodePrefix | src/mdnvlib/controller/clipboard_manager.py:54 | the prefix is the start of the node ID, at most two characters long |
| Clipboard.CopyTag | src/mdnvlib/controller/clipboard_manager.py:45-104 | the node is copied exactly when no prefix was asked for or the node has it, and its prefix is an element kind; the tag is that kind's tag |
| Clipboard.Without | src/mdnvlib/controller/clipboard_manager.py:266-277 | removing keys keeps the object well-formed |
| Clipboard.WithoutKeys | src/mdnvlib/controller/clipboard_manager.py:266-277 | exactly the reference keys are gone and every other key keeps its value |
| Clipboard.WithoutKeepsOrder | src/mdnvlib/controller/clipboard_manager.py:266-277 | the keys left keep their order |
| Clipboard.RemoveKeyOrder | src/mdnvlib/controller/clipboard_manager.py:277 | deleting one key keeps the order of the others |
| Clipboard.WithoutIdempotent | src/mdnvlib/controller/clipboard_manager.py:266-277 | removing the references a second time changes nothing |
| Clipboard.WithoutAbsent | src/mdnvlib/controller/clipboard_manager.py:275-277 | an object without references is left as it is |
| Clipboard.JsonObject.constructor | src/mdnvlib/controller/clipboard_manager.py:106 | the new object holds the entries given |
| Clipboard.RemoveReferences | src/mdnvlib/controller/clipboard_manager.py:266-277 | the object changed in place holds what Without gives: the reference keys removed, the rest unchanged in order |
| Clipboard.SectionCreator | src/mdnvlib/controller/clipboard_manager.py:177-182 | a section without type is created as a section; a type above 1 gives a stage and any other readable type a section; no creator exactly when the data is no object or the type is no number |
| Clipboard.PasteCreator | src/mdnvlib/controller/clipboard_manager.py:154-228 | an unknown tag, or a prefix asked for that differs from the tag's, pastes nothing; section data gets the section creator's choice, and stages and sections are only created for the section tag |
| Clipboard.CopiedSectionPastedAsSection | src/mdnvlib/controller/clipboard_manager.py:154-183 | a copied section is pasted as a section or a stage, and refused where a chapter is asked for |
| Clipboard.ChildIds | src/mdnvlib/controller/clipboard_manager.py:237-260 | when every child can be read, one ID is made per child |
| Clipboard.ChildIdsChain | src/mdnvlib/controller/clipboard_manager.py:237-260 | each child is created with its own creator, right after the child created before it, the first after the parent |
| Clipboard.PointsAlwaysPasted | src/mdnvlib/controller/clipboard_manager.py:252-260 | the points of a pasted plot line are always all created, one per point on the clipboard |
| Clipboard.PasteChildren | src/mdnvlib/controller/clipboard_manager.py:237-260 | the child loop succeeds exactly when ChildIds does, and then makes the IDs ChildIds gives |

## Left out

- Files, encodings and the operating system are not modelled. Reading, writing, `os.replace`, `os.path.getmtime`, `json.load` and `json.dump` are not modelled. In their place:
  - readers take the parsed text or the parsed JSON value;
  - writers work on a store of files (path to content), with the success of each replace and write given as a flag;
  - a modification time is a parameter.
- Error messages are plain strings. The `_` translation and `norm_path` are taken as the identity.
- Clocks and locales are parameters:
  - `date.today()` and the file date are inputs;
  - the `strftime('%x')` locale date of a section is modelled as the ISO date itself;
  - the system locale that `check_locale` reads is an input.
- novx_globals.py is not part of this model. `string_to_list`, `list_to_string`, `intersection` and the `verified_*` functions get the definitions stated in `novx_globals.dfy`. The ID prefixes and tree roots are placeholder constants.
- `create_id` is not part of this model. The Markdown readers take it as a parameter that returns a key not yet in use, starting with the prefix asked for.
- nv_tree.py is not part of this model. `NvTrees` stands in for the four tree operations the core calls.
- chapter.py is not part of this model. The Chapter class and its `to_yaml` are reconstructed from their callers. `MdnovFiles` takes a chapter's metadata lines as a parameter.
- The codec files of world elements, plot lines and plot points for the JSON format are not part of this model. Those codecs are reconstructed from their call sites in json_file.py.
- The XML read of the `.mdnov` format is not modelled: `MdnovFile.read`, the `_read_*` methods other than `_read_word_count_log`, `get_xml_root` and the elements' `from_xml`. They parse with ElementTree, whose behaviour is outside this model. `_read_word_count_log` is modelled by `MdnovFiles.MdnovFile.ReadWordCountLog`, on the WC elements' date and count texts. The text layout that `.mdnov` files are written in has no reader in the source.
- The report subclasses (CSV, Markdown and HTML exporters) are left out. Only their shared engine and the Markdown and HTML text conversions are modelled.
- `string.Template` parsing is left out: templates are given already parsed into text and placeholders.
- The bodies of ScAcFilter, ChVpFilter and ChAcFilter are not part of this model. The export takes its filters as functions.
- The clipboard's copy and paste are modelled without the tree view, the clipboard and `cut_element`. What is modelled:
  - which tag is copied;
  - the removal of references;
  - which creator a paste calls and in what order the children are created.
  
  The model's `add_*` creators are a parameter, and `json.dumps` is left out.
- `DO_NOT_IMPORT` and the project file's extension are parameters of `Factories.NewProject`.
- `os.path.splitext` is modelled with '/' as the only separator.
- JSON numbers are integers. Floating-point values are not modelled.
- Strings.ParseInt: reads ASCII digits only. Python's `int()` also reads the decimal digits of other scripts, such as Arabic-Indic or full-width digits; the model refuses them. This limit carries over to every caller of `int()` in the model.
- YamlCodecs.CountAfter: fails exactly when `int()` fails only for counts written in ASCII digits. A count written in other decimal digits is refused by the model but read by Python.
- JsonFiles.StatedVersion: an unreadable version is reported by the name of the exception Python raises (TypeError, KeyError, AttributeError or ValueError). The exception's own message is not reproduced. `read()` wraps it in "Corrupt project data (…)" either way.
- Calendar.ParseIsoTime: follows the grammar that `datetime.fromisoformat` documents for Python 3.7 to 3.10. Python 3.11 and later accept more ISO 8601 forms, which the model refuses: a `Z` suffix, times without colons, a `,` before the fraction, and fractions of other lengths. Strings that CPython's parser accepts beyond that documented grammar are not modelled either.
- JsonValues.StrListOf: the list setters also take values the model cannot hold. These are a list with None entries (stored with the Nones), and a string or an object (iterated by character or by key). The model refuses them with NotHeld instead of storing them.
- JsonValues.LinksOf: `[]` is held as an empty links dict and `""` as None, not as the list or string Python stores. The core treats them the same way. A links object with a path spelled like one of the model's property names is refused with NotHeld, because the model's JSON keys keep property names apart from other strings.
- FileExports.Text: finds every chapter and section loop error before it renders any mapping. Python renders each template as it goes. So when a mapping fails and a later loop also fails, Python reports the mapping's error and the model reports the loop's error. When only one of them fails, both report the same error.
- JsonFiles.PyEq: compares nested objects by their entries, without Python's bool/int equality inside them.
- JsonFiles.GroupOf: treats a group that is a non-empty list or string as a failed read. Python would fail on such data only at its first entry.
- JsonFiles.Read: states the read on the value of the project it leaves, not on element objects. On failure, the model discards the partly filled novel that Python's read leaves behind.
- A section's `scPlotPoints` is a map. The order in which its entries were inserted is not modelled.
- MdImports.Read: this and MdOutlines.Read build value-level drafts (chapter and section records plus the tree's children), not Novel objects.
  - On the IndexError of md_import.py:77, the draft built so far is returned beside the error.
- MdOutlines.SectionAdded: a section added before any chapter is appended to the tree under the None key in Python. The model adds it to no chapter's list, and the tree entry under None is not modelled.
- `Sections.EndOfTimes`-style overflow: where `datetime` arithmetic would raise OverflowError, the end date and time are None.
- Sequences stand in for Python lists. A getter that returns the stored list without copying (tags) cannot be told apart from one that returns a copy. Aliasing between an element and its caller is not modelled.
- HtmlReports.Escape: states that no '<', '>', '"' or "'" is left. That '&' only starts an entity is stated through `HtmlReports.UnescapeEscape` instead.
- GUI, controller, plugins, orchestrators and packaging are left out. They are widget and dialog wiring with no logic of their own.

## Findings

| source | as written | input that shows it | evidently intended | confidence | as-written member | corrected member |
|---|---|---|---|---|---|---|
| src/mdnvlib/html/html_report.py:38 | The class defines `_convert_from_mdnov`, but the export engine calls `_convert_from_novx` (file_export.py:108). HTML reports therefore pass text through unconverted and unescaped. | a chapter titled `<b>` | every text is escaped and laid out as paragraphs | not executed | HtmlReports.HtmlTextAsWritten | HtmlReports.HtmlText |
| src/mdnvlib/mdnov/mdnov_file.py:167 | `_get_arcMapping` reads `self.novel.arcs`, which the novel does not have, so it raises AttributeError. | any project with a plot line that the filter accepts | the plot line is read from `self.novel.plotLines` | not executed | MdnovFiles.PlotLineBreaksExport | MdnovFiles.ArcMappingFixed |
