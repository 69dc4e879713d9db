/**
 * The novel: the project element that holds the project settings and the
 * collections of chapters, sections, plot lines, plot points, characters,
 * locations, items and project notes. Novel extends BasicElement in Python;
 * here it holds its BasicElement part as a constant reference, and every
 * setter stores and notifies only on change, as the element classes do.
 */
module Novels {
  import opened Wrappers
  import opened Strings
  import opened OrderedMaps
  import opened Calendar
  import opened ModelBases
  import opened Elements
  import opened Sections
  import opened NvTrees

  datatype NovelRec = NovelRec(
    basic: BasicRec,
    authorName: Option<string>,
    wordTarget: Option<int>,
    wordCountStart: Option<int>,
    languageCode: Option<string>,
    countryCode: Option<string>,
    renumberChapters: Option<bool>,
    renumberParts: Option<bool>,
    renumberWithinParts: Option<bool>,
    romanChapterNumbers: Option<bool>,
    romanPartNumbers: Option<bool>,
    saveWordCount: Option<bool>,
    workPhase: Option<int>,
    chapterHeadingPrefix: Option<string>,
    chapterHeadingSuffix: Option<string>,
    partHeadingPrefix: Option<string>,
    partHeadingSuffix: Option<string>,
    customPlotProgress: Option<string>,
    customCharacterization: Option<string>,
    customWorldBuilding: Option<string>,
    customGoal: Option<string>,
    customConflict: Option<string>,
    customOutcome: Option<string>,
    customChrBio: Option<string>,
    customChrGoals: Option<string>,
    referenceDate: Option<string>, referenceWeekDay: Option<nat>)
  {
    /** to_yaml(yaml): the base lines, then the project's own groups of lines. */
    function AppendYaml(yaml: seq<string>): seq<string>
    {
      yaml + basic.YamlLines() + FlagLines() + HeadingLines() + LabelLines() + CountLines()
    }

    /** the six flags as 'key: 1' when true, then workPhase whenever it is set */
    function FlagLines(): seq<string>
    {
      FlagLine("renumberChapters", renumberChapters) + FlagLine("renumberParts", renumberParts)
      + FlagLine("renumberWithinParts", renumberWithinParts)
      + FlagLine("romanChapterNumbers", romanChapterNumbers)
      + FlagLine("romanPartNumbers", romanPartNumbers) + FlagLine("saveWordCount", saveWordCount)
      + NumberLine("workPhase", workPhase.Some?, workPhase.GetOr(0))
    }

    /** the author, then the four heading affixes in double quotes */
    function HeadingLines(): seq<string>
    {
      TextLine("Author", authorName)
      + QuotedLine("ChapterHeadingPrefix", chapterHeadingPrefix)
      + QuotedLine("ChapterHeadingSuffix", chapterHeadingSuffix)
      + QuotedLine("PartHeadingPrefix", partHeadingPrefix)
      + QuotedLine("PartHeadingSuffix", partHeadingSuffix)
    }

    /** the eight custom field labels */
    function LabelLines(): seq<string>
    {
      TextLine("CustomPlotProgress", customPlotProgress)
      + TextLine("CustomCharacterization", customCharacterization)
      + TextLine("CustomWorldBuilding", customWorldBuilding)
      + TextLine("CustomGoal", customGoal) + TextLine("CustomConflict", customConflict)
      + TextLine("CustomOutcome", customOutcome)
      + TextLine("CustomChrBio", customChrBio) + TextLine("CustomChrGoals", customChrGoals)
    }

    /** the non-zero counts, then the reference date */
    function CountLines(): seq<string>
    {
      CountLine("WordCountStart", wordCountStart) + CountLine("WordTarget", wordTarget)
      + TextLine("ReferenceDate", referenceDate)
    }
  }

  /** 'Key: "value"', written when the value is set and not empty. */
  function QuotedLine(key: string, value: Option<string>): seq<string>
  {
    if Truthy(value) then [key + ": \"" + value.value + "\""] else []
  }

  /** 'Key: n', written when the count is set and not 0. */
  function CountLine(key: string, value: Option<int>): seq<string>
  {
    if value.Some? && value.value != 0 then [key + ": " + IntToString(value.value)] else []
  }

  /** date.fromisoformat(s).weekday(), or None where fromisoformat raises. */
  function WeekDayOf(s: Option<string>): (r: Option<nat>)
    ensures r.Some? <==> s.Some? && IsIsoDate(s.value)
    ensures r.Some? ==> r.value == ParseIsoDate(s.value).value.Weekday() && r.value < 7
  {
    if s.Some? && IsIsoDate(s.value) then Some(ParseIsoDate(s.value).value.Weekday()) else None
  }

  /**
   * The reference date and weekday the referenceDate setter leaves: a value
   * equal to the current date changes nothing, None or '' clears both, an ISO
   * date sets both, and any other string changes nothing.
   */
  function ReferenceDateAfter(date: Option<string>, weekDay: Option<nat>, v: Option<string>): (Option<string>, Option<nat>)
  {
    if v == date then (date, weekDay)
    else if !Truthy(v) then (None, None)
    else if WeekDayOf(v).None? then (date, weekDay)
    else (v, WeekDayOf(v))
  }

  /** A locale name such as 'de_DE' split at '_' into exactly two parts, or None. */
  function LocaleParts(name: Option<string>): (r: Option<(string, string)>)
    ensures r.Some? ==> name.Some? && name.value == r.value.0 + "_" + r.value.1
  {
    if name.None? then None
    else
      var parts := Split(name.value, "_");
      if |parts| == 2 then
        SplitTwo(name.value);
        Some((parts[0], parts[1]))
      else None
  }

  lemma SplitTwo(s: string)
    requires |Split(s, "_")| == 2
    ensures s == Split(s, "_")[0] + "_" + Split(s, "_")[1]
  {
    match Find(s, "_")
    case None =>
    case Some(i) =>
      var rest := s[i + 1..];
      match Find(rest, "_")
      case None =>
        assert Split(s, "_") == [s[..i], rest];
        assert s == s[..i] + s[i..i + 1] + rest;
      case Some(k) =>
  }

  // ----- update_plot_lines -----

  /** The plot lines, in their order, whose section list holds scId. */
  function PlotLinesOf(scId: string, plIds: seq<string>, secs: map<string, seq<string>>): (r: seq<string>)
    ensures forall p :: p in r <==> p in plIds && p in secs && scId in secs[p]
    ensures Distinct(plIds) ==> Distinct(r)
  {
    if plIds == [] then []
    else
      var prefix := plIds[..|plIds| - 1];
      var last := plIds[|plIds| - 1];
      assert plIds == prefix + [last];
      var rest := PlotLinesOf(scId, prefix, secs);
      assert Distinct(plIds) ==> Distinct(prefix) && last !in prefix by {
        if Distinct(plIds) {
          forall i | 0 <= i < |prefix| ensures prefix[i] != last {
            assert prefix[i] == plIds[i];
          }
        }
      }
      if last in secs && scId in secs[last] then
        assert Distinct(plIds) ==> Distinct(rest + [last]) by {
          if Distinct(plIds) { AppendDistinct(rest, last); }
        }
        rest + [last]
      else rest
  }

  lemma AppendDistinct(s: seq<string>, x: string)
    requires Distinct(s) && x !in s
    ensures Distinct(s + [x])
  {
    forall i, j | 0 <= i < j < |s + [x]| ensures (s + [x])[i] != (s + [x])[j] {
      assert (s + [x])[i] == s[i];
    }
  }

  /** Every child of every plot line is a plot point the novel knows. */
  predicate PointsKnown(plIds: seq<string>, kids: map<string, seq<string>>, assoc: map<string, Option<string>>)
  {
    forall p, pp :: p in plIds && pp in ChildrenOf(kids, p) ==> pp in assoc
  }

  /** The plot point pp is associated with section scId. */
  predicate AssocWith(assoc: map<string, Option<string>>, pp: string, scId: string)
  {
    pp in assoc && assoc[pp] == Some(scId)
  }

  /** The first plot point, in tree order, associated with scId. */
  function FirstPoint(scId: string, pps: seq<string>, assoc: map<string, Option<string>>): (r: Option<string>)
    ensures r.None? <==> forall pp :: pp in pps ==> !AssocWith(assoc, pp, scId)
    ensures r.Some? ==> exists i :: (0 <= i < |pps| && pps[i] == r.value && AssocWith(assoc, r.value, scId)
      && forall j :: 0 <= j < i ==> !AssocWith(assoc, pps[j], scId))
  {
    if pps == [] then None
    else if AssocWith(assoc, pps[0], scId) then
      assert pps[0] == pps[0];
      Some(pps[0])
    else
      var r := FirstPoint(scId, pps[1..], assoc);
      assert r.Some? ==> exists i :: (0 <= i < |pps| && pps[i] == r.value && AssocWith(assoc, r.value, scId)
        && forall j :: 0 <= j < i ==> !AssocWith(assoc, pps[j], scId)) by {
        if r.Some? {
          var i :| 0 <= i < |pps[1..]| && pps[1..][i] == r.value && AssocWith(assoc, r.value, scId)
            && (forall j :: 0 <= j < i ==> !AssocWith(assoc, pps[1..][j], scId));
          assert pps[i + 1] == r.value;
          forall j | 0 <= j < i + 1 ensures !AssocWith(assoc, pps[j], scId) {
            if j > 0 { assert pps[j] == pps[1..][j - 1]; }
          }
        }
      }
      r
  }

  /**
   * The plot points registered with scId: for each plot line in order that
   * lists scId, its first child associated with scId, mapped to that plot line.
   */
  function PointsOf(scId: string, plIds: seq<string>, secs: map<string, seq<string>>,
                    kids: map<string, seq<string>>, assoc: map<string, Option<string>>): (r: OMap<string, string>)
    ensures r.Valid()
    ensures forall pp :: pp in r.m ==>
      r.m[pp] in plIds && r.m[pp] in secs && scId in secs[r.m[pp]]
      && FirstPoint(scId, ChildrenOf(kids, r.m[pp]), assoc) == Some(pp)
    ensures forall p :: (p in plIds && p in secs && scId in secs[p] && FirstPoint(scId, ChildrenOf(kids, p), assoc).Some?
      ==> FirstPoint(scId, ChildrenOf(kids, p), assoc).value in r.m)
  {
    if plIds == [] then Empty()
    else
      var prefix := plIds[..|plIds| - 1];
      var last := plIds[|plIds| - 1];
      assert plIds == prefix + [last];
      var rest := PointsOf(scId, prefix, secs, kids, assoc);
      if last in secs && scId in secs[last] then
        match FirstPoint(scId, ChildrenOf(kids, last), assoc)
        case Some(pp) => rest.Put(pp, last)
        case None => rest
      else rest
  }

  class Novel {
    const basic: BasicElement
    var authorName: Option<string>
    var wordTarget: Option<int>
    var wordCountStart: Option<int>
    var languageCode: Option<string>
    var countryCode: Option<string>
    var renumberChapters: Option<bool>
    var renumberParts: Option<bool>
    var renumberWithinParts: Option<bool>
    var romanChapterNumbers: Option<bool>
    var romanPartNumbers: Option<bool>
    var saveWordCount: Option<bool>
    var workPhase: Option<int>
    var chapterHeadingPrefix: Option<string>
    var chapterHeadingSuffix: Option<string>
    var partHeadingPrefix: Option<string>
    var partHeadingSuffix: Option<string>
    var customPlotProgress: Option<string>
    var customCharacterization: Option<string>
    var customWorldBuilding: Option<string>
    var customGoal: Option<string>
    var customConflict: Option<string>
    var customOutcome: Option<string>
    var customChrBio: Option<string>
    var customChrGoals: Option<string>
    /** YYYY-MM-DD, or None */
    var referenceDate: Option<string>
    var referenceWeekDay: Option<nat>

    var chapters: map<string, Chapter>
    var sections: map<string, Section>
    var plotPoints: map<string, PlotPoint>
    /** Non-document languages used as section markup, as 'll-CC'. */
    var languages: Option<seq<string>>
    var plotLines: OMap<string, PlotLine>
    var locations: map<string, WorldElement>
    var items: map<string, WorldElement>
    var characters: map<string, Character>
    var projectNotes: map<string, BasicElement>
    var tree: NvTree

    function OnChange(): ModelBase? { basic.onChange }

    function Rec(): NovelRec
      reads this, basic
    {
      NovelRec(basic.Rec(), authorName, wordTarget, wordCountStart, languageCode, countryCode, renumberChapters, renumberParts, renumberWithinParts, romanChapterNumbers, romanPartNumbers, saveWordCount, workPhase, chapterHeadingPrefix, chapterHeadingSuffix, partHeadingPrefix, partHeadingSuffix, customPlotProgress, customCharacterization, customWorldBuilding, customGoal, customConflict, customOutcome, customChrBio, customChrGoals, referenceDate, referenceWeekDay)
    }

    constructor(tree: NvTree, onChange: ModelBase? := null, title: Option<string> := None,
                desc: Option<string> := None, links: Option<Links> := None,
                authorName: Option<string> := None,
                wordTarget: Option<int> := None,
                wordCountStart: Option<int> := None,
                languageCode: Option<string> := None,
                countryCode: Option<string> := None,
                renumberChapters: Option<bool> := None,
                renumberParts: Option<bool> := None,
                renumberWithinParts: Option<bool> := None,
                romanChapterNumbers: Option<bool> := None,
                romanPartNumbers: Option<bool> := None,
                saveWordCount: Option<bool> := None,
                workPhase: Option<int> := None,
                chapterHeadingPrefix: Option<string> := None,
                chapterHeadingSuffix: Option<string> := None,
                partHeadingPrefix: Option<string> := None,
                partHeadingSuffix: Option<string> := None,
                customPlotProgress: Option<string> := None,
                customCharacterization: Option<string> := None,
                customWorldBuilding: Option<string> := None,
                customGoal: Option<string> := None,
                customConflict: Option<string> := None,
                customOutcome: Option<string> := None,
                customChrBio: Option<string> := None,
                customChrGoals: Option<string> := None,
                referenceDate: Option<string> := None)
      ensures fresh(basic) && OnChange() == onChange && this.tree == tree
      ensures Rec() == NovelRec(BasicRec(title, desc, links), authorName, wordTarget, wordCountStart, languageCode, countryCode, renumberChapters, renumberParts, renumberWithinParts, romanChapterNumbers, romanPartNumbers, saveWordCount, workPhase, chapterHeadingPrefix, chapterHeadingSuffix, partHeadingPrefix, partHeadingSuffix, customPlotProgress, customCharacterization, customWorldBuilding, customGoal, customConflict, customOutcome, customChrBio, customChrGoals,
                                if WeekDayOf(referenceDate).Some? then referenceDate else None,
                                WeekDayOf(referenceDate))
      ensures chapters == map[] && sections == map[] && plotPoints == map[] && languages.None?
      ensures plotLines == Empty() && locations == map[] && items == map[]
      ensures characters == map[] && projectNotes == map[]
    {
      basic := new BasicElement(onChange, title, desc, links);
      this.authorName := authorName;
      this.wordTarget := wordTarget;
      this.wordCountStart := wordCountStart;
      this.languageCode := languageCode;
      this.countryCode := countryCode;
      this.renumberChapters := renumberChapters;
      this.renumberParts := renumberParts;
      this.renumberWithinParts := renumberWithinParts;
      this.romanChapterNumbers := romanChapterNumbers;
      this.romanPartNumbers := romanPartNumbers;
      this.saveWordCount := saveWordCount;
      this.workPhase := workPhase;
      this.chapterHeadingPrefix := chapterHeadingPrefix;
      this.chapterHeadingSuffix := chapterHeadingSuffix;
      this.partHeadingPrefix := partHeadingPrefix;
      this.partHeadingSuffix := partHeadingSuffix;
      this.customPlotProgress := customPlotProgress;
      this.customCharacterization := customCharacterization;
      this.customWorldBuilding := customWorldBuilding;
      this.customGoal := customGoal;
      this.customConflict := customConflict;
      this.customOutcome := customOutcome;
      this.customChrBio := customChrBio;
      this.customChrGoals := customChrGoals;
      chapters, sections, plotPoints, languages := map[], map[], map[], None;
      plotLines, locations, items, characters, projectNotes := Empty(), map[], map[], map[], map[];
      referenceWeekDay := WeekDayOf(referenceDate);
      this.referenceDate := if WeekDayOf(referenceDate).Some? then referenceDate else None;
      this.tree := tree;
    }

    method SetAuthorName(v: Option<string>)
      modifies this`authorName, OnChange()
      ensures authorName == v
      ensures Rec() == old(Rec()).(authorName := v)
      ensures Notified(OnChange(), old(authorName) != v)
    {
      if authorName != v { authorName := v; basic.Notify(); }
    }

    method SetWordTarget(v: Option<int>)
      modifies this`wordTarget, OnChange()
      ensures wordTarget == v
      ensures Rec() == old(Rec()).(wordTarget := v)
      ensures Notified(OnChange(), old(wordTarget) != v)
    {
      if wordTarget != v { wordTarget := v; basic.Notify(); }
    }

    method SetWordCountStart(v: Option<int>)
      modifies this`wordCountStart, OnChange()
      ensures wordCountStart == v
      ensures Rec() == old(Rec()).(wordCountStart := v)
      ensures Notified(OnChange(), old(wordCountStart) != v)
    {
      if wordCountStart != v { wordCountStart := v; basic.Notify(); }
    }

    method SetLanguageCode(v: Option<string>)
      modifies this`languageCode, OnChange()
      ensures languageCode == v
      ensures Rec() == old(Rec()).(languageCode := v)
      ensures Notified(OnChange(), old(languageCode) != v)
    {
      if languageCode != v { languageCode := v; basic.Notify(); }
    }

    method SetCountryCode(v: Option<string>)
      modifies this`countryCode, OnChange()
      ensures countryCode == v
      ensures Rec() == old(Rec()).(countryCode := v)
      ensures Notified(OnChange(), old(countryCode) != v)
    {
      if countryCode != v { countryCode := v; basic.Notify(); }
    }

    method SetRenumberChapters(v: Option<bool>)
      modifies this`renumberChapters, OnChange()
      ensures renumberChapters == v
      ensures Rec() == old(Rec()).(renumberChapters := v)
      ensures Notified(OnChange(), old(renumberChapters) != v)
    {
      if renumberChapters != v { renumberChapters := v; basic.Notify(); }
    }

    method SetRenumberParts(v: Option<bool>)
      modifies this`renumberParts, OnChange()
      ensures renumberParts == v
      ensures Rec() == old(Rec()).(renumberParts := v)
      ensures Notified(OnChange(), old(renumberParts) != v)
    {
      if renumberParts != v { renumberParts := v; basic.Notify(); }
    }

    method SetRenumberWithinParts(v: Option<bool>)
      modifies this`renumberWithinParts, OnChange()
      ensures renumberWithinParts == v
      ensures Rec() == old(Rec()).(renumberWithinParts := v)
      ensures Notified(OnChange(), old(renumberWithinParts) != v)
    {
      if renumberWithinParts != v { renumberWithinParts := v; basic.Notify(); }
    }

    method SetRomanChapterNumbers(v: Option<bool>)
      modifies this`romanChapterNumbers, OnChange()
      ensures romanChapterNumbers == v
      ensures Rec() == old(Rec()).(romanChapterNumbers := v)
      ensures Notified(OnChange(), old(romanChapterNumbers) != v)
    {
      if romanChapterNumbers != v { romanChapterNumbers := v; basic.Notify(); }
    }

    method SetRomanPartNumbers(v: Option<bool>)
      modifies this`romanPartNumbers, OnChange()
      ensures romanPartNumbers == v
      ensures Rec() == old(Rec()).(romanPartNumbers := v)
      ensures Notified(OnChange(), old(romanPartNumbers) != v)
    {
      if romanPartNumbers != v { romanPartNumbers := v; basic.Notify(); }
    }

    method SetSaveWordCount(v: Option<bool>)
      modifies this`saveWordCount, OnChange()
      ensures saveWordCount == v
      ensures Rec() == old(Rec()).(saveWordCount := v)
      ensures Notified(OnChange(), old(saveWordCount) != v)
    {
      if saveWordCount != v { saveWordCount := v; basic.Notify(); }
    }

    method SetWorkPhase(v: Option<int>)
      modifies this`workPhase, OnChange()
      ensures workPhase == v
      ensures Rec() == old(Rec()).(workPhase := v)
      ensures Notified(OnChange(), old(workPhase) != v)
    {
      if workPhase != v { workPhase := v; basic.Notify(); }
    }

    method SetChapterHeadingPrefix(v: Option<string>)
      modifies this`chapterHeadingPrefix, OnChange()
      ensures chapterHeadingPrefix == v
      ensures Rec() == old(Rec()).(chapterHeadingPrefix := v)
      ensures Notified(OnChange(), old(chapterHeadingPrefix) != v)
    {
      if chapterHeadingPrefix != v { chapterHeadingPrefix := v; basic.Notify(); }
    }

    method SetChapterHeadingSuffix(v: Option<string>)
      modifies this`chapterHeadingSuffix, OnChange()
      ensures chapterHeadingSuffix == v
      ensures Rec() == old(Rec()).(chapterHeadingSuffix := v)
      ensures Notified(OnChange(), old(chapterHeadingSuffix) != v)
    {
      if chapterHeadingSuffix != v { chapterHeadingSuffix := v; basic.Notify(); }
    }

    method SetPartHeadingPrefix(v: Option<string>)
      modifies this`partHeadingPrefix, OnChange()
      ensures partHeadingPrefix == v
      ensures Rec() == old(Rec()).(partHeadingPrefix := v)
      ensures Notified(OnChange(), old(partHeadingPrefix) != v)
    {
      if partHeadingPrefix != v { partHeadingPrefix := v; basic.Notify(); }
    }

    method SetPartHeadingSuffix(v: Option<string>)
      modifies this`partHeadingSuffix, OnChange()
      ensures partHeadingSuffix == v
      ensures Rec() == old(Rec()).(partHeadingSuffix := v)
      ensures Notified(OnChange(), old(partHeadingSuffix) != v)
    {
      if partHeadingSuffix != v { partHeadingSuffix := v; basic.Notify(); }
    }

    method SetCustomPlotProgress(v: Option<string>)
      modifies this`customPlotProgress, OnChange()
      ensures customPlotProgress == v
      ensures Rec() == old(Rec()).(customPlotProgress := v)
      ensures Notified(OnChange(), old(customPlotProgress) != v)
    {
      if customPlotProgress != v { customPlotProgress := v; basic.Notify(); }
    }

    method SetCustomCharacterization(v: Option<string>)
      modifies this`customCharacterization, OnChange()
      ensures customCharacterization == v
      ensures Rec() == old(Rec()).(customCharacterization := v)
      ensures Notified(OnChange(), old(customCharacterization) != v)
    {
      if customCharacterization != v { customCharacterization := v; basic.Notify(); }
    }

    method SetCustomWorldBuilding(v: Option<string>)
      modifies this`customWorldBuilding, OnChange()
      ensures customWorldBuilding == v
      ensures Rec() == old(Rec()).(customWorldBuilding := v)
      ensures Notified(OnChange(), old(customWorldBuilding) != v)
    {
      if customWorldBuilding != v { customWorldBuilding := v; basic.Notify(); }
    }

    method SetCustomGoal(v: Option<string>)
      modifies this`customGoal, OnChange()
      ensures customGoal == v
      ensures Rec() == old(Rec()).(customGoal := v)
      ensures Notified(OnChange(), old(customGoal) != v)
    {
      if customGoal != v { customGoal := v; basic.Notify(); }
    }

    method SetCustomConflict(v: Option<string>)
      modifies this`customConflict, OnChange()
      ensures customConflict == v
      ensures Rec() == old(Rec()).(customConflict := v)
      ensures Notified(OnChange(), old(customConflict) != v)
    {
      if customConflict != v { customConflict := v; basic.Notify(); }
    }

    method SetCustomOutcome(v: Option<string>)
      modifies this`customOutcome, OnChange()
      ensures customOutcome == v
      ensures Rec() == old(Rec()).(customOutcome := v)
      ensures Notified(OnChange(), old(customOutcome) != v)
    {
      if customOutcome != v { customOutcome := v; basic.Notify(); }
    }

    method SetCustomChrBio(v: Option<string>)
      modifies this`customChrBio, OnChange()
      ensures customChrBio == v
      ensures Rec() == old(Rec()).(customChrBio := v)
      ensures Notified(OnChange(), old(customChrBio) != v)
    {
      if customChrBio != v { customChrBio := v; basic.Notify(); }
    }

    method SetCustomChrGoals(v: Option<string>)
      modifies this`customChrGoals, OnChange()
      ensures customChrGoals == v
      ensures Rec() == old(Rec()).(customChrGoals := v)
      ensures Notified(OnChange(), old(customChrGoals) != v)
    {
      if customChrGoals != v { customChrGoals := v; basic.Notify(); }
    }

    /**
     * The referenceDate setter. An empty value clears the date and the
     * weekday; a value that is not an ISO date changes nothing and does not
     * notify; an ISO date sets both.
     */
    method SetReferenceDate(v: Option<string>)
      modifies this`referenceDate, this`referenceWeekDay, OnChange()
      ensures old(referenceDate) != v && !Truthy(v) ==>
        referenceDate.None? && referenceWeekDay.None? && Notified(OnChange(), true)
      ensures old(referenceDate) != v && Truthy(v) && IsIsoDate(v.value) ==>
        referenceDate == v && referenceWeekDay == WeekDayOf(v) && Notified(OnChange(), true)
      ensures old(referenceDate) == v || (Truthy(v) && !IsIsoDate(v.value)) ==>
        referenceDate == old(referenceDate) && referenceWeekDay == old(referenceWeekDay)
        && Notified(OnChange(), false)
      ensures (referenceDate, referenceWeekDay) == ReferenceDateAfter(old(referenceDate), old(referenceWeekDay), v)
      ensures Rec() == old(Rec()).(referenceDate := referenceDate, referenceWeekDay := referenceWeekDay)
    {
      if referenceDate != v {
        if !Truthy(v) {
          referenceDate, referenceWeekDay := None, None;
          basic.Notify();
          return;
        }
        var weekDay := WeekDayOf(v);
        if weekDay.None? {
          return;
        }
        referenceWeekDay := weekDay;
        referenceDate := v;
        basic.Notify();
      }
    }

    /**
     * check_locale. Without a language code the system locale is taken
     * (sysLocale, or defaultLocale when that does not split into language and
     * country); with one, both codes are kept if they have two characters each,
     * and are otherwise replaced by 'zxx' and 'none'.
     */
    method CheckLocale(sysLocale: Option<string>, defaultLocale: Option<string>) returns (r: Result<()>)
      modifies this`languageCode, this`countryCode, OnChange()
      ensures Truthy(old(languageCode)) && old(languageCode).value != "None" ==>
        r.Ok? &&
        if |old(languageCode).value| == 2 && old(countryCode).Some? && |old(countryCode).value| == 2
        then languageCode == old(languageCode) && countryCode == old(countryCode) && Notified(OnChange(), false)
        else languageCode == Some("zxx") && countryCode == Some("none") && Notified(OnChange(), true)
      ensures !Truthy(old(languageCode)) || old(languageCode).value == "None" ==>
        var parts := if LocaleParts(sysLocale).Some? then LocaleParts(sysLocale) else LocaleParts(defaultLocale);
        if parts.Some?
        then r.Ok? && languageCode == Some(parts.value.0) && countryCode == Some(parts.value.1)
             && Notified(OnChange(), true)
        else r.Err? && languageCode == old(languageCode) && countryCode == old(countryCode)
             && Notified(OnChange(), false)
    {
      if !Truthy(languageCode) || languageCode.value == "None" {
        var parts := LocaleParts(sysLocale);
        if parts.None? {
          parts := LocaleParts(defaultLocale);
        }
        if parts.None? {
          return Err("the system locale has no language and country part");
        }
        languageCode, countryCode := Some(parts.value.0), Some(parts.value.1);
        basic.Notify();
        return Ok(());
      }
      if |languageCode.value| == 2 && countryCode.Some? && |countryCode.value| == 2 {
        return Ok(());
      }
      languageCode, countryCode := Some("zxx"), Some("none");
      basic.Notify();
      return Ok(());
    }

    /** to_yaml: the base lines, then the project settings. */
    method ToYaml(yaml: seq<string>) returns (r: seq<string>)
      ensures r == Rec().AppendYaml(yaml)
    {
      r := basic.ToYaml(yaml);
      r := AppendFlagLines(r);
      r := AppendHeadingLines(r);
      r := AppendLabelLines(r);
      r := AppendCountLines(r);
    }

    method AppendFlagLines(yaml: seq<string>) returns (r: seq<string>)
      ensures r == yaml + Rec().FlagLines()
    {
      var lines := FlagLine("renumberChapters", renumberChapters) + FlagLine("renumberParts", renumberParts);
      lines := lines + FlagLine("renumberWithinParts", renumberWithinParts);
      lines := lines + FlagLine("romanChapterNumbers", romanChapterNumbers);
      lines := lines + FlagLine("romanPartNumbers", romanPartNumbers);
      lines := lines + FlagLine("saveWordCount", saveWordCount);
      if workPhase.Some? {
        lines := lines + ["workPhase" + ": " + IntToString(workPhase.value)];
      } else {
        lines := lines + [];
      }
      r := yaml + lines;
    }

    method AppendHeadingLines(yaml: seq<string>) returns (r: seq<string>)
      ensures r == yaml + Rec().HeadingLines()
    {
      r := yaml + TextLine("Author", authorName);
      r := r + QuotedLine("ChapterHeadingPrefix", chapterHeadingPrefix);
      r := r + QuotedLine("ChapterHeadingSuffix", chapterHeadingSuffix);
      r := r + QuotedLine("PartHeadingPrefix", partHeadingPrefix);
      r := r + QuotedLine("PartHeadingSuffix", partHeadingSuffix);
      AppendFive(yaml, TextLine("Author", authorName), QuotedLine("ChapterHeadingPrefix", chapterHeadingPrefix),
                 QuotedLine("ChapterHeadingSuffix", chapterHeadingSuffix),
                 QuotedLine("PartHeadingPrefix", partHeadingPrefix), QuotedLine("PartHeadingSuffix", partHeadingSuffix));
    }

    method AppendLabelLines(yaml: seq<string>) returns (r: seq<string>)
      ensures r == yaml + Rec().LabelLines()
    {
      var lines := TextLine("CustomPlotProgress", customPlotProgress);
      lines := lines + TextLine("CustomCharacterization", customCharacterization);
      lines := lines + TextLine("CustomWorldBuilding", customWorldBuilding);
      lines := lines + TextLine("CustomGoal", customGoal) + TextLine("CustomConflict", customConflict);
      lines := lines + TextLine("CustomOutcome", customOutcome);
      lines := lines + TextLine("CustomChrBio", customChrBio) + TextLine("CustomChrGoals", customChrGoals);
      r := yaml + lines;
    }

    method AppendCountLines(yaml: seq<string>) returns (r: seq<string>)
      ensures r == yaml + Rec().CountLines()
    {
      r := yaml + CountLine("WordCountStart", wordCountStart);
      r := r + CountLine("WordTarget", wordTarget);
      r := r + TextLine("ReferenceDate", referenceDate);
      AppendThree(yaml, CountLine("WordCountStart", wordCountStart), CountLine("WordTarget", wordTarget),
                  TextLine("ReferenceDate", referenceDate));
    }

    /** Each plot line's section list; a plot line without one counts as listing none. */
    function PlotLineSections(): (r: map<string, seq<string>>)
      reads this, plotLines.m.Values
      ensures r.Keys == plotLines.m.Keys
    {
      map p | p in plotLines.m :: plotLines.m[p].sections.GetOr([])
    }

    /** Each plot point's section association. */
    function PointAssocs(): (r: map<string, Option<string>>)
      reads this, plotPoints.Values
      ensures r.Keys == plotPoints.Keys
    {
      map pp | pp in plotPoints :: plotPoints[pp].sectionAssoc
    }

    /** No two section IDs share one Section object. */
    ghost predicate SectionsDistinct()
      reads this
    {
      forall a, b :: a in sections && b in sections && a != b ==> sections[a] != sections[b]
    }

    /**
     * update_plot_lines: every section's plot-line and plot-point back
     * references are reset and refilled from the plot lines' section lists,
     * the plot lines' children in the tree and the plot points' associations;
     * none of those is changed, so a second call gives the same result.
     */
    method UpdatePlotLines()
      requires plotLines.Valid() && SectionsDistinct()
      requires sections != map[] ==> forall p :: p in plotLines.m ==> plotLines.m[p].sections.Some?
      requires PointsKnown(plotLines.keys, tree.children, PointAssocs())
      modifies (set s | s in sections.Values)`scPlotLines, (set s | s in sections.Values)`scPlotPoints
      ensures PlotLineSections() == old(PlotLineSections()) && PointAssocs() == old(PointAssocs())
      ensures tree.children == old(tree.children)
      ensures forall scId :: scId in sections ==>
        sections[scId].scPlotLines == PlotLinesOf(scId, plotLines.keys, PlotLineSections())
        && sections[scId].scPlotPoints
           == PointsOf(scId, plotLines.keys, PlotLineSections(), tree.children, PointAssocs())
    {
      var secs := PlotLineSections();
      var assoc := PointAssocs();
      var kids := tree.children;
      var plIds := plotLines.keys;
      var todo := sections.Keys;
      while todo != {}
        invariant todo <= sections.Keys
        invariant forall scId :: scId in sections.Keys - todo ==>
          sections[scId].scPlotLines == PlotLinesOf(scId, plIds, secs)
          && sections[scId].scPlotPoints == PointsOf(scId, plIds, secs, kids, assoc)
      {
        var scId :| scId in todo;
        FillBackReferences(sections[scId], scId, plIds, secs, kids, assoc);
        todo := todo - {scId};
      }
    }
  }

  lemma PlotLinesOfStep(scId: string, plIds: seq<string>, i: nat, secs: map<string, seq<string>>)
    requires i < |plIds|
    ensures PlotLinesOf(scId, plIds[..i + 1], secs)
      == PlotLinesOf(scId, plIds[..i], secs)
         + (if plIds[i] in secs && scId in secs[plIds[i]] then [plIds[i]] else [])
  {
    assert plIds[..i + 1][..i] == plIds[..i];
  }

  lemma PointsOfStep(scId: string, plIds: seq<string>, i: nat, secs: map<string, seq<string>>,
                     kids: map<string, seq<string>>, assoc: map<string, Option<string>>)
    requires i < |plIds|
    ensures var rest := PointsOf(scId, plIds[..i], secs, kids, assoc);
      var p := plIds[i];
      PointsOf(scId, plIds[..i + 1], secs, kids, assoc)
      == if p in secs && scId in secs[p] && FirstPoint(scId, ChildrenOf(kids, p), assoc).Some?
         then rest.Put(FirstPoint(scId, ChildrenOf(kids, p), assoc).value, p)
         else rest
  {
    assert plIds[..i + 1][..i] == plIds[..i];
  }

  /** The innermost loop of update_plot_lines: the first child associated with scId. */
  method FindPoint(scId: string, pps: seq<string>, assoc: map<string, Option<string>>) returns (r: Option<string>)
    requires forall pp :: pp in pps ==> pp in assoc
    ensures r == FirstPoint(scId, pps, assoc)
  {
    r := None;
    var j := 0;
    while j < |pps|
      invariant 0 <= j <= |pps|
      invariant FirstPoint(scId, pps[j..], assoc) == FirstPoint(scId, pps, assoc)
    {
      if assoc[pps[j]] == Some(scId) {
        assert AssocWith(assoc, pps[j], scId);
        r := Some(pps[j]);
        break;
      }
      assert pps[j..][1..] == pps[j + 1..];
      j := j + 1;
    }
  }

  /** The loop body of update_plot_lines for one section. */
  method FillBackReferences(sc: Section, scId: string, plIds: seq<string>, secs: map<string, seq<string>>,
                            kids: map<string, seq<string>>, assoc: map<string, Option<string>>)
    requires forall p :: p in plIds ==> p in secs
    requires PointsKnown(plIds, kids, assoc)
    modifies sc`scPlotLines, sc`scPlotPoints
    ensures sc.scPlotLines == PlotLinesOf(scId, plIds, secs)
    ensures sc.scPlotPoints == PointsOf(scId, plIds, secs, kids, assoc)
  {
    sc.scPlotPoints := Empty();
    sc.scPlotLines := [];
    var i := 0;
    while i < |plIds|
      invariant 0 <= i <= |plIds|
      invariant sc.scPlotLines == PlotLinesOf(scId, plIds[..i], secs)
      invariant sc.scPlotPoints == PointsOf(scId, plIds[..i], secs, kids, assoc)
    {
      var plId := plIds[i];
      PlotLinesOfStep(scId, plIds, i, secs);
      PointsOfStep(scId, plIds, i, secs, kids, assoc);
      if scId in secs[plId] {
        sc.scPlotLines := sc.scPlotLines + [plId];
        var pp := FindPoint(scId, ChildrenOf(kids, plId), assoc);
        if pp.Some? {
          sc.scPlotPoints := sc.scPlotPoints.Put(pp.value, plId);
        }
      }
      i := i + 1;
    }
    assert plIds[..|plIds|] == plIds;
  }
}
