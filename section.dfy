/**
 * The section element: a text unit with its metadata, its content and the
 * word count derived from that content.
 */
module Sections {
  import opened Wrappers
  import opened Strings
  import opened OrderedMaps
  import opened Calendar
  import opened NovxGlobals
  import opened ModelBases
  import opened Elements

  // ----- word counting -----

  /**
   * ADDITIONAL_WORD_LIMITS.sub(' ', s): each '--', em dash, en dash and '</p>'
   * becomes one space, scanning left to right.
   */
  function SpaceWordLimits(s: string): (r: string)
    ensures |r| <= |s|
    decreases |s|
  {
    if s == [] then []
    else if StartsWith(s, "--") then " " + SpaceWordLimits(s[2..])
    else if s[0] == '—' || s[0] == '–' then " " + SpaceWordLimits(s[1..])
    else if StartsWith(s, "</p>") then " " + SpaceWordLimits(s[4..])
    else [s[0]] + SpaceWordLimits(s[1..])
  }

  /**
   * The length of a match of open.*?close at the front of s, where '.' is any
   * character but a newline: the shortest such match, if there is one.
   */
  function SpanMatch(s: string, open: string, close: string): (r: Option<nat>)
    ensures r.Some? ==> |open| + |close| <= r.value <= |s|
  {
    if StartsWith(s, open) then
      var rest := s[|open|..];
      match Find(rest, close)
      case Some(i) => if '\n' !in rest[..i] then Some(|open| + i + |close|) else None
      case None => None
    else None
  }

  /** The length of a match of <.+?> at the front of s. */
  function TagMatch(s: string): (r: Option<nat>)
    ensures r.Some? ==> 3 <= r.value <= |s|
  {
    if 2 <= |s| && s[0] == '<' && s[1] != '\n' then
      match Find(s[2..], ">")
      case Some(i) => if '\n' !in s[2..2 + i] then Some(3 + i) else None
      case None => None
    else None
  }

  /** The alternatives of NO_WORD_LIMITS, tried in their order. */
  function NoWordLimitMatch(s: string): (r: Option<nat>)
    ensures r.Some? ==> 1 <= r.value <= |s|
  {
    match SpanMatch(s, "<note>", "</note>")
    case Some(n) => Some(n)
    case None =>
      match SpanMatch(s, "<comment>", "</comment>")
      case Some(n) => Some(n)
      case None => TagMatch(s)
  }

  /** NO_WORD_LIMITS.sub('', s): note spans, comment spans and tags are deleted. */
  function DeleteNoWordLimits(s: string): (r: string)
    ensures |r| <= |s|
    decreases |s|
  {
    if s == [] then []
    else match NoWordLimitMatch(s)
      case Some(n) => DeleteNoWordLimits(s[n..])
      case None => [s[0]] + DeleteNoWordLimits(s[1..])
  }

  /** The word count the sectionContent setter derives from the content. */
  function ContentWordCount(text: Option<string>): nat
  {
    match text
    case None => 0
    case Some(t) => CountWords(DeleteNoWordLimits(SpaceWordLimits(t)))
  }

  /** Text free of the characters the two patterns start with. */
  predicate PlainText(s: string)
  {
    forall i :: 0 <= i < |s| ==> PlainChar(s[i])
  }

  predicate PlainChar(c: char)
  {
    c != '<' && c != '-' && c != '—' && c != '–'
  }

  lemma {:induction false} SpaceWordLimitsOfPlain(s: string)
    requires PlainText(s)
    ensures SpaceWordLimits(s) == s
    decreases |s|
  {
    if s != [] {
      assert PlainChar(s[0]);
      assert PlainText(s[1..]) by {
        forall i | 0 <= i < |s[1..]| ensures PlainChar(s[1..][i]) {
          assert s[1..][i] == s[i + 1];
        }
      }
      SpaceWordLimitsOfPlain(s[1..]);
    }
  }

  lemma {:induction false} DeleteNoWordLimitsOfPlain(s: string)
    requires PlainText(s)
    ensures DeleteNoWordLimits(s) == s
    decreases |s|
  {
    if s != [] {
      assert s[0] != '<';
      assert !StartsWith(s, "<note>") && !StartsWith(s, "<comment>");
      assert NoWordLimitMatch(s) == None;
      assert PlainText(s[1..]) by {
        forall i | 0 <= i < |s[1..]| ensures PlainChar(s[1..][i]) {
          assert s[1..][i] == s[i + 1];
        }
      }
      DeleteNoWordLimitsOfPlain(s[1..]);
    }
  }

  /** Content without markup and dashes is counted like str.split() counts it. */
  lemma PlainContentWordCount(s: string)
    requires PlainText(s)
    ensures ContentWordCount(Some(s)) == CountWords(s)
  {
    SpaceWordLimitsOfPlain(s);
    DeleteNoWordLimitsOfPlain(s);
  }

  // ----- end of the section in time -----

  datatype EndDateTime = EndDateTime(endDate: Option<string>, endTime: Option<string>, endDay: Option<string>)

  /** int(s) if s is set and not empty, else 0; Err stands for the ValueError of int(). */
  function IntOrZero(s: Option<string>): Result<int>
  {
    if Truthy(s) then
      match ParseInt(s.value)
      case Some(v) => Ok(v)
      case None => Err("invalid literal for int()")
    else Ok(0)
  }

  /** timedelta's limit on the normalized number of days. */
  const MaxDeltaDays: int := 999999999

  /** One past the last second that datetime can represent, counted from 0001-01-01 00:00:00. */
  const DateTimeLimit: nat := (MaxDayNumber + 1) * 86400

  /**
   * The duration in seconds, as timedelta(days=lastsDays, seconds=lastsSeconds)
   * holds it. Err stands for the exceptions of int() and of timedelta, which
   * get_end_date_time does not catch.
   */
  function DurationOf(lastsDays: Option<string>, lastsHours: Option<string>,
                      lastsMinutes: Option<string>): (r: Result<int>)
    ensures r.Ok? ==> -MaxDeltaDays <= r.value / 86400 <= MaxDeltaDays
    ensures r.Ok? ==> IntOrZero(lastsDays).Ok? && IntOrZero(lastsHours).Ok? && IntOrZero(lastsMinutes).Ok?
  {
    var days := IntOrZero(lastsDays);
    var hours := IntOrZero(lastsHours);
    var minutes := IntOrZero(lastsMinutes);
    if days.Err? then Err(days.error)
    else if hours.Err? then Err(hours.error)
    else if minutes.Err? then Err(minutes.error)
    else
      var duration := days.value * 86400 + hours.value * 3600 + minutes.value * 60;
      if duration / 86400 < -MaxDeltaDays || duration / 86400 > MaxDeltaDays then Err("timedelta overflow")
      else Ok(duration)
  }

  /** The end moment in seconds, or None where datetime would overflow. */
  function EndMoment(startDay: int, t: nat, duration: int): (r: Option<nat>)
    ensures r.Some? <==> 0 <= startDay * 86400 + t + duration < DateTimeLimit
    ensures r.Some? ==> r.value == startDay * 86400 + t + duration
  {
    var end := startDay * 86400 + t + duration;
    if 0 <= end < DateTimeLimit then Some(end) else None
  }

  /** The try block for a section with a date. */
  function DateBasedEndOf(date: string, time: string, duration: int): EndDateTime
  {
    match (ParseIsoDate(date), ParseIsoTime(time))
    case (Some(d), Some(t)) =>
      (match EndMoment(d.DayNumber(), t.secs, duration)
       case Some(end) => EndDateTime(Some(IsoFormat(FromDayNumber(end / 86400))), Some(ClockIsoFormat(t.(secs := end % 86400))), None)
       case None => EndDateTime(None, None, None))
    case _ => EndDateTime(None, None, None)
  }

  /**
   * The end time of day and the end day number, both as strings, of a moment
   * given in seconds; the microseconds and the offset are those of the start t.
   */
  function DayEnd(end: nat, t: ClockTime): EndDateTime
    requires t.Valid()
  {
    EndDateTime(None, Some(ClockIsoFormat(t.(secs := end % 86400))), Some(NatToString(end / 86400)))
  }

  /** The try block for a section without a date: day numbers count from date.min. */
  function DayBasedEndOf(day: Option<string>, time: string, duration: int): EndDateTime
  {
    DayBasedEndAt(if Truthy(day) then ParseInt(day.value) else Some(0), ParseIsoTime(time), duration)
  }

  /** The same try block on the parsed start day and start time (None: the parse raised). */
  function DayBasedEndAt(dayInt: Option<int>, startTime: Option<ClockTime>, duration: int): EndDateTime
    requires startTime.Some? ==> startTime.value.Valid()
  {
    match (dayInt, startTime)
    case (Some(n), Some(t)) =>
      if 0 <= n <= MaxDayNumber then
        (match EndMoment(n, t.secs, duration)
         case Some(end) => DayEnd(end, t)
         case None => EndDateTime(None, None, None))
      else EndDateTime(None, None, None)
    case _ => EndDateTime(None, None, None)
  }

  /**
   * get_end_date_time on the section's fields, with datetime arithmetic done
   * on seconds since 0001-01-01 00:00:00. The duration conversion raises
   * (Err); the failures inside the two try blocks give (None, None, None).
   */
  function EndDateTimeOf(date: Option<string>, time: Option<string>, day: Option<string>,
                         lastsDays: Option<string>, lastsHours: Option<string>,
                         lastsMinutes: Option<string>): (r: Result<EndDateTime>)
    ensures r.Ok? <==> DurationOf(lastsDays, lastsHours, lastsMinutes).Ok?
    ensures r.Ok? && !Truthy(time) ==> r.value == EndDateTime(None, None, None)
    ensures r.Ok? && Truthy(time) && !Truthy(date) ==> r.value.endDate.None?
    ensures r.Ok? && Truthy(date) ==> r.value.endDay.None?
  {
    match DurationOf(lastsDays, lastsHours, lastsMinutes)
    case Err(e) => Err(e)
    case Ok(duration) =>
      if !Truthy(time) then Ok(EndDateTime(None, None, None))
      else if Truthy(date) then Ok(DateBasedEndOf(date.value, time.value, duration))
      else Ok(DayBasedEndOf(day, time.value, duration))
  }

  /** Adding n whole days to a moment: the day count grows by n and the time of day stays. */
  lemma DivShift(n: int, t: int, duration: int)
    ensures (n * 86400 + (t + duration)) / 86400 == n + (t + duration) / 86400
    ensures (n * 86400 + (t + duration)) % 86400 == (t + duration) % 86400
  {
    var x := t + duration;
    var q, r := x / 86400, x % 86400;
    assert n * 86400 + x == (n + q) * 86400 + r;
  }

  /**
   * Without a date, the end day is the start day plus the whole days of start
   * time plus duration, and the end time is what remains of the last day,
   * with the microseconds and the UTC offset of the start time.
   */
  lemma DayBasedEnd(day: Option<string>, time: string, n: nat, t: ClockTime, duration: int)
    requires ParseIsoTime(time) == Some(t)
    requires if Truthy(day) then ParseInt(day.value) == Some(n) else n == 0
    requires n <= MaxDayNumber && 0 <= n * 86400 + (t.secs + duration) < DateTimeLimit
    ensures n + (t.secs + duration) / 86400 >= 0
    ensures DayBasedEndOf(day, time, duration)
      == EndDateTime(None, Some(ClockIsoFormat(t.(secs := (t.secs + duration) % 86400))),
                     Some(NatToString(n + (t.secs + duration) / 86400)))
  {
    assert DayBasedEndOf(day, time, duration) == DayBasedEndAt(Some(n), Some(t), duration);
    DayBasedEndMoment(n, t, duration);
    DayEndShift(n, t, duration);
  }

  /** On a valid start, the day-based try block gives the end of the moment start plus duration. */
  lemma DayBasedEndMoment(n: nat, t: ClockTime, duration: int)
    requires t.Valid()
    requires n <= MaxDayNumber && 0 <= n * 86400 + (t.secs + duration) < DateTimeLimit
    ensures DayBasedEndAt(Some(n), Some(t), duration) == DayEnd(n * 86400 + (t.secs + duration), t)
  {
    EndMomentShift(n, t.secs, duration);
    DayBasedEndAtMoment(n, t, duration, n * 86400 + (t.secs + duration));
  }

  lemma EndMomentShift(n: nat, t: nat, duration: int)
    requires 0 <= n * 86400 + (t + duration) < DateTimeLimit
    ensures EndMoment(n, t, duration) == Some(n * 86400 + (t + duration))
  {
  }

  lemma DayBasedEndAtMoment(n: nat, t: ClockTime, duration: int, end: nat)
    requires t.Valid()
    requires n <= MaxDayNumber && EndMoment(n, t.secs, duration) == Some(end)
    ensures DayBasedEndAt(Some(n), Some(t), duration) == DayEnd(end, t)
  {
  }

  /** n whole days later, the time of day is the same and the day number is n larger. */
  lemma DayEndShift(n: nat, t: ClockTime, duration: int)
    requires t.Valid()
    requires 0 <= n * 86400 + (t.secs + duration)
    ensures n + (t.secs + duration) / 86400 >= 0
    ensures DayEnd(n * 86400 + (t.secs + duration), t)
      == EndDateTime(None, Some(ClockIsoFormat(t.(secs := (t.secs + duration) % 86400))),
                     Some(NatToString(n + (t.secs + duration) / 86400)))
  {
    DivShift(n, t.secs, duration);
  }

  /** A day number or a start time that does not parse gives no end at all. */
  lemma DayBasedEndInvalid(day: Option<string>, time: string, duration: int)
    requires ParseIsoTime(time).None? || (Truthy(day) && ParseInt(day.value).None?)
    ensures DayBasedEndOf(day, time, duration) == EndDateTime(None, None, None)
  {
  }

  /**
   * With a date, the end date and time read back as the start moment plus
   * the duration, with the microseconds and the UTC offset of the start.
   */
  lemma DateBasedEnd(date: string, time: string, d: Date, t: ClockTime, duration: int)
    requires ParseIsoDate(date) == Some(d) && ParseIsoTime(time) == Some(t)
    requires 0 <= d.DayNumber() * 86400 + t.secs + duration < DateTimeLimit
    ensures var r := DateBasedEndOf(date, time, duration);
            r.endDay.None? && r.endDate.Some? && r.endTime.Some? &&
            (var ed := ParseIsoDate(r.endDate.value);
             var et := ParseIsoTime(r.endTime.value);
             ed.Some? && et.Some? &&
             ed.value.DayNumber() * 86400 + et.value.secs == d.DayNumber() * 86400 + t.secs + duration &&
             et.value.micros == t.micros && et.value.offset == t.offset)
  {
    var end := d.DayNumber() * 86400 + t.secs + duration;
    assert EndMoment(d.DayNumber(), t.secs, duration) == Some(end);
    var e := FromDayNumber(end / 86400);
    var endTime := t.(secs := end % 86400);
    var r := DateBasedEndOf(date, time, duration);
    assert r == EndDateTime(Some(IsoFormat(e)), Some(ClockIsoFormat(endTime)), None);
    ParseIsoFormat(e);
    ClockIsoFormatParses(endTime);
    assert e.DayNumber() * 86400 + end % 86400 == end;
  }

  // ----- the section element -----

  datatype SectionRec = SectionRec(
    withTags: TagsRec,
    sectionContent: Option<string>,
    scType: Option<int>, scene: Option<int>, status: Option<int>, appendToPrev: Option<bool>,
    goal: Option<string>, conflict: Option<string>, outcome: Option<string>,
    plotlineNotes: Option<OMap<string, string>>,
    date: Option<string>, weekDay: Option<nat>, localeDate: Option<string>,
    time: Option<string>, day: Option<string>,
    lastsMinutes: Option<string>, lastsHours: Option<string>, lastsDays: Option<string>,
    characters: Option<seq<string>>, locations: Option<seq<string>>, items: Option<seq<string>>)
  {
    /**
     * to_yaml(yaml): the tag-level lines, then the section's own groups of
     * lines; the comparisons of status and scene need them to be set.
     */
    function AppendYaml(yaml: seq<string>): seq<string>
      requires status.Some? && scene.Some?
    {
      yaml + withTags.YamlLines() + AttributeLines() + DateLines() + DurationLines() + ReferenceLines()
    }

    /** type unless 0, status above 1, scene above 0, append when set */
    function AttributeLines(): seq<string>
      requires status.Some? && scene.Some?
    {
      NumberLine("type", scType.Some? && scType.value != 0, scType.GetOr(0))
      + NumberLine("status", status.GetOr(1) > 1, status.GetOr(1))
      + NumberLine("scene", scene.GetOr(0) > 0, scene.GetOr(0))
      + FlagLine("append", appendToPrev)
    }

    /** Date, or Day when there is no date; then Time */
    function DateLines(): seq<string>
    {
      (if Truthy(date) then TextLine("Date", date) else TextLine("Day", day)) + TextLine("Time", time)
    }

    function DurationLines(): seq<string>
    {
      DurationLine("LastsDays", lastsDays) + DurationLine("LastsHours", lastsHours)
      + DurationLine("LastsMinutes", lastsMinutes)
    }

    function ReferenceLines(): seq<string>
    {
      ListLine("Characters", characters) + ListLine("Locations", locations) + ListLine("Items", items)
    }
  }

  /** A duration line, written when the value is set, not empty and not '0'. */
  function DurationLine(key: string, value: Option<string>): seq<string>
  {
    if Truthy(value) && value.value != "0" then [key + ": " + value.value] else []
  }

  /** The date, weekday and locale date that a date string gives, or all None. */
  function DateFields(scDate: Option<string>): (r: (Option<string>, Option<nat>, Option<string>))
    ensures r.0.Some? <==> scDate.Some? && IsIsoDate(scDate.value)
    ensures r.0.Some? ==> r.0 == scDate && r.1 == Some(ParseIsoDate(scDate.value).value.Weekday())
    ensures r.0.None? ==> r.1.None? && r.2.None?
  {
    if scDate.Some? && IsIsoDate(scDate.value) then
      (scDate, Some(ParseIsoDate(scDate.value).value.Weekday()), scDate)
    else (None, None, None)
  }

  class Section {
    const withTags: BasicElementTags
    var sectionContent: Option<string>
    /** Derived from sectionContent by its setter. */
    var wordCount: nat
    var scType: Option<int>
    var scene: Option<int>
    var status: Option<int>
    var appendToPrev: Option<bool>
    var goal: Option<string>
    var conflict: Option<string>
    var outcome: Option<string>
    var plotlineNotes: Option<OMap<string, string>>
    var date: Option<string>
    var weekDay: Option<nat>
    var localeDate: Option<string>
    var time: Option<string>
    var day: Option<string>
    var lastsMinutes: Option<string>
    var lastsHours: Option<string>
    var lastsDays: Option<string>
    var characters: Option<seq<string>>
    var locations: Option<seq<string>>
    var items: Option<seq<string>>
    /** Back references to the plot lines listing this section. */
    var scPlotLines: seq<string>
    /** Back references: plot point ID -> plot line ID. */
    var scPlotPoints: OMap<string, string>

    function OnChange(): ModelBase? { withTags.withNotes.basic.onChange }

    /** The word count always belongs to the current content. */
    ghost predicate Valid()
      reads this
    {
      wordCount == ContentWordCount(sectionContent)
    }

    function Rec(): SectionRec
      reads this, withTags, withTags.withNotes, withTags.withNotes.basic
    {
      SectionRec(withTags.Rec(), sectionContent, scType, scene, status, appendToPrev,
                 goal, conflict, outcome, plotlineNotes, date, weekDay, localeDate, time, day,
                 lastsMinutes, lastsHours, lastsDays, characters, locations, items)
    }

    constructor(onChange: ModelBase? := null, title: Option<string> := None, desc: Option<string> := None,
                links: Option<Links> := None, notes: Option<string> := None, tags: Option<seq<string>> := None,
                scType: Option<int> := None, scene: Option<int> := None, status: Option<int> := None,
                appendToPrev: Option<bool> := None, goal: Option<string> := None,
                conflict: Option<string> := None, outcome: Option<string> := None,
                plotNotes: Option<OMap<string, string>> := None, scDate: Option<string> := None,
                scTime: Option<string> := None, day: Option<string> := None,
                lastsMinutes: Option<string> := None, lastsHours: Option<string> := None,
                lastsDays: Option<string> := None, characters: Option<seq<string>> := None,
                locations: Option<seq<string>> := None, items: Option<seq<string>> := None)
      ensures fresh(withTags) && fresh(withTags.withNotes) && fresh(withTags.withNotes.basic)
      ensures OnChange() == onChange && Valid()
      ensures wordCount == 0 && scPlotLines == [] && scPlotPoints == Empty()
      ensures Rec() == SectionRec(
        TagsRec(NotesRec(BasicRec(title, desc, links), notes), tags), None,
        scType, scene, status, appendToPrev, goal, conflict, outcome, plotNotes,
        DateFields(scDate).0, DateFields(scDate).1, DateFields(scDate).2, scTime, day,
        lastsMinutes, lastsHours, lastsDays, characters, locations, items)
    {
      withTags := new BasicElementTags(onChange, title, desc, links, notes, tags);
      sectionContent := None;
      wordCount := 0;
      this.scType, this.scene, this.status, this.appendToPrev := scType, scene, status, appendToPrev;
      this.goal, this.conflict, this.outcome, this.plotlineNotes := goal, conflict, outcome, plotNotes;
      var fields := DateFields(scDate);
      this.date, this.weekDay, this.localeDate := fields.0, fields.1, fields.2;
      this.time, this.day := scTime, day;
      this.lastsMinutes, this.lastsHours, this.lastsDays := lastsMinutes, lastsHours, lastsDays;
      this.characters, this.locations, this.items := characters, locations, items;
      scPlotLines := [];
      scPlotPoints := Empty();
    }

    /** The sectionContent setter: a new content also sets the word count. */
    method SetSectionContent(text: Option<string>)
      modifies this`sectionContent, this`wordCount, OnChange()
      ensures sectionContent == text
      ensures old(sectionContent) != text ==> wordCount == ContentWordCount(text)
      ensures old(sectionContent) == text ==> wordCount == old(wordCount)
      ensures old(Valid()) ==> Valid()
      ensures Notified(OnChange(), old(sectionContent) != text)
    {
      if sectionContent != text {
        sectionContent := text;
        wordCount := ContentWordCount(text);
        withTags.Notify();
      }
    }

    method SetScType(v: Option<int>)
      modifies this`scType, OnChange()
      ensures scType == v
      ensures Rec() == old(Rec()).(scType := v)
      ensures Notified(OnChange(), old(scType) != v)
    {
      if scType != v {
        scType := v;
        withTags.Notify();
      }
    }

    method SetScene(v: Option<int>)
      modifies this`scene, OnChange()
      ensures scene == v
      ensures Rec() == old(Rec()).(scene := v)
      ensures Notified(OnChange(), old(scene) != v)
    {
      if scene != v {
        scene := v;
        withTags.Notify();
      }
    }

    method SetStatus(v: Option<int>)
      modifies this`status, OnChange()
      ensures status == v
      ensures Rec() == old(Rec()).(status := v)
      ensures Notified(OnChange(), old(status) != v)
    {
      if status != v {
        status := v;
        withTags.Notify();
      }
    }

    method SetAppendToPrev(v: Option<bool>)
      modifies this`appendToPrev, OnChange()
      ensures appendToPrev == v
      ensures Rec() == old(Rec()).(appendToPrev := v)
      ensures Notified(OnChange(), old(appendToPrev) != v)
    {
      if appendToPrev != v {
        appendToPrev := v;
        withTags.Notify();
      }
    }

    method SetGoal(v: Option<string>)
      modifies this`goal, OnChange()
      ensures goal == v
      ensures Rec() == old(Rec()).(goal := v)
      ensures Notified(OnChange(), old(goal) != v)
    {
      if goal != v {
        goal := v;
        withTags.Notify();
      }
    }

    method SetConflict(v: Option<string>)
      modifies this`conflict, OnChange()
      ensures conflict == v
      ensures Rec() == old(Rec()).(conflict := v)
      ensures Notified(OnChange(), old(conflict) != v)
    {
      if conflict != v {
        conflict := v;
        withTags.Notify();
      }
    }

    method SetOutcome(v: Option<string>)
      modifies this`outcome, OnChange()
      ensures outcome == v
      ensures Rec() == old(Rec()).(outcome := v)
      ensures Notified(OnChange(), old(outcome) != v)
    {
      if outcome != v {
        outcome := v;
        withTags.Notify();
      }
    }

    method SetTime(v: Option<string>)
      modifies this`time, OnChange()
      ensures time == v
      ensures Rec() == old(Rec()).(time := v)
      ensures Notified(OnChange(), old(time) != v)
    {
      if time != v {
        time := v;
        withTags.Notify();
      }
    }

    method SetDay(v: Option<string>)
      modifies this`day, OnChange()
      ensures day == v
      ensures Rec() == old(Rec()).(day := v)
      ensures Notified(OnChange(), old(day) != v)
    {
      if day != v {
        day := v;
        withTags.Notify();
      }
    }

    method SetLastsMinutes(v: Option<string>)
      modifies this`lastsMinutes, OnChange()
      ensures lastsMinutes == v
      ensures Rec() == old(Rec()).(lastsMinutes := v)
      ensures Notified(OnChange(), old(lastsMinutes) != v)
    {
      if lastsMinutes != v {
        lastsMinutes := v;
        withTags.Notify();
      }
    }

    method SetLastsHours(v: Option<string>)
      modifies this`lastsHours, OnChange()
      ensures lastsHours == v
      ensures Rec() == old(Rec()).(lastsHours := v)
      ensures Notified(OnChange(), old(lastsHours) != v)
    {
      if lastsHours != v {
        lastsHours := v;
        withTags.Notify();
      }
    }

    method SetLastsDays(v: Option<string>)
      modifies this`lastsDays, OnChange()
      ensures lastsDays == v
      ensures Rec() == old(Rec()).(lastsDays := v)
      ensures Notified(OnChange(), old(lastsDays) != v)
    {
      if lastsDays != v {
        lastsDays := v;
        withTags.Notify();
      }
    }

    method SetCharacters(v: Option<seq<string>>)
      modifies this`characters, OnChange()
      ensures characters == v
      ensures Rec() == old(Rec()).(characters := v)
      ensures Notified(OnChange(), old(characters) != v)
    {
      if characters != v {
        characters := v;
        withTags.Notify();
      }
    }

    method SetLocations(v: Option<seq<string>>)
      modifies this`locations, OnChange()
      ensures locations == v
      ensures Rec() == old(Rec()).(locations := v)
      ensures Notified(OnChange(), old(locations) != v)
    {
      if locations != v {
        locations := v;
        withTags.Notify();
      }
    }

    method SetItems(v: Option<seq<string>>)
      modifies this`items, OnChange()
      ensures items == v
      ensures Rec() == old(Rec()).(items := v)
      ensures Notified(OnChange(), old(items) != v)
    {
      if items != v {
        items := v;
        withTags.Notify();
      }
    }

    /** Dictionaries with the same entries in another order count as equal. */
    method SetPlotlineNotes(v: Option<OMap<string, string>>)
      modifies this`plotlineNotes, OnChange()
      ensures DictsDiffer(old(plotlineNotes), v) ==> plotlineNotes == v
      ensures !DictsDiffer(old(plotlineNotes), v) ==> plotlineNotes == old(plotlineNotes)
      ensures Notified(OnChange(), DictsDiffer(old(plotlineNotes), v))
    {
      if DictsDiffer(plotlineNotes, v) {
        plotlineNotes := v;
        withTags.Notify();
      }
    }

    /**
     * The date setter. An empty value clears date, weekday and locale date; a
     * value that is not an ISO date changes nothing and does not notify.
     */
    method SetDate(v: Option<string>)
      modifies this`date, this`weekDay, this`localeDate, OnChange()
      ensures old(date) != v && !Truthy(v) ==>
        date.None? && weekDay.None? && localeDate.None? && Notified(OnChange(), true)
      ensures old(date) != v && Truthy(v) && IsIsoDate(v.value) ==>
        date == v && weekDay == Some(ParseIsoDate(v.value).value.Weekday()) && localeDate == v
        && Notified(OnChange(), true)
      ensures old(date) == v || (Truthy(v) && !IsIsoDate(v.value)) ==>
        date == old(date) && weekDay == old(weekDay) && localeDate == old(localeDate)
        && Notified(OnChange(), false)
      ensures Rec() == old(Rec()).(date := date, weekDay := weekDay, localeDate := localeDate)
    {
      if date != v {
        if !Truthy(v) {
          date, weekDay, localeDate := None, None, None;
          withTags.Notify();
          return;
        }
        var parsed := ParseIsoDate(v.value);
        if parsed.None? {
          return;
        }
        weekDay := Some(parsed.value.Weekday());
        localeDate := v;
        date := v;
        withTags.Notify();
      }
    }

    /** to_yaml: the tag-level lines, then the section's own metadata lines. */
    method ToYaml(yaml: seq<string>) returns (r: seq<string>)
      requires status.Some? && scene.Some?
      ensures r == Rec().AppendYaml(yaml)
    {
      r := withTags.ToYaml(yaml);
      r := AppendAttributeLines(r);
      r := AppendDateLines(r);
      r := AppendDurationLines(r);
      r := AppendReferenceLines(r);
    }

    method AppendAttributeLines(yaml: seq<string>) returns (r: seq<string>)
      requires status.Some? && scene.Some?
      ensures r == yaml + Rec().AttributeLines()
    {
      var typeLine, statusLine, sceneLine: seq<string> := [], [], [];
      if scType.Some? && scType.value != 0 {
        typeLine := ["type" + ": " + IntToString(scType.value)];
      }
      if status.value > 1 {
        statusLine := ["status" + ": " + IntToString(status.value)];
      }
      if scene.value > 0 {
        sceneLine := ["scene" + ": " + IntToString(scene.value)];
      }
      r := yaml + typeLine + statusLine + sceneLine + FlagLine("append", appendToPrev);
      AppendFour(yaml, typeLine, statusLine, sceneLine, FlagLine("append", appendToPrev));
    }

    method AppendDateLines(yaml: seq<string>) returns (r: seq<string>)
      ensures r == yaml + Rec().DateLines()
    {
      if Truthy(date) {
        r := yaml + TextLine("Date", date);
      } else {
        r := yaml + TextLine("Day", day);
      }
      r := r + TextLine("Time", time);
    }

    method AppendDurationLines(yaml: seq<string>) returns (r: seq<string>)
      ensures r == yaml + Rec().DurationLines()
    {
      r := yaml + DurationLine("LastsDays", lastsDays);
      r := r + DurationLine("LastsHours", lastsHours);
      r := r + DurationLine("LastsMinutes", lastsMinutes);
    }

    method AppendReferenceLines(yaml: seq<string>) returns (r: seq<string>)
      ensures r == yaml + Rec().ReferenceLines()
    {
      r := yaml + ListLine("Characters", characters);
      r := r + ListLine("Locations", locations);
      r := r + ListLine("Items", items);
    }

    /** get_end_date_time */
    method GetEndDateTime() returns (r: Result<EndDateTime>)
      ensures r == EndDateTimeOf(date, time, day, lastsDays, lastsHours, lastsMinutes)
    {
      r := EndDateTimeOf(date, time, day, lastsDays, lastsHours, lastsMinutes);
    }
  }
}
