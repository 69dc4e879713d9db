/**
 * The export filters: FilterFactory (filter_factory.py) picks a filter
 * class by the prefix of the filter element's ID, and ScVpFilter
 * (sc_vp_filter.py) accepts the sections whose viewpoint is a given
 * character.
 */
module Filters {
  import opened Wrappers
  import opened Strings
  import opened NovxGlobals
  import opened Elements
  import opened Sections
  import FX = FileExports

  /** The filter objects the factory returns, with the ID they filter by. */
  datatype FilterKind =
    | PassAll                  // Filter()
    | ScVp(crId: string)       // ScVpFilter: sections from a viewpoint
    | ScAc(acId: string)       // ScAcFilter: sections of a plot line
    | ChVp(crId: string)       // ChVpFilter: chapters with a viewpoint
    | ChAc(acId: string)       // ChAcFilter: chapters of a plot line

  /** FilterFactory.get_section_filter */
  function SectionFilter(filterElementId: string): (r: FilterKind)
    ensures StartsWith(filterElementId, CHARACTER_PREFIX) <==> r == ScVp(filterElementId)
    ensures (!StartsWith(filterElementId, CHARACTER_PREFIX) && StartsWith(filterElementId, PLOT_LINE_PREFIX))
              <==> r == ScAc(filterElementId)
    ensures r.PassAll? <==> !StartsWith(filterElementId, CHARACTER_PREFIX) && !StartsWith(filterElementId, PLOT_LINE_PREFIX)
  {
    if StartsWith(filterElementId, CHARACTER_PREFIX) then ScVp(filterElementId)
    else if StartsWith(filterElementId, PLOT_LINE_PREFIX) then ScAc(filterElementId)
    else PassAll
  }

  /** FilterFactory.get_chapter_filter */
  function ChapterFilter(filterElementId: string): (r: FilterKind)
    ensures StartsWith(filterElementId, CHARACTER_PREFIX) <==> r == ChVp(filterElementId)
    ensures (!StartsWith(filterElementId, CHARACTER_PREFIX) && StartsWith(filterElementId, PLOT_LINE_PREFIX))
              <==> r == ChAc(filterElementId)
    ensures r.PassAll? <==> !StartsWith(filterElementId, CHARACTER_PREFIX) && !StartsWith(filterElementId, PLOT_LINE_PREFIX)
  {
    if StartsWith(filterElementId, CHARACTER_PREFIX) then ChVp(filterElementId)
    else if StartsWith(filterElementId, PLOT_LINE_PREFIX) then ChAc(filterElementId)
    else PassAll
  }

  /** The chapter filter is the section filter's counterpart for every ID. */
  lemma FiltersMirror(filterElementId: string)
    ensures SectionFilter(filterElementId).PassAll? <==> ChapterFilter(filterElementId).PassAll?
    ensures SectionFilter(filterElementId).ScVp? <==> ChapterFilter(filterElementId).ChVp?
    ensures SectionFilter(filterElementId).ScAc? <==> ChapterFilter(filterElementId).ChAc?
  {
  }

  /** No ID starts with both prefixes, so the second test only sees non-character IDs. */
  lemma PrefixesExclusive(id: string)
    ensures !(StartsWith(id, CHARACTER_PREFIX) && StartsWith(id, PLOT_LINE_PREFIX))
  {
    if StartsWith(id, CHARACTER_PREFIX) {
      assert id[0] == 'c';
    }
  }

  /** The empty ID, which the export uses for "no filter", passes everything. */
  lemma EmptyIdPassesAll()
    ensures SectionFilter("") == PassAll && ChapterFilter("") == PassAll
  {
  }

  /**
   * ScVpFilter.accept: the section's first listed character is crId. An
   * unknown section, a missing or an empty character list raise inside the
   * try block and give false.
   */
  function ViewpointAccepts(crId: string, sections: map<string, SectionRec>, scId: string): (r: bool)
    ensures r <==> scId in sections && sections[scId].characters.Some? && sections[scId].characters.value != []
                   && sections[scId].characters.value[0] == crId
  {
    if scId !in sections then false
    else match sections[scId].characters
      case None => false
      case Some(crs) => if crs == [] then false else crs[0] == crId
  }

  /** Only the viewpoint counts: characters after the first never make a section match. */
  lemma OnlyViewpointCounts(crId: string, sections: map<string, SectionRec>, scId: string, vp: string, others: seq<string>, more: seq<string>)
    requires scId in sections && sections[scId].characters == Some([vp] + others)
    ensures ViewpointAccepts(crId, sections, scId) == ViewpointAccepts(crId, sections[scId := sections[scId].(characters := Some([vp] + more))], scId)
    ensures ViewpointAccepts(crId, sections, scId) <==> vp == crId
  {
  }

  /** The export's section filter for a ScVpFilter. */
  function ViewpointFilter(crId: string, sections: map<string, SectionRec>): (f: string -> bool)
    ensures forall scId :: f(scId) == ViewpointAccepts(crId, sections, scId)
  {
    scId => ViewpointAccepts(crId, sections, scId)
  }

  /** The export filters with a section filter for the viewpoint crId and the rest accepting all. */
  function ViewpointFilters(crId: string, sections: map<string, SectionRec>): (f: FX.Filters)
    ensures forall scId :: f.section(scId) <==> ViewpointAccepts(crId, sections, scId)
    ensures forall x :: f.chapter(x) && f.character(x) && f.location(x) && f.item(x) && f.arc(x)
  {
    FX.AcceptAll().(section := ViewpointFilter(crId, sections))
  }

  /** What an f-string makes of an optional string: the text, or 'None'. */
  function Formatted(s: Option<string>): string
  {
    match s
    case None => "None"
    case Some(t) => t
  }

  const VIEWPOINT_MESSAGE := "Sections from viewpoint"

  /**
   * ScVpFilter.get_message: the label and the filter character's title. An
   * unknown character raises KeyError, which is not caught.
   */
  function ViewpointMessage(crId: string, characters: map<string, CharacterRec>): (r: Result<string>)
    ensures r.Err? <==> crId !in characters
    ensures r.Ok? ==>
              && StartsWith(r.value, VIEWPOINT_MESSAGE + ": ")
              && r.value[|VIEWPOINT_MESSAGE| + 2..] == Formatted(characters[crId].world.withTags.withNotes.basic.title)
  {
    if crId !in characters then Err("KeyError")
    else Ok(VIEWPOINT_MESSAGE + ": " + Formatted(characters[crId].world.withTags.withNotes.basic.title))
  }
}
