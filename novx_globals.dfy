/**
 * The shared constants and helpers the core imports from novx_globals.
 * That file is not part of this model: the ID prefixes and tree roots below
 * are two-letter and upper-case placeholders, and the helpers are given the
 * definitions stated at each one.
 */
module NovxGlobals {
  import opened Wrappers
  import opened Strings
  import opened Calendar

  const CHAPTER_PREFIX := "ch"
  const SECTION_PREFIX := "sc"
  const CHARACTER_PREFIX := "cr"
  const LOCATION_PREFIX := "lc"
  const ITEM_PREFIX := "it"
  const PLOT_LINE_PREFIX := "ac"
  const PLOT_POINT_PREFIX := "ap"
  const PRJ_NOTE_PREFIX := "pn"

  const CH_ROOT := "CH_ROOT"
  const CR_ROOT := "CR_ROOT"
  const LC_ROOT := "LC_ROOT"
  const IT_ROOT := "IT_ROOT"
  const PL_ROOT := "PL_ROOT"
  const PN_ROOT := "PN_ROOT"

  const LIST_DIVIDER := ";"

  /** list_to_string: the entries joined by ';'. */
  function ListToString(elements: seq<string>): string
  {
    Join(LIST_DIVIDER, elements)
  }

  /**
   * string_to_list: the text split at ';', each piece stripped, empty pieces
   * and repeated pieces dropped, the order kept; no text gives [].
   */
  function StringToList(text: Option<string>): (r: seq<string>)
    ensures forall i :: 0 <= i < |r| ==> r[i] != [] && NoOuterSpace(r[i])
  {
    match text
    case None => []
    case Some(t) => UniqueStripped(Split(t, LIST_DIVIDER), [])
  }

  function UniqueStripped(pieces: seq<string>, acc: seq<string>): (r: seq<string>)
    requires forall i :: 0 <= i < |acc| ==> acc[i] != [] && NoOuterSpace(acc[i])
    ensures forall i :: 0 <= i < |r| ==> r[i] != [] && NoOuterSpace(r[i])
    decreases |pieces|
  {
    if pieces == [] then acc
    else
      var e := Strip(pieces[0]);
      if e != [] && e !in acc then UniqueStripped(pieces[1..], acc + [e])
      else UniqueStripped(pieces[1..], acc)
  }

  /** A list string_to_list gives back unchanged after list_to_string. */
  predicate ListEncodable(elements: seq<string>)
  {
    (forall i :: 0 <= i < |elements| ==>
       elements[i] != [] && NoOuterSpace(elements[i]) && !Contains(elements[i], LIST_DIVIDER))
    && (forall i, j :: 0 <= i < j < |elements| ==> elements[i] != elements[j])
  }

  /** intersection(elemList, refList): the entries of elemList found in refList, in their order. */
  function Intersection(elements: seq<string>, reference: set<string>): (r: seq<string>)
    ensures forall x :: x in r <==> x in elements && x in reference
    ensures |r| <= |elements|
  {
    if elements == [] then []
    else if elements[0] in reference then [elements[0]] + Intersection(elements[1..], reference)
    else Intersection(elements[1..], reference)
  }

  /** verified_date: an ISO date string is kept, anything else becomes None. */
  function VerifiedDate(s: Option<string>): (r: Option<string>)
    ensures r.Some? ==> r == s && IsIsoDate(r.value)
  {
    if s.Some? && IsIsoDate(s.value) then s else None
  }

  /** verified_int_string: a string int() accepts is kept, anything else becomes None. */
  function VerifiedIntString(s: Option<string>): (r: Option<string>)
    ensures r.Some? ==> r == s && ParseInt(r.value).Some?
  {
    if s.Some? && ParseInt(s.value).Some? then s else None
  }

  /** verified_time: an ISO time string is kept, anything else becomes None. */
  function VerifiedTime(s: Option<string>): (r: Option<string>)
    ensures r.Some? ==> r == s && IsIsoTime(r.value)
  {
    if s.Some? && IsIsoTime(s.value) then s else None
  }

  /** string_to_list inverts list_to_string on lists of distinct, trimmed, divider-free entries. */
  lemma StringToListInvertsListToString(elements: seq<string>)
    requires ListEncodable(elements)
    ensures StringToList(Some(ListToString(elements))) == elements
  {
    if elements == [] {
      assert ListToString(elements) == "";
      assert Split("", LIST_DIVIDER) == [""];
      assert Strip("") == "";
      assert UniqueStripped([""], []) == UniqueStripped([""][1..], []);
    } else {
      SplitJoin(elements);
      UniqueStrippedKeeps(elements, []);
    }
  }

  lemma {:induction false} SplitJoin(parts: seq<string>)
    requires parts != []
    requires forall i :: 0 <= i < |parts| ==> !Contains(parts[i], LIST_DIVIDER)
    ensures Split(Join(LIST_DIVIDER, parts), LIST_DIVIDER) == parts
  {
    if |parts| == 1 {
      FindAbsent(parts[0]);
    } else {
      var rest := Join(LIST_DIVIDER, parts[1..]);
      FindAfter(parts[0], rest);
      var joined := parts[0] + LIST_DIVIDER + rest;
      assert joined[|parts[0]| + 1..] == rest;
      assert joined[..|parts[0]|] == parts[0];
      SplitJoin(parts[1..]);
    }
  }

  lemma {:induction false} FindAbsent(a: string)
    requires !Contains(a, LIST_DIVIDER)
    ensures Find(a, LIST_DIVIDER) == None
  {
  }

  lemma {:induction false} FindAfter(a: string, rest: string)
    requires !Contains(a, LIST_DIVIDER)
    ensures Find(a + LIST_DIVIDER + rest, LIST_DIVIDER) == Some(|a|)
  {
    var s := a + LIST_DIVIDER + rest;
    if a == [] {
      assert StartsWith(s, LIST_DIVIDER);
    } else {
      assert !StartsWith(a, LIST_DIVIDER);
      assert s[0] == a[0] != ';';
      assert !StartsWith(s, LIST_DIVIDER);
      assert s[1..] == a[1..] + LIST_DIVIDER + rest;
      FindAfter(a[1..], rest);
    }
  }

  lemma {:induction false} UniqueStrippedKeeps(pieces: seq<string>, acc: seq<string>)
    requires forall i :: 0 <= i < |acc| ==> acc[i] != [] && NoOuterSpace(acc[i])
    requires forall i :: 0 <= i < |pieces| ==> pieces[i] != [] && NoOuterSpace(pieces[i]) && pieces[i] !in acc
    requires forall i, j :: 0 <= i < j < |pieces| ==> pieces[i] != pieces[j]
    ensures UniqueStripped(pieces, acc) == acc + pieces
    decreases |pieces|
  {
    if pieces != [] {
      StripOfTrimmed(pieces[0]);
      assert UniqueStripped(pieces, acc) == UniqueStripped(pieces[1..], acc + [pieces[0]]);
      FreshTail(pieces, acc);
      UniqueStrippedKeeps(pieces[1..], acc + [pieces[0]]);
      assert acc + [pieces[0]] + pieces[1..] == acc + pieces;
    }
  }

  /** After keeping the first piece, the other pieces are still trimmed, distinct and new. */
  lemma FreshTail(pieces: seq<string>, acc: seq<string>)
    requires pieces != []
    requires forall i :: 0 <= i < |acc| ==> acc[i] != [] && NoOuterSpace(acc[i])
    requires forall i :: 0 <= i < |pieces| ==> pieces[i] != [] && NoOuterSpace(pieces[i]) && pieces[i] !in acc
    requires forall i, j :: 0 <= i < j < |pieces| ==> pieces[i] != pieces[j]
    ensures forall i :: 0 <= i < |acc + [pieces[0]]| ==> (acc + [pieces[0]])[i] != [] && NoOuterSpace((acc + [pieces[0]])[i])
    ensures forall i :: 0 <= i < |pieces[1..]| ==>
      pieces[1..][i] != [] && NoOuterSpace(pieces[1..][i]) && pieces[1..][i] !in acc + [pieces[0]]
    ensures forall i, j :: 0 <= i < j < |pieces[1..]| ==> pieces[1..][i] != pieces[1..][j]
  {
    var e, rest, acc' := pieces[0], pieces[1..], acc + [pieces[0]];
    forall i | 0 <= i < |acc'| ensures acc'[i] != [] && NoOuterSpace(acc'[i]) {
      if i < |acc| { assert acc'[i] == acc[i]; } else { assert acc'[i] == e; }
    }
    forall i | 0 <= i < |rest| ensures rest[i] != [] && NoOuterSpace(rest[i]) && rest[i] !in acc' {
      assert rest[i] == pieces[i + 1] != e;
    }
    forall i, j | 0 <= i < j < |rest| ensures rest[i] != rest[j] {
      assert rest[i] == pieces[i + 1] && rest[j] == pieces[j + 1];
    }
  }
}
