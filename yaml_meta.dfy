/**
 * The metadata lines of the .mdnov project format: an element's metadata is
 * a list of 'Key: value' lines. Reading splits each line at its first ':',
 * strips key and value, and lets a later line override an earlier one with
 * the same key; a line without ':' is skipped. Each kind of line the
 * element codecs write is shown here to read back as the entry below it.
 */
module YamlMeta {
  import opened Wrappers
  import opened Dicts
  import opened Strings
  import opened Calendar
  import opened NovxGlobals
  import opened Elements
  import opened Sections
  import opened Novels

  // ----- reading lines into the metadata dictionary -----

  /** The dictionary import_data builds from the lines, in order. */
  function MetaDictOf(yaml: seq<string>): map<string, string>
  {
    if yaml == [] then map[] else MetaDictOf(yaml[..|yaml| - 1]) + LineDict(yaml[|yaml| - 1])
  }

  /**
   * The dictionary one line contributes: entry.split(':', maxsplit=1) with
   * both parts stripped, nothing for a line without ':'.
   */
  function LineDict(line: string): map<string, string>
  {
    match Find(line, ":")
    case None => map[]
    case Some(i) => map[Strip(line[..i]) := Strip(line[i + 1..])]
  }


  /** _get_meta_value(key, default) */
  function MetaValueOr(d: map<string, string>, key: string, default: string): (r: string)
    ensures key in d ==> r == d[key]
    ensures key !in d ==> r == default
  {
    if key in d then d[key] else default
  }

  /** Reading a longer list is reading the two parts, the later part winning. */
  lemma {:induction false} MetaDictOfAppend(a: seq<string>, b: seq<string>)
    ensures MetaDictOf(a + b) == MetaDictOf(a) + MetaDictOf(b)
    decreases |b|
  {
    if b == [] {
      assert a + b == a;
    } else {
      var b' := b[..|b| - 1];
      assert (a + b)[..|a + b| - 1] == a + b';
      assert (a + b)[|a + b| - 1] == b[|b| - 1];
      MetaDictOfAppend(a, b');
      MapUnionAssoc(MetaDictOf(a), MetaDictOf(b'), LineDict(b[|b| - 1]));
    }
  }

  /** The entry a line adds, as import_data's loop body computes it. */
  lemma UpdateIsUnion(d: map<string, string>, k: string, v: string)
    ensures d[k := v] == d + map[k := v]
  {
  }

  lemma UnionEmpty(d: map<string, string>)
    ensures d + map[] == d
  {
  }

  /** Reading one more line adds that line's entry. */
  lemma MetaDictOfSnoc(yaml: seq<string>, i: nat)
    requires i < |yaml|
    ensures MetaDictOf(yaml[..i + 1]) == MetaDictOf(yaml[..i]) + LineDict(yaml[i])
  {
    assert yaml[..i + 1][..i] == yaml[..i];
  }


  lemma MetaDictOfOne(line: string)
    ensures MetaDictOf([line]) == LineDict(line)
  {
    assert [line][..0] == [];
    assert map[] + LineDict(line) == LineDict(line);
  }

  /** A metadata key: not empty, no ':' and no surrounding space. */
  predicate KeyOk(k: string)
  {
    k != [] && NoOuterSpace(k) && forall i :: 0 <= i < |k| ==> k[i] != ':'
  }

  /** A stored text that reads back unchanged: None, or not empty and trimmed. */
  predicate TextOk(v: Option<string>)
  {
    v.None? || (v.value != [] && NoOuterSpace(v.value))
  }

  lemma {:induction false} FindColon(k: string, rest: string)
    requires forall i :: 0 <= i < |k| ==> k[i] != ':'
    ensures Find(k + ":" + rest, ":") == Some(|k|)
  {
    var s := k + ":" + rest;
    if k == [] {
      assert s[..1] == ":";
    } else {
      assert s[0] != ':';
      assert s[1..] == k[1..] + ":" + rest;
      FindColon(k[1..], rest);
    }
  }

  lemma StripSpaced(v: string)
    requires v != [] && NoOuterSpace(v)
    ensures Strip(" " + v) == v
  {
    var s := " " + v;
    assert !IsSpace(s[|s| - 1]);
    assert RStrip(s) == s;
    assert s[1..] == v;
    assert LStrip(s) == LStrip(v);
  }

  /** The line 'k: v' reads as the entry k -> v whenever v is not empty and trimmed; v may hold ':'. */
  lemma KeyLine(k: string, v: string)
    requires KeyOk(k) && v != [] && NoOuterSpace(v)
    ensures LineDict(k + ": " + v) == map[k := v]
  {
    var line := k + ": " + v;
    assert line == k + ":" + (" " + v);
    FindColon(k, " " + v);
    assert line[..|k|] == k;
    assert line[|k| + 1..] == " " + v;
    StripOfTrimmed(k);
    StripSpaced(v);
  }

  lemma TextLineDict(k: string, v: Option<string>)
    requires KeyOk(k) && TextOk(v)
    ensures MetaDictOf(TextLine(k, v)) == Entry(k, v)
  {
    if v.Some? {
      MetaDictOfOne(k + ": " + v.value);
      KeyLine(k, v.value);
    }
  }

  lemma FlagLineDict(k: string, v: Option<bool>)
    requires KeyOk(k)
    ensures MetaDictOf(FlagLine(k, v)) == FlagEntry(k, v)
  {
    if v == Some(true) {
      assert k + ": 1" == k + ": " + "1";
      MetaDictOfOne(k + ": 1");
      KeyLine(k, "1");
    }
  }

  /** A list joined by list_to_string is not empty and trimmed when its entries are. */
  lemma {:induction false} JoinTrimmed(elements: seq<string>)
    requires elements != [] && ListEncodable(elements)
    ensures ListToString(elements) != [] && NoOuterSpace(ListToString(elements))
    ensures ListToString(elements)[0] == elements[0][0]
    ensures ListToString(elements)[|ListToString(elements)| - 1]
         == elements[|elements| - 1][|elements[|elements| - 1]| - 1]
    decreases |elements|
  {
    if |elements| > 1 {
      var rest := elements[1..];
      assert ListEncodable(rest) by {
        forall i | 0 <= i < |rest| ensures rest[i] == elements[i + 1] {}
        forall i, j | 0 <= i < j < |rest| ensures rest[i] != rest[j] {
          assert rest[i] == elements[i + 1] && rest[j] == elements[j + 1];
        }
      }
      JoinTrimmed(rest);
      assert ListToString(elements) == elements[0] + LIST_DIVIDER + ListToString(rest);
      assert rest[|rest| - 1] == elements[|elements| - 1];
    }
  }

  lemma ListLineDict(k: string, v: Option<seq<string>>)
    requires KeyOk(k) && v.Some? && ListEncodable(v.value)
    ensures MetaDictOf(ListLine(k, v)) == ListEntry(k, v)
  {
    if v.value != [] {
      JoinTrimmed(v.value);
      MetaDictOfOne(k + ": " + ListToString(v.value));
      KeyLine(k, ListToString(v.value));
    }
  }

  lemma QuotedLineDict(k: string, v: Option<string>)
    requires KeyOk(k)
    ensures MetaDictOf(QuotedLine(k, v)) == QuotedEntry(k, v)
  {
    if Truthy(v) {
      var q := "\"" + v.value + "\"";
      assert NoOuterSpace(q) by {
        assert q[0] == '"' && q[|q| - 1] == '"';
      }
      assert k + ": \"" + v.value + "\"" == k + ": " + q;
      MetaDictOfOne(k + ": " + q);
      KeyLine(k, q);
    }
  }

  lemma CountLineDict(k: string, v: Option<int>)
    requires KeyOk(k)
    ensures MetaDictOf(CountLine(k, v)) == CountEntry(k, v)
  {
    if v.Some? && v.value != 0 {
      var s := IntToString(v.value);
      assert s != [] && NoOuterSpace(s) by {
        if v.value < 0 {
          assert s[0] == '-';
          assert IsDigit(NatToString(-v.value)[|NatToString(-v.value)| - 1]);
          assert s[|s| - 1] == NatToString(-v.value)[|NatToString(-v.value)| - 1];
        } else {
          assert IsDigit(s[0]) && IsDigit(s[|s| - 1]);
        }
      }
      MetaDictOfOne(k + ": " + s);
      KeyLine(k, s);
    }
  }

  // ----- the entries each kind of line contributes -----

  /** A text line, when the text is set. */
  function Entry(k: string, v: Option<string>): (m: map<string, string>)
    ensures m.Keys <= {k}
  {
    if v.Some? then map[k := v.value] else map[]
  }

  /** A flag line, when the flag is True. */
  function FlagEntry(k: string, v: Option<bool>): (m: map<string, string>)
    ensures m.Keys <= {k}
  {
    if v == Some(true) then map[k := "1"] else map[]
  }

  /** A list line, when the list is set and not empty. */
  function ListEntry(k: string, v: Option<seq<string>>): (m: map<string, string>)
    ensures m.Keys <= {k}
  {
    if NonEmpty(v) then map[k := ListToString(v.value)] else map[]
  }

  /** A quoted line, when the text is set and not empty. */
  function QuotedEntry(k: string, v: Option<string>): (m: map<string, string>)
    ensures m.Keys <= {k}
  {
    if Truthy(v) then map[k := "\"" + v.value + "\""] else map[]
  }

  /** A count line, when the count is set and not 0. */
  function CountEntry(k: string, v: Option<int>): (m: map<string, string>)
    ensures m.Keys <= {k}
  {
    if v.Some? && v.value != 0 then map[k := IntToString(v.value)] else map[]
  }

  /** A duration line, when the duration is set, not empty and not '0'. */
  function DurationEntry(k: string, v: Option<string>): (m: map<string, string>)
    ensures m.Keys <= {k}
  {
    if Truthy(v) && v.value != "0" then map[k := v.value] else map[]
  }

  /** A number line written under a condition. */
  function NumberEntry(k: string, write: bool, n: int): (m: map<string, string>)
    ensures m.Keys <= {k}
  {
    if write then map[k := IntToString(n)] else map[]
  }


  // ----- values that read back unchanged -----

  predicate DateOk(v: Option<string>) { v.None? || IsIsoDate(v.value) }
  predicate TimeOk(v: Option<string>) { v.None? || IsIsoTime(v.value) }
  /** A string int() accepts, without the outer whitespace a read would strip. */
  predicate IntStrOk(v: Option<string>) { v.None? || (ParseInt(v.value).Some? && NoOuterSpace(v.value)) }
  /** A duration: a string int() accepts, without outer whitespace, but not '0', which is not written. */
  predicate DurationOk(v: Option<string>) { v.None? || (ParseInt(v.value).Some? && NoOuterSpace(v.value) && v.value != "0") }
  /** A list that is set and that list_to_string/string_to_list carry unchanged. */
  predicate ListOk(v: Option<seq<string>>) { v.Some? && ListEncodable(v.value) }

  lemma IsoDateTrimmed(s: string)
    requires IsIsoDate(s)
    ensures s != [] && NoOuterSpace(s)
  {
    var d := ParseIsoDate(s).value;
  }

  lemma IsoTimeTrimmed(s: string)
    requires IsIsoTime(s)
    ensures s != [] && NoOuterSpace(s)
  {
    IsoTimeEnds(s);
    DigitNotSpace(s[0]);
    DigitNotSpace(s[|s| - 1]);
  }

  lemma ParseIntTrimmed(s: string)
    requires ParseInt(s).Some? && NoOuterSpace(s)
    ensures s != []
  {
    StripOfTrimmed(s);
  }

  lemma DateTextOk(v: Option<string>)
    requires DateOk(v)
    ensures TextOk(v)
  {
    if v.Some? { IsoDateTrimmed(v.value); }
  }

  lemma TimeTextOk(v: Option<string>)
    requires TimeOk(v)
    ensures TextOk(v)
  {
    if v.Some? { IsoTimeTrimmed(v.value); }
  }

  lemma IntStrTextOk(v: Option<string>)
    requires IntStrOk(v)
    ensures TextOk(v)
  {
    if v.Some? { ParseIntTrimmed(v.value); }
  }

  lemma DurationLineDict(k: string, v: Option<string>)
    requires KeyOk(k) && DurationOk(v)
    ensures MetaDictOf(DurationLine(k, v)) == DurationEntry(k, v)
  {
    if Truthy(v) && v.value != "0" {
      ParseIntTrimmed(v.value);
      MetaDictOfOne(k + ": " + v.value);
      KeyLine(k, v.value);
    }
  }

  lemma NumberLineDict(k: string, write: bool, n: int)
    requires KeyOk(k)
    ensures MetaDictOf(NumberLine(k, write, n)) == NumberEntry(k, write, n)
  {
    if write {
      var s := IntToString(n);
      IntToStringTrimmed(n);
      MetaDictOfOne(k + ": " + s);
      KeyLine(k, s);
    }
  }

  // ----- reading the entries back -----

  /** A flag reads back as written. */
  lemma EntryReads(d: map<string, string>, k: string, v: Option<string>)
    requires MetaValue(d, k) == MetaValue(Entry(k, v), k)
    ensures MetaValue(d, k) == v
  {
  }

  lemma FlagEntryReads(d: map<string, string>, k: string, v: Option<bool>)
    requires v.Some? && MetaValue(d, k) == MetaValue(FlagEntry(k, v), k)
    ensures Some(MetaValue(d, k) == Some("1")) == v
  {
    if v.value {}
  }

  /** A duration reads back as written: a missing line is no duration. */
  lemma DurationEntryReads(d: map<string, string>, k: string, v: Option<string>)
    requires DurationOk(v) && MetaValue(d, k) == MetaValue(DurationEntry(k, v), k)
    ensures VerifiedIntString(MetaValue(d, k)) == v
  {
  }

  /** A list reads back as written. */
  lemma ListEntryReads(d: map<string, string>, k: string, v: Option<seq<string>>)
    requires ListOk(v) && MetaValue(d, k) == MetaValue(ListEntry(k, v), k)
    ensures StringToList(MetaValue(d, k)) == v.value
  {
    StringToListInvertsListToString(v.value);
  }










}
