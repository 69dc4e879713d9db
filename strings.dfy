/** Python string operations the source relies on, stated on seq<char>. */
module Strings {
  import opened Wrappers

  /** The characters Python's str.isspace() accepts. */
  predicate IsSpace(c: char)
  {
    c == ' ' || c == '\t' || c == '\n' || c == '\r' || c == '\U{000B}' || c == '\U{000C}'
    || ('\U{001C}' <= c <= '\U{001F}') || c == '\U{0085}' || c == '\U{00A0}' || c == '\U{1680}'
    || ('\U{2000}' <= c <= '\U{200A}') || c == '\U{2028}' || c == '\U{2029}' || c == '\U{202F}'
    || c == '\U{205F}' || c == '\U{3000}'
  }

  /** Python truthiness of an optional string: set and not empty. */
  predicate Truthy(s: Option<string>)
  {
    s.Some? && s.value != []
  }

  /** Python truthiness of an optional list: set and not empty. */
  predicate NonEmpty<T>(l: Option<seq<T>>)
  {
    l.Some? && l.value != []
  }

  predicate NoOuterSpace(s: string)
  {
    s == [] || (!IsSpace(s[0]) && !IsSpace(s[|s| - 1]))
  }

  /** str.lstrip() */
  function LStrip(s: string): (r: string)
    ensures |r| <= |s| && r == s[|s| - |r|..]
    ensures r == [] || !IsSpace(r[0])
  {
    if s != [] && IsSpace(s[0]) then LStrip(s[1..]) else s
  }

  /** str.rstrip() */
  function RStrip(s: string): (r: string)
    ensures |r| <= |s| && r == s[..|r|]
    ensures r == [] || !IsSpace(r[|r| - 1])
  {
    if s != [] && IsSpace(s[|s| - 1]) then RStrip(s[..|s| - 1]) else s
  }

  /** str.strip() */
  function Strip(s: string): (r: string)
    ensures NoOuterSpace(r)
    ensures |r| <= |s|
  {
    LStrip(RStrip(s))
  }

  lemma StripOfTrimmed(s: string)
    requires NoOuterSpace(s)
    ensures Strip(s) == s
  {
  }

  predicate StartsWith(s: string, p: string)
  {
    |p| <= |s| && s[..|p|] == p
  }

  predicate EndsWith(s: string, p: string)
  {
    |p| <= |s| && s[|s| - |p|..] == p
  }

  /** p in s */
  predicate Contains(s: string, p: string)
    decreases |s|
  {
    StartsWith(s, p) || (s != [] && Contains(s[1..], p))
  }

  /** str.find: the first index at which p occurs in s. */
  function Find(s: string, p: string): (r: Option<nat>)
    ensures r.Some? ==> r.value + |p| <= |s| && s[r.value..r.value + |p|] == p
    ensures r.Some? <==> Contains(s, p)
    decreases |s|
  {
    if StartsWith(s, p) then Some(0)
    else if s == [] then None
    else match Find(s[1..], p)
      case None => None
      case Some(i) => Some(i + 1)
  }

  /** p occurring at j means p in s. */
  lemma {:induction false} ContainsAt(s: string, p: string, j: nat)
    requires j <= |s| && StartsWith(s[j..], p)
    ensures Contains(s, p)
  {
    if j > 0 {
      assert s[1..][j - 1..] == s[j..];
      ContainsAt(s[1..], p, j - 1);
    }
  }

  /** No occurrence of p starts before the index Find reports. */
  lemma {:induction false} FindFirst(s: string, p: string, j: nat)
    requires Find(s, p).Some? && j < Find(s, p).value
    ensures !StartsWith(s[j..], p)
  {
    if j > 0 {
      assert s[1..][j - 1..] == s[j..];
      FindFirst(s[1..], p, j - 1);
    }
  }

  /** str.replace(old, new): leftmost, non-overlapping occurrences. */
  function Replace(s: string, pat: string, rep: string): (r: string)
    requires pat != []
    decreases |s|
  {
    if StartsWith(s, pat) then rep + Replace(s[|pat|..], pat, rep)
    else if s == [] then []
    else [s[0]] + Replace(s[1..], pat, rep)
  }

  /** str.split(sep) */
  function Split(s: string, sep: string): (r: seq<string>)
    requires sep != []
    ensures |r| >= 1
    decreases |s|
  {
    match Find(s, sep)
    case None => [s]
    case Some(i) => [s[..i]] + Split(s[i + |sep|..], sep)
  }

  /** Splitting at a character leaves no part containing it. */
  lemma {:induction false} SplitPartsFree(s: string, c: char)
    ensures forall k :: 0 <= k < |Split(s, [c])| ==> c !in Split(s, [c])[k]
    decreases |s|
  {
    var parts := Split(s, [c]);
    match Find(s, [c])
    case None =>
      assert parts == [s];
      if c in s {
        var j :| 0 <= j < |s| && s[j] == c;
        assert s[j..][..1] == [c];
        ContainsAt(s, [c], j);
      }
    case Some(i) =>
      var rest := Split(s[i + 1..], [c]);
      assert parts == [s[..i]] + rest;
      SplitPartsFree(s[i + 1..], c);
      if c in s[..i] {
        var j :| 0 <= j < i && s[..i][j] == c;
        assert s[j..][..1] == [c];
        FindFirst(s, [c], j);
      }
      forall k | 0 <= k < |parts|
        ensures c !in parts[k]
      {
        if k > 0 {
          assert parts[k] == rest[k - 1];
        }
      }
  }

  /** sep.join(parts) */
  function Join(sep: string, parts: seq<string>): string
  {
    if parts == [] then []
    else if |parts| == 1 then parts[0]
    else parts[0] + sep + Join(sep, parts[1..])
  }

  /** The number of items str.split() returns: maximal runs of non-space characters. */
  function CountWords(s: string): nat
  {
    if s == [] then 0
    else if IsSpace(s[0]) then CountWords(s[1..])
    else 1 + CountWords(SkipWord(s[1..]))
  }

  /** Drops the non-space characters at the front of s. */
  function SkipWord(s: string): (r: string)
    ensures |r| <= |s| && r == s[|s| - |r|..]
  {
    if s == [] || IsSpace(s[0]) then s else SkipWord(s[1..])
  }

  function DigitChar(d: nat): char
    requires d < 10
  {
    "0123456789"[d]
  }

  predicate IsDigit(c: char) { '0' <= c <= '9' }

  predicate AllDigits(s: string)
  {
    forall i :: 0 <= i < |s| ==> IsDigit(s[i])
  }

  /** str(n) for a natural number */
  function NatToString(n: nat): (r: string)
    ensures r != [] && AllDigits(r)
  {
    if n < 10 then [DigitChar(n)] else NatToString(n / 10) + [DigitChar(n % 10)]
  }

  /** str(n) */
  function IntToString(n: int): string
  {
    if n < 0 then "-" + NatToString(-n) else NatToString(n)
  }

  function DigitsValue(s: string): nat
    requires AllDigits(s)
  {
    if s == [] then 0 else 10 * DigitsValue(s[..|s| - 1]) + (s[|s| - 1] as int - '0' as int)
  }

  /** The digits int() reads after the sign: ASCII digits, grouped by single underscores. */
  predicate DigitGroups(s: string)
  {
    s != [] && IsDigit(s[0]) && IsDigit(s[|s| - 1])
    && (forall i :: 0 <= i < |s| ==> IsDigit(s[i]) || s[i] == '_')
    && (forall i :: 0 <= i < |s| - 1 && s[i] == '_' ==> IsDigit(s[i + 1]))
  }

  /** s without its underscores. */
  function DropUnderscores(s: string): (r: string)
    ensures |r| <= |s|
    ensures (forall i :: 0 <= i < |s| ==> IsDigit(s[i]) || s[i] == '_') ==> AllDigits(r)
    ensures AllDigits(s) ==> r == s
  {
    if s == [] then []
    else if s[0] == '_' then DropUnderscores(s[1..])
    else [s[0]] + DropUnderscores(s[1..])
  }

  /**
   * int(s) for a str: whitespace around the number is ignored, then an
   * optional sign and decimal digits that single underscores may group.
   * None stands for the ValueError Python raises otherwise.
   */
  function ParseInt(s: string): (r: Option<int>)
    ensures r.Some? ==> Strip(s) != []
  {
    ParseStripped(Strip(s))
  }

  /** int() on text with no surrounding whitespace: an optional sign, then digits grouped by single underscores. */
  function ParseStripped(t: string): (r: Option<int>)
    ensures r.Some? ==> t != [] && (IsDigit(t[0]) || t[0] == '-' || t[0] == '+')
  {
    if t != [] && (t[0] == '-' || t[0] == '+') then
      if DigitGroups(t[1..]) then
        var v: int := DigitsValue(DropUnderscores(t[1..]));
        Some(if t[0] == '-' then -v else v)
      else None
    else if DigitGroups(t) then Some(DigitsValue(DropUnderscores(t)))
    else None
  }

  lemma DigitCharValue(d: nat)
    requires d < 10
    ensures IsDigit(DigitChar(d)) && DigitChar(d) as int - '0' as int == d
  {
    assert "0123456789"[d] == ('0' as int + d) as char by {
      if d == 0 {} else if d == 1 {} else if d == 2 {} else if d == 3 {} else if d == 4 {}
      else if d == 5 {} else if d == 6 {} else if d == 7 {} else if d == 8 {} else {}
    }
  }

  /** int(str(n)) == n for natural numbers */
  lemma {:induction false} NatToStringValue(n: nat)
    ensures DigitsValue(NatToString(n)) == n
  {
    var s := NatToString(n);
    if n < 10 {
      DigitCharValue(n);
      assert s[..|s| - 1] == [];
    } else {
      NatToStringValue(n / 10);
      DigitCharValue(n % 10);
      assert s[..|s| - 1] == NatToString(n / 10);
    }
  }

  /** A digit is not whitespace. */
  lemma DigitNotSpace(c: char)
    requires IsDigit(c)
    ensures !IsSpace(c)
  {
  }

  /** int() reads grouped digits as their value. */
  lemma ParseIntOfGroups(t: string)
    requires DigitGroups(t)
    ensures ParseInt(t) == Some(DigitsValue(DropUnderscores(t)))
  {
    DigitNotSpace(t[0]);
    DigitNotSpace(t[|t| - 1]);
    StripOfTrimmed(t);
    assert t[0] != '-' && t[0] != '+';
  }

  /** int() reads grouped digits after a minus sign as their value negated. */
  lemma ParseIntOfNegGroups(t: string)
    requires DigitGroups(t)
    ensures ParseInt("-" + t) == Some(-(DigitsValue(DropUnderscores(t)) as int))
  {
    var m := "-" + t;
    DigitNotSpace(t[|t| - 1]);
    assert m[0] == '-' && m[1..] == t && m[|m| - 1] == t[|t| - 1];
    assert !IsSpace('-');
    StripOfTrimmed(m);
  }

  /** Digits without underscores are grouped digits. */
  lemma DigitsAreGroups(t: string)
    requires t != [] && AllDigits(t)
    ensures DigitGroups(t) && DropUnderscores(t) == t
  {
  }

  /** int(str(n)) == n */
  lemma ParseIntOfIntToString(n: int)
    ensures ParseInt(IntToString(n)) == Some(n)
  {
    var t := NatToString(if n < 0 then -n else n);
    NatToStringValue(if n < 0 then -n else n);
    DigitsAreGroups(t);
    if n < 0 {
      ParseIntOfNegGroups(t);
    } else {
      ParseIntOfGroups(t);
    }
  }

  /** int() reads a single digit as its value. */
  lemma ParseIntOfDigit(d: nat)
    requires d < 10
    ensures ParseInt([DigitChar(d)]) == Some(d)
  {
    DigitCharValue(d);
    DigitsAreGroups([DigitChar(d)]);
    ParseIntOfGroups([DigitChar(d)]);
  }

  /** int('1') and int('0'): the parts of the version string "1.0". */
  lemma VersionNumbersRead()
    ensures ParseInt("1") == Some(1) && ParseInt("0") == Some(0)
  {
    ParseIntOfDigit(1);
    assert [DigitChar(1)] == "1";
    ParseIntOfDigit(0);
    assert [DigitChar(0)] == "0";
  }

  /** str(n) is not empty and has no outer whitespace. */
  lemma IntToStringTrimmed(n: int)
    ensures IntToString(n) != [] && NoOuterSpace(IntToString(n))
  {
    var t := NatToString(if n < 0 then -n else n);
    DigitNotSpace(t[0]);
    DigitNotSpace(t[|t| - 1]);
    assert !IsSpace('-');
  }

  /** Stripping is idempotent. */
  lemma StripStrip(s: string)
    ensures Strip(Strip(s)) == Strip(s)
  {
    StripOfTrimmed(Strip(s));
  }

  /** int() ignores the whitespace around the number. */
  lemma ParseIntOfStrip(s: string)
    ensures ParseInt(Strip(s)) == ParseInt(s)
  {
    StripStrip(s);
  }

  lemma {:induction false} DropUnderscoresAppend(a: string, b: string)
    ensures DropUnderscores(a + b) == DropUnderscores(a) + DropUnderscores(b)
  {
    if a != [] {
      assert (a + b)[1..] == a[1..] + b;
      DropUnderscoresAppend(a[1..], b);
    } else {
      assert a + b == b;
    }
  }

  /** Two runs of digits joined by an underscore are grouped digits. */
  lemma JoinedGroups(a: string, b: string)
    requires a != [] && b != [] && AllDigits(a) && AllDigits(b)
    ensures DigitGroups(a + "_" + b)
  {
    var u := a + "_" + b;
    assert u[0] == a[0] && u[|u| - 1] == b[|b| - 1];
    forall i | 0 <= i < |u| && i != |a| ensures IsDigit(u[i]) {
      if i < |a| { assert u[i] == a[i]; } else { assert u[i] == b[i - |a| - 1]; }
    }
    assert u[|a|] == '_' && u[|a| + 1] == b[0];
  }

  /** Dropping the underscore between two runs of digits joins them. */
  lemma DropJoined(a: string, b: string)
    requires AllDigits(a) && AllDigits(b)
    ensures DropUnderscores(a + "_" + b) == a + b
  {
    var u: string := "_";
    assert DropUnderscores(u) == DropUnderscores(u[1..]) == [];
    DropUnderscoresAppend(a, u);
    assert DropUnderscores(a + u) == a;
    DropUnderscoresAppend(a + u, b);
  }

  lemma AllDigitsAppend(a: string, b: string)
    requires AllDigits(a) && AllDigits(b)
    ensures AllDigits(a + b)
  {
    var v := a + b;
    forall i | 0 <= i < |v| ensures IsDigit(v[i]) {
      if i < |a| { assert v[i] == a[i]; } else { assert v[i] == b[i - |a|]; }
    }
  }

  /** An underscore between two runs of digits does not change the number int() reads. */
  lemma UnderscoreBetweenDigits(a: string, b: string)
    requires a != [] && b != [] && AllDigits(a) && AllDigits(b)
    ensures ParseInt(a + "_" + b) == ParseInt(a + b) == Some(DigitsValue(a + b))
  {
    AllDigitsAppend(a, b);
    JoinedGroups(a, b);
    DropJoined(a, b);
    ParseIntOfGroups(a + "_" + b);
    DigitsAreGroups(a + b);
    ParseIntOfGroups(a + b);
  }
}
