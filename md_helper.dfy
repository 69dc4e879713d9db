/**
 * md_helper.py: sanitize_markdown, which makes a text safe to embed in an
 * .mdnov block. Lines starting with '---' would close the YAML part and
 * '@@' or '%%' would open a new block or field, so they are masked with
 * '?'; runs of newlines become exactly one blank line; the outer
 * whitespace goes.
 */
module MdHelpers {
  import opened Strings

  // ----- facts about str.replace and 'in' -----

  /** Replacing a pattern the text does not hold changes nothing. */
  lemma {:induction false} ReplaceAbsent(s: string, pat: string, rep: string)
    requires pat != [] && !Contains(s, pat)
    ensures Replace(s, pat, rep) == s
    decreases |s|
  {
    if s != [] {
      ReplaceAbsent(s[1..], pat, rep);
    }
  }

  /** A text holds what any of its suffixes holds. */
  lemma {:induction false} ContainsSuffix(s: string, i: nat, q: string)
    requires i <= |s| && Contains(s[i..], q)
    ensures Contains(s, q)
    decreases i
  {
    if i > 0 {
      assert s[1..][i - 1..] == s[i..];
      ContainsSuffix(s[1..], i - 1, q);
    }
  }

  /** A text holds what any of its prefixes holds. */
  lemma {:induction false} ContainsPrefix(s: string, j: nat, q: string)
    requires j <= |s| && Contains(s[..j], q)
    ensures Contains(s, q)
    decreases j
  {
    if !StartsWith(s[..j], q) {
      assert s[..j] != [] && Contains(s[..j][1..], q);
      assert s[..j][1..] == s[1..][..j - 1];
      ContainsPrefix(s[1..], j - 1, q);
    } else {
      assert s[..|q|] == s[..j][..|q|];
    }
  }

  /** A text starting with the pattern is replaced from its first character on. */
  lemma ReplaceAtFront(t: string, pat: string, rep: string)
    requires pat != [] && rep != [] && StartsWith(t, pat)
    ensures Replace(t, pat, rep) != [] && Replace(t, pat, rep)[0] == rep[0]
  {
  }

  /** A stretch of the result before any inserted replacement is the text's own. */
  lemma {:induction false} PrefixBack(t: string, pat: string, rep: string, k: nat)
    requires pat != [] && rep != []
    requires k <= |Replace(t, pat, rep)|
    requires forall i :: 0 <= i < k ==> Replace(t, pat, rep)[i] != rep[0]
    ensures k <= |t| && t[..k] == Replace(t, pat, rep)[..k]
    decreases |t|
  {
    if k > 0 && StartsWith(t, pat) {
      ReplaceAtFront(t, pat, rep);
      assert false;
    } else if k > 0 {
      var r := Replace(t, pat, rep);
      assert t != [] && r == [t[0]] + Replace(t[1..], pat, rep);
      forall i | 0 <= i < k - 1
        ensures Replace(t[1..], pat, rep)[i] != rep[0]
      {
        assert Replace(t[1..], pat, rep)[i] == r[i + 1];
      }
      PrefixBack(t[1..], pat, rep, k - 1);
    }
  }

  /** A text starting with c + q' has a tail starting with q'. */
  lemma StartsWithTail(c: char, h: string, q: string)
    requires q != [] && StartsWith([c] + h, q)
    ensures c == q[0] && StartsWith(h, q[1..])
  {
    assert ([c] + h)[..|q|] == q;
    assert ([c] + h)[..|q|][1..] == h[..|q| - 1];
  }

  /** What a text holds, with a prefix none of whose characters starts q, its rest holds. */
  lemma {:induction false} SkipPrefix(a: string, b: string, q: string)
    requires q != [] && q[0] !in a && Contains(a + b, q)
    ensures Contains(b, q)
    decreases |a|
  {
    if a == [] {
      assert a + b == b;
    } else {
      assert !StartsWith(a + b, q) by {
        assert (a + b)[0] == a[0];
      }
      assert (a + b)[1..] == a[1..] + b;
      SkipPrefix(a[1..], b, q);
    }
  }

  /**
   * A replacement whose text shares no character with q creates no q: the
   * result holds q only when the text did, and never holds the pattern
   * itself.
   */
  lemma {:induction false} NoNew(s: string, pat: string, rep: string, q: string)
    requires pat != [] && rep != [] && q != []
    requires forall c :: c in rep ==> c !in q
    requires q == pat || !Contains(s, q)
    ensures !Contains(Replace(s, pat, rep), q)
    decreases |s|
  {
    if s == [] {
    } else if StartsWith(s, pat) {
      if q != pat && Contains(s[|pat|..], q) {
        ContainsSuffix(s, |pat|, q);
      }
      NoNew(s[|pat|..], pat, rep, q);
      if Contains(rep + Replace(s[|pat|..], pat, rep), q) {
        SkipPrefix(rep, Replace(s[|pat|..], pat, rep), q);
      }
    } else {
      NoNew(s[1..], pat, rep, q);
      var r := Replace(s[1..], pat, rep);
      assert Replace(s, pat, rep) == [s[0]] + r;
      if StartsWith([s[0]] + r, q) {
        var k := |q| - 1;
        forall i | 0 <= i < k
          ensures r[i] != rep[0]
        {
          assert ([s[0]] + r)[..|q|] == q;
          assert ([s[0]] + r)[i + 1] == r[i];
          assert q[i + 1] in q && rep[0] in rep;
        }
        PrefixBack(s[1..], pat, rep, k);
      }
      assert ([s[0]] + r)[1..] == r;
    }
  }

  // ----- the loops of sanitize_markdown -----

  /** The number of '-' in a text. */
  function Dashes(s: string): nat
  {
    multiset(s)['-']
  }

  lemma DashesConcat(a: string, b: string)
    ensures Dashes(a + b) == Dashes(a) + Dashes(b)
  {
    assert multiset(a + b) == multiset(a) + multiset(b);
  }

  /** Masking a rule at the front trades its three dashes for none. */
  lemma MaskAtRule(s: string)
    requires StartsWith(s, "\n---")
    ensures Replace(s, "\n---", "\n???") == "\n???" + Replace(s[4..], "\n---", "\n???")
    ensures Dashes(s) == 3 + Dashes(s[4..])
    ensures Dashes(Replace(s, "\n---", "\n???")) == Dashes(Replace(s[4..], "\n---", "\n???"))
  {
    assert s == "\n---" + s[4..];
    DashesConcat("\n---", s[4..]);
    DashesConcat("\n???", Replace(s[4..], "\n---", "\n???"));
    assert Dashes("\n---") == 3 && Dashes("\n???") == 0;
  }

  /** Masking passes a first character that starts no rule through. */
  lemma MaskElsewhere(s: string)
    requires s != [] && !StartsWith(s, "\n---")
    ensures Dashes(s) == Dashes([s[0]]) + Dashes(s[1..])
    ensures Dashes(Replace(s, "\n---", "\n???")) == Dashes([s[0]]) + Dashes(Replace(s[1..], "\n---", "\n???"))
  {
    assert s == [s[0]] + s[1..];
    DashesConcat([s[0]], s[1..]);
    DashesConcat([s[0]], Replace(s[1..], "\n---", "\n???"));
  }

  /** Masking '\n---' as '\n???' removes dashes whenever there is one to mask. */
  lemma {:induction false} MaskingRemovesDashes(s: string)
    ensures Dashes(Replace(s, "\n---", "\n???")) <= Dashes(s)
    ensures Contains(s, "\n---") ==> Dashes(Replace(s, "\n---", "\n???")) < Dashes(s)
    decreases |s|
  {
    if s == [] {
    } else if StartsWith(s, "\n---") {
      MaskingRemovesDashes(s[4..]);
      MaskAtRule(s);
    } else {
      MaskingRemovesDashes(s[1..]);
      MaskElsewhere(s);
    }
  }

  /** Collapsing '\n\n' to '\n' shortens the text whenever there is one to collapse. */
  lemma {:induction false} CollapsingShortens(s: string)
    ensures |Replace(s, "\n\n", "\n")| <= |s|
    ensures Contains(s, "\n\n") ==> |Replace(s, "\n\n", "\n")| < |s|
    decreases |s|
  {
    if s != [] {
      if StartsWith(s, "\n\n") {
        CollapsingShortens(s[2..]);
      } else {
        CollapsingShortens(s[1..]);
      }
    }
  }

  /** The first loop: '\n---' masked until none is left. */
  function Unruled(s: string): (r: string)
    ensures !Contains(r, "\n---")
    decreases Dashes(s)
  {
    if Contains(s, "\n---") then
      MaskingRemovesDashes(s);
      Unruled(Replace(s, "\n---", "\n???"))
    else s
  }

  /** The second loop: '\n\n' collapsed until none is left. */
  function Collapsed(s: string): (r: string)
    ensures !Contains(r, "\n\n")
    decreases |s|
  {
    if Contains(s, "\n\n") then
      CollapsingShortens(s);
      Collapsed(Replace(s, "\n\n", "\n"))
    else s
  }

  /** sanitize_markdown. */
  function Sanitized(text: string): string
  {
    var masked := Replace(Replace(Unruled(text), "@@", "??"), "%%", "??");
    Strip(Replace(Collapsed(masked), "\n", "\n\n"))
  }

  /** sanitize_markdown, with its two loops. */
  method SanitizeMarkdown(text0: string) returns (text: string)
    ensures text == Sanitized(text0)
  {
    text := text0;
    while Contains(text, "\n---")
      invariant Unruled(text) == Unruled(text0)
      decreases Dashes(text)
    {
      MaskingRemovesDashes(text);
      text := Replace(text, "\n---", "\n???");
    }
    text := Replace(text, "@@", "??");
    text := Replace(text, "%%", "??");
    ghost var masked := text;
    while Contains(text, "\n\n")
      invariant Collapsed(text) == Collapsed(masked)
      decreases |text|
    {
      CollapsingShortens(text);
      text := Replace(text, "\n\n", "\n");
    }
    text := Strip(Replace(text, "\n", "\n\n"));
  }

  // ----- no rule, no block or field marker -----

  /** Collapsing newlines creates no '\n---'. */
  lemma {:induction false} CollapseKeepsRuleFree(s: string)
    requires Contains(Replace(s, "\n\n", "\n"), "\n---")
    ensures Contains(s, "\n---")
    decreases |s|
  {
    var q := "\n---";
    if s == [] {
    } else if StartsWith(s, "\n\n") {
      var h := Replace(s[2..], "\n\n", "\n");
      assert Replace(s, "\n\n", "\n") == "\n" + h;
      if StartsWith("\n" + h, q) {
        StartsWithTail('\n', h, q);
        PrefixBack(s[2..], "\n\n", "\n", 3);
        assert s[1..][..4] == q;
        ContainsSuffix(s, 1, q);
      } else {
        assert ("\n" + h)[1..] == h;
        CollapseKeepsRuleFree(s[2..]);
        ContainsSuffix(s, 2, q);
      }
    } else {
      var h := Replace(s[1..], "\n\n", "\n");
      assert Replace(s, "\n\n", "\n") == [s[0]] + h;
      if StartsWith([s[0]] + h, q) {
        StartsWithTail(s[0], h, q);
        PrefixBack(s[1..], "\n\n", "\n", 3);
        assert s[..4] == q;
      } else {
        assert ([s[0]] + h)[1..] == h;
        CollapseKeepsRuleFree(s[1..]);
        ContainsSuffix(s, 1, q);
      }
    }
  }

  lemma {:induction false} CollapsedKeepsRuleFree(s: string)
    requires !Contains(s, "\n---")
    ensures !Contains(Collapsed(s), "\n---")
    decreases |s|
  {
    if Contains(s, "\n\n") {
      CollapsingShortens(s);
      if Contains(Replace(s, "\n\n", "\n"), "\n---") {
        CollapseKeepsRuleFree(s);
      }
      CollapsedKeepsRuleFree(Replace(s, "\n\n", "\n"));
    }
  }

  /** Collapsing newlines creates none of the markers q, which hold no newline. */
  lemma {:induction false} CollapsedKeepsAbsent(s: string, q: string)
    requires q != [] && '\n' !in q && !Contains(s, q)
    ensures !Contains(Collapsed(s), q)
    decreases |s|
  {
    if Contains(s, "\n\n") {
      CollapsingShortens(s);
      NoNew(s, "\n\n", "\n", q);
      CollapsedKeepsAbsent(Replace(s, "\n\n", "\n"), q);
    }
  }

  /** Doubling newlines creates no '\n---'. */
  lemma {:induction false} DoubleKeepsRuleFree(s: string)
    requires Contains(Replace(s, "\n", "\n\n"), "\n---")
    ensures Contains(s, "\n---")
    decreases |s|
  {
    var q := "\n---";
    if s == [] {
    } else if StartsWith(s, "\n") {
      var d := Replace(s[1..], "\n", "\n\n");
      var r := "\n\n" + d;
      assert Replace(s, "\n", "\n\n") == r;
      assert !StartsWith(r, q) by { assert r[1] == '\n'; }
      assert r[1..] == "\n" + d;
      if StartsWith("\n" + d, q) {
        StartsWithTail('\n', d, q);
        PrefixBack(s[1..], "\n", "\n\n", 3);
        assert s[..4] == q;
      } else {
        assert ("\n" + d)[1..] == d;
        DoubleKeepsRuleFree(s[1..]);
        ContainsSuffix(s, 1, q);
      }
    } else {
      var d := Replace(s[1..], "\n", "\n\n");
      assert Replace(s, "\n", "\n\n") == [s[0]] + d;
      assert s[..1] == [s[0]];
      assert ([s[0]] + d)[0] == s[0] != '\n';
      assert !StartsWith([s[0]] + d, q);
      assert ([s[0]] + d)[1..] == d;
      DoubleKeepsRuleFree(s[1..]);
      ContainsSuffix(s, 1, q);
    }
  }

  /** Stripping keeps out what the text did not hold. */
  lemma StripKeepsAbsent(s: string, q: string)
    requires !Contains(s, q)
    ensures !Contains(Strip(s), q)
  {
    var r := RStrip(s);
    if Contains(r, q) {
      ContainsPrefix(s, |r|, q);
    }
    var l := LStrip(r);
    if Contains(l, q) {
      ContainsSuffix(r, |r| - |l|, q);
    }
  }

  /** The result holds no line starting with '---'. */
  lemma NoRule(text: string)
    ensures !Contains(Sanitized(text), "\n---")
  {
    var u := Unruled(text);
    NoNew(u, "@@", "??", "\n---");
    var a := Replace(u, "@@", "??");
    NoNew(a, "%%", "??", "\n---");
    var masked := Replace(a, "%%", "??");
    CollapsedKeepsRuleFree(masked);
    var c := Collapsed(masked);
    if Contains(Replace(c, "\n", "\n\n"), "\n---") {
      DoubleKeepsRuleFree(c);
    }
    StripKeepsAbsent(Replace(c, "\n", "\n\n"), "\n---");
  }

  /** The result holds no '@@' and no '%%'. */
  lemma NoMarkers(text: string)
    ensures !Contains(Sanitized(text), "@@") && !Contains(Sanitized(text), "%%")
  {
    var u := Unruled(text);
    NoNew(u, "@@", "??", "@@");
    var a := Replace(u, "@@", "??");
    NoNew(a, "%%", "??", "@@");
    NoNew(a, "%%", "??", "%%");
    var masked := Replace(a, "%%", "??");
    CollapsedKeepsAbsent(masked, "@@");
    CollapsedKeepsAbsent(masked, "%%");
    var c := Collapsed(masked);
    NoNew(c, "\n", "\n\n", "@@");
    NoNew(c, "\n", "\n\n", "%%");
    StripKeepsAbsent(Replace(c, "\n", "\n\n"), "@@");
    StripKeepsAbsent(Replace(c, "\n", "\n\n"), "%%");
  }

  // ----- newlines in pairs -----

  /** Every run of newlines in s has length exactly 2. */
  predicate Paired(s: string)
    decreases |s|
  {
    if s == [] then true
    else if s[0] != '\n' then Paired(s[1..])
    else |s| >= 2 && s[1] == '\n' && (|s| == 2 || s[2] != '\n') && Paired(s[2..])
  }

  /** A text that does not start with a newline keeps its first character through the replacements. */
  lemma FirstKept(t: string, pat: string, rep: string)
    requires pat != [] && pat[0] == '\n' && t != [] && t[0] != '\n'
    ensures Replace(t, pat, rep) == [t[0]] + Replace(t[1..], pat, rep)
  {
  }

  /** Doubling the newlines of a text without '\n\n' pairs them all. */
  lemma {:induction false} DoubledPaired(s: string)
    requires !Contains(s, "\n\n")
    ensures Paired(Replace(s, "\n", "\n\n"))
    decreases |s|
  {
    if s != [] {
      var d := Replace(s[1..], "\n", "\n\n");
      DoubledPaired(s[1..]);
      if s[0] == '\n' {
        assert StartsWith(s, "\n");
        var r := "\n\n" + d;
        assert Replace(s, "\n", "\n\n") == r;
        if s[1..] != [] {
          assert !StartsWith(s, "\n\n");
          assert s[1] != '\n' by {
            assert s[..2] == [s[0], s[1]];
          }
          FirstKept(s[1..], "\n", "\n\n");
        }
        assert r[2..] == d;
      } else {
        FirstKept(s, "\n", "\n\n");
        assert ([s[0]] + d)[1..] == d;
      }
    }
  }

  /** A prefix of a paired text that does not end inside a run is paired. */
  lemma {:induction false} PairedPrefix(s: string, k: nat)
    requires Paired(s) && k <= |s| && (k == 0 || s[k - 1] != '\n')
    ensures Paired(s[..k])
    decreases |s|
  {
    if k > 0 {
      if s[0] != '\n' {
        assert s[..k][1..] == s[1..][..k - 1];
        PairedPrefix(s[1..], k - 1);
      } else if k > 2 {
        assert s[..k][2..] == s[2..][..k - 2];
        PairedPrefix(s[2..], k - 2);
      }
    }
  }

  /** A suffix of a paired text that does not start inside a run is paired. */
  lemma {:induction false} PairedSuffix(s: string, k: nat)
    requires Paired(s) && k <= |s| && (k == |s| || s[k] != '\n')
    ensures Paired(s[k..])
    decreases |s|
  {
    if k > 0 {
      if s[0] != '\n' {
        assert s[1..][k - 1..] == s[k..];
        PairedSuffix(s[1..], k - 1);
      } else {
        assert k >= 2;
        assert s[2..][k - 2..] == s[k..];
        PairedSuffix(s[2..], k - 2);
      }
    }
  }

  /** Stripping keeps the newlines paired. */
  lemma StripKeepsPaired(s: string)
    requires Paired(s)
    ensures Paired(Strip(s))
  {
    var r := RStrip(s);
    PairedPrefix(s, |r|);
    var l := LStrip(r);
    PairedSuffix(r, |r| - |l|);
  }

  /** Every run of newlines in the result has length exactly 2: paragraphs are one blank line apart. */
  lemma NewlinesPaired(text: string)
    ensures Paired(Sanitized(text))
  {
    var masked := Replace(Replace(Unruled(text), "@@", "??"), "%%", "??");
    DoubledPaired(Collapsed(masked));
    StripKeepsPaired(Replace(Collapsed(masked), "\n", "\n\n"));
  }

  // ----- idempotence -----

  /** Halving the newline pairs of a paired text leaves no '\n\n', and doubling them again gives the text back. */
  lemma {:induction false} HalveDouble(s: string)
    requires Paired(s)
    ensures !Contains(Replace(s, "\n\n", "\n"), "\n\n")
    ensures Replace(Replace(s, "\n\n", "\n"), "\n", "\n\n") == s
    decreases |s|
  {
    if s != [] {
      if s[0] != '\n' {
        var h := Replace(s[1..], "\n\n", "\n");
        HalveDouble(s[1..]);
        FirstKept(s, "\n\n", "\n");
        FirstKept([s[0]] + h, "\n", "\n\n");
        assert ([s[0]] + h)[1..] == h;
        assert s == [s[0]] + s[1..];
      } else {
        var h := Replace(s[2..], "\n\n", "\n");
        HalveDouble(s[2..]);
        assert StartsWith(s, "\n\n");
        assert Replace(s, "\n\n", "\n") == "\n" + h;
        if s[2..] != [] {
          FirstKept(s[2..], "\n\n", "\n");
        }
        assert !StartsWith("\n" + h, "\n\n");
        assert ("\n" + h)[1..] == h;
        assert Replace("\n" + h, "\n", "\n\n") == "\n\n" + Replace(h, "\n", "\n\n");
        assert s == "\n\n" + s[2..];
      }
    }
  }

  /** The result is what the rest of the result's sanitizing leaves unchanged. */
  lemma SanitizedShape(text: string)
    ensures var y := Sanitized(text);
      !Contains(y, "\n---") && !Contains(y, "@@") && !Contains(y, "%%") && Paired(y) && NoOuterSpace(y)
  {
    NoRule(text);
    NoMarkers(text);
    NewlinesPaired(text);
  }

  /** Sanitizing a sanitized text changes nothing. */
  lemma Idempotent(text: string)
    ensures Sanitized(Sanitized(text)) == Sanitized(text)
  {
    var y := Sanitized(text);
    SanitizedShape(text);
    assert Unruled(y) == y;
    ReplaceAbsent(y, "@@", "??");
    ReplaceAbsent(y, "%%", "??");
    HalveDouble(y);
    var h := Replace(y, "\n\n", "\n");
    if Contains(y, "\n\n") {
      assert Collapsed(y) == Collapsed(h) == h;
    } else {
      ReplaceAbsent(y, "\n\n", "\n");
    }
    StripOfTrimmed(y);
  }
}
