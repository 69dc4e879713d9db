/**
 * MdFile (md_file.py): the Markdown export's text conversion. A one-liner
 * is written as it is; any other text gets one blank line between its
 * paragraphs and loses its outer whitespace.
 */
module MdFiles {
  import opened Wrappers
  import opened Strings

  /** The scene divider of the Markdown files. */
  const SECTION_DIVIDER := "* * *"

  /** _convert_from_novx of the Markdown export. */
  function MdConvert(text: Option<string>, quick: bool): (r: string)
    ensures text.None? ==> r == ""
    ensures text.Some? && quick ==> r == text.value
    ensures text.Some? && !quick ==> NoOuterSpace(r)
  {
    match text
    case None => ""
    case Some(t) =>
      if quick then t
      else Strip(Replace(Replace(t, "\n\n", "\n"), "\n", "\n\n"))
  }

  /** A paragraph: a non-empty line. */
  predicate Paragraph(p: string)
  {
    p != [] && '\n' !in p
  }

  /**
   * Paragraphs separated by one newline, or by two where blank[i] says so
   * (a blank line after paragraph i).
   */
  function Spaced(paras: seq<string>, blank: seq<bool>): string
    requires paras != [] && |blank| == |paras| - 1
  {
    if |paras| == 1 then paras[0]
    else paras[0] + (if blank[0] then "\n\n" else "\n") + Spaced(paras[1..], blank[1..])
  }

  /** Replacing a pattern that starts with a newline passes a line without newlines through. */
  lemma {:induction false} ReplaceLine(p: string, rest: string, pat: string, rep: string)
    requires pat != [] && pat[0] == '\n' && '\n' !in p
    ensures Replace(p + rest, pat, rep) == p + Replace(rest, pat, rep)
  {
    if p != [] {
      assert !StartsWith(p + rest, pat);
      assert (p + rest)[1..] == p[1..] + rest;
      ReplaceLine(p[1..], rest, pat, rep);
    } else {
      assert p + rest == rest;
    }
  }

  /** Collapsing double newlines leaves paragraphs one newline apart, whichever spacing they had. */
  lemma {:induction false} CollapseSpaced(paras: seq<string>, blank: seq<bool>)
    requires paras != [] && |blank| == |paras| - 1
    requires forall i :: 0 <= i < |paras| ==> Paragraph(paras[i])
    ensures Replace(Spaced(paras, blank), "\n\n", "\n") == Join("\n", paras)
  {
    if |paras| == 1 {
      ReplaceLine(paras[0], "", "\n\n", "\n");
      assert paras[0] + "" == paras[0];
    } else {
      var sep := if blank[0] then "\n\n" else "\n";
      var rest := Spaced(paras[1..], blank[1..]);
      assert Spaced(paras, blank) == paras[0] + (sep + rest);
      RestStartsWithText(paras[1..], blank[1..]);
      calc {
        Replace(Spaced(paras, blank), "\n\n", "\n");
        { ReplaceLine(paras[0], sep + rest, "\n\n", "\n"); }
        paras[0] + Replace(sep + rest, "\n\n", "\n");
        { CollapseSeparator(blank[0], rest); }
        paras[0] + ("\n" + Replace(rest, "\n\n", "\n"));
        { CollapseSpaced(paras[1..], blank[1..]); }
        paras[0] + ("\n" + Join("\n", paras[1..]));
      }
    }
  }

  /** One newline or two before a line of text collapse to one. */
  lemma CollapseSeparator(blank: bool, rest: string)
    requires rest != [] && rest[0] != '\n'
    ensures Replace((if blank then "\n\n" else "\n") + rest, "\n\n", "\n") == "\n" + Replace(rest, "\n\n", "\n")
  {
    var s := (if blank then "\n\n" else "\n") + rest;
    if blank {
      assert StartsWith(s, "\n\n");
      assert s[2..] == rest;
    } else {
      assert s[1] == rest[0];
      assert !StartsWith(s, "\n\n");
      assert s[1..] == rest;
    }
  }

  /** Spaced paragraphs start with the first paragraph's first character, which is no newline. */
  lemma RestStartsWithText(paras: seq<string>, blank: seq<bool>)
    requires paras != [] && |blank| == |paras| - 1
    requires forall i :: 0 <= i < |paras| ==> Paragraph(paras[i])
    ensures Paragraph(paras[0]) && Spaced(paras, blank) != [] && Spaced(paras, blank)[0] == paras[0][0] != '\n'
  {
  }

  /** Doubling the newlines of paragraphs one newline apart puts one blank line between them. */
  lemma {:induction false} DoubleJoined(paras: seq<string>)
    requires paras != []
    requires forall i :: 0 <= i < |paras| ==> Paragraph(paras[i])
    ensures Replace(Join("\n", paras), "\n", "\n\n") == Join("\n\n", paras)
  {
    if |paras| == 1 {
      ReplaceLine(paras[0], "", "\n", "\n\n");
      assert paras[0] + "" == paras[0];
    } else {
      var rest := Join("\n", paras[1..]);
      assert Join("\n", paras) == paras[0] + ("\n" + rest);
      ReplaceLine(paras[0], "\n" + rest, "\n", "\n\n");
      assert ("\n" + rest)[1..] == rest;
      DoubleJoined(paras[1..]);
    }
  }

  /**
   * Paragraphs separated by one newline or by two both come out separated
   * by exactly one blank line.
   */
  lemma OneBlankLine(paras: seq<string>, blank: seq<bool>)
    requires paras != [] && |blank| == |paras| - 1
    requires forall i :: 0 <= i < |paras| ==> Paragraph(paras[i])
    ensures MdConvert(Some(Spaced(paras, blank)), false) == Strip(Join("\n\n", paras))
  {
    CollapseSpaced(paras, blank);
    DoubleJoined(paras);
  }
}
