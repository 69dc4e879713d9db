/**
 * HtmlReport (html_report.py): the HTML reports' text conversion. Text is
 * right-stripped and HTML-escaped; a one-liner has its newlines turned into
 * spaces, any other text becomes one <p> element per line.
 *
 * The class names this conversion _convert_from_mdnov, while the export
 * engine calls _convert_from_novx; so, as written, HTML reports convert
 * text with FileExport's own conversion and write it unescaped.
 */
module HtmlReports {
  import opened Wrappers
  import opened Strings
  import FileExports

  /** html.escape of one character, quotes included. */
  function EscapeChar(c: char): string
  {
    if c == '&' then "&amp;"
    else if c == '<' then "&lt;"
    else if c == '>' then "&gt;"
    else if c == '"' then "&quot;"
    else if c == '\'' then "&#x27;"
    else [c]
  }

  /** The characters html.escape replaces. */
  predicate Special(c: char)
  {
    c == '&' || c == '<' || c == '>' || c == '"' || c == '\''
  }

  /** html.escape(s): no markup character is left raw. */
  function Escape(s: string): (r: string)
    ensures '<' !in r && '>' !in r && '"' !in r && '\'' !in r
  {
    if s == [] then "" else EscapeChar(s[0]) + Escape(s[1..])
  }

  /** html.unescape for the five entities html.escape writes. */
  function Unescape(s: string): string
    decreases |s|
  {
    if s == [] then ""
    else if StartsWith(s, "&amp;") then "&" + Unescape(s[5..])
    else if StartsWith(s, "&lt;") then "<" + Unescape(s[4..])
    else if StartsWith(s, "&gt;") then ">" + Unescape(s[4..])
    else if StartsWith(s, "&quot;") then "\"" + Unescape(s[6..])
    else if StartsWith(s, "&#x27;") then "'" + Unescape(s[6..])
    else [s[0]] + Unescape(s[1..])
  }

  lemma UnescapeStep(c: char, rest: string)
    ensures Unescape(EscapeChar(c) + rest) == [c] + Unescape(rest)
  {
    var s := EscapeChar(c) + rest;
    if !Special(c) {
      UnescapePlain(c, rest);
    } else if c == '&' {
      assert s[..5] == "&amp;" && s[5..] == rest;
    } else if c == '<' {
      UnescapeLt(rest);
    } else if c == '>' {
      UnescapeGt(rest);
    } else if c == '"' {
      UnescapeQuot(rest);
    } else {
      UnescapeApos(rest);
    }
  }

  lemma UnescapePlain(c: char, rest: string)
    requires !Special(c)
    ensures Unescape([c] + rest) == [c] + Unescape(rest)
  {
    var s := [c] + rest;
    assert s[0] == c && s[1..] == rest;
    assert !StartsWith(s, "&amp;") && !StartsWith(s, "&lt;") && !StartsWith(s, "&gt;");
    assert !StartsWith(s, "&quot;") && !StartsWith(s, "&#x27;");
  }

  lemma UnescapeLt(rest: string)
    ensures Unescape("&lt;" + rest) == "<" + Unescape(rest)
  {
    var s := "&lt;" + rest;
    assert s[1] == 'l';
    assert s[..4] == "&lt;" && s[4..] == rest;
  }

  lemma UnescapeGt(rest: string)
    ensures Unescape("&gt;" + rest) == ">" + Unescape(rest)
  {
    var s := "&gt;" + rest;
    assert s[1] == 'g';
    assert s[..4] == "&gt;" && s[4..] == rest;
  }

  lemma UnescapeQuot(rest: string)
    ensures Unescape("&quot;" + rest) == "\"" + Unescape(rest)
  {
    var s := "&quot;" + rest;
    assert s[1] == 'q';
    assert s[..6] == "&quot;" && s[6..] == rest;
  }

  lemma UnescapeApos(rest: string)
    ensures Unescape("&#x27;" + rest) == "'" + Unescape(rest)
  {
    var s := "&#x27;" + rest;
    assert s[1] == '#';
    assert s[..6] == "&#x27;" && s[6..] == rest;
  }

  /** Escaping loses nothing: unescaping gives the text back. */
  lemma {:induction false} UnescapeEscape(s: string)
    ensures Unescape(Escape(s)) == s
  {
    if s != [] {
      UnescapeStep(s[0], Escape(s[1..]));
      UnescapeEscape(s[1..]);
    }
  }

  /** The <p> element of a line. */
  function Paragraph(line: string): string
  {
    "<p>" + line + "</p>"
  }

  /** The loop of _convert_from_mdnov that wraps each line in <p> and </p>. */
  method Paragraphs(lines: seq<string>) returns (r: seq<string>)
    ensures |r| == |lines| && forall i :: 0 <= i < |lines| ==> r[i] == Paragraph(lines[i])
  {
    r := [];
    for i := 0 to |lines|
      invariant |r| == i && forall k :: 0 <= k < i ==> r[k] == Paragraph(lines[k])
    {
      r := r + [Paragraph(lines[i])];
    }
  }

  /** The paragraphs of the lines. */
  function ParagraphsOf(lines: seq<string>): (r: seq<string>)
    ensures |r| == |lines| && forall i :: 0 <= i < |lines| ==> r[i] == Paragraph(lines[i])
  {
    seq(|lines|, i requires 0 <= i < |lines| => Paragraph(lines[i]))
  }

  /** The HTML text of a text: '' for no text, else escaped and laid out as a line or as paragraphs. */
  function HtmlText(text: Option<string>, quick: bool): (r: string)
    ensures !Truthy(text) ==> r == ""
  {
    if !Truthy(text) then ""
    else
      var escaped := Escape(RStrip(text.value));
      if quick then Replace(escaped, "\n", " ")
      else Join("\n", ParagraphsOf(Split(escaped, "\n")))
  }

  /** _convert_from_mdnov, its loop included. */
  method ConvertFromMdnov(text: Option<string>, quick: bool) returns (r: string)
    ensures r == HtmlText(text, quick)
  {
    if !Truthy(text) {
      return "";
    }
    var escaped := Escape(RStrip(text.value));
    if quick {
      return Replace(escaped, "\n", " ");
    }
    var newlines := Paragraphs(Split(escaped, "\n"));
    assert newlines == ParagraphsOf(Split(escaped, "\n"));
    r := Join("\n", newlines);
  }

  /** Replacing every newline by a space leaves none. */
  lemma {:induction false} NoNewlineLeft(s: string)
    ensures '\n' !in Replace(s, "\n", " ")
  {
    if s != [] {
      NoNewlineLeft(s[1..]);
    }
  }

  /** A one-liner comes out on one line. */
  lemma QuickIsOneLine(text: Option<string>)
    ensures '\n' !in HtmlText(text, true)
  {
    if Truthy(text) {
      NoNewlineLeft(Escape(RStrip(text.value)));
    }
  }

  /** The pieces of a split hold only characters of the text split. */
  lemma {:induction false} SplitChars(s: string, sep: string)
    requires sep != []
    ensures forall piece, c :: piece in Split(s, sep) && c in piece ==> c in s
    decreases |s|
  {
    match Find(s, sep)
    case None =>
    case Some(i) =>
      SplitChars(s[i + |sep|..], sep);
      forall piece, c | piece in Split(s, sep) && c in piece
        ensures c in s
      {
        if piece != s[..i] {
          assert piece in Split(s[i + |sep|..], sep);
        }
      }
  }

  /**
   * Each line of a text becomes one <p> element whose content is the
   * escaped line: no '<' or '>' appears in it apart from the added tags.
   */
  lemma ParagraphsEscaped(text: Option<string>)
    requires Truthy(text)
    ensures var lines := Split(Escape(RStrip(text.value)), "\n");
      HtmlText(text, false) == Join("\n", ParagraphsOf(lines))
      && forall l :: l in lines ==> '<' !in l && '>' !in l
  {
    SplitChars(Escape(RStrip(text.value)), "\n");
  }

  // ----- as written: the engine calls _convert_from_novx -----

  /** The conversion an HTML report applies as written: FileExport's, which does not escape. */
  function HtmlTextAsWritten(text: Option<string>, quick: bool): (r: string)
    ensures text.Some? ==> r == text.value
  {
    FileExports.ConvertFromNovx(text)
  }

  /** A title holding markup reaches the report raw as written, and escaped once the conversion is the one the class defines. */
  lemma UnescapedMarkup()
    ensures '<' in HtmlTextAsWritten(Some("<b>"), true)
    ensures '<' !in HtmlText(Some("<b>"), true)
  {
    assert HtmlTextAsWritten(Some("<b>"), true)[0] == '<';
    var e := Escape(RStrip("<b>"));
    assert '<' !in e;
    ReplaceKeepsAbsent(e, '<');
  }

  /** Replacing newlines by spaces brings in no other character. */
  lemma {:induction false} ReplaceKeepsAbsent(s: string, c: char)
    requires c != ' ' && c !in s
    ensures c !in Replace(s, "\n", " ")
  {
    if s != [] {
      ReplaceKeepsAbsent(s[1..], c);
    }
  }
}
