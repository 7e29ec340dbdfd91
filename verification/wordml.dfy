/**
 * The serialiser: blocks become the `w:document` part of a WordprocessingML
 * package, one `w:p` paragraph per block (one per line for code), one `w:r`
 * run per inline run, its text in a `w:t` element.
 *
 * The `Decode*` functions read that markup back; the round-trip lemmas show
 * that the generated document encodes exactly the paragraphs `DocParas`
 * describes, with each run's bold and code flags, text and whitespace marker.
 */
module WordML {
  import opened Text
  import opened Inline
  import Blocks

  /** A paragraph as `_w_p` receives it: its runs and its optional style name. */
  datatype Paragraph = Paragraph(runs: seq<Run>, style: Option<string>)

  // ---------------------------------------------------------------------
  // Escaping

  /** One character of `html.escape(s, quote=False)`. */
  function EscapeChar(c: char): string {
    if c == '&' then "&amp;"
    else if c == '<' then "&lt;"
    else if c == '>' then "&gt;"
    else [c]
  }

  /** `_xml_escape`: '&', '<' and '>' become entities, quotes stay as they are. */
  function Escape(s: string): string {
    if s == [] then "" else EscapeChar(s[0]) + Escape(s[1..])
  }

  /** The character an escaped text starts with, and how many characters spell it. */
  function UnescapeHead(s: string): (r: Option<(char, nat)>)
    requires s != []
    ensures r.Some? ==> 1 <= r.value.1 <= |s|
  {
    if s[0] == '<' || s[0] == '>' then None
    else if s[0] != '&' then Some((s[0], 1))
    else if StartsAt(s, "&amp;", 0) then Some(('&', 5))
    else if StartsAt(s, "&lt;", 0) then Some(('<', 4))
    else if StartsAt(s, "&gt;", 0) then Some(('>', 4))
    else None
  }

  /** Reads the three entities back; a bare '<' or '>' or any other entity is malformed. */
  function Unescape(s: string): Option<string>
    decreases |s|
  {
    if s == [] then Some("")
    else
      var head :- UnescapeHead(s);
      var t :- Unescape(s[head.1..]);
      Some([head.0] + t)
  }

  lemma Prefix(p: string, rest: string)
    ensures StartsAt(p + rest, p, 0) && (p + rest)[|p|..] == rest
  {
    assert (p + rest)[..|p|] == p;
  }

  /** Reading back one escaped character. */
  lemma UnescapeChar(c: char, e: string)
    ensures UnescapeHead(EscapeChar(c) + e) == Some((c, |EscapeChar(c)|))
  {
    Prefix(EscapeChar(c), e);
    if c == '<' {
      assert ("&lt;" + e)[1] == 'l';
    } else if c == '>' {
      assert ("&gt;" + e)[1] == 'g';
    } else if c != '&' {
      assert ([c] + e)[0] == c;
    }
  }

  /** Escaping is undone by `Unescape`. */
  lemma {:induction false} EscapeRoundTrip(s: string)
    ensures Unescape(Escape(s)) == Some(s)
  {
    if s != [] {
      var e := Escape(s[1..]);
      EscapeRoundTrip(s[1..]);
      UnescapeChar(s[0], e);
      Prefix(EscapeChar(s[0]), e);
      assert [s[0]] + s[1..] == s;
    }
  }

  /** Escaped text holds no '<' or '>', and holds a quote exactly when the input does. */
  lemma {:induction false} EscapeClean(s: string)
    ensures '<' !in Escape(s) && '>' !in Escape(s)
    ensures '"' in Escape(s) <==> '"' in s
  {
    if s != [] {
      EscapeClean(s[1..]);
      assert Escape(s) == EscapeChar(s[0]) + Escape(s[1..]);
      assert s == [s[0]] + s[1..];
    }
  }

  // ---------------------------------------------------------------------
  // The markup `_w_p` writes

  // The longer literals are split after their first tag or characters, so
  // that the verifier can see how they start without unfolding all of them.
  const Bold := "<w:b/>"
  const Consolas := "<w:rF" + "onts w:ascii=\"Consolas\" w:hAnsi=\"Consolas\"/>"
  const Preserve := " " + "xml:space=\"preserve\""
  const StyleOpen := "<w:pPr>" + "<w:pStyle w:val=\""
  const StyleClose := "\"/></w:pPr>"
  const TextClose := "</w:t></w:r>"

  /** The text starts or ends with whitespace, so Word must be told to keep it. */
  predicate NeedsPreserve(t: string) {
    |t| > 0 && (IsSpace(t[0]) || IsSpace(t[|t| - 1]))
  }

  /** The run properties: bold and the code font, and no `w:rPr` at all for a plain run. */
  function RPr(r: Run): string {
    if r.bold || r.code then
      "<w:rPr>" + (if r.bold then Bold else "") + (if r.code then Consolas else "") + "</w:rPr>"
    else ""
  }

  function RunXml(r: Run): string {
    "<w:r>" + RPr(r) + "<w:t" + (if NeedsPreserve(r.text) then Preserve else "") + ">"
    + Escape(r.text) + TextClose
  }

  function RunXmls(rs: seq<Run>): (xs: seq<string>)
    ensures |xs| == |rs|
  {
    if rs == [] then [] else [RunXml(rs[0])] + RunXmls(rs[1..])
  }

  /** The paragraph properties: a style reference, only for a non-empty style name. */
  function PPr(style: Option<string>): string {
    if style.Some? && style.value != [] then StyleOpen + Escape(style.value) + StyleClose
    else ""
  }

  function ParaXml(p: Paragraph): string {
    "<w:p>" + PPr(p.style) + Concat(RunXmls(p.runs)) + "</w:p>"
  }

  function ParaXmls(ps: seq<Paragraph>): (xs: seq<string>)
    ensures |xs| == |ps|
  {
    if ps == [] then [] else [ParaXml(ps[0])] + ParaXmls(ps[1..])
  }

  function ParasXml(ps: seq<Paragraph>): string {
    Concat(ParaXmls(ps))
  }

  /**
   * A style the markup can carry and give back: absent, or a non-empty name
   * without a double quote (the style is escaped without quoting, so a quote
   * would end the `w:val` attribute early).
   */
  predicate StyleOk(style: Option<string>) {
    style.None? || (style.value != [] && '"' !in style.value)
  }

  predicate StylesOk(ps: seq<Paragraph>) {
    forall k :: 0 <= k < |ps| ==> StyleOk(ps[k].style)
  }

  // ---------------------------------------------------------------------
  // The document `build_document_xml` writes

  const WNamespace := "http://schemas.openxmlformats.org/wordprocessingml/2006/main"
  const RNamespace := "http://schemas.openxmlformats.org/officeDocument/2006/relationships"
  const Head := "<?xml version=\"1.0\" encoding=\"UTF-8\" standalone=\"yes\"?>"
    + "<w:document xmlns:w=\"" + WNamespace + "\" xmlns:r=\"" + RNamespace + "\"><w:body>"
  /** Letter-size pages (12240 x 15840 twentieths of a point) with one-inch margins. */
  const Sect := "<w:sectPr>" + "<w:pgSz w:w=\"12240\" w:h=\"15840\"/>"
    + "<w:pgMar w:top=\"1440\" w:right=\"1440\" w:bottom=\"1440\" w:left=\"1440\""
    + " w:header=\"708\" w:footer=\"708\" w:gutter=\"0\"/>" + "</w:sectPr>"
  const Tail := "</w:body></w:document>"
  const BulletMark := "\U{2022} "

  /** `min(max(level, 1), 6)`. */
  function Clamp(level: int): (n: int)
    ensures 1 <= n <= 6
    ensures 1 <= level <= 6 ==> n == level
  {
    if level < 1 then 1 else if level > 6 then 6 else level
  }

  function Digit(n: int): char
    requires 0 <= n <= 9
  {
    (('0' as int) + n) as char
  }

  function HeadingStyle(level: int): string {
    "Heading" + [Digit(Clamp(level))]
  }

  /** The lines of a code block: `text.splitlines() or [""]`. */
  function CodeLines(text: string): (lines: seq<string>)
    ensures |lines| >= 1
  {
    var ls := SplitLines(text);
    if ls == [] then [""] else ls
  }

  function CodePara(line: string): Paragraph {
    Paragraph([Run(line, false, true)], Some("Code"))
  }

  function CodeParas(text: string): (ps: seq<Paragraph>)
    ensures |ps| == |CodeLines(text)|
  {
    var lines := CodeLines(text);
    seq(|lines|, k requires 0 <= k < |lines| => CodePara(lines[k]))
  }

  function TitlePara(title: string): Paragraph {
    Paragraph([Run(title, true, false)], Some("Title"))
  }

  /** The empty paragraph after the title and for every blank block. */
  const EmptyPara := Paragraph([Plain("")], None)

  /** The paragraphs one block becomes. */
  function BlockParas(b: Blocks.Block): seq<Paragraph> {
    match b
    case Blank => [EmptyPara]
    case Heading(text, level) => [Paragraph(Tokenize(text), Some(HeadingStyle(level)))]
    case Bullet(text) => [Paragraph(Tokenize(BulletMark + text), None)]
    case Para(text) => [Paragraph(Tokenize(text), None)]
    case Code(text) => CodeParas(text)
  }

  function BlocksParas(bs: seq<Blocks.Block>): seq<Paragraph> {
    if bs == [] then [] else BlockParas(bs[0]) + BlocksParas(bs[1..])
  }

  /** Every paragraph of the document, in order. */
  function DocParas(blocks: seq<Blocks.Block>, title: string): seq<Paragraph> {
    [TitlePara(title), EmptyPara] + BlocksParas(blocks)
  }

  function BlockXml(b: Blocks.Block): string {
    ParasXml(BlockParas(b))
  }

  function BlockXmls(bs: seq<Blocks.Block>): (xs: seq<string>)
    ensures |xs| == |bs|
  {
    if bs == [] then [] else [BlockXml(bs[0])] + BlockXmls(bs[1..])
  }

  /** The pieces of the body before the section properties. */
  function BodyParts(blocks: seq<Blocks.Block>, title: string): seq<string> {
    [ParaXml(TitlePara(title)), ParaXml(EmptyPara)] + BlockXmls(blocks)
  }

  function DocumentXml(blocks: seq<Blocks.Block>, title: string): string {
    Head + (Concat(BodyParts(blocks, title)) + Sect) + Tail
  }

  // ---------------------------------------------------------------------
  // Reading the markup back

  /** What follows the literal `p` at the front of `s`. */
  function Expect(s: string, p: string): Option<string> {
    if StartsAt(s, p, 0) then Some(s[|p|..]) else None
  }

  /** An optional literal: whether it was there, and what follows. */
  function Skip(s: string, p: string): (bool, string) {
    if StartsAt(s, p, 0) then (true, s[|p|..]) else (false, s)
  }

  /** `s` cut before the first `stop`. */
  function TakeUntil(s: string, stop: char): (r: (string, string))
    ensures r.0 + r.1 == s
    ensures stop !in r.0
    ensures r.1 == [] || r.1[0] == stop
  {
    if s == [] || s[0] == stop then ([], s)
    else
      var (a, b) := TakeUntil(s[1..], stop);
      ([s[0]] + a, b)
  }

  /** The run properties: the bold and code flags; an empty `w:rPr` is malformed. */
  function DecodeRPr(s: string): (r: Option<(bool, bool, string)>)
    ensures r.Some? ==> |r.value.2| <= |s|
  {
    if !StartsAt(s, "<w:rPr>", 0) then Some((false, false, s))
    else
      var (bold, s1) := Skip(s[7..], Bold);
      var (code, s2) := Skip(s1, Consolas);
      var s3 :- Expect(s2, "</w:rPr>");
      if !bold && !code then None else Some((bold, code, s3))
  }

  /** The escaped text of a `w:t` up to its closing tags, unescaped. */
  function DecodeText(s: string): (r: Option<(string, string)>)
    ensures r.Some? ==> |r.value.1| < |s|
  {
    var (escaped, s1) := TakeUntil(s, '<');
    var text :- Unescape(escaped);
    var s2 :- Expect(s1, TextClose);
    Some((text, s2))
  }

  /** One `w:r`: the run and whether its `w:t` carried the whitespace marker. */
  function DecodeRun(s: string): (r: Option<(Run, bool, string)>)
    ensures r.Some? ==> |r.value.2| < |s|
  {
    var s1 :- Expect(s, "<w:r>");
    var props :- DecodeRPr(s1);
    var s2 :- Expect(props.2, "<w:t");
    var (preserve, s3) := Skip(s2, Preserve);
    var s4 :- Expect(s3, ">");
    var text :- DecodeText(s4);
    Some((Run(text.0, props.0, props.1), preserve, text.1))
  }

  /** The runs of a paragraph; a run whose whitespace marker is missing or superfluous is malformed. */
  function DecodeRuns(s: string): (r: Option<(seq<Run>, string)>)
    decreases |s|
    ensures r.Some? ==> |r.value.1| <= |s|
  {
    if !StartsAt(s, "<w:r>", 0) then Some(([], s))
    else
      var first :- DecodeRun(s);
      if first.1 != NeedsPreserve(first.0.text) then None
      else
        var more :- DecodeRuns(first.2);
        Some(([first.0] + more.0, more.1))
  }

  /** The paragraph properties: the style name; an empty name is malformed. */
  function DecodePPr(s: string): (r: Option<(Option<string>, string)>)
    ensures r.Some? ==> |r.value.1| <= |s|
  {
    if !StartsAt(s, "<w:pPr>", 0) then Some((None, s))
    else
      var s1 :- Expect(s, StyleOpen);
      var (escaped, s2) := TakeUntil(s1, '"');
      var name :- Unescape(escaped);
      var s3 :- Expect(s2, StyleClose);
      if name == [] then None else Some((Some(name), s3))
  }

  function DecodePara(s: string): (r: Option<(Paragraph, string)>)
    ensures r.Some? ==> |r.value.1| < |s|
  {
    var s1 :- Expect(s, "<w:p>");
    var props :- DecodePPr(s1);
    var runs :- DecodeRuns(props.1);
    var s2 :- Expect(runs.1, "</w:p>");
    Some((Paragraph(runs.0, props.0), s2))
  }

  function DecodeParas(s: string): Option<(seq<Paragraph>, string)>
    decreases |s|
  {
    if !StartsAt(s, "<w:p>", 0) then Some(([], s))
    else
      var first :- DecodePara(s);
      var more :- DecodeParas(first.1);
      Some(([first.0] + more.0, more.1))
  }

  /** The paragraphs of a whole document, which must end with the section properties. */
  function DecodeDocument(s: string): Option<seq<Paragraph>> {
    var s1 :- Expect(s, Head);
    var body :- DecodeParas(s1);
    var s2 :- Expect(body.1, Sect);
    if s2 == Tail then Some(body.0) else None
  }

  // ---------------------------------------------------------------------
  // Round trips

  /** Parsing the literal `p` off the front of `p + rest` leaves `rest`. */
  lemma ExpectConcat(p: string, rest: string)
    ensures Expect(p + rest, p) == Some(rest)
    ensures Skip(p + rest, p) == (true, rest)
  {
    Prefix(p, rest);
  }

  /** A string that starts with `q` does not start with a `p` that differs from `q` at `i`. */
  lemma Differ(s: string, q: string, p: string, i: nat)
    requires StartsAt(s, q, 0)
    requires i < |q| && i < |p| && q[i] != p[i]
    ensures !StartsAt(s, p, 0)
  {
    assert s[i] == s[..|q|][i];
  }

  lemma Starts(q: string, rest: string, p: string, i: nat)
    requires i < |q| && i < |p| && q[i] != p[i]
    ensures !StartsAt(q + rest, p, 0)
    ensures Skip(q + rest, p) == (false, q + rest)
  {
    Prefix(q, rest);
    Differ(q + rest, q, p, i);
  }

  lemma {:induction false} TakeUntilConcat(a: string, b: string, stop: char)
    requires stop !in a
    requires b != [] && b[0] == stop
    ensures TakeUntil(a + b, stop) == (a, b)
  {
    if a == [] {
      assert a + b == b;
    } else {
      assert (a + b)[0] == a[0] != stop;
      assert (a + b)[1..] == a[1..] + b;
      TakeUntilConcat(a[1..], b, stop);
      assert [a[0]] + a[1..] == a;
    }
  }

  lemma DecodeRPrOf(r: Run, t: string)
    requires StartsAt(t, "<w:t", 0)
    ensures DecodeRPr(RPr(r) + t) == Some((r.bold, r.code, t))
  {
    if !r.bold && !r.code {
      assert RPr(r) + t == t;
      Differ(t, "<w:t", "<w:rPr>", 3);
    } else {
      var close := "</w:rPr>" + t;
      var c := (if r.code then Consolas else "") + close;
      var b := (if r.bold then Bold else "") + c;
      assert RPr(r) + t == "<w:rPr>" + b;
      Prefix("<w:rPr>", b);
      if r.bold {
        assert b == Bold + c;
        ExpectConcat(Bold, c);
      } else {
        assert b == Consolas + close;
        Starts(Consolas, close, Bold, 3);
      }
      if r.code {
        assert c == Consolas + close;
        ExpectConcat(Consolas, close);
      } else {
        assert c == close;
        Starts("</w:rPr>", t, Consolas, 1);
      }
      ExpectConcat("</w:rPr>", t);
      Prefix("<w:rPr>", b);
    }
  }

  lemma DecodeTextOf(text: string, rest: string)
    ensures DecodeText(Escape(text) + TextClose + rest) == Some((text, rest))
  {
    var closed := TextClose + rest;
    assert Escape(text) + TextClose + rest == Escape(text) + closed;
    EscapeClean(text);
    TakeUntilConcat(Escape(text), closed, '<');
    EscapeRoundTrip(text);
    ExpectConcat(TextClose, rest);
  }

  /** The markup of a run, regrouped from the front. */
  lemma RunXmlSplit(r: Run, rest: string)
    ensures RunXml(r) + rest ==
            "<w:r>" + (RPr(r) + ("<w:t" + ((if NeedsPreserve(r.text) then Preserve else "")
            + (">" + (Escape(r.text) + TextClose + rest)))))
  {
    var a := if NeedsPreserve(r.text) then Preserve else "";
    var e := Escape(r.text) + TextClose + rest;
    calc {
      RunXml(r) + rest;
      ("<w:r>" + RPr(r) + "<w:t" + a + ">" + Escape(r.text) + TextClose) + rest;
      { Assoc("<w:r>" + RPr(r) + "<w:t" + a + ">" + Escape(r.text), TextClose, rest); }
      "<w:r>" + RPr(r) + "<w:t" + a + ">" + Escape(r.text) + (TextClose + rest);
      { Assoc("<w:r>" + RPr(r) + "<w:t" + a + ">", Escape(r.text), TextClose + rest); }
      "<w:r>" + RPr(r) + "<w:t" + a + ">" + (Escape(r.text) + (TextClose + rest));
      { Assoc(Escape(r.text), TextClose, rest); }
      "<w:r>" + RPr(r) + "<w:t" + a + ">" + e;
      { Assoc("<w:r>" + RPr(r) + "<w:t" + a, ">", e); }
      "<w:r>" + RPr(r) + "<w:t" + a + (">" + e);
      { Assoc("<w:r>" + RPr(r) + "<w:t", a, ">" + e); }
      "<w:r>" + RPr(r) + "<w:t" + (a + (">" + e));
      { Assoc("<w:r>" + RPr(r), "<w:t", a + (">" + e)); }
      "<w:r>" + RPr(r) + ("<w:t" + (a + (">" + e)));
      { Assoc("<w:r>", RPr(r), "<w:t" + (a + (">" + e))); }
      "<w:r>" + (RPr(r) + ("<w:t" + (a + (">" + e))));
    }
  }

  lemma Assoc(a: string, b: string, c: string)
    ensures a + b + c == a + (b + c)
  {
  }

  /** A run's markup reads back as that run, with the whitespace marker exactly where it is needed. */
  lemma DecodeRunOf(r: Run, rest: string)
    ensures DecodeRun(RunXml(r) + rest) == Some((r, NeedsPreserve(r.text), rest))
  {
    var tail := Escape(r.text) + TextClose + rest;
    var open := ">" + tail;
    var afterT := (if NeedsPreserve(r.text) then Preserve else "") + open;
    var t := "<w:t" + afterT;
    var afterR := RPr(r) + t;
    RunXmlSplit(r, rest);
    ExpectConcat("<w:r>", afterR);
    Prefix("<w:t", afterT);
    DecodeRPrOf(r, t);
    ExpectConcat("<w:t", afterT);
    if NeedsPreserve(r.text) {
      ExpectConcat(Preserve, open);
    } else {
      assert afterT == open;
      Starts(">", tail, Preserve, 0);
    }
    ExpectConcat(">", tail);
    DecodeTextOf(r.text, rest);
  }

  lemma RunXmlStart(r: Run, rest: string)
    ensures StartsAt(RunXml(r) + rest, "<w:r>", 0)
  {
    RunXmlSplit(r, rest);
    Prefix("<w:r>", RPr(r) + ("<w:t" + ((if NeedsPreserve(r.text) then Preserve else "")
            + (">" + (Escape(r.text) + TextClose + rest)))));
  }

  /** The markup of the runs `rs`: that of the first, then that of the others. */
  lemma RunsXmlCons(rs: seq<Run>, rest: string)
    requires rs != []
    ensures Concat(RunXmls(rs)) + rest == RunXml(rs[0]) + (Concat(RunXmls(rs[1..])) + rest)
  {
    ConcatCons(RunXml(rs[0]), RunXmls(rs[1..]));
    Assoc(RunXml(rs[0]), Concat(RunXmls(rs[1..])), rest);
  }

  /** The runs of a paragraph read back as those runs, one `w:r` each, in order. */
  lemma {:induction false} DecodeRunsOf(rs: seq<Run>, rest: string)
    requires !StartsAt(rest, "<w:r>", 0)
    ensures DecodeRuns(Concat(RunXmls(rs)) + rest) == Some((rs, rest))
  {
    if rs == [] {
      assert Concat(RunXmls(rs)) + rest == rest;
    } else {
      var m := Concat(RunXmls(rs[1..])) + rest;
      RunsXmlCons(rs, rest);
      RunXmlStart(rs[0], m);
      DecodeRunOf(rs[0], m);
      DecodeRunsOf(rs[1..], rest);
      assert [rs[0]] + rs[1..] == rs;
    }
  }

  /** What follows the paragraph properties never looks like them. */
  lemma RunsNotPPr(rs: seq<Run>, rest: string)
    ensures !StartsAt(Concat(RunXmls(rs)) + ("</w:p>" + rest), "<w:pPr>", 0)
  {
    var x := Concat(RunXmls(rs)) + ("</w:p>" + rest);
    if rs == [] {
      assert x == "</w:p>" + rest;
      Starts("</w:p>", rest, "<w:pPr>", 1);
    } else {
      RunsXmlCons(rs, "</w:p>" + rest);
      RunXmlStart(rs[0], Concat(RunXmls(rs[1..])) + ("</w:p>" + rest));
      Differ(x, "<w:r>", "<w:pPr>", 3);
    }
  }

  lemma DecodePPrOf(style: Option<string>, t: string)
    requires StyleOk(style)
    requires !StartsAt(t, "<w:pPr>", 0)
    ensures DecodePPr(PPr(style) + t) == Some((style, t))
  {
    if style.None? {
      assert PPr(style) + t == t;
    } else {
      var v := style.value;
      var closed := StyleClose + t;
      var x := PPr(style) + t;
      calc {
        x;
        StyleOpen + Escape(v) + StyleClose + t;
        { Assoc(StyleOpen + Escape(v), StyleClose, t); }
        StyleOpen + Escape(v) + closed;
        { Assoc(StyleOpen, Escape(v), closed); }
        StyleOpen + (Escape(v) + closed);
      }
      ExpectConcat(StyleOpen, Escape(v) + closed);
      Assoc("<w:pPr>", "<w:pStyle w:val=\"", Escape(v) + closed);
      Prefix("<w:pPr>", "<w:pStyle w:val=\"" + (Escape(v) + closed));
      EscapeClean(v);
      TakeUntilConcat(Escape(v), closed, '"');
      EscapeRoundTrip(v);
      ExpectConcat(StyleClose, t);
    }
  }

  /** The markup of a paragraph, regrouped from the front. */
  lemma ParaXmlSplit(p: Paragraph, rest: string)
    ensures ParaXml(p) + rest == "<w:p>" + (PPr(p.style) + (Concat(RunXmls(p.runs)) + ("</w:p>" + rest)))
  {
    var a := PPr(p.style);
    var b := Concat(RunXmls(p.runs));
    calc {
      ParaXml(p) + rest;
      "<w:p>" + a + b + "</w:p>" + rest;
      { Assoc("<w:p>" + a + b, "</w:p>", rest); }
      "<w:p>" + a + b + ("</w:p>" + rest);
      { Assoc("<w:p>" + a, b, "</w:p>" + rest); }
      "<w:p>" + a + (b + ("</w:p>" + rest));
      { Assoc("<w:p>", a, b + ("</w:p>" + rest)); }
      "<w:p>" + (a + (b + ("</w:p>" + rest)));
    }
  }

  lemma ClosedRuns(rs: seq<Run>, rest: string)
    ensures DecodeRuns(Concat(RunXmls(rs)) + ("</w:p>" + rest)) == Some((rs, "</w:p>" + rest))
  {
    Starts("</w:p>", rest, "<w:r>", 1);
    DecodeRunsOf(rs, "</w:p>" + rest);
  }

  /** The inside of a paragraph reads back as its style and its runs. */
  lemma DecodeParaBodyOf(p: Paragraph, rest: string)
    requires StyleOk(p.style)
    ensures var runs := Concat(RunXmls(p.runs)) + ("</w:p>" + rest);
            DecodePPr(PPr(p.style) + runs) == Some((p.style, runs))
            && DecodeRuns(runs) == Some((p.runs, "</w:p>" + rest))
  {
    var runs := Concat(RunXmls(p.runs)) + ("</w:p>" + rest);
    RunsNotPPr(p.runs, rest);
    DecodePPrOf(p.style, runs);
    ClosedRuns(p.runs, rest);
  }

  /** A paragraph's markup reads back as that paragraph: its style and its runs. */
  lemma DecodeParaOf(p: Paragraph, rest: string)
    requires StyleOk(p.style)
    ensures DecodePara(ParaXml(p) + rest) == Some((p, rest))
  {
    var body := PPr(p.style) + (Concat(RunXmls(p.runs)) + ("</w:p>" + rest));
    assert Expect(ParaXml(p) + rest, "<w:p>") == Some(body) by {
      ParaXmlSplit(p, rest);
      ExpectConcat("<w:p>", body);
    }
    DecodeParaBodyOf(p, rest);
    ExpectConcat("</w:p>", rest);
  }


  lemma ParaXmlStart(p: Paragraph, rest: string)
    ensures StartsAt(ParaXml(p) + rest, "<w:p>", 0)
  {
    ParaXmlSplit(p, rest);
    Prefix("<w:p>", PPr(p.style) + (Concat(RunXmls(p.runs)) + ("</w:p>" + rest)));
  }

  lemma ParasXmlCons(ps: seq<Paragraph>, rest: string)
    requires ps != []
    ensures ParasXml(ps) + rest == ParaXml(ps[0]) + (ParasXml(ps[1..]) + rest)
  {
    ConcatCons(ParaXml(ps[0]), ParaXmls(ps[1..]));
    Assoc(ParaXml(ps[0]), ParasXml(ps[1..]), rest);
  }

  /** The first paragraph of a non-empty sequence reads back first. */
  lemma ParasXmlHead(ps: seq<Paragraph>, rest: string)
    requires ps != [] && StyleOk(ps[0].style)
    ensures StartsAt(ParasXml(ps) + rest, "<w:p>", 0)
    ensures DecodePara(ParasXml(ps) + rest) == Some((ps[0], ParasXml(ps[1..]) + rest))
  {
    var m := ParasXml(ps[1..]) + rest;
    ParasXmlCons(ps, rest);
    ParaXmlStart(ps[0], m);
    DecodeParaOf(ps[0], m);
  }

  lemma StylesOkTail(ps: seq<Paragraph>)
    requires ps != [] && StylesOk(ps)
    ensures StyleOk(ps[0].style) && StylesOk(ps[1..])
  {
    forall k | 0 <= k < |ps| - 1 ensures StyleOk(ps[1..][k].style) {
      assert ps[1..][k] == ps[k + 1];
    }
  }

  /** A sequence of paragraphs reads back as those paragraphs, in order. */
  lemma {:induction false} DecodeParasOf(ps: seq<Paragraph>, rest: string)
    requires StylesOk(ps)
    requires !StartsAt(rest, "<w:p>", 0)
    ensures DecodeParas(ParasXml(ps) + rest) == Some((ps, rest))
  {
    if ps == [] {
      assert ParasXml(ps) + rest == rest;
    } else {
      StylesOkTail(ps);
      ParasXmlHead(ps, rest);
      DecodeParasOf(ps[1..], rest);
      assert [ps[0]] + ps[1..] == ps;
    }
  }

  lemma {:induction false} ParaXmlsAppend(a: seq<Paragraph>, b: seq<Paragraph>)
    ensures ParaXmls(a + b) == ParaXmls(a) + ParaXmls(b)
  {
    if a == [] {
      assert a + b == b;
    } else {
      assert (a + b)[1..] == a[1..] + b;
      ParaXmlsAppend(a[1..], b);
    }
  }

  lemma ParasXmlAppend(a: seq<Paragraph>, b: seq<Paragraph>)
    ensures ParasXml(a + b) == ParasXml(a) + ParasXml(b)
  {
    ParaXmlsAppend(a, b);
    ConcatAppend(ParaXmls(a), ParaXmls(b));
  }

  lemma {:induction false} BlockXmlsParas(bs: seq<Blocks.Block>)
    ensures Concat(BlockXmls(bs)) == ParasXml(BlocksParas(bs))
  {
    if bs != [] {
      ConcatCons(BlockXml(bs[0]), BlockXmls(bs[1..]));
      BlockXmlsParas(bs[1..]);
      ParasXmlAppend(BlockParas(bs[0]), BlocksParas(bs[1..]));
    }
  }

  /** The body pieces are the markup of the document's paragraphs. */
  lemma BodyPartsParas(blocks: seq<Blocks.Block>, title: string)
    ensures Concat(BodyParts(blocks, title)) == ParasXml(DocParas(blocks, title))
  {
    var front := [TitlePara(title), EmptyPara];
    var xs := [ParaXml(TitlePara(title)), ParaXml(EmptyPara)];
    assert ParaXmls(front) == xs by {
      assert front[1..][1..] == [];
    }
    calc {
      Concat(BodyParts(blocks, title));
    ==  { ConcatAppend(xs, BlockXmls(blocks)); }
      Concat(xs) + Concat(BlockXmls(blocks));
    ==  { BlockXmlsParas(blocks); }
      ParasXml(front) + ParasXml(BlocksParas(blocks));
    ==  { ParasXmlAppend(front, BlocksParas(blocks)); }
      ParasXml(DocParas(blocks, title));
    }
  }

  lemma StylesOkAppend(a: seq<Paragraph>, b: seq<Paragraph>)
    requires StylesOk(a) && StylesOk(b)
    ensures StylesOk(a + b)
  {
    forall k | 0 <= k < |a + b| ensures StyleOk((a + b)[k].style) {
      if k >= |a| {
        assert (a + b)[k] == b[k - |a|];
      }
    }
  }

  lemma BlockStylesOk(b: Blocks.Block)
    ensures StylesOk(BlockParas(b))
  {
    if b.Heading? {
      var st := HeadingStyle(b.level);
      assert st[7] == Digit(Clamp(b.level));
      assert '"' !in st;
    }
  }

  lemma {:induction false} BlocksStylesOk(bs: seq<Blocks.Block>)
    ensures StylesOk(BlocksParas(bs))
  {
    if bs != [] {
      BlockStylesOk(bs[0]);
      BlocksStylesOk(bs[1..]);
      StylesOkAppend(BlockParas(bs[0]), BlocksParas(bs[1..]));
    }
  }

  lemma DocStylesOk(blocks: seq<Blocks.Block>, title: string)
    ensures StylesOk(DocParas(blocks, title))
  {
    BlocksStylesOk(blocks);
    StylesOkAppend([TitlePara(title), EmptyPara], BlocksParas(blocks));
  }

  lemma SectNotPara()
    ensures !StartsAt(Sect + Tail, "<w:p>", 0)
  {
    Starts("<w:sectPr>", Sect[10..] + Tail, "<w:p>", 3);
    assert Sect == "<w:sectPr>" + Sect[10..];
    Assoc("<w:sectPr>", Sect[10..], Tail);
  }

  /**
   * The generated document reads back as exactly the paragraphs `DocParas`
   * describes: the title, the empty paragraph, then each block's paragraphs,
   * each with its style and its runs, followed by the section properties.
   */
  lemma DocumentRoundTrip(blocks: seq<Blocks.Block>, title: string)
    ensures DecodeDocument(DocumentXml(blocks, title)) == Some(DocParas(blocks, title))
  {
    DocumentXmlSplit(blocks, title);
    DocStylesOk(blocks, title);
    DecodeDocumentOf(DocParas(blocks, title));
  }

  /** Any paragraphs the markup can carry, framed as a document, read back. */
  lemma DecodeDocumentOf(ps: seq<Paragraph>)
    requires StylesOk(ps)
    ensures DecodeDocument(Head + (ParasXml(ps) + (Sect + Tail))) == Some(ps)
  {
    SectNotPara();
    DecodeParasOf(ps, Sect + Tail);
    ExpectConcat(Head, ParasXml(ps) + (Sect + Tail));
    ExpectConcat(Sect, Tail);
  }


  lemma DocumentXmlSplit(blocks: seq<Blocks.Block>, title: string)
    ensures DocumentXml(blocks, title) == Head + (ParasXml(DocParas(blocks, title)) + (Sect + Tail))
  {
    var x := ParasXml(DocParas(blocks, title));
    BodyPartsParas(blocks, title);
    Assoc(x, Sect, Tail);
    Assoc(Head, x + Sect, Tail);
  }


  // ---------------------------------------------------------------------
  // What the document says about each block

  /** The style of a heading names its level, clamped to 1..6. */
  lemma HeadingStyleSpec(level: int)
    ensures |HeadingStyle(level)| == 8 && HeadingStyle(level)[..7] == "Heading"
    ensures '1' <= HeadingStyle(level)[7] <= '6'
    ensures 1 <= level <= 6 ==> HeadingStyle(level)[7] == Digit(level)
    ensures level < 1 ==> HeadingStyle(level) == "Heading1"
    ensures level > 6 ==> HeadingStyle(level) == "Heading6"
  {
  }

  /** The parser's headings never need the clamp: each gets the style of its own level. */
  lemma ParsedHeadingStyles(md: string)
    ensures forall b :: b in Blocks.ParseSpec(md) && b.Heading? ==>
              1 <= b.level <= 6
              && BlockParas(b) == [Paragraph(Tokenize(b.text), Some("Heading" + [Digit(b.level)]))]
  {
    var bs := Blocks.ParseSpec(md);
    Blocks.ParsedHeadingsBounded(md);
    forall b | b in bs && b.Heading?
      ensures 1 <= b.level <= 6
              && BlockParas(b) == [Paragraph(Tokenize(b.text), Some("Heading" + [Digit(b.level)]))]
    {
      var k :| 0 <= k < |bs| && bs[k] == b;
      assert 1 <= b.level <= 6;
    }
  }

  /**
   * A code block becomes one `Code` paragraph per line, at least one even for
   * empty text, each a single code-font run holding a line without its break.
   */
  lemma CodeParasSpec(text: string)
    ensures |CodeParas(text)| == if text == [] then 1 else |SplitLines(text)|
    ensures forall k :: 0 <= k < |CodeParas(text)| ==>
              CodeParas(text)[k].style == Some("Code")
              && |CodeParas(text)[k].runs| == 1
              && CodeParas(text)[k].runs[0].code && !CodeParas(text)[k].runs[0].bold
              && CodeParas(text)[k].runs[0].text == CodeLines(text)[k]
              && NoLineBreak(CodeParas(text)[k].runs[0].text)
  {
    SplitLinesSpec(text);
    var lines := CodeLines(text);
    forall k | 0 <= k < |lines| ensures NoLineBreak(lines[k]) {
      if SplitLines(text) == [] {
        assert lines[k] == "";
      }
    }
  }

  /**
   * The lines of a fenced block come back out of the code block one per
   * paragraph, except that a final empty line is lost when other lines
   * precede it (`splitlines` drops it after the joining "\n").
   */
  lemma CodeBlockLines(lines: seq<string>)
    requires |lines| > 0
    requires NoLineBreaks(lines)
    ensures CodeLines(Join(lines)) ==
            if |lines| > 1 && lines[|lines| - 1] == [] then lines[..|lines| - 1] else lines
  {
    SplitLinesOfJoin(lines);
    if |lines| > 1 && lines[|lines| - 1] == [] {
      assert lines[..|lines| - 1][0] == lines[0];
      if |lines| == 2 {
        assert lines[..|lines| - 1] == [lines[0]];
      }
      assert lines[..|lines| - 1] != [];
    } else if lines[|lines| - 1] == [] {
      assert lines == [""];
    }
  }

  // ---------------------------------------------------------------------
  // The converter's functions

  /** The run properties as `_w_p` assembles them from a list of bits. */
  lemma RPrBits(r: Run, bits: seq<string>)
    requires bits == (if r.bold then [Bold] else []) + (if r.code then [Consolas] else [])
    ensures (if bits != [] then "<w:rPr>" + Concat(bits) + "</w:rPr>" else "") == RPr(r)
  {
    ConcatCons(Consolas, []);
    ConcatCons(Bold, []);
    if r.bold && r.code {
      assert bits == [Bold] + [Consolas];
      ConcatCons(Bold, [Consolas]);
    } else if r.bold {
      assert bits == [Bold] + [];
    } else if r.code {
      assert bits == [Consolas] + [];
    }
  }


  lemma {:induction false} RunXmlsSnoc(rs: seq<Run>, k: nat)
    requires k < |rs|
    ensures RunXmls(rs[..k + 1]) == RunXmls(rs[..k]) + [RunXml(rs[k])]
  {
    if k > 0 {
      assert rs[..k + 1][1..] == rs[1..][..k];
      assert rs[..k][1..] == rs[1..][..k - 1];
      RunXmlsSnoc(rs[1..], k - 1);
    }
  }

  lemma {:induction false} ParaXmlsSnoc(ps: seq<Paragraph>, k: nat)
    requires k < |ps|
    ensures ParaXmls(ps[..k + 1]) == ParaXmls(ps[..k]) + [ParaXml(ps[k])]
  {
    if k > 0 {
      assert ps[..k + 1][1..] == ps[1..][..k];
      assert ps[..k][1..] == ps[1..][..k - 1];
      ParaXmlsSnoc(ps[1..], k - 1);
    }
  }

  lemma {:induction false} BlockXmlsSnoc(bs: seq<Blocks.Block>, k: nat)
    requires k < |bs|
    ensures BlockXmls(bs[..k + 1]) == BlockXmls(bs[..k]) + [BlockXml(bs[k])]
  {
    if k > 0 {
      assert bs[..k + 1][1..] == bs[1..][..k];
      assert bs[..k][1..] == bs[1..][..k - 1];
      BlockXmlsSnoc(bs[1..], k - 1);
    }
  }

  lemma SnocAssoc(a: seq<string>, b: seq<string>, c: string)
    ensures (a + b) + [c] == a + (b + [c])
  {
  }

  /** A block other than code is one paragraph. */
  lemma SingleBlockXml(b: Blocks.Block)
    requires !b.Code?
    ensures |BlockParas(b)| == 1
    ensures BlockXml(b) == ParaXml(BlockParas(b)[0])
  {
    var p := BlockParas(b)[0];
    assert [p][1..] == [];
    assert ParaXmls([p]) == [ParaXml(p)];
    ConcatCons(ParaXml(p), []);
  }

  /** `_w_p`: one `w:p`, with a style reference when a style is given, and one `w:r` per run. */
  method WP(runs: seq<Run>, style: Option<string>) returns (xml: string)
    ensures xml == ParaXml(Paragraph(runs, style))
  {
    var ppr := "";
    if style.Some? && style.value != [] {
      ppr := StyleOpen + Escape(style.value) + StyleClose;
    }
    var rXml: seq<string> := [];
    for k := 0 to |runs|
      invariant rXml == RunXmls(runs[..k])
    {
      var run := runs[k];
      var bits: seq<string> := [];
      if run.bold {
        bits := bits + [Bold];
      }
      if run.code {
        bits := bits + [Consolas];
      }
      var rpr := if bits != [] then "<w:rPr>" + Concat(bits) + "</w:rPr>" else "";
      RPrBits(run, bits);
      var text := Escape(run.text);
      var spaceAttr := if NeedsPreserve(run.text) then Preserve else "";
      RunXmlsSnoc(runs, k);
      rXml := rXml + ["<w:r>" + rpr + "<w:t" + spaceAttr + ">" + text + TextClose];
    }
    assert runs[..|runs|] == runs;
    xml := "<w:p>" + ppr + Concat(rXml) + "</w:p>";
  }

  /** `_w_code_block`: one `Code` paragraph per line of the text, or one empty one. */
  method WCodeBlock(text: string) returns (xml: string)
    ensures xml == ParasXml(CodeParas(text))
  {
    var lines := SplitLines(text);
    if lines == [] {
      lines := [""];
    }
    var paras: seq<string> := [];
    for k := 0 to |lines|
      invariant paras == ParaXmls(CodeParas(text)[..k])
    {
      var p := WP([Run(lines[k], false, true)], Some("Code"));
      ParaXmlsSnoc(CodeParas(text), k);
      paras := paras + [p];
    }
    assert CodeParas(text)[..|lines|] == CodeParas(text);
    xml := Concat(paras);
  }

  /** The body of the block loop of `build_document_xml`: the markup of one block. */
  method WBlock(b: Blocks.Block) returns (part: string)
    ensures part == BlockXml(b)
  {
    match b {
      case Blank =>
        part := WP([Plain("")], None);
        SingleBlockXml(b);
      case Heading(text, level) =>
        var runs := ParseInlineRuns(text);
        part := WP(runs, Some("Heading" + [Digit(Clamp(level))]));
        SingleBlockXml(b);
      case Bullet(text) =>
        var runs := ParseInlineRuns(BulletMark + text);
        part := WP(runs, None);
        SingleBlockXml(b);
      case Para(text) =>
        var runs := ParseInlineRuns(text);
        part := WP(runs, None);
        SingleBlockXml(b);
      case Code(text) =>
        part := WCodeBlock(text);
    }
  }

  /**
   * `build_document_xml`: the title paragraph, an empty paragraph, the
   * paragraphs of each block, the section properties, all inside the
   * `w:document` and `w:body` elements.
   */
  method BuildDocumentXml(blocks: seq<Blocks.Block>, title: string) returns (xml: string)
    ensures xml == DocumentXml(blocks, title)
  {
    var t := WP([Run(title, true, false)], Some("Title"));
    var e := WP([Plain("")], None);
    var bodyParts := [t, e];
    for k := 0 to |blocks|
      invariant bodyParts == [t, e] + BlockXmls(blocks[..k])
    {
      var part := WBlock(blocks[k]);
      BlockXmlsSnoc(blocks, k);
      SnocAssoc([t, e], BlockXmls(blocks[..k]), part);
      bodyParts := bodyParts + [part];
    }
    assert bodyParts == BodyParts(blocks, title) by {
      assert blocks[..|blocks|] == blocks;
    }
    var body := Concat(bodyParts) + Sect;
    xml := Head + body + Tail;
  }
}
