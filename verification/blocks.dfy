/**
 * The block parser of the Markdown-subset converter: the text is split into
 * lines, each line is classified (fence toggle, fenced line, blank, heading,
 * bullet, paragraph, in that order of priority), and runs of consecutive
 * blank blocks are finally collapsed into one.
 */
module Blocks {
  import opened Text

  /** One block of the parsed document; only a heading carries a level. */
  datatype Block =
    | Heading(text: string, level: int)
    | Para(text: string)
    | Bullet(text: string)
    | Code(text: string)
    | Blank

  /** What the line loop carries: blocks so far, the fence flag, the fenced lines collected. */
  datatype ParseState = ParseState(blocks: seq<Block>, inCode: bool, codeLines: seq<string>)

  const Start := ParseState([], false, [])

  /** Every line the loop sees is free of "\n" (they come out of `splitlines`). */
  predicate LinesOk(lines: seq<string>) {
    forall k :: 0 <= k < |lines| ==> '\n' !in lines[k]
  }

  /** A line whose stripped form starts with three backticks opens or closes a fence. */
  predicate IsFence(line: string) {
    StartsAt(Strip(line), "```", 0)
  }

  function Hashes(n: nat): (s: string)
    ensures |s| == n && forall k :: 0 <= k < n ==> s[k] == '#'
  {
    seq(n, _ => '#')
  }

  /** Number of '#' characters at the front of `s`. */
  function HashRun(s: string): (n: nat)
    ensures n <= |s|
    ensures forall k :: 0 <= k < n ==> s[k] == '#'
    ensures n == |s| || s[n] != '#'
  {
    if |s| > 0 && s[0] == '#' then 1 + HashRun(s[1..]) else 0
  }

  /**
   * The heading pattern `^(#{1,6})\s+(.*)$` on a line without "\n": the
   * number of hashes of group 1 and the text of group 2.  A longer run of
   * hashes cannot match, since a shorter group 1 would be followed by '#'.
   */
  function MatchHeading(line: string): Option<(nat, string)>
    requires '\n' !in line
  {
    var n := HashRun(line);
    if 1 <= n <= 6 && n < |line| && IsSpace(line[n]) then
      var rest := line[n..];
      Some((n, rest[LeadingSpaces(rest)..]))
    else None
  }

  /** The bullet pattern `^\s*-\s+(.*)$` on a line without "\n": group 1. */
  function MatchBullet(line: string): Option<string>
    requires '\n' !in line
  {
    var k := LeadingSpaces(line);
    if k + 1 < |line| && line[k] == '-' && IsSpace(line[k + 1]) then
      var rest := line[k + 1..];
      Some(rest[LeadingSpaces(rest)..])
    else None
  }

  /** The block a line outside a fence becomes: blank, then heading, bullet, paragraph. */
  function Classify(line: string): Block
    requires '\n' !in line
  {
    if Strip(line) == [] then Blank
    else match MatchHeading(line)
      case Some((n, g)) => Heading(Strip(g), n)
      case None =>
        match MatchBullet(line)
        case Some(g) => Bullet(Strip(g))
        case None => Para(Strip(line))
  }

  /** One iteration of the line loop (stripping a trailing "\n" is the identity here). */
  function ScanStep(st: ParseState, line: string): ParseState
    requires '\n' !in line
  {
    if IsFence(line) then
      if st.inCode then ParseState(st.blocks + [Code(Join(st.codeLines))], false, [])
      else st.(inCode := true)
    else if st.inCode then st.(codeLines := st.codeLines + [line])
    else st.(blocks := st.blocks + [Classify(line)])
  }

  /** The line loop run from `st` over `lines`. */
  function ScanFrom(st: ParseState, lines: seq<string>): ParseState
    requires LinesOk(lines)
  {
    if lines == [] then st
    else ScanStep(ScanFrom(st, lines[..|lines| - 1]), lines[|lines| - 1])
  }

  /** After the loop: a fence left open keeps its lines only if it collected some. */
  function Finish(st: ParseState): seq<Block> {
    if st.inCode && st.codeLines != [] then st.blocks + [Code(Join(st.codeLines))]
    else st.blocks
  }

  /** The collapsing loop: a blank block is dropped when the last one kept is blank. */
  function Collapse(bs: seq<Block>): seq<Block> {
    if bs == [] then []
    else
      var prev := Collapse(bs[..|bs| - 1]);
      var b := bs[|bs| - 1];
      if b.Blank? && |prev| > 0 && prev[|prev| - 1].Blank? then prev else prev + [b]
  }

  lemma SplitLinesOk(md: string)
    ensures LinesOk(SplitLines(md))
  {
    var lines := SplitLines(md);
    SplitLinesSpec(md);
    forall k | 0 <= k < |lines| ensures '\n' !in lines[k] {
      NoLineBreakHasNoNewline(lines[k]);
    }
  }

  /** What the converter's parser returns for the text `md`. */
  function ParseSpec(md: string): seq<Block> {
    var lines := SplitLines(md);
    SplitLinesOk(md);
    Collapse(Finish(ScanFrom(Start, lines)))
  }

  predicate NoAdjacentBlanks(bs: seq<Block>) {
    forall k :: 0 <= k < |bs| - 1 ==> !(bs[k].Blank? && bs[k + 1].Blank?)
  }

  predicate HeadingsBounded(bs: seq<Block>) {
    forall k :: 0 <= k < |bs| && bs[k].Heading? ==> 1 <= bs[k].level <= 6
  }

  /** The blocks of `bs` that are not blank, in order. */
  function NonBlanks(bs: seq<Block>): seq<Block> {
    if bs == [] then []
    else NonBlanks(bs[..|bs| - 1]) + (if bs[|bs| - 1].Blank? then [] else [bs[|bs| - 1]])
  }

  /** The line loop over one more line takes one more step. */
  lemma ScanFromSnoc(lines: seq<string>, idx: nat)
    requires LinesOk(lines) && idx < |lines|
    ensures LinesOk(lines[..idx]) && LinesOk(lines[..idx + 1]) && '\n' !in lines[idx]
    ensures ScanFrom(Start, lines[..idx + 1]) == ScanStep(ScanFrom(Start, lines[..idx]), lines[idx])
  {
    assert lines[..idx + 1][..idx] == lines[..idx];
  }

  /**
   * One pass of the line loop: a fence line toggles the fence (closing it
   * emits the collected lines as one code block), a line inside a fence is
   * collected, any other line is classified.
   */
  method ParseLine(blocks: seq<Block>, inCode: bool, codeLines: seq<string>, line: string)
    returns (blocks': seq<Block>, inCode': bool, codeLines': seq<string>)
    requires '\n' !in line
    ensures ParseState(blocks', inCode', codeLines') == ScanStep(ParseState(blocks, inCode, codeLines), line)
  {
    blocks', inCode', codeLines' := blocks, inCode, codeLines;
    if IsFence(line) {
      if inCode {
        blocks' := blocks + [Code(Join(codeLines))];
        codeLines' := [];
        inCode' := false;
      } else {
        inCode' := true;
      }
      return;
    }
    if inCode {
      codeLines' := codeLines + [line];
      return;
    }
    if Strip(line) == [] {
      blocks' := blocks + [Blank];
      return;
    }
    var heading := MatchHeading(line);
    if heading.Some? {
      blocks' := blocks + [Heading(Strip(heading.value.1), heading.value.0)];
      return;
    }
    var bullet := MatchBullet(line);
    if bullet.Some? {
      blocks' := blocks + [Bullet(Strip(bullet.value))];
      return;
    }
    blocks' := blocks + [Para(Strip(line))];
  }

  /** The collapsing loop: a blank block is kept only when the last block kept is not blank. */
  method CollapseBlanks(blocks: seq<Block>) returns (collapsed: seq<Block>)
    ensures collapsed == Collapse(blocks)
    ensures NoAdjacentBlanks(collapsed)
  {
    collapsed := [];
    for idx := 0 to |blocks|
      invariant collapsed == Collapse(blocks[..idx])
    {
      var b := blocks[idx];
      assert blocks[..idx + 1][..idx] == blocks[..idx];
      if b.Blank? && |collapsed| > 0 && collapsed[|collapsed| - 1].Blank? {
        continue;
      }
      collapsed := collapsed + [b];
    }
    assert blocks[..|blocks|] == blocks;
    CollapseNoAdjacentBlanks(blocks);
  }

  /**
   * The parser: a loop over the lines that updates the block list, the fence
   * flag and the fenced-line buffer, then a loop that collapses blank runs.
   */
  method ParseMarkdown(md: string) returns (collapsed: seq<Block>)
    ensures collapsed == ParseSpec(md)
    ensures NoAdjacentBlanks(collapsed)
    ensures HeadingsBounded(collapsed)
  {
    var lines := SplitLines(md);
    SplitLinesOk(md);
    var blocks: seq<Block> := [];
    var inCode := false;
    var codeLines: seq<string> := [];

    for idx := 0 to |lines|
      invariant ParseState(blocks, inCode, codeLines) == ScanFrom(Start, lines[..idx])
    {
      ScanFromSnoc(lines, idx);
      blocks, inCode, codeLines := ParseLine(blocks, inCode, codeLines, lines[idx]);
    }
    assert lines[..|lines|] == lines;
    if inCode && codeLines != [] {
      blocks := blocks + [Code(Join(codeLines))];
    }
    collapsed := CollapseBlanks(blocks);
    ParsedHeadingsBounded(md);
  }

  /** Every heading the parser returns has a level from 1 to 6. */
  lemma ParsedHeadingsBounded(md: string)
    ensures HeadingsBounded(ParseSpec(md))
  {
    var lines := SplitLines(md);
    SplitLinesOk(md);
    var bs := Finish(ScanFrom(Start, lines));
    ScanHeadingsBounded(Start, lines);
    CollapseElements(bs);
    var c := Collapse(bs);
    forall k | 0 <= k < |c| && c[k].Heading? ensures 1 <= c[k].level <= 6 {
      assert c[k] in bs;
      var j :| 0 <= j < |bs| && bs[j] == c[k];
    }
  }

  // ---------------------------------------------------------------------
  // Collapsing blank runs

  lemma {:induction false} CollapseNoAdjacentBlanks(bs: seq<Block>)
    ensures NoAdjacentBlanks(Collapse(bs))
  {
    if bs != [] {
      CollapseNoAdjacentBlanks(bs[..|bs| - 1]);
    }
  }

  /** Collapsing neither drops, reorders nor alters a block that is not blank. */
  lemma {:induction false} CollapseKeepsNonBlanks(bs: seq<Block>)
    ensures NonBlanks(Collapse(bs)) == NonBlanks(bs)
  {
    if bs != [] {
      var init := bs[..|bs| - 1];
      var prev := Collapse(init);
      var b := bs[|bs| - 1];
      CollapseKeepsNonBlanks(init);
      if b.Blank? && |prev| > 0 && prev[|prev| - 1].Blank? {
      } else {
        assert (prev + [b])[..|prev + [b]| - 1] == prev;
      }
    }
  }

  /** Every block kept was in the input, and a blank run is kept as one blank, never dropped. */
  lemma {:induction false} CollapseElements(bs: seq<Block>)
    ensures forall b :: b in Collapse(bs) ==> b in bs
    ensures Blank in bs ==> Blank in Collapse(bs)
    ensures |bs| > 0 ==> |Collapse(bs)| > 0 && Collapse(bs)[|Collapse(bs)| - 1].Blank? == bs[|bs| - 1].Blank?
  {
    if bs != [] {
      var init := bs[..|bs| - 1];
      CollapseElements(init);
      assert bs == init + [bs[|bs| - 1]];
    }
  }

  /** Input that has no two adjacent blanks comes out unchanged. */
  lemma {:induction false} CollapseIdentity(bs: seq<Block>)
    requires NoAdjacentBlanks(bs)
    ensures Collapse(bs) == bs
  {
    if bs != [] {
      var init := bs[..|bs| - 1];
      assert NoAdjacentBlanks(init);
      CollapseIdentity(init);
      if |init| > 0 {
        assert !(init[|init| - 1].Blank? && bs[|bs| - 1].Blank?);
      }
      assert init + [bs[|bs| - 1]] == bs;
    }
  }

  // ---------------------------------------------------------------------
  // Classifying one line

  lemma {:induction false} LeadingSpacesOfSpaces(a: string, b: string)
    requires AllSpace(a)
    ensures LeadingSpaces(a + b) == |a| + LeadingSpaces(b)
  {
    if a != [] {
      assert (a + b)[1..] == a[1..] + b;
      LeadingSpacesOfSpaces(a[1..], b);
    } else {
      assert a + b == b;
    }
  }

  lemma StripOfSpaces(a: string, b: string)
    requires AllSpace(a)
    ensures Strip(a + b) == Strip(b)
  {
    LeadingSpacesOfSpaces(a, b);
    assert (a + b)[|a| + LeadingSpaces(b)..] == b[LeadingSpaces(b)..];
  }

  lemma StripAfterLeading(s: string)
    ensures Strip(s[LeadingSpaces(s)..]) == Strip(s)
  {
    var n := LeadingSpaces(s);
    var front, back := s[..n], s[n..];
    assert AllSpace(front) by {
      LeadingSpacesSpec(s);
    }
    calc {
      Strip(s);
    ==  { assert s == front + back; }
      Strip(front + back);
    ==  { StripOfSpaces(front, back); }
      Strip(back);
    }
  }

  /**
   * One to six hashes, whitespace, then anything: a heading whose level is
   * the number of hashes and whose text is the rest, stripped.
   */
  lemma HeadingLine(n: nat, ws: string, rest: string)
    requires 1 <= n <= 6
    requires |ws| > 0 && AllSpace(ws)
    requires '\n' !in ws + rest
    ensures '\n' !in Hashes(n) + ws + rest
    ensures Classify(Hashes(n) + ws + rest) == Heading(Strip(rest), n)
  {
    var line := Hashes(n) + ws + rest;
    assert line[0] == '#';
    assert line[n] == ws[0];
    assert HashRun(line) == n;
    StripSpec(line);
    assert !AllSpace(line);
    var tail := line[n..];
    assert tail == ws + rest;
    StripAfterLeading(tail);
    StripOfSpaces(ws, rest);
  }

  /**
   * Seven or more hashes, or hashes not followed by whitespace: not a
   * heading, and (since the line starts with '#') not a bullet either.
   */
  lemma HashesWithoutHeading(n: nat, rest: string)
    requires n >= 1
    requires n >= 7 || rest == [] || (rest[0] != '#' && !IsSpace(rest[0]))
    requires '\n' !in rest
    ensures '\n' !in Hashes(n) + rest
    ensures Classify(Hashes(n) + rest) == Para(Strip(Hashes(n) + rest))
  {
    var line := Hashes(n) + rest;
    assert line[0] == '#';
    StripSpec(line);
    assert !AllSpace(line);
    assert LeadingSpaces(line) == 0;
    if n < 7 {
      if rest != [] {
        assert line[n] == rest[0];
      }
      assert HashRun(line) == n;
    } else {
      assert line[6] == '#';
    }
  }

  /** A line with a non-whitespace character is not blank. */
  lemma NotBlank(line: string, i: nat)
    requires i < |line| && !IsSpace(line[i])
    ensures Strip(line) != []
  {
    StripSpec(line);
    assert !AllSpace(line);
  }

  /** What the bullet pattern captures on optional whitespace, '-', whitespace, then anything. */
  lemma BulletMatch(lead: string, ws: string, rest: string)
    requires AllSpace(lead)
    requires |ws| > 0 && IsSpace(ws[0])
    requires '\n' !in lead + "-" + ws + rest
    ensures MatchBullet(lead + "-" + ws + rest) == Some((ws + rest)[LeadingSpaces(ws + rest)..])
  {
    var line := lead + "-" + ws + rest;
    var t := "-" + ws + rest;
    assert t[0] == '-' && t[1] == ws[0] && t[1..] == ws + rest;
    assert line == lead + t;
    assert LeadingSpaces(line) == |lead| by {
      LeadingSpacesOfSpaces(lead, t);
    }
    assert line[|lead|..] == t;
  }

  /** Optional whitespace, '-', whitespace, then anything: a bullet of the rest, stripped. */
  lemma BulletLine(lead: string, ws: string, rest: string)
    requires AllSpace(lead)
    requires |ws| > 0 && AllSpace(ws)
    requires '\n' !in lead + ws + rest
    ensures '\n' !in lead + "-" + ws + rest
    ensures Classify(lead + "-" + ws + rest) == Bullet(Strip(rest))
  {
    var line := lead + "-" + ws + rest;
    var tail := ws + rest;
    assert line[|lead|] == '-';
    NotBlank(line, |lead|);
    assert line[0] != '#';
    assert HashRun(line) == 0;
    BulletMatch(lead, ws, rest);
    calc {
      Strip(tail[LeadingSpaces(tail)..]);
    ==  { StripAfterLeading(tail); }
      Strip(tail);
    ==  { StripOfSpaces(ws, rest); }
      Strip(rest);
    }
  }

  /** A heading block always comes from a line of that many hashes then whitespace. */
  lemma HeadingShape(line: string)
    requires '\n' !in line
    requires Classify(line).Heading?
    ensures 1 <= Classify(line).level <= 6
    ensures Classify(line).level < |line| && IsSpace(line[Classify(line).level])
    ensures line[..Classify(line).level] == Hashes(Classify(line).level)
    ensures Classify(line).text == Strip(line[Classify(line).level..])
  {
    var n := HashRun(line);
    var rest := line[n..];
    var g := rest[LeadingSpaces(rest)..];
    assert Strip(line) != [];
    assert MatchHeading(line) == Some((n, g));
    assert Classify(line) == Heading(Strip(g), n);
    StripAfterLeading(rest);
  }

  // ---------------------------------------------------------------------
  // The line loop

  lemma {:induction false} ScanAppend(st: ParseState, a: seq<string>, b: seq<string>)
    requires LinesOk(a) && LinesOk(b)
    ensures LinesOk(a + b)
    ensures ScanFrom(st, a + b) == ScanFrom(ScanFrom(st, a), b)
  {
    if b == [] {
      assert a + b == a;
    } else {
      var b' := b[..|b| - 1];
      assert (a + b)[..|a + b| - 1] == a + b';
      ScanAppend(st, a, b');
    }
  }

  /** No line of `lines` is a fence line. */
  predicate NoFences(lines: seq<string>) {
    forall k :: 0 <= k < |lines| ==> !IsFence(lines[k])
  }

  /** The block of each line, in order. */
  function Classified(lines: seq<string>): (bs: seq<Block>)
    requires LinesOk(lines)
    ensures |bs| == |lines|
  {
    if lines == [] then []
    else Classified(lines[..|lines| - 1]) + [Classify(lines[|lines| - 1])]
  }

  /** The front of a list of lines keeps the properties of the whole list. */
  lemma InitLines(lines: seq<string>)
    requires lines != [] && LinesOk(lines)
    ensures LinesOk(lines[..|lines| - 1])
    ensures NoFences(lines) ==> NoFences(lines[..|lines| - 1]) && !IsFence(lines[|lines| - 1])
  {
  }

  /**
   * Outside a fence and without fence lines, each line adds exactly the one
   * block `Classify` gives it, in order.
   */
  lemma {:induction false} ScanPlainLines(st: ParseState, lines: seq<string>)
    requires LinesOk(lines)
    requires !st.inCode
    requires NoFences(lines)
    ensures ScanFrom(st, lines) == st.(blocks := st.blocks + Classified(lines))
  {
    if lines != [] {
      var init := lines[..|lines| - 1];
      InitLines(lines);
      ScanPlainLines(st, init);
      assert st.blocks + Classified(init) + [Classify(lines[|lines| - 1])]
          == st.blocks + Classified(lines);
    }
  }

  /** Inside a fence, lines other than a fence are collected verbatim and add no block. */
  lemma {:induction false} ScanCodeLines(st: ParseState, body: seq<string>)
    requires LinesOk(body)
    requires st.inCode
    requires NoFences(body)
    ensures ScanFrom(st, body) == st.(codeLines := st.codeLines + body)
  {
    if body != [] {
      var init := body[..|body| - 1];
      InitLines(body);
      ScanCodeLines(st, init);
      assert st.codeLines + init + [body[|body| - 1]] == st.codeLines + body;
    }
  }

  lemma LinesOkAppend(a: seq<string>, b: seq<string>)
    requires LinesOk(a) && LinesOk(b)
    ensures LinesOk(a + b)
  {
    forall k | 0 <= k < |a + b| ensures '\n' !in (a + b)[k] {
      if k >= |a| {
        assert (a + b)[k] == b[k - |a|];
      }
    }
  }

  lemma ScanOne(st: ParseState, line: string)
    requires '\n' !in line
    ensures LinesOk([line])
    ensures ScanFrom(st, [line]) == ScanStep(st, line)
  {
    assert [line][..0] == [];
  }

  /** Outside a fence the loop never holds collected lines. */
  predicate Settled(st: ParseState) {
    !st.inCode ==> st.codeLines == []
  }

  lemma {:induction false} ScanSettled(st: ParseState, lines: seq<string>)
    requires LinesOk(lines)
    requires Settled(st)
    ensures Settled(ScanFrom(st, lines))
  {
    if lines != [] {
      ScanSettled(st, lines[..|lines| - 1]);
    }
  }

  /** The loop started from the parser's initial state is settled after any lines. */
  lemma ParsedSettled(lines: seq<string>)
    requires LinesOk(lines)
    ensures Settled(ScanFrom(Start, lines))
  {
    ScanSettled(Start, lines);
  }

  /**
   * An opening fence, lines, a closing fence: the fences add nothing and the
   * lines become one code block, joined by "\n".  The start state need only
   * be settled, as every state the parser reaches is (`ParsedSettled`).
   */
  lemma FencedBlock(st: ParseState, open: string, body: seq<string>, close: string)
    requires !st.inCode && Settled(st)
    requires '\n' !in open && '\n' !in close && LinesOk(body)
    requires IsFence(open) && IsFence(close)
    requires NoFences(body)
    ensures LinesOk([open] + body + [close])
    ensures ScanFrom(st, [open] + body + [close])
            == ParseState(st.blocks + [Code(Join(body))], false, [])
  {
    var st1 := st.(inCode := true);
    assert ScanFrom(st, [open]) == st1 by { ScanOne(st, open); }
    LinesOkAppend([open], body);
    var x := ScanFrom(st, [open] + body);
    assert x == ScanFrom(st1, body) by { ScanAppend(st, [open], body); }
    assert ScanFrom(st1, body) == st1.(codeLines := st1.codeLines + body) by {
      ScanCodeLines(st1, body);
    }
    assert x == ParseState(st.blocks, true, body);
    ScanOne(x, close);
    LinesOkAppend([open] + body, [close]);
    assert ScanFrom(st, [open] + body + [close]) == ScanFrom(x, [close]) by {
      ScanAppend(st, [open] + body, [close]);
    }
  }

  /**
   * A fence still open at the end of the input keeps its lines as a last
   * code block only if there are some; otherwise nothing is added.  The
   * start state need only be settled (`ParsedSettled`).
   */
  lemma UnclosedFence(st: ParseState, open: string, body: seq<string>)
    requires !st.inCode && Settled(st)
    requires '\n' !in open && LinesOk(body)
    requires IsFence(open)
    requires NoFences(body)
    ensures LinesOk([open] + body)
    ensures Finish(ScanFrom(st, [open] + body))
            == st.blocks + (if body == [] then [] else [Code(Join(body))])
  {
    var st1 := st.(inCode := true);
    assert ScanFrom(st, [open]) == st1 by { ScanOne(st, open); }
    LinesOkAppend([open], body);
    var x := ScanFrom(st, [open] + body);
    assert x == ScanFrom(st1, body) by { ScanAppend(st, [open], body); }
    assert ScanFrom(st1, body) == st1.(codeLines := st1.codeLines + body) by {
      ScanCodeLines(st1, body);
    }
    assert x == ParseState(st.blocks, true, body);
  }

  lemma {:induction false} ScanHeadingsBounded(st: ParseState, lines: seq<string>)
    requires LinesOk(lines)
    requires HeadingsBounded(st.blocks)
    ensures HeadingsBounded(ScanFrom(st, lines).blocks)
    ensures HeadingsBounded(Finish(ScanFrom(st, lines)))
  {
    if lines != [] {
      var init := lines[..|lines| - 1];
      ScanHeadingsBounded(st, init);
    }
  }
}
