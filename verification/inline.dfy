/**
 * The inline tokenizer: a scan that splits a paragraph's text into plain,
 * `**bold**` and `` `code` `` runs, followed by a pass that drops empty runs
 * and merges adjacent plain runs.
 *
 * As written, the scan never advances past an opener that has no closer
 * (`Step` returns the index it was given, `StallIsFixedPoint`), so the
 * converter loops forever on such text.  `NeverStalls` says when the written
 * scan ends and `RawRuns` is what it then produces; `FixedStep` takes an
 * unmatched opener as literal text, always advances, and agrees with the
 * written scan wherever that one ends (`FixedAgrees`).
 */
module Inline {
  import opened Text

  datatype Run = Run(text: string, bold: bool, code: bool)

  function Plain(t: string): Run {
    Run(t, false, false)
  }

  predicate IsPlain(r: Run) {
    !r.bold && !r.code
  }

  // ---------------------------------------------------------------------
  // The two delimiters

  /** `text.startswith("**", i)`. */
  predicate BoldAt(text: string, i: nat) {
    i + 1 < |text| && text[i] == '*' && text[i + 1] == '*'
  }

  /** `text.startswith("`", i)`. */
  predicate TickAt(text: string, i: nat) {
    i < |text| && text[i] == '`'
  }

  /** `text.find("**", start)`. */
  function FindBold(text: string, start: nat): (r: int)
    decreases |text| - start
    ensures r == -1 || (start <= r && BoldAt(text, r))
  {
    if start + 1 >= |text| then -1
    else if BoldAt(text, start) then start
    else FindBold(text, start + 1)
  }

  /** `text.find("`", start)`. */
  function FindTick(text: string, start: nat): (r: int)
    decreases |text| - start
    ensures r == -1 || (start <= r && TickAt(text, r))
  {
    if start >= |text| then -1
    else if TickAt(text, start) then start
    else FindTick(text, start + 1)
  }

  /** `find` returns the first occurrence: none lies between `start` and the result. */
  lemma {:induction false} FindBoldSpec(text: string, start: nat)
    decreases |text| - start
    ensures forall k: nat :: start <= k && (FindBold(text, start) == -1 || k < FindBold(text, start))
                             ==> !BoldAt(text, k)
  {
    if start + 1 < |text| && !BoldAt(text, start) {
      FindBoldSpec(text, start + 1);
    }
  }

  lemma {:induction false} FindTickSpec(text: string, start: nat)
    decreases |text| - start
    ensures forall k: nat :: start <= k && (FindTick(text, start) == -1 || k < FindTick(text, start))
                             ==> !TickAt(text, k)
  {
    if start < |text| && !TickAt(text, start) {
      FindTickSpec(text, start + 1);
    }
  }

  /** The first "**" or backtick at or after `i`, or `|text|` when there is none. */
  function NextMarker(text: string, i: nat): (j: nat)
    requires i <= |text|
    ensures i <= j <= |text|
    ensures i < |text| ==> (j == i <==> BoldAt(text, i) || TickAt(text, i))
  {
    var a := FindBold(text, i);
    var b := FindTick(text, i);
    if a == -1 && b == -1 then |text|
    else if a == -1 then b
    else if b == -1 then a
    else if a < b then a else b
  }

  /** The plain stretch from `i` runs up to the nearest marker and holds none. */
  lemma NextMarkerSpec(text: string, i: nat)
    requires i <= |text|
    ensures var j := NextMarker(text, i);
            (j < |text| ==> BoldAt(text, j) || TickAt(text, j))
            && (forall k: nat :: i <= k < j ==> !BoldAt(text, k) && !TickAt(text, k))
  {
    FindBoldSpec(text, i);
    FindTickSpec(text, i);
  }

  // ---------------------------------------------------------------------
  // The scan as written and as corrected

  /** At `i` stands an opener whose closer is missing. */
  predicate Stalls(text: string, i: nat) {
    (BoldAt(text, i) && FindBold(text, i + 2) == -1)
    || (TickAt(text, i) && FindTick(text, i + 1) == -1)
  }

  /**
   * One iteration of the scan as written: the run appended and the next
   * index.  The index stays put exactly when an opener has no closer.
   */
  function Step(text: string, i: nat): (r: (Run, nat))
    requires i < |text|
    ensures i <= r.1 <= |text|
    ensures r.1 == i <==> Stalls(text, i)
  {
    if BoldAt(text, i) && FindBold(text, i + 2) != -1 then
      var j := FindBold(text, i + 2);
      (Run(text[i + 2..j], true, false), j + 2)
    else if TickAt(text, i) && FindTick(text, i + 1) != -1 then
      var j := FindTick(text, i + 1);
      (Run(text[i + 1..j], false, true), j + 1)
    else
      var j := NextMarker(text, i);
      (Plain(text[i..j]), j)
  }

  /** The written scan, started at `i`, reaches the end of the text. */
  predicate NeverStalls(text: string, i: nat)
    requires i <= |text|
    decreases |text| - i
  {
    i == |text| || (!Stalls(text, i) && NeverStalls(text, Step(text, i).1))
  }

  /** The runs the written scan appends from `i` on, when it ends. */
  function RawRuns(text: string, i: nat): seq<Run>
    requires i <= |text| && NeverStalls(text, i)
    decreases |text| - i
  {
    if i == |text| then []
    else [Step(text, i).0] + RawRuns(text, Step(text, i).1)
  }

  /** The corrected iteration: an opener with no closer is kept as literal text. */
  function FixedStep(text: string, i: nat): (r: (Run, nat))
    requires i < |text|
    ensures i < r.1 <= |text|
  {
    if Stalls(text, i) then
      var m := if BoldAt(text, i) then 2 else 1;
      (Plain(text[i..i + m]), i + m)
    else Step(text, i)
  }

  /** The runs the corrected scan appends from `i` on. */
  function FixedRuns(text: string, i: nat): seq<Run>
    requires i <= |text|
    decreases |text| - i
  {
    if i == |text| then []
    else [FixedStep(text, i).0] + FixedRuns(text, FixedStep(text, i).1)
  }

  /** The merging pass: empty runs are dropped, a plain run is glued onto a plain predecessor. */
  function Merge(rs: seq<Run>): seq<Run> {
    if rs == [] then []
    else
      var prev := Merge(rs[..|rs| - 1]);
      var r := rs[|rs| - 1];
      if r.text == [] then prev
      else if |prev| > 0 && IsPlain(prev[|prev| - 1]) && IsPlain(r) then
        prev[|prev| - 1 := Plain(prev[|prev| - 1].text + r.text)]
      else prev + [r]
  }

  /** The runs the converter gives a paragraph's text. */
  function Tokenize(text: string): seq<Run> {
    Merge(FixedRuns(text, 0))
  }

  /** The Markdown a run stands for: its text with its delimiters put back. */
  function Markup(r: Run): string {
    if r.bold then "**" + r.text + "**"
    else if r.code then "`" + r.text + "`"
    else r.text
  }

  function Unparse(rs: seq<Run>): string {
    if rs == [] then "" else Markup(rs[0]) + Unparse(rs[1..])
  }

  /** The visible text of the runs, delimiters removed. */
  function Texts(rs: seq<Run>): string {
    if rs == [] then "" else rs[0].text + Texts(rs[1..])
  }

  function DropEmpty(rs: seq<Run>): seq<Run> {
    if rs == [] then []
    else (if rs[0].text == [] then [] else [rs[0]]) + DropEmpty(rs[1..])
  }

  predicate NonEmptyRuns(rs: seq<Run>) {
    forall k :: 0 <= k < |rs| ==> rs[k].text != []
  }

  predicate NoAdjacentPlain(rs: seq<Run>) {
    forall k :: 0 <= k < |rs| - 1 ==> !(IsPlain(rs[k]) && IsPlain(rs[k + 1]))
  }

  /** No "**" inside `s`. */
  predicate NoBold(s: string) {
    forall k :: 0 <= k < |s| ==> !BoldAt(s, k)
  }

  /** Bold text holds no "**", code text no backtick, and no run is both. */
  predicate Delimited(r: Run) {
    (r.bold ==> !r.code && NoBold(r.text)) && (r.code ==> !r.bold && '`' !in r.text)
  }

  predicate WellDelimited(rs: seq<Run>) {
    forall k :: 0 <= k < |rs| ==> Delimited(rs[k])
  }

  // ---------------------------------------------------------------------
  // The converter's function

  /**
   * `_parse_inline_runs`: the scan, then the merging pass.  The scan takes an
   * unmatched opener literally (see `FixedStep`).
   */
  method ParseInlineRuns(text: string) returns (merged: seq<Run>)
    ensures merged == Tokenize(text)
  {
    var runs := ScanRuns(text);
    merged := MergeRuns(runs);
  }

  /** The scan: an index advances through the text while runs are appended. */
  method ScanRuns(text: string) returns (runs: seq<Run>)
    ensures runs == FixedRuns(text, 0)
  {
    runs := [];
    var i: nat := 0;
    while i < |text|
      invariant Scanned(text, runs, i)
      decreases |text| - i
    {
      var r, j := ScanOne(text, i);
      ScanAdvance(text, runs, i);
      runs := runs + [r];
      i := j;
    }
    assert runs + [] == runs;
  }

  /** One pass of the scan loop: a bold run, a code run, or literal text up to the next marker. */
  method ScanOne(text: string, i: nat) returns (r: Run, j: nat)
    requires i < |text|
    ensures (r, j) == FixedStep(text, i)
  {
    if BoldAt(text, i) {
      var e := FindBold(text, i + 2);
      if e != -1 {
        BoldStep(text, i, e);
        return Run(text[i + 2..e], true, false), e + 2;
      }
    }
    if TickAt(text, i) {
      var e := FindTick(text, i + 1);
      if e != -1 {
        CodeStep(text, i, e);
        return Run(text[i + 1..e], false, true), e + 1;
      }
    }
    j := NextMarker(text, i);
    if j == i {
      j := if BoldAt(text, i) then i + 2 else i + 1;
    }
    PlainStep(text, i, j);
    r := Plain(text[i..j]);
  }

  /** The merging pass: the list is rebuilt, its last run replaced when two plain runs meet. */
  method MergeRuns(runs: seq<Run>) returns (merged: seq<Run>)
    ensures merged == Merge(runs)
  {
    merged := [];
    for k := 0 to |runs|
      invariant merged == Merge(runs[..k])
    {
      var r := runs[k];
      assert runs[..k + 1][..k] == runs[..k];
      if r.text == [] {
        continue;
      }
      if |merged| > 0 && !(merged[|merged| - 1].bold || merged[|merged| - 1].code || r.bold || r.code) {
        merged := merged[|merged| - 1 := Plain(merged[|merged| - 1].text + r.text)];
      } else {
        merged := merged + [r];
      }
    }
    assert runs[..|runs|] == runs;
  }

  /** The scan's loop invariant: `runs` followed by what remains from `i` is the whole scan. */
  predicate Scanned(text: string, runs: seq<Run>, i: nat) {
    i <= |text| && runs + FixedRuns(text, i) == FixedRuns(text, 0)
  }

  /** Appending one corrected step keeps the scan's loop invariant. */
  lemma ScanAdvance(text: string, runs: seq<Run>, i: nat)
    requires i < |text| && Scanned(text, runs, i)
    ensures Scanned(text, runs + [FixedStep(text, i).0], FixedStep(text, i).1)
  {
    var (r, j) := FixedStep(text, i);
    assert FixedRuns(text, i) == [r] + FixedRuns(text, j);
    assert runs + ([r] + FixedRuns(text, j)) == (runs + [r]) + FixedRuns(text, j);
  }

  /** The scan's bold branch is the corrected step there. */
  lemma BoldStep(text: string, i: nat, e: int)
    requires i < |text|
    requires BoldAt(text, i) && e == FindBold(text, i + 2) && e != -1
    ensures i + 2 <= e <= |text| - 2
    ensures FixedStep(text, i) == (Run(text[i + 2..e], true, false), e + 2)
  {
    assert !Stalls(text, i);
  }

  /** The scan's code branch is the corrected step there. */
  lemma CodeStep(text: string, i: nat, e: int)
    requires i < |text|
    requires !(BoldAt(text, i) && FindBold(text, i + 2) != -1)
    requires TickAt(text, i) && e == FindTick(text, i + 1) && e != -1
    ensures i + 1 <= e < |text|
    ensures FixedStep(text, i) == (Run(text[i + 1..e], false, true), e + 1)
  {
    assert !Stalls(text, i);
  }

  /** The scan's literal-text branch is the corrected step there. */
  lemma PlainStep(text: string, i: nat, j: nat)
    requires i < |text|
    requires !(BoldAt(text, i) && FindBold(text, i + 2) != -1)
    requires !(TickAt(text, i) && FindTick(text, i + 1) != -1)
    requires j == if NextMarker(text, i) > i then NextMarker(text, i)
                  else if BoldAt(text, i) then i + 2 else i + 1
    ensures i < j <= |text|
    ensures FixedStep(text, i) == (Plain(text[i..j]), j)
  {
    if NextMarker(text, i) > i {
      assert !BoldAt(text, i) && !TickAt(text, i);
      assert !Stalls(text, i);
    } else {
      assert Stalls(text, i);
    }
  }


  /** What the tokenizer promises about the runs it returns. */
  lemma TokenizeSpec(text: string)
    ensures NeverStalls(text, 0) ==> Tokenize(text) == Merge(RawRuns(text, 0))
    ensures NonEmptyRuns(Tokenize(text)) && NoAdjacentPlain(Tokenize(text))
    ensures WellDelimited(Tokenize(text))
    ensures Texts(Tokenize(text)) == Texts(FixedRuns(text, 0))
  {
    MergeShape(FixedRuns(text, 0));
    MergeTexts(FixedRuns(text, 0));
    FixedRunsDelimited(text, 0);
    MergeDelimited(FixedRuns(text, 0));
    if NeverStalls(text, 0) {
      FixedAgrees(text, 0);
    }
  }

  // ---------------------------------------------------------------------
  // The written scan and its defect

  /** On an unmatched opener the written scan appends an empty run and stays where it is. */
  lemma StallIsFixedPoint(text: string, i: nat)
    requires i < |text| && Stalls(text, i)
    ensures Step(text, i) == (Plain(""), i)
  {
    assert text[i..i] == "";
  }

  /** "a **b": the scan reaches index 2 and stays there; the loop never ends. */
  lemma UnclosedBoldNeverEnds()
    ensures Step("a **b", 0) == (Plain("a "), 2)
    ensures Step("a **b", 2) == (Plain(""), 2)
    ensures !NeverStalls("a **b", 0)
  {
    var t := "a **b";
    assert NextMarker(t, 0) == 2;
    assert t[0..2] == "a ";
    assert Stalls(t, 2);
    StallIsFixedPoint(t, 2);
  }

  /** "a `b": the lone backtick stops the scan in the same way. */
  lemma LoneBacktickNeverEnds()
    ensures Step("a `b", 2) == (Plain(""), 2)
    ensures !NeverStalls("a `b", 0)
  {
    var t := "a `b";
    assert NextMarker(t, 0) == 2;
    assert Stalls(t, 2);
    StallIsFixedPoint(t, 2);
  }

  /** Wherever the written scan ends, the corrected one produces the very same runs. */
  lemma {:induction false} FixedAgrees(text: string, i: nat)
    requires i <= |text| && NeverStalls(text, i)
    ensures FixedRuns(text, i) == RawRuns(text, i)
    decreases |text| - i
  {
    if i < |text| {
      FixedAgrees(text, Step(text, i).1);
    }
  }

  // ---------------------------------------------------------------------
  // What the scan produces

  lemma {:induction false} UnparseAppend(a: seq<Run>, b: seq<Run>)
    ensures Unparse(a + b) == Unparse(a) + Unparse(b)
  {
    if a != [] {
      assert (a + b)[1..] == a[1..] + b;
      UnparseAppend(a[1..], b);
    } else {
      assert a + b == b;
    }
  }

  lemma {:induction false} TextsAppend(a: seq<Run>, b: seq<Run>)
    ensures Texts(a + b) == Texts(a) + Texts(b)
  {
    if a != [] {
      assert (a + b)[1..] == a[1..] + b;
      TextsAppend(a[1..], b);
    } else {
      assert a + b == b;
    }
  }

  /** Each corrected step consumes exactly the Markdown of the run it appends. */
  lemma FixedStepMarkup(text: string, i: nat)
    requires i < |text|
    ensures Markup(FixedStep(text, i).0) == text[i..FixedStep(text, i).1]
  {
    if BoldAt(text, i) && FindBold(text, i + 2) != -1 {
      var e := FindBold(text, i + 2);
      assert text[i..i + 2] == "**" && text[e..e + 2] == "**";
      assert text[i..e + 2] == text[i..i + 2] + text[i + 2..e] + text[e..e + 2];
    } else if TickAt(text, i) && FindTick(text, i + 1) != -1 {
      var e := FindTick(text, i + 1);
      assert text[i..i + 1] == "`" && text[e..e + 1] == "`";
      assert text[i..e + 1] == text[i..i + 1] + text[i + 1..e] + text[e..e + 1];
    }
  }

  lemma UnparseCons(r: Run, rest: seq<Run>)
    ensures Unparse([r] + rest) == Markup(r) + Unparse(rest)
  {
    assert ([r] + rest)[1..] == rest;
  }

  lemma FixedRunsStep(text: string, i: nat)
    requires i < |text|
    ensures Unparse(FixedRuns(text, i))
            == text[i..FixedStep(text, i).1] + Unparse(FixedRuns(text, FixedStep(text, i).1))
  {
    FixedStepMarkup(text, i);
    UnparseCons(FixedStep(text, i).0, FixedRuns(text, FixedStep(text, i).1));
  }

  /** Putting the delimiters back gives the text that was scanned. */
  lemma {:induction false} FixedRunsUnparse(text: string, i: nat)
    requires i <= |text|
    ensures Unparse(FixedRuns(text, i)) == text[i..]
    decreases |text| - i
  {
    if i < |text| {
      var j := FixedStep(text, i).1;
      calc {
        Unparse(FixedRuns(text, i));
      ==  { FixedRunsStep(text, i); }
        text[i..j] + Unparse(FixedRuns(text, j));
      ==  { FixedRunsUnparse(text, j); }
        text[i..j] + text[j..];
      ==
        text[i..];
      }
    }
  }

  /** The same holds of the written scan wherever it ends. */
  lemma RawRunsUnparse(text: string)
    requires NeverStalls(text, 0)
    ensures Unparse(RawRuns(text, 0)) == text
  {
    FixedAgrees(text, 0);
    FixedRunsUnparse(text, 0);
  }

  /**
   * The run one corrected step appends is well delimited: bold text runs up
   * to the first closing "**", code text up to the first closing backtick.
   */
  lemma StepDelimited(text: string, i: nat)
    requires i < |text|
    ensures Delimited(FixedStep(text, i).0)
  {
    var r := FixedStep(text, i).0;
    if BoldAt(text, i) && FindBold(text, i + 2) != -1 {
      FindBoldSpec(text, i + 2);
      forall k | 0 <= k < |r.text| ensures !BoldAt(r.text, k) {
        assert !BoldAt(text, i + 2 + k);
      }
    } else if TickAt(text, i) && FindTick(text, i + 1) != -1 {
      FindTickSpec(text, i + 1);
      forall k | 0 <= k < |r.text| ensures r.text[k] != '`' {
        assert !TickAt(text, i + 1 + k);
      }
    }
  }

  lemma {:induction false} FixedRunsDelimited(text: string, i: nat)
    requires i <= |text|
    ensures WellDelimited(FixedRuns(text, i))
    decreases |text| - i
  {
    if i < |text| {
      var j := FixedStep(text, i).1;
      StepDelimited(text, i);
      FixedRunsDelimited(text, j);
      assert FixedRuns(text, i) == [FixedStep(text, i).0] + FixedRuns(text, j);
    }
  }


  // ---------------------------------------------------------------------
  // The merging pass

  lemma {:induction false} MergeShape(rs: seq<Run>)
    ensures NonEmptyRuns(Merge(rs)) && NoAdjacentPlain(Merge(rs))
  {
    if rs != [] {
      MergeShape(rs[..|rs| - 1]);
    }
  }

  /** Gluing a plain run onto a plain last run keeps the visible text. */
  lemma TextsGlue(prev: seq<Run>, r: Run)
    requires |prev| > 0
    ensures Texts(prev[|prev| - 1 := Plain(prev[|prev| - 1].text + r.text)]) == Texts(prev) + Texts([r])
  {
    var n := |prev| - 1;
    assert prev == prev[..n] + [prev[n]];
    TextsAppend(prev[..n], [prev[n]]);
    assert prev[n := Plain(prev[n].text + r.text)] == prev[..n] + [Plain(prev[n].text + r.text)];
    TextsAppend(prev[..n], [Plain(prev[n].text + r.text)]);
  }

  /** Gluing a plain run onto a plain last run keeps the Markdown. */
  lemma UnparseGlue(prev: seq<Run>, r: Run)
    requires |prev| > 0 && IsPlain(prev[|prev| - 1]) && IsPlain(r)
    ensures Unparse(prev[|prev| - 1 := Plain(prev[|prev| - 1].text + r.text)]) == Unparse(prev) + r.text
  {
    var n := |prev| - 1;
    var last := prev[n];
    var glued := Plain(last.text + r.text);
    var init := prev[..n];
    assert prev == init + [last];
    assert prev[n := glued] == init + [glued];
    UnparseSnoc(init, last);
    UnparseSnoc(init, glued);
    calc {
      Unparse(init + [glued]);
      Unparse(init) + (last.text + r.text);
      Unparse(init) + last.text + r.text;
      Unparse(init + [last]) + r.text;
    }
  }


  lemma UnparseSnoc(prev: seq<Run>, r: Run)
    ensures Unparse(prev + [r]) == Unparse(prev) + Markup(r)
  {
    UnparseAppend(prev, [r]);
  }

  /** Dropping empty runs, seen from the last run. */
  lemma UnparseDropLast(rs: seq<Run>)
    requires rs != []
    ensures Unparse(DropEmpty(rs)) == Unparse(DropEmpty(rs[..|rs| - 1]))
            + (if rs[|rs| - 1].text == [] then "" else Markup(rs[|rs| - 1]))
  {
    var init := rs[..|rs| - 1];
    var r := rs[|rs| - 1];
    var last := if r.text == [] then [] else [r];
    assert DropEmpty([r]) == last by {
      assert [r][1..] == [];
    }
    assert Unparse(last) == if r.text == [] then "" else Markup(r) by {
      if last != [] {
        assert last[1..] == [];
      }
    }
    calc {
      Unparse(DropEmpty(rs));
    ==  { assert rs == init + [r]; DropEmptyAppend(init, [r]); }
      Unparse(DropEmpty(init) + last);
    ==  { UnparseAppend(DropEmpty(init), last); }
      Unparse(DropEmpty(init)) + Unparse(last);
    }
  }


  /** Merging keeps the visible text. */
  lemma {:induction false} MergeTexts(rs: seq<Run>)
    ensures Texts(Merge(rs)) == Texts(rs)
  {
    if rs != [] {
      var init := rs[..|rs| - 1];
      var r := rs[|rs| - 1];
      var prev := Merge(init);
      MergeTexts(init);
      assert rs == init + [r];
      TextsAppend(init, [r]);
      if r.text == [] {
      } else if |prev| > 0 && IsPlain(prev[|prev| - 1]) && IsPlain(r) {
        TextsGlue(prev, r);
      } else {
        TextsAppend(prev, [r]);
      }
    }
  }

  /** Merging keeps the Markdown of the non-empty runs. */
  lemma {:induction false} MergeUnparse(rs: seq<Run>)
    ensures Unparse(Merge(rs)) == Unparse(DropEmpty(rs))
  {
    if rs != [] {
      var r := rs[|rs| - 1];
      var prev := Merge(rs[..|rs| - 1]);
      MergeUnparse(rs[..|rs| - 1]);
      UnparseDropLast(rs);
      if r.text == [] {
      } else if |prev| > 0 && IsPlain(prev[|prev| - 1]) && IsPlain(r) {
        UnparseGlue(prev, r);
      } else {
        UnparseSnoc(prev, r);
      }
    }
  }


  lemma {:induction false} DropEmptyAppend(a: seq<Run>, b: seq<Run>)
    ensures DropEmpty(a + b) == DropEmpty(a) + DropEmpty(b)
  {
    if a != [] {
      assert (a + b)[1..] == a[1..] + b;
      DropEmptyAppend(a[1..], b);
    } else {
      assert a + b == b;
    }
  }

  /** Dropping only empty plain runs leaves the Markdown as it was. */
  lemma {:induction false} DropEmptyPlainUnparse(rs: seq<Run>)
    requires forall k :: 0 <= k < |rs| && rs[k].text == [] ==> IsPlain(rs[k])
    ensures Unparse(DropEmpty(rs)) == Unparse(rs)
  {
    if rs != [] {
      DropEmptyPlainUnparse(rs[1..]);
      UnparseAppend(if rs[0].text == [] then [] else [rs[0]], DropEmpty(rs[1..]));
    }
  }

  /** Merging keeps every run a bold or code run of the input. */
  lemma {:induction false} MergeDelimited(rs: seq<Run>)
    requires WellDelimited(rs)
    ensures WellDelimited(Merge(rs))
  {
    if rs != [] {
      var init := rs[..|rs| - 1];
      assert WellDelimited(init);
      MergeDelimited(init);
    }
  }

  /**
   * Round trip: when the text holds no empty "****" or "``" pair, putting the
   * delimiters back around the runs gives the paragraph's text again.
   */
  lemma TokenizeRoundTrip(text: string)
    requires forall k :: 0 <= k < |FixedRuns(text, 0)| && FixedRuns(text, 0)[k].text == []
               ==> IsPlain(FixedRuns(text, 0)[k])
    ensures Unparse(Tokenize(text)) == text
  {
    MergeUnparse(FixedRuns(text, 0));
    DropEmptyPlainUnparse(FixedRuns(text, 0));
    FixedRunsUnparse(text, 0);
  }
}
