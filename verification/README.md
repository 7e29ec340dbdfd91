# Markdown-subset to WordprocessingML converter, modelled in Dafny

This project models the converter in `tools/md_to_docx_minimal.py`. It turns a small
subset of Markdown into the `word/document.xml` part of a `.docx` package. The
model has three layers, each in its own module:

- `Blocks` (`blocks.dfy`) is the block parser `parse_markdown`. It is a loop
  over the lines of the text that carries a fence flag and a buffer of fenced
  lines, and classifies each line as a fence toggle, a fenced line, a blank, a
  heading, a bullet or a paragraph. A second loop then collapses runs of blank
  blocks into one.
- `Inline` (`inline.dfy`) is the inline tokenizer `_parse_inline_runs`. An
  index scan splits a paragraph's text into plain, `**bold**` and `` `code` ``
  runs. A merging loop then drops empty runs and glues adjacent plain runs.
- `WordML` (`wordml.dfy`) is the serialiser: `_xml_escape`, `_w_p`,
  `_w_code_block` and `build_document_xml`. Paragraphs become `w:p` elements
  and runs become `w:r` elements, as in ECMA-376 Part 1, clause 17.3. A run
  whose text starts or ends with whitespace gets `xml:space="preserve"` on its
  `w:t` element (section 2.10 of XML 1.0).
- `Text` (`text.dfy`) holds the Python string primitives these layers use:
  `str.isspace`, `strip`, `startswith`, `find`, `splitlines` and `"\n".join`.

The loops of the source are Dafny methods (`ParseMarkdown`, `ParseLine`,
`CollapseBlanks`, `ScanRuns`, `ScanOne`, `MergeRuns`, `WP`, `WCodeBlock`,
`WBlock`, `BuildDocumentXml`). Each is proved equal to a specification function
(`ParseSpec`, `Collapse`, `FixedRuns`, `Merge`, `Tokenize`, `ParaXml`,
`CodeParas`, `DocumentXml`), and the lemmas state what those functions promise.

The serialiser's partner is a reader of the markup it writes (`Decode*`). The
round-trip lemmas show that the generated document holds exactly the intended
paragraphs, in order. Each paragraph keeps its style reference. Each run keeps
its bold and code flags, its text (escaped and unescaped) and a whitespace
marker that is present exactly when the text needs one. The reader rejects
an empty `w:rPr` and an empty style name. So the round trip also shows that
run properties appear only for bold or code runs, and paragraph properties
only for a non-empty style.

Whitespace and line boundaries are the exact character sets of CPython's
`str.isspace` and `str.splitlines` (`Text.IsSpace`, `Text.IsLineBreak`).
Strings are sequences of code points.

## Model

| member | source | states |
|---|---|---|
| Blocks.ParseMarkdown | tools/md_to_docx_minimal.py:46-96 | the parser returns `ParseSpec(md)`: the line loop, the flush of an open fence with lines, then the collapse; the result never has two blanks in a row and every heading level is within 1..6 |
| Blocks.ParseLine | tools/md_to_docx_minimal.py:53-85 | one pass of the line loop is one `ScanStep`: a fence toggles code mode (closing it emits the buffer joined by "\n"), a fenced line is buffered verbatim, any other line is classified |
| Blocks.CollapseBlanks | tools/md_to_docx_minimal.py:90-96 | the collapsing loop computes `Collapse(blocks)` and leaves no two adjacent blank blocks |
| Blocks.CollapseNoAdjacentBlanks | tools/md_to_docx_minimal.py:90-96 | after collapsing, no blank block is followed by another blank block |
| Blocks.CollapseKeepsNonBlanks | tools/md_to_docx_minimal.py:90-96 | collapsing neither drops, reorders nor changes any non-blank block: the non-blank subsequence is the same before and after |
| Blocks.CollapseElements | tools/md_to_docx_minimal.py:90-96 | every block kept was in the input; a blank input keeps at least one blank; the last block kept is blank exactly when the input's last block is |
| Blocks.CollapseIdentity | tools/md_to_docx_minimal.py:90-96 | a block list with no adjacent blanks is left unchanged by collapsing |
| Blocks.ParsedHeadingsBounded | tools/md_to_docx_minimal.py:73-78 | every heading the parser returns has a level from 1 to 6 |
| Blocks.ScanHeadingsBounded | tools/md_to_docx_minimal.py:73-78 | the line loop, and the final flush, only ever add headings with levels 1..6 |
| Blocks.HeadingLine | tools/md_to_docx_minimal.py:73-78 | one to six '#', whitespace, then any text: a heading whose level is the number of '#' and whose text is the rest, stripped |
| Blocks.HeadingShape | tools/md_to_docx_minimal.py:73-78 | conversely, a heading comes only from a line starting with exactly `level` '#' (1..6) then whitespace, and its text is the stripped remainder |
| Blocks.HashesWithoutHeading | tools/md_to_docx_minimal.py:73-85 | seven or more '#', or '#' followed by neither '#' nor whitespace, makes a paragraph of the stripped line, not a heading or bullet |
| Blocks.BulletLine | tools/md_to_docx_minimal.py:80-83 | optional whitespace, '-', whitespace, then any text: a bullet of the stripped rest |
| Blocks.ScanPlainLines | tools/md_to_docx_minimal.py:69-85 | outside a fence, lines that are not fences each add exactly one block, `Classify` of that line, in order, and nothing else changes |
| Blocks.ScanCodeLines | tools/md_to_docx_minimal.py:65-67 | inside a fence, non-fence lines are appended verbatim to the buffer and add no block |
| Blocks.FencedBlock | tools/md_to_docx_minimal.py:56-67 | an opening fence, lines, and a closing fence add exactly one code block, the lines joined by "\n", and leave code mode with an empty buffer |
| Blocks.UnclosedFence | tools/md_to_docx_minimal.py:87-88 | a fence still open at the end adds a code block of its lines only when it collected some; otherwise nothing is added |
| Blocks.ParsedSettled | tools/md_to_docx_minimal.py:50-67 | every state the line loop reaches from its start has an empty fenced-line buffer whenever it is outside a fence, which is the start condition of `FencedBlock` and `UnclosedFence` |
| Text.StripSpec | tools/md_to_docx_minimal.py:69-85 | `strip` removes exactly whitespace at both ends: what remains neither starts nor ends with whitespace, and it is empty exactly when the line is all whitespace |
| Text.SplitLinesSpec | tools/md_to_docx_minimal.py:47 | no line produced by `splitlines` contains a line boundary |
| Text.SplitLinesOfJoin | tools/md_to_docx_minimal.py:161 | `splitlines` undoes `"\n".join` on boundary-free lines, except that a final empty line is lost |
| Inline.ParseInlineRuns | tools/md_to_docx_minimal.py:99-134 | the tokenizer returns `Tokenize(text)`: the scan (unmatched opener taken literally) followed by the merge |
| Inline.ScanRuns | tools/md_to_docx_minimal.py:105-124 | the scan loop appends exactly the runs `FixedRuns(text, 0)`, advancing the index on every pass |
| Inline.ScanOne | tools/md_to_docx_minimal.py:108-124 | one pass: a bold run up to the first closing "**", else a code run up to the first closing backtick, else plain text up to the nearest marker; the index strictly advances |
| Inline.MergeRuns | tools/md_to_docx_minimal.py:125-134 | the merging loop, which replaces the last run in place when two plain runs meet, computes `Merge(runs)` |
| Inline.FindBoldSpec | tools/md_to_docx_minimal.py:109 | `find("**", start)` returns the first occurrence at or after `start`, or -1 when there is none |
| Inline.FindTickSpec | tools/md_to_docx_minimal.py:115 | ``find("`", start)`` returns the first occurrence at or after `start`, or -1 when there is none |
| Inline.NextMarkerSpec | tools/md_to_docx_minimal.py:121-122 | the plain stretch ends at the nearest "**" or backtick (or the end) and contains no marker |
| Inline.StallIsFixedPoint | tools/md_to_docx_minimal.py:107-124 | in the code as written, an opener without a closer makes the step append an empty plain run and leave the index where it was |
| Inline.UnclosedBoldNeverEnds | tools/md_to_docx_minimal.py:107-124 | on "a **b" the written scan reaches index 2 and stays there, so it never ends |
| Inline.LoneBacktickNeverEnds | tools/md_to_docx_minimal.py:114-124 | on ``"a `b"`` the written scan stalls at the backtick in the same way |
| Inline.FixedAgrees | tools/md_to_docx_minimal.py:107-124 | wherever the written scan ends, the corrected scan yields exactly the same runs |
| Inline.FixedRunsUnparse | tools/md_to_docx_minimal.py:107-124 | putting each run's delimiters back around the scanned runs rebuilds the scanned text exactly |
| Inline.RawRunsUnparse | tools/md_to_docx_minimal.py:107-124 | the same for the written scan, on every text where it ends |
| Inline.FixedRunsDelimited | tools/md_to_docx_minimal.py:107-119 | bold run text contains no "**", code run text no backtick, and no run is both bold and code |
| Inline.MergeShape | tools/md_to_docx_minimal.py:125-134 | the merged runs have no empty run and no two adjacent plain runs |
| Inline.MergeTexts | tools/md_to_docx_minimal.py:125-134 | merging keeps the concatenated visible text |
| Inline.MergeUnparse | tools/md_to_docx_minimal.py:125-134 | merging keeps the Markdown of the non-empty runs |
| Inline.MergeDelimited | tools/md_to_docx_minimal.py:125-134 | merging creates no run that is both bold and code and no bold/code run holding its own delimiter |
| Inline.TokenizeSpec | tools/md_to_docx_minimal.py:99-134 | where the written scan ends, the result is the source's (merge of its raw runs); always: no empty run, no adjacent plain runs, well-delimited runs, and the visible text of the scan |
| Inline.TokenizeRoundTrip | tools/md_to_docx_minimal.py:99-134 | when no empty "****" or "``" pair occurs, putting delimiters back around the returned runs gives the input text |
| WordML.EscapeRoundTrip | tools/md_to_docx_minimal.py:20-21 | escaping '&', '<' and '>' as entities is undone by reading the entities back |
| WordML.EscapeClean | tools/md_to_docx_minimal.py:20-21 | escaped text contains no '<' or '>', and contains a double quote exactly when the input does (quotes are not escaped) |
| WordML.WP | tools/md_to_docx_minimal.py:137-155 | `_w_p` returns `ParaXml` of its runs and style: one `w:p`, a style reference only for a non-empty style, one `w:r` per run in order |
| WordML.DecodeRunOf | tools/md_to_docx_minimal.py:143-153 | a run's markup reads back as that run (bold, code, text) with the whitespace marker present exactly when its text starts or ends with whitespace |
| WordML.DecodeRunsOf | tools/md_to_docx_minimal.py:142-155 | the joined run markup reads back as exactly the runs, one `w:r` each, in order |
| WordML.DecodePPrOf | tools/md_to_docx_minimal.py:138-140 | the paragraph properties read back as the style given (escaped and unescaped), and as no style when none is given |
| WordML.DecodeParaOf | tools/md_to_docx_minimal.py:137-155 | a paragraph's markup reads back as that paragraph: its style and its runs |
| WordML.DecodeParasOf | tools/md_to_docx_minimal.py:158-163 | joined paragraph markup reads back as exactly those paragraphs, in order |
| WordML.WCodeBlock | tools/md_to_docx_minimal.py:158-163 | `_w_code_block` returns the markup of `CodeParas(text)` |
| WordML.CodeParasSpec | tools/md_to_docx_minimal.py:158-163 | a code block yields one `Code`-styled paragraph per line, and one for empty text; paragraph k has a single code-font, non-bold run whose text is line k of `splitlines() or [""]`, without its break |
| WordML.CodeBlockLines | tools/md_to_docx_minimal.py:158-163 | the fenced lines come back one per code paragraph, except that a final empty line after other lines is lost |
| WordML.Clamp | tools/md_to_docx_minimal.py:178 | `min(max(level, 1), 6)` lies in 1..6 and is the level itself when that is already in 1..6 |
| WordML.HeadingStyleSpec | tools/md_to_docx_minimal.py:177-179 | a heading's style is "Heading" and one digit '1'..'6': its own level within range, "Heading1" below it, "Heading6" above it |
| WordML.ParsedHeadingStyles | tools/md_to_docx_minimal.py:177-179 | every heading the parser produces gets the style of its own level, never a clamped one, and its inline runs |
| WordML.WBlock | tools/md_to_docx_minimal.py:173-189 | one block's markup: an empty paragraph for a blank, a heading style for a heading, "• " before a bullet's text, the code paragraphs for code |
| WordML.BodyPartsParas | tools/md_to_docx_minimal.py:167-189 | the body pieces are the markup of the title paragraph, the empty paragraph, then every block's paragraphs in order |
| WordML.BuildDocumentXml | tools/md_to_docx_minimal.py:166-203 | `build_document_xml` returns `DocumentXml(blocks, title)` |
| WordML.DocumentRoundTrip | tools/md_to_docx_minimal.py:166-203 | the document reads back as the bold `Title` paragraph, the empty paragraph and each block's paragraphs, followed by the fixed section properties and the closing tags |
| WordML.DecodeDocumentOf | tools/md_to_docx_minimal.py:192-203 | any paragraphs with representable styles, framed by the document header, the section properties and the closing tags, read back as themselves |

## Left out

- `write_docx` and `main` (tools/md_to_docx_minimal.py:284-314) read files, write the zip archive and parse arguments; this is I/O.
- `_iso_now` and `core_props_xml` depend on the wall clock.
- `styles_xml`, `content_types_xml`, `rels_xml`, `doc_rels_xml` and `app_props_xml` are constant templates with nothing to state.
- The regexes of lines 42-43 are modelled only on lines without "\n" (`MatchHeading`, `MatchBullet`). Every line the parser sees comes from `splitlines`, so it has none. `line.rstrip("\n")` is therefore the identity and is not modelled.
- `str.isspace`, `str.splitlines` and `\s` are modelled on code points with CPython's character tables. Surrogate code points and Unicode normalisation are not modelled.
- `Block.kind` is a string in the source, and `build_document_xml` skips unknown kinds. The model's `Block` is a closed datatype with the five kinds the parser produces, so the skip branch does not exist.
- Inline.ParseInlineRuns: does not reproduce the source's endless loop on an unmatched opener. The modelled scan takes the opener as literal text (see Findings). `FixedAgrees` proves it equal to the source wherever the source ends.
- Inline.ScanRuns: inherits the same correction; on text with an unmatched opener the source's loop never ends, while this one advances on every pass.
- Inline.ScanOne: inherits the same correction; where the source's step stalls, this one takes the opener as literal text.
- WordML.WBlock: inherits the same correction through `ParseInlineRuns`; the source never returns for such a block.
- WordML.BuildDocumentXml: inherits the same correction through `WBlock`; the source never returns for such a document.
- Style names are escaped without quoting (`_xml_escape` uses `quote=False`), so a style holding a double quote would end the `w:val` attribute early. Only the constant styles `Title`, `Code` and `Heading1`..`Heading6` reach it, so this stays latent; `StyleOk` excludes such names from the round trip.
- The `Decode*` functions are not part of the source. They are the reference reader against which the serialiser's output is stated.

## Findings

| source | as written | input that shows it | evidently intended | confidence | as-written member | corrected member |
|---|---|---|---|---|---|---|
| tools/md_to_docx_minimal.py:107-124 | on an opener with no closer, the plain branch computes `j = i` (the nearest marker is the opener itself), appends an empty run and never advances `i`, so `_parse_inline_runs` loops forever | `"a **b"` (stalls at index 2); likewise ``"a `b"`` | the unmatched opener is taken as literal text and the scan moves past it, so every text is tokenized | not executed | Inline.UnclosedBoldNeverEnds | Inline.ScanOne |
