# markdown2html in Dafny

A model of the line-oriented Markdown-to-HTML converter `markdown2html.py`, together
with proofs about it. The converter reads a Markdown file as a list of lines and runs
four stages over it, each mapping a list of lines to a new list of lines:

1. `convert_markdown_heading_to_html` rewrites a line that starts with 1 to 6 `#`
   and a space into `<hN>text</hN>`.
2. `convert_markdown_ul_list_to_html` wraps each maximal run of `- ` lines in
   `<ul>` … `</ul>` and turns each of those lines into `   <li>text</li>`.
3. `convert_markdown_ol_list_to_html` does the same for `* ` lines, with `<ol>`.
4. `convert_markdown_paragraph_to_html` wraps each maximal run of plain lines in
   `<p>` … `</p>`. A line is plain when its stripped text is non-empty and starts
   with none of `#`, `-` and `*`. Each plain line becomes `    text<br/>`. When the
   paragraph closes, the last emitted line is overwritten with `<br/>\n` replaced
   by `\n`.

`main` composes the four stages in this order.

Layout:

- `text.dfy` (module `Text`) holds the string primitives the stages use. These are
  Python's `str.strip`, `str.startswith` and `str.replace`, written out on sequences
  of characters.
- `blocks.dfy` (module `Blocks`) holds the state machine that stages 2, 3 and 4 share:
  - Each stage classifies every line as a member of a block (`Member(text)`) or as some
    other line (`Other(line)`).
  - It then walks the lines once with an "inside a block" flag, emitting abstract
    pieces (`Open`, `Inner`, `Keep`, `Close`).
  - `Feed` is one iteration, `Run` is the loop, and `Group` is the loop followed by
    the final close.
  - Balance, passthrough, order and length are proved once, here, for all three stages.
- `heading.dfy`, `lists.dfy` and `paragraph.dfy` model one stage each. The two list
  stages are one parameterised stage, because the source's two functions differ only
  in the marker character and the tag.
  - Each stage has a functional specification: classify, group, render.
  - Each stage also has a method that follows the source's loop with its flag. The
    method is proved equal to the specification.
  - The lemmas state what the stage promises.
- `pipeline.dfy` (module `Pipeline`) holds the composition of `main`, and the coupling
  between stages.
  - Rewritten headings start with `<`, and generated list lines start with `<` or a
    space, so the later list stages pass them through.
  - The paragraph stage, however, takes them for plain text and wraps them in `<p>`.
    The model keeps this behaviour as it is.
- `samples.dfy` (module `Samples`) works through concrete inputs, stage by stage and
  end to end.

The source's own comments and the code do not always say the same thing. Where they
differ, the model follows the code:

- The comments at lines 125 and 134 say "Remove the last <br/>". The code instead
  replaces every occurrence of `<br/>\n` in the last line, and `ParaLine` models that
  replacement literally.
- `Text.DropBreak` shows that, for content without a line feed of its own, the
  replacement removes exactly the soft break the stage appended. Lines as `readlines`
  returns them always meet this condition.
- A `<br/>` that is part of the line's own text stays. For the input line
  `foo<br/>`, the last content line of the paragraph is `    foo<br/>\n`, which
  still ends with `<br/>\n` (`Samples.TextBreakSample`). So the last content line of a
  paragraph carries no trailing `<br/>` only when the text itself does not end with
  one.
- The levels are tried from 6 down to 1, and the first match wins. The marker is `#`
  repeated i times followed by a space, so the character after i hashes must be that
  space. At most one level can therefore match, and the order of the tries does not
  matter (`Heading.LevelExact`).

## Model

| member | source | states |
|---|---|---|
| Text.IsSpace | markdown2html.py:113 | the characters `strip()` removes: the ASCII whitespace 9 to 13, 28 to 31 and space |
| Text.StartsWith | markdown2html.py:24 | `str.startswith` with one prefix: the string is at least as long as the prefix and begins with it |
| Text.TrimStart | markdown2html.py:113 | the result is a suffix of the input, does not start with whitespace, and exactly the whitespace before it is dropped |
| Text.TrimEnd | markdown2html.py:113 | the result is a prefix of the input, does not end with whitespace, and exactly the whitespace after it is dropped |
| Text.Strip | markdown2html.py:113 | `strip()` yields the infix between the leading and trailing whitespace, and it neither starts nor ends with whitespace |
| Text.ReplaceAll | markdown2html.py:126 | `str.replace` for a non-empty pattern: scans left to right and replaces each non-overlapping occurrence |
| Text.ReplaceAbsent | markdown2html.py:126 | `replace` leaves a string in which the pattern does not occur unchanged |
| Text.DropBreak | markdown2html.py:126 | for content without a line feed, replacing `<br/>\n` by `\n` only turns the final soft break into a plain line feed |
| Text.StripSingleLine | markdown2html.py:113 | stripping a line without interior line feeds leaves no line feed at all |
| Text.StripFirst | markdown2html.py:113-114 | the stripped text is non-empty and starts with the first non-whitespace character of the line |
| Text.StripLine | markdown2html.py:113 | a line whose text has no whitespace at either end strips to that text, without its terminator |
| Heading.Marker | markdown2html.py:24 | the level-i marker is i `#` followed by one space |
| Heading.MatchFrom | markdown2html.py:22-26 | the countdown returns the first level from i down to 1 whose marker starts the line, and no higher level matches |
| Heading.Level | markdown2html.py:22-26 | the level a line is rewritten at: the countdown from 6 |
| Heading.LeadingHashes | markdown2html.py:24 | the count of leading `#` is the index of the first character that is not `#` |
| Heading.MarkerMatch | markdown2html.py:24 | a level-k marker starts a line if and only if the line has exactly k leading `#` followed by a space |
| Heading.LevelExact | markdown2html.py:22-26 | the level is the number of leading `#` when it is between 1 and 6 and a space follows, and none otherwise, so a line with 7 or more `#` is no heading |
| Heading.Tag | markdown2html.py:25 | the f-string of line 25: `<hi>` + text + `</hi>\n`, with the level as one digit |
| Heading.HeadingLine | markdown2html.py:21-27 | one line through stage 1: the tag around the stripped rest after the marker when the line has a level, the line itself otherwise |
| Heading.Headings | markdown2html.py:20-28 | stage 1: each input line mapped by `HeadingLine`, in order |
| Heading.HeadingRewrite | markdown2html.py:22-26 | a line with exactly i leading `#` (1 ≤ i ≤ 6) and then a space becomes `<hi>` + strip(rest) + `</hi>\n` |
| Heading.HeadingLineUnchanged | markdown2html.py:20-28 | a line is left exactly as it was, terminator included, if and only if it is no heading |
| Heading.HeadingSingleLine | markdown2html.py:25 | a single input line gives a single output line |
| Heading.ConvertHeadings | markdown2html.py:20-28 | the loop yields exactly one output line per input line: its rewrite if it is a heading, the line itself otherwise |
| Blocks.Feed | markdown2html.py:45-59 | one iteration: a member line emits an opener if no block is open, then itself inside the block; any other line emits a closer if a block is open, then itself, and clears the flag |
| Blocks.Run | markdown2html.py:44-59 | the loop: the emitted pieces and the flag after feeding the lines in order |
| Blocks.Group | markdown2html.py:44-62 | the whole grouping: the loop, then a closer if a block is still open |
| Blocks.FeedFlagged | markdown2html.py:47-57 | one iteration keeps three facts: the flag matches the parity of the markers emitted, it is set exactly when the last piece is an item, and the last piece is never a marker |
| Blocks.RunFlagged | markdown2html.py:44-59 | the loop keeps the flag bookkeeping after every prefix of the input |
| Blocks.FeedShaped | markdown2html.py:44-59 | one iteration keeps the markers alternating, items inside blocks and other lines outside, and the order in which pieces may follow one another |
| Blocks.RunShaped | markdown2html.py:44-59 | the loop keeps that invariant after every prefix of the input |
| Blocks.RunOpen | markdown2html.py:47-57 | after a prefix, the flag is set exactly when the last emitted piece is an item, that is, exactly when the last line read was a member |
| Blocks.GroupShaped | markdown2html.py:44-62 | the inserted markers alternate starting with an opener, their count is even (none is left open at the end), members sit inside blocks and other lines outside, and blocks are maximal |
| Blocks.GroupErase | markdown2html.py:44-59 | with the markers taken out, the output is the classified input, line for line and in order |
| Blocks.RunErase | markdown2html.py:44-59 | the same holds of the loop's output after any prefix |
| Blocks.GroupLength | markdown2html.py:41-64 | the output has two lines more than the input per maximal run of members, which are exactly the markers |
| Blocks.RunLength | markdown2html.py:44-59 | after any prefix, the loop has emitted one piece per line plus two per run, minus one when a block is still open |
| Blocks.EraseHas | markdown2html.py:52-59 | every item and every kept line of the output comes from an input line |
| Lists.ListClass | markdown2html.py:45-46 | a line starting with the marker and a space is an item with text `strip(line[2:])`; every other line is left alone |
| Lists.ListLine | markdown2html.py:49-59 | the text emitted for one piece: the opener, `   <li>text</li>\n`, the line itself, or the closer |
| Lists.ListStage | markdown2html.py:41-64 | a list stage: the rendered grouping of the classified lines |
| Lists.UnorderedLists | markdown2html.py:31-64 | stage 2: the list stage with `- ` and `ul` |
| Lists.OrderedLists | markdown2html.py:67-96 | stage 3: the list stage with `* ` and `ol` |
| Lists.RenderList | markdown2html.py:44-62 | the stage emits one line per piece: the opener, `   <li>text</li>\n`, the line itself, or the closer |
| Lists.FeedRender | markdown2html.py:45-59 | one iteration appends an opener (unless a list is open) and the item for an item line; for another line it appends a closer (if a list is open) and the line |
| Lists.GroupList | markdown2html.py:41-64 | the loop with its `in_list` flag and the final close computes the list stage's specification |
| Lists.ConvertUnorderedLists | markdown2html.py:31-64 | the unordered-list stage is the stage with `- ` and `ul` |
| Lists.ConvertOrderedLists | markdown2html.py:67-96 | the ordered-list stage is the stage with `* ` and `ol` |
| Lists.ListStageShape | markdown2html.py:44-62 | items and passthrough: removing the container lines leaves, per input line in order, its item or the line unchanged; balance: container lines alternate and close; length = input + 2 × runs |
| Lists.KeptLine | markdown2html.py:53-59 | a line passed through unchanged is an input line that is not an item |
| Lists.ItemText | markdown2html.py:45-52 | the text of every emitted item is the stripped rest of an item line |
| Lists.NotItem | markdown2html.py:45 | a line not starting with the marker is no item |
| Lists.GeneratedNotItem | markdown2html.py:47-57 | every line the stage generates starts with `<` or a space |
| Lists.ListLeavesNoItems | markdown2html.py:44-62 | after a list stage, no output line is an item of that stage |
| Lists.OrderedKeepsUnordered | markdown2html.py:80-94 | the ordered-list stage classifies every line generated by the unordered stage as no item, so it leaves those lines unchanged |
| Lists.ListSingleLine | markdown2html.py:44-62 | single input lines give single output lines |
| Paragraph.IsPlain | markdown2html.py:116 | a stripped line is paragraph text when it is non-empty and starts with none of `#`, `-`, `*` |
| Paragraph.ParaClass | markdown2html.py:113-116 | a plain line joins a paragraph with its stripped text; any other line, blank ones included, is left alone |
| Paragraph.Content | markdown2html.py:122 | a content line as first emitted: four spaces, the stripped text, `<br/>\n` |
| Paragraph.ParaLine | markdown2html.py:119-136 | the final text of one piece: a content line keeps its soft break when content of the same paragraph follows or the paragraph is still open, and is otherwise what the overwrite of lines 126 and 135 makes of it |
| Paragraph.RenderPara | markdown2html.py:119-136 | the emitted lines, one per piece, each given by `ParaLine` |
| Paragraph.Paragraphs | markdown2html.py:99-138 | stage 4: the rendered grouping of the classified lines, with every paragraph closed |
| Paragraph.ParaPush | markdown2html.py:117-122 | emitting one more piece keeps the earlier lines, provided an open content line keeps its soft break exactly when the new piece is content |
| Paragraph.ParaCloseLast | markdown2html.py:124-126 | the overwrite of the last line turns the rendering of an open paragraph into that of a closed one |
| Paragraph.OpenLastLine | markdown2html.py:117-122 | while a paragraph is open, the last emitted line is its content line and ends with `<br/>\n` |
| Paragraph.FeedRender | markdown2html.py:112-130 | one iteration on the rendered lines: a plain line adds `<p>` (unless a paragraph is open) and its content; another line first overwrites the last line and adds `</p>` (if a paragraph is open), then adds the line |
| Paragraph.ParagraphStep | markdown2html.py:112-130 | the loop body, with the flag and the in-place overwrite, carries the rendering of the grouping state to the rendering after one more line |
| Paragraph.ConvertParagraphs | markdown2html.py:99-138 | the loop and the final close compute the paragraph stage's specification |
| Paragraph.ParagraphShape | markdown2html.py:112-138 | classification and passthrough, line for line and in order; `<p>`/`</p>` alternate, starting with an opener, and each opener is closed, even at end of input; paragraphs are maximal runs; length = input + 2 × paragraphs |
| Paragraph.ContentText | markdown2html.py:113-122 | the text of every content line is a plain input line, stripped |
| Paragraph.ContentBreak | markdown2html.py:122-136 | for `readlines`-style input, a content line is followed by content or by `</p>`; it is `"    "` + its stripped text + `<br/>\n` in the first case and + `\n` in the second |
| Paragraph.ParagraphBreaks | markdown2html.py:122-136 | for `readlines`-style input, the content line before every `</p>` is `"    "` + its stripped text + `\n`, so exactly the appended soft break is removed, even for a paragraph still open at end of input; every earlier content line is `"    "` + its text + `<br/>\n` |
| Paragraph.ParagraphFlag | markdown2html.py:117-135 | whenever `in_paragraph` is set, the output is non-empty and its last line ends with `<br/>\n`, so the overwrite has a line to act on and acts on a content line |
| Paragraph.ParaKept | markdown2html.py:127-130 | a line passed through unchanged is an input line that is not plain |
| Paragraph.ParaSingleLine | markdown2html.py:112-138 | single input lines give single output lines |
| Pipeline.Document | markdown2html.py:166-175 | the lines written for the lines read: paragraphs ∘ ordered lists ∘ unordered lists ∘ headings |
| Pipeline.ConvertDocument | markdown2html.py:166-175 | `main`'s four calls compute paragraphs ∘ ordered ∘ unordered ∘ headings |
| Pipeline.DocumentSingleLine | markdown2html.py:163-179 | lines as `readlines` returns them stay single lines through all four stages |
| Pipeline.TagLine | markdown2html.py:113-116 | a line starting with `<` is an item of neither list stage, and the paragraph stage takes it for plain text |
| Pipeline.HeadingWrapped | markdown2html.py:166-175 | a rewritten heading passes both list stages unchanged and is then wrapped in a paragraph |
| Pipeline.ListWrapped | markdown2html.py:166-175 | every line a list stage generates is plain text to the paragraph stage |
| Samples.HeadingSample | markdown2html.py:20-28 | `### Title` becomes `<h3>Title</h3>` |
| Samples.SevenHashesSample | markdown2html.py:22-27 | `####### x` is no heading and is left unchanged |
| Samples.UnorderedSample | markdown2html.py:31-64 | two `- ` items and another line become `<ul>`, two items, `</ul>`, then that line |
| Samples.OrderedSample | markdown2html.py:67-96 | one `* ` item and another line become `<ol>`, the item, `</ol>`, then that line |
| Samples.ParagraphSample | markdown2html.py:99-138 | two plain lines and a line that is not plain become `<p>`, the first line with `<br/>`, the second without, `</p>`, then that line |
| Samples.TextBreakSample | markdown2html.py:122-136 | a line whose own text ends in `<br/>`, such as `foo<br/>`, keeps it: the paragraph's last content line is `    foo<br/>\n` and still ends with `<br/>\n` |
| Samples.DocumentSample | markdown2html.py:166-175 | `# t` becomes `<p>`, `    <h1>t</h1>`, `</p>` |

## Left out

- Argument handling (`sys.argv`, the usage message and `exit(1)`, lines 147-154) is
  left out. It is process plumbing with no effect on the conversion.
- File handling (`os.path.exists`, `open`, `readlines`, `writelines`, `exit`) is left
  out. The lines read are the input sequence of `Pipeline.ConvertDocument`, and the
  lines written are its result. `Text.SingleLine` states what `readlines`
  guarantees about those lines, and `Pipeline.DocumentSingleLine` proves that all four
  stages keep it.
- Text.Strip: whitespace is the ASCII part of what `str.strip()` removes: tab, line
  feed, vertical tab, form feed, carriage return (9 to 13), the separators 28 to 31,
  and space. Non-ASCII Unicode whitespace is not modelled.
- f-strings are modelled as plain concatenation. The heading level is always between
  1 and 6, so it is rendered as a single digit.
- Text.ReplaceAll: models `str.replace` for a non-empty pattern only, which is the only
  way the source calls it (the pattern is `<br/>\n`).
- Lists.GroupList: the unordered and the ordered stage are one method, parameterised by
  the marker and the tag. The source spells them out as two functions that differ only
  in these two values.
- Paragraph.ParagraphStep: the body of the source's loop is a method of its own, called
  once per line. The statements are those of the source, in the same order.
