/** Stage 4, the paragraph grouper (convert_markdown_paragraph_to_html). */
module Paragraph {
  import opened Text
  import opened Blocks

  /** A stripped line is paragraph text when it is non-empty and starts with none of
      '#', '-' and '*'. Lines that earlier stages turned into tags start with '<' or a
      space before stripping, so they count as paragraph text too. */
  predicate IsPlain(stripped: string) {
    stripped != [] && stripped[0] != '#' && stripped[0] != '-' && stripped[0] != '*'
  }

  /** A plain line joins a paragraph with its stripped text; any other line, blank ones
      included, is left alone. */
  function ParaClass(line: string): Class {
    var s := Strip(line);
    if IsPlain(s) then Member(s) else Other(line)
  }

  function ParaClasses(lines: seq<string>): seq<Class> {
    seq(|lines|, i requires 0 <= i < |lines| => ParaClass(lines[i]))
  }

  /** A content line as first emitted, with its soft break. */
  function Content(t: string): string {
    "    " + t + Break
  }

  /** The text of piece i. A content line keeps its soft break when the next piece is
      content of the same paragraph, or when it is the last piece and the paragraph is
      still open (open holds); otherwise it is what the source's overwrite makes of it,
      the soft break replaced by a plain line feed. */
  function ParaLine(p: seq<Piece>, i: int, open: bool): string
    requires 0 <= i < |p|
  {
    match p[i]
    case Open => "<p>\n"
    case Close => "</p>\n"
    case Keep(l) => l
    case Inner(t) =>
      if (i + 1 < |p| && p[i + 1].Inner?) || (i + 1 == |p| && open) then Content(t)
      else ReplaceAll(Content(t), Break, "\n")
  }

  /** The emitted lines, one per piece. */
  function RenderPara(p: seq<Piece>, open: bool): (r: seq<string>)
    ensures |r| == |p|
    ensures forall i :: 0 <= i < |p| ==> r[i] == ParaLine(p, i, open)
  {
    seq(|p|, i requires 0 <= i < |p| => ParaLine(p, i, open))
  }

  /** The classes of stage 4's lines, given line by line. */
  lemma ParaClassesOf(lines: seq<string>, cs: seq<Class>)
    requires |cs| == |lines|
    requires forall i :: 0 <= i < |lines| ==> ParaClass(lines[i]) == cs[i]
    ensures ParaClasses(lines) == cs
  {
  }

  /** Stage 4 over all lines. */
  function Paragraphs(lines: seq<string>): seq<string> {
    RenderPara(Group(ParaClasses(lines)), false)
  }

  /** Emitting one more piece leaves the earlier lines as they were, provided a content
      line at the end keeps its soft break exactly when the new piece is content. */
  lemma ParaPush(p: seq<Piece>, x: Piece, open: bool, open': bool)
    requires p != [] && p[|p| - 1].Inner? ==> (x.Inner? <==> open)
    ensures RenderPara(p + [x], open') == RenderPara(p, open) + [ParaLine(p + [x], |p|, open')]
  {
    var q := p + [x];
    forall i | 0 <= i < |p| ensures ParaLine(q, i, open') == ParaLine(p, i, open) {
      assert q[i] == p[i];
      if i + 1 < |p| {
        assert q[i + 1] == p[i + 1];
      }
    }
  }

  /** The source's overwrite of the last emitted line when a paragraph closes: it turns
      the rendering of an open paragraph into that of a closed one. */
  lemma ParaCloseLast(p: seq<Piece>)
    requires p != [] && p[|p| - 1].Inner?
    ensures var r := RenderPara(p, true);
            r[|r| - 1 := ReplaceAll(r[|r| - 1], Break, "\n")] == RenderPara(p, false)
  {
  }

  /** While a paragraph is open, the last emitted line is its content line with the
      soft break still on. */
  lemma OpenLastLine(p: seq<Piece>)
    requires p != [] && p[|p| - 1].Inner?
    ensures |RenderPara(p, true)| == |p|
    ensures EndsWith(RenderPara(p, true)[|p| - 1], Break)
  {
    var t := p[|p| - 1].text;
    assert RenderPara(p, true)[|p| - 1] == ("    " + t) + Break;
  }

  /** One iteration of the source's loop, on the rendered lines: a plain line opens a
      paragraph unless one is open and is emitted as content with a soft break; any
      other line first closes an open paragraph, overwriting the last emitted line with
      its soft break replaced, and is then emitted unchanged. */
  lemma FeedRender(s: State, c: Class)
    requires s.open <==> s.pieces != [] && s.pieces[|s.pieces| - 1].Inner?
    ensures var r := RenderPara(s.pieces, s.open);
            var s' := Feed(s, c);
            RenderPara(s'.pieces, s'.open) ==
              match c
              case Member(t) => (if s.open then r else r + ["<p>\n"]) + [Content(t)]
              case Other(l) =>
                (if s.open then r[|r| - 1 := ReplaceAll(r[|r| - 1], Break, "\n")] + ["</p>\n"] else r) + [l]
  {
    var p := s.pieces;
    match c
    case Member(t) =>
      if !s.open {
        ParaPush(p, Open, false, false);
        ParaPush(p + [Open], Inner(t), false, true);
      } else {
        ParaPush(p, Inner(t), true, true);
      }
    case Other(l) =>
      if s.open {
        ParaCloseLast(p);
        ParaPush(p, Close, false, false);
        ParaPush(p + [Close], Keep(l), false, false);
      } else {
        ParaPush(p, Keep(l), false, false);
      }
  }

  /** The body of the source's loop, for one input line: a plain line opens a paragraph
      unless one is open and is emitted as content with a soft break; any other line
      first closes an open paragraph, overwriting the last emitted line with its soft
      break replaced, and is then emitted unchanged. Given the rendering of the grouping
      state so far, it yields the rendering of the state after the line. */
  method ParagraphStep(out: seq<string>, inParagraph: bool, line: string, ghost st: State)
    returns (out': seq<string>, inParagraph': bool)
    requires st.open <==> st.pieces != [] && st.pieces[|st.pieces| - 1].Inner?
    requires inParagraph == st.open && out == RenderPara(st.pieces, st.open)
    ensures inParagraph' == Feed(st, ParaClass(line)).open
    ensures out' == RenderPara(Feed(st, ParaClass(line)).pieces, inParagraph')
  {
    FeedRender(st, ParaClass(line));
    out', inParagraph' := out, inParagraph;
    var stripped := Strip(line);
    if stripped != [] && !(stripped[0] == '#' || stripped[0] == '-' || stripped[0] == '*') {
      if !inParagraph' {
        out' := out' + ["<p>\n"];
        inParagraph' := true;
      }
      out' := out' + ["    " + stripped + Break];
    } else {
      if inParagraph' {
        out' := out'[|out'| - 1 := ReplaceAll(out'[|out'| - 1], Break, "\n")];
        out' := out' + ["</p>\n"];
        inParagraph' := false;
      }
      out' := out' + [line];
    }
  }

  /** The source's loop with its in_paragraph flag, and the closing of a paragraph still
      open at the end. Whenever the flag is set, the last emitted line is the content
      line of the open paragraph with its soft break, so the overwrite touches only it. */
  method ConvertParagraphs(lines: seq<string>) returns (out: seq<string>)
    ensures out == Paragraphs(lines)
  {
    ghost var cs := ParaClasses(lines);
    ghost var st := State([], false);
    out := [];
    var inParagraph := false;
    for i := 0 to |lines|
      invariant st == Run(cs[..i])
      invariant inParagraph == st.open
      invariant out == RenderPara(st.pieces, inParagraph)
    {
      RunSnoc(cs, i);
      RunOpen(cs[..i]);
      out, inParagraph := ParagraphStep(out, inParagraph, lines[i], st);
      st := Feed(st, cs[i]);
    }
    assert cs[..|lines|] == cs;
    RunOpen(cs);
    if inParagraph {
      ParaCloseLast(st.pieces);
      ParaPush(st.pieces, Close, false, false);
      out := out[|out| - 1 := ReplaceAll(out[|out| - 1], Break, "\n")];
      out := out + ["</p>\n"];
    }
  }

  /** Grouping, passthrough and balance of stage 4. With the inserted "<p>" and "</p>"
      lines taken out, the pieces hold one entry per input line, in order: the stripped
      text of a plain line, the line itself otherwise. The inserted lines alternate,
      starting with an opener, and none is left open, even when the input ends inside a
      paragraph; content lines come out inside a paragraph and other lines outside one;
      each paragraph is a maximal run of plain lines; every other line is emitted
      unchanged; and the output is longer than the input by two lines per paragraph. */
  lemma ParagraphShape(lines: seq<string>)
    ensures var cs := ParaClasses(lines);
            var p := Group(cs);
            var out := Paragraphs(lines);
            && |out| == |p|
            && |Erase(p)| == |lines|
            && (forall j :: 0 <= j < |lines| ==>
                  Erase(p)[j] == if IsPlain(Strip(lines[j])) then Member(Strip(lines[j])) else Other(lines[j]))
            && (forall i :: 0 <= i < |p| && p[i].Open? ==> out[i] == "<p>\n")
            && (forall i :: 0 <= i < |p| && p[i].Close? ==> out[i] == "</p>\n")
            && (forall i :: 0 <= i < |p| && p[i].Keep? ==> out[i] == p[i].line)
            && Alternating(Markers(p)) && |Markers(p)| % 2 == 0
            && Nested(p) && Adjacent(p)
            && |out| == |lines| + 2 * Runs(cs)
  {
    var cs := ParaClasses(lines);
    GroupErase(cs);
    GroupShaped(cs);
    GroupLength(cs);
  }

  /** The text of a content line is a plain input line, stripped. */
  lemma ContentText(lines: seq<string>, i: int)
    requires 0 <= i < |Group(ParaClasses(lines))|
    requires Group(ParaClasses(lines))[i].Inner?
    ensures exists j :: 0 <= j < |lines| && IsPlain(Strip(lines[j])) &&
                        Group(ParaClasses(lines))[i].text == Strip(lines[j])
  {
    var cs := ParaClasses(lines);
    var p := Group(cs);
    GroupErase(cs);
    EraseHas(p, i);
    var j :| 0 <= j < |cs| && cs[j] == Member(p[i].text);
    assert ParaClass(lines[j]) == Member(p[i].text);
  }

  /** Soft breaks: for lines as readlines() gives them, every content line of stage 4's
      output is the stripped text indented by four spaces, followed by "<br/>" and a
      line feed when the next line of the same paragraph follows it, and by a bare line
      feed when it is the last line of its paragraph, which is then closed by the next
      output line. Only the appended soft break is removed: a text that itself ends in
      "<br/>" keeps it, so such a last line still ends with "<br/>" and a line feed. */
  lemma ParagraphBreaks(lines: seq<string>)
    requires forall j :: 0 <= j < |lines| ==> SingleLine(lines[j])
    ensures var p := Group(ParaClasses(lines));
            var out := Paragraphs(lines);
            forall i :: 0 <= i < |p| && p[i].Inner? ==>
              && i + 1 < |p| && (p[i + 1].Inner? || p[i + 1].Close?)
              && out[i] == "    " + p[i].text + (if p[i + 1].Inner? then Break else "\n")
  {
    var p := Group(ParaClasses(lines));
    forall i | 0 <= i < |p| && p[i].Inner?
      ensures i + 1 < |p| && (p[i + 1].Inner? || p[i + 1].Close?)
      ensures Paragraphs(lines)[i] == "    " + p[i].text + (if p[i + 1].Inner? then Break else "\n")
    {
      ContentBreak(lines, i);
    }
  }

  lemma ContentBreak(lines: seq<string>, i: int)
    requires forall j :: 0 <= j < |lines| ==> SingleLine(lines[j])
    requires 0 <= i < |Group(ParaClasses(lines))|
    requires Group(ParaClasses(lines))[i].Inner?
    ensures var p := Group(ParaClasses(lines));
            && i + 1 < |p| && (p[i + 1].Inner? || p[i + 1].Close?)
            && Paragraphs(lines)[i] == "    " + p[i].text + (if p[i + 1].Inner? then Break else "\n")
  {
    var cs := ParaClasses(lines);
    var p := Group(cs);
    assert Adjacent(p) && !p[|p| - 1].Inner? by {
      GroupShaped(cs);
    }
    assert '\n' !in p[i].text by {
      ContentText(lines, i);
      var j :| 0 <= j < |lines| && IsPlain(Strip(lines[j])) && p[i].text == Strip(lines[j]);
      StripSingleLine(lines[j]);
    }
    InnerLine(p, i);
  }

  /** A content line inside a closed rendering, when the pieces follow one another as
      the stage emits them. */
  lemma InnerLine(p: seq<Piece>, i: int)
    requires Adjacent(p) && p != [] && !p[|p| - 1].Inner?
    requires 0 <= i < |p| && p[i].Inner? && '\n' !in p[i].text
    ensures i + 1 < |p| && (p[i + 1].Inner? || p[i + 1].Close?)
    ensures ParaLine(p, i, false) == "    " + p[i].text + (if p[i + 1].Inner? then Break else "\n")
  {
    assert Follows(p[i], p[i + 1]);
    var t := p[i].text;
    if !p[i + 1].Inner? {
      assert '\n' !in "    " + t;
      DropBreak("    " + t);
    }
  }

  /** The loop's flag, stated on the lines emitted so far: after any number of input
      lines, while a paragraph is open the emitted lines are not empty and the last of
      them is a content line that still ends with the soft break, so the overwrite on
      closing has a line to act on and acts on a content line. */
  lemma ParagraphFlag(lines: seq<string>, i: int)
    requires 0 <= i <= |lines|
    ensures var s := Run(ParaClasses(lines)[..i]);
            var r := RenderPara(s.pieces, s.open);
            s.open ==> |r| > 0 && EndsWith(r[|r| - 1], Break)
  {
    var s := Run(ParaClasses(lines)[..i]);
    RunOpen(ParaClasses(lines)[..i]);
    if s.open {
      OpenLastLine(s.pieces);
    }
  }

  /** A line emitted by stage 4 is a single line when the input lines are. */
  lemma ParaSingleLine(lines: seq<string>)
    requires forall j :: 0 <= j < |lines| ==> SingleLine(lines[j])
    ensures forall l :: l in Paragraphs(lines) ==> SingleLine(l)
  {
    var cs := ParaClasses(lines);
    var p := Group(cs);
    var out := Paragraphs(lines);
    forall i | 0 <= i < |out| ensures SingleLine(out[i]) {
      PieceSingleLine(lines, i);
    }
  }

  lemma PieceSingleLine(lines: seq<string>, i: int)
    requires forall j :: 0 <= j < |lines| ==> SingleLine(lines[j])
    requires 0 <= i < |Group(ParaClasses(lines))|
    ensures SingleLine(Paragraphs(lines)[i])
  {
    var p := Group(ParaClasses(lines));
    var l := Paragraphs(lines)[i];
    assert l == ParaLine(p, i, false);
    match p[i]
    case Open =>
      LineOf("<p>");
      assert l == "<p>" + "\n";
    case Close =>
      LineOf("</p>");
      assert l == "</p>" + "\n";
    case Keep(k) =>
      ParaKept(lines, i);
    case Inner(t) =>
      ContentBreak(lines, i);
      assert '\n' !in t by {
        ContentText(lines, i);
        var j :| 0 <= j < |lines| && IsPlain(Strip(lines[j])) && t == Strip(lines[j]);
        StripSingleLine(lines[j]);
      }
      ContentSingle(t);
  }

  /** A line that stage 4 passes through unchanged is an input line that is not plain. */
  lemma ParaKept(lines: seq<string>, i: int)
    requires 0 <= i < |Group(ParaClasses(lines))|
    requires Group(ParaClasses(lines))[i].Keep?
    ensures var l := Group(ParaClasses(lines))[i].line;
            l in lines && !IsPlain(Strip(l))
  {
    var cs := ParaClasses(lines);
    var p := Group(cs);
    GroupErase(cs);
    EraseHas(p, i);
    var j :| 0 <= j < |cs| && cs[j] == Other(p[i].line);
    assert ParaClass(lines[j]) == Other(p[i].line);
  }

  /** Both forms of a content line are single lines. */
  lemma ContentSingle(t: string)
    requires '\n' !in t
    ensures SingleLine("    " + t + Break) && SingleLine("    " + t + "\n")
  {
    LineOf("    " + t + "<br/>");
    assert "    " + t + Break == "    " + t + "<br/>" + "\n";
    LineOf("    " + t);
  }
}
