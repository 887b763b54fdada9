/** The composition of the four stages (main, with the file reading and writing left to
    the caller): headings first, then unordered lists, then ordered lists, then
    paragraphs, each stage reading the lines the previous one produced. */
module Pipeline {
  import opened Text
  import opened Blocks
  import opened Heading
  import opened Lists
  import opened Paragraph

  /** The lines written to the output file for the lines read from the input file. */
  function Document(lines: seq<string>): seq<string> {
    Paragraphs(OrderedLists(UnorderedLists(Headings(lines))))
  }

  /** main's four calls, in order. */
  method ConvertDocument(lines: seq<string>) returns (out: seq<string>)
    ensures out == Document(lines)
  {
    var h := ConvertHeadings(lines);
    assert h == Headings(lines);
    var u := ConvertUnorderedLists(h);
    var o := ConvertOrderedLists(u);
    out := ConvertParagraphs(o);
  }

  /** Lines as readlines() gives them stay single lines through every stage, so the
      written file has exactly the lines of the output sequence. */
  lemma DocumentSingleLine(lines: seq<string>)
    requires forall j :: 0 <= j < |lines| ==> SingleLine(lines[j])
    ensures forall l :: l in Document(lines) ==> SingleLine(l)
  {
    var h := Headings(lines);
    forall j | 0 <= j < |h| ensures SingleLine(h[j]) {
      HeadingSingleLine(lines[j]);
    }
    var u := UnorderedLists(h);
    ListSingleLine(h, '-', "ul");
    assert forall j :: 0 <= j < |u| ==> SingleLine(u[j]) by {
      forall j | 0 <= j < |u| ensures SingleLine(u[j]) { assert u[j] in u; }
    }
    var o := OrderedLists(u);
    ListSingleLine(u, '*', "ol");
    assert forall j :: 0 <= j < |o| ==> SingleLine(o[j]) by {
      forall j | 0 <= j < |o| ensures SingleLine(o[j]) { assert o[j] in o; }
    }
    ParaSingleLine(o);
  }

  /** Cross-stage coupling: a rewritten heading is an item of neither list stage, so both
      pass it through, and the paragraph stage then takes it for plain text, because it
      starts with '<', and wraps it in a paragraph. */
  lemma HeadingWrapped(line: string)
    requires Level(line).Some?
    ensures var h := HeadingLine(line);
            && ListClass(h, '-') == Other(h)
            && ListClass(h, '*') == Other(h)
            && ParaClass(h) == Member(Strip(h))
            && Strip(h)[0] == '<'
  {
    var i := Level(line).value;
    TagFirst(i, Strip(line[i + 1..]));
    TagLine(HeadingLine(line));
  }

  /** A line starting with '<' is no list item and is plain text to the paragraph stage. */
  lemma TagLine(h: string)
    requires h != [] && h[0] == '<'
    ensures && ListClass(h, '-') == Other(h)
            && ListClass(h, '*') == Other(h)
            && ParaClass(h) == Member(Strip(h))
            && Strip(h)[0] == '<'
  {
    NotItem(h, '-');
    NotItem(h, '*');
    StripFirst(h, 0);
    assert IsPlain(Strip(h));
  }

  lemma TagFirst(level: nat, text: string)
    requires level <= 9
    ensures Tag(level, text) != [] && Tag(level, text)[0] == '<'
  {
    assert Tag(level, text) == "<" + ("h" + [Digit(level)] + ">" + text + "</h" + [Digit(level)] + ">\n");
  }

  /** Cross-stage coupling: every line a list stage inserts or rewrites (container tags
      and items) is taken for plain text by the paragraph stage, and so is wrapped in a
      paragraph. */
  lemma ListWrapped(p: Piece, tag: string)
    requires !p.Keep?
    ensures var l := ListLine(p, tag);
            ParaClass(l) == Member(Strip(l)) && Strip(l)[0] == '<'
  {
    var l := ListLine(p, tag);
    match p
    case Open => StripFirst(l, 0);
    case Close => StripFirst(l, 0);
    case Inner(t) =>
      assert l[..7] == "   <li>";
      StripFirst(l, 3);
  }
}
