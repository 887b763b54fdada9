/** Stages 2 and 3, the unordered-list grouper (convert_markdown_ul_list_to_html) and the
    ordered-list grouper (convert_markdown_ol_list_to_html). The two functions of the
    source differ only in the marker character and the container tag, so both are one
    stage here, parameterised by the two. */
module Lists {
  import opened Text
  import opened Blocks

  /** A line that starts with the marker and a space is an item, showing the stripped
      text after those two characters; every other line is left alone. */
  function ListClass(line: string, marker: char): Class {
    if StartsWith(line, [marker, ' ']) then Member(Strip(line[2..])) else Other(line)
  }

  function ListClasses(lines: seq<string>, marker: char): seq<Class> {
    seq(|lines|, i requires 0 <= i < |lines| => ListClass(lines[i], marker))
  }

  /** The text of one emitted piece. */
  function ListLine(p: Piece, tag: string): string {
    match p
    case Open => "<" + tag + ">\n"
    case Inner(t) => "   <li>" + t + "</li>\n"
    case Keep(l) => l
    case Close => "</" + tag + ">\n"
  }

  /** The emitted lines, one per piece. */
  function RenderList(p: seq<Piece>, tag: string): (r: seq<string>)
    ensures |r| == |p|
    ensures forall i :: 0 <= i < |p| ==> r[i] == ListLine(p[i], tag)
    decreases |p|
  {
    if p == [] then [] else RenderList(p[..|p| - 1], tag) + [ListLine(p[|p| - 1], tag)]
  }

  /** A list stage over all lines. */
  function ListStage(lines: seq<string>, marker: char, tag: string): seq<string> {
    RenderList(Group(ListClasses(lines, marker)), tag)
  }

  /** Stage 2: items marked "- " grouped in "ul" containers. */
  function UnorderedLists(lines: seq<string>): seq<string> {
    ListStage(lines, '-', "ul")
  }

  /** Stage 3: items marked "* " grouped in "ol" containers. */
  function OrderedLists(lines: seq<string>): seq<string> {
    ListStage(lines, '*', "ol")
  }

  /** Emitting one more piece appends its line. */
  lemma RenderPush(p: seq<Piece>, x: Piece, tag: string)
    ensures RenderList(p + [x], tag) == RenderList(p, tag) + [ListLine(x, tag)]
  {
    assert (p + [x])[..|p|] == p;
  }

  /** One iteration of the source's loop, on the emitted lines: an item opens a list
      unless one is open and is emitted as an item; any other line closes an open list
      and is emitted unchanged. */
  lemma FeedRender(s: State, c: Class, tag: string)
    ensures var r := RenderList(s.pieces, tag);
            RenderList(Feed(s, c).pieces, tag) ==
              match c
              case Member(t) => (if s.open then r else r + ["<" + tag + ">\n"]) + ["   <li>" + t + "</li>\n"]
              case Other(l) => (if s.open then r + ["</" + tag + ">\n"] else r) + [l]
  {
    var p := s.pieces;
    match c
    case Member(t) =>
      if !s.open {
        RenderPush(p, Open, tag);
        RenderPush(p + [Open], Inner(t), tag);
      } else {
        RenderPush(p, Inner(t), tag);
      }
    case Other(l) =>
      if s.open {
        RenderPush(p, Close, tag);
        RenderPush(p + [Close], Keep(l), tag);
      } else {
        RenderPush(p, Keep(l), tag);
      }
  }

  /** The source's loop with its in_list flag. */
  method GroupList(lines: seq<string>, marker: char, tag: string) returns (out: seq<string>)
    ensures out == ListStage(lines, marker, tag)
  {
    ghost var cs := ListClasses(lines, marker);
    ghost var st := State([], false);
    var inList := false;
    out := [];
    for i := 0 to |lines|
      invariant st == Run(cs[..i])
      invariant inList == st.open
      invariant out == RenderList(st.pieces, tag)
    {
      RunSnoc(cs, i);
      FeedRender(st, cs[i], tag);
      var line := lines[i];
      if StartsWith(line, [marker, ' ']) {
        var content := Strip(line[2..]);
        if !inList {
          out := out + ["<" + tag + ">\n"];
          inList := true;
        }
        out := out + ["   <li>" + content + "</li>\n"];
      } else {
        if inList {
          out := out + ["</" + tag + ">\n"];
          inList := false;
        }
        out := out + [line];
      }
      st := Feed(st, cs[i]);
    }
    assert cs[..|lines|] == cs;
    if inList {
      RenderPush(st.pieces, Close, tag);
      out := out + ["</" + tag + ">\n"];
    }
  }

  method ConvertUnorderedLists(lines: seq<string>) returns (out: seq<string>)
    ensures out == UnorderedLists(lines)
  {
    out := GroupList(lines, '-', "ul");
  }

  method ConvertOrderedLists(lines: seq<string>) returns (out: seq<string>)
    ensures out == OrderedLists(lines)
  {
    out := GroupList(lines, '*', "ol");
  }

  /** The classes of a list stage's lines, given line by line. */
  lemma ClassesOf(lines: seq<string>, marker: char, cs: seq<Class>)
    requires |cs| == |lines|
    requires forall i :: 0 <= i < |lines| ==> ListClass(lines[i], marker) == cs[i]
    ensures ListClasses(lines, marker) == cs
  {
  }

  /** A line that does not start with the marker is no item. */
  lemma NotItem(h: string, marker: char)
    requires h != [] && h[0] != marker
    ensures ListClass(h, marker) == Other(h)
  {
  }

  /** Items, passthrough and balance of a list stage. With its inserted container lines
      taken out, the output holds one line per input line, in order: the item for a line
      that starts with the marker and a space, the line itself otherwise. The inserted
      opener and closer lines alternate, starting with an opener, and none is left open,
      even when the input ends inside a list; items come out inside a list and other
      lines outside one; each list is a maximal run of items; and the output is longer
      than the input by two lines per maximal run of items. */
  lemma ListStageShape(lines: seq<string>, marker: char, tag: string)
    ensures var cs := ListClasses(lines, marker);
            var p := Group(cs);
            var out := ListStage(lines, marker, tag);
            && |out| == |p|
            && (forall i :: 0 <= i < |p| ==> out[i] == ListLine(p[i], tag))
            && |Erase(p)| == |lines|
            && (forall j :: 0 <= j < |lines| ==>
                  Erase(p)[j] == if StartsWith(lines[j], [marker, ' '])
                                 then Member(Strip(lines[j][2..])) else Other(lines[j]))
            && Alternating(Markers(p)) && |Markers(p)| % 2 == 0
            && Nested(p) && Adjacent(p)
            && |out| == |lines| + 2 * Runs(cs)
  {
    var cs := ListClasses(lines, marker);
    GroupErase(cs);
    GroupShaped(cs);
    GroupLength(cs);
  }

  /** A line that a list stage passes through unchanged is an input line that is not
      one of its items. */
  lemma KeptLine(lines: seq<string>, marker: char, i: int)
    requires 0 <= i < |Group(ListClasses(lines, marker))|
    requires Group(ListClasses(lines, marker))[i].Keep?
    ensures var l := Group(ListClasses(lines, marker))[i].line;
            l in lines && !StartsWith(l, [marker, ' '])
  {
    var cs := ListClasses(lines, marker);
    var p := Group(cs);
    GroupErase(cs);
    EraseHas(p, i);
    var j :| 0 <= j < |cs| && cs[j] == Other(p[i].line);
    assert ListClass(lines[j], marker) == Other(p[i].line);
  }

  /** The text of an item that a list stage emits is the stripped rest of an input line. */
  lemma ItemText(lines: seq<string>, marker: char, i: int)
    requires 0 <= i < |Group(ListClasses(lines, marker))|
    requires Group(ListClasses(lines, marker))[i].Inner?
    ensures exists j :: 0 <= j < |lines| && StartsWith(lines[j], [marker, ' ']) &&
                        Group(ListClasses(lines, marker))[i].text == Strip(lines[j][2..])
  {
    var cs := ListClasses(lines, marker);
    var p := Group(cs);
    GroupErase(cs);
    EraseHas(p, i);
    var j :| 0 <= j < |cs| && cs[j] == Member(p[i].text);
    assert ListClass(lines[j], marker) == Member(p[i].text);
  }

  /** The lines a list stage generates start with '<' or a space, so they are items of
      no list whose marker is another character. */
  lemma GeneratedNotItem(p: Piece, tag: string, marker: char)
    requires !p.Keep? && marker != '<' && marker != ' '
    ensures !StartsWith(ListLine(p, tag), [marker, ' '])
  {
    var l := ListLine(p, tag);
    assert l[0] == '<' || l[0] == ' ';
  }

  /** After a list stage no line is an item of that list any more. */
  lemma ListLeavesNoItems(lines: seq<string>, marker: char, tag: string)
    requires marker != '<' && marker != ' '
    ensures forall l :: l in ListStage(lines, marker, tag) ==> !StartsWith(l, [marker, ' '])
  {
    var p := Group(ListClasses(lines, marker));
    var out := ListStage(lines, marker, tag);
    forall i | 0 <= i < |out| ensures !StartsWith(out[i], [marker, ' ']) {
      if p[i].Keep? {
        KeptLine(lines, marker, i);
      } else {
        GeneratedNotItem(p[i], tag, marker);
      }
    }
  }

  /** The ordered-list stage, run after the unordered one, leaves every line that the
      unordered stage generated alone: none of them is a "* " item. */
  lemma OrderedKeepsUnordered(lines: seq<string>)
    ensures var p := Group(ListClasses(lines, '-'));
            var u := UnorderedLists(lines);
            forall i :: 0 <= i < |p| && !p[i].Keep? ==> ListClass(u[i], '*') == Other(u[i])
  {
    var p := Group(ListClasses(lines, '-'));
    forall i | 0 <= i < |p| && !p[i].Keep?
      ensures ListClass(UnorderedLists(lines)[i], '*') == Other(UnorderedLists(lines)[i])
    {
      GeneratedNotItem(p[i], "ul", '*');
    }
  }

  /** One emitted line is a single line when its parts are. */
  lemma ListLineSingle(p: Piece, tag: string)
    requires '\n' !in tag
    requires p.Inner? ==> '\n' !in p.text
    requires p.Keep? ==> SingleLine(p.line)
    ensures SingleLine(ListLine(p, tag))
  {
    match p
    case Open =>
      LineOf("<" + tag + ">");
      assert ListLine(p, tag) == "<" + tag + ">" + "\n";
    case Close =>
      LineOf("</" + tag + ">");
      assert ListLine(p, tag) == "</" + tag + ">" + "\n";
    case Keep(l) =>
    case Inner(t) =>
      LineOf("   <li>" + t + "</li>");
      assert ListLine(p, tag) == "   <li>" + t + "</li>" + "\n";
  }

  /** Single input lines give single output lines. */
  lemma ListSingleLine(lines: seq<string>, marker: char, tag: string)
    requires forall j :: 0 <= j < |lines| ==> SingleLine(lines[j])
    requires '\n' !in tag
    ensures forall l :: l in ListStage(lines, marker, tag) ==> SingleLine(l)
  {
    var p := Group(ListClasses(lines, marker));
    var out := ListStage(lines, marker, tag);
    forall i | 0 <= i < |out| ensures SingleLine(out[i]) {
      if p[i].Keep? {
        KeptLine(lines, marker, i);
      }
      if p[i].Inner? {
        ItemText(lines, marker, i);
        var j :| 0 <= j < |lines| && StartsWith(lines[j], [marker, ' ']) && p[i].text == Strip(lines[j][2..]);
        SingleLineSuffix(lines[j], 2);
        StripSingleLine(lines[j][2..]);
      }
      ListLineSingle(p[i], tag);
    }
  }
}
