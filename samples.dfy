/** Worked inputs of the converter, stage by stage and end to end. */
module Samples {
  import opened Text
  import opened Blocks
  import opened Heading
  import opened Lists
  import opened Paragraph
  import opened Pipeline

  /** "### Title" is a level-3 heading. */
  lemma HeadingSample()
    ensures Headings(["### Title\n"]) == ["<h3>Title</h3>\n"]
  {
    TitleLine();
    OneLine("### Title\n");
  }

  lemma TitleLine()
    ensures HeadingLine("### Title\n") == "<h3>Title</h3>\n"
  {
    var line := "### Title\n";
    assert HeadingLine(line) == Tag(3, Strip(line[4..])) by {
      TitleHashes();
      HeadingRewrite(line, 3);
    }
    assert Strip(line[4..]) == "Title" by { TitleText(); }
    TitleTag();
  }

  lemma OneLine(line: string)
    ensures Headings([line]) == [HeadingLine(line)]
  {
  }

  lemma TitleHashes()
    ensures LeadingHashes("### Title\n") == 3
  {
    var line := "### Title\n";
    assert LeadingHashes(line[3..]) == 0;
  }

  lemma TitleText()
    ensures Strip("### Title\n"[4..]) == "Title"
  {
    assert "### Title\n"[4..] == "Title" + "\n";
    StripLine("Title");
  }

  lemma TitleTag()
    ensures Tag(3, "Title") == "<h3>Title</h3>\n"
  {
    assert Digit(3) == '3';
  }

  /** Seven '#' are no heading: the line is left unchanged. */
  lemma SevenHashesSample()
    ensures Headings(["####### x\n"]) == ["####### x\n"]
  {
    var line := "####### x\n";
    assert Level(line) == None by {
      SevenHashes();
      LevelExact(line);
    }
  }

  lemma SevenHashes()
    ensures LeadingHashes("####### x\n") == 7
  {
    HashesUpTo("####### x\n", 7);
  }

  /** Text with no whitespace at either end, as an item or a paragraph line shows it. */
  predicate Trimmed(t: string) {
    t != [] && !IsSpace(t[0]) && !IsSpace(t[|t| - 1])
  }

  /** Two "- " items and a line that is no item: one list around the two items, and the
      other line after it. */
  lemma UnorderedSample(a: string, b: string, x: string)
    requires Trimmed(a) && Trimmed(b) && x != [] && x[0] != '-'
    ensures UnorderedLists(["- " + a + "\n", "- " + b + "\n", x]) ==
            ["<ul>\n", "   <li>" + a + "</li>\n", "   <li>" + b + "</li>\n", "</ul>\n", x]
  {
    var lines := ["- " + a + "\n", "- " + b + "\n", x];
    TwoItemsClasses(a, b, x);
    TwoThenOther(a, b, x);
    RenderTwo(a, b, x);
  }

  lemma TwoItemsClasses(a: string, b: string, x: string)
    requires Trimmed(a) && Trimmed(b) && x != [] && x[0] != '-'
    ensures ListClasses(["- " + a + "\n", "- " + b + "\n", x], '-') == [Member(a), Member(b), Other(x)]
  {
    var lines := ["- " + a + "\n", "- " + b + "\n", x];
    var cs := [Member(a), Member(b), Other(x)];
    forall i | 0 <= i < 3 ensures ListClass(lines[i], '-') == cs[i] {
      if i == 0 { ItemClass(lines[0], '-', a); }
      else if i == 1 { ItemClass(lines[1], '-', b); }
      else { NotItem(x, '-'); }
    }
    ClassesOf(lines, '-', cs);
  }

  lemma RenderTwo(a: string, b: string, x: string)
    ensures RenderList([Open, Inner(a), Inner(b), Close, Keep(x)], "ul") ==
            ["<ul>\n", "   <li>" + a + "</li>\n", "   <li>" + b + "</li>\n", "</ul>\n", x]
  {
    assert "<" + "ul" + ">\n" == "<ul>\n";
    assert "</" + "ul" + ">\n" == "</ul>\n";
  }

  /** One "* " item and a line that is no item: one ordered list around the item. */
  lemma OrderedSample(a: string, x: string)
    requires Trimmed(a) && x != [] && x[0] != '*'
    ensures OrderedLists(["* " + a + "\n", x]) == ["<ol>\n", "   <li>" + a + "</li>\n", "</ol>\n", x]
  {
    var lines := ["* " + a + "\n", x];
    OneItemClasses(a, x);
    OneThenOther(a, x);
    RenderOne(a, x);
  }

  lemma OneItemClasses(a: string, x: string)
    requires Trimmed(a) && x != [] && x[0] != '*'
    ensures ListClasses(["* " + a + "\n", x], '*') == [Member(a), Other(x)]
  {
    var lines := ["* " + a + "\n", x];
    var cs := [Member(a), Other(x)];
    forall i | 0 <= i < 2 ensures ListClass(lines[i], '*') == cs[i] {
      if i == 0 { ItemClass(lines[0], '*', a); } else { NotItem(x, '*'); }
    }
    ClassesOf(lines, '*', cs);
  }

  lemma RenderOne(a: string, x: string)
    ensures RenderList([Open, Inner(a), Close, Keep(x)], "ol") ==
            ["<ol>\n", "   <li>" + a + "</li>\n", "</ol>\n", x]
  {
    assert "<" + "ol" + ">\n" == "<ol>\n";
    assert "</" + "ol" + ">\n" == "</ol>\n";
  }

  /** An item line classifies as its text when that text has no whitespace around it. */
  lemma ItemClass(line: string, marker: char, t: string)
    requires Trimmed(t) && line == [marker, ' '] + t + "\n"
    ensures ListClass(line, marker) == Member(t)
  {
    assert line[..2] == [marker, ' '];
    assert line[2..] == t + "\n";
    StripLine(t);
  }

  /** A member and then another line make one block of one. */
  lemma OneThenOther(a: string, x: string)
    ensures Group([Member(a), Other(x)]) == [Open, Inner(a), Close, Keep(x)]
  {
    var cs := [Member(a), Other(x)];
    assert cs[..1] == [Member(a)];
    assert Run([Member(a)]) == State([Open, Inner(a)], true);
  }

  /** Two members and then another line make one block of two. */
  lemma TwoThenOther(a: string, b: string, x: string)
    ensures Group([Member(a), Member(b), Other(x)]) == [Open, Inner(a), Inner(b), Close, Keep(x)]
  {
    var cs := [Member(a), Member(b), Other(x)];
    assert cs[..2] == [Member(a), Member(b)];
    assert cs[..2][..1] == [Member(a)];
    assert Run([Member(a)]) == State([Open, Inner(a)], true);
    assert Run(cs[..2]) == State([Open, Inner(a), Inner(b)], true);
  }

  /** Two plain lines and a line that is not plain: one paragraph, the first line with
      a soft break, the last without. */
  lemma ParagraphSample(a: string, b: string, x: string)
    requires Trimmed(a) && Trimmed(b) && IsPlain(a) && IsPlain(b) && '\n' !in a && '\n' !in b
    requires !IsPlain(Strip(x))
    ensures Paragraphs([a + "\n", b + "\n", x]) ==
            ["<p>\n", "    " + a + "<br/>\n", "    " + b + "\n", "</p>\n", x]
  {
    var lines := [a + "\n", b + "\n", x];
    var cs := [Member(a), Member(b), Other(x)];
    forall i | 0 <= i < 3 ensures ParaClass(lines[i]) == cs[i] {
      if i == 0 { StripLine(a); } else if i == 1 { StripLine(b); }
    }
    ParaClassesOf(lines, cs);
    TwoThenOther(a, b, x);
    RenderPara2(a, b, x);
  }

  lemma RenderPara2(a: string, b: string, x: string)
    requires '\n' !in b
    ensures RenderPara([Open, Inner(a), Inner(b), Close, Keep(x)], false) ==
            ["<p>\n", "    " + a + "<br/>\n", "    " + b + "\n", "</p>\n", x]
  {
    var p := [Open, Inner(a), Inner(b), Close, Keep(x)];
    assert ParaLine(p, 1, false) == "    " + a + "<br/>\n";
    assert '\n' !in "    " + b;
    DropBreak("    " + b);
    assert ParaLine(p, 2, false) == "    " + b + "\n";
  }

  /** A "<br/>" in the line's own text is kept: the overwrite removes only the soft
      break the stage appended, so for a line such as "foo<br/>" the last content line
      still ends with "<br/>" and a line feed. */
  lemma TextBreakSample(a: string)
    requires Trimmed(a) && IsPlain(a) && '\n' !in a
    ensures Paragraphs([a + "<br/>\n"]) == ["<p>\n", "    " + a + "<br/>\n", "</p>\n"]
    ensures EndsWith(Paragraphs([a + "<br/>\n"])[1], Break)
  {
    var s := a + "<br/>";
    assert Paragraphs([s + "\n"]) == ["<p>\n", "    " + s + "\n", "</p>\n"] by {
      assert s[0] == a[0] && s[|s| - 1] == '>';
      assert '\n' !in s;
      WrapLine(s);
    }
    BreakText(a);
  }

  lemma BreakText(a: string)
    ensures (a + "<br/>") + "\n" == a + "<br/>\n"
    ensures "    " + (a + "<br/>") + "\n" == "    " + a + "<br/>\n"
    ensures EndsWith("    " + a + "<br/>\n", Break)
  {
    var l := "    " + a + "<br/>\n";
    assert l[|l| - |Break|..] == Break;
  }

  /** End to end: a level-1 heading passes both list stages and is then wrapped in a
      paragraph as plain text. */
  lemma DocumentSample(t: string)
    requires Trimmed(t) && '\n' !in t
    ensures Document(["# " + t + "\n"]) == ["<p>\n", "    <h1>" + t + "</h1>\n", "</p>\n"]
  {
    var line := "# " + t + "\n";
    var d := "<h1>" + t + "</h1>";
    var l := d + "\n";
    assert Headings([line]) == [l] by {
      H1Line(t);
    }
    assert OrderedLists(UnorderedLists([l])) == [l] by {
      H1Shape(t);
      PassLists(l);
    }
    assert Paragraphs([l]) == ["<p>\n", "    <h1>" + t + "</h1>\n", "</p>\n"] by {
      H1Shape(t);
      WrapLine(d);
      H1Content(t);
    }
  }

  lemma H1Shape(t: string)
    requires Trimmed(t) && '\n' !in t
    ensures var d := "<h1>" + t + "</h1>";
            Trimmed(d) && IsPlain(d) && '\n' !in d && (d + "\n")[0] == '<'
  {
  }

  lemma H1Content(t: string)
    ensures "    " + ("<h1>" + t + "</h1>") + "\n" == "    <h1>" + t + "</h1>\n"
  {
  }

  lemma H1Line(t: string)
    requires Trimmed(t)
    ensures HeadingLine("# " + t + "\n") == "<h1>" + t + "</h1>" + "\n"
  {
    var line := "# " + t + "\n";
    H1Hashes(t);
    HeadingRewrite(line, 1);
    H1Text(t);
    H1Tag(t);
  }

  lemma H1Tag(t: string)
    ensures "<h" + [Digit(1)] + ">" + t + "</h" + [Digit(1)] + ">\n" == "<h1>" + t + "</h1>" + "\n"
  {
    assert Digit(1) == '1';
  }

  lemma H1Hashes(t: string)
    ensures LeadingHashes("# " + t + "\n") == 1
  {
    var line := "# " + t + "\n";
    assert line[1..][0] == ' ';
  }

  lemma H1Text(t: string)
    requires Trimmed(t)
    ensures Strip(("# " + t + "\n")[2..]) == t
  {
    assert ("# " + t + "\n")[2..] == t + "\n";
    StripLine(t);
  }

  /** A line starting with '<' goes through both list stages unchanged. */
  lemma PassLists(l: string)
    requires l != [] && l[0] == '<'
    ensures OrderedLists(UnorderedLists([l])) == [l]
  {
    NotItem(l, '-');
    ClassesOf([l], '-', [Other(l)]);
    assert [Other(l)][..0] == [];
    assert Run([Other(l)]) == State([Keep(l)], false);
    NotItem(l, '*');
    ClassesOf([l], '*', [Other(l)]);
  }

  /** A lone plain line becomes a paragraph of one line, without a soft break. */
  lemma WrapLine(s: string)
    requires Trimmed(s) && IsPlain(s) && '\n' !in s
    ensures Paragraphs([s + "\n"]) == ["<p>\n", "    " + s + "\n", "</p>\n"]
  {
    StripLine(s);
    ParaClassesOf([s + "\n"], [Member(s)]);
    assert Run([Member(s)]) == State([Open, Inner(s)], true);
    var p := [Open, Inner(s), Close];
    assert '\n' !in "    " + s;
    DropBreak("    " + s);
    assert ParaLine(p, 1, false) == "    " + s + "\n";
  }
}
