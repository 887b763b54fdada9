/** Stage 1, the heading rewriter (convert_markdown_heading_to_html). */
module Heading {
  import opened Text

  datatype Option<T> = None | Some(value: T)

  /** The prefix of a level-`level` heading: that many '#' and one space. */
  function Marker(level: nat): (m: string)
    ensures |m| == level + 1 && m[level] == ' '
    ensures forall k :: 0 <= k < level ==> m[k] == '#'
  {
    seq(level, _ => '#') + " "
  }

  /** The source's inner loop: the first level, counting down from i to 1, whose
      marker starts the line; no level at all when none does. */
  function MatchFrom(line: string, i: nat): (r: Option<nat>)
    requires i <= 6
    ensures r.Some? ==> 1 <= r.value <= i && StartsWith(line, Marker(r.value))
    ensures forall k :: (if r.Some? then r.value else 0) < k <= i ==> !StartsWith(line, Marker(k))
  {
    if i == 0 then None
    else if StartsWith(line, Marker(i)) then Some(i)
    else MatchFrom(line, i - 1)
  }

  /** The heading level of a line, tried from 6 down to 1. */
  function Level(line: string): Option<nat> {
    MatchFrom(line, 6)
  }

  /** The number of '#' characters a string starts with. */
  function LeadingHashes(s: string): (n: nat)
    ensures n <= |s|
    ensures forall k :: 0 <= k < n ==> s[k] == '#'
    ensures n == |s| || s[n] != '#'
  {
    if s != [] && s[0] == '#' then 1 + LeadingHashes(s[1..]) else 0
  }

  /** A level-k marker starts a line exactly when the line has k leading '#' and then a
      space; so at most one level can match. */
  lemma MarkerMatch(line: string, k: nat)
    ensures StartsWith(line, Marker(k)) <==> LeadingHashes(line) == k && k < |line| && line[k] == ' '
  {
    var m := Marker(k);
    if StartsWith(line, m) {
      forall j | 0 <= j < k ensures line[j] == '#' {
        assert line[j] == line[..k + 1][j];
      }
      assert line[k] == line[..k + 1][k];
      HashesUpTo(line, k);
    }
    if LeadingHashes(line) == k && k < |line| && line[k] == ' ' {
      assert line[..k + 1] == m;
    }
  }

  /** The count of leading '#' is the index of the first other character. */
  lemma HashesUpTo(line: string, k: nat)
    requires k < |line| && line[k] != '#'
    requires forall j :: 0 <= j < k ==> line[j] == '#'
    ensures LeadingHashes(line) == k
  {
    var n := LeadingHashes(line);
    assert n <= k;
  }

  /** The level of a line, stated independently of the countdown: the number of leading
      '#' when it is between 1 and 6 and a space follows them, otherwise none. Because
      at most one marker can match, the order in which the source tries the levels does
      not matter, and a line with 7 or more leading '#' is no heading. */
  lemma LevelExact(line: string)
    ensures var n := LeadingHashes(line);
            Level(line) == if 1 <= n <= 6 && n < |line| && line[n] == ' ' then Some(n) else None
  {
    var n := LeadingHashes(line);
    forall k | 1 <= k <= 6
      ensures StartsWith(line, Marker(k)) <==> LeadingHashes(line) == k && k < |line| && line[k] == ' '
    {
      MarkerMatch(line, k);
    }
  }

  /** The decimal digit of a level. */
  function Digit(i: nat): char
    requires i <= 9
  {
    (48 + i) as char
  }

  /** The element that replaces a heading line. */
  function Tag(level: nat, text: string): string
    requires level <= 9
  {
    "<h" + [Digit(level)] + ">" + text + "</h" + [Digit(level)] + ">\n"
  }

  /** What stage 1 makes of one line. */
  function HeadingLine(line: string): string {
    match Level(line)
    case None => line
    case Some(i) => Tag(i, Strip(line[i + 1..]))
  }

  /** Stage 1 over all lines. */
  function Headings(lines: seq<string>): seq<string> {
    seq(|lines|, j requires 0 <= j < |lines| => HeadingLine(lines[j]))
  }

  /** Passthrough: a line is left exactly as it was, terminator included, if and only if
      it is not a heading; a heading line always changes, since it comes out starting
      with '<' where it started with '#'. */
  lemma HeadingLineUnchanged(line: string)
    ensures HeadingLine(line) == line <==> Level(line).None?
  {
    match Level(line)
    case None =>
    case Some(i) =>
      assert line[0] == Marker(i)[0] == '#';
      assert HeadingLine(line)[0] == '<';
  }

  /** Rewrite: a line with exactly i leading '#' (1 <= i <= 6) and then a space becomes
      the level-i element around the stripped rest of the line. */
  lemma HeadingRewrite(line: string, i: nat)
    requires 1 <= i <= 6 && LeadingHashes(line) == i && i < |line| && line[i] == ' '
    ensures HeadingLine(line) == "<h" + [Digit(i)] + ">" + Strip(line[i + 1..]) + "</h" + [Digit(i)] + ">\n"
  {
    LevelExact(line);
    assert Level(line) == Some(i);
    assert HeadingLine(line) == Tag(i, Strip(line[i + 1..]));
  }

  /** A single line stays a single line through stage 1. */
  lemma HeadingSingleLine(line: string)
    requires SingleLine(line)
    ensures SingleLine(HeadingLine(line))
  {
    match Level(line)
    case None =>
    case Some(i) =>
      SingleLineSuffix(line, i + 1);
      StripSingleLine(line[i + 1..]);
      TagSingleLine(i, Strip(line[i + 1..]));
  }

  lemma TagSingleLine(level: nat, text: string)
    requires level <= 9 && '\n' !in text
    ensures SingleLine(Tag(level, text))
  {
    var d := [Digit(level)];
    var a := "<h" + d + ">" + text + "</h" + d + ">";
    assert '\n' !in a;
    LineOf(a);
    assert ">\n" == ">" + "\n";
    assert Tag(level, text) == a + "\n";
  }

  /** The source's loop: for each line, try the levels from 6 down to 1 and rewrite the
      line at the first that matches. Every line yields exactly one output line. */
  method ConvertHeadings(lines: seq<string>) returns (out: seq<string>)
    ensures |out| == |lines|
    ensures forall j :: 0 <= j < |lines| ==> out[j] == HeadingLine(lines[j])
  {
    out := [];
    for j := 0 to |lines|
      invariant |out| == j
      invariant forall k :: 0 <= k < j ==> out[k] == HeadingLine(lines[k])
    {
      var line := lines[j];
      var i := 6;
      while i > 0
        invariant 0 <= i <= 6
        invariant line == lines[j]
        invariant Level(lines[j]) == MatchFrom(lines[j], i)
      {
        if StartsWith(line, Marker(i)) {
          line := Tag(i, Strip(line[i + 1..]));
          break;
        }
        i := i - 1;
      }
      out := out + [line];
    }
  }
}
