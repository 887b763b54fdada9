/** String primitives the converter relies on: Python's str.strip, str.startswith and
    str.replace, written out on sequences of characters. */
module Text {

  /** The soft-break suffix that the paragraph stage appends to a content line. */
  const Break: string := "<br/>\n"

  /** Whitespace as str.strip() sees it, restricted to ASCII: tab, line feed, vertical
      tab, form feed, carriage return (9..13), the four separators 28..31, and space. */
  predicate IsSpace(c: char) {
    c == ' ' || 9 <= c as int <= 13 || 28 <= c as int <= 31
  }

  /** str.startswith with a single prefix. */
  predicate StartsWith(s: string, prefix: string) {
    |prefix| <= |s| && s[..|prefix|] == prefix
  }

  /** str.endswith with a single suffix. */
  predicate EndsWith(s: string, suffix: string) {
    |suffix| <= |s| && s[|s| - |suffix|..] == suffix
  }

  /** A line as readlines() produces it: no line feed except possibly the last character. */
  predicate SingleLine(s: string) {
    forall k :: 0 <= k < |s| - 1 ==> s[k] != '\n'
  }

  /** Drops leading whitespace: the result is a suffix of s, and exactly the whitespace
      before it is gone. */
  function TrimStart(s: string): (r: string)
    ensures |r| <= |s| && r == s[|s| - |r|..]
    ensures r == [] || !IsSpace(r[0])
    ensures forall k :: 0 <= k < |s| - |r| ==> IsSpace(s[k])
  {
    if s != [] && IsSpace(s[0]) then TrimStart(s[1..]) else s
  }

  /** Drops trailing whitespace: the result is a prefix of s, and exactly the whitespace
      after it is gone. */
  function TrimEnd(s: string): (r: string)
    ensures |r| <= |s| && r == s[..|r|]
    ensures r == [] || !IsSpace(r[|r| - 1])
    ensures forall k :: |r| <= k < |s| ==> IsSpace(s[k])
  {
    if s != [] && IsSpace(s[|s| - 1]) then TrimEnd(s[..|s| - 1]) else s
  }

  /** str.strip(): the infix of s that starts at its first and ends at its last
      non-whitespace character; everything outside it is whitespace. */
  function Strip(s: string): (r: string)
    ensures r == [] || (!IsSpace(r[0]) && !IsSpace(r[|r| - 1]))
    ensures var a := |s| - |TrimStart(s)|;
            a + |r| <= |s| && r == s[a..a + |r|] &&
            (forall k :: 0 <= k < a ==> IsSpace(s[k])) &&
            (forall k :: a + |r| <= k < |s| ==> IsSpace(s[k]))
  {
    TrimEnd(TrimStart(s))
  }

  /** pat occurs in s starting at index k. */
  predicate OccursAt(s: string, pat: string, k: int) {
    0 <= k && k + |pat| <= |s| && s[k..k + |pat|] == pat
  }

  /** str.replace(pat, rep) for a non-empty pat: scans left to right and replaces each
      non-overlapping occurrence. */
  function ReplaceAll(s: string, pat: string, rep: string): string
    requires pat != []
    decreases |s|
  {
    if |s| < |pat| then s
    else if s[..|pat|] == pat then rep + ReplaceAll(s[|pat|..], pat, rep)
    else [s[0]] + ReplaceAll(s[1..], pat, rep)
  }

  /** A string in which pat does not occur is left unchanged by the replacement. */
  lemma {:induction false} ReplaceAbsent(s: string, pat: string, rep: string)
    requires pat != []
    requires forall k :: !OccursAt(s, pat, k)
    ensures ReplaceAll(s, pat, rep) == s
    decreases |s|
  {
    if |s| >= |pat| {
      assert !OccursAt(s, pat, 0);
      forall k | OccursAt(s[1..], pat, k) ensures OccursAt(s, pat, k + 1) {
        assert s[1..][k..k + |pat|] == s[k + 1..k + 1 + |pat|];
      }
      ReplaceAbsent(s[1..], pat, rep);
      assert [s[0]] + s[1..] == s;
    }
  }

  /** Stripping a line without interior line feeds leaves no line feed at all. */
  lemma StripSingleLine(s: string)
    requires SingleLine(s)
    ensures '\n' !in Strip(s)
  {
    var r := Strip(s);
    var a := |s| - |TrimStart(s)|;
    forall k | 0 <= k < |r| ensures r[k] != '\n' {
      assert r[k] == s[a + k];
      if a + k == |s| - 1 {
        assert k == |r| - 1;
        assert !IsSpace(r[k]);
      }
    }
  }

  /** A suffix of a single line is a single line. */
  lemma SingleLineSuffix(s: string, n: nat)
    requires SingleLine(s) && n <= |s|
    ensures SingleLine(s[n..])
  {
  }

  /** Text without a line feed, terminated by one, is a single line. */
  lemma LineOf(a: string)
    requires '\n' !in a
    ensures SingleLine(a + "\n")
  {
    var s := a + "\n";
    forall k | 0 <= k < |s| - 1 ensures s[k] != '\n' {
      assert s[k] == a[k];
    }
  }

  /** Replacing the soft break of a content line that has no line feed of its own only
      drops that suffix: "<br/>\n" can only occur where the line feed is, at the end. */
  lemma {:induction false} DropBreak(x: string)
    requires '\n' !in x
    ensures ReplaceAll(x + Break, Break, "\n") == x + "\n"
    decreases |x|
  {
    if x == [] {
      BreakAlone();
    } else {
      ReplaceStep(x);
      assert '\n' !in x[1..] by {
        forall k | 0 <= k < |x| - 1 ensures x[1..][k] != '\n' { assert x[1..][k] == x[k + 1]; }
      }
      DropBreak(x[1..]);
      assert [x[0]] + (x[1..] + "\n") == x + "\n";
    }
  }

  lemma BreakAlone()
    ensures ReplaceAll(Break, Break, "\n") == "\n"
  {
    assert Break[..|Break|] == Break;
    assert Break[|Break|..] == [];
  }

  /** Before the soft break, a character that is not a line feed is kept as it is. */
  lemma ReplaceStep(x: string)
    requires x != [] && '\n' !in x
    ensures ReplaceAll(x + Break, Break, "\n") == [x[0]] + ReplaceAll(x[1..] + Break, Break, "\n")
  {
    var s := x + Break;
    assert s[5] != '\n' by {
      if |x| > 5 { assert s[5] == x[5]; } else { assert s[5] == Break[5 - |x|]; }
    }
    assert s[..|Break|] != Break by { assert Break[5] == '\n'; }
    assert s[1..] == x[1..] + Break;
    assert s[0] == x[0];
  }

  /** Stripping a string whose first non-whitespace character is at index n yields a
      non-empty string that starts with that character. */
  lemma StripFirst(s: string, n: nat)
    requires n < |s| && !IsSpace(s[n])
    requires forall k :: 0 <= k < n ==> IsSpace(s[k])
    ensures Strip(s) != [] && Strip(s)[0] == s[n]
  {
    var t := TrimStart(s);
    var a := |s| - |t|;
    assert a == n;
    assert t[0] == s[n];
  }

  /** A line whose text neither starts nor ends with whitespace strips to that text. */
  lemma StripLine(a: string)
    requires a != [] && !IsSpace(a[0]) && !IsSpace(a[|a| - 1])
    ensures Strip(a + "\n") == a
  {
    var s := a + "\n";
    assert s[0] == a[0];
    assert TrimStart(s) == s;
    assert s[..|s| - 1] == a;
    assert TrimEnd(s) == TrimEnd(a);
  }
}
