/** The state machine shared by the unordered-list, ordered-list and paragraph stages.
    Each of those stages first classifies every input line as a member of a block (with
    the text the block shows) or as some other line, then walks the lines once with a
    boolean "inside a block" flag, opening a block before the first member of a run and
    closing it before the first other line after it, or at the end of the input.
    Here that walk is stated on abstract pieces; each stage renders the pieces as text. */
module Blocks {

  /** How a stage classifies one input line. */
  datatype Class = Member(text: string) | Other(line: string)

  /** One emitted output line, before rendering: a block opener, a line inside a block,
      a line passed through unchanged, or a block closer. */
  datatype Piece = Open | Inner(text: string) | Keep(line: string) | Close

  /** The machine's state after a prefix of the input: the pieces emitted so far and
      the "inside a block" flag. */
  datatype State = State(pieces: seq<Piece>, open: bool)

  /** One loop iteration: a member opens a block if none is open and is emitted inside
      it; any other line closes an open block and is emitted unchanged. */
  function Feed(s: State, c: Class): State {
    match c
    case Member(t) =>
      var p := if s.open then s.pieces else s.pieces + [Open];
      State(p + [Inner(t)], true)
    case Other(l) =>
      var p := if s.open then s.pieces + [Close] else s.pieces;
      State(p + [Keep(l)], false)
  }

  /** The state after the loop has consumed every line of cs. */
  function Run(cs: seq<Class>): State
    decreases |cs|
  {
    if cs == [] then State([], false) else Feed(Run(cs[..|cs| - 1]), cs[|cs| - 1])
  }

  /** The whole stage: the loop, then a closer if a block is still open at the end. */
  function Group(cs: seq<Class>): seq<Piece> {
    var s := Run(cs);
    if s.open then s.pieces + [Close] else s.pieces
  }

  /** The block markers among p, in order. */
  function Markers(p: seq<Piece>): (m: seq<Piece>)
    decreases |p|
  {
    if p == [] then []
    else
      var x := p[|p| - 1];
      Markers(p[..|p| - 1]) + (if x.Open? || x.Close? then [x] else [])
  }

  /** The lines of p with the block markers taken out, as the classes they came from. */
  function Erase(p: seq<Piece>): seq<Class>
    decreases |p|
  {
    if p == [] then []
    else
      var rest := Erase(p[..|p| - 1]);
      match p[|p| - 1]
      case Inner(t) => rest + [Member(t)]
      case Keep(l) => rest + [Other(l)]
      case _ => rest
  }

  /** The number of maximal runs of members in cs, counted at the first line of each. */
  function Runs(cs: seq<Class>): nat
    decreases |cs|
  {
    if cs == [] then 0
    else
      var n := |cs|;
      Runs(cs[..n - 1]) + (if cs[n - 1].Member? && (n == 1 || !cs[n - 2].Member?) then 1 else 0)
  }

  /** The markers alternate, and the first one opens a block. */
  ghost predicate Alternating(m: seq<Piece>) {
    forall i :: 0 <= i < |m| ==> m[i] == if i % 2 == 0 then Open else Close
  }

  /** Every inner line sits inside a block (an odd number of markers precede it), every
      kept line outside one (an even number). */
  ghost predicate Nested(p: seq<Piece>) {
    forall i :: 0 <= i < |p| ==>
      (p[i].Inner? ==> |Markers(p[..i])| % 2 == 1) &&
      (p[i].Keep? ==> |Markers(p[..i])| % 2 == 0)
  }

  /** Which piece may come right after which: a block holds at least one line, and a
      closer is followed by a kept line, so blocks are maximal (never two in a row). */
  predicate Follows(a: Piece, b: Piece) {
    match a
    case Open => b.Inner?
    case Inner(_) => b.Inner? || b.Close?
    case Close => b.Keep?
    case Keep(_) => b.Keep? || b.Open?
  }

  ghost predicate Adjacent(p: seq<Piece>) {
    forall i :: 0 <= i < |p| - 1 ==> Follows(p[i], p[i + 1])
  }

  /** The bookkeeping that holds after every iteration: the parity of the markers
      emitted so far is the flag, the flag is set exactly when the last emitted piece is
      an inner line, and the last piece is never a marker. */
  ghost predicate Flagged(s: State) {
    var p := s.pieces;
    && |Markers(p)| % 2 == (if s.open then 1 else 0)
    && (s.open <==> |p| > 0 && p[|p| - 1].Inner?)
    && (|p| > 0 ==> p[|p| - 1].Inner? || p[|p| - 1].Keep?)
  }

  /** What holds of the machine's state after every iteration. */
  ghost predicate Shaped(s: State) {
    Flagged(s) && Alternating(Markers(s.pieces)) && Nested(s.pieces) && Adjacent(s.pieces)
  }

  lemma MarkersPush(p: seq<Piece>, x: Piece)
    ensures Markers(p + [x]) == Markers(p) + (if x.Open? || x.Close? then [x] else [])
  {
    assert (p + [x])[..|p|] == p;
  }

  /** A marker flips the parity of the markers before the next piece. */
  lemma MarkerParity(p: seq<Piece>, x: Piece)
    requires x.Open? || x.Close?
    ensures |Markers(p + [x])| % 2 == 1 - |Markers(p)| % 2
  {
    MarkersPush(p, x);
    var n := |Markers(p)|;
    assert |Markers(p + [x])| == n + 1;
    Flip(n);
  }

  lemma Flip(n: nat)
    ensures (n + 1) % 2 == 1 - n % 2
  {
  }

  /** The pieces an iteration emits, one push at a time. */
  lemma FeedPieces(s: State, c: Class)
    ensures Feed(s, c).pieces ==
            match c
            case Member(t) => (if s.open then s.pieces else s.pieces + [Open]) + [Inner(t)]
            case Other(l) => (if s.open then s.pieces + [Close] else s.pieces) + [Keep(l)]
  {
  }

  /** Each iteration keeps the bookkeeping. */
  lemma FeedFlagged(s: State, c: Class)
    requires Flagged(s)
    ensures Flagged(Feed(s, c))
  {
    match c
    case Member(t) => FlaggedMember(s.pieces, s.open, t);
    case Other(l) => FlaggedOther(s.pieces, s.open, l);
  }

  /** A member line leaves the block open, with an odd number of markers before it. */
  lemma FlaggedMember(p: seq<Piece>, open: bool, t: string)
    requires Flagged(State(p, open))
    ensures Flagged(Feed(State(p, open), Member(t)))
  {
    var q := if open then p else p + [Open];
    if !open {
      MarkerParity(p, Open);
    }
    assert |Markers(q)| % 2 == 1;
    MarkersPush(q, Inner(t));
    assert Feed(State(p, open), Member(t)) == State(q + [Inner(t)], true);
  }

  /** Any other line leaves no block open, with an even number of markers before it. */
  lemma FlaggedOther(p: seq<Piece>, open: bool, l: string)
    requires Flagged(State(p, open))
    ensures Flagged(Feed(State(p, open), Other(l)))
  {
    var q := if open then p + [Close] else p;
    if open {
      MarkerParity(p, Close);
    }
    assert |Markers(q)| % 2 == 0;
    MarkersPush(q, Keep(l));
    assert Feed(State(p, open), Other(l)) == State(q + [Keep(l)], false);
  }

  lemma {:induction false} RunFlagged(cs: seq<Class>)
    ensures Flagged(Run(cs))
    decreases |cs|
  {
    if cs != [] {
      RunFlagged(cs[..|cs| - 1]);
      FeedFlagged(Run(cs[..|cs| - 1]), cs[|cs| - 1]);
    }
  }

  /** Appending a marker whose kind the parity calls for keeps the markers alternating. */
  lemma PushAlternating(p: seq<Piece>, x: Piece)
    requires Alternating(Markers(p))
    requires x.Open? ==> |Markers(p)| % 2 == 0
    requires x.Close? ==> |Markers(p)| % 2 == 1
    ensures Alternating(Markers(p + [x]))
  {
    MarkersPush(p, x);
    var m := Markers(p);
    if x.Open? || x.Close? {
      var m' := m + [x];
      forall i | 0 <= i < |m'| ensures m'[i] == if i % 2 == 0 then Open else Close {
        if i < |m| {
          assert m'[i] == m[i];
        } else {
          assert i == |m| && m'[i] == x;
        }
      }
    }
  }

  /** Appending an inner line inside a block, or a kept line outside one, keeps every
      line on its side. */
  lemma PushNested(p: seq<Piece>, x: Piece)
    requires Nested(p)
    requires x.Inner? ==> |Markers(p)| % 2 == 1
    requires x.Keep? ==> |Markers(p)| % 2 == 0
    ensures Nested(p + [x])
  {
    var q := p + [x];
    forall i | 0 <= i < |q|
      ensures (q[i].Inner? ==> |Markers(q[..i])| % 2 == 1) && (q[i].Keep? ==> |Markers(q[..i])| % 2 == 0)
    {
      if i < |p| {
        assert q[..i] == p[..i];
        assert q[i] == p[i];
      } else {
        assert q[..i] == p;
      }
    }
  }

  lemma PushAdjacent(p: seq<Piece>, x: Piece)
    requires Adjacent(p)
    requires p != [] ==> Follows(p[|p| - 1], x)
    ensures Adjacent(p + [x])
  {
    var q := p + [x];
    forall i | 0 <= i < |q| - 1 ensures Follows(q[i], q[i + 1]) {
      assert q[i] == p[i];
    }
  }

  /** Each iteration keeps the markers alternating. */
  lemma FeedAlternating(s: State, c: Class)
    requires Flagged(s) && Alternating(Markers(s.pieces))
    ensures Alternating(Markers(Feed(s, c).pieces))
  {
    var p := s.pieces;
    FeedPieces(s, c);
    match c
    case Member(t) =>
      if !s.open {
        PushAlternating(p, Open);
        PushAlternating(p + [Open], Inner(t));
      } else {
        PushAlternating(p, Inner(t));
      }
    case Other(l) =>
      if s.open {
        PushAlternating(p, Close);
        PushAlternating(p + [Close], Keep(l));
      } else {
        PushAlternating(p, Keep(l));
      }
  }

  /** Each iteration keeps inner lines inside blocks and kept lines outside. */
  lemma FeedNested(s: State, c: Class)
    requires Flagged(s) && Nested(s.pieces)
    ensures Nested(Feed(s, c).pieces)
  {
    match c
    case Member(t) => NestedMember(s.pieces, s.open, t);
    case Other(l) => NestedOther(s.pieces, s.open, l);
  }

  lemma NestedMember(p: seq<Piece>, open: bool, t: string)
    requires Nested(p) && |Markers(p)| % 2 == (if open then 1 else 0)
    ensures Nested(Feed(State(p, open), Member(t)).pieces)
  {
    FeedPieces(State(p, open), Member(t));
    if open {
      PushNested(p, Inner(t));
    } else {
      PushNested(p, Open);
      MarkerParity(p, Open);
      PushNested(p + [Open], Inner(t));
    }
  }

  lemma NestedOther(p: seq<Piece>, open: bool, l: string)
    requires Nested(p) && |Markers(p)| % 2 == (if open then 1 else 0)
    ensures Nested(Feed(State(p, open), Other(l)).pieces)
  {
    FeedPieces(State(p, open), Other(l));
    if open {
      PushNested(p, Close);
      MarkerParity(p, Close);
      PushNested(p + [Close], Keep(l));
    } else {
      PushNested(p, Keep(l));
    }
  }

  /** Each iteration emits only pieces that may follow one another. */
  lemma FeedAdjacent(s: State, c: Class)
    requires Flagged(s) && Adjacent(s.pieces)
    ensures Adjacent(Feed(s, c).pieces)
  {
    var p := s.pieces;
    FeedPieces(s, c);
    match c
    case Member(t) =>
      if !s.open {
        PushAdjacent(p, Open);
        PushAdjacent(p + [Open], Inner(t));
      } else {
        PushAdjacent(p, Inner(t));
      }
    case Other(l) =>
      if s.open {
        PushAdjacent(p, Close);
        PushAdjacent(p + [Close], Keep(l));
      } else {
        PushAdjacent(p, Keep(l));
      }
  }

  /** Each iteration keeps the machine's invariant. */
  lemma FeedShaped(s: State, c: Class)
    requires Shaped(s)
    ensures Shaped(Feed(s, c))
  {
    FeedFlagged(s, c);
    FeedAlternating(s, c);
    FeedNested(s, c);
    FeedAdjacent(s, c);
  }

  lemma {:induction false} RunShaped(cs: seq<Class>)
    ensures Shaped(Run(cs))
    decreases |cs|
  {
    if cs != [] {
      RunShaped(cs[..|cs| - 1]);
      FeedShaped(Run(cs[..|cs| - 1]), cs[|cs| - 1]);
    }
  }

  /** Consuming one more line is one more iteration. */
  lemma RunSnoc(cs: seq<Class>, i: int)
    requires 0 <= i < |cs|
    ensures Run(cs[..i + 1]) == Feed(Run(cs[..i]), cs[i])
  {
    assert cs[..i + 1][..i] == cs[..i];
  }

  /** The flag after a prefix is set exactly when the last emitted piece is an inner line. */
  lemma RunOpen(cs: seq<Class>)
    ensures Run(cs).open <==> |Run(cs).pieces| > 0 && Run(cs).pieces[|Run(cs).pieces| - 1].Inner?
    ensures Run(cs).open <==> cs != [] && cs[|cs| - 1].Member?
  {
  }

  /** Balance: the markers the stage inserts alternate, starting with an opener; none is
      left open at the end, even when the input ends inside a block; member lines come
      out inside blocks and other lines outside; blocks are maximal runs; and the
      output ends with a kept line or a closer. */
  lemma GroupShaped(cs: seq<Class>)
    ensures var p := Group(cs);
            Alternating(Markers(p)) && |Markers(p)| % 2 == 0 && Nested(p) && Adjacent(p) &&
            (p != [] ==> p[|p| - 1].Keep? || p[|p| - 1].Close?)
  {
    var s := Run(cs);
    RunShaped(cs);
    if s.open {
      PushAlternating(s.pieces, Close);
      PushNested(s.pieces, Close);
      PushAdjacent(s.pieces, Close);
      MarkersPush(s.pieces, Close);
    }
  }

  /** Passthrough and order: taking the markers out of the output gives back exactly the
      classified input, line for line. */
  lemma {:induction false} GroupErase(cs: seq<Class>)
    ensures Erase(Group(cs)) == cs
  {
    RunErase(cs);
    var s := Run(cs);
    if s.open {
      assert (s.pieces + [Close])[..|s.pieces|] == s.pieces;
    }
  }

  lemma {:induction false} RunErase(cs: seq<Class>)
    ensures Erase(Run(cs).pieces) == cs
    decreases |cs|
  {
    if cs != [] {
      var init := cs[..|cs| - 1];
      RunErase(init);
      var p := Run(init).pieces;
      var p1 := if Run(init).open == cs[|cs| - 1].Member? then p
                else if Run(init).open then p + [Close] else p + [Open];
      assert p1 != p ==> p1[..|p|] == p;
      var x := match cs[|cs| - 1] case Member(t) => Inner(t) case Other(l) => Keep(l);
      assert Run(cs).pieces == p1 + [x];
      assert (p1 + [x])[..|p1|] == p1;
      assert cs == init + [cs[|cs| - 1]];
    }
  }

  /** Length: the stage adds exactly one opener and one closer per maximal run of
      members, and these are all its markers. */
  lemma GroupLength(cs: seq<Class>)
    ensures |Group(cs)| == |cs| + 2 * Runs(cs)
    ensures |Markers(Group(cs))| == 2 * Runs(cs)
  {
    RunLength(cs);
    var s := Run(cs);
    if s.open {
      MarkersPush(s.pieces, Close);
    }
  }

  lemma {:induction false} RunLength(cs: seq<Class>)
    ensures var s := Run(cs);
            |s.pieces| + (if s.open then 1 else 0) == |cs| + 2 * Runs(cs) &&
            |Markers(s.pieces)| + (if s.open then 1 else 0) == 2 * Runs(cs)
    decreases |cs|
  {
    if cs != [] {
      var init := cs[..|cs| - 1];
      RunLength(init);
      RunOpen(init);
      FeedLength(Run(init), cs[|cs| - 1]);
      assert |cs| > 1 ==> init[|init| - 1] == cs[|cs| - 2];
    }
  }

  /** One iteration adds one line, plus an opener and a closer when it starts a block,
      counting a block still open as closed. */
  lemma FeedLength(s: State, c: Class)
    ensures var s' := Feed(s, c);
            var k := if c.Member? && !s.open then 1 else 0;
            && |s'.pieces| + (if s'.open then 1 else 0) == |s.pieces| + (if s.open then 1 else 0) + 1 + 2 * k
            && |Markers(s'.pieces)| + (if s'.open then 1 else 0) == |Markers(s.pieces)| + (if s.open then 1 else 0) + 2 * k
  {
    var p := s.pieces;
    match c
    case Member(t) =>
      if s.open {
        MarkersPush(p, Inner(t));
      } else {
        MarkersPush(p, Open);
        MarkersPush(p + [Open], Inner(t));
      }
    case Other(l) =>
      if s.open {
        MarkersPush(p, Close);
        MarkersPush(p + [Close], Keep(l));
      } else {
        MarkersPush(p, Keep(l));
      }
  }

  /** Every inner line of the output carries the text of some member of the input, and
      every kept line is some other line of the input. */
  lemma {:induction false} EraseHas(p: seq<Piece>, i: int)
    requires 0 <= i < |p|
    ensures p[i].Inner? ==> Member(p[i].text) in Erase(p)
    ensures p[i].Keep? ==> Other(p[i].line) in Erase(p)
    decreases |p|
  {
    var init := p[..|p| - 1];
    if i < |p| - 1 {
      EraseHas(init, i);
      assert p[i] == init[i];
    }
  }
}
