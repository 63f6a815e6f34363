/** From a line and a column to a byte: the table of line starts that cuts a
  script into statements, and the running sum that reads a location.
 */
module Locations {
  import opened Basics
  import opened Lines

  datatype Position = Position(line: nat, column: nat)

  datatype Slice = Slice(text: seq<char>) | Refused

  /** The lines of a text. */
  function Split(src: seq<char>): (ls: seq<Line>)
    ensures ls != []
  {
    if src == [] then [[]]
    else
      var ls, c := Split(src[..|src| - 1]), src[|src| - 1];
      if c == '\n' then ls + [[]] else ls[|ls| - 1 := ls[|ls| - 1] + [c]]
  }

  /** Splitting undoes joining: the lines hold no break and join to the text. */
  lemma {:induction false} SplitJoins(src: seq<char>)
    ensures Joined(Split(src)) == src && NoBreaks(Split(src))
  {
    if src != [] {
      var init, c := src[..|src| - 1], src[|src| - 1];
      SplitJoins(init);
      assert src == init + [c];
      if c == '\n' {
        JoinedPush(Split(init), []);
      } else {
        JoinedGrow(Split(init), [c]);
      }
    }
  }

  /** Joining undoes splitting, as long as the lines hold no break. */
  lemma {:induction false} SplitIsUnique(ls: seq<Line>)
    requires ls != [] && NoBreaks(ls)
    ensures Split(Joined(ls)) == ls
    decreases |ls|
  {
    hide Joined, Split;
    var n := |ls| - 1;
    assert ls == ls[..n] + [ls[n]];
    if n == 0 {
      SplitNothing();
      SplitGrows([], ls[0]);
      JoinedOne(ls);
      assert [] + ls[0] == ls[0];
    } else {
      SplitIsUnique(ls[..n]);
      JoinedPush(ls[..n], ls[n]);
      SplitBreak(Joined(ls[..n]));
      SplitGrows(Joined(ls[..n]) + ['\n'], ls[n]);
      assert (ls[..n] + [[]])[..n] == ls[..n] && [] + ls[n] == ls[n];
    }
  }

  lemma SplitNothing()
    ensures Split([]) == [[]]
  {
  }

  lemma SplitBreak(src: seq<char>)
    ensures Split(src + ['\n']) == Split(src) + [[]]
  {
    assert (src + ['\n'])[..|src|] == src;
  }

  /** Text without a break makes the last line longer. */
  lemma {:induction false} SplitGrows(src: seq<char>, l: Line)
    requires '\n' !in l
    ensures var ls := Split(src); Split(src + l) == ls[..|ls| - 1] + [ls[|ls| - 1] + l]
    decreases |l|
  {
    var ls := Split(src);
    if l == [] {
      assert src + l == src && ls[|ls| - 1] + l == ls[|ls| - 1];
    } else {
      var m := |l| - 1;
      SplitGrows(src, l[..m]);
      assert (src + l)[..|src + l| - 1] == src + l[..m] && (src + l)[|src + l| - 1] == l[m];
      assert l[..m] + [l[m]] == l;
      Assoc(ls[|ls| - 1], l[..m], [l[m]]);
    }
  }

  predicate IsStarts(starts: seq<nat>, ls: seq<Line>)
  {
    |starts| == |ls| && forall l :: 0 <= l < |ls| ==> starts[l] == Start(ls, l)
  }

  lemma StartsStep(starts: seq<nat>, ls: seq<Line>, c: char)
    requires ls != [] && IsStarts(starts, ls)
    ensures IsStarts(starts + [|Joined(ls)| + 1], ls + [[]])
    ensures IsStarts(starts, ls[|ls| - 1 := ls[|ls| - 1] + [c]])
  {
    var more, grown := ls + [[]], ls[|ls| - 1 := ls[|ls| - 1] + [c]];
    forall l | 0 <= l < |more| ensures (starts + [|Joined(ls)| + 1])[l] == Start(more, l) {
      assert more[..l] == ls[..l];
      assert ls[..|ls|] == ls;
    }
    forall l | 0 <= l < |ls| ensures starts[l] == Start(grown, l) {
      assert grown[..l] == ls[..l];
    }
  }

  /** The table of line starts. */
  method LineStarts(src: seq<char>) returns (starts: seq<nat>)
    ensures IsStarts(starts, Split(src))
  {
    hide IsStarts;
    starts := [0];
    FirstStart();
    for i := 0 to |src|
      invariant IsStarts(starts, Split(src[..i]))
    {
      var pre := src[..i];
      assert src[..i + 1][..i] == pre;
      SplitJoins(pre);
      StartsStep(starts, Split(pre), src[i]);
      if src[i] == '\n' {
        starts := starts + [i + 1];
      }
    }
    assert src[..|src|] == src;
  }

  lemma FirstStart()
    ensures IsStarts([0], Split([]))
  {
  }

  /** Where the table puts a position; what is out of range goes to the end. */
  function Offset(src: seq<char>, starts: seq<nat>, p: Position): nat
  {
    if p.line >= |starts| then |src| else Min(starts[p.line] + p.column, |src|)
  }

  function GetSlice(src: seq<char>, s: nat, e: nat): Slice
  {
    if s <= e <= |src| then Slice(src[s..e]) else Refused
  }

  /** The slice that the table cuts. */
  function TableSlice(src: seq<char>, starts: seq<nat>, begin: Position, end: Position): Slice
  {
    GetSlice(src, Offset(src, starts, begin), Offset(src, starts, end))
  }

  /** Where the running sum puts a position. */
  ghost function Place(ls: seq<Line>, p: Position): nat
    requires p.line < |ls|
  {
    Start(ls, p.line) + p.column
  }

  /** The slice that the running sum reads, or a refused assertion. */
  method StringAt(source: seq<char>, begin: Position, end: Position) returns (r: Slice)
    ensures var ls := Split(source);
      r == if begin.line <= end.line < |ls| then GetSlice(source, Place(ls, begin), Place(ls, end)) else Refused
  {
    var lines := Split(source);
    if !(|lines| > begin.line && |lines| > end.line) {
      return Refused;
    }
    var from, to, sum, n := -1, -1, 0, 0;
    while n < |lines|
      invariant 0 <= n <= end.line && to == -1 && sum == Start(lines, n)
      invariant from == if begin.line < n then Place(lines, begin) else -1
      decreases |lines| - n
    {
      if n == begin.line {
        from := sum + begin.column;
      }
      if n == end.line {
        to := sum + end.column;
        break;
      }
      LineSpan(lines, n);
      sum := sum + |lines[n]| + 1;
      n := n + 1;
    }
    if from == -1 || to == -1 {
      return Refused;
    }
    r := GetSlice(source, from, to);
  }

  /** Wherever the running sum reads anything, the table cuts the same bytes. */
  method CutBothWays(src: seq<char>, begin: Position, end: Position) returns (table: Slice, sum: Slice)
    ensures sum.Slice? ==> table == sum
    ensures begin.line <= end.line < |Split(src)| && Place(Split(src), begin) <= Place(Split(src), end) <= |src|
      <==> sum.Slice?
  {
    hide Split;
    var starts := LineStarts(src);
    table := TableSlice(src, starts, begin, end);
    sum := StringAt(src, begin, end);
  }

  // ----- positions and offsets -----

  /** A position on a line, at most just behind its last byte. */
  predicate InRange(ls: seq<Line>, p: Position)
  {
    p.line < |ls| && p.column <= |ls[p.line]|
  }

  predicate Before(p: Position, q: Position)
  {
    p.line < q.line || (p.line == q.line && p.column <= q.column)
  }

  /** The position of an offset: breaks before it, bytes since the last one. */
  function Locate(src: seq<char>, o: nat): Position
    requires o <= |src|
  {
    if o == 0 then Position(0, 0)
    else
      var p := Locate(src, o - 1);
      if src[o - 1] == '\n' then Position(p.line + 1, 0) else Position(p.line, p.column + 1)
  }

  lemma {:induction false} StartMonotone(ls: seq<Line>, i: nat, j: nat)
    requires i < j <= |ls|
    ensures Start(ls, i) + |ls[i]| < Start(ls, j)
    decreases j
  {
    LineSpan(ls, j - 1);
    if i < j - 1 {
      StartMonotone(ls, i, j - 1);
    }
  }

  /** The place of a position in range, and what stands there. */
  lemma Placed(src: seq<char>, ls: seq<Line>, p: Position)
    requires src == Joined(ls) && NoBreaks(ls) && InRange(ls, p)
    ensures Place(ls, p) <= |src|
    ensures p.column < |ls[p.line]| ==> Place(ls, p) < |src| && src[Place(ls, p)] != '\n'
    ensures p.column == |ls[p.line]| && p.line + 1 < |ls| ==>
      Place(ls, p) < |src| && src[Place(ls, p)] == '\n' && Place(ls, p) + 1 == Start(ls, p.line + 1)
    ensures p.column == |ls[p.line]| && p.line + 1 == |ls| ==> Place(ls, p) == |src|
  {
    hide Joined;
    var i := p.line;
    LineSpan(ls, i);
    var at := Start(ls, i);
    if p.column < |ls[i]| {
      assert src[at..at + |ls[i]|][p.column] == ls[i][p.column];
    } else if i + 1 < |ls| {
      LineSpan(ls, i + 1);
    }
  }

  /** Locating an offset gives a position in range that the table sends back. */
  lemma {:induction false} LocateInverts(src: seq<char>, ls: seq<Line>, o: nat)
    requires o <= |src| && src == Joined(ls) && NoBreaks(ls) && ls != []
    ensures InRange(ls, Locate(src, o)) && Place(ls, Locate(src, o)) == o
    decreases o
  {
    hide Joined, Start;
    if o == 0 {
      StartOfAll(ls);
    } else {
      LocateInverts(src, ls, o - 1);
      Placed(src, ls, Locate(src, o - 1));
    }
  }

  lemma StartOfAll(ls: seq<Line>)
    ensures Start(ls, 0) == 0
  {
  }

  /** Position order is byte order, strictly. */
  lemma PlaceMonotone(ls: seq<Line>, p: Position, q: Position)
    requires InRange(ls, p) && InRange(ls, q)
    ensures Before(p, q) <==> Place(ls, p) <= Place(ls, q)
  {
    hide Start;
    if p.line < q.line {
      StartMonotone(ls, p.line, q.line);
    } else if q.line < p.line {
      StartMonotone(ls, q.line, p.line);
    }
  }

  /** For every text: the table's offset of a position in range is where the
      running sum puts it, keeps the order, and is undone by locating it; and
      locating any offset is undone by the table. */
  lemma TableIsExact(src: seq<char>, starts: seq<nat>, p: Position, q: Position, o: nat)
    requires IsStarts(starts, Split(src)) && InRange(Split(src), p) && InRange(Split(src), q) && o <= |src|
    ensures Offset(src, starts, p) == Place(Split(src), p)
    ensures Before(p, q) <==> Offset(src, starts, p) <= Offset(src, starts, q)
    ensures Locate(src, Offset(src, starts, p)) == p
    ensures InRange(Split(src), Locate(src, o)) && Offset(src, starts, Locate(src, o)) == o
  {
    hide Split, Joined, Start, Locate;
    var ls := Split(src);
    SplitJoins(src);
    Placed(src, ls, p);
    Placed(src, ls, q);
    PlaceMonotone(ls, p, q);
    LocateInverts(src, ls, o);
    var back := Locate(src, Place(ls, p));
    LocateInverts(src, ls, Place(ls, p));
    PlaceMonotone(ls, p, back);
    PlaceMonotone(ls, back, p);
  }

  /** Exactly the positions in range are found again where the table sends them. */
  lemma FoundAgain(src: seq<char>, starts: seq<nat>, p: Position)
    requires IsStarts(starts, Split(src))
    ensures Locate(src, Offset(src, starts, p)) == p <==> InRange(Split(src), p)
  {
    hide Split, Joined, Start, Locate;
    SplitJoins(src);
    if InRange(Split(src), p) {
      TableIsExact(src, starts, p, p, 0);
    } else {
      LocateInverts(src, Split(src), Offset(src, starts, p));
    }
  }

  /** The table keeps `p` in front of every position in range that comes later. */
  ghost predicate KeepsOrder(src: seq<char>, starts: seq<nat>, p: Position)
  {
    forall q | InRange(Split(src), q) && Before(p, q) :: Offset(src, starts, p) <= Offset(src, starts, q)
  }

  /** Order is kept exactly where the column is at most one behind the end of its
      line, or there is no text in a later line to be sent into. */
  lemma OrderExact(src: seq<char>, starts: seq<nat>, p: Position)
    requires IsStarts(starts, Split(src))
    ensures KeepsOrder(src, starts, p)
       <==> p.line + 1 >= |starts| || p.column <= |Split(src)[p.line]| + 1 || starts[p.line + 1] == |src|
  {
    hide Split, Joined, Start, Locate;
    var ls := Split(src);
    SplitJoins(src);
    if p.line + 1 < |starts| {
      Ordered(src, starts, ls, p);
      LineSpan(ls, p.line);
    }
  }

  /** In terms of where the table sends the position. */
  lemma Ordered(src: seq<char>, starts: seq<nat>, ls: seq<Line>, p: Position)
    requires IsStarts(starts, ls) && src == Joined(ls) && NoBreaks(ls) && ls == Split(src) && p.line + 1 < |starts|
    ensures starts[p.line + 1] <= |src|
    ensures KeepsOrder(src, starts, p) <==> Offset(src, starts, p) <= starts[p.line + 1]
  {
    hide Split, Joined, Start, Locate;
    var next := Position(p.line + 1, 0);
    Placed(src, ls, next);
    assert starts[p.line + 1] == Place(ls, next);
    if Offset(src, starts, p) <= starts[p.line + 1] {
      forall q | InRange(ls, q) && Before(p, q) ensures Offset(src, starts, p) <= Offset(src, starts, q) {
        Placed(src, ls, q);
        if p.line < q.line {
          PlaceMonotone(ls, next, q);
        }
      }
    } else {
      assert InRange(ls, next) && Before(p, next);
    }
  }

  /** Past the end of its line a position may be sent behind a later one: here
      the column leads into the next line. */
  lemma ColumnsPastTheEnd()
    ensures var src := "\nc";
      IsStarts([0, 1], Split(src)) && Before(Position(0, 2), Position(1, 0))
      && Offset(src, [0, 1], Position(0, 2)) > Offset(src, [0, 1], Position(1, 0))
  {
    var src := "\nc";
    assert src[..1] == "\n" && src[..1][..0] == "";
    assert Split("\n") == [[], []];
    assert Split(src) == [[], [] + ['c']];
    assert [[], ['c']][..1] == [[]];
  }
}
