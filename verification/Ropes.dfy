/** The document tree: leaves hold up to 32 lines, inner nodes hold subtrees,
  and every node caches its length and its number of lines.
 */
module Ropes {
  import opened Basics
  import opened Lines

  const BRANCH := 32

  datatype Rope = Leaf(text: seq<Line>, length: int) | Node(children: seq<Rope>, length: int, lines: int)

  /** The cached number of lines. */
  function LineCount(t: Rope): int
  {
    if t.Leaf? then |t.text| else t.lines
  }

  /** The lines of a tree, in order. */
  function AllLines(t: Rope): seq<Line>
    decreases t, 1
  {
    match t
    case Leaf(text, _) => text
    case Node(children, _, _) => LinesOf(children)
  }

  function LinesOf(ts: seq<Rope>): seq<Line>
    decreases ts, 0
  {
    if ts == [] then [] else LinesOf(ts[..|ts| - 1]) + AllLines(ts[|ts| - 1])
  }

  /** The text that a tree stands for. */
  function Flat(t: Rope): seq<char>
  {
    Joined(AllLines(t))
  }

  function FlatOf(ts: seq<Rope>): seq<char>
  {
    Joined(LinesOf(ts))
  }

  /** The caches are exact, leaves are not empty and not too long, and a node is
      only made for at least as many lines as a leaf can hold. */
  ghost predicate Valid(t: Rope)
  {
    match t
    case Leaf(text, length) => 0 < |text| <= BRANCH && length == |Joined(text)|
    case Node(children, length, lines) =>
      && (forall k :: 0 <= k < |children| ==> Valid(children[k]))
      && lines == |LinesOf(children)| && lines >= BRANCH
      && length == |Joined(LinesOf(children))|
  }

  ghost predicate AllValid(ts: seq<Rope>)
  {
    forall k :: 0 <= k < |ts| ==> Valid(ts[k])
  }

  lemma ValidFacts(t: Rope)
    requires Valid(t)
    ensures 0 < LineCount(t) == |AllLines(t)| && t.length == |Flat(t)|
    ensures t.Node? ==> t.children != [] && AllValid(t.children) && Flat(t) == FlatOf(t.children) && t.lines >= BRANCH
  {
  }

  /** No line holds a line break. */
  predicate Clean(t: Rope) { NoBreaks(AllLines(t)) }

  predicate AllClean(ts: seq<Rope>) { NoBreaks(LinesOf(ts)) }

  lemma CleanPush(ts: seq<Rope>, t: Rope)
    ensures AllClean(ts + [t]) <==> AllClean(ts) && Clean(t)
  {
    hide LinesOf, AllLines, NoBreaks;
    LinesPush(ts, t);
    NoBreaksConcat(LinesOf(ts), AllLines(t));
  }

  lemma CleanChild(t: Rope, i: nat)
    requires t.Node? && i < |t.children| && Clean(t)
    ensures Clean(t.children[i])
  {
    var front, back := t.children[..i], t.children[i + 1..];
    assert AllClean(t.children);
    hide LinesOf, AllLines, NoBreaks;
    assert t.children == front + [t.children[i]] + back;
    LinesConcat(front + [t.children[i]], back);
    NoBreaksConcat(LinesOf(front + [t.children[i]]), LinesOf(back));
    CleanPush(front, t.children[i]);
  }

  lemma LinesPush(ts: seq<Rope>, t: Rope)
    ensures LinesOf(ts + [t]) == LinesOf(ts) + AllLines(t)
  {
    assert (ts + [t])[..|ts|] == ts;
  }

  lemma {:induction false} LinesConcat(ts: seq<Rope>, us: seq<Rope>)
    ensures LinesOf(ts + us) == LinesOf(ts) + LinesOf(us)
    decreases |us|
  {
    hide LinesOf, AllLines;
    if us == [] {
      assert ts + us == ts;
      LinesNone();
    } else {
      var front, last := us[..|us| - 1], us[|us| - 1];
      LinesConcat(ts, front);
      assert ts + us == (ts + front) + [last] && us == front + [last];
      LinesPush(ts + front, last);
      LinesPush(front, last);
      assert (LinesOf(ts) + LinesOf(front)) + AllLines(last) == LinesOf(ts) + (LinesOf(front) + AllLines(last));
    }
  }

  lemma LinesNone()
    ensures LinesOf([]) == []
  {
  }

  lemma LinesOne(t: Rope)
    ensures LinesOf([t]) == AllLines(t)
  {
    assert [t] == [] + [t];
    LinesPush([], t);
  }

  lemma {:induction false} LinesSome(ts: seq<Rope>)
    requires AllValid(ts)
    ensures |LinesOf(ts)| >= |ts|
    decreases |ts|
  {
    if ts != [] {
      LinesSome(ts[..|ts| - 1]);
      ValidFacts(ts[|ts| - 1]);
    }
  }

  /** The texts of the subtrees, as if they were lines. */
  function Flats(ts: seq<Rope>): seq<Line>
  {
    seq(|ts|, i requires 0 <= i < |ts| => Flat(ts[i]))
  }

  /** The text of a list of subtrees: a line break between any two. */
  lemma {:induction false} FlatIsJoined(ts: seq<Rope>)
    requires AllValid(ts)
    ensures FlatOf(ts) == Joined(Flats(ts))
    decreases |ts|
  {
    if |ts| == 1 {
      assert ts == [ts[0]];
      LinesOne(ts[0]);
    } else if |ts| > 1 {
      var n := |ts| - 1;
      FlatIsJoined(ts[..n]);
      assert Flats(ts)[..n] == Flats(ts[..n]);
      LinesSome(ts[..n]);
      ValidFacts(ts[n]);
      JoinedConcat(LinesOf(ts[..n]), AllLines(ts[n]));
    }
  }

  lemma FlatPush(ts: seq<Rope>, t: Rope)
    requires AllValid(ts) && Valid(t)
    ensures FlatOf(ts + [t]) == if ts == [] then Flat(t) else FlatOf(ts) + ['\n'] + Flat(t)
  {
    LinesPush(ts, t);
    ValidFacts(t);
    LinesSome(ts);
    if ts == [] {
      assert LinesOf(ts) + AllLines(t) == AllLines(t);
    } else {
      JoinedConcat(LinesOf(ts), AllLines(t));
    }
  }

  function TextLength(ls: seq<Line>): int
  {
    if ls == [] then -1 else TextLength(ls[..|ls| - 1]) + |ls[|ls| - 1]| + 1
  }

  lemma {:induction false} TextLengthIs(ls: seq<Line>)
    requires ls != []
    ensures TextLength(ls) == |Joined(ls)|
    decreases |ls|
  {
    if |ls| > 1 {
      TextLengthIs(ls[..|ls| - 1]);
    }
  }

  /** A leaf whose length is counted. */
  function NewLeaf(text: seq<Line>): (t: Rope)
    requires 0 < |text| <= BRANCH
    ensures Valid(t) && AllLines(t) == text
  {
    TextLengthIs(text);
    Leaf(text, TextLength(text))
  }

  /** A node whose lines are counted. */
  method NewNode(children: seq<Rope>, length: int) returns (t: Rope)
    requires AllValid(children)
    ensures t == Node(children, length, |LinesOf(children)|)
  {
    var lines := 0;
    for i := 0 to |children|
      invariant lines == |LinesOf(children[..i])|
    {
      ValidFacts(children[i]);
      assert children[..i + 1] == children[..i] + [children[i]];
      LinesPush(children[..i], children[i]);
      lines := lines + LineCount(children[i]);
    }
    assert children[..|children|] == children;
    t := Node(children, length, lines);
  }

  /** Cut a list of lines into leaves of 32. */
  method Split(text: seq<Line>) returns (r: seq<Rope>)
    ensures AllValid(r) && LinesOf(r) == text
  {
    hide LinesOf, Joined;
    LinesNone();
    r := [];
    var part: seq<Line>, length := [], -1;
    for i := 0 to |text|
      invariant AllValid(r) && LinesOf(r) + part == text[..i]
      invariant |part| < BRANCH && length == TextLength(part)
    {
      length := length + |text[i]| + 1;
      Assoc(LinesOf(r), part, [text[i]]);
      assert text[..i + 1] == text[..i] + [text[i]];
      LengthPush(part, text[i]);
      part := part + [text[i]];
      if |part| == BRANCH {
        LeafPush(r, part, length);
        r := r + [Leaf(part, length)];
        part, length := [], -1;
        assert LinesOf(r) + [] == LinesOf(r);
      }
    }
    assert text[..|text|] == text;
    LengthSign(part);
    if length > -1 {
      LeafPush(r, part, length);
      r := r + [Leaf(part, length)];
    } else {
      assert LinesOf(r) + [] == LinesOf(r);
    }
  }

  lemma LengthPush(ls: seq<Line>, l: Line)
    ensures TextLength(ls + [l]) == TextLength(ls) + |l| + 1
  {
    assert (ls + [l])[..|ls|] == ls;
  }

  lemma LengthSign(ls: seq<Line>)
    ensures if ls == [] then TextLength(ls) == -1 else TextLength(ls) > -1
  {
    if ls != [] {
      TextLengthIs(ls);
    }
  }

  lemma LeafPush(ts: seq<Rope>, part: seq<Line>, length: int)
    requires AllValid(ts) && 0 < |part| <= BRANCH && length == TextLength(part)
    ensures AllValid(ts + [Leaf(part, length)]) && LinesOf(ts + [Leaf(part, length)]) == LinesOf(ts) + part
  {
    hide LinesOf, Joined, TextLength;
    TextLengthIs(part);
    LinesPush(ts, Leaf(part, length));
  }

  /** Where child `i` of a node starts in its text. */
  ghost function ChildPos(t: Rope, i: nat): nat
    requires t.Node? && i <= |t.children|
  {
    Start(Flats(t.children), i)
  }

  lemma ChildSpan(t: Rope, i: nat)
    requires Valid(t) && t.Node? && i < |t.children|
    ensures var child, pos := t.children[i], ChildPos(t, i);
      && Valid(child) && child.length == |Flat(child)|
      && ChildPos(t, i + 1) == pos + child.length + 1 && pos + child.length <= |Flat(t)|
      && Flat(t)[pos..pos + child.length] == Flat(child)
      && (i == 0 <==> pos == 0) && (i > 0 ==> Flat(t)[pos - 1] == '\n')
      && (i == |t.children| - 1 ==> pos + child.length == |Flat(t)|)
  {
    hide Joined;
    ValidFacts(t);
    FlatIsJoined(t.children);
    ValidFacts(t.children[i]);
    LineSpan(Flats(t.children), i);
  }
}
