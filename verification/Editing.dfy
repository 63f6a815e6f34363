/** Cutting trees into pieces and putting them together again. */
module Editing {
  import opened Basics
  import opened Lines
  import opened Ropes
  import opened Balancing

  /** The pieces collected so far, and one more piece of text: with `open` it
      continues the last line, otherwise it starts a new one. */
  function Extended(ts: seq<Rope>, open: bool, piece: seq<char>): seq<char>
  {
    if ts == [] then piece else if open then FlatOf(ts) + piece else FlatOf(ts) + ['\n'] + piece
  }

  predicate EndsInLeaf(ts: seq<Rope>)
  {
    ts != [] && ts[|ts| - 1].Leaf?
  }

  method SliceText(text: seq<Line>, from: int, to: int) returns (r: seq<Line>)
    requires text != [] && from <= |Joined(text)| && 0 <= to
    ensures Joined(r) == Cut(Joined(text), from, to) && 0 < |r| <= |text|
    ensures NoBreaks(text) ==> NoBreaks(r)
  {
    r := AppendText(text, [[]], from, to);
    assert Joined([[]]) == [];
  }

  method LeafPiece(t: Rope, from: int, to: int) returns (piece: Rope)
    requires t.Leaf? && Valid(t) && Max(0, from) <= Min(to, t.length)
    ensures piece.Leaf? && Valid(piece) && Flat(piece) == Cut(Flat(t), from, to)
    ensures Clean(t) ==> Clean(piece)
  {
    hide Joined;
    piece := t;
    if from <= 0 && to >= t.length {
      assert Cut(Flat(t), from, to) == Flat(t);
    } else {
      var text := SliceText(t.text, from, to);
      piece := Leaf(text, Min(to, t.length) - Max(0, from));
    }
  }

  /** Replacing the last leaf by one leaf, or by two if there are too many lines. */
  lemma LastReplaced(front: seq<Rope>, a: Rope, text: seq<char>)
    requires AllValid(front) && Valid(a) && Flat(a) == text
    ensures AllValid(front + [a]) && FlatOf(front + [a]) == Extended(front, false, text)
  {
    FlatPush(front, a);
  }

  lemma LastSplit(front: seq<Rope>, a: Rope, b: Rope, lines: seq<Line>)
    requires AllValid(front) && Valid(a) && Valid(b) && AllLines(a) + AllLines(b) == lines
    ensures AllValid(front + [a, b]) && FlatOf(front + [a, b]) == Extended(front, false, Joined(lines))
  {
    hide LinesOf, Joined;
    assert front + [a, b] == (front + [a]) + [b];
    FlatPush(front, a);
    FlatPush(front + [a], b);
    ValidFacts(a);
    ValidFacts(b);
    JoinedConcat(AllLines(a), AllLines(b));
    if front != [] {
      assert FlatOf(front) + ['\n'] + (Flat(a) + ['\n'] + Flat(b))
          == FlatOf(front) + ['\n'] + Flat(a) + ['\n'] + Flat(b);
    }
  }

  lemma Regroup(front: seq<Rope>, prev: Rope, piece: seq<char>)
    requires AllValid(front) && Valid(prev)
    ensures Extended(front, false, Flat(prev) + piece) == FlatOf(front + [prev]) + piece
  {
    hide Flat, FlatOf, Valid;
    FlatPush(front, prev);
    Assoc(FlatOf(front) + ['\n'], Flat(prev), piece);
    assert front == [] ==> front + [prev] == [prev];
  }

  lemma CleanTwo(front: seq<Rope>, a: Rope, b: Rope, lines: seq<Line>)
    requires AllLines(a) + AllLines(b) == lines
    ensures AllClean(front) && NoBreaks(lines) ==> AllClean(front + [a, b])
  {
    hide AllClean, NoBreaks, AllLines;
    assert front + [a, b] == (front + [a]) + [b];
    CleanPush(front, a);
    CleanPush(front + [a], b);
    NoBreaksConcat(AllLines(a), AllLines(b));
  }

  lemma NothingClean()
    ensures AllClean([])
  {
  }

  lemma CleanPart(t: Rope, i: nat)
    requires t.Node? && i < |t.children|
    ensures Clean(t) ==> Clean(t.children[i])
  {
    if Clean(t) {
      CleanChild(t, i);
    }
  }

  /** Collect a leaf that continues the last line collected. */
  method Continue(target: seq<Rope>, piece: Rope) returns (r: seq<Rope>)
    requires AllValid(target) && EndsInLeaf(target) && piece.Leaf? && Valid(piece)
    ensures AllValid(r) && EndsInLeaf(r) && FlatOf(r) == FlatOf(target) + Flat(piece)
    ensures AllClean(target) && Clean(piece) ==> AllClean(r)
  {
    hide LinesOf, Joined, FlatOf, AllClean, NoBreaks;
    var n := |target| - 1;
    var prev, front := target[n], target[..n];
    assert target == front + [prev];
    assert Valid(prev);
    CleanPush(front, prev);
    var joined := AppendText(piece.text, prev.text, 0, piece.length);
    assert Cut(Joined(piece.text), 0, piece.length) == Flat(piece);
    Regroup(front, prev, Flat(piece));
    if |joined| <= 32 {
      var last := Leaf(joined, prev.length + piece.length);
      r := front + [last];
      LastReplaced(front, last, Flat(prev) + Flat(piece));
      CleanPush(front, last);
    } else {
      var mid := |joined| / 2;
      var a, b := NewLeaf(joined[..mid]), NewLeaf(joined[mid..]);
      r := front + [a, b];
      LastSplit(front, a, b, joined);
      CleanTwo(front, a, b, joined);
    }
  }

  /** Collect the part of a leaf between `from` and `to`. */
  method DecomposeLeaf(t: Rope, from: int, to: int, target: seq<Rope>, open: bool) returns (r: seq<Rope>)
    requires t.Leaf? && Valid(t) && AllValid(target)
    requires Max(0, from) <= Min(to, t.length) && (open ==> EndsInLeaf(target))
    ensures AllValid(r) && EndsInLeaf(r)
    ensures FlatOf(r) == Extended(target, open, Cut(Flat(t), from, to))
    ensures AllClean(target) && Clean(t) ==> AllClean(r)
  {
    hide LinesOf, Joined, AllClean, Clean;
    var piece := LeafPiece(t, from, to);
    if open {
      r := Continue(target, piece);
    } else {
      FlatPush(target, piece);
      CleanPush(target, piece);
      r := target + [piece];
    }
  }

  /** Collecting the text of a list of subtrees, a subtree at a time: after those
      that end before `pos`, all of `whole` from `f` up to `t` is there. */
  ghost predicate Collected(target: seq<Rope>, open: bool, r: seq<Rope>, whole: seq<char>, f: nat, t: nat, pos: nat)
    requires f <= t <= |whole|
  {
    && AllValid(r)
    && if pos <= f then r == target else FlatOf(r) == Extended(target, open, whole[f..Min(pos - 1, t)])
  }

  /** The next subtree's part is collected. */
  lemma CollectedOn(target: seq<Rope>, open: bool, r: seq<Rope>, whole: seq<char>, f: nat, t: nat, pos: nat,
                    text: seq<char>, r': seq<Rope>, from: int, to: int)
    requires f <= t <= |whole| && f == Max(0, from) && t == Min(to, |whole|)
    requires Collected(target, open, r, whole, f, t, pos)
    requires pos + |text| <= |whole| && whole[pos..pos + |text|] == text && pos <= t
    requires from <= pos + |text| && (pos > 0 ==> whole[pos - 1] == '\n') && (pos > f ==> r != [])
    requires AllValid(r') && FlatOf(r') == Extended(r, open && pos <= from, Cut(text, from - pos, to - pos))
    requires open ==> from >= 0
    ensures Collected(target, open, r', whole, f, t, pos + |text| + 1)
  {
    hide FlatOf, Valid;
    var hi := Min(pos + |text|, t);
    CutIs(whole, text, pos, from, to);
    if pos > f {
      ExtendedOn(target, open, whole, f, pos, hi);
    }
  }

  lemma CutIs(whole: seq<char>, text: seq<char>, pos: nat, from: int, to: int)
    requires pos + |text| <= |whole| && whole[pos..pos + |text|] == text
    requires from <= pos + |text| && pos <= to && Max(0, from) <= Min(to, |whole|)
    ensures Cut(text, from - pos, to - pos) == whole[Max(Max(0, from), pos)..Min(pos + |text|, Min(to, |whole|))]
  {
    var lo, hi := Max(Max(0, from), pos), Min(pos + |text|, Min(to, |whole|));
    SliceOfSlice(whole, pos, pos + |text|, lo, hi);
  }

  lemma ExtendedOn(target: seq<Rope>, open: bool, whole: seq<char>, f: nat, pos: nat, hi: nat)
    requires f < pos <= hi <= |whole| && whole[pos - 1] == '\n'
    ensures Extended(target, open, whole[f..pos - 1]) + ['\n'] + whole[pos..hi] == Extended(target, open, whole[f..hi])
  {
    hide FlatOf;
    var base := if target == [] then [] else if open then FlatOf(target) else FlatOf(target) + ['\n'];
    CopyOn(base, whole, f, pos, hi);
  }

  /** Collect the part of a tree between `from` and `to`.  `openFrom` says that it
      continues the last line collected, `openTo` that something will continue
      its own last line, so that this line has to be in a leaf. */
  method Decompose(t: Rope, from: int, to: int, target: seq<Rope>, openFrom: bool, openTo: bool) returns (r: seq<Rope>)
    requires Valid(t) && AllValid(target) && Max(0, from) <= Min(to, t.length)
    requires openFrom ==> EndsInLeaf(target) && from >= 0
    requires openTo ==> to <= t.length
    ensures AllValid(r) && r != [] && (openTo ==> EndsInLeaf(r))
    ensures FlatOf(r) == Extended(target, openFrom, Cut(Flat(t), from, to))
    ensures AllClean(target) && Clean(t) ==> AllClean(r)
    decreases t, 1
  {
    hide AllClean, Clean;
    if t.Leaf? {
      r := DecomposeLeaf(t, from, to, target, openFrom);
      return;
    }
    r := DecomposeNode(t, from, to, target, openFrom, openTo);
  }

  method DecomposeNode(t: Rope, from: int, to: int, target: seq<Rope>, openFrom: bool, openTo: bool)
    returns (r: seq<Rope>)
    requires t.Node? && Valid(t) && AllValid(target) && Max(0, from) <= Min(to, t.length)
    requires openFrom ==> EndsInLeaf(target) && from >= 0
    requires openTo ==> to <= t.length
    ensures AllValid(r) && r != [] && (openTo ==> EndsInLeaf(r))
    ensures FlatOf(r) == Extended(target, openFrom, Cut(Flat(t), from, to))
    ensures AllClean(target) && Clean(t) ==> AllClean(r)
    decreases t, 0
  {
    hide Flat, FlatOf, ChildPos, Valid, Extended, Cut, AllClean, Clean;
    ValidFacts(t);
    r := target;
    ghost var whole, f, g := Flat(t), Max(0, from), Min(to, t.length);
    var i, pos := 0, 0;
    ChildSpan(t, 0);
    while pos <= to && i < |t.children|
      invariant 0 <= i <= |t.children| && pos == ChildPos(t, i)
      invariant Collected(target, openFrom, r, whole, f, g, pos)
      invariant pos > f ==> r != []
      invariant openTo && pos > to ==> EndsInLeaf(r)
      invariant i == |t.children| ==> pos == |whole| + 1
      invariant AllClean(target) && Clean(t) ==> AllClean(r)
    {
      ChildSpan(t, i);
      var child := t.children[i];
      var end := pos + child.length;
      if from <= end && to >= pos {
        ghost var was := r;
        CleanPart(t, i);
        r := DecomposeChild(child, from - pos, to - pos, r, openFrom && pos <= from, openTo && end >= to);
        CollectedOn(target, openFrom, was, whole, f, g, pos, Flat(child), r, from, to);
      }
      pos := end + 1;
      i := i + 1;
    }
    CutWhole(whole, from, to);
  }

  lemma CutWhole(whole: seq<char>, from: int, to: int)
    requires Max(0, from) <= Min(to, |whole|)
    ensures Cut(whole, from, to) == whole[Max(0, from)..Min(to, |whole|)]
  {
  }

  /** A subtree that lies inside, and has nothing open, is taken as it is. */
  method DecomposeChild(child: Rope, from: int, to: int, target: seq<Rope>, openFrom: bool, openTo: bool)
    returns (r: seq<Rope>)
    requires Valid(child) && AllValid(target) && Max(0, from) <= Min(to, child.length)
    requires openFrom ==> EndsInLeaf(target) && from >= 0
    requires openTo ==> to <= child.length
    ensures AllValid(r) && r != [] && (openTo ==> EndsInLeaf(r))
    ensures FlatOf(r) == Extended(target, openFrom, Cut(Flat(child), from, to))
    ensures AllClean(target) && Clean(child) ==> AllClean(r)
    decreases child, 2
  {
    hide AllClean, Clean;
    if 0 >= from && child.length <= to && !openFrom && !openTo {
      ValidFacts(child);
      FlatPush(target, child);
      CleanPush(target, child);
      assert Cut(Flat(child), from, to) == Flat(child);
      r := target + [child];
    } else {
      r := Decompose(child, from, to, target, openFrom, openTo);
    }
  }

  /** A pair of positions pulled into the document. */
  function Clamp(t: Rope, from: int, to: int): (r: (int, int))
    requires t.length >= 0
    ensures 0 <= r.0 <= r.1 <= t.length
    ensures 0 <= from <= to <= t.length ==> r == (from, to)
  {
    var f := Max(0, Min(t.length, from));
    (f, Max(f, Min(t.length, to)))
  }

  /** What replacing part of a text means. */
  function Spliced(s: seq<char>, from: nat, to: nat, text: seq<char>): seq<char>
    requires from <= to <= |s|
  {
    s[..from] + text + s[to..]
  }

  method Slice(t: Rope, from: int, to: int) returns (r: Rope)
    requires Valid(t)
    ensures Valid(r)
    ensures t.length >= 0 && Flat(r) == Flat(t)[Clamp(t, from, to).0..Clamp(t, from, to).1]
    ensures Clean(t) ==> Clean(r)
  {
    hide Joined, LinesOf;
    NothingClean();
    ValidFacts(t);
    var (f, g) := Clamp(t, from, to);
    var parts := Decompose(t, f, g, [], false, false);
    r := From(parts, g - f);
  }

  /** Replacing by cutting everything to pieces and building a new tree. */
  method ReplaceByParts(t: Rope, from: int, to: int, text: Rope) returns (r: Rope)
    requires Valid(t) && Valid(text)
    ensures Valid(r)
    ensures t.length >= 0 && Flat(r) == Spliced(Flat(t), Clamp(t, from, to).0, Clamp(t, from, to).1, Flat(text))
    ensures Clean(t) && Clean(text) ==> Clean(r)
  {
    hide Joined, LinesOf, FlatOf, AllClean, Clean;
    NothingClean();
    ValidFacts(t);
    ValidFacts(text);
    var (f, g) := Clamp(t, from, to);
    var parts := Decompose(t, 0, f, [], false, true);
    assert Cut(Flat(t), 0, f) == Flat(t)[..f];
    if text.length > 0 {
      parts := Decompose(text, 0, text.length, parts, true, true);
      assert Cut(Flat(text), 0, text.length) == Flat(text);
    } else {
      assert Flat(t)[..f] + Flat(text) == Flat(t)[..f];
    }
    assert FlatOf(parts) == Flat(t)[..f] + Flat(text);
    parts := Decompose(t, g, t.length, parts, true, false);
    assert Cut(Flat(t), g, t.length) == Flat(t)[g..];
    assert FlatOf(parts) == Spliced(Flat(t), f, g, Flat(text));
    r := FromParts(parts, t.length - (g - f) + text.length);
  }

  method FromParts(parts: seq<Rope>, length: int) returns (r: Rope)
    requires parts != [] && AllValid(parts) && length == |FlatOf(parts)|
    ensures Valid(r) && Flat(r) == FlatOf(parts)
    ensures AllClean(parts) ==> Clean(r)
  {
    r := From(parts, length);
  }
}
