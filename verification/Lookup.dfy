/** Reading a document: lines by position or by number, and its text. */
module Lookup {
  import opened Basics
  import opened Lines
  import opened Ropes
  import opened Editing

  datatype LineInfo = LineInfo(from: int, to: int, number: int, text: Line)

  datatype Found = Found(line: LineInfo) | OutOfRange

  /** `r` is line `k` of `ls`, counted and placed from `number` and `offset` on. */
  predicate IsLine(r: LineInfo, ls: seq<Line>, k: nat, number: int, offset: int)
  {
    && k < |ls| && r.text == ls[k] && r.number == number + k
    && r.from == offset + Start(ls, k) && r.to == r.from + |ls[k]|
  }

  /** What is looked for: a line number, or a position inside a line. */
  predicate Hits(r: LineInfo, target: int, byNumber: bool)
  {
    if byNumber then r.number == target else r.from <= target <= r.to
  }

  /** The target lies in a piece with `lines` lines and `length` characters. */
  predicate Within(target: int, byNumber: bool, number: int, offset: int, lines: int, length: int)
  {
    if byNumber then number <= target < number + lines else offset <= target <= offset + length
  }

  method LineInLeaf(t: Rope, target: int, byNumber: bool, number: int, offset: int) returns (r: LineInfo, ghost k: nat)
    requires t.Leaf? && Valid(t) && Within(target, byNumber, number, offset, LineCount(t), t.length)
    ensures IsLine(r, AllLines(t), k, number, offset) && Hits(r, target, byNumber)
  {
    hide Joined, Start;
    var pos, n, i := offset, number, 0;
    StartZero(t.text);
    StartEnd(t.text);
    while true
      invariant 0 <= i < |t.text| && pos == offset + Start(t.text, i) && n == number + i
      invariant if byNumber then n <= target else pos <= target
      decreases |t.text| - i
    {
      LineSpan(t.text, i);
      var line := t.text[i];
      var end := pos + |line|;
      if (if byNumber then n else end) >= target {
        return LineInfo(pos, end, n, line), i;
      }
      pos, n, i := end + 1, n + 1, i + 1;
    }
  }

  /** The lines of a node, seen from one of its children. */
  lemma ChildLines(t: Rope, i: nat, j: nat)
    requires Valid(t) && t.Node? && i < |t.children| && j < |AllLines(t.children[i])|
    ensures var m := |LinesOf(t.children[..i])|;
      && m + j < |AllLines(t)| && AllLines(t)[m + j] == AllLines(t.children[i])[j]
      && Start(AllLines(t), m + j) == ChildPos(t, i) + Start(AllLines(t.children[i]), j)
  {
    hide LinesOf, Joined, Valid, AllLines;
    var front, child, back := t.children[..i], t.children[i], t.children[i + 1..];
    var a, b, c := LinesOf(front), AllLines(child), LinesOf(back);
    ValidFacts(t);
    NodeLines(t);
    assert t.children == (front + [child]) + back;
    LinesConcat(front + [child], back);
    LinesPush(front, child);
    assert AllLines(t) == a + b + c;
    assert (a + b + c)[..|a| + j] == a + b[..j];
    LinesSome(front);
    assert Flats(t.children)[..i] == Flats(front);
    FlatIsJoined(front);
    if i == 0 {
      LinesNone();
      assert a + b[..j] == b[..j];
    } else if j == 0 {
      assert a + b[..j] == a;
    } else {
      JoinedConcat(a, b[..j]);
    }
  }

  lemma NodeLines(t: Rope)
    requires t.Node?
    ensures AllLines(t) == LinesOf(t.children)
  {
  }

  method LineInner(t: Rope, target: int, byNumber: bool, number: int, offset: int) returns (r: LineInfo, ghost k: nat)
    requires Valid(t) && Within(target, byNumber, number, offset, LineCount(t), t.length)
    ensures IsLine(r, AllLines(t), k, number, offset) && Hits(r, target, byNumber)
    decreases t, 1
  {
    if t.Leaf? {
      r, k := LineInLeaf(t, target, byNumber, number, offset);
    } else {
      r, k := LineInNode(t, target, byNumber, number, offset);
    }
  }

  /** Lines before child `i`. */
  ghost function LinesBefore(t: Rope, i: nat): nat
    requires t.Node? && i <= |t.children|
  {
    |LinesOf(t.children[..i])|
  }

  lemma LinesBeforeNext(t: Rope, i: nat)
    requires Valid(t) && t.Node? && i < |t.children|
    ensures LinesBefore(t, 0) == 0 && LinesBefore(t, i + 1) == LinesBefore(t, i) + LineCount(t.children[i])
    ensures i + 1 == |t.children| ==> LinesBefore(t, i + 1) == t.lines
  {
    assert Valid(t.children[i]) && t.lines == |LinesOf(t.children)|;
    hide LinesOf, AllLines, Valid;
    LinesNone();
    ValidFacts(t.children[i]);
    assert t.children[..i + 1] == t.children[..i] + [t.children[i]];
    LinesPush(t.children[..i], t.children[i]);
    assert t.children[..|t.children|] == t.children;
  }

  /** A line of a child is a line of the node. */
  lemma ChildHit(t: Rope, i: nat, r: LineInfo, j: nat, number: int, offset: int)
    requires Valid(t) && t.Node? && i < |t.children|
    requires IsLine(r, AllLines(t.children[i]), j, number + LinesBefore(t, i), offset + ChildPos(t, i))
    ensures IsLine(r, AllLines(t), LinesBefore(t, i) + j, number, offset)
  {
    hide AllLines, Start, ChildPos, LinesOf, Valid;
    ChildLines(t, i, j);
  }

  method LineInNode(t: Rope, target: int, byNumber: bool, number: int, offset: int) returns (r: LineInfo, ghost k: nat)
    requires t.Node? && Valid(t) && Within(target, byNumber, number, offset, LineCount(t), t.length)
    ensures IsLine(r, AllLines(t), k, number, offset) && Hits(r, target, byNumber)
    decreases t, 0
  {
    hide Flat, AllLines, ChildPos, LinesBefore, IsLine, Valid;
    ValidFacts(t);
    LinesBeforeNext(t, 0);
    ChildSpan(t, 0);
    var pos, n, i := offset, number, 0;
    while true
      invariant 0 <= i < |t.children| && pos == offset + ChildPos(t, i) && n == number + LinesBefore(t, i)
      invariant if byNumber then n <= target else pos <= target
      decreases |t.children| - i
    {
      ChildSpan(t, i);
      LinesBeforeNext(t, i);
      var child := t.children[i];
      ValidFacts(child);
      var end, endLine := pos + child.length, n + LineCount(child) - 1;
      if (if byNumber then endLine else end) >= target {
        ghost var j;
        r, j := LineInner(child, target, byNumber, n, pos);
        ChildHit(t, i, r, j, number, offset);
        k := LinesBefore(t, i) + j;
        return;
      }
      pos, n, i := end + 1, endLine + 1, i + 1;
    }
  }

  /** The line around a position. */
  method LineAt(t: Rope, pos: int) returns (r: Found)
    requires Valid(t)
    ensures r.Found? <==> 0 <= pos <= |Flat(t)|
    ensures r.Found? ==> var l := r.line;
      && 1 <= l.number <= |AllLines(t)| && IsLine(l, AllLines(t), l.number - 1, 1, 0)
      && l.from <= pos <= l.to <= |Flat(t)| && Flat(t)[l.from..l.to] == l.text
  {
    ValidFacts(t);
    if pos < 0 || pos > t.length {
      return OutOfRange;
    }
    var line;
    ghost var k;
    line, k := LineInner(t, pos, false, 1, 0);
    LineSpan(AllLines(t), k);
    return Found(line);
  }

  /** The line with a given number. */
  method LineNumber(t: Rope, n: int) returns (r: Found)
    requires Valid(t)
    ensures r.Found? <==> 1 <= n <= |AllLines(t)|
    ensures r.Found? ==> IsLine(r.line, AllLines(t), n - 1, 1, 0)
  {
    ValidFacts(t);
    if n < 1 || n > LineCount(t) {
      return OutOfRange;
    }
    var line;
    ghost var k;
    line, k := LineInner(t, n, true, 1, 0);
    return Found(line);
  }

  /** What has been read of `whole[f..g]` when the next piece starts at `pos`. */
  function ReadUpto(whole: seq<char>, f: nat, g: nat, pos: nat): seq<char>
    requires f <= g <= |whole|
  {
    if pos <= f then [] else whole[f..Min(pos - 1, g)]
  }

  /** Reading one more piece: a line break if something was read before it, and
      its part of the range if there is one. */
  lemma ReadOn(whole: seq<char>, f: nat, g: nat, pos: nat, text: seq<char>, s: seq<char>, s': seq<char>)
    requires f <= g <= |whole| && pos <= g && s == ReadUpto(whole, f, g, pos)
    requires pos + |text| <= |whole| && whole[pos..pos + |text|] == text && (pos > 0 ==> whole[pos - 1] == '\n')
    requires s' == s + (if pos > f then ['\n'] else [])
                     + (if f < pos + |text| && g > pos then Cut(text, f - pos, g - pos) else [])
    ensures s' == ReadUpto(whole, f, g, pos + |text| + 1)
  {
    hide Cut, ReadUpto;
    var end := pos + |text|;
    var piece := if f < end && g > pos then Cut(text, f - pos, g - pos) else [];
    if pos > f {
      PieceIs(whole, f, g, pos, text);
      ReadNext(whole, f, g, pos, end);
    } else {
      ReadFirst(whole, f, g, pos, end);
      if end >= f {
        PieceIs(whole, f, g, pos, text);
      }
      Nothing(piece);
    }
  }

  lemma Nothing(s: seq<char>)
    ensures [] + [] + s == s
  {
  }

  /** A piece behind others. */
  lemma ReadNext(whole: seq<char>, f: nat, g: nat, pos: nat, end: nat)
    requires f < pos <= g <= |whole| && pos <= end <= |whole| && whole[pos - 1] == '\n'
    ensures ReadUpto(whole, f, g, pos) + ['\n'] + whole[Max(f, pos)..Min(end, g)] == ReadUpto(whole, f, g, end + 1)
  {
    Through(whole, f, pos, Min(end, g));
  }

  /** A piece in front of which nothing was read. */
  lemma ReadFirst(whole: seq<char>, f: nat, g: nat, pos: nat, end: nat)
    requires pos <= f <= g <= |whole| && pos <= end <= |whole|
    ensures ReadUpto(whole, f, g, pos) == []
    ensures ReadUpto(whole, f, g, end + 1) == if end >= f then whole[Max(f, pos)..Min(end, g)] else []
  {
  }

  lemma Through(whole: seq<char>, f: nat, pos: nat, hi: nat)
    requires f < pos <= hi <= |whole| && whole[pos - 1] == '\n'
    ensures whole[f..pos - 1] + ['\n'] + whole[pos..hi] == whole[f..hi]
  {
  }

  lemma PieceIs(whole: seq<char>, f: nat, g: nat, pos: nat, text: seq<char>)
    requires f <= g <= |whole| && pos <= g && f <= pos + |text|
    requires pos + |text| <= |whole| && whole[pos..pos + |text|] == text
    ensures (if f < pos + |text| && g > pos then Cut(text, f - pos, g - pos) else [])
         == whole[Max(f, pos)..Min(pos + |text|, g)]
  {
    if f < pos + |text| && g > pos {
      CutIs(whole, text, pos, f, g);
    }
  }

  method SliceLeaf(t: Rope, from: int, to: int) returns (s: seq<char>)
    requires t.Leaf? && Valid(t)
    ensures t.length >= 0 && s == Flat(t)[Clamp(t, from, to).0..Clamp(t, from, to).1]
  {
    hide Joined, Start, ReadUpto;
    var (f, g) := Clamp(t, from, to);
    ghost var whole := Flat(t);
    s := [];
    var pos, i := 0, 0;
    ReadEnds(whole, f, g, 0);
    StartZero(t.text);
    StartEnd(t.text);
    while pos <= g && i < |t.text|
      invariant 0 <= i <= |t.text| && pos == Start(t.text, i) && (i == 0 <==> pos == 0)
      invariant s == ReadUpto(whole, f, g, pos)
      invariant i == |t.text| ==> pos == |whole| + 1
    {
      ghost var was := s;
      LineSpan(t.text, i);
      var line := t.text[i];
      var end := pos + |line|;
      s := s + (if pos > f && i > 0 then ['\n'] else [])
          + (if f < end && g > pos then Cut(line, f - pos, g - pos) else []);
      ReadOn(whole, f, g, pos, line, was, s);
      pos, i := end + 1, i + 1;
    }
    ReadEnds(whole, f, g, pos);
  }

  lemma ReadEnds(whole: seq<char>, f: nat, g: nat, pos: nat)
    requires f <= g <= |whole|
    ensures ReadUpto(whole, f, g, 0) == []
    ensures pos > g ==> ReadUpto(whole, f, g, pos) == whole[f..g]
  {
  }

  /** The text of a part of a document. */
  method SliceString(t: Rope, from: int, to: int) returns (s: seq<char>)
    requires Valid(t)
    ensures t.length >= 0 && s == Flat(t)[Clamp(t, from, to).0..Clamp(t, from, to).1]
    decreases t, 1
  {
    if t.Leaf? {
      s := SliceLeaf(t, from, to);
    } else {
      s := SliceNode(t, from, to);
    }
  }

  method SliceNode(t: Rope, from: int, to: int) returns (s: seq<char>)
    requires t.Node? && Valid(t)
    ensures t.length >= 0 && s == Flat(t)[Clamp(t, from, to).0..Clamp(t, from, to).1]
    decreases t, 0
  {
    hide ChildPos, Flat, Valid, ReadUpto, Cut, Clamp;
    ValidFacts(t);
    var (f, g) := Clamp(t, from, to);
    ghost var whole := Flat(t);
    s := [];
    var pos, i := 0, 0;
    ReadEnds(whole, f, g, 0);
    ChildSpan(t, 0);
    while i < |t.children| && pos <= g
      invariant 0 <= i <= |t.children| && pos == ChildPos(t, i) && (i == 0 <==> pos == 0)
      invariant s == ReadUpto(whole, f, g, pos)
      invariant i == |t.children| ==> pos == |whole| + 1
    {
      ChildSpan(t, i);
      s := ReadChild(t, i, pos, f, g, s);
      pos, i := pos + t.children[i].length + 1, i + 1;
    }
    ReadEnds(whole, f, g, pos);
  }

  /** Read the part of child `i`, which stands at `pos`. */
  method ReadChild(t: Rope, i: nat, pos: nat, f: nat, g: nat, s: seq<char>) returns (s': seq<char>)
    requires t.Node? && Valid(t) && i < |t.children| && pos == ChildPos(t, i) && f <= g <= |Flat(t)| && pos <= g
    requires s == ReadUpto(Flat(t), f, g, pos)
    ensures t.children[i].length >= 0 && s' == ReadUpto(Flat(t), f, g, pos + t.children[i].length + 1)
    decreases t, 0, 0
  {
    hide ChildPos, Flat, Valid, ReadUpto, Cut, Clamp;
    ChildSpan(t, i);
    var child := t.children[i];
    var end := pos + child.length;
    var piece := [];
    if f < end && g > pos {
      piece := SliceString(child, f - pos, g - pos);
      ClampCuts(child, f - pos, g - pos);
    }
    s' := s + (if pos > f && i > 0 then ['\n'] else []) + piece;
    ReadOn(Flat(t), f, g, pos, Flat(child), s, s');
  }

  lemma ClampCuts(t: Rope, from: int, to: int)
    requires t.length == |Flat(t)| && from <= t.length && 0 <= to && from <= to
    ensures Flat(t)[Clamp(t, from, to).0..Clamp(t, from, to).1] == Cut(Flat(t), from, to)
  {
  }

  method ToString(t: Rope) returns (s: seq<char>)
    requires Valid(t)
    ensures s == Flat(t)
  {
    ValidFacts(t);
    s := SliceString(t, 0, t.length);
  }
}
