/** Replacing, appending and making documents. */
module Replacing {
  import opened Basics
  import opened Lines
  import opened Ropes
  import opened Balancing
  import opened Editing

  /** The bound that line copying uses when no end is given. */
  const LIMIT := 1_000_000_000

  lemma {:induction false} JoinedAround(ls: seq<Line>, i: nat, l: Line)
    requires i < |ls|
    ensures Start(ls, i) + |ls[i]| <= |Joined(ls)|
    ensures Joined(ls[i := l]) == Spliced(Joined(ls), Start(ls, i), Start(ls, i) + |ls[i]|, l)
  {
    hide Joined;
    var tail := if i + 1 < |ls| then ['\n'] + Joined(ls[i + 1..]) else [];
    var front := Before(ls, i);
    JoinedThree(ls, i);
    JoinedThree(ls[i := l], i);
    assert ls[i := l][i + 1..] == ls[i + 1..] && ls[i := l][..i] == ls[..i];
    var whole, p, q := Joined(ls), Start(ls, i), Start(ls, i) + |ls[i]|;
    assert whole[..p] == front && whole[q..] == tail;
  }

  /** The text before line `i`, with its line break. */
  ghost function Before(ls: seq<Line>, i: nat): seq<char>
    requires i <= |ls|
  {
    if i == 0 then [] else Joined(ls[..i]) + ['\n']
  }

  lemma HeadIs(ls: seq<Line>, i: nat)
    requires i < |ls|
    ensures |Before(ls, i)| == Start(ls, i) && Joined(ls[..i + 1]) == Before(ls, i) + ls[i]
  {
    var head := ls[..i + 1];
    assert head[..i] == ls[..i] && head[i] == ls[i];
  }

  lemma JoinedThree(ls: seq<Line>, i: nat)
    requires i < |ls|
    ensures |Before(ls, i)| == Start(ls, i)
    ensures Joined(ls) == Before(ls, i) + ls[i] + if i + 1 < |ls| then ['\n'] + Joined(ls[i + 1..]) else []
  {
    hide Joined, Before, Start;
    HeadIs(ls, i);
    if i + 1 < |ls| {
      JoinedAt(ls, i + 1);
      Assoc(Joined(ls[..i + 1]), ['\n'], Joined(ls[i + 1..]));
    } else {
      assert ls[..i + 1] == ls;
    }
  }

  lemma JoinedAt(ls: seq<Line>, k: nat)
    requires 0 < k < |ls|
    ensures Joined(ls) == Joined(ls[..k]) + ['\n'] + Joined(ls[k..])
  {
    hide Joined;
    JoinedConcat(ls[..k], ls[k..]);
    assert ls[..k] + ls[k..] == ls;
  }

  /** Replacing within a part is replacing within the whole. */
  lemma SplicedInside(s: seq<char>, p: nat, q: nat, from: nat, to: nat, text: seq<char>)
    requires p <= from <= to <= q <= |s|
    ensures Spliced(s, p, q, Spliced(s[p..q], from - p, to - p, text)) == Spliced(s, from, to, text)
  {
    assert s[..p] + s[p..q][..from - p] == s[..from];
    assert s[p..q][to - p..] + s[q..] == s[to..];
    var a, b := s[p..q][..from - p], s[p..q][to - p..];
    assert s[..p] + (a + text + b) + s[q..] == (s[..p] + a) + text + (b + s[q..]);
  }

  /** Exchanging a child exchanges its text and its lines. */
  lemma ChildReplaced(t: Rope, i: nat, a: Rope)
    requires Valid(t) && t.Node? && i < |t.children| && Valid(a)
    ensures var cs := t.children[i := a];
      && AllValid(cs) && |LinesOf(cs)| == t.lines - LineCount(t.children[i]) + LineCount(a)
      && 0 <= t.children[i].length && ChildPos(t, i) + t.children[i].length <= |Flat(t)|
      && FlatOf(cs) == Spliced(Flat(t), ChildPos(t, i), ChildPos(t, i) + t.children[i].length, Flat(a))
  {
    hide Joined, LinesOf, Valid;
    var cs := t.children[i := a];
    ValidFacts(t);
    ValidFacts(a);
    ValidFacts(t.children[i]);
    FlatIsJoined(t.children);
    FlatIsJoined(cs);
    assert Flats(cs) == Flats(t.children)[i := Flat(a)];
    JoinedAround(Flats(t.children), i, Flat(a));
    var front, back := t.children[..i], t.children[i + 1..];
    assert t.children == front + [t.children[i]] + back && cs == front + [a] + back;
    LinesConcat(front + [t.children[i]], back);
    LinesConcat(front + [a], back);
    LinesPush(front, t.children[i]);
    LinesPush(front, a);
  }

  /** Exchanging a child for a clean one. */
  lemma CleanReplaced(t: Rope, i: nat, a: Rope, r: Rope)
    requires t.Node? && i < |t.children| && r.Node? && r.children == t.children[i := a]
    ensures Clean(t) && Clean(a) ==> Clean(r)
  {
    var front, back := t.children[..i], t.children[i + 1..];
    assert (Clean(t) <==> AllClean(t.children)) && (Clean(r) <==> AllClean(r.children));
    hide LinesOf, AllLines, NoBreaks, Clean;
    assert t.children == front + [t.children[i]] + back && r.children == front + [a] + back;
    LinesConcat(front + [t.children[i]], back);
    LinesConcat(front + [a], back);
    NoBreaksConcat(LinesOf(front + [t.children[i]]), LinesOf(back));
    NoBreaksConcat(LinesOf(front + [a]), LinesOf(back));
    CleanPush(front, t.children[i]);
    CleanPush(front, a);
  }

  /** The lines of a leaf with a part replaced by those of another leaf. */
  method LeafText(t: Rope, from: int, to: int, x: Rope) returns (s: seq<Line>)
    requires t.Leaf? && Valid(t) && x.Leaf? && Valid(x) && 0 <= from <= to <= t.length
    ensures s != []
    ensures Joined(s) == Flat(t)[..from] + Cut(Flat(x), 0, LIMIT) + Cut(Flat(t), to, LIMIT)
    ensures Clean(t) && Clean(x) ==> NoBreaks(s)
  {
    hide Joined, NoBreaks;
    s := SliceText(t.text, 0, from);
    assert Cut(Flat(t), 0, from) == Flat(t)[..from];
    s := AppendText(x.text, s, 0, LIMIT);
    s := AppendText(t.text, s, to, LIMIT);
  }

  /** The bound is harmless exactly when the inserted text fits it, and so does
      the old text unless nothing of it is left after the replaced part. */
  lemma LimitExact(s: seq<char>, from: nat, to: nat, text: seq<char>)
    requires from <= to <= |s|
    ensures s[..from] + Cut(text, 0, LIMIT) + Cut(s, to, LIMIT) == Spliced(s, from, to, text)
       <==> |text| <= LIMIT && (|s| <= LIMIT || to == |s|)
  {
    var a, b := Cut(text, 0, LIMIT), Cut(s, to, LIMIT);
    if |text| <= LIMIT && (|s| <= LIMIT || to == |s|) {
      assert a == text && b == s[to..];
    } else {
      assert |a| <= |text| && |b| <= |s| - to && |a| + |b| < |text| + |s| - to;
      assert |s[..from] + a + b| < |Spliced(s, from, to, text)|;
    }
  }

  /** Whether replacing up to `to` in a leaf stays within the bound: it does not
      apply to a larger tree put in, and does not show where nothing is left. */
  predicate LeafBound(t: Rope, to: int, x: Rope)
  {
    x.Node? || (x.length <= LIMIT && (t.length <= LIMIT || to == t.length))
  }

  /** Whether the leaf in which a replacement ends up, if it does in one, stays
      within the bound. */
  predicate Bounded(t: Rope, from: int, to: int, x: Rope)
    decreases t, 1
  {
    if t.Leaf? then LeafBound(t, to, x) else LineCount(x) < t.lines ==> BoundedIn(t.children, from, to, x)
  }

  predicate BoundedIn(ts: seq<Rope>, from: int, to: int, x: Rope)
    decreases ts, 0
  {
    if ts == [] then true
    else if from >= 0 && to <= ts[0].length then Bounded(ts[0], from, to, x)
    else BoundedIn(ts[1..], from - ts[0].length - 1, to - ts[0].length - 1, x)
  }

  /** `replace` on a leaf, whatever the lengths: the result is the document with
      the part replaced, and its caches are exact, if and only if the bound of
      line copying does not show. */
  method ReplaceLeaf(t: Rope, from: int, to: int, x: Rope) returns (r: Rope)
    requires t.Leaf? && Valid(t) && Valid(x)
    ensures t.length >= 0
    ensures var (f, g) := Clamp(t, from, to);
      Valid(r) && Flat(r) == Spliced(Flat(t), f, g, Flat(x)) <==> LeafBound(t, g, x)
    ensures Clean(t) && Clean(x) ==> Clean(r)
  {
    if x.Node? {
      r := ReplaceByParts(t, from, to, x);
      return;
    }
    hide Joined, LinesOf, FlatOf;
    ValidFacts(t);
    ValidFacts(x);
    var (f, g) := Clamp(t, from, to);
    var s := LeafText(t, f, g, x);
    LimitExact(Flat(t), f, g, Flat(x));
    SplicedLength(Flat(t), f, g, Flat(x));
    var length := t.length + x.length - (g - f);
    r := LeafOrTree(s, length);
  }

  method LeafOrTree(s: seq<Line>, length: int) returns (r: Rope)
    requires s != []
    ensures AllLines(r) == s
    ensures length == |Joined(s)| ==> Valid(r)
  {
    if |s| <= 32 {
      r := Leaf(s, length);
    } else {
      var parts := Split(s);
      assert LinesOf([]) == [];
      r := From(parts, length);
    }
  }

  /** What replacing gives: a document, or a tree that the bound has damaged. */
  datatype Replaced = Done(doc: Rope) | PastLimit

  ghost predicate Replaces(r: Replaced, t: Rope, from: int, to: int, x: Rope)
    requires 0 <= from <= to <= |Flat(t)|
  {
    && (r.Done? <==> Bounded(t, from, to, x))
    && (r.Done? ==> Valid(r.doc) && Flat(r.doc) == Spliced(Flat(t), from, to, Flat(x)))
    && (r.Done? && Clean(t) && Clean(x) ==> Clean(r.doc))
  }

  /** The children up to `i` do not hold the part to be replaced. */
  lemma BoundedOn(t: Rope, i: nat, from: int, to: int, x: Rope)
    requires t.Node? && i < |t.children|
    ensures var child := t.children[i];
      BoundedIn(t.children[i..], from, to, x) ==
        if from >= 0 && to <= child.length then Bounded(child, from, to, x)
        else BoundedIn(t.children[i + 1..], from - child.length - 1, to - child.length - 1, x)
  {
    assert t.children[i..][1..] == t.children[i + 1..];
  }

  /** Replacing in a node: inside one child if the text is not too large for it,
      keeping the other children when the sizes stay in proportion. */
  method ReplaceNode(t: Rope, from: int, to: int, x: Rope) returns (r: Replaced)
    requires t.Node? && Valid(t) && Valid(x) && 0 <= from <= to <= |Flat(t)|
    ensures Replaces(r, t, from, to, x)
    decreases t, 0
  {
    hide Flat, FlatOf, ChildPos, LinesOf, Joined, Spliced, Bounded, BoundedIn, Valid, Clean;
    ValidFacts(t);
    ValidFacts(x);
    BoundedNode(t, from, to, x);
    if LineCount(x) < t.lines {
      var i, pos := 0, 0;
      ChildSpan(t, 0);
      assert t.children[0..] == t.children;
      while i < |t.children|
        invariant 0 <= i <= |t.children| && pos == ChildPos(t, i)
        invariant BoundedIn(t.children[i..], from - pos, to - pos, x) <==> Bounded(t, from, to, x)
      {
        ChildSpan(t, i);
        BoundedOn(t, i, from - pos, to - pos, x);
        var child := t.children[i];
        if from >= pos && to <= pos + child.length {
          r := ReplaceChild(t, i, pos, from, to, x);
          return;
        }
        pos := pos + child.length + 1;
        i := i + 1;
      }
      NoneLeft(from - pos, to - pos, x);
      assert t.children[i..] == [];
    }
    r := ReplaceWhole(t, from, to, x);
  }

  lemma BoundedNode(t: Rope, from: int, to: int, x: Rope)
    requires t.Node?
    ensures Bounded(t, from, to, x) <==> (LineCount(x) < t.lines ==> BoundedIn(t.children, from, to, x))
  {
  }

  lemma NoneLeft(from: int, to: int, x: Rope)
    ensures BoundedIn([], from, to, x)
  {
  }

  method ReplaceWhole(t: Rope, from: int, to: int, x: Rope) returns (r: Replaced)
    requires Valid(t) && Valid(x) && 0 <= from <= to <= |Flat(t)| && Bounded(t, from, to, x)
    ensures Replaces(r, t, from, to, x)
  {
    hide Bounded, Flat, Spliced, Clean;
    ValidFacts(t);
    var doc := ReplaceByParts(t, from, to, x);
    r := Done(doc);
  }

  /** Replacing inside child `i`, which stands at `pos`. */
  method ReplaceChild(t: Rope, i: nat, pos: int, from: int, to: int, x: Rope) returns (r: Replaced)
    requires t.Node? && Valid(t) && Valid(x) && i < |t.children| && pos == ChildPos(t, i)
    requires 0 <= from <= to <= |Flat(t)| && pos <= from && to <= pos + t.children[i].length
    requires Bounded(t, from, to, x) <==> Bounded(t.children[i], from - pos, to - pos, x)
    ensures Replaces(r, t, from, to, x)
    decreases t, 0, 0
  {
    hide Flat, FlatOf, ChildPos, LinesOf, Joined, Spliced, Bounded, AllClean, Clean;
    CleanPart(t, i);
    ValidFacts(t);
    ValidFacts(x);
    ChildSpan(t, i);
    var child := t.children[i];
    var end := pos + child.length;
    var inner := Replace(child, from - pos, to - pos, x);
    if inner.PastLimit? {
      return PastLimit;
    }
    var a := inner.doc;
    ValidFacts(a);
    SplicedInside(Flat(t), pos, end, from, to, Flat(x));
    var lines := t.lines - LineCount(child) + LineCount(a);
    if LineCount(a) < lines / 16 && LineCount(a) > lines / 64 {
      ChildReplaced(t, i, a);
      SplicedLength(Flat(t), from, to, Flat(x));
      var doc := NewNode(t.children[i := a], t.length - (to - from) + x.length);
      NodeIsValid(doc);
      CleanReplaced(t, i, a, doc);
      return Done(doc);
    }
    var doc := ReplaceByParts(t, pos, end, a);
    return Done(doc);
  }

  lemma SplicedLength(s: seq<char>, from: nat, to: nat, text: seq<char>)
    requires from <= to <= |s|
    ensures |Spliced(s, from, to, text)| == |s| - (to - from) + |text|
  {
  }

  lemma NodeIsValid(r: Rope)
    requires r.Node? && AllValid(r.children)
    requires r.lines == |LinesOf(r.children)| >= BRANCH && r.length == |FlatOf(r.children)|
    ensures Valid(r) && Flat(r) == FlatOf(r.children)
  {
  }

  /** Replace a part of a document, of any length.  Exactly when the leaf that
      the replacement ends up in is past the bound, the tree is damaged. */
  method Replace(t: Rope, from: int, to: int, x: Rope) returns (r: Replaced)
    requires Valid(t) && Valid(x)
    ensures t.length >= 0 && t.length == |Flat(t)|
    ensures var (f, g) := Clamp(t, from, to); Replaces(r, t, f, g, x)
    decreases t, 1
  {
    hide Flat, Spliced, Clean;
    ValidFacts(t);
    var (f, g) := Clamp(t, from, to);
    if t.Leaf? {
      var doc := ReplaceLeaf(t, f, g, x);
      r := if LeafBound(t, g, x) then Done(doc) else PastLimit;
    } else {
      r := ReplaceNode(t, f, g, x);
    }
  }

  /** Appending puts the texts together; only a single leaf past the bound that
      is appended can do damage. */
  method Append(t: Rope, x: Rope) returns (r: Replaced)
    requires Valid(t) && Valid(x)
    ensures r.Done? <==> Bounded(t, t.length, t.length, x)
    ensures r.PastLimit? ==> x.Leaf? && x.length > LIMIT
    ensures r.Done? ==> Valid(r.doc) && Flat(r.doc) == Flat(t) + Flat(x)
    ensures r.Done? && Clean(t) && Clean(x) ==> Clean(r.doc)
  {
    hide Bounded, Clean;
    ValidFacts(t);
    r := Replace(t, t.length, t.length, x);
    assert Flat(t)[..t.length] == Flat(t) && Flat(t)[t.length..] == [];
    if !(x.Leaf? && x.length > LIMIT) {
      AppendBounded(t, x);
    }
  }

  /** A line of one character more than the bound, appended to the empty document:
      the bound shows, and what comes back is not that line. */
  method AppendsTooLong() returns (r: Rope, past: Replaced)
    ensures var x := Leaf([seq(LIMIT + 1, _ => 'x')], LIMIT + 1);
      && Valid(x) && !Bounded(Leaf([[]], 0), 0, 0, x)
      && !(Valid(r) && Flat(r) == Flat(x)) && past == PastLimit
  {
    var x, nothing := Leaf([seq(LIMIT + 1, _ => 'x')], LIMIT + 1), Leaf([[]], 0);
    assert Valid(x) && Valid(nothing) && Flat(nothing) == [] && [] + Flat(x) + [] == Flat(x);
    r := ReplaceLeaf(nothing, 0, 0, x);
    past := Append(nothing, x);
  }

  // ----- when the bound does not show -----

  /** No leaf is past the bound. */
  predicate LeavesFit(t: Rope)
  {
    match t
    case Leaf(_, length) => length <= LIMIT
    case Node(children, _, _) => forall k :: 0 <= k < |children| ==> LeavesFit(children[k])
  }

  /** A document of ordinary leaves, however long it is, is never damaged by
      putting in a larger tree or an ordinary leaf. */
  lemma {:induction false} FitIsBounded(t: Rope, from: int, to: int, x: Rope)
    requires LeavesFit(t) && (x.Leaf? ==> x.length <= LIMIT)
    ensures Bounded(t, from, to, x)
    decreases t, 1
  {
    if t.Node? {
      FitIsBoundedIn(t.children, from, to, x);
    }
  }

  lemma {:induction false} FitIsBoundedIn(ts: seq<Rope>, from: int, to: int, x: Rope)
    requires (forall k :: 0 <= k < |ts| ==> LeavesFit(ts[k])) && (x.Leaf? ==> x.length <= LIMIT)
    ensures BoundedIn(ts, from, to, x)
    decreases ts, 0
  {
    if ts != [] {
      FitIsBounded(ts[0], from, to, x);
      FitIsBoundedIn(ts[1..], from - ts[0].length - 1, to - ts[0].length - 1, x);
    }
  }

  /** Nothing is left behind what is appended. */
  lemma {:induction false} AppendBounded(t: Rope, x: Rope)
    requires Valid(t) && (x.Leaf? ==> x.length <= LIMIT)
    ensures Bounded(t, t.length, t.length, x)
    decreases t, 1, 0
  {
    if t.Node? {
      hide Flat, FlatOf, Joined, LinesOf, ChildPos, Valid;
      ValidFacts(t);
      ChildSpan(t, 0);
      assert t.children[0..] == t.children;
      AppendBoundedIn(t, 0, x);
      BoundedNode(t, t.length, t.length, x);
    }
  }

  lemma {:induction false} AppendBoundedIn(t: Rope, i: nat, x: Rope)
    requires Valid(t) && t.Node? && i < |t.children| && (x.Leaf? ==> x.length <= LIMIT)
    ensures BoundedIn(t.children[i..], t.length - ChildPos(t, i), t.length - ChildPos(t, i), x)
    decreases t, 0, |t.children| - i
  {
    hide Flat, FlatOf, Joined, LinesOf, ChildPos, Bounded, BoundedIn, Valid;
    ValidFacts(t);
    ChildSpan(t, i);
    var child, at := t.children[i], t.length - ChildPos(t, i);
    BoundedOn(t, i, at, at, x);
    if i + 1 < |t.children| {
      AppendBoundedIn(t, i + 1, x);
      ChildSpan(t, i + 1);
    } else {
      AppendBounded(child, x);
    }
  }

  /** A short document has no long leaves. */
  lemma {:induction false} ShortFits(t: Rope)
    requires Valid(t) && t.length <= LIMIT
    ensures LeavesFit(t)
  {
    if t.Node? {
      forall k | 0 <= k < |t.children| ensures LeavesFit(t.children[k]) {
        ValidFacts(t);
        ChildSpan(t, k);
        ShortFits(t.children[k]);
      }
    }
  }

  /** At most 32 consecutive lines that together are past the bound. */
  ghost predicate LongLines(ls: seq<Line>)
  {
    exists a: nat, b: nat :: LongLinesAt(ls, a, b)
  }

  predicate LongLinesAt(ls: seq<Line>, a: nat, b: nat)
  {
    a < b <= |ls| && b - a <= BRANCH && |Joined(ls[a..b])| > LIMIT
  }

  /** A leaf past the bound holds such lines of its document. */
  lemma {:induction false} LongLeafLines(t: Rope)
    requires Valid(t) && !LeavesFit(t)
    ensures LongLines(AllLines(t))
  {
    if t.Leaf? {
      assert t.text[0..|t.text|] == t.text;
      assert LongLinesAt(t.text, 0, |t.text|);
    } else {
      var k :| 0 <= k < |t.children| && !LeavesFit(t.children[k]);
      LongLeafLines(t.children[k]);
      LongLinesIn(t.children, k);
    }
  }

  lemma LongLinesIn(ts: seq<Rope>, k: nat)
    requires k < |ts| && LongLines(AllLines(ts[k]))
    ensures LongLines(LinesOf(ts))
  {
    hide Joined, LinesOf, AllLines;
    var ls := AllLines(ts[k]);
    var a: nat, b: nat :| LongLinesAt(ls, a, b);
    var front, back := LinesOf(ts[..k]), LinesOf(ts[k + 1..]);
    assert ts == ts[..k] + [ts[k]] + ts[k + 1..];
    LinesConcat(ts[..k] + [ts[k]], ts[k + 1..]);
    LinesPush(ts[..k], ts[k]);
    Inside(front, ls, back, a, b);
    assert LongLinesAt(LinesOf(ts), |front| + a, |front| + b);
  }

  lemma Inside(front: seq<Line>, ls: seq<Line>, back: seq<Line>, a: nat, b: nat)
    requires a <= b <= |ls|
    ensures (front + ls + back)[|front| + a..|front| + b] == ls[a..b]
  {
  }

  /** A short text has no such lines. */
  lemma ShortLines(ls: seq<Line>)
    requires ls != [] && |Joined(ls)| <= LIMIT
    ensures !LongLines(ls)
  {
    hide Joined;
    forall a: nat, b: nat ensures !LongLinesAt(ls, a, b) {
      if a < b <= |ls| {
        JoinedPrefix(ls, b);
        if a > 0 {
          JoinedAt(ls[..b], a);
          assert ls[..b][a..] == ls[a..b];
        } else {
          assert ls[0..b] == ls[..b];
        }
      }
    }
  }

  /** The longest a line can be so that 32 of them always stay within the bound. */
  const LINE_LIMIT := 31_249_999

  predicate OrdinaryLines(ls: seq<Line>)
  {
    forall l :: 0 <= l < |ls| ==> |ls[l]| <= LINE_LIMIT
  }

  lemma {:induction false} OrdinaryLength(ls: seq<Line>)
    requires OrdinaryLines(ls)
    ensures |Joined(ls)| <= |ls| * (LINE_LIMIT + 1)
    decreases |ls|
  {
    if |ls| > 1 {
      OrdinaryLength(ls[..|ls| - 1]);
    }
  }

  /** However many there are, ordinary lines never get past the bound. */
  lemma OrdinaryIsShort(ls: seq<Line>)
    requires OrdinaryLines(ls)
    ensures !LongLines(ls)
  {
    hide Joined;
    forall a: nat, b: nat ensures !LongLinesAt(ls, a, b) {
      if a < b <= |ls| {
        OrdinaryLength(ls[a..b]);
      }
    }
  }

  /** A document needs at least one line. */
  datatype MadeOf = Made(doc: Rope) | NoLines

  method Of(lines: seq<Line>) returns (r: MadeOf)
    ensures r.NoLines? <==> lines == []
    ensures r.Made? ==> Valid(r.doc) && AllLines(r.doc) == lines
  {
    if |lines| == 0 {
      return NoLines;
    }
    TextLengthIs(lines);
    if |lines| == 1 && |lines[0]| == 0 {
      return Made(Leaf([[]], 0));
    }
    var doc := LeafOrTree(lines, TextLength(lines));
    return Made(doc);
  }
}
