/** Lists of lines, and the text they stand for. */
module Lines {
  import opened Basics

  type Line = seq<char>

  /** The text of a list of lines: a line break between any two. */
  function Joined(ls: seq<Line>): seq<char>
  {
    if |ls| == 0 then [] else if |ls| == 1 then ls[0] else Joined(ls[..|ls| - 1]) + ['\n'] + ls[|ls| - 1]
  }

  /** The lines are what a text with line breaks splits into. */
  predicate NoBreaks(ls: seq<Line>)
  {
    forall l :: 0 <= l < |ls| ==> '\n' !in ls[l]
  }

  lemma NoBreaksConcat(xs: seq<Line>, ys: seq<Line>)
    ensures NoBreaks(xs + ys) <==> NoBreaks(xs) && NoBreaks(ys)
  {
    var all := xs + ys;
    if NoBreaks(all) {
      forall l | 0 <= l < |xs| ensures '\n' !in xs[l] {
        assert all[l] == xs[l];
      }
      forall l | 0 <= l < |ys| ensures '\n' !in ys[l] {
        assert all[|xs| + l] == ys[l];
      }
    }
  }

  lemma JoinedOne(ls: seq<Line>)
    requires |ls| == 1
    ensures Joined(ls) == ls[0]
  {
  }

  /** Where line `i` starts in the text. */
  function Start(ls: seq<Line>, i: nat): nat
    requires i <= |ls|
  {
    if i == 0 then 0 else |Joined(ls[..i])| + 1
  }

  lemma JoinedPush(ls: seq<Line>, l: Line)
    requires ls != []
    ensures Joined(ls + [l]) == Joined(ls) + ['\n'] + l
  {
    assert (ls + [l])[..|ls|] == ls;
  }

  lemma JoinedGrow(ls: seq<Line>, l: Line)
    requires ls != []
    ensures Joined(ls[|ls| - 1 := ls[|ls| - 1] + l]) == Joined(ls) + l
  {
    var last := |ls| - 1;
    var ls' := ls[last := ls[last] + l];
    if |ls| > 1 {
      assert ls'[..last] == ls[..last];
      assert Joined(ls[..last]) + ['\n'] + (ls[last] + l) == Joined(ls[..last]) + ['\n'] + ls[last] + l;
    }
  }

  lemma {:induction false} JoinedConcat(xs: seq<Line>, ys: seq<Line>)
    requires xs != [] && ys != []
    ensures Joined(xs + ys) == Joined(xs) + ['\n'] + Joined(ys)
    decreases |ys|
  {
    var last := |ys| - 1;
    assert xs + ys == (xs + ys[..last]) + [ys[last]];
    JoinedPush(xs + ys[..last], ys[last]);
    if last == 0 {
      assert xs + ys[..0] == xs;
    } else {
      JoinedConcat(xs, ys[..last]);
      assert ys == ys[..last] + [ys[last]];
      JoinedPush(ys[..last], ys[last]);
      assert Joined(xs) + ['\n'] + Joined(ys[..last]) + ['\n'] + ys[last]
          == Joined(xs) + ['\n'] + (Joined(ys[..last]) + ['\n'] + ys[last]);
    }
  }

  /** Line `i` stands at its place in the text, after a line break. */
  lemma LineSpan(ls: seq<Line>, i: nat)
    requires i < |ls|
    ensures var p, text := Start(ls, i), Joined(ls);
      && Start(ls, i + 1) == p + |ls[i]| + 1 && p + |ls[i]| <= |text|
      && text[p..p + |ls[i]|] == ls[i] && (i > 0 ==> text[p - 1] == '\n')
      && (i == |ls| - 1 ==> p + |ls[i]| == |text|)
  {
    hide Joined;
    var head, text := ls[..i + 1], Joined(ls);
    JoinedPrefix(ls, i + 1);
    HeadSpan(ls, i);
    var h := Joined(head);
    assert h == text[..|h|];
    assert text[|h| - |ls[i]|..|h|] == h[|h| - |ls[i]|..];
  }

  lemma HeadSpan(ls: seq<Line>, i: nat)
    requires i < |ls|
    ensures var h := Joined(ls[..i + 1]);
      Start(ls, i) + |ls[i]| == |h| && h[Start(ls, i)..] == ls[i] && (i > 0 ==> h[Start(ls, i) - 1] == '\n')
  {
    var head := ls[..i + 1];
    assert head[..i] == ls[..i] && head[i] == ls[i];
  }

  lemma JoinedPrefix(ls: seq<Line>, i: nat)
    requires 0 < i <= |ls|
    ensures Joined(ls[..i]) <= Joined(ls)
    ensures i == |ls| ==> Joined(ls[..i]) == Joined(ls)
  {
    hide Joined;
    assert ls == ls[..i] + ls[i..];
    if i < |ls| {
      JoinedConcat(ls[..i], ls[i..]);
    } else {
      assert ls[..i] == ls;
    }
  }

  lemma StartZero(ls: seq<Line>)
    ensures Start(ls, 0) == 0
  {
  }

  lemma StartEnd(ls: seq<Line>)
    requires ls != []
    ensures Start(ls, |ls|) == |Joined(ls)| + 1
  {
    assert ls[..|ls|] == ls;
  }

  /** The part of `s` between `from` and `to`, ends pulled into range. */
  function Cut(s: seq<char>, from: int, to: int): seq<char>
  {
    var f, t := Max(0, from), Min(to, |s|);
    if f <= t then s[f..t] else []
  }

  /** The part of a line standing at `pos` that lies between `from` and `to`. */
  function Clip(line: Line, pos: nat, from: int, to: int): Line
    requires pos <= to
  {
    var cut := if pos + |line| > to then line[..to - pos] else line;
    if pos < from then (if from - pos <= |cut| then cut[from - pos..] else []) else cut
  }

  lemma SliceOfSlice(s: seq<char>, p: nat, q: nat, a: nat, b: nat)
    requires p <= a <= b <= q <= |s|
    ensures s[p..q][a - p..b - p] == s[a..b]
  {
    var u, v := s[p..q][a - p..b - p], s[a..b];
    assert |u| == |v| && forall k :: 0 <= k < |u| ==> u[k] == v[k];
  }

  lemma ClipIs(whole: seq<char>, line: Line, pos: nat, from: int, to: int)
    requires pos + |line| <= |whole| && whole[pos..pos + |line|] == line && pos <= to && from <= pos + |line|
    ensures var f, t := Max(0, from), Min(to, |whole|);
      Clip(line, pos, from, to) == if f <= t then whole[Max(f, pos)..Min(pos + |line|, t)] else []
  {
    var f, t, end := Max(0, from), Min(to, |whole|), pos + |line|;
    if f <= t {
      SliceOfSlice(whole, pos, end, Max(f, pos), Min(end, t));
    }
  }

  /** One more line: what was copied up to the line break, the break, and the line. */
  lemma CopyOn(base: seq<char>, whole: seq<char>, f: nat, pos: nat, t: nat)
    requires f < pos <= t <= |whole| && whole[pos - 1] == '\n'
    ensures base + whole[f..pos - 1] + ['\n'] + whole[pos..t] == base + whole[f..t]
  {
    assert whole[f..t] == whole[f..pos - 1] + ['\n'] + whole[pos..t];
  }

  /** A clipped line holds no more breaks than the line. */
  lemma ClippedOn(text: seq<Line>, r: seq<Line>, i: nat, pos: nat, from: int, to: int)
    requires i < |text| && pos <= to && r != []
    ensures var l := Clip(text[i], pos, from, to);
      NoBreaks(text) && NoBreaks(r) ==> NoBreaks(r + [l]) && NoBreaks(r[|r| - 1 := r[|r| - 1] + l])
  {
  }

  /** The lines of `text` in front of `pos`, the start of line `i`, are copied as
      far as they lie between `from` and `to`; `first` says that none was yet. */
  ghost predicate Copied(text: seq<Line>, target: seq<Line>, r: seq<Line>, i: nat, pos: nat, first: bool, from: int,
                         to: int)
  {
    var whole, f := Joined(text), Max(0, from);
    var t := Min(to, |whole|);
    && i <= |text| && pos == Start(text, i) && first == (pos <= f)
    && r != [] && |r| <= |target| + (if first then 0 else i - 1)
    && 0 <= t
    && Joined(r) == Joined(target) + (if first || t < f then [] else whole[f..Min(pos - 1, t)])
    && (NoBreaks(target) && NoBreaks(text) ==> NoBreaks(r))
  }

  /** Copy one line. */
  method AppendLine(text: seq<Line>, ghost target: seq<Line>, r: seq<Line>, i: nat, pos: nat, first: bool, from: int,
                    to: int)
    returns (r': seq<Line>, first': bool)
    requires i < |text| && 0 <= pos <= to && from <= |Joined(text)| && Copied(text, target, r, i, pos, first, from, to)
    ensures Copied(text, target, r', i + 1, pos + |text[i]| + 1, first', from, to)
  {
    hide Joined, Start, Clip, NoBreaks, Cut;
    r', first' := r, first;
    StartZero(text);
    LineSpan(text, i);
    if pos + |text[i]| >= from {
      var line := Clip(text[i], pos, from, to);
      ClippedOn(text, r, i, pos, from, to);
      if first {
        r' := r[|r| - 1 := r[|r| - 1] + line];
        JoinedGrow(r, line);
        CopyFirst(Joined(target), Joined(text), text[i], pos, from, to);
      } else {
        r' := r + [line];
        JoinedPush(r, line);
        CopyNext(Joined(target), Joined(text), text[i], pos, from, to);
      }
      first' := false;
    }
  }

  /** What `base` and the first line copied make. */
  lemma CopyFirst(base: seq<char>, whole: seq<char>, line: Line, pos: nat, from: int, to: int)
    requires pos + |line| <= |whole| && whole[pos..pos + |line|] == line && pos <= to && from <= pos + |line|
      && pos <= Max(0, from)
    ensures var f, t := Max(0, from), Min(to, |whole|);
      base + [] + Clip(line, pos, from, to) == base + if t < f then [] else whole[f..Min(pos + |line|, t)]
  {
    hide Clip;
    ClipIs(whole, line, pos, from, to);
    assert base + [] == base;
  }

  /** What another line adds to what was copied up to the break in front of it. */
  lemma CopyNext(base: seq<char>, whole: seq<char>, line: Line, pos: nat, from: int, to: int)
    requires pos + |line| <= |whole| && whole[pos..pos + |line|] == line && from <= pos + |line|
    requires Max(0, from) < pos <= to && whole[pos - 1] == '\n'
    ensures var f, t := Max(0, from), Min(to, |whole|);
      base + whole[f..Min(pos - 1, t)] + ['\n'] + Clip(line, pos, from, to) == base + whole[f..Min(pos + |line|, t)]
  {
    hide Clip;
    var f, t := Max(0, from), Min(to, |whole|);
    ClipIs(whole, line, pos, from, to);
    CopyOn(base, whole, f, pos, Min(pos + |line|, t));
  }

  /** Append the part of `text` between `from` and `to` to `target`, whose last
      line it continues. */
  method AppendText(text: seq<Line>, target: seq<Line>, from: int, to: int) returns (r: seq<Line>)
    requires target != [] && text != []
    requires from <= |Joined(text)| && 0 <= to
    ensures Joined(r) == Joined(target) + Cut(Joined(text), from, to)
    ensures 0 < |r| < |target| + |text|
    ensures NoBreaks(target) && NoBreaks(text) ==> NoBreaks(r)
  {
    hide Joined, Start, NoBreaks;
    r := target;
    var pos, first, i := 0, true, 0;
    StartZero(text);
    while i < |text| && pos <= to
      invariant 0 <= i <= |text| && 0 <= pos && Copied(text, target, r, i, pos, first, from, to)
    {
      r, first := AppendLine(text, target, r, i, pos, first, from, to);
      pos := pos + |text[i]| + 1;
      i := i + 1;
    }
    StartEnd(text);
  }
}
