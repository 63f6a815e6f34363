/** Where the changes of two change sets made one after the other touch: the
  places that are a boundary of both, and what those say about the sections of
  the one set that does both.
 */
module Boundaries {
  import opened Tokens
  import opened ChangeSets
  import opened SectionIters

  // ----- where a cursor stands in the new document of its change set -----

  /** `c` stands in section `c.i - 1`, `c.off` new characters into it. */
  ghost predicate OnNew(cs: ChangeSet, c: Cursor)
  {
    && c.i <= |cs.sections|
    && if c.ins == DONE then c == Fetch(cs, |cs.sections|)
       else && c.i > 0 && c.ins >= -1
            && if c.ins == -1 then cs.sections[c.i - 1] == Section(c.off + c.len, -1) && c.len > 0
               else cs.sections[c.i - 1] == Section(c.len, c.off + c.ins) && (c.off > 0 ==> c.ins > 0)
  }

  /** Old characters that the current section still has to pass: an insertion
      passes those it replaces with its first piece. */
  ghost function Cost(c: Cursor): nat
  {
    if c.ins >= 0 && c.off > 0 then 0 else c.len
  }

  ghost function OldPos(cs: ChangeSet, c: Cursor): int
    requires c.i <= |cs.sections|
  {
    cs.LenUpto(c.i) - Cost(c)
  }

  ghost function NewPos(cs: ChangeSet, c: Cursor): int
    requires c.i <= |cs.sections|
  {
    cs.NewUpto(c.i) - Len2(c)
  }

  /** Old characters passed with the next `n` new ones. */
  ghost function Passed(c: Cursor, n: nat): nat
  {
    if c.ins < 0 then n else Cost(c)
  }

  lemma FetchOnNew(cs: ChangeSet, i: nat)
    requires cs.Valid() && i <= |cs.sections|
    ensures var c := Fetch(cs, i);
      OnNew(cs, c) && OldPos(cs, c) == cs.LenUpto(i) && NewPos(cs, c) == cs.NewUpto(i)
  {
    if i < |cs.sections| {
      assert cs.ValidAt(i);
    }
  }

  /** Passing `n` new characters. */
  lemma AdvanceOnNew(cs: ChangeSet, c: Cursor, n: nat)
    requires cs.Valid() && OnNew(cs, c) && c.ins != DONE && n <= Len2(c)
    requires n > 0 || c.ins == 0
    ensures var c' := Advance2(cs, c, n);
      && OnNew(cs, c') && NewPos(cs, c') == NewPos(cs, c) + n
      && OldPos(cs, c') == OldPos(cs, c) + Passed(c, n)
      && Todo(cs, c') <= Todo(cs, c)
      && (n == Len2(c) ==> Todo(cs, c') < Todo(cs, c))
  {
    if n == Len2(c) {
      FetchOnNew(cs, c.i);
    }
  }

  lemma OldPosInRange(cs: ChangeSet, c: Cursor)
    requires OnNew(cs, c)
    ensures OldPos(cs, c) + Cost(c) <= cs.Length()
    ensures c.ins == DONE ==> OldPos(cs, c) == cs.Length() && NewPos(cs, c) == cs.NewLength()
  {
    cs.LenUptoMonotone(c.i, |cs.sections|);
  }

  lemma {:induction false} NewUptoMonotone(cs: ChangeSet, j: nat, k: nat)
    requires cs.Valid() && j <= k <= |cs.sections|
    ensures cs.NewUpto(j) <= cs.NewUpto(k)
    decreases k
  {
    if j < k {
      assert cs.ValidAt(k - 1);
      NewUptoMonotone(cs, j, k - 1);
    }
  }

  // ----- boundaries -----

  /** The place in front of section `k`, or `x` characters into an unchanged one. */
  ghost predicate PointAt(cs: ChangeSet, k: nat, x: nat, p: int, q: int)
  {
    && k <= |cs.sections| && p == cs.LenUpto(k) + x && q == cs.NewUpto(k) + x
    && (x == 0 || (k < |cs.sections| && cs.sections[k].ins < 0 && x <= cs.sections[k].len))
  }

  /** Place `p` of the old document is place `q` of the new one. */
  ghost predicate Point(cs: ChangeSet, p: int, q: int)
  {
    exists k: nat, x: nat :: PointAt(cs, k, x, p, q)
  }

  /** `m` is a place that neither `a` nor `b` changes across. */
  ghost predicate Common(a: ChangeSet, b: ChangeSet, p: int, m: int, q: int)
  {
    Point(a, p, m) && Point(b, m, q)
  }

  ghost predicate Aligned(a: ChangeSet, b: ChangeSet, p: int, q: int)
  {
    exists m: int :: Common(a, b, p, m, q)
  }

  predicate Replaces(s: Section) { s.len > 0 && s.ins > 0 }

  /** A replacement and a change behind it meet where `a` and `b` both have a boundary. */
  ghost predicate SplitAt(a: ChangeSet, b: ChangeSet, c: ChangeSet, k: nat)
    requires 0 < k < |c.sections|
  {
    Replaces(c.sections[k - 1]) && c.sections[k].ins >= 0 ==> Aligned(a, b, c.LenUpto(k), c.NewUpto(k))
  }

  /** `p` and `q` stand for a place of section `k`, its ends included. */
  predicate Within(c: ChangeSet, k: nat, p: int, q: int)
    requires k < |c.sections|
  {
    c.LenUpto(k) <= p <= c.LenUpto(k + 1) && c.NewUpto(k) <= q <= c.NewUpto(k + 1)
  }

  predicate StartsAt(c: ChangeSet, k: nat, p: int, q: int)
    requires k <= |c.sections|
  {
    p == c.LenUpto(k) && q == c.NewUpto(k)
  }

  /** No such boundary lies inside section `k`. */
  ghost predicate Unbroken(a: ChangeSet, b: ChangeSet, c: ChangeSet, k: nat)
    requires k < |c.sections|
  {
    forall p: int, m: int, q: int :: Common(a, b, p, m, q) && Within(c, k, p, q) ==>
      StartsAt(c, k, p, q) || StartsAt(c, k + 1, p, q)
  }

  ghost predicate WholeAt(a: ChangeSet, b: ChangeSet, c: ChangeSet, k: nat)
    requires k < |c.sections|
  {
    Replaces(c.sections[k]) ==> Unbroken(a, b, c, k)
  }

  /** The sections of `c` are cut where `a` and `b` both are, as far as replacements
      go: two of them, or one and another change behind it, are apart only there,
      and none reaches across. */
  ghost predicate CutWhereBoth(a: ChangeSet, b: ChangeSet, c: ChangeSet)
  {
    && (forall k :: 0 < k < |c.sections| ==> SplitAt(a, b, c, k))
    && (forall k :: 0 <= k < |c.sections| ==> WholeAt(a, b, c, k))
  }

  // ----- how the sections come about -----

  /** No boundary up to `m` inside the last section, nor at its end. */
  ghost predicate UnbrokenUpto(a: ChangeSet, b: ChangeSet, c: ChangeSet, m: int)
    requires c.sections != []
  {
    var k := |c.sections| - 1;
    forall p: int, t: int, q: int :: Common(a, b, p, t, q) && t <= m && Within(c, k, p, q) ==> StartsAt(c, k, p, q)
  }

  /** The sections made when the two sides have come to place `m` of the middle
      document; `mid` says that one of them is in the middle of a change. */
  ghost predicate Made(a: ChangeSet, b: ChangeSet, c: ChangeSet, m: int, mid: bool, open: bool)
  {
    var n := |c.sections|;
    && CutWhereBoth(a, b, c)
    && (!mid ==> Common(a, b, c.Length(), m, c.NewLength()))
    && (mid && !open && n > 0 && Replaces(c.sections[n - 1]) ==> Aligned(a, b, c.Length(), c.NewLength()))
    && (open ==> mid && n > 0 && c.sections[n - 1].ins >= 0 && UnbrokenUpto(a, b, c, m))
  }

  datatype Spot = Spot(p: int, m: int, q: int)

  /** What lies behind `s`, between `s` and `t`, and ahead of `t`. */
  predicate CrossedAt(s: Spot, t: Spot, mid: bool, mid': bool, kept: bool, u: Spot)
  {
    && (u.m < s.m || (u.m == s.m && s.m < t.m) ==> u.p <= s.p && u.q <= s.q)
    && (u.m > t.m || (u.m == t.m && s.m < t.m) ==> u.p >= t.p && u.q >= t.q)
    && (s.m < u.m < t.m ==> kept)
    && (u.m == s.m ==> !mid) && (u.m == t.m ==> !mid')
  }

  ghost predicate Crossed(a: ChangeSet, b: ChangeSet, s: Spot, t: Spot, mid: bool, mid': bool, kept: bool)
  {
    && s.m <= t.m
    && forall p: int, m: int, q: int :: Common(a, b, p, m, q) ==> CrossedAt(s, t, mid, mid', kept, Spot(p, m, q))
  }

  function EndOf(c: ChangeSet, m: int): Spot { Spot(c.Length(), m, c.NewLength()) }

  lemma {:induction false} UptoAgrees(s: ChangeSet, t: ChangeSet, k: nat)
    requires k <= |s.sections| && k <= |t.sections| && forall j :: 0 <= j < k ==> s.sections[j] == t.sections[j]
    ensures forall j :: 0 <= j <= k ==> s.LenUpto(j) == t.LenUpto(j) && s.NewUpto(j) == t.NewUpto(j)
  {
    if k > 0 {
      UptoAgrees(s, t, k - 1);
    }
  }

  /** The sections before `n` are cut as they were. */
  lemma CutBefore(a: ChangeSet, b: ChangeSet, c: ChangeSet, c': ChangeSet, n: nat)
    requires CutWhereBoth(a, b, c) && n <= |c.sections| && n <= |c'.sections|
    requires forall j :: 0 <= j < n ==> c.sections[j] == c'.sections[j]
    ensures forall k :: 0 < k < n ==> SplitAt(a, b, c', k)
    ensures forall k :: 0 <= k < n ==> WholeAt(a, b, c', k)
  {
    hide Aligned, Common;
    UptoAgrees(c, c', n);
    forall k | 0 < k < n ensures SplitAt(a, b, c', k) {
      assert SplitAt(a, b, c, k);
    }
    forall k | 0 <= k < n ensures WholeAt(a, b, c', k) {
      assert WholeAt(a, b, c, k);
    }
  }

  /** Nothing is recorded. */
  lemma MadeSame(a: ChangeSet, b: ChangeSet, c: ChangeSet, c': ChangeSet, m: int, m': int, mid: bool, mid': bool,
                 open: bool, open': bool)
    requires Made(a, b, c, m, mid, open) && c'.sections == c.sections
    requires Crossed(a, b, EndOf(c, m), EndOf(c', m'), mid, mid', false)
    requires !mid' ==> Common(a, b, c'.Length(), m', c'.NewLength())
    requires open' == if m < m' then mid' && open else open
    requires m == m' ==> mid' == mid
    ensures Made(a, b, c', m', mid', open')
  {
    hide Common;
    UptoAgrees(c, c', |c.sections|);
    CutBefore(a, b, c, c', |c.sections|);
    if !mid {
      assert Aligned(a, b, c.Length(), c.NewLength());
    }
    if open' {
      var k := |c.sections| - 1;
      forall p: int, t: int, q: int | Common(a, b, p, t, q) && t <= m' && Within(c', k, p, q)
        ensures StartsAt(c', k, p, q)
      {
        assert CrossedAt(EndOf(c, m), EndOf(c', m'), mid, mid', false, Spot(p, t, q));
        assert t <= m;
      }
    }
  }

  /** The last section grows. */
  lemma MadeLonger(a: ChangeSet, b: ChangeSet, c: ChangeSet, c': ChangeSet, m: int, m': int, mid: bool, mid': bool,
                   open: bool, open': bool)
    requires Made(a, b, c, m, mid, open) && |c'.sections| == |c.sections| > 0
    requires var n := |c.sections| - 1;
      && (forall j :: 0 <= j < n ==> c.sections[j] == c'.sections[j])
      && (c.sections[n].ins >= 0 <==> c'.sections[n].ins >= 0)
      && (open || !Replaces(c'.sections[n]))
    requires open ==> Crossed(a, b, EndOf(c, m), EndOf(c', m'), mid, mid', false)
    requires c.Length() <= c'.Length() && c.NewLength() <= c'.NewLength()
    requires !mid' ==> Common(a, b, c'.Length(), m', c'.NewLength())
    requires open' == if m < m' then mid' && open else open
    requires m == m' ==> mid' == mid
    ensures Made(a, b, c', m', mid', open')
  {
    hide Common, Unbroken, UnbrokenUpto, Aligned;
    var n := |c.sections| - 1;
    UptoAgrees(c, c', n);
    CutBefore(a, b, c, c', n);
    if n > 0 {
      assert SplitAt(a, b, c, n);
    }
    if open {
      GrownUnbroken(a, b, c, c', m, m', mid', open');
    }
  }

  lemma GrownUnbroken(a: ChangeSet, b: ChangeSet, c: ChangeSet, c': ChangeSet, m: int, m': int, mid': bool, open': bool)
    requires |c'.sections| == |c.sections| > 0 && UnbrokenUpto(a, b, c, m) && (open' ==> mid')
    requires var n := |c.sections| - 1; c.LenUpto(n) == c'.LenUpto(n) && c.NewUpto(n) == c'.NewUpto(n)
    requires Crossed(a, b, EndOf(c, m), EndOf(c', m'), true, mid', false)
    requires c.Length() <= c'.Length() && c.NewLength() <= c'.NewLength()
    requires !mid' ==> m < m'
    ensures Unbroken(a, b, c', |c.sections| - 1) && (open' ==> UnbrokenUpto(a, b, c', m'))
  {
    hide Common;
    var n := |c.sections| - 1;
    forall p: int, t: int, q: int | Common(a, b, p, t, q) && Within(c', n, p, q)
      ensures StartsAt(c', n, p, q) || (StartsAt(c', n + 1, p, q) && (open' ==> t > m'))
    {
      assert CrossedAt(EndOf(c, m), EndOf(c', m'), true, mid', false, Spot(p, t, q));
      if t < m {
        assert Within(c, n, p, q);
      }
    }
  }

  /** A section is appended. */
  lemma MadeMore(a: ChangeSet, b: ChangeSet, c: ChangeSet, c': ChangeSet, sec: Section, m: int, m': int,
                 mid: bool, mid': bool, open': bool)
    requires Made(a, b, c, m, mid, false) && c'.sections == c.sections + [sec]
    requires Crossed(a, b, EndOf(c, m), EndOf(c', m'), mid, mid', sec.ins < 0)
    requires c.Length() <= c'.Length() && c.NewLength() <= c'.NewLength()
    requires !mid' ==> Common(a, b, c'.Length(), m', c'.NewLength())
    requires open' == (m < m' && mid') && (m == m' ==> !Replaces(sec)) && (sec.ins < 0 ==> !mid')
    ensures Made(a, b, c', m', mid', open')
  {
    hide Common, Unbroken, UnbrokenUpto;
    var n := |c.sections|;
    UptoAgrees(c, c', n);
    CutBefore(a, b, c, c', n);
    if !mid {
      assert Aligned(a, b, c.Length(), c.NewLength());
    }
    if m < m' && sec.ins >= 0 {
      NewUnbroken(a, b, c, c', m, m', mid, mid');
    }
  }

  lemma NewUnbroken(a: ChangeSet, b: ChangeSet, c: ChangeSet, c': ChangeSet, m: int, m': int, mid: bool, mid': bool)
    requires |c'.sections| == |c.sections| + 1 && m < m'
    requires var n := |c.sections|; c.LenUpto(n) == c'.LenUpto(n) && c.NewUpto(n) == c'.NewUpto(n)
    requires Crossed(a, b, EndOf(c, m), EndOf(c', m'), mid, mid', false)
    requires c.Length() <= c'.Length() && c.NewLength() <= c'.NewLength()
    ensures Unbroken(a, b, c', |c.sections|) && (mid' ==> UnbrokenUpto(a, b, c', m'))
  {
    hide Common;
    var n := |c.sections|;
    forall p: int, t: int, q: int | Common(a, b, p, t, q) && Within(c', n, p, q)
      ensures StartsAt(c', n, p, q) || (StartsAt(c', n + 1, p, q) && (mid' ==> t > m'))
    {
      assert CrossedAt(EndOf(c, m), EndOf(c', m'), mid, mid', false, Spot(p, t, q));
    }
  }

  /** What adding a section does to those that are there. */
  lemma AddSectionCases(ss: seq<Section>, len: nat, ins: int, join: bool)
    requires Tight(ss) && ins >= -1 && (join ==> ss != [] && ss[|ss| - 1].ins >= 0 && ins >= 0)
    ensures var t, last := AddSection(ss, len, ins, join), |ss| - 1;
      if |t| > |ss| then t == ss + [Section(len, ins)] && !join
      else if t == ss then true
      else && last >= 0 && |t| == |ss| && (forall j :: 0 <= j < last ==> t[j] == ss[j])
           && (t[last].ins >= 0 <==> ss[last].ins >= 0) && (join || !Replaces(t[last]))
           && t[last].len >= ss[last].len && (ins == -1 ==> ss[last].ins == -1)
  {
    assert ss != [] ==> Counts(ss[|ss| - 1]);
  }

  lemma NotOpen(a: ChangeSet, b: ChangeSet, c: ChangeSet, m: int, mid: bool, open: bool)
    requires Made(a, b, c, m, mid, open)
    ensures open ==> c.sections != [] && c.sections[|c.sections| - 1].ins >= 0 && mid
  {
    hide CutWhereBoth, Common, Aligned, UnbrokenUpto;
  }

  /** Where nothing is recorded, nothing was kept. */
  lemma SameCrossed(a: ChangeSet, b: ChangeSet, c: ChangeSet, c': ChangeSet, m: int, m': int, mid: bool, mid': bool,
                    len: nat, ins: int, open: bool)
    requires Crossed(a, b, EndOf(c, m), EndOf(c', m'), mid, mid', ins < 0) && (open ==> c.sections != [])
    requires c'.sections == c.sections == AddSection(c.sections, len, ins, open)
    requires ins >= -1 && (m < m' && ins == -1 ==> len > 0)
    ensures Crossed(a, b, EndOf(c, m), EndOf(c', m'), mid, mid', false)
  {
  }

  /** A section is recorded. */
  lemma MadeStep(a: ChangeSet, b: ChangeSet, c: ChangeSet, c': ChangeSet, len: nat, ins: int, m: int, m': int,
                 mid: bool, mid': bool, open: bool, open': bool)
    requires Made(a, b, c, m, mid, open) && Tight(c.sections)
    requires ins >= -1 && (ins == -1 ==> !open && !mid')
    requires c'.sections == AddSection(c.sections, len, ins, open)
    requires Crossed(a, b, EndOf(c, m), EndOf(c', m'), mid, mid', ins < 0)
    requires c.Length() <= c'.Length() && c.NewLength() <= c'.NewLength()
    requires !mid' ==> Common(a, b, c'.Length(), m', c'.NewLength())
    requires open' == if m < m' then mid' && (open || |c'.sections| > |c.sections|) else open
    requires m <= m' && (m == m' ==> mid' == mid && (len == 0 || ins == 0))
    requires m < m' && ins == -1 ==> len > 0
    ensures Made(a, b, c', m', mid', open')
  {
    hide Made, Crossed, AddSection, Common;
    NotOpen(a, b, c, m, mid, open);
    AddSectionCases(c.sections, len, ins, open);
    if |c'.sections| > |c.sections| {
      MadeMore(a, b, c, c', Section(len, ins), m, m', mid, mid', open');
    } else if c'.sections == c.sections {
      SameCrossed(a, b, c, c', m, m', mid, mid', len, ins, open);
      MadeSame(a, b, c, c', m, m', mid, mid', open, open');
    } else {
      MadeLonger(a, b, c, c', m, m', mid, mid', open, open');
    }
  }

  // ----- what a cursor passes -----

  /** The place in the new document of a cursor that walks along the old one: the
      text of a change is made with its first piece. */
  ghost function MadePos(cs: ChangeSet, c: Cursor): int
    requires c.i <= |cs.sections|
  {
    cs.NewUpto(c.i) - if c.ins == DONE then 0 else if c.ins < 0 then c.len else if c.off == 0 then c.ins else 0
  }

  /** In the middle of a text. */
  predicate InText(c: Cursor) { c.ins > 0 && c.off > 0 }

  /** In the middle of a deletion. */
  predicate InGap(c: Cursor) { c.ins >= 0 && c.off > 0 }

  lemma HereOnNew(cs: ChangeSet, c: Cursor)
    requires cs.Valid() && OnNew(cs, c) && !InText(c)
    ensures Point(cs, OldPos(cs, c), NewPos(cs, c))
  {
    if c.ins == DONE {
      assert PointAt(cs, c.i, 0, OldPos(cs, c), NewPos(cs, c));
    } else {
      assert PointAt(cs, c.i - 1, if c.ins == -1 then c.off else 0, OldPos(cs, c), NewPos(cs, c));
    }
  }

  lemma HereOnOld(cs: ChangeSet, c: Cursor)
    requires cs.Valid() && OnOld(cs, c) && !InGap(c)
    ensures Point(cs, Pos(cs, c), MadePos(cs, c))
  {
    if c.ins == DONE {
      assert PointAt(cs, c.i, 0, Pos(cs, c), MadePos(cs, c));
    } else {
      assert cs.ValidAt(c.i - 1);
      assert PointAt(cs, c.i - 1, if c.ins == -1 then c.off else 0, Pos(cs, c), MadePos(cs, c));
    }
  }

  /** Where a boundary lies, as seen from section `i - 1`. */
  predicate SideOf(cs: ChangeSet, i: nat, p: int, q: int)
    requires 0 < i <= |cs.sections|
  {
    var s, l, n := cs.sections[i - 1], cs.LenUpto(i - 1), cs.NewUpto(i - 1);
    || (p <= l && q <= n) || (p >= cs.LenUpto(i) && q >= cs.NewUpto(i))
    || (s.ins < 0 && l <= p <= l + s.len && q - n == p - l)
  }

  lemma PointSide(cs: ChangeSet, i: nat, p: int, q: int)
    requires cs.Valid() && Point(cs, p, q) && i <= |cs.sections|
    ensures i > 0 ==> SideOf(cs, i, p, q)
    ensures p <= cs.Length() && q <= cs.NewLength()
  {
    var k: nat, x: nat :| PointAt(cs, k, x, p, q);
    var e := if x == 0 then k else k + 1;
    if i > 0 {
      if e <= i - 1 {
        cs.LenUptoMonotone(e, i - 1);
        NewUptoMonotone(cs, e, i - 1);
      } else if k >= i {
        cs.LenUptoMonotone(i, k);
        NewUptoMonotone(cs, i, k);
      }
    }
    cs.LenUptoMonotone(e, |cs.sections|);
    NewUptoMonotone(cs, e, |cs.sections|);
  }

  /** A boundary of `a` and the place where a cursor stands in the new document. */
  lemma AroundNew(cs: ChangeSet, c: Cursor, p: int, m: int)
    requires cs.Valid() && OnNew(cs, c) && Point(cs, p, m)
    ensures (m < NewPos(cs, c) ==> p <= OldPos(cs, c)) && (m > NewPos(cs, c) ==> p >= OldPos(cs, c))
    ensures m == NewPos(cs, c) ==> !InText(c)
    ensures c.ins == 0 && m > NewPos(cs, c) ==> p >= OldPos(cs, c) + c.len
  {
    hide Point;
    PointSide(cs, c.i, p, m);
  }

  lemma AroundOld(cs: ChangeSet, c: Cursor, m: int, q: int)
    requires cs.Valid() && OnOld(cs, c) && Point(cs, m, q)
    ensures (m < Pos(cs, c) ==> q <= MadePos(cs, c)) && (m > Pos(cs, c) ==> q >= MadePos(cs, c))
    ensures m == Pos(cs, c) ==> !InGap(c)
    ensures c.ins >= 0 && c.len == 0 && m > Pos(cs, c) ==> q >= MadePos(cs, c) + c.ins
  {
    hide Point;
    PointSide(cs, c.i, m, q);
    if c.ins != DONE {
      assert cs.ValidAt(c.i - 1);
    }
  }

  /** The same when the cursor then passes `n` characters. */
  lemma CrossNew(cs: ChangeSet, c: Cursor, n: nat, p: int, m: int)
    requires cs.Valid() && OnNew(cs, c) && Point(cs, p, m) && c.ins != DONE && 0 < n <= Len2(c)
    ensures m <= NewPos(cs, c) ==> p <= OldPos(cs, c)
    ensures m >= NewPos(cs, c) + n ==> p >= OldPos(cs, c) + Passed(c, n)
    ensures NewPos(cs, c) < m < NewPos(cs, c) + n ==> c.ins == -1
  {
    hide Point;
    PointSide(cs, c.i, p, m);
  }

  /** New characters made with the next `n` old ones. */
  ghost function MadeWith(c: Cursor, n: nat): int
  {
    if c.ins < 0 then n else if c.off == 0 then c.ins else 0
  }

  lemma CrossOld(cs: ChangeSet, c: Cursor, n: nat, m: int, q: int)
    requires cs.Valid() && OnOld(cs, c) && Point(cs, m, q) && c.ins != DONE && 0 < n <= c.len
    ensures m <= Pos(cs, c) ==> q <= MadePos(cs, c)
    ensures m >= Pos(cs, c) + n ==> q >= MadePos(cs, c) + MadeWith(c, n)
    ensures Pos(cs, c) < m < Pos(cs, c) + n ==> c.ins == -1
  {
    hide Point;
    PointSide(cs, c.i, m, q);
    assert cs.ValidAt(c.i - 1);
  }

  lemma FetchMade(cs: ChangeSet, i: nat)
    requires cs.Valid() && i <= |cs.sections|
    ensures MadePos(cs, Fetch(cs, i)) == cs.NewUpto(i)
  {
    if i < |cs.sections| {
      assert cs.ValidAt(i);
    }
  }

  lemma AdvanceMade(cs: ChangeSet, c: Cursor, n: nat)
    requires cs.Valid() && OnOld(cs, c) && c.ins != DONE && n <= c.len && (n > 0 || c.len == 0)
    ensures Advance(cs, c, n).i <= |cs.sections|
    ensures MadePos(cs, Advance(cs, c, n)) == MadePos(cs, c) + MadeWith(c, n)
  {
    assert cs.ValidAt(c.i - 1);
    if n == c.len {
      FetchMade(cs, c.i);
    }
  }
}
