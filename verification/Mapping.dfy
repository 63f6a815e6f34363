/** Rebasing one change set over another made on the same document. */
module Mapping {
  import opened Basics
  import opened Tokens
  import opened ChangeSets
  import opened SectionIters

  datatype Outcome = Mapped(changes: ChangeSet) | Mismatch | Hangs

  // ----- the steps, for one document -----

  /** With `made` of the merged document there, and `pending` due next, the
      tokens ahead on both sides make the rest of it; `rest` is what the other
      side makes of `d`, the document from here on. */
  ghost predicate Ahead(total: Text, made: Text, pending: Text, rest: Text,
                        xs: seq<Tok>, ys: seq<Tok>, d: Text, before: bool)
  {
    && rest == Run(ys, d)
    && made + pending + Merge(xs, ys, d, before) == total
  }

  lemma AheadKeep(total: Text, made: Text, rest: Text, xs: seq<Tok>, ys: seq<Tok>, n: nat, d: Text, before: bool)
    requires n <= |d| && Ahead(total, made, [], rest, Rep(Keep, n) + xs, Rep(Keep, n) + ys, d, before)
    ensures n <= |rest| && rest[..n] == d[..n]
    ensures Ahead(total, made + d[..n], [], rest[n..], xs, ys, d[n..], before)
  {
    RunRepThen(Keep, n, ys, d);
    MergeRep(Keep, Keep, n, xs, ys, d, before);
    var m := Merge(xs, ys, d[n..], before);
    assert made + [] + (d[..n] + m) == made + d[..n] + [] + m;
  }

  lemma AheadOther(total: Text, made: Text, rest: Text, xs: seq<Tok>, text: Text, span: nat, ys: seq<Tok>,
                   d: Text, before: bool)
    requires Ahead(total, made, [], rest, xs, [Put(text, span)] + ys, d, before)
    requires !TakesFirst(xs, [Put(text, span)] + ys, before)
    ensures |text| <= |rest| && rest[..|text|] == text
    ensures Ahead(total, made + text, [], rest[|text|..], xs, ys, d, before)
  {
    RunPut(text, span, ys, d);
    MergePutRight(xs, text, span, ys, d, before);
    var m := Merge(xs, ys, d, before);
    assert made + [] + (text + m) == made + text + [] + m;
  }

  lemma AheadOtherNothing(total: Text, made: Text, pending: Text, rest: Text, xs: seq<Tok>, span: nat, ys: seq<Tok>,
                          d: Text, before: bool)
    requires Ahead(total, made, pending, rest, xs, [Put([], span)] + ys, d, before)
    requires xs != [] && !xs[0].Put?
    ensures Ahead(total, made, pending, rest, xs, ys, d, before)
  {
    RunPut([], span, ys, d);
    MergePutRight(xs, [], span, ys, d, before);
  }

  lemma AheadGone(total: Text, made: Text, pending: Text, rest: Text, t: Tok, xs: seq<Tok>, ys: seq<Tok>,
                  n: nat, d: Text, before: bool)
    requires n <= |d| && !t.Put?
    requires Ahead(total, made, pending, rest, Rep(t, n) + xs, Rep(Drop, n) + ys, d, before)
    ensures Ahead(total, made, pending, rest, xs, ys, d[n..], before)
  {
    RunRepThen(Drop, n, ys, d);
    MergeRep(t, Drop, n, xs, ys, d, before);
  }

  lemma AheadDelete(total: Text, made: Text, pending: Text, rest: Text, xs: seq<Tok>, ys: seq<Tok>,
                    n: nat, d: Text, before: bool)
    requires n <= |d|
    requires Ahead(total, made, pending, rest, Rep(Drop, n) + xs, Rep(Keep, n) + ys, d, before)
    ensures n <= |rest| && Ahead(total, made, pending, rest[n..], xs, ys, d[n..], before)
  {
    RunRepThen(Keep, n, ys, d);
    MergeRep(Drop, Keep, n, xs, ys, d, before);
  }

  /** How far mapping `a` over `b` has come, for one document.  `out` turns the
      part of `b`'s result passed so far into the merged document so far, once
      `skip` more characters are removed and the text `pending` is added; `xs`
      and `ys` are what is ahead in `a` and `b` from position `p` on. */
  ghost predicate Progress(a: ChangeSet, b: ChangeSet, before: bool,
                           out: ChangeSet, skip: nat, pending: Text,
                           xs: seq<Tok>, ys: seq<Tok>, p: int, doc: Text)
  {
    var mid, q := b.Apply(doc), out.Length();
    && 0 <= p <= |doc| && q + skip <= |mid|
    && Ahead(Merge(a.Tokens(), b.Tokens(), doc, before), out.Apply(mid[..q]), pending,
             mid[q + skip..], xs, ys, doc[p..], before)
  }

  ghost predicate Going(a: ChangeSet, b: ChangeSet, before: bool,
                        out: ChangeSet, skip: nat, pending: Text,
                        xs: seq<Tok>, ys: seq<Tok>, p: int)
  {
    && out.Valid()
    && forall doc: Text | |doc| == a.Length() && |doc| == b.Length() ::
         Progress(a, b, before, out, skip, pending, xs, ys, p, doc)
  }

  // ----- the steps, for all documents -----

  lemma ExtendsKeep(out: ChangeSet, out': ChangeSet, n: nat, mid: Text)
    requires Extends(out, out', true, n, []) && out.Length() + n <= |mid|
    ensures var q := out.Length();
      && out'.Length() == q + n && out'.Apply(mid[..q + n]) == out.Apply(mid[..q]) + mid[q..][..n]
      && mid[q + n..] == mid[q..][n..]
  {
    hide Run;
    var q := out.Length();
    assert mid[..q + n] == mid[..q] + mid[q..][..n];
    assert ExtendsAt(out, out', true, [], mid[..q], mid[q..][..n]);
  }

  lemma ProgressKeep(a: ChangeSet, b: ChangeSet, before: bool, out: ChangeSet, out': ChangeSet,
                     xs: seq<Tok>, ys: seq<Tok>, n: nat, p: int, doc: Text)
    requires Progress(a, b, before, out, 0, [], Rep(Keep, n) + xs, Rep(Keep, n) + ys, p, doc)
    requires Extends(out, out', true, n, []) && p + n <= |doc|
    ensures Progress(a, b, before, out', 0, [], xs, ys, p + n, doc)
  {
    hide Run, Merge, Extends, Ahead;
    var mid, q := b.Apply(doc), out.Length();
    var total := Merge(a.Tokens(), b.Tokens(), doc, before);
    assert mid[q + 0..] == mid[q..];
    AheadKeep(total, out.Apply(mid[..q]), mid[q..], xs, ys, n, doc[p..], before);
    ExtendsKeep(out, out', n, mid);
    assert doc[p..][n..] == doc[p + n..];
  }

  lemma ProgressOther(a: ChangeSet, b: ChangeSet, before: bool, out: ChangeSet, out': ChangeSet,
                      xs: seq<Tok>, text: Text, span: nat, ys: seq<Tok>, p: int, doc: Text)
    requires Progress(a, b, before, out, 0, [], xs, [Put(text, span)] + ys, p, doc)
    requires !TakesFirst(xs, [Put(text, span)] + ys, before)
    requires Extends(out, out', true, |text|, [])
    ensures Progress(a, b, before, out', 0, [], xs, ys, p, doc)
  {
    hide Run, Merge, Extends, Ahead;
    var mid, q := b.Apply(doc), out.Length();
    var total := Merge(a.Tokens(), b.Tokens(), doc, before);
    assert mid[q + 0..] == mid[q..];
    AheadOther(total, out.Apply(mid[..q]), mid[q..], xs, text, span, ys, doc[p..], before);
    ExtendsKeep(out, out', |text|, mid);
  }

  /** Both sides keep `n` characters. */
  lemma StepKeep(a: ChangeSet, b: ChangeSet, before: bool, out: ChangeSet, out': ChangeSet,
                 xs: seq<Tok>, ys: seq<Tok>, n: nat, p: int)
    requires Going(a, b, before, out, 0, [], Rep(Keep, n) + xs, Rep(Keep, n) + ys, p)
    requires Extends(out, out', true, n, []) && p + n <= a.Length()
    ensures Going(a, b, before, out', 0, [], xs, ys, p + n)
  {
    forall doc: Text | |doc| == a.Length() && |doc| == b.Length()
      ensures Progress(a, b, before, out', 0, [], xs, ys, p + n, doc)
    {
      ProgressKeep(a, b, before, out, out', xs, ys, n, p, doc);
    }
  }

  /** The other side puts its text in; it is kept. */
  lemma StepOther(a: ChangeSet, b: ChangeSet, before: bool, out: ChangeSet, out': ChangeSet,
                  xs: seq<Tok>, text: Text, span: nat, ys: seq<Tok>, p: int)
    requires Going(a, b, before, out, 0, [], xs, [Put(text, span)] + ys, p)
    requires !TakesFirst(xs, [Put(text, span)] + ys, before)
    requires Extends(out, out', true, |text|, [])
    ensures Going(a, b, before, out', 0, [], xs, ys, p)
  {
    forall doc: Text | |doc| == a.Length() && |doc| == b.Length()
      ensures Progress(a, b, before, out', 0, [], xs, ys, p, doc)
    {
      ProgressOther(a, b, before, out, out', xs, text, span, ys, p, doc);
    }
  }

  /** The other side only deletes here. */
  lemma StepOtherNothing(a: ChangeSet, b: ChangeSet, before: bool, out: ChangeSet, skip: nat, pending: Text,
                         xs: seq<Tok>, span: nat, ys: seq<Tok>, p: int)
    requires Going(a, b, before, out, skip, pending, xs, [Put([], span)] + ys, p)
    requires xs != [] && !xs[0].Put?
    ensures Going(a, b, before, out, skip, pending, xs, ys, p)
  {
    forall doc: Text | |doc| == a.Length() && |doc| == b.Length()
      ensures Progress(a, b, before, out, skip, pending, xs, ys, p, doc)
    {
      hide Ahead;
      var mid, q := b.Apply(doc), out.Length();
      assert Progress(a, b, before, out, skip, pending, xs, [Put([], span)] + ys, p, doc);
      AheadOtherNothing(Merge(a.Tokens(), b.Tokens(), doc, before), out.Apply(mid[..q]), pending, mid[q + skip..],
                        xs, span, ys, doc[p..], before);
    }
  }

  /** The mapped side's text is next; it becomes pending. */
  lemma StepOwn(a: ChangeSet, b: ChangeSet, before: bool, out: ChangeSet,
                text: Text, span: nat, xs: seq<Tok>, ys: seq<Tok>, p: int)
    requires Going(a, b, before, out, 0, [], [Put(text, span)] + xs, ys, p)
    requires TakesFirst([Put(text, span)] + xs, ys, before)
    ensures Going(a, b, before, out, 0, text, xs, ys, p)
  {
    forall doc: Text | |doc| == a.Length() && |doc| == b.Length()
      ensures Progress(a, b, before, out, 0, text, xs, ys, p, doc)
    {
      hide Run;
      var mid, q := b.Apply(doc), out.Length();
      assert Progress(a, b, before, out, 0, [], [Put(text, span)] + xs, ys, p, doc);
      MergePutLeft(text, span, xs, ys, doc[p..], before);
      assert out.Apply(mid[..q]) + [] == out.Apply(mid[..q]);
      Assoc(out.Apply(mid[..q]), text, Merge(xs, ys, doc[p..], before));
    }
  }

  /** Skipped characters and pending text go into the result. */
  lemma StepEmit(a: ChangeSet, b: ChangeSet, before: bool, out: ChangeSet, out': ChangeSet, skip: nat, pending: Text,
                 xs: seq<Tok>, ys: seq<Tok>, p: int)
    requires Going(a, b, before, out, skip, pending, xs, ys, p)
    requires Extends(out, out', false, skip, pending)
    ensures Going(a, b, before, out', 0, [], xs, ys, p)
  {
    forall doc: Text | |doc| == a.Length() && |doc| == b.Length()
      ensures Progress(a, b, before, out', 0, [], xs, ys, p, doc)
    {
      ProgressEmit(a, b, before, out, out', skip, pending, xs, ys, p, doc);
    }
  }

  lemma ProgressEmit(a: ChangeSet, b: ChangeSet, before: bool, out: ChangeSet, out': ChangeSet, skip: nat,
                     pending: Text, xs: seq<Tok>, ys: seq<Tok>, p: int, doc: Text)
    requires Progress(a, b, before, out, skip, pending, xs, ys, p, doc)
    requires Extends(out, out', false, skip, pending)
    ensures Progress(a, b, before, out', 0, [], xs, ys, p, doc)
  {
    hide Run, Merge;
    var mid, q := b.Apply(doc), out.Length();
    assert mid[..q + skip] == mid[..q] + mid[q..q + skip];
    assert ExtendsAt(out, out', false, pending, mid[..q], mid[q..q + skip]);
    assert out'.Apply(mid[..q + skip]) + [] == out.Apply(mid[..q]) + pending;
    assert mid[q + skip + 0..] == mid[q + skip..];
  }

  /** The other side has deleted the next `n` characters. */
  lemma StepGone(a: ChangeSet, b: ChangeSet, before: bool, out: ChangeSet, skip: nat, pending: Text,
                 t: Tok, xs: seq<Tok>, ys: seq<Tok>, n: nat, p: int)
    requires Going(a, b, before, out, skip, pending, Rep(t, n) + xs, Rep(Drop, n) + ys, p)
    requires !t.Put? && p + n <= a.Length()
    ensures Going(a, b, before, out, skip, pending, xs, ys, p + n)
  {
    forall doc: Text | |doc| == a.Length() && |doc| == b.Length()
      ensures Progress(a, b, before, out, skip, pending, xs, ys, p + n, doc)
    {
      hide Ahead;
      var mid, q := b.Apply(doc), out.Length();
      var total := Merge(a.Tokens(), b.Tokens(), doc, before);
      assert Progress(a, b, before, out, skip, pending, Rep(t, n) + xs, Rep(Drop, n) + ys, p, doc);
      AheadGone(total, out.Apply(mid[..q]), pending, mid[q + skip..], t, xs, ys, n, doc[p..], before);
      assert doc[p..][n..] == doc[p + n..];
    }
  }

  /** The mapped side deletes `n` characters that the other side keeps. */
  lemma StepDelete(a: ChangeSet, b: ChangeSet, before: bool, out: ChangeSet, skip: nat, pending: Text,
                   xs: seq<Tok>, ys: seq<Tok>, n: nat, p: int)
    requires Going(a, b, before, out, skip, pending, Rep(Drop, n) + xs, Rep(Keep, n) + ys, p)
    requires p + n <= a.Length()
    ensures Going(a, b, before, out, skip + n, pending, xs, ys, p + n)
  {
    forall doc: Text | |doc| == a.Length() && |doc| == b.Length()
      ensures Progress(a, b, before, out, skip + n, pending, xs, ys, p + n, doc)
    {
      hide Ahead;
      var mid, q := b.Apply(doc), out.Length();
      var total := Merge(a.Tokens(), b.Tokens(), doc, before);
      assert Progress(a, b, before, out, skip, pending, Rep(Drop, n) + xs, Rep(Keep, n) + ys, p, doc);
      AheadDelete(total, out.Apply(mid[..q]), pending, mid[q + skip..], xs, ys, n, doc[p..], before);
      assert doc[p..][n..] == doc[p + n..] && mid[q + skip..][n..] == mid[q + skip + n..];
    }
  }

  // ----- the same, at the iterators -----

  /** The current change of the mapped side starts here and is not placed yet. */
  ghost predicate Fresh(o: Cursor, placed: int)
  {
    placed < o.i && o.off == 0
  }

  /** A text passed over without being placed. */
  ghost function Pending(a: ChangeSet, o: Cursor, placed: int): Text
    requires o.ins >= 0 ==> o.i > 0
  {
    if o.ins >= 0 && placed < o.i && o.off > 0 then TextOf(a, o) else []
  }

  /** `o` is a legal place for the mapped side, `placed` being the section whose
      text was placed last. */
  ghost predicate Own(a: ChangeSet, o: Cursor, placed: int)
  {
    && a.Valid() && OnOld(a, o) && placed <= o.i
    && (placed == o.i && o.ins >= 0 ==> o.len > 0)
  }

  ghost predicate Due(a: ChangeSet, b: ChangeSet, before: bool, out: ChangeSet, placed: int, o: Cursor, ys: seq<Tok>)
    requires Own(a, o, placed)
  {
    Going(a, b, before, out, 0, Pending(a, o, placed), Rest(a, o, Fresh(o, placed)), ys, Pos(a, o))
  }

  /** The state at the head of the main loop. */
  ghost predicate Level(a: ChangeSet, b: ChangeSet, before: bool, out: ChangeSet, placed: int, o: Cursor, l: Cursor)
  {
    && Own(a, o, placed) && out.Valid()
    && b.Valid() && OnOld(b, l) && (l.ins >= 0 ==> l.off == 0)
    && Pos(a, o) == Pos(b, l)
    && Due(a, b, before, out, placed, o, Rest(b, l, true))
  }

  /** The state while the other side's deletion, `h` characters of which are
      left and end with its section `i - 1`, covers the mapped side. */
  ghost predicate Covered(a: ChangeSet, b: ChangeSet, before: bool, out: ChangeSet, placed: int, o: Cursor, i: nat,
                          h: nat)
  {
    && Own(a, o, placed) && out.Valid()
    && b.Valid() && i <= |b.sections|
    && Pos(a, o) + h == b.LenUpto(i)
    && Due(a, b, before, out, placed, o, Rep(Drop, h) + b.From(i))
  }

  /** The state while the mapped side's change, `left` characters of which are
      left, is carried along the other side. */
  ghost predicate Carried(a: ChangeSet, b: ChangeSet, before: bool, out: ChangeSet, text: Text, o: Cursor,
                          l: Cursor, gone: nat, left: nat)
  {
    && a.Valid() && OnOld(a, o) && o.ins >= 0 && left <= o.len && out.Valid()
    && b.Valid() && OnOld(b, l) && (l.ins >= 0 ==> l.off == 0)
    && Pos(a, o) + o.len - left == Pos(b, l)
    && Going(a, b, before, out, gone, text, Rep(Drop, left) + a.From(o.i), Rest(b, l, true), Pos(b, l))
  }

  /** The texts of the mapped side up to and with the one placed last. */
  ghost function TextSoFar(a: ChangeSet, placed: int, o: Cursor): Text
    requires o.i <= |a.sections|
  {
    if o.ins == DONE then a.AllText() else a.Texts(if placed == o.i || o.i == 0 then o.i else o.i - 1)
  }

  /** Just these texts have been put in. */
  ghost predicate PutIn(a: ChangeSet, out: ChangeSet, placed: int, o: Cursor)
  {
    OnOld(a, o) && placed <= o.i && out.AllText() == TextSoFar(a, placed, o)
  }

  /** A change is passed only when its text has been placed. */
  lemma PutInAdvance(a: ChangeSet, out: ChangeSet, placed: int, o: Cursor, n: nat)
    requires a.Valid() && PutIn(a, out, placed, o) && o.ins != DONE && n <= o.len
    requires n == o.len && o.ins >= 0 ==> placed == o.i
    ensures PutIn(a, out, placed, Advance(a, o, n))
  {
    AdvancePlace(a, o, n);
    assert a.ValidAt(o.i - 1) && (o.i < |a.sections| ==> a.ValidAt(o.i));
    if o.ins < 0 {
      assert a.Texts(o.i) == a.Texts(o.i - 1) + [] == a.Texts(o.i - 1);
    }
    assert n == o.len ==> out.AllText() == a.Texts(o.i);
  }

  lemma PutInPlaced(a: ChangeSet, out: ChangeSet, out': ChangeSet, placed: int, o: Cursor)
    requires a.Valid() && PutIn(a, out, placed, o) && o.ins >= 0
    requires out'.AllText() == out.AllText() + if placed < o.i then TextOf(a, o) else []
    ensures PutIn(a, out', o.i, o)
  {
    assert out.AllText() + [] == out.AllText();
  }

  lemma PutInKept(a: ChangeSet, out: ChangeSet, out': ChangeSet, placed: int, o: Cursor, n: nat)
    requires a.Valid() && PutIn(a, out, placed, o) && o.ins == -1 && n <= o.len && out'.AllText() == out.AllText()
    ensures PutIn(a, out', placed, Advance(a, o, n))
  {
    PutInAdvance(a, out', placed, o, n);
  }

  lemma PutInDone(a: ChangeSet, out: ChangeSet, placed: int, o: Cursor)
    requires PutIn(a, out, placed, o) && o.ins == DONE
    ensures out.AllText() == a.AllText()
  {
  }

  lemma NoTexts(cs: ChangeSet)
    ensures cs.Texts(0) == []
  {
  }

  lemma PutInStart(a: ChangeSet)
    requires a.Valid()
    ensures PutIn(a, ChangeSet([], []), -1, Fetch(a, 0))
  {
    NoTexts(a);
    NoTexts(ChangeSet([], []));
    if a.sections != [] {
      assert a.ValidAt(0);
    }
    hide ChangeSet.Valid, ChangeSet.Texts;
  }

  lemma NothingMade(doc: Text)
    ensures var none := ChangeSet([], []); none.Valid() && none.Length() == 0 && none.Apply(doc) == []
  {
  }

  lemma StartProgress(a: ChangeSet, b: ChangeSet, before: bool, doc: Text)
    ensures Progress(a, b, before, ChangeSet([], []), 0, [], a.Tokens(), b.Tokens(), 0, doc)
  {
    hide Merge, Run;
    var mid := b.Apply(doc);
    var m := Merge(a.Tokens(), b.Tokens(), doc, before);
    assert doc[0..] == doc && mid[0 + 0..] == mid && [] + [] + m == m;
    NothingMade(mid[..0]);
  }

  lemma StartGoing(a: ChangeSet, b: ChangeSet, before: bool)
    ensures Going(a, b, before, ChangeSet([], []), 0, [], a.Tokens(), b.Tokens(), 0)
  {
    hide Progress, Merge, Run;
    forall doc: Text | |doc| == a.Length() && |doc| == b.Length()
      ensures Progress(a, b, before, ChangeSet([], []), 0, [], a.Tokens(), b.Tokens(), 0, doc)
    {
      StartProgress(a, b, before, doc);
    }
  }

  lemma StartLevel(a: ChangeSet, b: ChangeSet, before: bool)
    requires a.Valid() && b.Valid()
    ensures Level(a, b, before, ChangeSet([], []), -1, Fetch(a, 0), Fetch(b, 0))
  {
    hide Going, Rest, Pos, OnOld, Fetch;
    StartGoing(a, b, before);
    StartRest(a);
    StartRest(b);
    FetchedFirst(a);
    FetchedFirst(b);
    NothingMade([]);
  }

  lemma FetchedFirst(a: ChangeSet)
    ensures var c := Fetch(a, 0); c.off == 0 && (c.ins >= 0 ==> c.i > 0) && c.i >= 0
  {
  }

  lemma StartRest(a: ChangeSet)
    requires a.Valid()
    ensures OnOld(a, Fetch(a, 0)) && Pos(a, Fetch(a, 0)) == 0 && Rest(a, Fetch(a, 0), true) == a.Tokens()
  {
    FetchOn(a, 0);
    a.UptoFrom(0);
    assert [] + a.From(0) == a.From(0);
  }

  /** A change not placed yet is due now, before `ys`. */
  lemma OwnDue(a: ChangeSet, b: ChangeSet, before: bool, out: ChangeSet, placed: int, o: Cursor, ys: seq<Tok>)
    requires Own(a, o, placed) && Due(a, b, before, out, placed, o, ys)
    requires o.ins >= 0 && placed < o.i
    requires Fresh(o, placed) ==> TakesFirst(Rest(a, o, true), ys, before)
    ensures Going(a, b, before, out, 0, TextOf(a, o), Rest(a, o, false), ys, Pos(a, o))
  {
    if Fresh(o, placed) {
      RestPut(a, o);
      StepOwn(a, b, before, out, TextOf(a, o), o.len, Rest(a, o, false), ys, Pos(a, o));
    }
  }

  /** After passing `n` characters the mapped side is again at a legal place. */
  lemma OwnAdvance(a: ChangeSet, o: Cursor, placed: int, n: nat)
    requires a.Valid() && OnOld(a, o) && o.ins != DONE && placed <= o.i && n <= o.len
    requires n > 0 || n == o.len || placed == o.i
    ensures var o' := Advance(a, o, n);
      && Own(a, o', placed)
      && Rest(a, o', Fresh(o', placed)) == Rest(a, o', n == o.len)
      && Pending(a, o', placed) == (if o.ins >= 0 && placed < o.i && n < o.len then TextOf(a, o) else [])
  {
    AdvancePlace(a, o, n);
    RestUnput(a, Advance(a, o, n), Fresh(Advance(a, o, n), placed), n == o.len);
  }

  /** Whether its text is ahead only matters for a change. */
  lemma RestUnput(a: ChangeSet, o: Cursor, put: bool, put': bool)
    requires OnOld(a, o) && (o.ins >= 0 ==> put == put')
    ensures Rest(a, o, put) == Rest(a, o, put')
  {
  }

  /** The mapped side passes `n` characters that the other side has deleted. */
  lemma CoveredPass(a: ChangeSet, b: ChangeSet, before: bool, out: ChangeSet, pending: Text, placed: int,
                    o: Cursor, i: nat, h: nat, n: nat)
    requires a.Valid() && OnOld(a, o) && o.ins != DONE && placed <= o.i && out.Valid()
    requires b.Valid() && i <= |b.sections| && Pos(a, o) + h == b.LenUpto(i)
    requires n <= h && n <= o.len && (n > 0 || n == o.len)
    requires pending == if o.ins >= 0 && placed < o.i && n < o.len then TextOf(a, o) else []
    requires Going(a, b, before, out, 0, pending, Rest(a, o, false), Rep(Drop, h) + b.From(i), Pos(a, o))
    ensures Covered(a, b, before, out, placed, Advance(a, o, n), i, h - n)
  {
    hide Going, Rest;
    var o' := Advance(a, o, n);
    AdvanceOn(a, o, n);
    PosInRange(a, o);
    PassGone(a, b, before, out, pending, if o.ins < 0 then Keep else Drop, Rest(a, o, false), Rest(a, o', n == o.len),
             b.From(i), h, n, Pos(a, o));
    OwnAdvance(a, o, placed, n);
    assert Pending(a, o', placed) == pending;
    assert Due(a, b, before, out, placed, o', Rep(Drop, h - n) + b.From(i));
  }

  lemma PassGone(a: ChangeSet, b: ChangeSet, before: bool, out: ChangeSet, pending: Text, t: Tok,
                 xs: seq<Tok>, xs': seq<Tok>, ys: seq<Tok>, h: nat, n: nat, p: int)
    requires Going(a, b, before, out, 0, pending, xs, Rep(Drop, h) + ys, p)
    requires !t.Put? && n <= h && p + n <= a.Length() && xs == Rep(t, n) + xs'
    ensures Going(a, b, before, out, 0, pending, xs', Rep(Drop, h - n) + ys, p + n)
  {
    assert Rep(Drop, h) + ys == Rep(Drop, n) + (Rep(Drop, h - n) + ys);
    StepGone(a, b, before, out, 0, pending, t, xs', Rep(Drop, h - n) + ys, n, p);
  }

  /** One piece of the mapped side under the other side's deletion. */
  lemma CoveredStep(a: ChangeSet, b: ChangeSet, before: bool, out: ChangeSet, placed: int, o: Cursor, i: nat, h: nat,
                    n: nat)
    requires Covered(a, b, before, out, placed, o, i, h) && o.ins != DONE
    requires h > 0 && n == (if o.len < h then o.len else h)
    requires o.ins >= 0 && placed < o.i ==> n < o.len
    ensures Covered(a, b, before, out, placed, Advance(a, o, n), i, h - n)
  {
    if o.ins >= 0 && placed < o.i {
      RestPut(a, o);
      OwnDue(a, b, before, out, placed, o, Rep(Drop, h) + b.From(i));
      CoveredPass(a, b, before, out, TextOf(a, o), placed, o, i, h, n);
    } else {
      CoveredPass(a, b, before, out, [], placed, o, i, h, n);
    }
  }

  /** A change that ends under the other side's deletion is placed there. */
  lemma ExtendedIsValid(s: ChangeSet, t: ChangeSet, len: nat, text: Text)
    requires Extends(s, t, false, len, text)
    ensures t.Valid()
  {
  }

  lemma CoveredPlace(a: ChangeSet, b: ChangeSet, before: bool, out: ChangeSet, placed: int, o: Cursor, i: nat, h: nat,
                     out': ChangeSet)
    requires Covered(a, b, before, out, placed, o, i, h)
    requires h > 0 && o.ins >= 0 && placed < o.i && o.len <= h
    requires Extends(out, out', false, 0, TextOf(a, o))
    ensures Covered(a, b, before, out', o.i, Fetch(a, o.i), i, h - o.len)
  {
    hide Going, Rest, Extends;
    var ys := Rep(Drop, h) + b.From(i);
    assert ys[0] == Drop;
    RestPut(a, o);
    OwnDue(a, b, before, out, placed, o, ys);
    ExtendedIsValid(out, out', 0, TextOf(a, o));
    StepEmit(a, b, before, out, out', 0, TextOf(a, o), Rest(a, o, false), ys, Pos(a, o));
    CoveredPass(a, b, before, out', [], o.i, o, i, h, o.len);
  }

  /** Both sides are unchanged here. */
  lemma LevelKeep(a: ChangeSet, b: ChangeSet, before: bool, out: ChangeSet, placed: int, o: Cursor, l: Cursor,
                  n: nat, out': ChangeSet)
    requires Level(a, b, before, out, placed, o, l) && o.ins == -1 && l.ins == -1
    requires 0 < n <= o.len && n <= l.len && Extends(out, out', true, n, [])
    ensures Level(a, b, before, out', placed, Advance(a, o, n), Advance(b, l, n))
  {
    hide Going, Rest;
    var o', l', p := Advance(a, o, n), Advance(b, l, n), Pos(a, o);
    AdvanceOn(a, o, n);
    AdvanceOn(b, l, n);
    RestKeep(a, o, Fresh(o, placed));
    OtherAdvance(b, l, n);
    PosInRange(a, o);
    PassKeep(a, b, before, out, out', Rest(a, o, Fresh(o, placed)), Rest(a, o', n == o.len),
             Rest(b, l, true), Rest(b, l', true), n, p);
    OwnAdvance(a, o, placed, n);
    assert Due(a, b, before, out', placed, o', Rest(b, l', true));
  }

  lemma PassKeep(a: ChangeSet, b: ChangeSet, before: bool, out: ChangeSet, out': ChangeSet,
                 xs: seq<Tok>, xs': seq<Tok>, ys: seq<Tok>, ys': seq<Tok>, n: nat, p: int)
    requires Going(a, b, before, out, 0, [], xs, ys, p)
    requires xs == Rep(Keep, n) + xs' && ys == Rep(Keep, n) + ys'
    requires Extends(out, out', true, n, []) && p + n <= a.Length()
    ensures Going(a, b, before, out', 0, [], xs', ys', p + n)
  {
    StepKeep(a, b, before, out, out', xs', ys', n, p);
  }

  /** The other side passes unchanged characters. */
  lemma OtherAdvance(b: ChangeSet, l: Cursor, n: nat)
    requires b.Valid() && OnOld(b, l) && l.ins == -1 && n <= l.len
    ensures var l' := Advance(b, l, n);
      && OnOld(b, l') && (l'.ins >= 0 ==> l'.off == 0) && Pos(b, l') == Pos(b, l) + n
      && Rest(b, l, true) == Rep(Keep, n) + Rest(b, l', true)
  {
    AdvanceOn(b, l, n);
    RestKeep(b, l, true);
    if n < l.len {
      RestKeep(b, Advance(b, l, n), true);
    }
  }

  /** The other side's change comes first: its text stays, and its deletion
      begins to cover the mapped side. */
  lemma EnterCover(a: ChangeSet, b: ChangeSet, before: bool, out: ChangeSet, placed: int, o: Cursor, l: Cursor,
                   out': ChangeSet)
    requires Level(a, b, before, out, placed, o, l) && l.ins >= 0
    requires o.ins < 0 || placed == o.i || (o.off == 0 && (l.len < o.len || (l.len == o.len && !before)))
    requires Extends(out, out', true, |TextOf(b, l)|, [])
    ensures Covered(a, b, before, out', placed, o, l.i, l.len)
  {
    hide Going, Extends;
    var xs, ys := Rest(a, o, Fresh(o, placed)), Rep(Drop, l.len) + b.From(l.i);
    RestPut(b, l);
    RestStretch(b, l);
    assert !TakesFirst(xs, [Put(TextOf(b, l), l.len)] + ys, before) by {
      InsInRange(a, o);
      if o.ins >= 0 {
        RestPut(a, o);
      } else if o.ins == -1 {
        RestKeep(a, o, Fresh(o, placed));
      }
    }
    StepOther(a, b, before, out, out', xs, TextOf(b, l), l.len, ys, Pos(a, o));
    assert Due(a, b, before, out', placed, o, ys);
  }

  lemma RestStretch(cs: ChangeSet, c: Cursor)
    requires OnOld(cs, c) && c.ins >= 0
    ensures Rest(cs, c, false) == Rep(Drop, c.len) + cs.From(c.i)
  {
    assert [] + Stretch(c) + cs.From(c.i) == Rep(Drop, c.len) + cs.From(c.i);
  }

  /** The other side's deletion is over. */
  lemma LeaveCover(a: ChangeSet, b: ChangeSet, before: bool, out: ChangeSet, placed: int, o: Cursor, i: nat)
    requires Covered(a, b, before, out, placed, o, i, 0)
    ensures Level(a, b, before, out, placed, o, Fetch(b, i))
  {
    FetchOn(b, i);
    assert Rep(Drop, 0) + b.From(i) == b.From(i);
  }

  /** The mapped side's change comes first: its text is due, and its deletion is
      carried along. */
  lemma EnterCarry(a: ChangeSet, b: ChangeSet, before: bool, out: ChangeSet, placed: int, o: Cursor, l: Cursor)
    requires Level(a, b, before, out, placed, o, l) && o.ins >= 0
    requires l.ins >= 0 ==> placed != o.i && (o.off == 0 ==> o.len < l.len || (o.len == l.len && before))
    ensures Carried(a, b, before, out, if placed < o.i then TextOf(a, o) else [], o, l, 0, o.len)
  {
    var ys := Rest(b, l, true);
    RestStretch(a, o);
    if placed < o.i {
      assert Fresh(o, placed) ==> TakesFirst(Rest(a, o, true), ys, before) by {
        RestPut(a, o);
        InsInRange(b, l);
        if l.ins >= 0 {
          RestPut(b, l);
        } else if l.ins == -1 {
          RestKeep(b, l, true);
        }
      }
      OwnDue(a, b, before, out, placed, o, ys);
    }
  }

  /** The other side leaves `n` of the characters that the mapped side deletes. */
  lemma CarryKept(a: ChangeSet, b: ChangeSet, before: bool, out: ChangeSet, text: Text, o: Cursor, l: Cursor,
                  gone: nat, left: nat, n: nat)
    requires Carried(a, b, before, out, text, o, l, gone, left) && l.ins == -1 && n <= left && n <= l.len
    ensures Carried(a, b, before, out, text, o, Advance(b, l, n), gone + n, left - n)
  {
    hide Going, Rest;
    var l' := Advance(b, l, n);
    var xs' := Rep(Drop, left - n) + a.From(o.i);
    OtherAdvance(b, l, n);
    PosInRange(a, o);
    assert Rep(Drop, left) + a.From(o.i) == Rep(Drop, n) + xs';
    StepDelete(a, b, before, out, gone, text, xs', Rest(b, l', true), n, Pos(b, l));
  }

  /** The other side has deleted, and not replaced, some of them already. */
  lemma CarryDeleted(a: ChangeSet, b: ChangeSet, before: bool, out: ChangeSet, text: Text, o: Cursor, l: Cursor,
                     gone: nat, left: nat)
    requires Carried(a, b, before, out, text, o, l, gone, left) && l.ins == 0 && l.len < left
    ensures Carried(a, b, before, out, text, o, Fetch(b, l.i), gone, left - l.len)
  {
    hide Going, Rest;
    var n, p := l.len, Pos(b, l);
    var xs, xs', ys' := Rep(Drop, left) + a.From(o.i), Rep(Drop, left - n) + a.From(o.i), b.From(l.i);
    FetchOn(b, l.i);
    PosInRange(a, o);
    RestPut(b, l);
    RestStretch(b, l);
    assert TextOf(b, l) == [] by { assert b.ValidAt(l.i - 1); }
    assert xs[0] == Drop;
    StepOtherNothing(a, b, before, out, gone, text, xs, n, Rep(Drop, n) + ys', p);
    assert xs == Rep(Drop, n) + xs';
    StepGone(a, b, before, out, gone, text, Drop, xs', ys', n, p);
  }

  lemma RestAfter(a: ChangeSet, o: Cursor, left: nat)
    requires a.Valid() && OnOld(a, o) && o.ins >= 0 && left <= o.len
    requires OnOld(a, Advance(a, o, o.len - left))
    ensures Rest(a, Advance(a, o, o.len - left), left == 0) == Rep(Drop, left) + a.From(o.i)
  {
    var o' := Advance(a, o, o.len - left);
    if left == 0 {
      FetchOn(a, o.i);
      assert Rep(Drop, 0) + a.From(o.i) == a.From(o.i);
    } else {
      RestStretch(a, o');
    }
  }

  /** The carried part of the change is recorded. */
  lemma LeaveCarry(a: ChangeSet, b: ChangeSet, before: bool, out: ChangeSet, text: Text, o: Cursor, l: Cursor,
                   gone: nat, left: nat, out': ChangeSet)
    requires Carried(a, b, before, out, text, o, l, gone, left)
    requires Extends(out, out', false, gone, text)
    ensures Level(a, b, before, out', o.i, Advance(a, o, o.len - left), l)
  {
    hide Going, Extends;
    var o', ys := Advance(a, o, o.len - left), Rest(b, l, true);
    var xs' := Rep(Drop, left) + a.From(o.i);
    StepEmit(a, b, before, out, out', gone, text, xs', ys, Pos(b, l));
    AdvanceOn(a, o, o.len - left);
    OwnAdvance(a, o, o.i, o.len - left);
    RestAfter(a, o, left);
    assert Due(a, b, before, out', o.i, o', ys);
  }

  // ----- sets of unequal lengths -----

  /** A change of `b` starts before position `end` and removes text beyond it. */
  ghost predicate Straddles(b: ChangeSet, end: int)
  {
    exists k: nat :: k < |b.sections| && StraddlesAt(b, end, k)
  }

  predicate StraddlesAt(b: ChangeSet, end: int, k: nat)
    requires k < |b.sections|
  {
    b.sections[k].ins >= 0 && b.LenUpto(k) < end < b.LenUpto(k + 1)
  }

  /** A position in front of a section, inside an unchanged one, or behind all
      of them is not straddled. */
  lemma NotStraddled(b: ChangeSet, i: nat, end: int)
    requires i <= |b.sections|
    requires end >= b.LenUpto(i)
    requires i < |b.sections| ==> end < b.LenUpto(i + 1) && (b.sections[i].ins >= 0 ==> end == b.LenUpto(i))
    ensures !Straddles(b, end)
  {
    forall k: nat | k < |b.sections| ensures !StraddlesAt(b, end, k) {
      if k < i {
        b.LenUptoMonotone(k + 1, i);
      } else if k > i {
        b.LenUptoMonotone(i + 1, k);
      }
    }
  }

  /** One side is at its end, the other is not, and no change is under way. */
  lemma Reported(a: ChangeSet, b: ChangeSet, o: Cursor, l: Cursor)
    requires OnOld(a, o) && OnOld(b, l) && Pos(a, o) == Pos(b, l) && (l.ins >= 0 ==> l.off == 0)
    requires (o.ins == DONE && l.len > 0) || (l.ins == DONE && o.len > 0)
    ensures a.Length() != b.Length() && !Straddles(b, a.Length())
  {
    PosInRange(a, o);
    PosInRange(b, l);
    if o.ins == DONE {
      NotStraddled(b, l.i - 1, a.Length());
    } else {
      NotStraddled(b, |b.sections|, a.Length());
    }
  }

  // ----- the algorithm -----

  /** Where there is something to pass, the mapped side is not at its end. */
  lemma PassBegins(a: ChangeSet, b: ChangeSet, before: bool, out: ChangeSet, placed: int, o: Cursor, l: Cursor)
    requires Level(a, b, before, out, placed, o, l) && l.ins >= 0
    requires o.ins < 0 || placed == o.i || (o.off == 0 && (l.len < o.len || (l.len == o.len && !before)))
    requires o.ins == DONE ==> l.len == 0
    ensures 0 < l.i <= |b.sections| && b.sections[l.i - 1] == Section(l.len, l.ins)
    ensures l.len > 0 ==> b.LenUpto(l.i - 1) < a.Length()
  {
    hide Due, Rest;
    InsInRange(a, o);
    PosInRange(a, o);
    if o.ins == -1 {
      RestKeep(a, o, true);
    }
  }

  /** At its end with something left to pass, the mapped side is straddled. */
  lemma PassHangs(a: ChangeSet, b: ChangeSet, before: bool, out: ChangeSet, placed: int, o: Cursor, i: nat, h: nat)
    requires Covered(a, b, before, out, placed, o, i, h) && o.ins == DONE && h > 0
    requires 0 < i && b.sections[i - 1].ins >= 0 && b.LenUpto(i - 1) < a.Length()
    ensures Straddles(b, a.Length()) && a.Length() < b.Length()
  {
    hide Due;
    PosInRange(a, o);
    b.LenUptoMonotone(i, |b.sections|);
    assert StraddlesAt(b, a.Length(), i - 1);
  }

  /** The part of the main loop for a change of the other side that comes first:
      keep its text, then pass what it deletes, placing every change of the
      mapped side that ends there.  `hangs` reports the one way in which the loop
      would not end: nothing is left to pass. */
  method PassOther(a: ChangeSet, b: ChangeSet, before: bool, o: SectionIter, l: SectionIter,
                   out: ChangeSet, placed: int) returns (out': ChangeSet, placed': int, hangs: bool)
    requires o != l && o.cs == a && l.cs == b
    requires Level(a, b, before, out, placed, o.Here(), l.Here()) && l.ins >= 0
    requires o.ins < 0 || placed == o.i || (o.off == 0 && (l.len < o.len || (l.len == o.len && !before)))
    requires (o.ins == DONE ==> l.len == 0) && Tight(out.sections) && PutIn(a, out, placed, o.Here())
    modifies o, l
    ensures hangs ==> Straddles(b, a.Length()) && a.Length() < b.Length()
    ensures !hangs ==> Level(a, b, before, out', placed', o.Here(), l.Here())
    ensures Tight(out'.sections) && PutIn(a, out', placed', o.Here())
    ensures Todo(a, o.Here()) <= old(Todo(a, o.Here()))
    ensures !hangs ==> Todo(b, l.Here()) < old(Todo(b, l.Here()))
  {
    hide Due, Going, Extends, Rest, Straddles, StraddlesAt, Pending, Fresh, Tight, AddSection, TextSoFar;
    assert b.ValidAt(l.i - 1);
    ghost var li := l.i;
    var h: nat := l.len;
    out' := Retain(out, l.ins);
    AddSectionTight(out.sections, l.ins, -1, false);
    placed' := placed;
    EnterCover(a, b, before, out, placed, o.Here(), l.Here(), out');
    PassBegins(a, b, before, out, placed, o.Here(), l.Here());
    while h > 0
      invariant Covered(a, b, before, out', placed', o.Here(), li, h)
      invariant Todo(a, o.Here()) <= old(Todo(a, o.Here()))
      invariant l.Here() == old(l.Here()) && h <= l.len && Tight(out'.sections)
      invariant PutIn(a, out', placed', o.Here())
      decreases Todo(a, o.Here()), h
    {
      if o.Done() {
        PassHangs(a, b, before, out', placed', o.Here(), li, h);
        return out', placed', true;
      }
      out', placed', h := PassOne(a, b, before, o, out', placed', li, h);
    }
    LeaveCover(a, b, before, out', placed', o.Here(), li);
    l.Next();
    hangs := false;
  }

  lemma PlacedBefore(a: ChangeSet, placed: int, o: Cursor)
    requires Own(a, o, placed)
    ensures placed <= o.i
  {
  }

  /** One round: pass what the mapped side's section covers, placing its change
      if it ends there. */
  method PassOne(a: ChangeSet, b: ChangeSet, before: bool, o: SectionIter, out: ChangeSet, placed: int, ghost i: nat,
                 h: nat)
    returns (out': ChangeSet, placed': int, h': nat)
    requires o.cs == a && Covered(a, b, before, out, placed, o.Here(), i, h) && o.ins != DONE && h > 0
    requires Tight(out.sections) && PutIn(a, out, placed, o.Here())
    modifies o
    ensures Covered(a, b, before, out', placed', o.Here(), i, h') && h' <= h && Tight(out'.sections)
    ensures PutIn(a, out', placed', o.Here())
    ensures Todo(a, o.Here()) <= old(Todo(a, o.Here()))
    ensures Todo(a, o.Here()) < old(Todo(a, o.Here())) || h' < h
  {
    hide Due, Going, Extends, Rest, Pending, Fresh, Pos, Todo, Tight, AddSection, PutIn;
    ghost var c := o.Here();
    var n := if o.len < h then o.len else h;
    AdvancePlace(a, c, n);
    if o.ins >= 0 && placed < o.i && o.len <= n {
      out' := Place(out, 0, o.Text(), false);
      AddSectionTight(out.sections, 0, |o.Text()|, false);
      CoveredPlace(a, b, before, out, placed, c, i, h, out');
      PutInPlaced(a, out, out', placed, c);
      placed' := o.i;
    } else {
      out', placed' := out, placed;
      CoveredStep(a, b, before, out, placed, c, i, h, n);
      PlacedBefore(a, placed, c);
    }
    PutInAdvance(a, out', placed', c, n);
    o.Forward(n);
    h' := h - n;
  }

  /** The part of the main loop for a change of the mapped side that comes first:
      carry it up to the other side's next insertion or larger deletion. */
  method CarryOwn(a: ChangeSet, b: ChangeSet, before: bool, o: SectionIter, l: SectionIter,
                  out: ChangeSet, placed: int) returns (out': ChangeSet, placed': int)
    requires o != l && o.cs == a && l.cs == b
    requires Level(a, b, before, out, placed, o.Here(), l.Here()) && o.ins >= 0
    requires l.ins >= 0 ==> placed != o.i && (o.off == 0 ==> o.len < l.len || (o.len == l.len && before))
    requires (l.ins == DONE ==> o.len == 0) && Tight(out.sections) && PutIn(a, out, placed, o.Here())
    modifies o, l
    ensures Level(a, b, before, out', placed', o.Here(), l.Here()) && Tight(out'.sections)
    ensures PutIn(a, out', placed', o.Here())
    ensures Todo(a, o.Here()) <= old(Todo(a, o.Here())) && Todo(b, l.Here()) <= old(Todo(b, l.Here()))
    ensures || Todo(a, o.Here()) + Todo(b, l.Here()) < old(Todo(a, o.Here()) + Todo(b, l.Here()))
            || o.len + l.len < old(o.len + l.len)
            || (o.Here() == old(o.Here()) && l.Here() == old(l.Here()) && placed < o.i == placed')
  {
    hide Due, Going, Extends, Rest, Pos, Pending, Fresh, Tight, AddSection, PutIn;
    ghost var c := o.Here();
    ghost var l0 := l.Here();
    var text := if placed < o.i then o.Text() else [];
    var gone: nat, left: nat := 0, o.len;
    EnterCarry(a, b, before, out, placed, c, l0);
    while left > 0
      invariant o.Here() == c
      invariant Carried(a, b, before, out, text, c, l.Here(), gone, left)
      invariant Todo(b, l.Here()) <= Todo(b, l0)
      invariant left == c.len ==> l.Here() == l0 || Todo(b, l.Here()) < Todo(b, l0)
      invariant Todo(b, l.Here()) < Todo(b, l0) || l.len <= l0.len
      decreases Todo(b, l.Here()), left
    {
      if !(l.ins == -1 || (l.ins == 0 && l.len < left)) {
        break;
      }
      gone, left := CarryOne(a, b, before, l, out, text, c, gone, left);
    }
    InsInRange(b, l.Here());
    out' := Place(out, gone, text, false);
    AddSectionTight(out.sections, gone, |text|, false);
    PutInPlaced(a, out, out', placed, c);
    PutInAdvance(a, out', c.i, c, c.len - left);
    placed' := o.i;
    LeaveCarry(a, b, before, out, text, c, l.Here(), gone, left, out');
    AdvanceOn(a, c, c.len - left);
    o.Forward(o.len - left);
  }

  /** One round: carry the change over a kept stretch, or over a smaller deletion. */
  method CarryOne(a: ChangeSet, b: ChangeSet, before: bool, l: SectionIter, out: ChangeSet, text: Text,
                  ghost c: Cursor, gone: nat, left: nat) returns (gone': nat, left': nat)
    requires l.cs == b && Carried(a, b, before, out, text, c, l.Here(), gone, left) && left > 0
    requires l.ins == -1 || (l.ins == 0 && l.len < left)
    modifies l
    ensures Carried(a, b, before, out, text, c, l.Here(), gone', left') && left' <= left
    ensures Todo(b, l.Here()) < old(Todo(b, l.Here()))
      || (Todo(b, l.Here()) == old(Todo(b, l.Here())) && left' < left && l.len <= old(l.len))
  {
    hide Due, Going, Extends, Rest, Pos, Pending, Fresh, Todo;
    ghost var d := l.Here();
    if l.ins == -1 {
      var n := if left < l.len then left else l.len;
      RestKeep(b, d, true);
      CarryKept(a, b, before, out, text, c, d, gone, left, n);
      AdvancePlace(b, d, n);
      gone', left' := gone + n, left - n;
      l.Forward(n);
    } else {
      CarryDeleted(a, b, before, out, text, c, d, gone, left);
      AdvancePlace(b, d, d.len);
      gone', left' := gone, left - l.len;
      l.Next();
    }
  }

  /** Rebase `a` over `b`: the change that, applied after `b`, has the effect of
      `a`.  Where both change the same place, `before` says whose text is first.
      Its sections are as few as they can be. */
  method MapSet(a: ChangeSet, b: ChangeSet, before: bool) returns (r: Outcome)
    requires a.Valid() && b.Valid()
    ensures r.Mapped? <==> a.Length() == b.Length()
    ensures r.Mapped? ==> Rebased(a, b, before, r.changes) && Tight(r.changes.sections)
    ensures r.Mapped? ==> r.changes.AllText() == a.AllText()
    ensures r.Hangs? <==> Straddles(b, a.Length())
  {
    hide Due, Going, Extends, Rest, Tight, AddSection, PutIn;
    var o := new SectionIter(a);
    var l := new SectionIter(b);
    var out := ChangeSet([], []);
    var placed := -1;
    StartLevel(a, b, before);
    NoneTight();
    PutInStart(a);
    while true
      invariant fresh(o) && fresh(l) && o != l && o.cs == a && l.cs == b
      invariant Level(a, b, before, out, placed, o.Here(), l.Here()) && Tight(out.sections)
      invariant PutIn(a, out, placed, o.Here())
      decreases Todo(a, o.Here()) + Todo(b, l.Here()), o.len + l.len, if placed < o.i then 1 else 0
    {
      ghost var c, d := o.Here(), l.Here();
      InsInRange(a, c);
      InsInRange(b, d);
      PosInRange(a, c);
      PosInRange(b, d);
      if (o.Done() && l.len > 0) || (l.Done() && o.len > 0) {
        Reported(a, b, c, d);
        return Mismatch;
      }
      if o.ins == -1 && l.ins == -1 {
        var n := if o.len < l.len then o.len else l.len;
        RestKeep(a, c, true);
        RestKeep(b, d, true);
        var out' := Retain(out, n);
        AddSectionTight(out.sections, n, -1, false);
        PutInKept(a, out, out', placed, c, n);
        LevelKeep(a, b, before, out, placed, c, d, n, out');
        AdvanceOn(a, c, n);
        AdvanceOn(b, d, n);
        out := out';
        o.Forward(n);
        l.Forward(n);
      } else if l.ins >= 0 &&
        (o.ins < 0 || placed == o.i || (o.off == 0 && (l.len < o.len || (l.len == o.len && !before)))) {
        var hangs;
        out, placed, hangs := PassOther(a, b, before, o, l, out, placed);
        if hangs {
          return Hangs;
        }
      } else if o.ins >= 0 {
        out, placed := CarryOwn(a, b, before, o, l, out, placed);
      } else {
        Finished(a, b, before, out, placed, c, d);
        PutInDone(a, out, placed, c);
        NotStraddled(b, |b.sections|, a.Length());
        return if o.Done() && l.Done() then Mapped(out) else Mismatch;
      }
    }
  }

  /** What rebasing promises: the lengths fit, and `b` followed by the rebased
      change makes the merged document. */
  ghost predicate Rebased(a: ChangeSet, b: ChangeSet, before: bool, r: ChangeSet)
  {
    && r.Valid()
    && forall doc: Text | |doc| == a.Length() :: RebasedAt(a, b, before, r, doc)
  }

  ghost predicate RebasedAt(a: ChangeSet, b: ChangeSet, before: bool, r: ChangeSet, doc: Text)
  {
    && r.Length() == b.NewLength()
    && r.Apply(b.Apply(doc)) == Merge(a.Tokens(), b.Tokens(), doc, before)
  }

  lemma Finished(a: ChangeSet, b: ChangeSet, before: bool, out: ChangeSet, placed: int, o: Cursor, l: Cursor)
    requires Level(a, b, before, out, placed, o, l) && o.ins < 0 && l.ins < 0
    requires o.ins == DONE || l.ins == DONE
    requires !(o.ins == DONE && l.len > 0) && !(l.ins == DONE && o.len > 0)
    ensures o.ins == DONE && l.ins == DONE && a.Length() == b.Length()
    ensures Rebased(a, b, before, out)
  {
    InsInRange(a, o);
    InsInRange(b, l);
    PosInRange(a, o);
    PosInRange(b, l);
    if o.ins == -1 {
      RestKeep(a, o, true);
      assert false;
    }
    if l.ins == -1 {
      RestKeep(b, l, true);
      assert false;
    }
    forall doc: Text | |doc| == a.Length()
      ensures RebasedAt(a, b, before, out, doc)
    {
      assert Progress(a, b, before, out, 0, [], [], [], |doc|, doc);
      FinishedAt(a, b, before, out, doc);
    }
  }

  lemma FinishedAt(a: ChangeSet, b: ChangeSet, before: bool, out: ChangeSet, doc: Text)
    requires b.Valid() && |doc| == b.Length() && Progress(a, b, before, out, 0, [], [], [], |doc|, doc)
    ensures RebasedAt(a, b, before, out, doc)
  {
    var mid, q := b.Apply(doc), out.Length();
    b.NewLengthUpto(|b.sections|, doc);
    assert |mid[q + 0..]| == 0 && mid[..q] == mid;
    assert out.Apply(mid) + [] + [] == out.Apply(mid);
  }

  // ----- what rebasing is for -----

  lemma {:induction false} MergeWithNothing(xs: seq<Tok>, d: Text, before: bool)
    requires Width(xs) == |d|
    ensures Merge(xs, Rep(Keep, |d|), d, before) == Run(xs, d)
    decreases |xs|
  {
    var ys := Rep(Keep, |d|);
    if xs != [] {
      if xs[0].Put? {
        MergeWithNothing(xs[1..], d, before);
      } else {
        assert ys[1..] == Rep(Keep, |d[1..]|);
        MergeWithNothing(xs[1..], d[1..], before);
      }
    }
  }

  lemma EmptyDoesNothing(b: ChangeSet, doc: Text)
    requires b.Valid() && b.Empty() && |doc| == b.Length()
    ensures b.Tokens() == Rep(Keep, |doc|) && b.Apply(doc) == doc && b.NewLength() == b.Length()
  {
    if |b.sections| == 1 {
      assert b.ValidAt(0);
      assert b.Upto(1) == b.Upto(0) + b.SectionToks(0);
      assert b.LenUpto(1) == b.LenUpto(0) + b.sections[0].len;
      assert b.NewUpto(1) == b.NewUpto(0) + b.sections[0].len;
    }
    RunRep(Keep, |doc|, doc);
  }

  /** Mapping over a change set that changes nothing is not attempted. */
  method Map(a: ChangeSet, b: ChangeSet, before: bool) returns (r: Outcome)
    requires a.Valid() && b.Valid()
    ensures r.Mapped? <==> a.Length() == b.Length() || b.Empty()
    ensures a.Length() == b.Length() ==> Rebased(a, b, before, r.changes)
    ensures r.Hangs? <==> Straddles(b, a.Length())
    ensures r.Mapped? && Tight(a.sections) ==> Tight(r.changes.sections)
    ensures r.Mapped? ==> r.changes.AllText() == a.AllText()
  {
    if b.Empty() {
      if a.Length() == b.Length() {
        forall doc: Text | |doc| == a.Length()
          ensures RebasedAt(a, b, before, a, doc)
        {
          EmptyDoesNothing(b, doc);
          a.WidthUpto(|a.sections|);
          MergeWithNothing(a.Tokens(), doc, before);
        }
      }
      return Mapped(a);
    }
    r := MapSet(a, b, before);
  }

  /** A set for one character, mapped over a deletion of two, is never done with;
      over a kept character and a deletion the mismatch is reported. */
  method HangsAndReports() returns (hung: Outcome, reported: Outcome)
    ensures hung == Hangs && reported == Mismatch
  {
    var a := ChangeSet([Section(1, -1)], []);
    var b, c := ChangeSet([Section(2, 0)], []), ChangeSet([Section(1, -1), Section(1, 0)], []);
    assert a.LenUpto(1) == 1 + a.LenUpto(0) && b.LenUpto(1) == 2 + b.LenUpto(0);
    assert c.LenUpto(1) == 1 + c.LenUpto(0) && c.LenUpto(2) == 1 + c.LenUpto(1);
    assert StraddlesAt(b, a.Length(), 0);
    NotStraddled(c, 1, 1);
    hung := Map(a, b, true);
    reported := Map(a, c, true);
  }

  /** Two changes of the same document converge: each, rebased over the other,
      leads to the same document, provided one of them wins ties. */
  lemma Converge(a: ChangeSet, b: ChangeSet, before: bool, ab: ChangeSet, ba: ChangeSet, doc: Text)
    requires a.Valid() && b.Valid() && |doc| == a.Length() == b.Length()
    requires Rebased(a, b, before, ab) && Rebased(b, a, !before, ba)
    ensures ab.Apply(b.Apply(doc)) == ba.Apply(a.Apply(doc))
    ensures ab.Length() == b.NewLength() && ba.Length() == a.NewLength() && ab.NewLength() == ba.NewLength()
  {
    assert RebasedAt(a, b, before, ab, doc) && RebasedAt(b, a, !before, ba, doc);
    MergeSymmetric(a.Tokens(), b.Tokens(), doc, before);
    a.NewLengthUpto(|a.sections|, doc);
    b.NewLengthUpto(|b.sections|, doc);
    ab.NewLengthUpto(|ab.sections|, b.Apply(doc));
    ba.NewLengthUpto(|ba.sections|, a.Apply(doc));
  }

  /** `b` seen from where `a` leads, and `a` seen from where `b` leads. */
  method Diamond(a: ChangeSet, b: ChangeSet) returns (ab: ChangeSet, ba: ChangeSet)
    requires a.Valid() && b.Valid() && a.Length() == b.Length()
    ensures ab.Valid() && ab.Length() == b.NewLength()
    ensures ba.Valid() && ba.Length() == a.NewLength() && ab.NewLength() == ba.NewLength()
    ensures Rebased(a, b, true, ab) && Rebased(b, a, false, ba)
    ensures forall doc: Text | |doc| == a.Length() :: ab.Apply(b.Apply(doc)) == ba.Apply(a.Apply(doc))
  {
    var r := Map(a, b, true);
    ab := r.changes;
    r := Map(b, a, false);
    ba := r.changes;
    ghost var doc0: Text := seq(a.Length(), _ => ' ');
    Converge(a, b, true, ab, ba, doc0);
    forall doc: Text | |doc| == a.Length()
      ensures ab.Apply(b.Apply(doc)) == ba.Apply(a.Apply(doc))
    {
      Converge(a, b, true, ab, ba, doc);
    }
  }
}
