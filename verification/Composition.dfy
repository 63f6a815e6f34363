/** Putting two change sets made one after the other into one. */
module Composition {
  import opened Basics
  import opened Tokens
  import opened ChangeSets
  import opened SectionIters
  import opened Boundaries
  import Mapping

  datatype Outcome = Composed(changes: ChangeSet) | Mismatch

  // ----- the new document from a cursor on -----

  /** The next `n` new characters, `d` being the old document from here on. */
  ghost function Bit(cs: ChangeSet, c: Cursor, n: nat, d: Text): Text
    requires cs.Valid() && OnNew(cs, c) && c.ins != DONE && n <= Len2(c) && Cost(c) <= |d|
  {
    assert cs.ValidAt(c.i - 1);
    if c.ins == -1 then d[..n] else TextOf(cs, c)[c.off..c.off + n]
  }

  lemma BitLength(cs: ChangeSet, c: Cursor, n: nat, d: Text)
    requires cs.Valid() && OnNew(cs, c) && c.ins != DONE && n <= Len2(c) && Cost(c) <= |d|
    ensures |Bit(cs, c, n, d)| == n
  {
    assert cs.ValidAt(c.i - 1);
  }

  /** The new document from `c` on, `d` being the old document from here on. */
  ghost function Ahead(cs: ChangeSet, c: Cursor, d: Text): Text
    requires cs.Valid() && OnNew(cs, c) && Cost(c) <= |d|
  {
    if c.ins == DONE then [] else Bit(cs, c, Len2(c), d) + Run(cs.From(c.i), d[Cost(c)..])
  }

  lemma FetchAhead(cs: ChangeSet, i: nat, d: Text)
    requires cs.Valid() && i <= |cs.sections| && OnNew(cs, Fetch(cs, i)) && Cost(Fetch(cs, i)) <= |d|
    ensures Ahead(cs, Fetch(cs, i), d) == Run(cs.From(i), d)
  {
    if i < |cs.sections| {
      var s, text, rest := cs.sections[i], cs.TextAt(i), cs.From(i + 1);
      assert cs.ValidAt(i);
      if s.ins < 0 {
        RunRepThen(Keep, s.len, rest, d);
      } else {
        assert cs.From(i) == [Put(text, s.len)] + (Rep(Drop, s.len) + rest);
        RunPut(text, s.len, Rep(Drop, s.len) + rest, d);
        RunRepThen(Drop, s.len, rest, d);
        assert text[0..0 + s.ins] == text;
      }
    }
  }

  lemma BitSplit(cs: ChangeSet, c: Cursor, n: nat, d: Text)
    requires cs.Valid() && OnNew(cs, c) && c.ins != DONE && 0 < n < Len2(c) && Cost(c) <= |d|
    requires OnNew(cs, Advance2(cs, c, n))
    ensures var c' := Advance2(cs, c, n);
      Bit(cs, c, Len2(c), d) == Bit(cs, c, n, d) + Bit(cs, c', Len2(c'), d[Passed(c, n)..])
  {
    if c.ins == -1 {
      assert d[..c.len] == d[..n] + d[n..][..c.len - n];
    } else {
      var text := TextOf(cs, c);
      assert cs.ValidAt(c.i - 1);
      assert text[c.off..c.off + c.ins] == text[c.off..c.off + n] + text[c.off + n..c.off + c.ins];
    }
  }

  lemma AdvanceAhead(cs: ChangeSet, c: Cursor, n: nat, d: Text)
    requires cs.Valid() && OnNew(cs, c) && c.ins != DONE && n <= Len2(c) && Cost(c) <= |d|
    requires n > 0 || c.ins == 0
    requires OnNew(cs, Advance2(cs, c, n)) && Passed(c, n) + Cost(Advance2(cs, c, n)) <= |d|
    ensures Ahead(cs, c, d) == Bit(cs, c, n, d) + Ahead(cs, Advance2(cs, c, n), d[Passed(c, n)..])
  {
    var c', k := Advance2(cs, c, n), Passed(c, n);
    if n == Len2(c) {
      FetchAhead(cs, c.i, d[k..]);
    } else {
      var rest := Run(cs.From(c.i), d[Cost(c)..]);
      assert d[k..][Cost(c')..] == d[Cost(c)..];
      BitSplit(cs, c, n, d);
      Assoc(Bit(cs, c, n, d), Bit(cs, c', Len2(c'), d[k..]), rest);
    }
  }

  // ----- the steps -----

  /** The result so far and what both change sets have ahead make the whole. */
  ghost predicate Progress(a: ChangeSet, b: ChangeSet, out: ChangeSet, r: Cursor, ys: seq<Tok>, doc: Text)
    requires a.Valid() && OnNew(a, r)
  {
    var p := OldPos(a, r);
    && 0 <= p && p + Cost(r) <= |doc| && out.Length() == p
    && out.Apply(doc[..p]) + Run(ys, Ahead(a, r, doc[p..])) == b.Apply(a.Apply(doc))
  }

  ghost predicate Going(a: ChangeSet, b: ChangeSet, out: ChangeSet, r: Cursor, ys: seq<Tok>)
    requires a.Valid() && OnNew(a, r)
  {
    forall doc: Text | |doc| == a.Length() && a.NewLength() == b.Length() :: Progress(a, b, out, r, ys, doc)
  }

  /** `b`'s tokens `head` turn the next `n` characters of the middle document
      into `text`, or leave them. */
  ghost predicate Turns(head: seq<Tok>, n: nat, keep: bool, text: Text)
  {
    && Width(head) == n
    && forall u: Text | |u| == n :: Run(head, u) == if keep then u else text
  }

  /** `out'` records what becomes of the next `n` characters of the middle document. */
  ghost predicate Records(a: ChangeSet, r: Cursor, n: nat, keep: bool, text: Text, out: ChangeSet, out': ChangeSet)
    requires a.Valid() && OnNew(a, r) && r.ins != DONE && n <= Len2(r)
  {
    assert a.ValidAt(r.i - 1);
    if r.ins == -1 && keep then Extends(out, out', true, n, [])
    else Extends(out, out', false, Passed(r, n), if keep then TextOf(a, r)[r.off..r.off + n] else text)
  }

  lemma RecordsAt(a: ChangeSet, r: Cursor, n: nat, keep: bool, text: Text, out: ChangeSet, out': ChangeSet, doc: Text)
    requires a.Valid() && OnNew(a, r) && r.ins != DONE && n <= Len2(r) && Records(a, r, n, keep, text, out, out')
    requires out.Length() + Cost(r) <= |doc| && Passed(r, n) <= Cost(r)
    ensures var p, k := out.Length(), Passed(r, n);
      && out'.Length() == p + k
      && out'.Apply(doc[..p + k]) == out.Apply(doc[..p]) + if keep then Bit(a, r, n, doc[p..]) else text
  {
    hide Run;
    var p, k := out.Length(), Passed(r, n);
    assert doc[..p + k] == doc[..p] + doc[p..][..k];
    assert a.ValidAt(r.i - 1);
    if r.ins == -1 && keep {
      assert ExtendsAt(out, out', true, [], doc[..p], doc[p..][..k]);
    } else {
      var made := if keep then TextOf(a, r)[r.off..r.off + n] else text;
      assert ExtendsAt(out, out', false, made, doc[..p], doc[p..][..k]);
    }
  }

  /** The next `n` characters of the middle document are dealt with. */
  lemma StepAt(a: ChangeSet, b: ChangeSet, out: ChangeSet, out': ChangeSet, r: Cursor, n: nat,
               head: seq<Tok>, ys: seq<Tok>, keep: bool, text: Text, doc: Text)
    requires a.Valid() && OnNew(a, r) && r.ins != DONE && n <= Len2(r) && (n > 0 || r.ins == 0)
    requires OnNew(a, Advance2(a, r, n)) && OldPos(a, Advance2(a, r, n)) == OldPos(a, r) + Passed(r, n)
    requires OldPos(a, Advance2(a, r, n)) + Cost(Advance2(a, r, n)) <= |doc|
    requires Progress(a, b, out, r, head + ys, doc) && Turns(head, n, keep, text)
    requires Records(a, r, n, keep, text, out, out')
    ensures Progress(a, b, out', Advance2(a, r, n), ys, doc)
  {
    hide Records, Run, Ahead, Bit;
    var r', p, k := Advance2(a, r, n), OldPos(a, r), Passed(r, n);
    var d := doc[p..];
    assert doc[p + k..] == d[k..];
    AdvanceAhead(a, r, n, d);
    RecordsAt(a, r, n, keep, text, out, out', doc);
    var bit, rest := Bit(a, r, n, d), Ahead(a, r', d[k..]);
    BitLength(a, r, n, d);
    RunConcat(head, ys, bit, rest);
    Assoc(out.Apply(doc[..p]), Run(head, bit), Run(ys, rest));
  }

  lemma Step(a: ChangeSet, b: ChangeSet, out: ChangeSet, out': ChangeSet, r: Cursor, n: nat,
             head: seq<Tok>, ys: seq<Tok>, keep: bool, text: Text)
    requires a.Valid() && OnNew(a, r) && r.ins != DONE && n <= Len2(r) && (n > 0 || r.ins == 0)
    requires Going(a, b, out, r, head + ys) && Turns(head, n, keep, text)
    requires Records(a, r, n, keep, text, out, out')
    ensures OnNew(a, Advance2(a, r, n)) && Going(a, b, out', Advance2(a, r, n), ys)
  {
    hide Turns, Records;
    var r' := Advance2(a, r, n);
    AdvanceOnNew(a, r, n);
    OldPosInRange(a, r');
    forall doc: Text | |doc| == a.Length() && a.NewLength() == b.Length()
      ensures Progress(a, b, out', r', ys, doc)
    {
      assert Progress(a, b, out, r, head + ys, doc);
      StepAt(a, b, out, out', r, n, head, ys, keep, text, doc);
    }
  }

  /** Text that `b` puts in without touching the middle document. */
  lemma StepInsert(a: ChangeSet, b: ChangeSet, out: ChangeSet, out': ChangeSet, r: Cursor, text: Text, ys: seq<Tok>)
    requires a.Valid() && OnNew(a, r) && Going(a, b, out, r, [Put(text, 0)] + ys)
    requires Extends(out, out', false, 0, text)
    ensures Going(a, b, out', r, ys)
  {
    forall doc: Text | |doc| == a.Length() && a.NewLength() == b.Length()
      ensures Progress(a, b, out', r, ys, doc)
    {
      assert Progress(a, b, out, r, [Put(text, 0)] + ys, doc);
      StepInsertAt(a, b, out, out', r, text, ys, doc);
    }
  }

  lemma StepInsertAt(a: ChangeSet, b: ChangeSet, out: ChangeSet, out': ChangeSet, r: Cursor, text: Text, ys: seq<Tok>,
                     doc: Text)
    requires a.Valid() && OnNew(a, r) && Progress(a, b, out, r, [Put(text, 0)] + ys, doc)
    requires Extends(out, out', false, 0, text)
    ensures Progress(a, b, out', r, ys, doc)
  {
    hide Run, Ahead;
    var p := OldPos(a, r);
    var rest := Ahead(a, r, doc[p..]);
    RunPut(text, 0, ys, rest);
    assert ExtendsAt(out, out', false, text, doc[..p], []);
    assert doc[..p] + [] == doc[..p];
    Assoc(out.Apply(doc[..p]), text, Run(ys, rest));
  }

  // ----- the same, at `b`'s iterator -----

  /** What `b` has ahead: the text of a change is made with its first piece. */
  ghost function AheadB(b: ChangeSet, o: Cursor): seq<Tok>
    requires OnOld(b, o)
  {
    Rest(b, o, o.off == 0)
  }

  ghost function HeadB(b: ChangeSet, o: Cursor, n: nat): seq<Tok>
    requires OnOld(b, o) && o.ins != DONE
  {
    if o.ins < 0 then Rep(Keep, n)
    else if o.off == 0 then [Put(TextOf(b, o), o.len)] + Rep(Drop, n)
    else Rep(Drop, n)
  }

  lemma AdvanceB(b: ChangeSet, o: Cursor, n: nat)
    requires b.Valid() && OnOld(b, o) && o.ins != DONE && n <= o.len && (n > 0 || o.len == 0)
    ensures OnOld(b, Advance(b, o, n)) && AheadB(b, o) == HeadB(b, o, n) + AheadB(b, Advance(b, o, n))
  {
    hide Rest, Rep, Advance;
    var o' := Advance(b, o, n);
    AdvancePlace(b, o, n);
    AdvanceOn(b, o, n);
    InsInRange(b, o);
    assert AheadB(b, o') == Rest(b, o', n == o.len);
    if o.ins < 0 {
      RestKeep(b, o, o.off == 0);
    } else if o.off == 0 {
      RestPut(b, o);
      Assoc([Put(TextOf(b, o), o.len)], Rep(Drop, n), AheadB(b, o'));
    }
  }

  lemma HeadTurns(b: ChangeSet, o: Cursor, n: nat)
    requires OnOld(b, o) && o.ins != DONE
    ensures Turns(HeadB(b, o, n), n, o.ins < 0, if o.off == 0 then TextOf(b, o) else [])
  {
    var head := HeadB(b, o, n);
    WidthRep(Keep, n);
    WidthRep(Drop, n);
    WidthConcat([Put(TextOf(b, o), o.len)], Rep(Drop, n));
    forall u: Text | |u| == n
      ensures Run(head, u) == if o.ins < 0 then u else if o.off == 0 then TextOf(b, o) else []
    {
      RunRep(Keep, n, u);
      RunRep(Drop, n, u);
      RunPut(TextOf(b, o), o.len, Rep(Drop, n), u);
    }
  }

  // ----- the algorithm -----

  /** The state at the head of the loop. */
  ghost predicate Level(a: ChangeSet, b: ChangeSet, out: ChangeSet, r: Cursor, o: Cursor)
  {
    && a.Valid() && OnNew(a, r) && b.Valid() && OnOld(b, o) && out.Valid()
    && NewPos(a, r) == Pos(b, o)
    && Going(a, b, out, r, AheadB(b, o))
  }

  /** One side is in the middle of a change. */
  predicate Mid(r: Cursor, o: Cursor) { InText(r) || InGap(o) }

  /** How the sections made so far are cut; `open` asks for the next change to be
      joined with the last one. */
  ghost predicate Cut(a: ChangeSet, b: ChangeSet, out: ChangeSet, r: Cursor, o: Cursor, open: bool)
  {
    && OnNew(a, r) && OnOld(b, o) && Tight(out.sections)
    && out.Length() == OldPos(a, r) && out.NewLength() == MadePos(b, o) && NewPos(a, r) == Pos(b, o)
    && Made(a, b, out, NewPos(a, r), Mid(r, o), open)
  }

  lemma CutOpen(a: ChangeSet, b: ChangeSet, out: ChangeSet, r: Cursor, o: Cursor, open: bool)
    requires Cut(a, b, out, r, o, open)
    ensures open ==> out.sections != [] && out.sections[|out.sections| - 1].ins >= 0 && Mid(r, o)
  {
    NotOpen(a, b, out, NewPos(a, r), Mid(r, o), open);
  }

  lemma Start(a: ChangeSet, b: ChangeSet)
    requires a.Valid() && b.Valid()
    ensures Level(a, b, ChangeSet([], []), Fetch(a, 0), Fetch(b, 0))
  {
    FetchOnNew(a, 0);
    Mapping.StartRest(b);
    var r, out := Fetch(a, 0), ChangeSet([], []);
    OldPosInRange(a, r);
    forall doc: Text | |doc| == a.Length() && a.NewLength() == b.Length()
      ensures Progress(a, b, out, r, b.Tokens(), doc)
    {
      StartProgress(a, b, doc);
    }
  }

  lemma StartProgress(a: ChangeSet, b: ChangeSet, doc: Text)
    requires a.Valid() && b.Valid() && |doc| == a.Length() && OnNew(a, Fetch(a, 0))
    requires OldPos(a, Fetch(a, 0)) == 0 && Cost(Fetch(a, 0)) <= |doc|
    ensures Progress(a, b, ChangeSet([], []), Fetch(a, 0), b.Tokens(), doc)
  {
    hide Run, OnNew, Fetch, Cost;
    FetchAhead(a, 0, doc);
    a.UptoFrom(0);
    Mapping.NothingMade(doc[..0]);
    assert [] + a.From(0) == a.From(0) && doc[0..] == doc;
  }

  /** What is recorded when both sides move over `n` characters. */
  function PieceLen(r: Cursor, n: nat): nat
  {
    if r.ins == -1 then n else if r.off > 0 then 0 else r.len
  }

  function PieceIns(r: Cursor, o: Cursor, n: nat): int
  {
    if o.ins == -1 then (if r.ins == -1 then -1 else n) else if o.off > 0 then 0 else o.ins
  }

  /** What the boundaries of both sides are like around a step. */
  lemma CrossBoth(a: ChangeSet, b: ChangeSet, s: Spot, r: Cursor, o: Cursor, n: nat)
    requires a.Valid() && b.Valid() && OnNew(a, r) && OnOld(b, o) && r.ins != DONE && o.ins != DONE
    requires 0 < n <= Len2(r) && n <= o.len && s == Spot(OldPos(a, r), NewPos(a, r), MadePos(b, o))
    requires NewPos(a, r) == Pos(b, o)
    ensures var r', o' := Advance2(a, r, n), Advance(b, o, n);
      && OnNew(a, r') && OnOld(b, o')
      && OldPos(a, r') == s.p + Passed(r, n) && NewPos(a, r') == Pos(b, o') == s.m + n
      && MadePos(b, o') == s.q + MadeWith(o, n)
      && Crossed(a, b, s, Spot(OldPos(a, r'), s.m + n, MadePos(b, o')), Mid(r, o), Mid(r', o'), r.ins == o.ins == -1)
  {
    hide Point, Passed, MadeWith;
    var r', o' := Advance2(a, r, n), Advance(b, o, n);
    AdvanceOnNew(a, r, n);
    AdvanceOn(b, o, n);
    AdvanceMade(b, o, n);
    var t := Spot(OldPos(a, r'), s.m + n, MadePos(b, o'));
    forall p: int, m: int, q: int | Common(a, b, p, m, q)
      ensures CrossedAt(s, t, Mid(r, o), Mid(r', o'), r.ins == o.ins == -1, Spot(p, m, q))
    {
      AroundNew(a, r, p, m);
      AroundOld(b, o, m, q);
      AroundNew(a, r', p, m);
      AroundOld(b, o', m, q);
      CrossNew(a, r, n, p, m);
      CrossOld(b, o, n, m, q);
    }
  }

  /** The places where two cursors stand are a boundary, unless one is in the
      middle of a change. */
  lemma HereCommon(a: ChangeSet, b: ChangeSet, r: Cursor, o: Cursor)
    requires a.Valid() && b.Valid() && OnNew(a, r) && OnOld(b, o) && NewPos(a, r) == Pos(b, o) && !Mid(r, o)
    ensures Common(a, b, OldPos(a, r), NewPos(a, r), MadePos(b, o))
  {
    hide Point;
    HereOnNew(a, r);
    HereOnOld(b, o);
  }

  lemma CutMoved(a: ChangeSet, b: ChangeSet, out: ChangeSet, out': ChangeSet, r: Cursor, o: Cursor, n: nat,
                 open: bool, open': bool)
    requires a.Valid() && b.Valid() && Cut(a, b, out, r, o, open) && r.ins != DONE && o.ins != DONE && r.ins != 0
    requires 0 < n <= Len2(r) && n <= o.len && r.ins >= -1 && o.ins >= -1
    requires open ==> Mid(r, o)
    requires var len, ins := PieceLen(r, n), PieceIns(r, o, n);
      && out'.sections == AddSection(out.sections, len, ins, open)
      && out'.Length() == out.Length() + len && out'.NewLength() == out.NewLength() + if ins < 0 then len else ins
    requires open' == ((r.ins > n || (o.ins >= 0 && o.len > n)) && (open || |out'.sections| > |out.sections|))
    ensures Cut(a, b, out', Advance2(a, r, n), Advance(b, o, n), open')
  {
    hide Made, Crossed, Common, Tight, AddSection;
    var r', o' := Advance2(a, r, n), Advance(b, o, n);
    var len, ins, m := PieceLen(r, n), PieceIns(r, o, n), NewPos(a, r);
    CrossBoth(a, b, EndOf(out, m), r, o, n);
    CutOpen(a, b, out, r, o, open);
    AddSectionTight(out.sections, len, ins, open);
    if !Mid(r', o') {
      HereCommon(a, b, r', o');
    }
    MadeStep(a, b, out, out', len, ins, m, m + n, Mid(r, o), Mid(r', o'), open, open');
  }

  /** `a` deletes here, and has nothing for `b` to work on. */
  lemma Deleted(a: ChangeSet, b: ChangeSet, out: ChangeSet, out': ChangeSet, r: Cursor, o: Cursor)
    requires Level(a, b, out, r, o) && r.ins == 0 && Extends(out, out', false, r.len, [])
    ensures Level(a, b, out', Fetch(a, r.i), o) && Todo(a, Fetch(a, r.i)) < Todo(a, r)
  {
    hide Going;
    assert [] + AheadB(b, o) == AheadB(b, o);
    AdvanceOnNew(a, r, 0);
    Step(a, b, out, out', r, 0, [], AheadB(b, o), false, []);
  }

  /** `b` inserts here, and has nothing of `a`'s to work on. */
  lemma Inserted(a: ChangeSet, b: ChangeSet, out: ChangeSet, out': ChangeSet, r: Cursor, o: Cursor)
    requires Level(a, b, out, r, o) && o.len == 0 && o.ins >= 0 && Extends(out, out', false, 0, TextOf(b, o))
    ensures Level(a, b, out', r, Fetch(b, o.i)) && Todo(b, Fetch(b, o.i)) < Todo(b, o)
  {
    hide Going;
    AdvanceOn(b, o, 0);
    AdvanceB(b, o, 0);
    assert HeadB(b, o, 0) == [Put(TextOf(b, o), 0)];
    StepInsert(a, b, out, out', r, TextOf(b, o), AheadB(b, Fetch(b, o.i)));
  }

  /** Both sides move over `n` characters of the middle document. */
  lemma Moved(a: ChangeSet, b: ChangeSet, out: ChangeSet, out': ChangeSet, r: Cursor, o: Cursor, n: nat)
    requires Level(a, b, out, r, o) && r.ins != DONE && o.ins != DONE && 0 < n <= Len2(r) && n <= o.len
    requires out'.Valid() && Records(a, r, n, o.ins < 0, if o.off == 0 then TextOf(b, o) else [], out, out')
    ensures var r', o' := Advance2(a, r, n), Advance(b, o, n);
      && Level(a, b, out', r', o') && Todo(a, r') <= Todo(a, r) && Todo(b, o') <= Todo(b, o)
      && (n == Len2(r) || n == o.len ==> Todo(a, r') + Todo(b, o') < Todo(a, r) + Todo(b, o))
  {
    hide Going, Records;
    AdvanceOn(b, o, n);
    AdvanceB(b, o, n);
    AdvanceOnNew(a, r, n);
    HeadTurns(b, o, n);
    Step(a, b, out, out', r, n, HeadB(b, o, n), AheadB(b, Advance(b, o, n)), o.ins < 0,
         if o.off == 0 then TextOf(b, o) else []);
  }

  /** The one change set that does what `a` and then `b` do. */
  ghost predicate Combines(a: ChangeSet, b: ChangeSet, c: ChangeSet)
  {
    && c.Valid() && c.Length() == a.Length() && c.NewLength() == b.NewLength()
    && forall doc: Text | |doc| == a.Length() :: c.Apply(doc) == b.Apply(a.Apply(doc))
  }

  lemma Finished(a: ChangeSet, b: ChangeSet, out: ChangeSet, r: Cursor, o: Cursor)
    requires Level(a, b, out, r, o) && r.ins == DONE && o.ins == DONE
    ensures a.NewLength() == b.Length() && Combines(a, b, out)
  {
    OldPosInRange(a, r);
    PosInRange(b, o);
    forall doc: Text | |doc| == a.Length()
      ensures out.Length() == a.Length() && out.Apply(doc) == b.Apply(a.Apply(doc))
    {
      assert Progress(a, b, out, r, [], doc);
      assert doc[..|doc|] == doc;
    }
    var doc: Text := seq(a.Length(), _ => ' ');
    a.NewLengthUpto(|a.sections|, doc);
    b.NewLengthUpto(|b.sections|, a.Apply(doc));
    out.NewLengthUpto(|out.sections|, doc);
  }

  /** One side is at its end and the other is not. */
  lemma Uneven(a: ChangeSet, b: ChangeSet, r: Cursor, o: Cursor)
    requires a.Valid() && OnNew(a, r) && b.Valid() && OnOld(b, o) && NewPos(a, r) == Pos(b, o)
    requires (r.ins == DONE && o.ins != DONE && o.len > 0) || (o.ins == DONE && r.ins != DONE && r.ins != 0)
    ensures a.NewLength() != b.Length()
  {
    OldPosInRange(a, r);
    PosInRange(b, o);
    NewUptoMonotone(a, r.i, |a.sections|);
  }

  lemma LevelFacts(a: ChangeSet, b: ChangeSet, out: ChangeSet, r: Cursor, o: Cursor)
    requires Level(a, b, out, r, o) && r.ins != DONE && o.ins != DONE
    ensures OnNew(a, r) && OnOld(b, o) && a.Valid() && b.Valid() && out.Valid()
    ensures r.ins >= -1 && o.ins >= -1 && (r.ins == -1 ==> r.len > 0)
    ensures r.ins > 0 ==> r.i <= |a.inserted| && r.off + r.ins == |a.inserted[r.i - 1]|
    ensures o.i > 0 && (o.ins >= 0 ==> |TextOf(b, o)| == o.ins)
  {
    assert a.ValidAt(r.i - 1) && b.ValidAt(o.i - 1);
  }

  lemma RecordsKeep(a: ChangeSet, r: Cursor, n: nat, text: Text, out: ChangeSet, out': ChangeSet)
    requires a.Valid() && OnNew(a, r) && r.ins == -1 && n <= r.len && Extends(out, out', true, n, [])
    ensures Records(a, r, n, true, text, out, out')
  {
  }

  lemma RecordsChange(a: ChangeSet, b: ChangeSet, r: Cursor, o: Cursor, n: nat, len: nat, text: Text,
                      out: ChangeSet, out': ChangeSet)
    requires a.Valid() && OnNew(a, r) && r.ins != DONE && r.ins != 0 && n <= Len2(r)
    requires OnOld(b, o) && o.ins >= -1 && !(r.ins == -1 && o.ins == -1)
    requires len == (if r.ins == -1 then n else if r.off > 0 then 0 else r.len)
    requires r.ins > 0 ==> r.i <= |a.inserted| && r.off + r.ins == |a.inserted[r.i - 1]|
    requires text == if o.ins == -1 then a.inserted[r.i - 1][r.off..r.off + n]
                     else if o.off > 0 then [] else TextOf(b, o)
    requires Extends(out, out', false, len, text)
    ensures Records(a, r, n, o.ins < 0, if o.off == 0 then TextOf(b, o) else [], out, out')
  {
    hide Extends;
  }

  lemma CrossDeleted(a: ChangeSet, b: ChangeSet, s: Spot, r: Cursor, o: Cursor)
    requires a.Valid() && b.Valid() && OnNew(a, r) && OnOld(b, o) && r.ins == 0 && NewPos(a, r) == Pos(b, o)
    requires s == Spot(OldPos(a, r), NewPos(a, r), MadePos(b, o))
    ensures Crossed(a, b, s, s.(p := s.p + r.len), Mid(r, o), Mid(Fetch(a, r.i), o), false)
  {
    hide Point;
    forall p: int, m: int, q: int | Common(a, b, p, m, q)
      ensures CrossedAt(s, s.(p := s.p + r.len), Mid(r, o), Mid(Fetch(a, r.i), o), false, Spot(p, m, q))
    {
      AroundNew(a, r, p, m);
      AroundOld(b, o, m, q);
    }
  }

  lemma CrossInserted(a: ChangeSet, b: ChangeSet, s: Spot, r: Cursor, o: Cursor)
    requires a.Valid() && b.Valid() && OnNew(a, r) && OnOld(b, o) && NewPos(a, r) == Pos(b, o)
    requires o.ins >= 0 && o.len == 0 && s == Spot(OldPos(a, r), NewPos(a, r), MadePos(b, o))
    ensures Crossed(a, b, s, s.(q := s.q + o.ins), Mid(r, o), Mid(r, Fetch(b, o.i)), false)
  {
    hide Point;
    forall p: int, m: int, q: int | Common(a, b, p, m, q)
      ensures CrossedAt(s, s.(q := s.q + o.ins), Mid(r, o), Mid(r, Fetch(b, o.i)), false, Spot(p, m, q))
    {
      AroundNew(a, r, p, m);
      AroundOld(b, o, m, q);
    }
  }

  /** `a` deletes here: nothing of the middle document is passed. */
  lemma CutDeleted(a: ChangeSet, b: ChangeSet, out: ChangeSet, out': ChangeSet, r: Cursor, o: Cursor, open: bool)
    requires a.Valid() && b.Valid() && Cut(a, b, out, r, o, open) && r.ins == 0 && (open ==> Mid(r, o))
    requires out'.sections == AddSection(out.sections, r.len, 0, open)
    requires out'.Length() == out.Length() + r.len && out'.NewLength() == out.NewLength()
    ensures Cut(a, b, out', Fetch(a, r.i), o, open)
  {
    hide Made, Crossed, Common, Tight, AddSection;
    var r', m := Fetch(a, r.i), NewPos(a, r);
    AdvanceOnNew(a, r, 0);
    CutOpen(a, b, out, r, o, open);
    AddSectionTight(out.sections, r.len, 0, open);
    CrossDeleted(a, b, EndOf(out, m), r, o);
    if !Mid(r', o) {
      HereCommon(a, b, r', o);
    }
    MadeStep(a, b, out, out', r.len, 0, m, m, Mid(r, o), Mid(r', o), open, open);
  }

  /** `b` only inserts here. */
  lemma CutInserted(a: ChangeSet, b: ChangeSet, out: ChangeSet, out': ChangeSet, r: Cursor, o: Cursor, open: bool)
    requires a.Valid() && b.Valid() && Cut(a, b, out, r, o, open) && o.len == 0 && o.ins >= 0
    requires open ==> Mid(r, o)
    requires out'.sections == AddSection(out.sections, 0, o.ins, open)
    requires out'.Length() == out.Length() && out'.NewLength() == out.NewLength() + o.ins
    ensures Cut(a, b, out', r, Fetch(b, o.i), open)
  {
    hide Made, Crossed, Common, Tight, AddSection;
    var o', m := Fetch(b, o.i), NewPos(a, r);
    AdvanceOn(b, o, 0);
    AdvanceMade(b, o, 0);
    CutOpen(a, b, out, r, o, open);
    AddSectionTight(out.sections, 0, o.ins, open);
    CrossInserted(a, b, EndOf(out, m), r, o);
    if !Mid(r, o') {
      HereCommon(a, b, r, o');
    }
    MadeStep(a, b, out, out', 0, o.ins, m, m, Mid(r, o), Mid(r, o'), open, open);
  }

  lemma CutStart(a: ChangeSet, b: ChangeSet)
    requires a.Valid() && b.Valid()
    ensures Cut(a, b, ChangeSet([], []), Fetch(a, 0), Fetch(b, 0), false)
  {
    FetchOnNew(a, 0);
    FetchOn(b, 0);
    FetchMade(b, 0);
    HereCommon(a, b, Fetch(a, 0), Fetch(b, 0));
  }

  /** The part of the loop where `b` works on something that `a` leaves. */
  method MoveBoth(a: ChangeSet, b: ChangeSet, r: SectionIter, o: SectionIter, out: ChangeSet, open: bool)
    returns (out': ChangeSet, open': bool)
    requires r != o && r.cs == a && o.cs == b
    requires Level(a, b, out, r.Here(), o.Here()) && Cut(a, b, out, r.Here(), o.Here(), open)
    requires r.ins != DONE && r.ins != 0 && o.ins != DONE && o.len > 0
    modifies r, o
    ensures Level(a, b, out', r.Here(), o.Here()) && Cut(a, b, out', r.Here(), o.Here(), open')
    ensures Todo(a, r.Here()) + Todo(b, o.Here()) < old(Todo(a, r.Here()) + Todo(b, o.Here()))
    ensures var n := if Len2(old(r.Here())) < old(o.len) then Len2(old(r.Here())) else old(o.len);
      && r.Here() == Advance2(a, old(r.Here()), n) && o.Here() == Advance(b, old(o.Here()), n)
      && out'.sections
           == AddSection(out.sections, PieceLen(old(r.Here()), n), old(PieceIns(r.Here(), o.Here(), n)), open)
      && open' == (Mid(r.Here(), o.Here()) && (open || |out'.sections| > |out.sections|))
  {
    hide Level, Extends, Records, OnNew, OnOld, Cut, PieceLen, PieceIns;
    ghost var c, d := r.Here(), o.Here();
    var n := if Len2(r.Here()) < o.len then Len2(r.Here()) else o.len;
    LevelFacts(a, b, out, c, d);
    CutOpen(a, b, out, c, d, open);
    out' := RecordBoth(a, b, r, o, out, open, n);
    open' := (r.ins > n || (o.ins >= 0 && o.len > n)) && (open || |out'.sections| > |out.sections|);
    Moved(a, b, out, out', c, d, n);
    CutMoved(a, b, out, out', c, d, n, open, open');
    r.Forward2(n);
    o.Forward(n);
  }

  /** What is recorded for the next `n` characters of the middle document. */
  method RecordBoth(a: ChangeSet, b: ChangeSet, r: SectionIter, o: SectionIter, out: ChangeSet, open: bool, n: nat)
    returns (out': ChangeSet)
    requires r.cs == a && o.cs == b && n <= Len2(r.Here()) && n <= o.len
    requires Level(a, b, out, r.Here(), o.Here()) && Cut(a, b, out, r.Here(), o.Here(), open)
    requires r.ins != DONE && r.ins != 0 && o.ins != DONE && o.len > 0
    ensures out'.Valid()
    ensures Records(a, r.Here(), n, o.ins < 0, if o.off == 0 then TextOf(b, o.Here()) else [], out, out')
    ensures var len, ins := PieceLen(r.Here(), n), PieceIns(r.Here(), o.Here(), n);
      && out'.sections == AddSection(out.sections, len, ins, open)
      && out'.Length() == out.Length() + len && out'.NewLength() == out.NewLength() + if ins < 0 then len else ins
  {
    hide Level, Extends, Records, OnNew, OnOld, Cut;
    ghost var c, d := r.Here(), o.Here();
    LevelFacts(a, b, out, c, d);
    CutOpen(a, b, out, c, d, open);
    if r.ins == -1 && o.ins == -1 {
      out' := Retain(out, n);
      RecordsKeep(a, c, n, if d.off == 0 then TextOf(b, d) else [], out, out');
      ExtendsLengths(out, out', true, n, []);
    } else {
      var len := if r.ins == -1 then n else if r.off > 0 then 0 else r.len;
      var text := if o.ins == -1 then r.TextBit(n) else if o.off > 0 then [] else o.Text();
      out' := Place(out, len, text, open);
      RecordsChange(a, b, c, d, n, len, text, out, out');
      ExtendsLengths(out, out', false, len, text);
    }
  }

  lemma ExtendsLengths(s: ChangeSet, t: ChangeSet, keep: bool, len: nat, text: Text)
    requires Extends(s, t, keep, len, text)
    ensures t.Length() == s.Length() + len && t.NewLength() == s.NewLength() + if keep then len else |text|
  {
  }

  /** The part of the loop where `a` has deleted something. */
  method MoveDeleted(a: ChangeSet, b: ChangeSet, r: SectionIter, o: SectionIter, out: ChangeSet, open: bool)
    returns (out': ChangeSet)
    requires r != o && r.cs == a && o.cs == b && r.ins == 0
    requires Level(a, b, out, r.Here(), o.Here()) && Cut(a, b, out, r.Here(), o.Here(), open)
    modifies r
    ensures Level(a, b, out', r.Here(), o.Here()) && Cut(a, b, out', r.Here(), o.Here(), open)
    ensures Todo(a, r.Here()) < old(Todo(a, r.Here()))
    ensures r.Here() == Fetch(a, old(r.i)) && out'.sections == AddSection(out.sections, old(r.len), 0, open)
  {
    hide Going, Extends, Rest, Cut;
    ghost var c, d := r.Here(), o.Here();
    CutOpen(a, b, out, c, d, open);
    out' := Place(out, r.len, [], open);
    ExtendsLengths(out, out', false, r.len, []);
    Deleted(a, b, out, out', c, d);
    CutDeleted(a, b, out, out', c, d, open);
    r.Next();
  }

  /** The part of the loop where `b` only inserts. */
  method MoveInserted(a: ChangeSet, b: ChangeSet, r: SectionIter, o: SectionIter, out: ChangeSet, open: bool)
    returns (out': ChangeSet)
    requires r != o && r.cs == a && o.cs == b && o.len == 0 && o.ins != DONE
    requires Level(a, b, out, r.Here(), o.Here()) && Cut(a, b, out, r.Here(), o.Here(), open)
    modifies o
    ensures Level(a, b, out', r.Here(), o.Here()) && Cut(a, b, out', r.Here(), o.Here(), open)
    ensures Todo(b, o.Here()) < old(Todo(b, o.Here()))
  {
    hide Going, Extends, Rest, Cut;
    ghost var c, d := r.Here(), o.Here();
    assert b.ValidAt(o.i - 1);
    CutOpen(a, b, out, c, d, open);
    out' := Place(out, 0, o.Text(), open);
    ExtendsLengths(out, out', false, 0, o.Text());
    Inserted(a, b, out, out', c, d);
    CutInserted(a, b, out, out', c, d, open);
    o.Next();
  }

  /** The sections made are as few as they can be, and replacements are cut where
      `a` and `b` both have a boundary. */
  method ComposeSets(a: ChangeSet, b: ChangeSet) returns (res: Outcome)
    requires a.Valid() && b.Valid()
    ensures res.Composed? <==> a.NewLength() == b.Length()
    ensures res.Composed? ==> Combines(a, b, res.changes)
    ensures res.Composed? ==> Tight(res.changes.sections) && CutWhereBoth(a, b, res.changes)
  {
    hide Going, Extends, Rest, Cut;
    var r := new SectionIter(a);
    var o := new SectionIter(b);
    var out := ChangeSet([], []);
    var open := false;
    Start(a, b);
    CutStart(a, b);
    while true
      invariant fresh(r) && fresh(o) && r != o && r.cs == a && o.cs == b
      invariant Level(a, b, out, r.Here(), o.Here()) && Cut(a, b, out, r.Here(), o.Here(), open)
      decreases Todo(a, r.Here()) + Todo(b, o.Here()), Len2(r.Here()) + o.len
    {
      ghost var c, d := r.Here(), o.Here();
      if r.Done() && o.Done() {
        Finished(a, b, out, c, d);
        CutFinished(a, b, out, c, d, open);
        return Composed(out);
      }
      if r.ins == 0 {
        out := MoveDeleted(a, b, r, o, out, open);
      } else if o.len == 0 && !o.Done() {
        out := MoveInserted(a, b, r, o, out, open);
      } else {
        if r.Done() || o.Done() {
          Uneven(a, b, c, d);
          return Mismatch;
        }
        out, open := MoveBoth(a, b, r, o, out, open);
      }
    }
  }

  /** Where the first of two changes only deletes, they may meet inside a change of
      `a`: this one deletes two characters, and puts two for three more; `b` deletes
      the first of those two. */
  predicate MeetingInside(a: ChangeSet, b: ChangeSet)
  {
    a.sections == [Section(2, 0), Section(3, 2)] && b.sections == [Section(1, 0), Section(1, -1)]
  }

  method MeetInside(a: ChangeSet, b: ChangeSet) returns (c: ChangeSet)
    requires a.Valid() && b.Valid() && MeetingInside(a, b)
    ensures Combines(a, b, c) && c.sections == [Section(5, 0), Section(0, 1)]
    ensures !Aligned(a, b, c.LenUpto(1), c.NewUpto(1))
  {
    hide Level, Cut, Combines, Aligned, Todo, PieceLen, PieceIns, AddSection, Fetch, Advance, Advance2, Len2;
    var r := new SectionIter(a);
    var o := new SectionIter(b);
    Start(a, b);
    CutStart(a, b);
    RoundsInside(a, b);
    c := MoveDeleted(a, b, r, o, ChangeSet([], []), false);
    var open;
    c, open := MoveBoth(a, b, r, o, c, false);
    c, open := MoveBoth(a, b, r, o, c, open);
    Finished(a, b, c, r.Here(), o.Here());
    NotAligned(a, b, c);
  }

  lemma RoundsInside(a: ChangeSet, b: ChangeSet)
    requires MeetingInside(a, b)
    ensures Fetch(a, 0) == Cursor(1, 2, 0, 0) && Fetch(a, 1) == Cursor(2, 3, 2, 0) && Fetch(b, 0) == Cursor(1, 1, 0, 0)
    ensures Len2(Cursor(2, 3, 2, 0)) == 2 && Len2(Cursor(2, 3, 1, 1)) == 1
    ensures AddSection([], 2, 0) == [Section(2, 0)]
    ensures Advance2(a, Cursor(2, 3, 2, 0), 1) == Cursor(2, 3, 1, 1)
    ensures Advance(b, Cursor(1, 1, 0, 0), 1) == Cursor(2, 1, -1, 0)
    ensures PieceLen(Cursor(2, 3, 2, 0), 1) == 3 && PieceIns(Cursor(2, 3, 2, 0), Cursor(1, 1, 0, 0), 1) == 0
    ensures AddSection([Section(2, 0)], 3, 0) == [Section(5, 0)]
    ensures Advance2(a, Cursor(2, 3, 1, 1), 1) == Cursor(2, 0, DONE, 0) == Advance(b, Cursor(2, 1, -1, 0), 1)
    ensures PieceLen(Cursor(2, 3, 1, 1), 1) == 0 && PieceIns(Cursor(2, 3, 1, 1), Cursor(2, 1, -1, 0), 1) == 1
    ensures AddSection([Section(5, 0)], 0, 1) == [Section(5, 0), Section(0, 1)]
  {
  }

  lemma NotAligned(a: ChangeSet, b: ChangeSet, c: ChangeSet)
    requires a.sections == [Section(2, 0), Section(3, 2)] && a.Valid()
    requires b.sections == [Section(1, 0), Section(1, -1)] && b.Valid()
    requires c.sections == [Section(5, 0), Section(0, 1)]
    ensures !Aligned(a, b, c.LenUpto(1), c.NewUpto(1))
  {
    assert c.LenUpto(1) == c.LenUpto(0) + 5 && c.NewUpto(1) == c.NewUpto(0) + 0;
    assert a.LenUpto(1) == a.LenUpto(0) + 2 && a.LenUpto(2) == a.LenUpto(1) + 3;
    assert a.NewUpto(1) == a.NewUpto(0) + 0 && a.NewUpto(2) == a.NewUpto(1) + 2;
    assert b.LenUpto(1) == b.LenUpto(0) + 1 && b.LenUpto(2) == b.LenUpto(1) + 1;
    assert b.NewUpto(1) == b.NewUpto(0) + 0 && b.NewUpto(2) == b.NewUpto(1) + 1;
    forall m: int ensures !Common(a, b, 5, m, 0) {
      if Common(a, b, 5, m, 0) {
        PointSide(a, 1, 5, m);
        PointSide(a, 2, 5, m);
        PointSide(b, 1, m, 0);
        PointSide(b, 2, m, 0);
        assert false;
      }
    }
  }

  lemma CutFinished(a: ChangeSet, b: ChangeSet, out: ChangeSet, r: Cursor, o: Cursor, open: bool)
    requires Cut(a, b, out, r, o, open)
    ensures Tight(out.sections) && CutWhereBoth(a, b, out)
  {
    hide CutWhereBoth;
  }

  /** Composing with a change set that changes nothing is not attempted. */
  method Compose(a: ChangeSet, b: ChangeSet) returns (res: Outcome)
    requires a.Valid() && b.Valid()
    ensures res.Composed? <==> a.NewLength() == b.Length() || a.Empty() || b.Empty()
    ensures a.NewLength() == b.Length() ==> Combines(a, b, res.changes)
    ensures res.Composed? && Tight(a.sections) && Tight(b.sections) ==> Tight(res.changes.sections)
  {
    if a.Empty() {
      ghost var doc0: Text := seq(a.Length(), _ => ' ');
      Mapping.EmptyDoesNothing(a, doc0);
      forall doc: Text | |doc| == a.Length() ensures a.Apply(doc) == doc {
        Mapping.EmptyDoesNothing(a, doc);
      }
      return Composed(b);
    }
    if b.Empty() {
      ghost var doc0: Text := seq(b.Length(), _ => ' ');
      Mapping.EmptyDoesNothing(b, doc0);
      forall doc: Text | |doc| == a.Length() && a.NewLength() == b.Length()
        ensures b.Apply(a.Apply(doc)) == a.Apply(doc)
      {
        a.NewLengthUpto(|a.sections|, doc);
        Mapping.EmptyDoesNothing(b, a.Apply(doc));
      }
      return Composed(a);
    }
    res := ComposeSets(a, b);
  }

  /** Two people edit the same document; each sends the other a change.  Both end
      with one change set for the whole story: both sets make the merged document. */
  method Reconcile(a: ChangeSet, b: ChangeSet) returns (left: ChangeSet, right: ChangeSet)
    requires a.Valid() && b.Valid() && a.Length() == b.Length()
    ensures left.Valid() && left.Length() == a.Length()
    ensures right.Valid() && right.Length() == a.Length()
    ensures left.NewLength() == right.NewLength()
    ensures forall doc: Text | |doc| == a.Length() :: left.Apply(doc) == right.Apply(doc)
    ensures forall doc: Text | |doc| == a.Length() :: left.Apply(doc) == Merge(a.Tokens(), b.Tokens(), doc, true)
  {
    var ab, ba := Mapping.Diamond(a, b);
    var l := Compose(a, ba);
    var r := Compose(b, ab);
    left, right := l.changes, r.changes;
    forall doc: Text | |doc| == a.Length() ensures right.Apply(doc) == Merge(a.Tokens(), b.Tokens(), doc, true) {
      assert Mapping.RebasedAt(a, b, true, ab, doc);
    }
  }
}
