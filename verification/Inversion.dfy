/** Undoing a change set. */
module Inversion {
  import opened Basics
  import opened Tokens
  import opened ChangeSets

  /** A slice of the document, its ends pulled into range. */
  function Slice(doc: Text, from: int, to: int): (r: Text)
    ensures 0 <= from <= to <= |doc| ==> r == doc[from..to]
  {
    var f := if from < 0 then 0 else if from > |doc| then |doc| else from;
    var t := if to > |doc| then |doc| else to;
    doc[f..if t < f then f else t]
  }

  function Swap(s: Section): Section
  {
    if s.ins < 0 then s else Section(s.ins, s.len)
  }

  /** What the first `k` sections of the inverse look like: lengths swapped, and
      every changed section carries the old text of its place. */
  ghost predicate InvertedUpto(cs: ChangeSet, doc: Text, inv: ChangeSet, k: nat)
    requires |doc| == cs.Length() && k <= |cs.sections|
  {
    && |inv.sections| == |cs.sections|
    && forall j :: 0 <= j < k ==> InvertedAt(cs, doc, inv, j)
  }

  ghost predicate InvertedAt(cs: ChangeSet, doc: Text, inv: ChangeSet, j: nat)
    requires |doc| == cs.Length() && j < |cs.sections| && |inv.sections| == |cs.sections|
  {
    && inv.sections[j] == Swap(cs.sections[j])
    && inv.TextAt(j) == if cs.sections[j].ins < 0 then [] else Place(cs, doc, j)
  }

  /** The old text of section `j`. */
  ghost function Place(cs: ChangeSet, doc: Text, j: nat): (r: Text)
    requires |doc| == cs.Length() && j < |cs.sections|
    ensures |r| == cs.sections[j].len
  {
    cs.LenUptoMonotone(j + 1, |cs.sections|);
    doc[cs.LenUpto(j)..cs.LenUpto(j + 1)]
  }

  /** The new text of section `j`. */
  ghost function NewPlace(cs: ChangeSet, doc: Text, j: nat): Text
    requires |doc| == cs.Length() && j < |cs.sections|
  {
    if cs.sections[j].ins < 0 then Place(cs, doc, j) else cs.TextAt(j)
  }

  /** A section at a time: what is made of the first `k + 1` places. */
  lemma ApplyUpto(cs: ChangeSet, doc: Text, k: nat)
    requires |doc| == cs.Length() && k < |cs.sections|
    ensures cs.LenUpto(k + 1) <= |doc|
    ensures Run(cs.Upto(k + 1), doc[..cs.LenUpto(k + 1)])
         == Run(cs.Upto(k), doc[..cs.LenUpto(k)]) + NewPlace(cs, doc, k)
  {
    var m, n := cs.LenUpto(k), cs.LenUpto(k + 1);
    cs.LenUptoMonotone(k + 1, |cs.sections|);
    cs.WidthUpto(k);
    assert doc[..n] == doc[..m] + doc[m..n];
    RunConcat(cs.Upto(k), cs.SectionToks(k), doc[..m], doc[m..n]);
    RunToks(cs.sections[k], cs.TextAt(k), doc[m..n]);
  }

  lemma RunNothing(doc: Text)
    ensures Run([], doc) == []
  {
  }

  /** The first `k` sections of the inverse restore the first `k` places. */
  lemma {:induction false} RestoresUpto(cs: ChangeSet, doc: Text, inv: ChangeSet, k: nat)
    requires cs.Valid() && |doc| == cs.Length() && k <= |cs.sections| && InvertedUpto(cs, doc, inv, k)
    ensures cs.LenUpto(k) <= |doc|
    ensures inv.LenUpto(k) == cs.NewUpto(k) && inv.NewUpto(k) == cs.LenUpto(k)
    ensures Run(inv.Upto(k), Run(cs.Upto(k), doc[..cs.LenUpto(k)])) == doc[..cs.LenUpto(k)]
  {
    hide Run;
    cs.LenUptoMonotone(k, |cs.sections|);
    if k == 0 {
      RunNothing(doc[..0]);
      RunNothing([]);
    } else {
      var j := k - 1;
      var m := cs.LenUpto(j);
      RestoresUpto(cs, doc, inv, j);
      assert cs.ValidAt(j) && InvertedAt(cs, doc, inv, j);
      ApplyUpto(cs, doc, j);
      cs.NewLengthUpto(j, doc[..m]);
      RestoresPlace(cs, doc, inv, j, Run(cs.Upto(j), doc[..m]));
    }
  }

  /** One more section: its new text becomes its old one again. */
  lemma RestoresPlace(cs: ChangeSet, doc: Text, inv: ChangeSet, j: nat, before: Text)
    requires |doc| == cs.Length() && j < |cs.sections| && |inv.sections| == |cs.sections|
    requires cs.ValidAt(j) && InvertedAt(cs, doc, inv, j) && |before| == inv.LenUpto(j)
    requires cs.LenUpto(j) <= cs.LenUpto(j + 1) <= |doc| && Run(inv.Upto(j), before) == doc[..cs.LenUpto(j)]
    ensures Run(inv.Upto(j + 1), before + NewPlace(cs, doc, j)) == doc[..cs.LenUpto(j + 1)]
  {
    hide Run, InvertedAt, NewPlace;
    var m, n := cs.LenUpto(j), cs.LenUpto(j + 1);
    inv.WidthUpto(j);
    PlaceRestored(cs, doc, inv, j);
    RunConcat(inv.Upto(j), inv.SectionToks(j), before, NewPlace(cs, doc, j));
    assert doc[..n] == doc[..m] + doc[m..n];
  }

  lemma PlaceRestored(cs: ChangeSet, doc: Text, inv: ChangeSet, j: nat)
    requires |doc| == cs.Length() && j < |cs.sections| && |inv.sections| == |cs.sections|
    requires cs.ValidAt(j) && InvertedAt(cs, doc, inv, j)
    ensures Run(inv.SectionToks(j), NewPlace(cs, doc, j)) == Place(cs, doc, j)
  {
    hide Run;
    RunToks(inv.sections[j], inv.TextAt(j), NewPlace(cs, doc, j));
  }

  /** The inverse is a change set on the new document, and restores the old one. */
  ghost predicate Undoes(cs: ChangeSet, doc: Text, inv: ChangeSet)
    requires |doc| == cs.Length()
  {
    && inv.Valid()
    && inv.Length() == cs.NewLength() && inv.NewLength() == cs.Length()
    && inv.Apply(cs.Apply(doc)) == doc
  }

  lemma InvertedUndoes(cs: ChangeSet, doc: Text, inv: ChangeSet)
    requires cs.Valid() && |doc| == cs.Length() && InvertedUpto(cs, doc, inv, |cs.sections|)
    requires |inv.inserted| <= |inv.sections|
    ensures Undoes(cs, doc, inv)
  {
    hide Run;
    RestoresUpto(cs, doc, inv, |cs.sections|);
    assert doc[..|doc|] == doc;
    forall k | 0 <= k < |inv.sections| ensures inv.ValidAt(k) {
      assert cs.ValidAt(k) && InvertedAt(cs, doc, inv, k);
    }
  }

  method Invert(cs: ChangeSet, doc: Text) returns (inv: ChangeSet)
    requires cs.Valid()
    ensures |inv.inserted| <= |inv.sections|
    ensures |doc| == cs.Length() ==> InvertedUpto(cs, doc, inv, |cs.sections|) && Undoes(cs, doc, inv)
  {
    var sections, inserted := cs.sections, [];
    var pos := 0;
    for i := 0 to |sections|
      invariant |sections| == |cs.sections| && |inserted| <= i
      invariant forall j :: i <= j < |sections| ==> sections[j] == cs.sections[j]
      invariant pos == cs.LenUpto(i)
      invariant |doc| == cs.Length() ==> InvertedUpto(cs, doc, ChangeSet(sections, inserted), i)
    {
      ghost var was := ChangeSet(sections, inserted);
      var len, ins := sections[i].len, sections[i].ins;
      if ins >= 0 {
        sections := sections[i := Section(ins, len)];
        while |inserted| < i
          invariant |inserted| <= i
          invariant forall j: nat :: j < i ==> At(inserted, j) == was.TextAt(j)
        {
          inserted := inserted + [[]];
        }
        inserted := inserted + [if len > 0 then Slice(doc, pos, pos + len) else []];
      }
      if |doc| == cs.Length() {
        cs.LenUptoMonotone(i + 1, |cs.sections|);
        assert Place(cs, doc, i) == doc[pos..pos + len];
        forall j | 0 <= j <= i ensures InvertedAt(cs, doc, ChangeSet(sections, inserted), j) {
          assert j < i ==> InvertedAt(cs, doc, was, j);
        }
      }
      pos := pos + len;
    }
    inv := ChangeSet(sections, inserted);
    if |doc| == cs.Length() {
      InvertedUndoes(cs, doc, inv);
    }
  }

  /** In the new document, section `j`'s new text stands at its new place. */
  lemma {:induction false} NewPlaceIs(cs: ChangeSet, doc: Text, k: nat, j: nat)
    requires cs.Valid() && |doc| == cs.Length() && j < k <= |cs.sections|
    ensures cs.LenUpto(k) <= |doc|
    ensures var after := Run(cs.Upto(k), doc[..cs.LenUpto(k)]);
      && 0 <= cs.NewUpto(j) <= cs.NewUpto(j + 1) <= |after|
      && after[cs.NewUpto(j)..cs.NewUpto(j + 1)] == NewPlace(cs, doc, j)
    decreases k
  {
    hide Run;
    ApplyUpto(cs, doc, k - 1);
    cs.LenUptoMonotone(k - 1, |cs.sections|);
    var before := Run(cs.Upto(k - 1), doc[..cs.LenUpto(k - 1)]);
    cs.NewLengthUpto(k - 1, doc[..cs.LenUpto(k - 1)]);
    assert cs.ValidAt(k - 1);
    if j < k - 1 {
      NewPlaceIs(cs, doc, k - 1, j);
      InFront(before, NewPlace(cs, doc, k - 1), cs.NewUpto(j), cs.NewUpto(j + 1));
    } else {
      Behind(before, NewPlace(cs, doc, j));
    }
  }

  lemma InFront(a: Text, b: Text, m: nat, n: nat)
    requires m <= n <= |a|
    ensures (a + b)[m..n] == a[m..n]
  {
  }

  lemma Behind(a: Text, b: Text)
    ensures (a + b)[|a|..|a| + |b|] == b
  {
  }

  /** Undoing the undo gives back the change itself, section by section. */
  lemma DoubleInverse(cs: ChangeSet, doc: Text, inv: ChangeSet, back: ChangeSet)
    requires cs.Valid() && |doc| == cs.Length() && InvertedUpto(cs, doc, inv, |cs.sections|) && Undoes(cs, doc, inv)
    requires |cs.Apply(doc)| == inv.Length() && InvertedUpto(inv, cs.Apply(doc), back, |inv.sections|)
    ensures back.sections == cs.sections
    ensures forall k: nat :: k < |cs.sections| ==> back.TextAt(k) == cs.TextAt(k)
  {
    hide Run;
    forall k: nat | k < |cs.sections|
      ensures back.sections[k] == cs.sections[k] && back.TextAt(k) == cs.TextAt(k)
    {
      assert cs.ValidAt(k) && InvertedAt(cs, doc, inv, k) && InvertedAt(inv, cs.Apply(doc), back, k);
      assert doc[..|doc|] == doc;
      NewPlaceIs(cs, doc, |cs.sections|, k);
      RestoresUpto(cs, doc, inv, k);
      RestoresUpto(cs, doc, inv, k + 1);
    }
  }
}
