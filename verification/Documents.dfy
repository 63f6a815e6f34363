/** Applying a change set to a document tree. */
module Documents {
  import opened Basics
  import opened Tokens
  import opened ChangeSets
  import Lines
  import opened Ropes
  import Editing
  import Replacing
  import Locations
  import Inversion

  /** A change set whose inserted texts are trees. */
  datatype TreeChanges = TreeChanges(sections: seq<Section>, inserted: seq<Rope>) {

    /** The same change set over plain text. */
    function View(): ChangeSet
    {
      ChangeSet(sections, Flats(inserted))
    }

    ghost predicate Valid()
    {
      View().Valid() && AllValid(inserted)
    }

    /** No inserted line holds a line break. */
    ghost predicate Tidy()
    {
      forall k :: 0 <= k < |inserted| ==> Clean(inserted[k])
    }

    /** Characters inserted by the first `k` sections. */
    function InsertedUpto(k: nat): nat
      requires k <= |sections|
    {
      if k == 0 then 0 else InsertedUpto(k - 1) + if sections[k - 1].ins < 0 then 0 else sections[k - 1].ins
    }
  }

  datatype Applied = Applied(doc: Rope) | WrongLength | PastLimit

  /** The document after the first `k` sections: what they make of their part,
      and the rest as it was. */
  ghost function Partly(cs: ChangeSet, doc: Text, k: nat): Text
    requires k <= |cs.sections| && |doc| == cs.Length()
  {
    cs.LenUptoMonotone(k, |cs.sections|);
    Run(cs.Upto(k), doc[..cs.LenUpto(k)]) + doc[cs.LenUpto(k)..]
  }

  lemma InsertedBounds(c: TreeChanges, j: nat, k: nat)
    requires c.Valid() && j <= k <= |c.sections|
    ensures var cs := c.View();
      && 0 <= cs.NewUpto(j) && c.InsertedUpto(j) <= c.InsertedUpto(k)
      && cs.NewUpto(k) - cs.NewUpto(j) <= c.InsertedUpto(k) - c.InsertedUpto(j) + cs.LenUpto(k) - cs.LenUpto(j)
      && cs.LenUpto(j) <= cs.LenUpto(k)
    decreases k
  {
    assert j > 0 ==> c.View().ValidAt(j - 1);
    if j < k {
      assert c.View().ValidAt(k - 1);
      InsertedBounds(c, j, k - 1);
    } else if j > 0 {
      InsertedBounds(c, j - 1, k - 1);
    }
  }

  /** One run of adjacent changes replaces one stretch of the document. */
  lemma ReplacesStretch(cs: ChangeSet, doc: Text, j: nat, k: nat, text: Text)
    requires cs.Valid() && |doc| == cs.Length() && j <= k <= |cs.sections|
    requires cs.LenUpto(j) <= cs.LenUpto(k) <= |doc|
    requires Run(cs.Upto(k), doc[..cs.LenUpto(k)]) == Run(cs.Upto(j), doc[..cs.LenUpto(j)]) + text
    ensures var from, len := cs.NewUpto(j), cs.LenUpto(k) - cs.LenUpto(j);
      && 0 <= from && from + len <= |Partly(cs, doc, j)|
      && Editing.Spliced(Partly(cs, doc, j), from, from + len, text) == Partly(cs, doc, k)
  {
    hide Run;
    var m, n := cs.LenUpto(j), cs.LenUpto(k);
    cs.NewLengthUpto(j, doc[..m]);
    StretchReplaced(Run(cs.Upto(j), doc[..m]), doc, m, n, text);
  }

  lemma StretchReplaced(made: Text, doc: Text, m: nat, n: nat, text: Text)
    requires m <= n <= |doc|
    ensures |made| + n - m <= |made + doc[m..]|
    ensures Editing.Spliced(made + doc[m..], |made|, |made| + n - m, text) == made + text + doc[n..]
  {
    var before := made + doc[m..];
    assert before[..|made|] == made && before[|made| + n - m..] == doc[n..];
  }

  /** A further change in the same run. */
  lemma RunGrows(cs: ChangeSet, doc: Text, j: nat, k: nat, text: Text)
    requires cs.Valid() && |doc| == cs.Length() && j <= k < |cs.sections| && cs.sections[k].ins >= 0
    requires cs.LenUpto(j) <= |doc| && cs.LenUpto(k) <= |doc|
    requires Run(cs.Upto(k), doc[..cs.LenUpto(k)]) == Run(cs.Upto(j), doc[..cs.LenUpto(j)]) + text
    ensures cs.LenUpto(k + 1) <= |doc|
    ensures Run(cs.Upto(k + 1), doc[..cs.LenUpto(k + 1)])
      == Run(cs.Upto(j), doc[..cs.LenUpto(j)]) + (text + cs.TextAt(k))
  {
    hide Run;
    Inversion.ApplyUpto(cs, doc, k);
    Assoc(Run(cs.Upto(j), doc[..cs.LenUpto(j)]), text, cs.TextAt(k));
  }

  /** The texts of a run of adjacent changes, put together; `past` reports one
      that is a single leaf past the bound of line copying. */
  method Gather(c: TreeChanges, j: nat, posA: nat, posB: int, ghost doc: Text)
    returns (k: nat, endA: nat, endB: int, text: Rope, past: bool)
    requires c.Valid() && |doc| == c.View().Length() && j < |c.sections| && c.sections[j].ins >= 0
    requires posA == c.View().LenUpto(j) && posB == c.View().NewUpto(j)
    ensures past ==> LongRun(c)
    ensures !past ==> j < k <= |c.sections| && endA == c.View().LenUpto(k) <= |doc| && endB == c.View().NewUpto(k)
    ensures !past ==> Valid(text) && |Flat(text)| <= c.InsertedUpto(k) - c.InsertedUpto(j)
    ensures !past ==> OnlyChanges(c, j, k)
    ensures c.View().LenUpto(j) <= |doc|
    ensures !past ==>
      Run(c.View().Upto(k), doc[..endA]) == Run(c.View().Upto(j), doc[..c.View().LenUpto(j)]) + Flat(text)
    ensures !past && c.Tidy() ==> Clean(text)
  {
    hide Run, Flat, Valid, LongRun, Gathered, Clean;
    k, endA, endB, text, past := j, posA, posB, Leaf([[]], 0), false;
    NothingGathered(c, j, doc);
    while true
      invariant j <= k < |c.sections| && c.sections[k].ins >= 0 && Valid(text) && Gathered(c, j, k, doc, Flat(text))
      invariant endA == c.View().LenUpto(k) && endB == c.View().NewUpto(k) && (c.Tidy() ==> Clean(text))
      decreases |c.sections| - k
    {
      endA, endB := endA + c.sections[k].len, endB + c.sections[k].ins;
      ghost var was := Flat(text);
      text, past := GatherOne(c, k, text);
      if past {
        OneMoreChange(c, k, k);
        RunIsLong(c, k, k + 1);
        GatheredFacts(c, j, k, doc, was);
        return;
      }
      GatheredOn(c, j, k, doc, was);
      k := k + 1;
      if k == |c.sections| || c.sections[k].ins < 0 {
        GatheredFacts(c, j, k, doc, Flat(text));
        return;
      }
    }
  }

  /** The changes from `j` up to `k` put `text` in. */
  ghost predicate Gathered(c: TreeChanges, j: nat, k: nat, doc: Text, text: Text)
    requires |doc| == c.View().Length()
  {
    var cs := c.View();
    && OnlyChanges(c, j, k) && cs.LenUpto(j) <= |doc| && cs.LenUpto(k) <= |doc|
    && |text| <= c.InsertedUpto(k) - c.InsertedUpto(j)
    && Run(cs.Upto(k), doc[..cs.LenUpto(k)]) == Run(cs.Upto(j), doc[..cs.LenUpto(j)]) + text
  }

  lemma GatheredFacts(c: TreeChanges, j: nat, k: nat, doc: Text, text: Text)
    requires |doc| == c.View().Length() && Gathered(c, j, k, doc, text)
    ensures var cs := c.View();
      && OnlyChanges(c, j, k) && cs.LenUpto(j) <= |doc| && cs.LenUpto(k) <= |doc|
      && |text| <= c.InsertedUpto(k) - c.InsertedUpto(j)
      && Run(cs.Upto(k), doc[..cs.LenUpto(k)]) == Run(cs.Upto(j), doc[..cs.LenUpto(j)]) + text
  {
  }

  lemma NothingGathered(c: TreeChanges, j: nat, doc: Text)
    requires c.Valid() && |doc| == c.View().Length() && j <= |c.sections|
    ensures Valid(Leaf([[]], 0)) && Clean(Leaf([[]], 0)) && Gathered(c, j, j, doc, Flat(Leaf([[]], 0)))
  {
    hide Run;
    EmptyText();
    InsertedBounds(c, j, |c.sections|);
    var made := Run(c.View().Upto(j), doc[..c.View().LenUpto(j)]);
    assert made + [] == made;
  }

  lemma GatheredOn(c: TreeChanges, j: nat, k: nat, doc: Text, text: Text)
    requires c.Valid() && |doc| == c.View().Length() && k < |c.sections| && c.sections[k].ins >= 0
    requires Gathered(c, j, k, doc, text)
    ensures Gathered(c, j, k + 1, doc, text + c.View().TextAt(k))
  {
    hide Run;
    assert c.View().ValidAt(k);
    RunGrows(c.View(), doc, j, k, text);
    OneMoreChange(c, j, k);
  }

  /** The text of one more change. */
  method GatherOne(c: TreeChanges, k: nat, text: Rope) returns (text': Rope, past: bool)
    requires c.Valid() && k < |c.sections| && c.sections[k].ins >= 0 && Valid(text)
    ensures past ==> c.sections[k].ins > Replacing.LIMIT
    ensures !past ==> Valid(text') && Flat(text') == Flat(text) + c.View().TextAt(k)
    ensures !past ==> |Flat(text')| == |Flat(text)| + c.sections[k].ins
    ensures !past && c.Tidy() && Clean(text) ==> Clean(text')
  {
    hide Flat, Valid, Clean;
    assert c.View().ValidAt(k);
    if c.sections[k].ins > 0 {
      ValidFacts(c.inserted[k]);
      var both := Replacing.Append(text, c.inserted[k]);
      if both.PastLimit? {
        return text, true;
      }
      return both.doc, false;
    }
    assert Flat(text) + c.View().TextAt(k) == Flat(text);
    return text, false;
  }

  /** The sections from `j` up to `k` are all changes. */
  ghost predicate OnlyChanges(c: TreeChanges, j: nat, k: nat)
  {
    j <= k <= |c.sections| && forall i :: j <= i < k ==> c.sections[i].ins >= 0
  }

  lemma OneMoreChange(c: TreeChanges, j: nat, k: nat)
    requires k < |c.sections| && c.sections[k].ins >= 0
    ensures OnlyChanges(c, k, k + 1) && (OnlyChanges(c, j, k) ==> OnlyChanges(c, j, k + 1))
  {
  }

  /** Some adjacent changes together insert more than line copying copies. */
  ghost predicate LongRun(c: TreeChanges)
  {
    exists j: nat, k: nat :: LongRunAt(c, j, k)
  }

  ghost predicate LongRunAt(c: TreeChanges, j: nat, k: nat)
  {
    && OnlyChanges(c, j, k)
    && c.InsertedUpto(k) - c.InsertedUpto(j) > Replacing.LIMIT
  }

  lemma RunIsLong(c: TreeChanges, j: nat, k: nat)
    requires LongRunAt(c, j, k)
    ensures LongRun(c)
  {
  }

  /** A document on the way, with some sections applied, in which at most 32
      consecutive lines are longer than line copying copies. */
  ghost predicate LongStretch(cs: ChangeSet, doc: Text)
    requires |doc| == cs.Length()
  {
    exists i: nat :: i <= |cs.sections| && LongStretchAt(cs, doc, i)
  }

  ghost predicate LongStretchAt(cs: ChangeSet, doc: Text, i: nat)
    requires |doc| == cs.Length() && i <= |cs.sections|
  {
    Replacing.LongLines(Locations.Split(Partly(cs, doc, i)))
  }

  /** A leaf past the bound holds the stretch: a clean tree has the lines of its text. */
  lemma LeafIsLong(cs: ChangeSet, doc: Text, i: nat, t: Rope)
    requires |doc| == cs.Length() && i <= |cs.sections|
    requires Valid(t) && Clean(t) && Flat(t) == Partly(cs, doc, i) && !Replacing.LeavesFit(t)
    ensures LongStretch(cs, doc)
  {
    ValidFacts(t);
    Replacing.LongLeafLines(t);
    hide Valid, Partly, Replacing.LongLines, Lines.NoBreaks;
    Locations.SplitIsUnique(AllLines(t));
    assert LongStretchAt(cs, doc, i);
  }

  /** The bound shows only through long lines of the document, or through a long
      text put in; and not at all where everything is short. */
  lemma PastMeansLong(c: TreeChanges, doc: Rope, i: nat, k: nat, t: Rope, text: Rope, from: int, to: int)
    requires c.Valid() && |Flat(doc)| == c.View().Length() && i <= k <= |c.sections| && Valid(doc)
    requires Valid(t) && Flat(t) == Partly(c.View(), Flat(doc), i) && Valid(text)
    requires OnlyChanges(c, i, k) && |Flat(text)| <= c.InsertedUpto(k) - c.InsertedUpto(i)
    requires !Replacing.Bounded(t, from, to, text)
    ensures LongRun(c) || (Clean(t) ==> LongStretch(c.View(), Flat(doc)))
    ensures doc.length + c.InsertedUpto(|c.sections|) > Replacing.LIMIT
  {
    hide Replacing.Bounded, LongRun, LongStretch, Partly, Flat, Valid, Clean;
    ValidFacts(text);
    ValidFacts(t);
    ValidFacts(doc);
    SizeInRange(c, doc, i, Flat(doc));
    InsertedBounds(c, 0, i);
    InsertedBounds(c, k, |c.sections|);
    if Replacing.LeavesFit(t) {
      if text.Leaf? ==> text.length <= Replacing.LIMIT {
        Replacing.FitIsBounded(t, from, to, text);
      }
      RunIsLong(c, i, k);
    } else {
      if t.length <= Replacing.LIMIT {
        Replacing.ShortFits(t);
      }
      if Clean(t) {
        LeafIsLong(c.View(), Flat(doc), i, t);
      }
    }
  }

  /** A long run is not in a short document and short insertions. */
  lemma ShortRuns(c: TreeChanges)
    requires c.Valid() && c.InsertedUpto(|c.sections|) <= Replacing.LIMIT
    ensures !LongRun(c)
  {
    forall j: nat, k: nat ensures !LongRunAt(c, j, k) {
      if j <= k <= |c.sections| {
        InsertedBounds(c, 0, j);
        InsertedBounds(c, k, |c.sections|);
      }
    }
  }

  /** Short documents and insertions never reach the bound. */
  lemma ShortIsSafe(c: TreeChanges, doc: Rope)
    requires c.Valid() && Valid(doc) && c.View().Length() == |Flat(doc)|
    requires doc.length + c.InsertedUpto(|c.sections|) <= Replacing.LIMIT
    ensures !LongRun(c) && !LongStretch(c.View(), Flat(doc))
  {
    hide Partly, Flat, Valid, Replacing.LongLines, LongRun;
    var cs, d := c.View(), Flat(doc);
    ValidFacts(doc);
    ShortRuns(c);
    forall i: nat | i <= |cs.sections| ensures !LongStretchAt(cs, d, i) {
      SizeInRange(c, doc, i, d);
      Locations.SplitJoins(Partly(cs, d, i));
      Replacing.ShortLines(Locations.Split(Partly(cs, d, i)));
    }
  }

  lemma EmptyText()
    ensures Valid(Leaf([[]], 0)) && Flat(Leaf([[]], 0)) == []
  {
  }

  /** Applying a change set, one run of adjacent changes after the other, makes
      the tree of the text that the change set means, and of its lines.  Only long
      lines of a document on the way, or a run of changes that inserts more than
      line copying copies, can spoil that. */
  method Apply(c: TreeChanges, doc: Rope) returns (r: Applied)
    requires c.Valid() && Valid(doc)
    ensures r.WrongLength? <==> c.View().Length() != |Flat(doc)|
    ensures r.Applied? ==> Valid(r.doc) && Flat(r.doc) == c.View().Apply(Flat(doc))
    ensures Clean(doc) && c.Tidy() && r.Applied? ==> AllLines(r.doc) == Locations.Split(c.View().Apply(Flat(doc)))
    ensures Clean(doc) && c.Tidy() && r.PastLimit? ==> LongRun(c) || LongStretch(c.View(), Flat(doc))
    ensures doc.length + c.InsertedUpto(|c.sections|) <= Replacing.LIMIT ==> !r.PastLimit?
  {
    hide Run, Flat, Valid, Partly, Clean, AllLines, LongRun, LongStretch;
    hide Editing.Spliced, Editing.Clamp, Replacing.Bounded;
    ghost var cs, d := c.View(), Flat(doc);
    ValidFacts(doc);
    if c.View().Length() != doc.length {
      return WrongLength;
    }
    if c.InsertedUpto(|c.sections|) <= Replacing.LIMIT {
      ShortRuns(c);
    }
    var posA: nat, posB, i, t := 0, 0, 0, doc;
    StartsPartly(cs, d);
    while i < |c.sections|
      invariant 0 <= i <= |c.sections|
      invariant posA == cs.LenUpto(i) <= |d| && posB == cs.NewUpto(i)
      invariant Valid(t) && Flat(t) == Partly(cs, d, i) && (Clean(doc) && c.Tidy() ==> Clean(t))
    {
      if c.sections[i].ins < 0 {
        KeptPartly(cs, d, i);
        posA, posB, i := posA + c.sections[i].len, posB + c.sections[i].len, i + 1;
      } else {
        var k, endA, endB, text, past := Gather(c, i, posA, posB, d);
        if past {
          return PastLimit;
        }
        InsertedBounds(c, i, k);
        ReplacesStretch(cs, d, i, k, Flat(text));
        ValidFacts(t);
        var done := Replacing.Replace(t, posB, posB + (endA - posA), text);
        ClampedAlready(t, posB, posB + (endA - posA));
        if done.PastLimit? {
          PastMeansLong(c, doc, i, k, t, text, posB, posB + (endA - posA));
          return PastLimit;
        }
        t := done.doc;
        posA, posB, i := endA, endB, k;
      }
    }
    EndsPartly(cs, d);
    CleanLines(t);
    return Applied(t);
  }

  /** A clean tree has the lines of its text. */
  lemma CleanLines(t: Rope)
    requires Valid(t)
    ensures Clean(t) ==> AllLines(t) == Locations.Split(Flat(t))
  {
    ValidFacts(t);
    hide Valid, Lines.NoBreaks;
    if Clean(t) {
      Locations.SplitIsUnique(AllLines(t));
    }
  }

  lemma ClampedAlready(t: Rope, from: int, to: int)
    requires 0 <= from <= to <= t.length
    ensures Editing.Clamp(t, from, to) == (from, to)
  {
  }

  lemma StartsPartly(cs: ChangeSet, doc: Text)
    requires |doc| == cs.Length()
    ensures Partly(cs, doc, 0) == doc
  {
    assert doc[0..] == doc && Run(cs.Upto(0), doc[..0]) == [];
  }

  lemma EndsPartly(cs: ChangeSet, doc: Text)
    requires |doc| == cs.Length()
    ensures Partly(cs, doc, |cs.sections|) == cs.Apply(doc)
  {
    hide Run;
    assert doc[|doc|..] == [] && doc[..|doc|] == doc;
    assert cs.Apply(doc) + [] == cs.Apply(doc);
  }

  lemma KeptPartly(cs: ChangeSet, doc: Text, i: nat)
    requires cs.Valid() && |doc| == cs.Length() && i < |cs.sections| && cs.sections[i].ins < 0
    ensures Partly(cs, doc, i + 1) == Partly(cs, doc, i) && cs.LenUpto(i + 1) <= |doc|
    ensures cs.NewUpto(i + 1) == cs.NewUpto(i) + cs.sections[i].len
  {
    hide Run;
    var m, n := cs.LenUpto(i), cs.LenUpto(i + 1);
    Inversion.ApplyUpto(cs, doc, i);
    assert doc[m..] == doc[m..n] + doc[n..];
    Assoc(Run(cs.Upto(i), doc[..m]), doc[m..n], doc[n..]);
  }

  /** The document never gets longer than the old one and all insertions. */
  lemma SizeInRange(c: TreeChanges, doc: Rope, i: nat, d: Text)
    requires c.Valid() && d == Flat(doc) && |d| == c.View().Length() && i <= |c.sections|
    ensures |Partly(c.View(), d, i)| <= |d| + c.InsertedUpto(i)
    ensures c.InsertedUpto(i) <= c.InsertedUpto(|c.sections|)
  {
    hide Run;
    var cs := c.View();
    InsertedBounds(c, 0, i);
    InsertedBounds(c, i, |c.sections|);
    cs.NewLengthUpto(i, d[..cs.LenUpto(i)]);
  }
}
