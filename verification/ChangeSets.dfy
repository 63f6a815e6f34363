/** Change sets as the editor stores them: a list of sections, each the length
  of a stretch of the old document and the length of what replaces it (-1 for
  "unchanged"), plus the inserted texts, aligned with the sections and cut off
  after the last one that inserts something.
 */
module ChangeSets {
  import opened Basics
  import opened Tokens

  datatype Section = Section(len: nat, ins: int)

  datatype ChangeSet = ChangeSet(sections: seq<Section>, inserted: seq<Text>) {

    /** The text of section `k`; sections past the end of `inserted` have none. */
    function TextAt(k: nat): Text
    {
      At(inserted, k)
    }

    /** Unchanged sections are not empty and carry no text; every other section
        carries a text of the announced length. */
    predicate ValidAt(k: nat)
      requires k < |sections|
    {
      var s := sections[k];
      if s.ins < 0 then s.ins == -1 && s.len > 0 && TextAt(k) == []
      else |TextAt(k)| == s.ins
    }

    ghost predicate Valid()
    {
      && |inserted| <= |sections|
      && forall k :: 0 <= k < |sections| ==> ValidAt(k)
    }

    /** Length of the stretch of old document covered by the first `k` sections. */
    function LenUpto(k: nat): nat
      requires k <= |sections|
    {
      if k == 0 then 0 else LenUpto(k - 1) + sections[k - 1].len
    }

    /** Length of what the first `k` sections leave. */
    function NewUpto(k: nat): int
      requires k <= |sections|
    {
      if k == 0 then 0
      else NewUpto(k - 1) + if sections[k - 1].ins < 0 then sections[k - 1].len else sections[k - 1].ins
    }

    function Length(): nat
    {
      LenUpto(|sections|)
    }

    function NewLength(): int
    {
      NewUpto(|sections|)
    }

    predicate Empty()
    {
      |sections| == 0 || (|sections| == 1 && sections[0].ins < 0)
    }

    function SectionToks(k: nat): seq<Tok>
      requires k < |sections|
    {
      Toks(sections[k], TextAt(k))
    }

    /** The tokens of the first `k` sections. */
    function Upto(k: nat): seq<Tok>
      requires k <= |sections|
    {
      if k == 0 then [] else Upto(k - 1) + SectionToks(k - 1)
    }

    /** The tokens of the sections from `k` on. */
    function From(k: nat): seq<Tok>
      requires k <= |sections|
      decreases |sections| - k
    {
      if k == |sections| then [] else SectionToks(k) + From(k + 1)
    }

    function Tokens(): seq<Tok>
    {
      Upto(|sections|)
    }

    /** The texts of the first `k` sections, one behind the other. */
    function Texts(k: nat): Text
      requires k <= |sections|
    {
      if k == 0 then [] else Texts(k - 1) + TextAt(k - 1)
    }

    /** All that the change set puts in. */
    function AllText(): Text
    {
      Texts(|sections|)
    }

    /** What the change set means: the document it makes out of `doc`. */
    function Apply(doc: Text): Text
    {
      Run(Tokens(), doc)
    }

    lemma {:induction false} UptoFrom(k: nat)
      requires k <= |sections|
      ensures Upto(k) + From(k) == Tokens()
      decreases |sections| - k
    {
      if k < |sections| {
        UptoFrom(k + 1);
        assert Upto(k) + (SectionToks(k) + From(k + 1)) == (Upto(k) + SectionToks(k)) + From(k + 1);
      } else {
        assert Upto(k) + [] == Upto(k);
      }
    }

    lemma {:induction false} WidthUpto(k: nat)
      requires k <= |sections|
      ensures Width(Upto(k)) == LenUpto(k)
    {
      if k > 0 {
        WidthUpto(k - 1);
        WidthToks(sections[k - 1], TextAt(k - 1));
        WidthConcat(Upto(k - 1), SectionToks(k - 1));
      }
    }

    lemma {:induction false} LenUptoMonotone(j: nat, k: nat)
      requires j <= k <= |sections|
      ensures LenUpto(j) <= LenUpto(k)
      decreases k
    {
      if j < k {
        LenUptoMonotone(j, k - 1);
      }
    }

    /** The new document has the announced length. */
    lemma {:induction false} NewLengthUpto(k: nat, doc: Text)
      requires Valid() && k <= |sections| && |doc| == LenUpto(k)
      ensures |Run(Upto(k), doc)| == NewUpto(k)
    {
      if k > 0 {
        var s := sections[k - 1];
        var m := LenUpto(k - 1);
        NewLengthUpto(k - 1, doc[..m]);
        WidthUpto(k - 1);
        RunConcat(Upto(k - 1), SectionToks(k - 1), doc[..m], doc[m..]);
        assert doc[..m] + doc[m..] == doc;
        RunToks(s, TextAt(k - 1), doc[m..]);
        assert ValidAt(k - 1);
      }
    }
  }

  function At(values: seq<Text>, k: nat): Text
  {
    if k < |values| then values[k] else []
  }

  /** The tokens of one section. */
  function Toks(s: Section, text: Text): seq<Tok>
  {
    if s.ins < 0 then Rep(Keep, s.len) else [Put(text, s.len)] + Rep(Drop, s.len)
  }

  lemma WidthToks(s: Section, text: Text)
    ensures Width(Toks(s, text)) == s.len
  {
    if s.ins < 0 {
      WidthRep(Keep, s.len);
    } else {
      WidthRep(Drop, s.len);
      WidthConcat([Put(text, s.len)], Rep(Drop, s.len));
    }
  }

  lemma RunToks(s: Section, text: Text, d: Text)
    requires |d| == s.len
    ensures Run(Toks(s, text), d) == if s.ins < 0 then d else text
  {
    if s.ins < 0 {
      RunRep(Keep, s.len, d);
    } else {
      RunRep(Drop, s.len, d);
      RunPut(text, s.len, Rep(Drop, s.len), d);
    }
  }

  // ----- building a change set section by section -----

  /** Append a section, joining it with the last one when both are unchanged,
      both only delete, or both only insert; `join` forces them together. */
  function AddSection(ss: seq<Section>, len: nat, ins: int, join: bool := false): seq<Section>
    requires join ==> ss != []
  {
    var last := |ss| - 1;
    if len == 0 && ins <= 0 then ss
    else if last >= 0 && ins <= 0 && ins == ss[last].ins then ss[last := Section(ss[last].len + len, ins)]
    else if last >= 0 && len == 0 && ss[last].len == 0 then ss[last := Section(0, ss[last].ins + ins)]
    else if join then ss[last := Section(ss[last].len + len, ss[last].ins + ins)]
    else ss + [Section(len, ins)]
  }

  /** Neither has `s` nothing to say, nor could it be one section with `t` in
      front of it: unchanged both, both only deleting, or both only inserting. */
  predicate Apart(t: Section, s: Section)
  {
    !(t.ins == -1 && s.ins == -1) && !(t.ins == 0 && s.ins == 0) && !(t.len == 0 && s.len == 0)
  }

  predicate Counts(s: Section)
  {
    s.ins >= -1 && (s.len > 0 || s.ins > 0)
  }

  /** The sections are as few as they can be. */
  ghost predicate Tight(ss: seq<Section>)
  {
    && (forall k :: 0 <= k < |ss| ==> Counts(ss[k]))
    && (forall k :: 0 < k < |ss| ==> Apart(ss[k - 1], ss[k]))
  }

  lemma NoneTight()
    ensures Tight([])
  {
  }

  lemma AddSectionTight(ss: seq<Section>, len: nat, ins: int, join: bool)
    requires Tight(ss) && ins >= -1 && (join ==> ss != [] && ss[|ss| - 1].ins >= 0 && ins >= 0)
    ensures Tight(AddSection(ss, len, ins, join))
  {
    var t, last := AddSection(ss, len, ins, join), |ss| - 1;
    forall k | 0 <= k < |t| ensures Counts(t[k]) {
      assert k < |ss| ==> Counts(ss[k]);
    }
    forall k | 0 < k < |t| ensures Apart(t[k - 1], t[k]) {
      assert k < |ss| ==> Apart(ss[k - 1], ss[k]);
      assert Counts(ss[k - 1]);
    }
  }

  predicate Changes(s: Section) { s.ins >= 0 }

  /** A tight change set that is not empty changes something. */
  lemma TightChanges(cs: ChangeSet)
    requires Tight(cs.sections)
    ensures !cs.Empty() <==> exists k :: 0 <= k < |cs.sections| && Changes(cs.sections[k])
  {
    if !cs.Empty() {
      assert Counts(cs.sections[0]);
      if |cs.sections| > 1 {
        assert Counts(cs.sections[1]) && Apart(cs.sections[1 - 1], cs.sections[1]);
        assert Changes(cs.sections[0]) || Changes(cs.sections[1]);
      } else {
        assert Changes(cs.sections[0]);
      }
    }
  }

  /** Give text to the last of `n` sections. */
  function WithText(values: seq<Text>, n: nat, text: Text): seq<Text>
    requires text != [] ==> n > 0
  {
    if text == [] then values
    else if n <= |values| then values[|values| - 1 := values[|values| - 1] + text]
    else values + seq(n - 1 - |values|, _ => []) + [text]
  }

  lemma WithTextAligned(values: seq<Text>, n: nat, text: Text)
    requires 0 < n && |values| <= n
    ensures var v := WithText(values, n, text);
      && |v| <= n
      && (forall j: nat :: j < n - 1 ==> At(v, j) == At(values, j))
      && At(v, n - 1) == At(values, n - 1) + text
  {
  }

  method AddInsert(values: seq<Text>, sections: seq<Section>, value: Text) returns (r: seq<Text>)
    requires value != [] ==> sections != []
    ensures r == WithText(values, |sections|, value)
  {
    if |value| == 0 {
      return values;
    }
    var index := |sections| - 1;
    if index < |values| {
      r := values[|values| - 1 := values[|values| - 1] + value];
    } else {
      r := values;
      while |r| < index
        invariant |values| <= |r| <= index
        invariant r == values + seq(|r| - |values|, _ => [])
      {
        r := r + [[]];
      }
      r := r + [value];
    }
  }

  /** `t` is `s` with its first `k` sections and texts untouched. */
  ghost predicate SameUpto(s: ChangeSet, t: ChangeSet, k: nat)
  {
    && k <= |s.sections| && k <= |t.sections|
    && forall j :: 0 <= j < k ==> s.sections[j] == t.sections[j] && s.TextAt(j) == t.TextAt(j)
  }

  lemma {:induction false} SameUptoAgrees(s: ChangeSet, t: ChangeSet, k: nat)
    requires SameUpto(s, t, k)
    ensures s.Upto(k) == t.Upto(k) && s.LenUpto(k) == t.LenUpto(k) && s.NewUpto(k) == t.NewUpto(k)
    decreases k
  {
    if k > 0 {
      SameUptoAgrees(s, t, k - 1);
    }
  }

  /** `t` means what `s` means, and then turns a further stretch of `len`
      characters into `text`, or leaves it if `keep`. */
  ghost predicate Extends(s: ChangeSet, t: ChangeSet, keep: bool, len: nat, text: Text)
  {
    && t.Valid()
    && t.Length() == s.Length() + len
    && t.NewLength() == s.NewLength() + (if keep then len else |text|)
    && forall d, e | |d| == s.Length() && |e| == len :: ExtendsAt(s, t, keep, text, d, e)
  }

  ghost predicate ExtendsAt(s: ChangeSet, t: ChangeSet, keep: bool, text: Text, d: Text, e: Text)
  {
    t.Apply(d + e) == s.Apply(d) + if keep then e else text
  }

  /** A section is appended. */
  lemma Appended(s: ChangeSet, t: ChangeSet, sec: Section, text: Text)
    requires s.Valid() && t.Valid()
    requires t.sections == s.sections + [sec] && SameUpto(s, t, |s.sections|) && t.TextAt(|s.sections|) == text
    ensures Extends(s, t, sec.ins < 0, sec.len, text)
  {
    var n := |s.sections|;
    SameUptoAgrees(s, t, n);
    assert t.ValidAt(n);
    s.WidthUpto(n);
    forall d: Text, e: Text | |d| == s.Length() && |e| == sec.len
      ensures ExtendsAt(s, t, sec.ins < 0, text, d, e)
    {
      RunConcat(s.Tokens(), Toks(sec, text), d, e);
      RunToks(sec, text, e);
    }
  }

  /** The last section, a change, grows by `len` and `text`. */
  lemma Grown(s: ChangeSet, t: ChangeSet, len: nat, text: Text)
    requires s.Valid() && t.Valid() && s.sections != []
    requires var n := |s.sections| - 1;
      && s.sections[n].ins >= 0 && SameUpto(s, t, n)
      && t.sections == s.sections[n := Section(s.sections[n].len + len, s.sections[n].ins + |text|)]
      && t.TextAt(n) == s.TextAt(n) + text
    ensures Extends(s, t, false, len, text)
  {
    var n := |s.sections| - 1;
    var sec, sec' := s.sections[n], t.sections[n];
    SameUptoAgrees(s, t, n);
    s.WidthUpto(n);
    forall d: Text, e: Text | |d| == s.Length() && |e| == len
      ensures ExtendsAt(s, t, false, text, d, e)
    {
      LastReplaced(s.Upto(n), sec, s.TextAt(n), sec', t.TextAt(n), d, e);
      Assoc(Run(s.Upto(n), d[..s.LenUpto(n)]), s.TextAt(n), text);
    }
  }

  /** The last section, unchanged, grows by `len`. */
  lemma KeptLonger(s: ChangeSet, t: ChangeSet, len: nat)
    requires s.Valid() && t.Valid() && s.sections != []
    requires var n := |s.sections| - 1;
      && s.sections[n].ins < 0 && SameUpto(s, t, n)
      && t.sections == s.sections[n := Section(s.sections[n].len + len, -1)]
    ensures Extends(s, t, true, len, [])
  {
    var n := |s.sections| - 1;
    var sec, sec' := s.sections[n], t.sections[n];
    SameUptoAgrees(s, t, n);
    s.WidthUpto(n);
    forall d: Text, e: Text | |d| == s.Length() && |e| == len
      ensures ExtendsAt(s, t, true, [], d, e)
    {
      LastReplaced(s.Upto(n), sec, s.TextAt(n), sec', t.TextAt(n), d, e);
      Assoc(Run(s.Upto(n), d[..s.LenUpto(n)]), d[s.LenUpto(n)..], e);
    }
  }

  /** What the tokens `ts` and one more section make of a document, with that
      section as it was and after it has grown over `e`. */
  lemma LastReplaced(ts: seq<Tok>, sec: Section, text: Text, sec': Section, text': Text, d: Text, e: Text)
    requires |d| == Width(ts) + sec.len && sec'.len == sec.len + |e|
    ensures var head, tail := d[..Width(ts)], d[Width(ts)..];
      && Run(ts + Toks(sec, text), d) == Run(ts, head) + (if sec.ins < 0 then tail else text)
      && Run(ts + Toks(sec', text'), d + e) == Run(ts, head) + (if sec'.ins < 0 then tail + e else text')
  {
    hide Run;
    var head, tail := d[..Width(ts)], d[Width(ts)..];
    assert d == head + tail;
    Assoc(head, tail, e);
    RunConcat(ts, Toks(sec, text), head, tail);
    RunConcat(ts, Toks(sec', text'), head, tail + e);
    RunToks(sec, text, tail);
    RunToks(sec', text', tail + e);
  }

  /** Appending an unchanged section. */
  lemma PushKeep(s: ChangeSet, len: nat)
    requires s.Valid()
    ensures Extends(s, ChangeSet(AddSection(s.sections, len, -1), s.inserted), true, len, [])
  {
    var t := ChangeSet(AddSection(s.sections, len, -1), s.inserted);
    var last := |s.sections| - 1;
    assert last >= 0 ==> s.ValidAt(last);
    if len == 0 {
      Unextended(s, true);
    } else if last >= 0 && s.sections[last].ins == -1 {
      assert forall k :: 0 <= k < last ==> s.ValidAt(k) ==> t.ValidAt(k);
      KeptLonger(s, t, len);
    } else {
      assert forall k :: 0 <= k <= last ==> s.ValidAt(k) ==> t.ValidAt(k);
      Appended(s, t, Section(len, -1), []);
    }
  }

  lemma Unextended(s: ChangeSet, keep: bool)
    requires s.Valid()
    ensures Extends(s, s, keep, 0, [])
  {
    forall d: Text, e: Text | |d| == s.Length() && |e| == 0
      ensures ExtendsAt(s, s, keep, [], d, e)
    {
      assert d + e == d;
    }
  }

  /** Appending a change; a forced join is sound only onto another change. */
  lemma PushChange(s: ChangeSet, len: nat, text: Text, join: bool)
    requires s.Valid()
    requires join ==> s.sections != [] && s.sections[|s.sections| - 1].ins >= 0
    ensures var ss := AddSection(s.sections, len, |text|, join);
      (text != [] ==> ss != []) && Extends(s, ChangeSet(ss, WithText(s.inserted, |ss|, text)), false, len, text)
  {
    hide Extends;
    if len == 0 && text == [] {
      Unextended(s, false);
    } else {
      var ss := AddSection(s.sections, len, |text|, join);
      var t := ChangeSet(ss, WithText(s.inserted, |ss|, text));
      PushedIsValid(s, len, text, join);
      if |ss| == |s.sections| {
        Grown(s, t, len, text);
      } else {
        Appended(s, t, Section(len, |text|), text);
      }
    }
  }

  /** The set with a change appended or joined on. */
  lemma PushedIsValid(s: ChangeSet, len: nat, text: Text, join: bool)
    requires s.Valid() && !(len == 0 && text == [])
    requires join ==> s.sections != [] && s.sections[|s.sections| - 1].ins >= 0
    ensures var ss := AddSection(s.sections, len, |text|, join);
      var t, last := ChangeSet(ss, WithText(s.inserted, |ss|, text)), |s.sections| - 1;
      && t.Valid() && ss != [] && SameUpto(s, t, |ss| - 1) && t.TextAt(|ss| - 1) == s.TextAt(|ss| - 1) + text
      && if |ss| == |s.sections|
         then s.sections[last].ins >= 0
              && ss == s.sections[last := Section(s.sections[last].len + len, s.sections[last].ins + |text|)]
         else ss == s.sections + [Section(len, |text|)] && s.TextAt(|ss| - 1) == []
  {
    var ss := AddSection(s.sections, len, |text|, join);
    var t := ChangeSet(ss, WithText(s.inserted, |ss|, text));
    assert s.sections != [] ==> s.ValidAt(|s.sections| - 1);
    hide AddSection, WithText;
    AddSectionIs(s.sections, len, text, join);
    WithTextAligned(s.inserted, |ss|, text);
    ValidBefore(s, t, |ss| - 1);
    assert t.ValidAt(|ss| - 1);
  }

  /** A change is joined onto a change, or stands by itself. */
  lemma AddSectionIs(ss: seq<Section>, len: nat, text: Text, join: bool)
    requires !(len == 0 && text == []) && (join ==> ss != [] && ss[|ss| - 1].ins >= 0)
    requires ss != [] && ss[|ss| - 1].ins < 0 ==> ss[|ss| - 1].len > 0
    ensures var t, last := AddSection(ss, len, |text|, join), |ss| - 1;
      if |t| == |ss|
      then ss != [] && ss[last].ins >= 0 && t == ss[last := Section(ss[last].len + len, ss[last].ins + |text|)]
      else t == ss + [Section(len, |text|)]
  {
  }

  lemma ValidBefore(s: ChangeSet, t: ChangeSet, k: nat)
    requires s.Valid() && SameUpto(s, t, k)
    ensures forall j :: 0 <= j < k ==> t.ValidAt(j)
  {
    forall j | 0 <= j < k ensures t.ValidAt(j) {
      assert s.ValidAt(j);
    }
  }

  lemma {:induction false} SameTexts(s: ChangeSet, t: ChangeSet, k: nat)
    requires k <= |s.sections| && k <= |t.sections| && forall j: nat :: j < k ==> s.TextAt(j) == t.TextAt(j)
    ensures s.Texts(k) == t.Texts(k)
  {
    if k > 0 {
      SameTexts(s, t, k - 1);
    }
  }

  /** Nothing is put in with an unchanged section. */
  lemma KeptTexts(s: ChangeSet, len: nat)
    requires s.Valid()
    ensures ChangeSet(AddSection(s.sections, len, -1), s.inserted).AllText() == s.AllText()
  {
    var t := ChangeSet(AddSection(s.sections, len, -1), s.inserted);
    SameTexts(s, t, |s.sections|);
    assert s.TextAt(|s.sections|) == [];
  }

  /** The text of a change comes last. */
  lemma PlacedTexts(s: ChangeSet, len: nat, text: Text, join: bool)
    requires s.Valid()
    requires join ==> s.sections != [] && s.sections[|s.sections| - 1].ins >= 0
    requires text != [] ==> AddSection(s.sections, len, |text|, join) != []
    ensures var ss := AddSection(s.sections, len, |text|, join);
      ChangeSet(ss, WithText(s.inserted, |ss|, text)).AllText() == s.AllText() + text
  {
    if len > 0 || text != [] {
      var ss := AddSection(s.sections, len, |text|, join);
      var t := ChangeSet(ss, WithText(s.inserted, |ss|, text));
      PushedIsValid(s, len, text, join);
      var n := |ss| - 1;
      SameTexts(s, t, n);
      hide AddSection, WithText;
      assert t.AllText() == t.Texts(n) + t.TextAt(n);
      Assoc(s.Texts(n), s.TextAt(n), text);
      if |ss| > |s.sections| {
        assert s.Texts(n) + [] == s.Texts(n);
      }
    }
  }

  /** Record an unchanged stretch. */
  method Retain(s: ChangeSet, len: nat) returns (t: ChangeSet)
    requires s.Valid()
    ensures t.Valid() && Extends(s, t, true, len, [])
    ensures t.sections == AddSection(s.sections, len, -1) && t.AllText() == s.AllText()
  {
    PushKeep(s, len);
    KeptTexts(s, len);
    t := ChangeSet(AddSection(s.sections, len, -1), s.inserted);
  }

  /** Record a change together with its text. */
  method Place(s: ChangeSet, len: nat, text: Text, join: bool) returns (t: ChangeSet)
    requires s.Valid()
    requires join ==> s.sections != [] && s.sections[|s.sections| - 1].ins >= 0
    ensures t.Valid() && Extends(s, t, false, len, text)
    ensures t.sections == AddSection(s.sections, len, |text|, join) && t.AllText() == s.AllText() + text
  {
    PushChange(s, len, text, join);
    PlacedTexts(s, len, text, join);
    var sections := AddSection(s.sections, len, |text|, join);
    var inserted := AddInsert(s.inserted, sections, text);
    t := ChangeSet(sections, inserted);
  }
}
