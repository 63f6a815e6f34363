/** What the bytes can ask of the mutator of seed scripts: any edit anywhere, and
  any run of edits.
 */
module Requests {
  import opened Basics
  import opened Bytes
  import opened Lines
  import opened Splicing
  import Locations

  // ----- where an edit puts what -----

  /** Where statement `p` of a list stands once the one at `at` is in front of it. */
  function Shifted(at: nat, p: nat): nat
  {
    if p < at then p else p + 1
  }

  predicate Kept(ss: seq<Line>, out: seq<Line>, p: nat, q: nat)
  {
    p < |ss| && q < |out| && out[q] == ss[p]
  }

  /** `s` stands at `at`, and everything else as before. */
  predicate PutAt(ss: seq<Line>, out: seq<Line>, at: nat, s: Line)
  {
    |out| == |ss| + 1 && at < |out| && out[at] == s && forall p :: 0 <= p < |ss| ==> Kept(ss, out, p, Shifted(at, p))
  }

  /** All but the statement at `i` stand as before. */
  predicate TakenFrom(ss: seq<Line>, out: seq<Line>, i: nat)
  {
    |out| == |ss| - 1 && forall q :: 0 <= q < |out| ==> Kept(ss, out, Shifted(i, q), q)
  }

  /** The statement at `i` stands at `at`, and all others in their order around it. */
  predicate MovedTo(ss: seq<Line>, out: seq<Line>, i: nat, at: nat)
    requires i < |ss|
  {
    && |out| == |ss| && at < |out| && out[at] == ss[i]
    && forall r :: 0 <= r < |ss| - 1 ==> Kept(ss, out, Shifted(i, r), Shifted(at, r))
  }

  lemma InsertPlaces(ss: seq<Line>, at: nat, s: Line)
    requires at <= |ss|
    ensures PutAt(ss, InsertAt(ss, at, s), at, s)
  {
  }

  lemma RemovePlaces(ss: seq<Line>, i: nat)
    requires i < |ss|
    ensures TakenFrom(ss, RemoveAt(ss, i), i)
  {
  }

  lemma MovePlaces(ss: seq<Line>, i: nat, at: nat)
    requires i < |ss| && at < |ss|
    ensures MovedTo(ss, InsertAt(RemoveAt(ss, i), at, ss[i]), i, at)
  {
    hide InsertAt, RemoveAt;
    var rest := RemoveAt(ss, i);
    RemovePlaces(ss, i);
    var out := InsertAt(rest, at, ss[i]);
    InsertPlaces(rest, at, ss[i]);
    forall r | 0 <= r < |ss| - 1 ensures Kept(ss, out, Shifted(i, r), Shifted(at, r)) {
      assert Kept(ss, rest, Shifted(i, r), r) && Kept(rest, out, r, Shifted(at, r));
    }
  }

  /** Which statement stands where after an edit. */
  lemma EditPlaces(e: Edit, ss: seq<Line>)
    requires Fits(e, |ss|)
    ensures var out := Edited(e, ss);
      match e
      case Duplicate(i) => PutAt(ss, out, i + 1, ss[i])
      case Delete(i) => TakenFrom(ss, out, i)
      case Swap(i, j) =>
        |out| == |ss| && out[i] == ss[j] && out[j] == ss[i]
        && forall p :: 0 <= p < |ss| && p != i && p != j ==> Kept(ss, out, p, p)
      case Move(i, at) => MovedTo(ss, out, i, at)
      case Insert(s, at) => PutAt(ss, out, at, s)
      case Wrap(i, w) =>
        |out| == |ss| && out[i] == Wrapped(w, ss[i]) && forall p :: 0 <= p < |ss| && p != i ==> Kept(ss, out, p, p)
      case Nothing => out == ss
  {
    hide InsertAt, RemoveAt, PutAt, TakenFrom, MovedTo, Wrapped;
    match e
    case Duplicate(i) => InsertPlaces(ss, i + 1, ss[i]);
    case Delete(i) => RemovePlaces(ss, i);
    case Move(i, at) => MovePlaces(ss, i, at);
    case Insert(s, at) => InsertPlaces(ss, at, s);
    case _ =>
  }

  function HeadOf(w: Wrapper): Line
  {
    match w
    case InDo => "do"
    case InIf => "if true then"
    case InFor => "for _spl=1,1 do"
  }

  /** A wrapping is a line in front and a line behind. */
  lemma WrapLines(w: Wrapper, s: Line)
    ensures Locations.Split(Wrapped(w, s)) == [HeadOf(w)] + Locations.Split(s) + ["end"]
  {
    hide Locations.Split;
    var ls := Locations.Split(s);
    Locations.SplitJoins(s);
    var all := [HeadOf(w)] + ls + ["end"];
    JoinedOne([HeadOf(w)]);
    JoinedConcat([HeadOf(w)], ls);
    JoinedPush([HeadOf(w)] + ls, "end");
    NoBreaksConcat([HeadOf(w)], ls);
    NoBreaksConcat([HeadOf(w)] + ls, ["end"]);
    Locations.SplitIsUnique(all);
    WrappedJoins(w, s);
  }

  lemma WrappedJoins(w: Wrapper, s: Line)
    ensures Wrapped(w, s) == HeadOf(w) + ['\n'] + s + ['\n'] + "end"
  {
    assert "\nend" == ['\n'] + "end";
    Assoc(HeadOf(w) + ['\n'] + s, ['\n'], "end");
  }

  // ----- every edit is asked for -----

  /** An edit of `n` statements that inserts, if anything, a statement of the corpus. */
  ghost predicate Askable(split: Line -> seq<Line>, corpus: seq<Line>, e: Edit, n: nat)
  {
    Fits(e, n) && !e.Nothing? && (e.Insert? ==> From(split, corpus, 0, e.s))
  }

  function AskIndex(i: nat, len: nat): seq<Byte>
  {
    AskNumber(i, if len <= 1 then 0 else len - 1)
  }

  lemma DrawsIndex(data: seq<Byte>, pos: nat, len: nat, i: nat)
    requires i < len && Has(data, pos, AskIndex(i, len))
    ensures DrawnIndex(data, pos, len) == (i, pos + |AskIndex(i, len)|)
  {
    hide Has, Drawn;
    if len <= 1 {
      assert AskNumber(0, 0) == [];
    } else {
      DrawsNumber(data, pos, 0, len - 1, i);
    }
  }

  function KindOf(e: Edit): nat
  {
    match e
    case Duplicate(_) => 0
    case Delete(_) => 1
    case Swap(_, _) => 2
    case Move(_, _) => 3
    case Insert(_, _) => 4
    case _ => 5
  }

  function WrapperNumber(w: Wrapper): nat
  {
    match w case InDo => 0 case InIf => 1 case InFor => 2
  }

  /** The bytes for all edits but insertions. */
  function AskChange(e: Edit, n: nat): seq<Byte>
  {
    match e
    case Duplicate(i) => AskIndex(i, n)
    case Delete(i) => AskIndex(i, n)
    case Swap(i, j) => AskIndex(i, n) + AskIndex(j, n)
    case Move(i, at) => AskIndex(i, n) + AskIndex(at, n)
    case Wrap(i, w) => AskIndex(i, n) + AskNumber(WrapperNumber(w), 2)
    case _ => []
  }

  lemma DrawsChange(data: seq<Byte>, pos: nat, e: Edit, n: nat)
    requires Fits(e, n) && !e.Insert? && !e.Nothing? && Has(data, pos, AskChange(e, n))
    ensures DrawnChange(data, pos, KindOf(e), n) == (e, pos + |AskChange(e, n)|)
  {
    hide Has, Drawn, DrawnIndex, AskIndex, AskNumber;
    match e
    case Duplicate(i) => DrawsIndex(data, pos, n, i);
    case Delete(i) => DrawsIndex(data, pos, n, i);
    case Swap(i, j) =>
      HasBoth(data, pos, AskIndex(i, n), AskIndex(j, n));
      DrawsIndex(data, pos, n, i);
      DrawsIndex(data, pos + |AskIndex(i, n)|, n, j);
    case Move(i, at) =>
      HasBoth(data, pos, AskIndex(i, n), AskIndex(at, n));
      DrawsIndex(data, pos, n, i);
      DrawsIndex(data, pos + |AskIndex(i, n)|, n, at);
    case Wrap(i, w) =>
      HasBoth(data, pos, AskIndex(i, n), AskNumber(WrapperNumber(w), 2));
      DrawsIndex(data, pos, n, i);
      DrawsNumber(data, pos + |AskIndex(i, n)|, 0, 2, WrapperNumber(w));
  }

  function AskInsert(c: nat, corpus: nat, k: nat, script: nat, at: nat, n: nat): seq<Byte>
    requires corpus > 0
  {
    AskNumber(c, corpus - 1) + (AskIndex(k, script) + AskIndex(at, n + 1))
  }

  lemma DrawsInsert(split: Line -> seq<Line>, corpus: seq<Line>, data: seq<Byte>, pos: nat, c: nat, k: nat, at: nat,
                    n: nat)
    requires c < |corpus| && k < |split(corpus[c])| && at <= n
    requires Has(data, pos, AskInsert(c, |corpus|, k, |split(corpus[c])|, at, n))
    ensures DrawnInsert(split, corpus, data, pos, n)
         == (Insert(split(corpus[c])[k], at), pos + |AskInsert(c, |corpus|, k, |split(corpus[c])|, at, n)|)
  {
    hide Has, Drawn, DrawnIndex, AskIndex, AskNumber;
    var script := split(corpus[c]);
    var a, b, d := AskNumber(c, |corpus| - 1), AskIndex(k, |script|), AskIndex(at, n + 1);
    HasBoth(data, pos, a, b + d);
    HasBoth(data, pos + |a|, b, d);
    DrawsNumber(data, pos, 0, |corpus| - 1, c);
    DrawsIndex(data, pos + |a|, |script|, k);
    DrawsIndex(data, pos + |a| + |b|, n + 1, at);
  }

  ghost predicate Asks(split: Line -> seq<Line>, corpus: seq<Line>, data: seq<Byte>, pos: nat, n: nat, e: Edit,
                       bytes: seq<Byte>)
    requires corpus != [] && n > 0
  {
    DrawnEdit(split, corpus, data, pos, n) == (e, pos + |bytes|)
  }

  /** Whatever stands around them, these bytes ask for this edit. */
  lemma EveryEdit(split: Line -> seq<Line>, corpus: seq<Line>, e: Edit, n: nat) returns (bytes: seq<Byte>)
    requires corpus != [] && n > 0 && Askable(split, corpus, e, n)
    ensures bytes != []
    ensures forall data: seq<Byte>, pos: nat | Has(data, pos, bytes) :: Asks(split, corpus, data, pos, n, e, bytes)
  {
    hide Has, Drawn, DrawnChange, DrawnInsert, AskChange, AskInsert, AskNumber;
    var c: nat, k: nat := 0, 0;
    if e.Insert? {
      c, k := Source(split, corpus, e.s);
    }
    var rest := if e.Insert? then AskInsert(c, |corpus|, k, |split(corpus[c])|, e.at, n) else AskChange(e, n);
    var kind := AskNumber(KindOf(e), 5);
    bytes := kind + rest;
    OneByteLong(KindOf(e));
    forall data: seq<Byte>, pos: nat | Has(data, pos, bytes) ensures Asks(split, corpus, data, pos, n, e, bytes) {
      HasBoth(data, pos, kind, rest);
      DrawsNumber(data, pos, 0, 5, KindOf(e));
      if e.Insert? {
        DrawsInsert(split, corpus, data, pos + |kind|, c, k, e.at, n);
      } else {
        DrawsChange(data, pos + |kind|, e, n);
      }
    }
  }

  lemma OneByteLong(v: nat)
    ensures |AskNumber(v, 5)| == 1
  {
    assert AskNumber(v / 256, 0) == [];
  }

  lemma Source(split: Line -> seq<Line>, corpus: seq<Line>, s: Line) returns (c: nat, k: nat)
    requires From(split, corpus, 0, s)
    ensures c < |corpus| && k < |split(corpus[c])| && s == split(corpus[c])[k]
  {
    var ws: seq<Wrapper>;
    ws, c, k :| IsFrom(split, corpus, 0, s, ws, c, k);
  }

  // ----- every run is asked for -----

  /** Edits made one after the other, each fitting what is then there. */
  ghost predicate Runs(split: Line -> seq<Line>, corpus: seq<Line>, es: seq<Edit>, ss: seq<Line>)
    decreases |es|
  {
    es != [] ==> ss != [] && Askable(split, corpus, es[0], |ss|) && Runs(split, corpus, es[1..], Edited(es[0], ss))
  }

  ghost function After(es: seq<Edit>, ss: seq<Line>): seq<Line>
    decreases |es|
  {
    if es == [] || !Fits(es[0], |ss|) then ss else After(es[1..], Edited(es[0], ss))
  }

  ghost predicate MutatesTo(split: Line -> seq<Line>, corpus: seq<Line>, data: seq<Byte>, pos: nat, k: nat,
                            ss: seq<Line>, out: seq<Line>)
    requires corpus != []
  {
    Mutated(split, corpus, data, pos, k, ss) == out
  }

  lemma {:induction false} RunBytes(split: Line -> seq<Line>, corpus: seq<Line>, es: seq<Edit>, ss: seq<Line>)
    returns (bytes: seq<Byte>)
    requires corpus != [] && Runs(split, corpus, es, ss)
    ensures forall data: seq<Byte>, pos: nat | Has(data, pos, bytes) ::
      MutatesTo(split, corpus, data, pos, |es|, ss, After(es, ss))
    decreases |es|
  {
    hide Has, DrawnEdit, Edited, Askable;
    if es == [] {
      bytes := [];
    } else {
      AskableFits(split, corpus, es[0], |ss|);
      var first := EveryEdit(split, corpus, es[0], |ss|);
      var rest := RunBytes(split, corpus, es[1..], Edited(es[0], ss));
      bytes := first + rest;
      forall data: seq<Byte>, pos: nat | Has(data, pos, bytes)
        ensures MutatesTo(split, corpus, data, pos, |es|, ss, After(es, ss))
      {
        HasBoth(data, pos, first, rest);
        HasInside(data, pos, first);
        assert Asks(split, corpus, data, pos, |ss|, es[0], first);
        var ss' := Edited(es[0], ss);
        assert MutatesTo(split, corpus, data, pos + |first|, |es| - 1, ss', After(es[1..], ss'));
      }
    }
  }

  lemma AskableFits(split: Line -> seq<Line>, corpus: seq<Line>, e: Edit, n: nat)
    requires Askable(split, corpus, e, n)
    ensures Fits(e, n)
  {
  }

  lemma HasInside(data: seq<Byte>, pos: nat, bytes: seq<Byte>)
    requires Has(data, pos, bytes) && bytes != []
    ensures pos < |data|
  {
  }

  /** Every run of at most 24 edits of any script of the corpus, whose insertions
      come from the corpus, is asked for by some bytes. */
  lemma EveryRun(split: Line -> seq<Line>, corpus: seq<Line>, c: nat, es: seq<Edit>) returns (data: seq<Byte>)
    requires c < |corpus| && split(corpus[c]) != [] && |es| <= MOST_EDITS
    requires Runs(split, corpus, es, split(corpus[c]))
    ensures var out := After(es, split(corpus[c]));
      Spliced(split, corpus, data) == Statements(if |out| > LONGEST then out[..LONGEST] else out)
  {
    hide Has, Drawn, AskNumber, Mutated, Runs, After;
    var rest := RunBytes(split, corpus, es, split(corpus[c]));
    var script, count := AskNumber(c, |corpus| - 1), AskNumber(|es|, MOST_EDITS);
    data := script + (count + rest);
    HasAll(data);
    HasBoth(data, 0, script, count + rest);
    HasBoth(data, |script|, count, rest);
    DrawsNumber(data, 0, 0, |corpus| - 1, c);
    DrawsNumber(data, |script|, 0, MOST_EDITS, |es|);
    assert MutatesTo(split, corpus, data, |script| + |count|, |es|, split(corpus[c]), After(es, split(corpus[c])));
  }

  lemma HasAll(data: seq<Byte>)
    ensures Has(data, 0, data)
  {
    assert data[0..0 + |data|] == data;
  }
}
