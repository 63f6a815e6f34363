/** The mutator of seed scripts: a byte-driven run of edits on a list of
  statements, with a cache of sliced scripts.
 */
module Splicing {
  import opened Basics
  import opened Bytes
  import opened Lines

  datatype Wrapper = InDo | InIf | InFor

  /** One edit of a list of statements. */
  datatype Edit =
    | Duplicate(i: nat)
    | Delete(i: nat)
    | Swap(i: nat, j: nat)
    | Move(i: nat, at: nat)
    | Insert(s: Line, at: nat)
    | Wrap(i: nat, w: Wrapper)
    | Nothing

  const LONGEST := 80
  const MOST_EDITS := 24

  // ----- edits -----

  /** The indices of an edit of `n` statements are in range. */
  predicate Fits(e: Edit, n: nat)
  {
    match e
    case Duplicate(i) => i < n
    case Delete(i) => i < n
    case Swap(i, j) => i < n && j < n
    case Move(i, at) => i < n && at < n
    case Insert(_, at) => at <= n
    case Wrap(i, _) => i < n
    case Nothing => true
  }

  function Wrapped(w: Wrapper, s: Line): Line
  {
    match w
    case InDo => "do\n" + s + "\nend"
    case InIf => "if true then\n" + s + "\nend"
    case InFor => "for _spl=1,1 do\n" + s + "\nend"
  }

  function InsertAt<T>(ss: seq<T>, at: nat, s: T): seq<T>
    requires at <= |ss|
  {
    ss[..at] + [s] + ss[at..]
  }

  function RemoveAt<T>(ss: seq<T>, i: nat): seq<T>
    requires i < |ss|
  {
    ss[..i] + ss[i + 1..]
  }

  function Edited(e: Edit, ss: seq<Line>): seq<Line>
    requires Fits(e, |ss|)
  {
    match e
    case Duplicate(i) => InsertAt(ss, i + 1, ss[i])
    case Delete(i) => RemoveAt(ss, i)
    case Swap(i, j) => ss[i := ss[j]][j := ss[i]]
    case Move(i, at) => InsertAt(RemoveAt(ss, i), at, ss[i])
    case Insert(s, at) => InsertAt(ss, at, s)
    case Wrap(i, w) => ss[i := Wrapped(w, ss[i])]
    case Nothing => ss
  }

  lemma RemoveCounts<T>(ss: seq<T>, i: nat)
    requires i < |ss|
    ensures multiset(RemoveAt(ss, i)) + multiset{ss[i]} == multiset(ss) && |RemoveAt(ss, i)| == |ss| - 1
  {
    assert ss == ss[..i] + [ss[i]] + ss[i + 1..];
  }

  lemma InsertCounts<T>(ss: seq<T>, at: nat, s: T)
    requires at <= |ss|
    ensures multiset(InsertAt(ss, at, s)) == multiset(ss) + multiset{s} && |InsertAt(ss, at, s)| == |ss| + 1
  {
    assert ss == ss[..at] + ss[at..];
  }

  /** What an edit adds to the statements and takes from them. */
  function Added(e: Edit, ss: seq<Line>): multiset<Line>
    requires Fits(e, |ss|)
  {
    match e
    case Duplicate(i) => multiset{ss[i]}
    case Insert(s, _) => multiset{s}
    case Wrap(i, w) => multiset{Wrapped(w, ss[i])}
    case _ => multiset{}
  }

  function Taken(e: Edit, ss: seq<Line>): multiset<Line>
    requires Fits(e, |ss|)
  {
    match e
    case Delete(i) => multiset{ss[i]}
    case Wrap(i, w) => multiset{ss[i]}
    case _ => multiset{}
  }

  lemma UpdateCounts<T>(ss: seq<T>, i: nat, s: T)
    requires i < |ss|
    ensures multiset(ss[i := s]) + multiset{ss[i]} == multiset(ss) + multiset{s}
  {
  }

  lemma SwapCounts<T>(ss: seq<T>, i: nat, j: nat)
    requires i < |ss| && j < |ss|
    ensures multiset(ss[i := ss[j]][j := ss[i]]) == multiset(ss)
  {
    UpdateCounts(ss, i, ss[j]);
    UpdateCounts(ss[i := ss[j]], j, ss[i]);
  }

  /** Nothing else comes or goes: a move or a swap only permutes. */
  lemma EditConserves(e: Edit, ss: seq<Line>)
    requires Fits(e, |ss|)
    ensures multiset(Edited(e, ss)) + Taken(e, ss) == multiset(ss) + Added(e, ss)
  {
    hide Wrapped, InsertAt, RemoveAt;
    match e
    case Duplicate(i) => InsertCounts(ss, i + 1, ss[i]);
    case Delete(i) => RemoveCounts(ss, i);
    case Swap(i, j) => SwapCounts(ss, i, j);
    case Move(i, at) =>
      RemoveCounts(ss, i);
      InsertCounts(RemoveAt(ss, i), at, ss[i]);
    case Insert(s, at) => InsertCounts(ss, at, s);
    case Wrap(i, w) => UpdateCounts(ss, i, Wrapped(w, ss[i]));
    case Nothing =>
  }

  /** An edit changes the count by at most one. */
  lemma EditCounts(e: Edit, ss: seq<Line>)
    requires Fits(e, |ss|)
    ensures |ss| - 1 <= |Edited(e, ss)| <= |ss| + 1
  {
  }

  // ----- where statements come from -----

  function WrappedIn(ws: seq<Wrapper>, s: Line): Line
  {
    if ws == [] then s else Wrapped(ws[|ws| - 1], WrappedIn(ws[..|ws| - 1], s))
  }

  /** A statement of some seed script, wrapped at most `depth` times. */
  ghost predicate From(split: Line -> seq<Line>, corpus: seq<Line>, depth: nat, s: Line)
  {
    exists ws: seq<Wrapper>, c: nat, k: nat :: IsFrom(split, corpus, depth, s, ws, c, k)
  }

  ghost predicate IsFrom(split: Line -> seq<Line>, corpus: seq<Line>, depth: nat, s: Line, ws: seq<Wrapper>, c: nat,
                         k: nat)
  {
    |ws| <= depth && c < |corpus| && k < |split(corpus[c])| && s == WrappedIn(ws, split(corpus[c])[k])
  }

  ghost predicate AllFrom(split: Line -> seq<Line>, corpus: seq<Line>, depth: nat, ss: seq<Line>)
  {
    forall i :: 0 <= i < |ss| ==> From(split, corpus, depth, ss[i])
  }

  lemma FromWeakens(split: Line -> seq<Line>, corpus: seq<Line>, depth: nat, s: Line)
    requires From(split, corpus, depth, s)
    ensures From(split, corpus, depth + 1, s)
  {
    var ws: seq<Wrapper>, c: nat, k: nat :| IsFrom(split, corpus, depth, s, ws, c, k);
    assert IsFrom(split, corpus, depth + 1, s, ws, c, k);
  }

  lemma FromWrapped(split: Line -> seq<Line>, corpus: seq<Line>, depth: nat, s: Line, w: Wrapper)
    requires From(split, corpus, depth, s)
    ensures From(split, corpus, depth + 1, Wrapped(w, s))
  {
    var ws: seq<Wrapper>, c: nat, k: nat :| IsFrom(split, corpus, depth, s, ws, c, k);
    var ws' := ws + [w];
    assert ws'[..|ws'| - 1] == ws;
    assert IsFrom(split, corpus, depth + 1, Wrapped(w, s), ws', c, k);
  }

  lemma SeedIsFrom(split: Line -> seq<Line>, corpus: seq<Line>, c: nat, k: nat, depth: nat)
    requires c < |corpus| && k < |split(corpus[c])|
    ensures From(split, corpus, depth, split(corpus[c])[k])
  {
    assert IsFrom(split, corpus, depth, split(corpus[c])[k], [], c, k);
  }

  /** Where a statement stood before an insertion or a removal; the inserted
      one comes from behind the end. */
  function InsertedFrom(at: nat, p: nat, n: nat): nat
  {
    if p < at then p else if p == at then n else p - 1
  }

  function RemovedFrom(i: nat, p: nat): nat
  {
    if p < i then p else p + 1
  }

  lemma InsertedAt<T>(ss: seq<T>, at: nat, s: T, p: nat)
    requires at <= |ss| && p <= |ss|
    ensures |InsertAt(ss, at, s)| == |ss| + 1
    ensures InsertAt(ss, at, s)[p] == if p == at then s else ss[InsertedFrom(at, p, |ss|)]
  {
  }

  lemma RemovedAt<T>(ss: seq<T>, i: nat, p: nat)
    requires i < |ss| && p < |ss| - 1
    ensures |RemoveAt(ss, i)| == |ss| - 1
    ensures RemoveAt(ss, i)[p] == ss[RemovedFrom(i, p)]
  {
  }

  lemma MovedAt<T>(ss: seq<T>, i: nat, at: nat, p: nat) returns (q: nat)
    requires i < |ss| && at < |ss| && p < |ss|
    ensures var moved := InsertAt(RemoveAt(ss, i), at, ss[i]); q < |ss| && |moved| == |ss| && moved[p] == ss[q]
  {
    InsertedAt(RemoveAt(ss, i), at, ss[i], p);
    q := i;
    if p != at {
      var r := InsertedFrom(at, p, |ss| - 1);
      RemovedAt(ss, i, r);
      q := RemovedFrom(i, r);
    }
  }

  /** Every statement after an edit stood there before, was inserted, or wraps
      one that stood there. */
  lemma EditedAt(e: Edit, ss: seq<Line>, p: nat) returns (q: nat)
    requires Fits(e, |ss|) && p < |Edited(e, ss)|
    ensures q <= |ss|
    ensures q < |ss| ==> Edited(e, ss)[p] == ss[q] || (e.Wrap? && Edited(e, ss)[p] == Wrapped(e.w, ss[q]))
    ensures q == |ss| ==> e.Insert? && Edited(e, ss)[p] == e.s
  {
    hide Wrapped, InsertAt, RemoveAt;
    EditCounts(e, ss);
    q := p;
    match e
    case Duplicate(i) =>
      InsertedAt(ss, i + 1, ss[i], p);
      q := if p == i + 1 then i else InsertedFrom(i + 1, p, |ss|);
    case Delete(i) =>
      RemoveCounts(ss, i);
      RemovedAt(ss, i, p);
      q := RemovedFrom(i, p);
    case Swap(i, j) => q := if p == j then i else if p == i then j else p;
    case Move(i, at) =>
      RemoveCounts(ss, i);
      InsertCounts(RemoveAt(ss, i), at, ss[i]);
      q := MovedAt(ss, i, at, p);
    case Insert(s, at) =>
      InsertedAt(ss, at, s, p);
      q := InsertedFrom(at, p, |ss|);
    case Wrap(_, _) =>
    case Nothing =>
  }

  lemma EditKeepsOrigin(split: Line -> seq<Line>, corpus: seq<Line>, depth: nat, e: Edit, ss: seq<Line>)
    requires Fits(e, |ss|) && AllFrom(split, corpus, depth, ss)
    requires e.Insert? ==> From(split, corpus, depth, e.s)
    ensures AllFrom(split, corpus, depth + 1, Edited(e, ss))
  {
    hide From, Edited, Wrapped;
    var out := Edited(e, ss);
    forall p | 0 <= p < |out| ensures From(split, corpus, depth + 1, out[p]) {
      var q := EditedAt(e, ss, p);
      if q == |ss| {
        FromWeakens(split, corpus, depth, e.s);
      } else {
        FromWeakens(split, corpus, depth, ss[q]);
        if e.Wrap? {
          FromWrapped(split, corpus, depth, ss[q], e.w);
        }
      }
    }
  }

  // ----- the run, without a cache -----

  /** An index into a list of `len` statements. */
  function DrawnIndex(data: seq<Byte>, pos: nat, len: nat): (r: (int, nat))
    ensures 0 <= r.0 && (r.0 < len || len == 0)
  {
    if len <= 1 then (0, pos) else Drawn(data, pos, 0, len - 1)
  }

  /** A statement of some script, and where it goes. */
  function DrawnInsert(split: Line -> seq<Line>, corpus: seq<Line>, data: seq<Byte>, pos: nat, n: nat): (Edit, nat)
    requires corpus != []
  {
    var (c, p1) := Drawn(data, pos, 0, |corpus| - 1);
    var other := split(corpus[c]);
    if other == [] then (Nothing, p1)
    else
      var (k, p2) := DrawnIndex(data, p1, |other|);
      var (at, p3) := DrawnIndex(data, p2, n + 1);
      (Insert(other[k], at), p3)
  }

  function WrapperOf(w: int): Wrapper
  {
    if w == 0 then InDo else if w == 1 then InIf else InFor
  }

  /** An edit of one of the statements there are. */
  function DrawnChange(data: seq<Byte>, pos: nat, kind: int, n: nat): (Edit, nat)
  {
    var (i, p1) := DrawnIndex(data, pos, n);
    if kind == 0 then (Duplicate(i), p1)
    else if kind == 1 then (Delete(i), p1)
    else if kind == 2 then
      var (j, p2) := DrawnIndex(data, p1, n);
      (Swap(i, j), p2)
    else if kind == 3 then
      var (at, p2) := DrawnIndex(data, p1, n);
      (Move(i, at), p2)
    else
      var (w, p2) := Drawn(data, p1, 0, 2);
      (Wrap(i, WrapperOf(w)), p2)
  }

  /** The edit that the bytes ask for when there are `n` statements. */
  function DrawnEdit(split: Line -> seq<Line>, corpus: seq<Line>, data: seq<Byte>, pos: nat, n: nat): (Edit, nat)
    requires corpus != [] && n > 0
  {
    var (kind, p) := Drawn(data, pos, 0, 5);
    if kind == 4 then DrawnInsert(split, corpus, data, p, n) else DrawnChange(data, p, kind, n)
  }

  lemma DrawnEditFits(split: Line -> seq<Line>, corpus: seq<Line>, data: seq<Byte>, pos: nat, n: nat, depth: nat)
    requires corpus != [] && n > 0
    ensures var e := DrawnEdit(split, corpus, data, pos, n).0;
      Fits(e, n) && (e.Insert? ==> From(split, corpus, depth, e.s))
  {
    hide Drawn, From;
    var (kind, p) := Drawn(data, pos, 0, 5);
    if kind == 4 {
      var (c, p1) := Drawn(data, p, 0, |corpus| - 1);
      var other := split(corpus[c]);
      if other != [] {
        SeedIsFrom(split, corpus, c, DrawnIndex(data, p1, |other|).0, depth);
      }
    }
  }

  /** At most `k` edits, as long as there are bytes and statements. */
  function Mutated(split: Line -> seq<Line>, corpus: seq<Line>, data: seq<Byte>, pos: nat, k: nat,
                   ss: seq<Line>): seq<Line>
    requires corpus != []
    decreases k
  {
    if k == 0 || pos >= |data| || ss == [] then ss
    else
      var (e, next) := DrawnEdit(split, corpus, data, pos, |ss|);
      DrawnEditFits(split, corpus, data, pos, |ss|, 0);
      Mutated(split, corpus, data, next, k - 1, Edited(e, ss))
  }

  /** Every run: the count changes by at most one per edit, and every statement
      is a seed statement wrapped no more often than there were edits. */
  lemma {:induction false} RunKeepsOrigin(
    split: Line -> seq<Line>, corpus: seq<Line>, data: seq<Byte>, pos: nat, k: nat, ss: seq<Line>, depth: nat)
    requires corpus != [] && AllFrom(split, corpus, depth, ss)
    ensures var out := Mutated(split, corpus, data, pos, k, ss);
      AllFrom(split, corpus, depth + k, out) && |ss| - k <= |out| <= |ss| + k
    decreases k
  {
    hide DrawnEdit, Edited, AllFrom;
    if k == 0 || pos >= |data| || ss == [] {
      AllFromWeakens(split, corpus, depth, k, ss);
    } else {
      var (e, next) := DrawnEdit(split, corpus, data, pos, |ss|);
      DrawnEditFits(split, corpus, data, pos, |ss|, depth);
      EditKeepsOrigin(split, corpus, depth, e, ss);
      EditCounts(e, ss);
      RunKeepsOrigin(split, corpus, data, next, k - 1, Edited(e, ss), depth + 1);
    }
  }

  lemma {:induction false} AllFromWeakens(split: Line -> seq<Line>, corpus: seq<Line>, depth: nat, k: nat,
                                          ss: seq<Line>)
    requires AllFrom(split, corpus, depth, ss)
    ensures AllFrom(split, corpus, depth + k, ss)
  {
    if k > 0 {
      AllFromWeakens(split, corpus, depth, k - 1, ss);
      forall i | 0 <= i < |ss| ensures From(split, corpus, depth + k, ss[i]) {
        FromWeakens(split, corpus, depth + k - 1, ss[i]);
      }
    }
  }

  datatype Output = Statements(ss: seq<Line>) | FromGrammar

  /** The whole mutator, slicing afresh every time. */
  function Spliced(split: Line -> seq<Line>, corpus: seq<Line>, data: seq<Byte>): Output
  {
    if corpus == [] then FromGrammar
    else
      var (c, p) := Drawn(data, 0, 0, |corpus| - 1);
      if split(corpus[c]) == [] then FromGrammar
      else
        var (k, p1) := Drawn(data, p, 0, MOST_EDITS);
        var out := Mutated(split, corpus, data, p1, k, split(corpus[c]));
        Statements(if |out| > LONGEST then out[..LONGEST] else out)
  }

  /** Whatever the bytes: at most 80 statements, each a statement of the corpus
      in at most 24 wrappings. */
  lemma SplicedOrigin(split: Line -> seq<Line>, corpus: seq<Line>, data: seq<Byte>)
    ensures var r := Spliced(split, corpus, data);
      r.Statements? ==> |r.ss| <= LONGEST && AllFrom(split, corpus, MOST_EDITS, r.ss)
  {
    hide Drawn, From, Mutated;
    if corpus != [] {
      var (c, p) := Drawn(data, 0, 0, |corpus| - 1);
      var seed := split(corpus[c]);
      if seed != [] {
        var (k, p1) := Drawn(data, p, 0, MOST_EDITS);
        forall i | 0 <= i < |seed| ensures From(split, corpus, 0, seed[i]) {
          SeedIsFrom(split, corpus, c, i, 0);
        }
        RunKeepsOrigin(split, corpus, data, p1, k, seed, 0);
        AllFromWeakens(split, corpus, k, MOST_EDITS - k, Mutated(split, corpus, data, p1, k, seed));
      }
    }
  }

  // ----- the run, with the cache -----

  /** Slices of seed scripts, kept from one input to the next. */
  class Slices {
    const split: Line -> seq<Line>
    const corpus: seq<Line>
    var known: map<nat, seq<Line>>

    ghost predicate Valid()
      reads this
    {
      forall c :: c in known ==> c < |corpus| && known[c] == split(corpus[c])
    }

    constructor (split: Line -> seq<Line>, corpus: seq<Line>)
      ensures Valid() && this.split == split && this.corpus == corpus
    {
      this.split := split;
      this.corpus := corpus;
      known := map[];
    }

    /** The slices of a script that the bytes pick, cut at most once. */
    method Pick(u: Choices) returns (ss: seq<Line>)
      requires Valid() && u.Valid() && corpus != []
      modifies this, u
      ensures Valid() && u.Valid()
      ensures var (c, p) := Drawn(u.data, old(u.pos), 0, |corpus| - 1);
        0 <= c < |corpus| && ss == split(corpus[c]) && u.pos == p
    {
      var c := u.InRange(0, |corpus| - 1);
      if c !in known {
        known := known[c := split(corpus[c])];
      }
      ss := known[c];
    }

    method PickIndex(u: Choices, len: nat) returns (i: nat)
      requires u.Valid()
      modifies u
      ensures u.Valid() && (i, u.pos) == DrawnIndex(u.data, old(u.pos), len)
      ensures i < len || (i == 0 && len == 0)
    {
      if len <= 1 {
        i := 0;
      } else {
        i := u.InRange(0, len - 1);
      }
    }

    /** Splice in a statement taken from another script. */
    method SpliceIn(u: Choices, stmts: seq<Line>) returns (out: seq<Line>)
      requires Valid() && u.Valid() && corpus != []
      modifies this, u
      ensures Valid() && u.Valid()
      ensures var (e, next) := DrawnInsert(split, corpus, u.data, old(u.pos), |stmts|);
        Fits(e, |stmts|) && out == Edited(e, stmts) && u.pos == next
    {
      hide Drawn, DrawnIndex, InsertAt;
      out := stmts;
      var other := Pick(u);
      if other != [] {
        var k := PickIndex(u, |other|);
        var at := PickIndex(u, |stmts| + 1);
        out := InsertAt(stmts, at, other[k]);
      }
    }

    /** Duplicate, delete, swap, move or wrap a statement. */
    method Change(u: Choices, kind: int, stmts: seq<Line>) returns (out: seq<Line>)
      requires u.Valid() && stmts != []
      modifies u
      ensures u.Valid()
      ensures var (e, next) := DrawnChange(u.data, old(u.pos), kind, |stmts|);
        Fits(e, |stmts|) && out == Edited(e, stmts) && u.pos == next
    {
      hide Drawn, DrawnIndex, InsertAt, Wrapped;
      var i := PickIndex(u, |stmts|);
      if kind == 0 {
        out := InsertAt(stmts, Min(i + 1, |stmts|), stmts[i]);
      } else if kind == 1 {
        out := RemoveAt(stmts, i);
      } else if kind == 2 {
        var j := PickIndex(u, |stmts|);
        out := stmts[i := stmts[j]][j := stmts[i]];
      } else if kind == 3 {
        var rest := RemoveAt(stmts, i);
        var at := PickIndex(u, |rest| + 1);
        out := InsertAt(rest, at, stmts[i]);
      } else {
        var w := u.InRange(0, 2);
        out := stmts[i := Wrapped(WrapperOf(w), stmts[i])];
      }
    }

    /** One edit. */
    method Step(u: Choices, stmts: seq<Line>) returns (out: seq<Line>)
      requires Valid() && u.Valid() && corpus != [] && stmts != []
      modifies this, u
      ensures Valid() && u.Valid()
      ensures var (e, next) := DrawnEdit(split, corpus, u.data, old(u.pos), |stmts|);
        Fits(e, |stmts|) && out == Edited(e, stmts) && u.pos == next
    {
      hide Drawn, DrawnInsert, DrawnChange, Edited;
      var kind := u.InRange(0, 5);
      if kind == 4 {
        out := SpliceIn(u, stmts);
      } else {
        out := Change(u, kind, stmts);
      }
    }

    /** With whatever the cache holds, the output is that of slicing afresh. */
    method Splice(data: seq<Byte>) returns (r: Output)
      requires Valid()
      modifies this
      ensures Valid() && r == Spliced(split, corpus, data)
    {
      hide Drawn, DrawnEdit, Edited;
      if corpus == [] {
        return FromGrammar;
      }
      var u := new Choices(data);
      var stmts := Pick(u);
      if stmts == [] {
        return FromGrammar;
      }
      var k := u.InRange(0, MOST_EDITS);
      ghost var whole := Mutated(split, corpus, data, u.pos, k, stmts);
      while k > 0 && u.Left() > 0 && stmts != []
        invariant Valid() && u.Valid() && fresh(u) && u.data == data && k >= 0
        invariant Mutated(split, corpus, data, u.pos, k, stmts) == whole
      {
        stmts := Step(u, stmts);
        k := k - 1;
      }
      if |stmts| > LONGEST {
        stmts := stmts[..LONGEST];
      }
      r := Statements(stmts);
    }
  }
}
