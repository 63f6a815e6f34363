/** Which programs of library calls can be made: exactly those whose values, calls
  and counts are within the bounds of the generator, each by some bytes.
 */
module ApiCoverage {
  import opened Bytes
  import opened ApiCalls

  // ----- the bytes that ask for a value -----

  function Nat(n: int): nat
  {
    if n < 0 then 0 else n
  }

  /** Where a kind of values stands among them. */
  function KindNumber(k: Kind): nat
  {
    match k
    case Str => 1
    case Bool => 2
    case Tbl => 3
    case Fn => 4
    case Buf => 5
    case Vec => 6
    case _ => 0
  }

  const LEAST := -0x8000_0000_0000_0000
  const MOST := 0x7fff_ffff_ffff_ffff

  function AskNum(v: Value): seq<Byte>
    requires v.Number?
  {
    if v.curated then AskNumber(0, 1) + AskNumber(Nat(v.n), 19)
    else AskNumber(1, 1) + AskNumber(Nat(v.n - LEAST), MOST - LEAST)
  }

  function AskChr(c: Chr): seq<Byte>
  {
    match c
    case Printable(x) => AskNumber(0, 3) + AskNumber(Nat(x - 32), 94)
    case Meaningful(i) => AskNumber(1, 3) + AskNumber(Nat(i), 63)
  }

  function AskChrs(cs: seq<Chr>): seq<Byte>
  {
    if cs == [] then [] else AskChrs(cs[..|cs| - 1]) + AskChr(cs[|cs| - 1])
  }

  function AskKind(k: Kind): seq<Byte>
  {
    AskNumber(KindNumber(k), 6)
  }

  function AskKey(v: Value): seq<Byte>
  {
    match v
    case Stock(i) => AskNumber(1, 2) + AskNumber(Nat(i), 7)
    case Flag(b) => AskNumber(2, 2) + AskNumber(if b then 0 else 1, 1)
    case Number(_, n) => AskNumber(0, 2) + AskNumber(Nat(n), 19)
    case _ => []
  }

  function AskMeta(m: Meta): seq<Byte>
  {
    match m
    case NoMeta => AskNumber(1, 4)
    case Throws => AskNumber(0, 4) + AskNumber(0, 2)
    case Gives(v) => AskNumber(0, 4) + (AskNumber(1, 2) + if v.Number? then AskNum(v) else [])
  }

  function AskValue(v: Value): seq<Byte>
    decreases v, 0
  {
    match v
    case Number(_, _) => AskNum(v)
    case Stock(i) => AskNumber(0, 1) + AskNumber(Nat(i), 7)
    case Text(cs) => AskNumber(1, 1) + (AskNumber(|cs|, 24) + AskChrs(cs))
    case Flag(b) => AskNumber(if b then 0 else 1, 1)
    case Buffer(shape, n) => AskNumber(Nat(shape), 2) + AskNumber(Nat(n), Nat(MostOf(shape)))
    case Vector(n) => AskNumber(Nat(n), 3)
    case FlatTable(n) => AskNumber(Nat(n), 2)
    case Table(fs, m) => AskNumber(|fs|, 4) + (AskFields(fs) + AskMeta(m))
    case Function(shape, n, results) =>
      AskNumber(Nat(shape), 4) +
        (if shape == 1 && results != [] then AskKind(KindOf(results[0])) + AskValue(results[0])
         else if shape == 2 then AskNumber(Nat(n), 4) else [])
    case _ => []
  }

  function AskField(f: Field): seq<Byte>
    decreases f, 0
  {
    match f
    case Item(v) => AskKind(KindOf(v)) + (AskNumber(1, 2) + AskValue(v))
    case Keyed(key, v) => AskKind(KindOf(v)) + (AskNumber(0, 2) + (AskKey(key) + AskValue(v)))
  }

  function AskFields(fs: seq<Field>): seq<Byte>
    decreases fs, 0
  {
    if fs == [] then [] else AskFields(fs[..|fs| - 1]) + AskField(fs[|fs| - 1])
  }

  function AskFor(k: Kind, v: Value): seq<Byte>
  {
    match k
    case Idx => AskNumber(1, 1) + if v.Small? then AskNumber(Nat(v.n + LIMIT), 2 * LIMIT) else []
    case Any => AskAny(v)
    case VarAny => AskAny(v)
    case _ => AskValue(v)
  }

  function AskAny(v: Value): seq<Byte>
  {
    if v.Nil? then AskNumber(0, 5) else AskNumber(1, 5) + (AskKind(KindOf(v)) + AskValue(v))
  }

  // ----- every value is drawn -----

  lemma CoverNumber(data: seq<Byte>, pos: nat, v: Value)
    requires PossibleNumber(v) && Has(data, pos, AskNum(v))
    ensures DrawNumber(data, pos) == (v, pos + |AskNum(v)|)
  {
    hide Has, Drawn, AskNumber;
    if v.curated {
      HasBoth(data, pos, AskNumber(0, 1), AskNumber(v.n, 19));
      DrawsNumber(data, pos, 0, 1, 0);
      DrawsNumber(data, pos + |AskNumber(0, 1)|, 0, 19, v.n);
    } else {
      HasBoth(data, pos, AskNumber(1, 1), AskNumber(v.n - LEAST, MOST - LEAST));
      DrawsNumber(data, pos, 0, 1, 1);
      DrawsNumber(data, pos + |AskNumber(1, 1)|, LEAST, MOST, v.n);
    }
  }

  lemma CoverChr(data: seq<Byte>, pos: nat, c: Chr)
    requires PossibleChr(c) && Has(data, pos, AskChr(c))
    ensures DrawChr(data, pos) == (c, pos + |AskChr(c)|)
  {
    hide Has, Drawn, AskNumber;
    match c
    case Printable(x) =>
      HasBoth(data, pos, AskNumber(0, 3), AskNumber(x - 32, 94));
      DrawsNumber(data, pos, 0, 3, 0);
      DrawsNumber(data, pos + |AskNumber(0, 3)|, 32, 126, x);
    case Meaningful(i) =>
      HasBoth(data, pos, AskNumber(1, 3), AskNumber(i, 63));
      DrawsNumber(data, pos, 0, 3, 1);
      DrawsNumber(data, pos + |AskNumber(1, 3)|, 0, 63, i);
  }

  lemma TextParts(cs: seq<Chr>)
    requires PossibleText(cs) && cs != []
    ensures PossibleText(cs[..|cs| - 1]) && PossibleChr(cs[|cs| - 1])
  {
  }

  lemma {:induction false} CoverChrs(data: seq<Byte>, pos: nat, cs: seq<Chr>)
    requires PossibleText(cs) && Has(data, pos, AskChrs(cs))
    ensures DrawChrs(data, pos, |cs|) == (cs, pos + |AskChrs(cs)|)
    decreases |cs|
  {
    hide Has, DrawChr, DrawChrs, AskChr, AskChrs, PossibleText, PossibleChr;
    ChrsStep(data, pos, cs);
    if cs != [] {
      var n := |cs| - 1;
      var front := AskChrs(cs[..n]);
      TextParts(cs);
      HasBoth(data, pos, front, AskChr(cs[n]));
      CoverChrs(data, pos, cs[..n]);
      CoverChr(data, pos + |front|, cs[n]);
      assert cs == cs[..n] + [cs[n]];
    }
  }

  lemma ChrsStep(data: seq<Byte>, pos: nat, cs: seq<Chr>)
    ensures cs == [] ==> AskChrs(cs) == [] && DrawChrs(data, pos, 0) == ([], pos)
    ensures cs != [] ==>
      var n := |cs| - 1;
      var (front, p) := DrawChrs(data, pos, n);
      var (c, q) := DrawChr(data, p);
      && AskChrs(cs) == AskChrs(cs[..n]) + AskChr(cs[n])
      && DrawChrs(data, pos, |cs|) == (front + [c], q)
  {
    hide DrawChr, AskChr, PossibleText;
  }

  lemma CoverString(data: seq<Byte>, pos: nat, v: Value)
    requires KindOf(v) == Str && Possible(v, 0) && Has(data, pos, AskValue(v))
    ensures DrawString(data, pos) == (v, pos + |AskValue(v)|)
  {
    hide Has, Drawn, AskNumber, AskChrs, DrawChrs, PossibleText;
    if v.Stock? {
      HasBoth(data, pos, AskNumber(0, 1), AskNumber(v.n, 7));
      DrawsNumber(data, pos, 0, 1, 0);
      DrawsNumber(data, pos + |AskNumber(0, 1)|, 0, 7, v.n);
    } else {
      var yes, count := AskNumber(1, 1), AskNumber(|v.cs|, 24);
      HasBoth(data, pos, yes, count + AskChrs(v.cs));
      HasBoth(data, pos + |yes|, count, AskChrs(v.cs));
      DrawsNumber(data, pos, 0, 1, 1);
      DrawsNumber(data, pos + |yes|, 0, 24, |v.cs|);
      CoverChrs(data, pos + |yes| + |count|, v.cs);
    }
  }

  lemma CoverKind(data: seq<Byte>, pos: nat, k: Kind, rest: seq<Byte>)
    requires k in VALUE_KINDS && Has(data, pos, AskKind(k) + rest)
    ensures DrawKind(data, pos) == (k, pos + |AskKind(k)|) && Has(data, pos + |AskKind(k)|, rest)
  {
    hide Has, Drawn, AskNumber;
    HasBoth(data, pos, AskKind(k), rest);
    DrawsNumber(data, pos, 0, 6, KindNumber(k));
  }

  lemma CoverKey(data: seq<Byte>, pos: nat, v: Value, rest: seq<Byte>)
    requires PossibleKey(v) && Has(data, pos, AskKey(v) + rest)
    ensures DrawKey(data, pos) == (v, pos + |AskKey(v)|) && Has(data, pos + |AskKey(v)|, rest)
  {
    hide Has, Drawn, AskNumber;
    HasBoth(data, pos, AskKey(v), rest);
    var c := if v.Stock? then 1 else if v.Flag? then 2 else 0;
    var x := if v.Stock? then v.n else if v.Flag? then (if v.b then 0 else 1) else v.n;
    var most := if v.Stock? then 7 else if v.Flag? then 1 else 19;
    HasBoth(data, pos, AskNumber(c, 2), AskNumber(x, most));
    DrawsNumber(data, pos, 0, 2, c);
    DrawsNumber(data, pos + |AskNumber(c, 2)|, 0, most, x);
  }

  lemma CoverMeta(data: seq<Byte>, pos: nat, m: Meta)
    requires PossibleMeta(m) && Has(data, pos, AskMeta(m))
    ensures DrawMeta(data, pos) == (m, pos + |AskMeta(m)|)
  {
    hide Has, Drawn, AskNumber, AskNum, DrawNumber;
    match m
    case NoMeta => DrawsNumber(data, pos, 0, 4, 1);
    case Throws =>
      HasBoth(data, pos, AskNumber(0, 4), AskNumber(0, 2));
      DrawsNumber(data, pos, 0, 4, 0);
      DrawsNumber(data, pos + |AskNumber(0, 4)|, 0, 2, 0);
    case Gives(v) =>
      var yes, kind := AskNumber(0, 4), AskNumber(1, 2);
      HasBoth(data, pos, yes, kind + AskNum(v));
      HasBoth(data, pos + |yes|, kind, AskNum(v));
      DrawsNumber(data, pos, 0, 4, 0);
      DrawsNumber(data, pos + |yes|, 0, 2, 1);
      CoverNumber(data, pos + |yes| + |kind|, v);
  }

  lemma CoverPlain(data: seq<Byte>, pos: nat, v: Value, depth: nat)
    requires Possible(v, depth) && KindOf(v) !in {Tbl, Fn} && Has(data, pos, AskValue(v))
    ensures KindOf(v) in VALUE_KINDS && DrawSimple(data, pos, KindOf(v)) == (v, pos + |AskValue(v)|)
  {
    hide Has, Drawn, AskNumber, AskNum, DrawNumber, DrawString, AskChrs, PossibleFor;
    match v
    case Number(_, _) => CoverNumber(data, pos, v);
    case Stock(_) => CoverString(data, pos, v);
    case Text(_) => CoverString(data, pos, v);
    case Flag(b) => DrawsNumber(data, pos, 0, 1, if b then 0 else 1);
    case Buffer(shape, n) =>
      HasBoth(data, pos, AskNumber(shape, 2), AskNumber(n, MostOf(shape)));
      DrawsNumber(data, pos, 0, 2, shape);
      DrawsNumber(data, pos + |AskNumber(shape, 2)|, 0, MostOf(shape), n);
    case Vector(n) => DrawsNumber(data, pos, 0, 3, n);
  }

  lemma ValueKinds(v: Value, depth: nat)
    requires Possible(v, depth)
    ensures KindOf(v) in VALUE_KINDS
  {
  }

  /** A value of one of the kinds of values. */
  lemma {:induction false} CoverValue(data: seq<Byte>, pos: nat, v: Value, depth: nat)
    requires Possible(v, depth) && Has(data, pos, AskValue(v))
    ensures DrawValue(data, pos, KindOf(v), depth) == (v, pos + |AskValue(v)|)
    decreases v, 1
  {
    hide Has, Drawn, AskNumber, AskValue, DrawSimple, DrawTable, DrawFunction, PossibleFor;
    ValueKinds(v, depth);
    match v
    case FlatTable(_) => CoverTable(data, pos, v, depth);
    case Table(_, _) => CoverTable(data, pos, v, depth);
    case Function(_, _, _) => CoverFunction(data, pos, v, depth);
    case _ => CoverPlain(data, pos, v, depth);
  }

  lemma {:induction false} CoverFunction(data: seq<Byte>, pos: nat, v: Value, depth: nat)
    requires v.Function? && Possible(v, depth) && Has(data, pos, AskValue(v))
    ensures DrawFunction(data, pos, depth) == (v, pos + |AskValue(v)|)
    decreases v, 0
  {
    hide Has, Drawn, AskNumber, AskKind, DrawKind, DrawValue, PossibleFor, AskValue, Possible;
    FunctionParts(v, depth);
    var shape := AskNumber(v.shape, 4);
    if v.shape == 1 {
      var result := v.results[0];
      var kind := AskKind(KindOf(result));
      HasBoth(data, pos, shape, kind + AskValue(result));
      CoverKind(data, pos + |shape|, KindOf(result), AskValue(result));
      CoverValue(data, pos + |shape| + |kind|, result, Below(depth));
    } else if v.shape == 2 {
      HasBoth(data, pos, shape, AskNumber(v.n, 4));
      DrawsNumber(data, pos + |shape|, 0, 4, v.n);
    }
    DrawsNumber(data, pos, 0, 4, v.shape);
  }

  /** What a function is made of, and the bytes for it. */
  lemma FunctionParts(v: Value, depth: nat)
    requires v.Function? && Possible(v, depth)
    ensures 0 <= v.shape <= 4
    ensures v.shape == 1 ==> v.n == 0 && |v.results| == 1 && v.results == [v.results[0]]
    ensures v.shape == 1 ==> Possible(v.results[0], Below(depth)) && KindOf(v.results[0]) in VALUE_KINDS
    ensures v.shape == 1 ==>
      AskValue(v) == AskNumber(v.shape, 4) + (AskKind(KindOf(v.results[0])) + AskValue(v.results[0]))
    ensures v.shape == 2 ==>
      0 <= v.n <= 4 && v.results == [] && AskValue(v) == AskNumber(v.shape, 4) + AskNumber(v.n, 4)
    ensures v.shape != 1 && v.shape != 2 ==> v.n == 0 && v.results == [] && AskValue(v) == AskNumber(v.shape, 4)
  {
    hide AskNumber, AskKind;
    assert AskNumber(Nat(v.shape), 4) + [] == AskNumber(Nat(v.shape), 4);
    if v.shape == 1 {
      ValueKinds(v.results[0], Below(depth));
    }
  }

  lemma {:induction false} CoverTable(data: seq<Byte>, pos: nat, v: Value, depth: nat)
    requires (v.FlatTable? || v.Table?) && Possible(v, depth) && Has(data, pos, AskValue(v))
    ensures DrawTable(data, pos, depth) == (v, pos + |AskValue(v)|)
    decreases v, 0
  {
    hide Has, Drawn, AskNumber, AskFields, DrawFields, AskMeta, DrawMeta, PossibleMeta, PossibleFields;
    if v.FlatTable? {
      DrawsNumber(data, pos, 0, 2, v.n);
    } else {
      var fs, m := v.fields, v.meta;
      var count := AskNumber(|fs|, 4);
      HasBoth(data, pos, count, AskFields(fs) + AskMeta(m));
      HasBoth(data, pos + |count|, AskFields(fs), AskMeta(m));
      DrawsNumber(data, pos, 0, 4, |fs|);
      CoverFields(data, pos + |count|, fs, depth - 1);
      CoverMeta(data, pos + |count| + |AskFields(fs)|, m);
    }
  }

  lemma {:induction false} CoverFields(data: seq<Byte>, pos: nat, fs: seq<Field>, depth: nat)
    requires PossibleFields(fs, depth) && Has(data, pos, AskFields(fs))
    ensures DrawFields(data, pos, |fs|, depth) == (fs, pos + |AskFields(fs)|)
    decreases fs, 0
  {
    hide Has, AskField, DrawField, PossibleField;
    if fs != [] {
      var n := |fs| - 1;
      HasBoth(data, pos, AskFields(fs[..n]), AskField(fs[n]));
      CoverFields(data, pos, fs[..n], depth);
      CoverField(data, pos + |AskFields(fs[..n])|, fs[n], depth);
      assert fs == fs[..n] + [fs[n]];
    }
  }

  lemma {:induction false} CoverField(data: seq<Byte>, pos: nat, f: Field, depth: nat)
    requires PossibleField(f, depth) && Has(data, pos, AskField(f))
    ensures DrawField(data, pos, depth) == (f, pos + |AskField(f)|)
    decreases f, 0
  {
    hide Has, Drawn, AskNumber, AskKind, DrawKind, AskKey, DrawKey, AskValue, DrawValue, Possible, PossibleFor,
         PossibleKey;
    var v := f.v;
    ValueKinds(v, depth);
    var kind := AskKind(KindOf(v));
    match f
    case Item(_) =>
      CoverKind(data, pos, KindOf(v), AskNumber(1, 2) + AskValue(v));
      HasBoth(data, pos + |kind|, AskNumber(1, 2), AskValue(v));
      DrawsNumber(data, pos + |kind|, 0, 2, 1);
      CoverValue(data, pos + |kind| + |AskNumber(1, 2)|, v, depth);
    case Keyed(key, _) =>
      CoverKind(data, pos, KindOf(v), AskNumber(0, 2) + (AskKey(key) + AskValue(v)));
      HasBoth(data, pos + |kind|, AskNumber(0, 2), AskKey(key) + AskValue(v));
      DrawsNumber(data, pos + |kind|, 0, 2, 0);
      CoverKey(data, pos + |kind| + |AskNumber(0, 2)|, key, AskValue(v));
      CoverValue(data, pos + |kind| + |AskNumber(0, 2)| + |AskKey(key)|, v, depth);
  }

  /** A value for a slot of any kind. */
  lemma CoverFor(data: seq<Byte>, pos: nat, k: Kind, v: Value)
    requires PossibleFor(k, v, MAX_DEPTH) && Has(data, pos, AskFor(k, v))
    ensures DrawFresh(data, pos, k) == (v, pos + |AskFor(k, v)|)
  {
    hide Has, Drawn, AskNumber, AskValue, DrawString, DrawNumber, DrawBuffer, DrawFunction, DrawTable, Possible,
         AskKind, DrawKind;
    match k
    case Idx =>
      HasBoth(data, pos, AskNumber(1, 1), AskNumber(v.n + LIMIT, 2 * LIMIT));
      DrawsNumber(data, pos, 0, 1, 1);
      DrawsNumber(data, pos + |AskNumber(1, 1)|, -LIMIT, LIMIT, v.n);
    case Any => CoverAny(data, pos, v);
    case VarAny => CoverAny(data, pos, v);
    case VarNum => CoverVarNum(data, pos, v);
    case _ => CoverValue(data, pos, v, MAX_DEPTH);
  }

  lemma CoverVarNum(data: seq<Byte>, pos: nat, v: Value)
    requires PossibleNumber(v) && Has(data, pos, AskValue(v))
    ensures DrawNumber(data, pos) == (v, pos + |AskValue(v)|)
  {
    hide Has, DrawNumber, AskNum;
    assert AskValue(v) == AskNum(v);
    CoverNumber(data, pos, v);
  }

  lemma CoverAny(data: seq<Byte>, pos: nat, v: Value)
    requires (v.Nil? || Possible(v, MAX_DEPTH)) && Has(data, pos, AskAny(v))
    ensures DrawAny(data, pos, MAX_DEPTH) == (v, pos + |AskAny(v)|)
  {
    hide Has, Drawn, AskNumber, AskValue, DrawValue, AskKind, DrawKind, PossibleFor, Possible;
    if v.Nil? {
      DrawsNumber(data, pos, 0, 5, 0);
    } else {
      ValueKinds(v, MAX_DEPTH);
      var yes, kind := AskNumber(1, 5), AskKind(KindOf(v));
      HasBoth(data, pos, yes, kind + AskValue(v));
      DrawsNumber(data, pos, 0, 5, 1);
      CoverKind(data, pos + |yes|, KindOf(v), AskValue(v));
      CoverValue(data, pos + |yes| + |kind|, v, MAX_DEPTH);
    }
  }

  // ----- every argument, call and program is drawn -----

  function IndexIn(us: seq<nat>, i: nat): nat
  {
    if us == [] || us[|us| - 1] == i then Nat(|us| - 1) else IndexIn(us[..|us| - 1], i)
  }

  lemma {:induction false} IndexIsRight(us: seq<nat>, i: nat)
    requires i in us
    ensures IndexIn(us, i) < |us| && us[IndexIn(us, i)] == i
    decreases |us|
  {
    if us[|us| - 1] != i {
      IndexIsRight(us[..|us| - 1], i);
    }
  }

  function AskArg(k: Kind, v: Value, locals: seq<Kind>): seq<Byte>
  {
    var us := Usable(k, locals);
    if v.Local? then AskNumber(0, 1) + AskNumber(IndexIn(us, v.i), Nat(|us| - 1))
    else (if us == [] then [] else AskNumber(1, 1)) + AskFor(k, v)
  }

  lemma UsableIndex(k: Kind, locals: seq<Kind>, i: nat)
    requires i < |locals| && Compatible(k, locals[i])
    ensures var us := Usable(k, locals); IndexIn(us, i) < |us| && us[IndexIn(us, i)] == i
  {
    hide Compatible, IndexIn;
    IndexIsRight(Usable(k, locals), i);
  }

  lemma DrawArgIs(data: seq<Byte>, pos: nat, k: Kind, locals: seq<Kind>)
    ensures var us := Usable(k, locals);
      if us == [] then DrawArg(data, pos, k, locals) == DrawFresh(data, pos, k)
      else
        var (c, p) := Drawn(data, pos, 0, 1);
        var (j, q) := Drawn(data, p, 0, |us| - 1);
        DrawArg(data, pos, k, locals) == if c == 0 then (Local(us[j]), q) else DrawFresh(data, p, k)
  {
    hide Drawn, DrawFresh, Usable, PossibleFor, Compatible;
  }

  lemma CoverArg(data: seq<Byte>, pos: nat, k: Kind, v: Value, locals: seq<Kind>)
    requires PossibleArg(k, v, locals) && Has(data, pos, AskArg(k, v, locals))
    ensures DrawArg(data, pos, k, locals) == (v, pos + |AskArg(k, v, locals)|)
  {
    hide Has, Drawn, AskNumber, AskFor, DrawArg, DrawFresh, PossibleFor, IndexIn, Usable, Compatible;
    var us := Usable(k, locals);
    DrawArgIs(data, pos, k, locals);
    if v.Local? {
      UsableIndex(k, locals, v.i);
      HasBoth(data, pos, AskNumber(0, 1), AskNumber(IndexIn(us, v.i), |us| - 1));
      DrawsNumber(data, pos, 0, 1, 0);
      DrawsNumber(data, pos + |AskNumber(0, 1)|, 0, |us| - 1, IndexIn(us, v.i));
    } else if us == [] {
      assert [] + AskFor(k, v) == AskFor(k, v);
      CoverFor(data, pos, k, v);
    } else {
      HasBoth(data, pos, AskNumber(1, 1), AskFor(k, v));
      DrawsNumber(data, pos, 0, 1, 1);
      CoverFor(data, pos + |AskNumber(1, 1)|, k, v);
    }
  }

  function AskSome(want: Kind, args: seq<Value>, locals: seq<Kind>): seq<Byte>
  {
    if args == [] then []
    else AskSome(want, args[..|args| - 1], locals) + AskArg(want, args[|args| - 1], locals)
  }

  lemma SomeStep(data: seq<Byte>, pos: nat, want: Kind, args: seq<Value>, locals: seq<Kind>)
    ensures args == [] ==>
      AskSome(want, args, locals) == [] && DrawSome(data, pos, want, 0, locals) == Filled([], [], pos)
    ensures args != [] ==>
      var n := |args| - 1;
      var f := DrawSome(data, pos, want, n, locals);
      var (v, p) := DrawArg(data, f.pos, want, locals);
      && AskSome(want, args, locals) == AskSome(want, args[..n], locals) + AskArg(want, args[n], locals)
      && DrawSome(data, pos, want, |args|, locals) == Filled(f.slots + [want], f.args + [v], p)
  {
    hide DrawArg, AskArg, PossibleArg;
  }

  lemma SomeParts(want: Kind, slots: seq<Kind>, args: seq<Value>, locals: seq<Kind>)
    requires AllPossible(slots, args, locals) && AllAre(slots, want)
    ensures |slots| == |args|
    ensures args != [] ==> var n := |args| - 1;
      && AllPossible(slots[..n], args[..n], locals) && AllAre(slots[..n], want) && slots[n] == want
      && PossibleArg(want, args[n], locals)
  {
    hide PossibleArg;
  }

  predicate AllAre(slots: seq<Kind>, k: Kind)
  {
    forall i :: 0 <= i < |slots| ==> slots[i] == k
  }

  lemma {:induction false} CoverSome(data: seq<Byte>, pos: nat, want: Kind, slots: seq<Kind>, args: seq<Value>,
                                     locals: seq<Kind>)
    requires AllPossible(slots, args, locals) && AllAre(slots, want)
    requires Has(data, pos, AskSome(want, args, locals))
    ensures DrawSome(data, pos, want, |args|, locals) == Filled(slots, args, pos + |AskSome(want, args, locals)|)
    decreases |args|
  {
    hide Has, AskArg, DrawArg, PossibleArg, AllPossible, AllAre, AskSome, DrawSome;
    SomeStep(data, pos, want, args, locals);
    SomeParts(want, slots, args, locals);
    if args != [] {
      var n := |args| - 1;
      var front := AskSome(want, args[..n], locals);
      HasBoth(data, pos, front, AskArg(want, args[n], locals));
      CoverSome(data, pos, want, slots[..n], args[..n], locals);
      CoverArg(data, pos + |front|, want, args[n], locals);
      assert args == args[..n] + [args[n]] && slots == slots[..n] + [want];
    } else {
      assert slots == [];
    }
  }

  function AskParam(k: Kind, args: seq<Value>, locals: seq<Kind>): seq<Byte>
  {
    if k == VarNum || k == VarAny then AskNumber(|args|, 4) + AskSome(Wanted(k), args, locals)
    else AskSome(k, args, locals)
  }

  lemma CoverParam(data: seq<Byte>, pos: nat, k: Kind, slots: seq<Kind>, args: seq<Value>, locals: seq<Kind>)
    requires SlotsOf(k, slots) && AllPossible(slots, args, locals) && Has(data, pos, AskParam(k, args, locals))
    ensures DrawParam(data, pos, k, locals) == Filled(slots, args, pos + |AskParam(k, args, locals)|)
  {
    hide Has, Drawn, AskNumber, AskSome, DrawSome, PossibleArg;
    if k == VarNum || k == VarAny {
      HasBoth(data, pos, AskNumber(|args|, 4), AskSome(Wanted(k), args, locals));
      DrawsNumber(data, pos, 0, 4, |args|);
      CoverSome(data, pos + |AskNumber(|args|, 4)|, Wanted(k), slots, args, locals);
    } else {
      CoverSome(data, pos, k, slots, args, locals);
    }
  }

  ghost predicate FillsAt(data: seq<Byte>, pos: nat, kinds: seq<Kind>, n: nat, locals: seq<Kind>, f: Filled)
    requires n <= |kinds|
  {
    DrawParams(data, pos, kinds, n, locals) == f
  }

  /** Bytes for the arguments of the first `n` of a function's kinds. */
  lemma {:induction false} ParamBytes(kinds: seq<Kind>, n: nat, slots: seq<Kind>, args: seq<Value>, locals: seq<Kind>)
    returns (bytes: seq<Byte>)
    requires n <= |kinds| && Expands(kinds[..n], slots) && AllPossible(slots, args, locals)
    ensures forall data: seq<Byte>, pos: nat | Has(data, pos, bytes) ::
      FillsAt(data, pos, kinds, n, locals, Filled(slots, args, pos + |bytes|))
    decreases n
  {
    hide Has, DrawParam, AskParam, PossibleArg, SlotsOf;
    if n == 0 {
      bytes := [];
    } else {
      assert kinds[..n][..n - 1] == kinds[..n - 1];
      var m: nat :| m <= |slots| && Expands(kinds[..n - 1], slots[..m]) && SlotsOf(kinds[n - 1], slots[m..]);
      PossibleParts(slots, args, locals, m);
      var front := ParamBytes(kinds, n - 1, slots[..m], args[..m], locals);
      var last := AskParam(kinds[n - 1], args[m..], locals);
      bytes := front + last;
      assert slots == slots[..m] + slots[m..] && args == args[..m] + args[m..];
      forall data: seq<Byte>, pos: nat | Has(data, pos, bytes)
        ensures FillsAt(data, pos, kinds, n, locals, Filled(slots, args, pos + |bytes|))
      {
        HasBoth(data, pos, front, last);
        assert FillsAt(data, pos, kinds, n - 1, locals, Filled(slots[..m], args[..m], pos + |front|));
        CoverParam(data, pos + |front|, kinds[n - 1], slots[m..], args[m..], locals);
      }
    }
  }

  lemma PossibleParts(slots: seq<Kind>, args: seq<Value>, locals: seq<Kind>, m: nat)
    requires AllPossible(slots, args, locals) && m <= |slots|
    ensures AllPossible(slots[..m], args[..m], locals) && AllPossible(slots[m..], args[m..], locals)
  {
    hide PossibleArg;
    forall i | 0 <= i < |slots[m..]| ensures PossibleArg(slots[m..][i], args[m..][i], locals) {
      assert PossibleArg(slots[m + i], args[m + i], locals);
    }
  }

  ghost predicate PossibleCall(api: seq<Api>, locals: seq<Kind>, c: Call)
  {
    c.f < |api| && Expands(api[c.f].kinds, c.slots) && AllPossible(c.slots, c.args, locals)
  }

  ghost predicate PossibleCalls(api: seq<Api>, locals: seq<Kind>, cs: seq<Call>)
  {
    forall i :: 0 <= i < |cs| ==> PossibleCall(api, locals, cs[i])
  }

  ghost predicate PossibleLocals(kinds: seq<Kind>, locals: seq<Value>)
  {
    |kinds| == |locals| && forall i :: 0 <= i < |kinds| ==> PossibleLocal(kinds[i], locals[i])
  }

  /** At most three locals, each of a kind of values and made for it; one to three
      calls of covered functions, every slot filled with a compatible local or a
      value made for it; and one of the loop counts. */
  ghost predicate PossibleProgram(api: seq<Api>, p: Program)
  {
    && |p.locals| <= 3 && PossibleLocals(p.kinds, p.locals)
    && 1 <= |p.calls| <= 3 && PossibleCalls(api, p.kinds, p.calls)
    && p.rounds in ROUNDS
  }

  ghost predicate CallsAt(api: seq<Api>, data: seq<Byte>, pos: nat, locals: seq<Kind>, cs: seq<Call>, end: nat)
    requires api != []
  {
    DrawCalls(api, data, pos, |cs|, locals) == (cs, end)
  }

  lemma {:induction false} CallBytes(api: seq<Api>, locals: seq<Kind>, cs: seq<Call>) returns (bytes: seq<Byte>)
    requires api != [] && PossibleCalls(api, locals, cs)
    ensures forall data: seq<Byte>, pos: nat | Has(data, pos, bytes) ::
      CallsAt(api, data, pos, locals, cs, pos + |bytes|)
    decreases |cs|
  {
    hide Has, Drawn, AskNumber, DrawParams, Expands, AllPossible;
    if cs == [] {
      bytes := [];
    } else {
      var n, c := |cs| - 1, cs[|cs| - 1];
      assert PossibleCall(api, locals, c);
      var front := CallBytes(api, locals, cs[..n]);
      var kinds := api[c.f].kinds;
      assert kinds[..|kinds|] == kinds;
      var args := ParamBytes(kinds, |kinds|, c.slots, c.args, locals);
      var f := AskNumber(c.f, |api| - 1);
      bytes := front + (f + args);
      assert cs == cs[..n] + [c];
      forall data: seq<Byte>, pos: nat | Has(data, pos, bytes)
        ensures CallsAt(api, data, pos, locals, cs, pos + |bytes|)
      {
        HasBoth(data, pos, front, f + args);
        HasBoth(data, pos + |front|, f, args);
        assert CallsAt(api, data, pos, locals, cs[..n], pos + |front|);
        DrawsNumber(data, pos + |front|, 0, |api| - 1, c.f);
        var p := pos + |front| + |f|;
        assert FillsAt(data, p, kinds, |kinds|, locals, Filled(c.slots, c.args, p + |args|));
      }
    }
  }

  function AskLocal(k: Kind, v: Value): seq<Byte>
  {
    AskKind(k) + AskFor(k, v)
  }

  function AskLocals(kinds: seq<Kind>, locals: seq<Value>): seq<Byte>
    requires |kinds| == |locals|
    decreases |kinds|
  {
    if kinds == [] then []
    else
      var n := |kinds| - 1;
      AskLocals(kinds[..n], locals[..n]) + AskLocal(kinds[n], locals[n])
  }

  lemma {:induction false} CoverLocals(data: seq<Byte>, pos: nat, kinds: seq<Kind>, locals: seq<Value>)
    requires |kinds| == |locals| && PossibleLocals(kinds, locals) && Has(data, pos, AskLocals(kinds, locals))
    ensures DrawLocals(data, pos, |kinds|) == Filled(kinds, locals, pos + |AskLocals(kinds, locals)|)
    decreases |kinds|
  {
    hide Has, DrawLocal, AskLocal, PossibleLocals, PossibleLocal, DrawLocals, AskLocals;
    LocalParts(kinds, locals);
    LocalsStep(data, pos, kinds, locals);
    if kinds != [] {
      var n := |kinds| - 1;
      var front := AskLocals(kinds[..n], locals[..n]);
      HasBoth(data, pos, front, AskLocal(kinds[n], locals[n]));
      CoverLocals(data, pos, kinds[..n], locals[..n]);
      CoverLocal(data, pos + |front|, kinds[n], locals[n]);
      assert kinds == kinds[..n] + [kinds[n]] && locals == locals[..n] + [locals[n]];
    } else {
      assert locals == [];
    }
  }

  lemma LocalsStep(data: seq<Byte>, pos: nat, kinds: seq<Kind>, locals: seq<Value>)
    requires |kinds| == |locals|
    ensures kinds == [] ==> AskLocals(kinds, locals) == [] && DrawLocals(data, pos, 0) == Filled([], [], pos)
    ensures kinds != [] ==>
      var n := |kinds| - 1;
      var f := DrawLocals(data, pos, n);
      var l := DrawLocal(data, f.pos);
      && AskLocals(kinds, locals) == AskLocals(kinds[..n], locals[..n]) + AskLocal(kinds[n], locals[n])
      && DrawLocals(data, pos, |kinds|) == Filled(f.slots + l.slots, f.args + l.args, l.pos)
  {
    hide DrawLocal, AskLocal, PossibleLocal;
  }

  lemma LocalParts(kinds: seq<Kind>, locals: seq<Value>)
    requires PossibleLocals(kinds, locals)
    ensures |kinds| == |locals|
    ensures kinds != [] ==> var n := |kinds| - 1;
      PossibleLocals(kinds[..n], locals[..n]) && PossibleLocal(kinds[n], locals[n])
  {
    hide PossibleLocal;
  }

  lemma CoverLocal(data: seq<Byte>, pos: nat, k: Kind, v: Value)
    requires PossibleLocal(k, v) && Has(data, pos, AskLocal(k, v))
    ensures DrawLocal(data, pos) == Filled([k], [v], pos + |AskLocal(k, v)|)
  {
    hide Has, DrawKind, AskKind, DrawFresh, AskFor, PossibleFor;
    CoverKind(data, pos, k, AskFor(k, v));
    CoverFor(data, pos + |AskKind(k)|, k, v);
  }

  lemma PartsDrawn(api: seq<Api>, p: Program, data: seq<Byte>, i: nat, j: nat)
    requires api != [] && Drawn(data, 0, 0, 3) == (|p.locals|, i)
    requires DrawLocals(data, i, |p.locals|) == Filled(p.kinds, p.locals, j) && TailAt(api, data, j, p)
    ensures DrawProgram(api, data) == p
  {
    hide Drawn, DrawLocals, DrawCalls;
  }

  /** Bytes for everything behind the locals. */
  lemma TailBytes(api: seq<Api>, p: Program) returns (bytes: seq<Byte>)
    requires api != [] && PossibleCalls(api, p.kinds, p.calls) && 1 <= |p.calls| <= 3 && p.rounds in ROUNDS
    ensures forall data: seq<Byte>, j: nat | Has(data, j, bytes) :: TailAt(api, data, j, p)
  {
    hide Has, Drawn, AskNumber, DrawCalls, PossibleCalls;
    var calls := CallBytes(api, p.kinds, p.calls);
    var r: nat :| r < |ROUNDS| && ROUNDS[r] == p.rounds;
    var count, last := AskNumber(|p.calls| - 1, 2), AskNumber(r, 3);
    bytes := count + (calls + last);
    forall data: seq<Byte>, j: nat | Has(data, j, bytes) ensures TailAt(api, data, j, p) {
      HasBoth(data, j, count, calls + last);
      HasBoth(data, j + |count|, calls, last);
      DrawsNumber(data, j, 1, 3, |p.calls|);
      assert CallsAt(api, data, j + |count|, p.kinds, p.calls, j + |count| + |calls|);
      DrawsNumber(data, j + |count| + |calls|, 0, 3, r);
    }
  }

  ghost predicate TailAt(api: seq<Api>, data: seq<Byte>, j: nat, p: Program)
    requires api != []
  {
    var (m, k) := Drawn(data, j, 1, 3);
    var (cs, l) := DrawCalls(api, data, k, m, p.kinds);
    m == |p.calls| && cs == p.calls && ROUNDS[Drawn(data, l, 0, 3).0] == p.rounds
  }

  /** For every such program there are bytes for which the generator makes it. */
  lemma EveryProgram(api: seq<Api>, p: Program) returns (data: seq<Byte>)
    requires api != [] && PossibleProgram(api, p)
    ensures DrawProgram(api, data) == p
  {
    hide Has, Drawn, AskNumber, PossibleLocals, PossibleCalls, DrawProgram, TailAt;
    var tail := TailBytes(api, p);
    var head := HeadBytes(p.kinds, p.locals);
    data := head + tail;
    Stands(data);
    HasBoth(data, 0, head, tail);
    assert HeadAt(data, p.kinds, p.locals, |head|);
    assert TailAt(api, data, |head|, p);
    PartsDrawn(api, p, data, Drawn(data, 0, 0, 3).1, |head|);
  }

  /** Bytes for the locals. */
  lemma HeadBytes(kinds: seq<Kind>, locals: seq<Value>) returns (bytes: seq<Byte>)
    requires |locals| <= 3 && PossibleLocals(kinds, locals)
    ensures forall data: seq<Byte> | Has(data, 0, bytes) :: HeadAt(data, kinds, locals, |bytes|)
  {
    hide Has, Drawn, AskNumber, AskLocals, DrawLocals, PossibleLocal;
    var count, ls := AskNumber(|locals|, 3), AskLocals(kinds, locals);
    bytes := count + ls;
    forall data: seq<Byte> | Has(data, 0, bytes) ensures HeadAt(data, kinds, locals, |bytes|) {
      HasBoth(data, 0, count, ls);
      DrawsNumber(data, 0, 0, 3, |locals|);
      CoverLocals(data, |count|, kinds, locals);
    }
  }

  ghost predicate HeadAt(data: seq<Byte>, kinds: seq<Kind>, locals: seq<Value>, end: nat)
  {
    var (n, p) := Drawn(data, 0, 0, 3);
    n == |locals| && DrawLocals(data, p, n) == Filled(kinds, locals, end)
  }

  lemma Stands(data: seq<Byte>)
    ensures Has(data, 0, data)
  {
    assert data[0..0 + |data|] == data;
  }

  lemma {:induction false} DrawnCallsArePossible(api: seq<Api>, data: seq<Byte>, pos: nat, n: nat, locals: seq<Kind>)
    requires api != []
    ensures PossibleCalls(api, locals, DrawCalls(api, data, pos, n, locals).0)
    decreases n
  {
    hide Drawn, DrawParams, Expands, AllPossible;
    if n > 0 {
      DrawnCallsArePossible(api, data, pos, n - 1, locals);
      var (cs, p) := DrawCalls(api, data, pos, n - 1, locals);
      var (f, q) := Drawn(data, p, 0, |api| - 1);
      var kinds := api[f].kinds;
      ParamsExpand(data, q, kinds, |kinds|, locals);
      assert kinds[..|kinds|] == kinds;
    }
  }

  /** No bytes make any other. */
  lemma OnlyPossible(api: seq<Api>, data: seq<Byte>)
    requires api != []
    ensures PossibleProgram(api, DrawProgram(api, data))
  {
    hide Drawn, DrawLocals, DrawCalls, PossibleCalls, PossibleLocal;
    var (n, p) := Drawn(data, 0, 0, 3);
    var ls := DrawLocals(data, p, n);
    var (m, q) := Drawn(data, ls.pos, 1, 3);
    DrawnCallsArePossible(api, data, q, m, ls.slots);
  }
}
