/** Every program of the grammar has bytes that ask for it: where they stand, and
  the budget is not used up, the generator makes that program and no other.
 */
module Coverage {
  import opened Bytes
  import opened Layout
  import opened Trees
  import Grammar

  // ----- the bytes that ask for a tree -----

  function Low(n: nat): Byte
  {
    if n < 256 then n else 0
  }

  function AskNames(ns: seq<nat>): seq<Byte>
  {
    if ns == [] then [] else AskNames(ns[..|ns| - 1]) + [Low(ns[|ns| - 1])]
  }

  function AskAtom(a: Atom): seq<Byte>
  {
    match a
    case Whole(n) => [0] + [Low(n / 256), Low(n % 256)]
    case Decimal(n, f) => [1] + ([Low(n / 256), Low(n % 256)] + [Low(f)])
    case True => [2]
    case False => [3]
    case Nil => [4]
    case Text(ks) => [5] + ([Low(|ks|)] + AskNames(ks))
  }

  function AskCallee(f: Callee): seq<Byte>
  {
    match f
    case Global(g) => [0] + [Low(g)]
    case Local(i) => [1] + [Low(i)]
    case Method(i, m) => [2] + ([Low(i)] + [Low(m)])
  }

  function AskParams(ns: seq<NameId>): seq<Byte>
  {
    [Low(|ns|)] + AskNames(ns)
  }

  function AskArgs(es: seq<Exp>): seq<Byte>
    decreases es, 1
  {
    [Low(|es|)] + AskExps(es)
  }

  function AskExp(e: Exp): seq<Byte>
    decreases e, 0
  {
    match e
    case Literal(a) => [0] + AskAtom(a)
    case Named(i) => [2] + [Low(i)]
    case Binary(l, op, r) => [3] + (AskExp(l) + ([Low(op)] + AskExp(r)))
    case Unary(u, a) => [4] + ([Low(u)] + AskExp(a))
    case Grouped(a) => [5] + AskExp(a)
    case TableOf(fs) => [6] + ([Low(|fs|)] + AskFields(fs))
    case Item(i, k) => [7] + ([Low(i)] + ([0] + AskExp(k)))
    case Member(i, m) => [7] + ([Low(i)] + ([1] + [Low(m)]))
    case CallOf(f, args) => [8] + (AskCallee(f) + AskArgs(args))
    case FunctionOf(ps, body) => [9] + (AskParams(ps) + AskBlk(body))
  }

  function AskExps(es: seq<Exp>): seq<Byte>
    decreases es, 0
  {
    if es == [] then [] else AskExps(es[..|es| - 1]) + AskExp(es[|es| - 1])
  }

  function AskField(f: Field): seq<Byte>
    decreases f, 0
  {
    match f
    case Listed(e) => [0] + AskExp(e)
    case Keyed(i, e) => [1] + ([Low(i)] + AskExp(e))
    case Computed(k, e) => [2] + (AskExp(k) + AskExp(e))
  }

  function AskFields(fs: seq<Field>): seq<Byte>
    decreases fs, 0
  {
    if fs == [] then [] else AskFields(fs[..|fs| - 1]) + AskField(fs[|fs| - 1])
  }

  function AskStm(s: Stm): seq<Byte>
    decreases s, 0
  {
    match s
    case LocalOf(i, e) => [0] + ([Low(i)] + AskExp(e))
    case Update(i, op, e) => [1] + ([Low(i)] + ([Low(op)] + AskExp(e)))
    case IfDo(c, yes, no) => [2] + (AskExp(c) + (AskBlk(yes) + AskElse(no)))
    case WhileDo(c, body) => [3] + (AskExp(c) + AskBlk(body))
    case ForDo(i, lo, hi, step, body) =>
      [4] + ([Low(i)] + (AskExp(lo) + (AskExp(hi) + (AskStride(step) + AskBlk(body)))))
    case RepeatUntil(body, c) => [5] + (AskBlk(body) + AskExp(c))
    case DoEnd(body) => [6] + AskBlk(body)
    case Declare(local, i, ps, body) => [if local then 7 else 8] + ([Low(i)] + (AskParams(ps) + AskBlk(body)))
    case CallStm(f, args) => [9] + (AskCallee(f) + AskArgs(args))
    case BreakStm => [10]
    case ContinueStm => [11]
  }

  function AskStride(step: Stride): seq<Byte>
    decreases step, 0
  {
    match step
    case ByOne => [1]
    case By(e) => [0] + AskExp(e)
  }

  function AskElse(no: Otherwise): seq<Byte>
    decreases no, 0
  {
    match no
    case NoElse => [1]
    case ElseDo(b) => [0] + AskBlk(b)
  }

  function AskStms(ss: seq<Stm>): seq<Byte>
    decreases ss, 0
  {
    if ss == [] then [] else AskStms(ss[..|ss| - 1]) + AskStm(ss[|ss| - 1])
  }

  function AskRet(r: Ret): seq<Byte>
    decreases r, 0
  {
    match r
    case NoReturn => [1]
    case Bare => [0] + [1]
    case Value(e) => [0] + ([0] + AskExp(e))
  }

  function AskBlk(b: Blk): seq<Byte>
    decreases b, 0
  {
    [Low(|b.stms|)] + (AskStms(b.stms) + AskRet(b.ret))
  }

  // ----- what a tree costs: its expressions and statements -----

  function CostExp(e: Exp): nat
    decreases e, 0
  {
    1 + match e
      case Literal(_) => 0
      case Named(_) => 0
      case Binary(l, _, r) => CostExp(l) + CostExp(r)
      case Unary(_, a) => CostExp(a)
      case Grouped(a) => CostExp(a)
      case TableOf(fs) => CostFields(fs)
      case Item(_, k) => CostExp(k)
      case Member(_, _) => 0
      case CallOf(_, args) => CostExps(args)
      case FunctionOf(_, body) => CostBlk(body)
  }

  function CostExps(es: seq<Exp>): nat
    decreases es, 0
  {
    if es == [] then 0 else CostExps(es[..|es| - 1]) + CostExp(es[|es| - 1])
  }

  function CostField(f: Field): nat
    decreases f, 0
  {
    match f
    case Listed(e) => CostExp(e)
    case Keyed(_, e) => CostExp(e)
    case Computed(k, e) => CostExp(k) + CostExp(e)
  }

  function CostFields(fs: seq<Field>): nat
    decreases fs, 0
  {
    if fs == [] then 0 else CostFields(fs[..|fs| - 1]) + CostField(fs[|fs| - 1])
  }

  function CostStm(s: Stm): nat
    decreases s, 0
  {
    1 + match s
      case LocalOf(_, e) => CostExp(e)
      case Update(_, _, e) => CostExp(e)
      case IfDo(c, yes, no) => CostExp(c) + CostBlk(yes) + CostElse(no)
      case WhileDo(c, body) => CostExp(c) + CostBlk(body)
      case ForDo(_, lo, hi, step, body) => CostExp(lo) + CostExp(hi) + CostStride(step) + CostBlk(body)
      case RepeatUntil(body, c) => CostBlk(body) + CostExp(c)
      case DoEnd(body) => CostBlk(body)
      case Declare(_, _, _, body) => CostBlk(body)
      case CallStm(_, args) => CostExps(args)
      case BreakStm => 0
      case ContinueStm => 0
  }

  function CostStride(step: Stride): nat
    decreases step, 0
  {
    match step
    case ByOne => 0
    case By(e) => CostExp(e)
  }

  function CostElse(no: Otherwise): nat
    decreases no, 0
  {
    match no
    case NoElse => 0
    case ElseDo(b) => CostBlk(b)
  }

  function CostStms(ss: seq<Stm>): nat
    decreases ss, 0
  {
    if ss == [] then 0 else CostStms(ss[..|ss| - 1]) + CostStm(ss[|ss| - 1])
  }

  function CostRet(r: Ret): nat
    decreases r, 0
  {
    match r
    case NoReturn => 0
    case Bare => 0
    case Value(e) => CostExp(e)
  }

  function CostBlk(b: Blk): nat
    decreases b, 0
  {
    CostStms(b.stms) + CostRet(b.ret)
  }

  // ----- choices -----

  /** One byte decides between at most 256 possibilities. */
  lemma ByteDecides(data: seq<Byte>, pos: nat, n: nat, x: nat)
    requires 2 <= n <= 256 && x < n && Has(data, pos, [Low(x)])
    ensures Choice(data, pos, n) == (x, pos + 1)
  {
    assert AskNumber(x / 256, (n - 1) / 256) == [];
    assert AskNumber(x, n - 1) == [Low(x)];
    hide AskNumber, Drawn;
    DrawsNumber(data, pos, 0, n - 1, x);
  }

  /** Two bytes decide between a thousand. */
  lemma TwoDecide(data: seq<Byte>, pos: nat, x: nat)
    requires x < 1000 && Has(data, pos, [Low(x / 256), Low(x % 256)])
    ensures Choice(data, pos, 1000) == (x, pos + 2)
  {
    assert AskNumber(x / 256 / 256, 0) == [];
    assert AskNumber(x / 256, 3) == [Low(x / 256)];
    assert AskNumber(x, 999) == [Low(x / 256)] + [Low(x % 256)];
    hide AskNumber, Drawn;
    DrawsNumber(data, pos, 0, 999, x);
  }

  /** A choice, and what is behind it. */
  lemma Asked(data: seq<Byte>, pos: nat, n: nat, x: nat, rest: seq<Byte>)
    requires 2 <= n <= 256 && x < n && Has(data, pos, [Low(x)] + rest)
    ensures Choice(data, pos, n) == (x, pos + 1) && Has(data, pos + 1, rest)
  {
    HasBoth(data, pos, [Low(x)], rest);
    ByteDecides(data, pos, n, x);
  }

  // ----- every tree is drawn -----

  lemma NamesStep(ns: seq<nat>)
    ensures ns == [] ==> AskNames(ns) == []
    ensures ns != [] ==> AskNames(ns) == AskNames(ns[..|ns| - 1]) + [Low(ns[|ns| - 1])]
  {
  }

  lemma {:induction false} CoverNames(data: seq<Byte>, pos: nat, ns: seq<NameId>)
    requires Has(data, pos, AskNames(ns))
    ensures DrawNames(data, pos, |ns|) == (ns, pos + |AskNames(ns)|)
    decreases |ns|
  {
    hide Has, Choice, AskNames, Low;
    NamesStep(ns);
    if ns != [] {
      var n := |ns| - 1;
      HasBoth(data, pos, AskNames(ns[..n]), [Low(ns[n])]);
      CoverNames(data, pos, ns[..n]);
      ByteDecides(data, pos + |AskNames(ns[..n])|, 11, ns[n]);
      assert ns == ns[..n] + [ns[n]];
    }
  }

  lemma {:induction false} CoverLetters(data: seq<Byte>, pos: nat, ks: seq<LetterId>)
    requires Has(data, pos, AskNames(ks))
    ensures DrawLetters(data, pos, |ks|) == (ks, pos + |AskNames(ks)|)
    decreases |ks|
  {
    hide Has, Choice, AskNames, Low;
    NamesStep(ks);
    if ks != [] {
      var n := |ks| - 1;
      HasBoth(data, pos, AskNames(ks[..n]), [Low(ks[n])]);
      CoverLetters(data, pos, ks[..n]);
      ByteDecides(data, pos + |AskNames(ks[..n])|, 15, ks[n]);
      assert ks == ks[..n] + [ks[n]];
    }
  }

  lemma CoverParams(data: seq<Byte>, pos: nat, ns: seq<NameId>)
    requires |ns| <= 2 && Has(data, pos, AskParams(ns))
    ensures DrawParams(data, pos) == (ns, pos + |AskParams(ns)|)
  {
    hide Choice, Has;
    Asked(data, pos, 3, |ns|, AskNames(ns));
    CoverNames(data, pos + 1, ns);
  }

  lemma CoverName(data: seq<Byte>, pos: nat, i: NameId, rest: seq<Byte>)
    requires Has(data, pos, [Low(i)] + rest)
    ensures DrawName(data, pos) == (i, pos + 1) && Has(data, pos + 1, rest)
  {
    hide Choice, Has;
    Asked(data, pos, 11, i, rest);
  }

  lemma LastName(data: seq<Byte>, pos: nat, i: NameId)
    requires Has(data, pos, [Low(i)])
    ensures DrawName(data, pos) == (i, pos + 1)
  {
    hide Choice, Has;
    ByteDecides(data, pos, 11, i);
  }

  lemma CoverAtom(data: seq<Byte>, pos: nat, a: Atom)
    requires ProperAtom(a) && Has(data, pos, AskAtom(a))
    ensures DrawAtom(data, pos) == (a, pos + |AskAtom(a)|)
  {
    hide Choice, Has, DrawLetters, Low, AskNames;
    match a
    case Whole(n) => CoverWhole(data, pos, n);
    case Decimal(n, f) => CoverDecimal(data, pos, n, f);
    case True => CoverWord(data, pos, 2);
    case False => CoverWord(data, pos, 3);
    case Nil => CoverWord(data, pos, 4);
    case Text(ks) => CoverText(data, pos, ks);
  }

  lemma CoverWord(data: seq<Byte>, pos: nat, c: nat)
    requires c < 6 && Has(data, pos, [c])
    ensures Choice(data, pos, 6) == (c, pos + 1)
  {
    ByteDecides(data, pos, 6, c);
  }

  lemma CoverWhole(data: seq<Byte>, pos: nat, n: nat)
    requires n < 1000 && Has(data, pos, [0] + [Low(n / 256), Low(n % 256)])
    ensures Choice(data, pos, 6) == (0, pos + 1) && Choice(data, pos + 1, 1000) == (n, pos + 3)
  {
    hide Choice, Has;
    Asked(data, pos, 6, 0, [Low(n / 256), Low(n % 256)]);
    TwoDecide(data, pos + 1, n);
  }

  lemma CoverDecimal(data: seq<Byte>, pos: nat, n: nat, f: nat)
    requires n < 1000 && f < 100 && Has(data, pos, [1] + ([Low(n / 256), Low(n % 256)] + [Low(f)]))
    ensures Choice(data, pos, 6) == (1, pos + 1) && Choice(data, pos + 1, 1000) == (n, pos + 3)
    ensures Choice(data, pos + 3, 100) == (f, pos + 4)
  {
    hide Choice, Has;
    Asked(data, pos, 6, 1, [Low(n / 256), Low(n % 256)] + [Low(f)]);
    HasBoth(data, pos + 1, [Low(n / 256), Low(n % 256)], [Low(f)]);
    TwoDecide(data, pos + 1, n);
    ByteDecides(data, pos + 3, 100, f);
  }

  lemma CoverText(data: seq<Byte>, pos: nat, ks: seq<LetterId>)
    requires |ks| <= 5 && Has(data, pos, [5] + ([Low(|ks|)] + AskNames(ks)))
    ensures Choice(data, pos, 6) == (5, pos + 1) && Choice(data, pos + 1, 6) == (|ks|, pos + 2)
    ensures DrawLetters(data, pos + 2, |ks|) == (ks, pos + 2 + |AskNames(ks)|)
  {
    hide Choice, Has, AskNames, DrawLetters;
    Asked(data, pos, 6, 5, [Low(|ks|)] + AskNames(ks));
    Asked(data, pos + 1, 6, |ks|, AskNames(ks));
    CoverLetters(data, pos + 2, ks);
  }

  lemma CoverCallee(data: seq<Byte>, pos: nat, f: Callee, n: nat)
    requires 2 <= n <= 3 && (n == 2 ==> !f.Method?) && Has(data, pos, AskCallee(f))
    ensures DrawCallee(data, pos, n) == (f, pos + |AskCallee(f)|)
  {
    hide Choice, Has, DrawName;
    match f
    case Global(g) =>
      Asked(data, pos, n, 0, [Low(g)]);
      ByteDecides(data, pos + 1, 5, g);
    case Local(i) =>
      Asked(data, pos, n, 1, [Low(i)]);
      LastName(data, pos + 1, i);
    case Method(i, m) =>
      Asked(data, pos, n, 2, [Low(i)] + [Low(m)]);
      CoverName(data, pos + 1, i, [Low(m)]);
      LastName(data, pos + 2, m);
  }

  lemma {:induction false} CoverExp(data: seq<Byte>, pos: nat, budget: int, e: Exp)
    requires ProperExp(e) && CostExp(e) < budget && Has(data, pos, AskExp(e))
    ensures DrawExp(data, pos, budget) == Drew(e, pos + |AskExp(e)|, budget - CostExp(e))
    decreases e, 2
  {
    hide Choice, Has, DrawKind, ProperExp;
    var c, rest := KindOf(e), AskExp(e)[1..];
    assert AskExp(e) == [Low(c)] + rest;
    Asked(data, pos, 10, c, rest);
    CoverKind(data, pos + 1, budget - 1, e);
  }

  /** The byte that chooses the kind of an expression. */
  function KindOf(e: Exp): (c: nat)
    ensures c < 10
  {
    match e
    case Literal(_) => 0
    case Named(_) => 2
    case Binary(_, _, _) => 3
    case Unary(_, _) => 4
    case Grouped(_) => 5
    case TableOf(_) => 6
    case Item(_, _) => 7
    case Member(_, _) => 7
    case CallOf(_, _) => 8
    case FunctionOf(_, _) => 9
  }

  lemma {:induction false} CoverKind(data: seq<Byte>, pos: nat, budget: int, e: Exp)
    requires ProperExp(e) && CostExp(e) <= budget && Has(data, pos, AskExp(e)[1..])
    ensures DrawKind(data, pos, budget, KindOf(e)) == Drew(e, pos + |AskExp(e)| - 1, budget - CostExp(e) + 1)
    decreases e, 1
  {
    hide Choice, Has, AskExp, CostExp, ProperExp, DrawKind;
    match e
    case Binary(_, _, _) => CoverLong(data, pos, budget, e);
    case TableOf(_) => CoverLong(data, pos, budget, e);
    case CallOf(_, _) => CoverLong(data, pos, budget, e);
    case FunctionOf(_, _) => CoverLong(data, pos, budget, e);
    case _ => CoverShort(data, pos, budget, e);
  }

  lemma {:induction false} CoverShort(data: seq<Byte>, pos: nat, budget: int, e: Exp)
    requires e.Literal? || e.Named? || e.Unary? || e.Grouped? || e.Item? || e.Member?
    requires ProperExp(e) && CostExp(e) <= budget && Has(data, pos, AskExp(e)[1..])
    ensures DrawKind(data, pos, budget, KindOf(e)) == Drew(e, pos + |AskExp(e)| - 1, budget - CostExp(e) + 1)
    decreases e, 0
  {
    hide Choice, Has, DrawExp, DrawAtom, DrawName, DrawCallee, DrawArgs, DrawParams, DrawBlk, DrawFields,
         AskAtom, AskCallee, AskArgs, AskParams, AskBlk, AskFields, CostExps, CostBlk, CostFields,
         ProperAtom, ProperExps, ProperBlk, ProperFields;
    match e
    case Literal(a) =>
      assert AskExp(e)[1..] == AskAtom(a);
      CoverAtom(data, pos, a);
    case Named(i) =>
      assert AskExp(e)[1..] == [Low(i)];
      LastName(data, pos, i);
    case Unary(u, a) =>
      assert AskExp(e)[1..] == [Low(u)] + AskExp(a);
      Asked(data, pos, 3, u, AskExp(a));
      CoverExp(data, pos + 1, budget, a);
    case Grouped(a) =>
      assert AskExp(e)[1..] == AskExp(a);
      CoverExp(data, pos, budget, a);
    case Item(i, k) =>
      assert AskExp(e)[1..] == [Low(i)] + ([0] + AskExp(k));
      CoverName(data, pos, i, [0] + AskExp(k));
      Asked(data, pos + 1, 2, 0, AskExp(k));
      CoverExp(data, pos + 2, budget, k);
    case Member(i, m) =>
      assert AskExp(e)[1..] == [Low(i)] + ([1] + [Low(m)]);
      CoverName(data, pos, i, [1] + [Low(m)]);
      Asked(data, pos + 1, 2, 1, [Low(m)]);
      LastName(data, pos + 2, m);
  }

  lemma {:induction false} CoverLong(data: seq<Byte>, pos: nat, budget: int, e: Exp)
    requires e.Binary? || e.TableOf? || e.CallOf? || e.FunctionOf?
    requires ProperExp(e) && CostExp(e) <= budget && Has(data, pos, AskExp(e)[1..])
    ensures DrawKind(data, pos, budget, KindOf(e)) == Drew(e, pos + |AskExp(e)| - 1, budget - CostExp(e) + 1)
    decreases e, 0
  {
    hide Choice, Has, DrawExp, DrawAtom, DrawName, DrawCallee, DrawArgs, DrawParams, DrawBlk, DrawFields,
         AskAtom, AskCallee, AskArgs, AskParams, AskBlk, AskFields, CostExps, CostBlk, CostFields,
         ProperAtom, ProperExps, ProperBlk, ProperFields;
    match e
    case Binary(l, op, r) =>
      var tail := [Low(op)] + AskExp(r);
      assert AskExp(e)[1..] == AskExp(l) + tail;
      HasBoth(data, pos, AskExp(l), tail);
      CoverExp(data, pos, budget, l);
      Asked(data, pos + |AskExp(l)|, 15, op, AskExp(r));
      CoverExp(data, pos + |AskExp(l)| + 1, budget - CostExp(l), r);
    case TableOf(fs) =>
      assert AskExp(e)[1..] == [Low(|fs|)] + AskFields(fs);
      Asked(data, pos, 4, |fs|, AskFields(fs));
      CoverFields(data, pos + 1, budget, fs);
    case CallOf(f, args) =>
      assert AskExp(e)[1..] == AskCallee(f) + AskArgs(args);
      HasBoth(data, pos, AskCallee(f), AskArgs(args));
      CoverCallee(data, pos, f, 3);
      CoverArgs(data, pos + |AskCallee(f)|, budget, args);
    case FunctionOf(ps, body) =>
      assert AskExp(e)[1..] == AskParams(ps) + AskBlk(body);
      HasBoth(data, pos, AskParams(ps), AskBlk(body));
      CoverParams(data, pos, ps);
      CoverBlk(data, pos + |AskParams(ps)|, budget, 2, false, body);
  }

  lemma {:induction false} CoverExps(data: seq<Byte>, pos: nat, budget: int, es: seq<Exp>)
    requires ProperExps(es) && CostExps(es) < budget && Has(data, pos, AskExps(es))
    ensures DrawExps(data, pos, budget, |es|) == Drew(es, pos + |AskExps(es)|, budget - CostExps(es))
    decreases es, 0
  {
    hide Choice, Has, DrawExp, AskExp, CostExp, ProperExp;
    if es != [] {
      var n := |es| - 1;
      HasBoth(data, pos, AskExps(es[..n]), AskExp(es[n]));
      CoverExps(data, pos, budget, es[..n]);
      CoverExp(data, pos + |AskExps(es[..n])|, budget - CostExps(es[..n]), es[n]);
      assert es == es[..n] + [es[n]];
    }
  }

  lemma {:induction false} CoverArgs(data: seq<Byte>, pos: nat, budget: int, es: seq<Exp>)
    requires ProperExps(es) && |es| <= 2 && CostExps(es) < budget && Has(data, pos, AskArgs(es))
    ensures DrawArgs(data, pos, budget) == Drew(es, pos + |AskArgs(es)|, budget - CostExps(es))
    decreases es, 1
  {
    hide Choice, Has, DrawExps, AskExps, CostExps, ProperExps;
    Asked(data, pos, 3, |es|, AskExps(es));
    CoverExps(data, pos + 1, budget, es);
  }

  lemma {:induction false} CoverField(data: seq<Byte>, pos: nat, budget: int, f: Field)
    requires ProperField(f) && CostField(f) < budget && Has(data, pos, AskField(f))
    ensures DrawField(data, pos, budget) == Drew(f, pos + |AskField(f)|, budget - CostField(f))
    decreases f, 0
  {
    hide Choice, Has, DrawExp, AskExp, CostExp, ProperExp, DrawName;
    match f
    case Listed(e) =>
      Asked(data, pos, 3, 0, AskExp(e));
      CoverExp(data, pos + 1, budget, e);
    case Keyed(i, e) =>
      Asked(data, pos, 3, 1, [Low(i)] + AskExp(e));
      CoverName(data, pos + 1, i, AskExp(e));
      CoverExp(data, pos + 2, budget, e);
    case Computed(k, e) =>
      Asked(data, pos, 3, 2, AskExp(k) + AskExp(e));
      HasBoth(data, pos + 1, AskExp(k), AskExp(e));
      CoverExp(data, pos + 1, budget, k);
      CoverExp(data, pos + 1 + |AskExp(k)|, budget - CostExp(k), e);
  }

  lemma {:induction false} CoverFields(data: seq<Byte>, pos: nat, budget: int, fs: seq<Field>)
    requires ProperFields(fs) && CostFields(fs) < budget && Has(data, pos, AskFields(fs))
    ensures DrawFields(data, pos, budget, |fs|) == Drew(fs, pos + |AskFields(fs)|, budget - CostFields(fs))
    decreases fs, 0
  {
    hide Choice, Has, DrawField, AskField, CostField, ProperField;
    if fs != [] {
      var n := |fs| - 1;
      HasBoth(data, pos, AskFields(fs[..n]), AskField(fs[n]));
      CoverFields(data, pos, budget, fs[..n]);
      CoverField(data, pos + |AskFields(fs[..n])|, budget - CostFields(fs[..n]), fs[n]);
      assert fs == fs[..n] + [fs[n]];
    }
  }

  lemma {:induction false} CoverBlk(data: seq<Byte>, pos: nat, budget: int, max: nat, inLoop: bool, b: Blk)
    requires 1 <= max <= 6 && ProperBlk(b, max, inLoop) && CostBlk(b) < budget && Has(data, pos, AskBlk(b))
    ensures DrawBlk(data, pos, budget, max, inLoop) == Drew(b, pos + |AskBlk(b)|, budget - CostBlk(b))
    decreases b, 0
  {
    hide Choice, Has, DrawStms, DrawRet, AskStms, AskRet, CostStms, CostRet, ProperStms, ProperExp;
    var ss := b.stms;
    Asked(data, pos, max + 1, |ss|, AskStms(ss) + AskRet(b.ret));
    HasBoth(data, pos + 1, AskStms(ss), AskRet(b.ret));
    CoverStms(data, pos + 1, budget, ss, inLoop);
    CoverRet(data, pos + 1 + |AskStms(ss)|, budget - CostStms(ss), b.ret);
  }

  lemma {:induction false} CoverStms(data: seq<Byte>, pos: nat, budget: int, ss: seq<Stm>, inLoop: bool)
    requires ProperStms(ss, inLoop) && CostStms(ss) < budget && Has(data, pos, AskStms(ss))
    ensures DrawStms(data, pos, budget, |ss|, inLoop) == Drew(ss, pos + |AskStms(ss)|, budget - CostStms(ss))
    decreases ss, 0
  {
    hide Choice, Has, DrawStm, AskStm, CostStm, ProperStm;
    if ss != [] {
      var n := |ss| - 1;
      HasBoth(data, pos, AskStms(ss[..n]), AskStm(ss[n]));
      CoverStms(data, pos, budget, ss[..n], inLoop);
      CoverStm(data, pos + |AskStms(ss[..n])|, budget - CostStms(ss[..n]), ss[n], inLoop);
      assert ss == ss[..n] + [ss[n]];
    }
  }

  lemma {:induction false} CoverRet(data: seq<Byte>, pos: nat, budget: int, r: Ret)
    requires (r.Value? ==> ProperExp(r.e)) && CostRet(r) < budget && Has(data, pos, AskRet(r))
    ensures DrawRet(data, pos, budget) == Drew(r, pos + |AskRet(r)|, budget - CostRet(r))
    decreases r, 0
  {
    hide Choice, Has, DrawExp, AskExp, CostExp, ProperExp;
    match r
    case NoReturn => ByteDecides(data, pos, 4, 1);
    case Bare =>
      Asked(data, pos, 4, 0, [1]);
      ByteDecides(data, pos + 1, 2, 1);
    case Value(e) =>
      Asked(data, pos, 4, 0, [0] + AskExp(e));
      Asked(data, pos + 1, 2, 0, AskExp(e));
      CoverExp(data, pos + 2, budget, e);
  }

  lemma {:induction false} CoverStride(data: seq<Byte>, pos: nat, budget: int, s: Stride, rest: seq<Byte>)
    requires (s.By? ==> ProperExp(s.e)) && CostStride(s) < budget && Has(data, pos, AskStride(s) + rest)
    ensures DrawStride(data, pos, budget) == Drew(s, pos + |AskStride(s)|, budget - CostStride(s))
    ensures Has(data, pos + |AskStride(s)|, rest)
    decreases s, 0
  {
    hide Choice, Has, DrawExp, AskExp, CostExp, ProperExp;
    HasBoth(data, pos, AskStride(s), rest);
    match s
    case ByOne => ByteDecides(data, pos, 2, 1);
    case By(e) =>
      Asked(data, pos, 2, 0, AskExp(e));
      CoverExp(data, pos + 1, budget, e);
  }

  lemma {:induction false} CoverElse(data: seq<Byte>, pos: nat, budget: int, no: Otherwise, inLoop: bool)
    requires (no.ElseDo? ==> ProperBlk(no.b, 2, inLoop)) && CostElse(no) < budget && Has(data, pos, AskElse(no))
    ensures DrawElse(data, pos, budget, inLoop) == Drew(no, pos + |AskElse(no)|, budget - CostElse(no))
    decreases no, 0
  {
    hide Choice, Has, DrawBlk, AskBlk, CostBlk, ProperBlk;
    match no
    case NoElse => ByteDecides(data, pos, 2, 1);
    case ElseDo(b) =>
      Asked(data, pos, 2, 0, AskBlk(b));
      CoverBlk(data, pos + 1, budget, 2, inLoop, b);
  }

  /** The byte that chooses the kind of a statement. */
  function StmKind(s: Stm): (c: nat)
    ensures c < 12
  {
    match s
    case LocalOf(_, _) => 0
    case Update(_, _, _) => 1
    case IfDo(_, _, _) => 2
    case WhileDo(_, _) => 3
    case ForDo(_, _, _, _, _) => 4
    case RepeatUntil(_, _) => 5
    case DoEnd(_) => 6
    case Declare(local, _, _, _) => if local then 7 else 8
    case CallStm(_, _) => 9
    case BreakStm => 10
    case ContinueStm => 11
  }

  lemma {:induction false} CoverStm(data: seq<Byte>, pos: nat, budget: int, s: Stm, inLoop: bool)
    requires ProperStm(s, inLoop) && CostStm(s) < budget && Has(data, pos, AskStm(s))
    ensures DrawStm(data, pos, budget, inLoop) == Drew(s, pos + |AskStm(s)|, budget - CostStm(s))
    decreases s, 2
  {
    hide Choice, Has, DrawCompound, DrawSimple;
    var c, rest := StmKind(s), AskStm(s)[1..];
    assert AskStm(s) == [Low(c)] + rest;
    if s.BreakStm? || s.ContinueStm? {
      ByteDecides(data, pos, 12, c);
    } else {
      Asked(data, pos, 12, c, rest);
      if 2 <= c <= 6 {
        CoverCompound(data, pos + 1, budget - 1, s, inLoop);
      } else {
        CoverSimple(data, pos + 1, budget - 1, s, inLoop);
      }
    }
  }

  lemma {:induction false} CoverCompound(data: seq<Byte>, pos: nat, budget: int, s: Stm, inLoop: bool)
    requires 2 <= StmKind(s) <= 6 && ProperStm(s, inLoop) && CostStm(s) <= budget && Has(data, pos, AskStm(s)[1..])
    ensures DrawCompound(data, pos, budget, StmKind(s), inLoop)
         == Drew(s, pos + |AskStm(s)| - 1, budget - CostStm(s) + 1)
    decreases s, 1
  {
    hide Choice, Has, DrawExp, DrawBlk, DrawIf, DrawFor, AskExp, CostExp, ProperExp, AskBlk, CostBlk, ProperBlk;
    match s
    case IfDo(_, _, _) => CoverIf(data, pos, budget, s, inLoop);
    case WhileDo(c, body) =>
      assert AskStm(s)[1..] == AskExp(c) + AskBlk(body);
      HasBoth(data, pos, AskExp(c), AskBlk(body));
      CoverExp(data, pos, budget, c);
      CoverBlk(data, pos + |AskExp(c)|, budget - CostExp(c), 2, true, body);
    case ForDo(_, _, _, _, _) => CoverFor(data, pos, budget, s);
    case RepeatUntil(body, c) =>
      assert AskStm(s)[1..] == AskBlk(body) + AskExp(c);
      HasBoth(data, pos, AskBlk(body), AskExp(c));
      CoverBlk(data, pos, budget, 2, true, body);
      CoverExp(data, pos + |AskBlk(body)|, budget - CostBlk(body), c);
    case DoEnd(body) =>
      assert AskStm(s)[1..] == AskBlk(body);
      CoverBlk(data, pos, budget, 2, inLoop, body);
  }

  lemma {:induction false} CoverIf(data: seq<Byte>, pos: nat, budget: int, s: Stm, inLoop: bool)
    requires s.IfDo? && ProperStm(s, inLoop) && CostStm(s) <= budget && Has(data, pos, AskStm(s)[1..])
    ensures DrawIf(data, pos, budget, inLoop) == Drew(s, pos + |AskStm(s)| - 1, budget - CostStm(s) + 1)
    decreases s, 0
  {
    hide Choice, Has, DrawExp, DrawBlk, DrawElse, AskExp, CostExp, ProperExp, AskBlk, CostBlk, ProperBlk;
    var c, yes, no := s.c, s.yes, s.no;
    var tail := AskBlk(yes) + AskElse(no);
    assert AskStm(s)[1..] == AskExp(c) + tail;
    HasBoth(data, pos, AskExp(c), tail);
    var p := pos + |AskExp(c)|;
    HasBoth(data, p, AskBlk(yes), AskElse(no));
    CoverExp(data, pos, budget, c);
    CoverBlk(data, p, budget - CostExp(c), 2, inLoop, yes);
    CoverElse(data, p + |AskBlk(yes)|, budget - CostExp(c) - CostBlk(yes), no, inLoop);
  }

  lemma {:induction false} CoverFor(data: seq<Byte>, pos: nat, budget: int, s: Stm)
    requires s.ForDo? && ProperStm(s, true) && CostStm(s) <= budget && Has(data, pos, AskStm(s)[1..])
    ensures DrawFor(data, pos, budget) == Drew(s, pos + |AskStm(s)| - 1, budget - CostStm(s) + 1)
    decreases s, 0
  {
    hide Choice, Has, DrawName, DrawExp, DrawBlk, DrawStride, AskExp, CostExp, ProperExp, AskBlk, CostBlk, ProperBlk,
         AskStride, CostStride;
    var lo, hi := AskExp(s.lo), AskExp(s.hi);
    var last := AskStride(s.step) + AskBlk(s.body);
    assert AskStm(s)[1..] == [Low(s.i)] + (lo + (hi + last));
    CoverName(data, pos, s.i, lo + (hi + last));
    HasBoth(data, pos + 1, lo, hi + last);
    HasBoth(data, pos + 1 + |lo|, hi, last);
    CoverExp(data, pos + 1, budget, s.lo);
    CoverExp(data, pos + 1 + |lo|, budget - CostExp(s.lo), s.hi);
    var p, left := pos + 1 + |lo| + |hi|, budget - CostExp(s.lo) - CostExp(s.hi);
    CoverStride(data, p, left, s.step, AskBlk(s.body));
    CoverBlk(data, p + |AskStride(s.step)|, left - CostStride(s.step), 2, true, s.body);
  }

  lemma {:induction false} CoverSimple(data: seq<Byte>, pos: nat, budget: int, s: Stm, inLoop: bool)
    requires (StmKind(s) <= 1 || 7 <= StmKind(s) <= 9) && ProperStm(s, inLoop) && CostStm(s) <= budget
    requires Has(data, pos, AskStm(s)[1..])
    ensures DrawSimple(data, pos, budget, StmKind(s), inLoop) == Drew(s, pos + |AskStm(s)| - 1, budget - CostStm(s) + 1)
    decreases s, 0
  {
    hide Choice, Has, DrawExp, DrawBlk, DrawName, DrawParams, DrawCallee, DrawArgs, AskExp, CostExp, ProperExp, AskBlk,
         CostBlk, ProperBlk, AskParams, AskCallee, AskArgs;
    match s
    case LocalOf(i, e) =>
      assert AskStm(s)[1..] == [Low(i)] + AskExp(e);
      CoverName(data, pos, i, AskExp(e));
      CoverExp(data, pos + 1, budget, e);
    case Update(i, op, e) =>
      assert AskStm(s)[1..] == [Low(i)] + ([Low(op)] + AskExp(e));
      CoverName(data, pos, i, [Low(op)] + AskExp(e));
      Asked(data, pos + 1, 7, op, AskExp(e));
      CoverExp(data, pos + 2, budget, e);
    case Declare(_, i, ps, body) =>
      assert AskStm(s)[1..] == [Low(i)] + (AskParams(ps) + AskBlk(body));
      CoverName(data, pos, i, AskParams(ps) + AskBlk(body));
      HasBoth(data, pos + 1, AskParams(ps), AskBlk(body));
      CoverParams(data, pos + 1, ps);
      CoverBlk(data, pos + 1 + |AskParams(ps)|, budget, 3, false, body);
    case CallStm(f, args) =>
      assert AskStm(s)[1..] == AskCallee(f) + AskArgs(args);
      HasBoth(data, pos, AskCallee(f), AskArgs(args));
      CoverCallee(data, pos, f, 2);
      CoverArgs(data, pos + |AskCallee(f)|, budget, args);
  }

  // ----- every program is made -----

  /** The programs that the generator has the budget for. */
  predicate Affordable(b: Blk)
  {
    ProperBlk(b, 6, false) && CostBlk(b) < Grammar.BUDGET
  }

  /** What the bytes of a program ask for is that program, whatever follows them. */
  lemma EveryProgram(b: Blk, more: seq<Byte>)
    requires Affordable(b)
    ensures DrawBlk(AskBlk(b) + more, 0, Grammar.BUDGET, 6, false).v == b
  {
    hide DrawBlk, AskBlk, ProperBlk, CostBlk;
    var data := AskBlk(b) + more;
    assert data[0..0 + |AskBlk(b)|] == AskBlk(b);
    CoverBlk(data, 0, Grammar.BUDGET, 6, false, b);
  }

  /** For every program of the grammar within the budget there are bytes for which
      the generator writes exactly its tokens. */
  method Reach(b: Blk) returns (data: seq<Byte>, out: seq<Token>)
    requires Affordable(b)
    ensures data == AskBlk(b) && out == Program(b)
  {
    hide DrawBlk, AskBlk, Affordable, Program;
    data := AskBlk(b);
    EveryProgram(b, []);
    assert data + [] == data;
    ghost var calls;
    out, calls := Grammar.Generate(data);
  }

  // ----- a program whose text is not what was meant -----

  /** `f(--b)`. */
  const TWICE := Unary(0, Unary(0, Named(1)))
  const NEGATING := Blk([CallStm(Local(5), [TWICE])], NoReturn)

  lemma NegatingCosts()
    ensures Affordable(NEGATING)
  {
    var call := CallStm(Local(5), [TWICE]);
    assert CostExps([]) == 0 && [TWICE][..0] == [] && CostStms([]) == 0 && [call][..0] == [];
    assert CostExp(TWICE) == 3;
    assert CostExps([TWICE]) == 3;
    assert CostStm(call) == 4;
    assert CostStms([call]) == 4;
    assert ProperExp(TWICE);
    assert ProperExps([TWICE]);
    assert ProperStm(call, false);
  }

  lemma TwiceBytes()
    ensures AskExp(TWICE) == [4, 0, 4, 0, 2, 1]
  {
    assert AskExp(Unary(0, Named(1))) == [4, 0, 2, 1];
  }

  const CALLING := CallStm(Local(5), [TWICE])

  lemma CallingBytes()
    ensures AskStm(CALLING) == [9, 1, 5, 1, 4, 0, 4, 0, 2, 1]
  {
    TwiceBytes();
    hide AskExp;
    OneExp(TWICE);
    hide AskExps;
    assert AskCallee(Local(5)) == [1, 5];
    assert AskArgs([TWICE]) == [1, 4, 0, 4, 0, 2, 1];
  }

  lemma OneExp(e: Exp)
    ensures AskExps([e]) == AskExp(e)
  {
    hide AskExp;
    assert [e][..0] == [];
    assert AskExps([]) == [];
  }

  lemma OneStm(s: Stm)
    ensures AskStms([s]) == AskStm(s)
  {
    hide AskStm;
    assert [s][..0] == [];
    assert AskStms([]) == [];
  }

  lemma NegatingBytes()
    ensures AskBlk(NEGATING) == [1, 9, 1, 5, 1, 4, 0, 4, 0, 2, 1, 1]
  {
    CallingBytes();
    OneStm(CALLING);
    hide AskStm, AskStms, AskExp;
    assert NEGATING.stms == [CALLING] && AskRet(NoReturn) == [1];
  }

  lemma NegatingTokens()
    ensures Program(NEGATING) == CALL
  {
    var call := CallStm(Local(5), [TWICE]);
    assert [TWICE][..0] == [] && [call][..0] == [];
    var f := [] + [Word("f")];
    assert NameToken(5) == Word("f") && NameToken(1) == Word("b");
    assert OnExp(OPENED, TWICE) == NEGATED;
    assert f == [Word("f")];
    assert OnExps(f + [Open(Paren)], [TWICE]) == OnExp(OnExps(f + [Open(Paren)], []), TWICE);
    assert OnStm([], call) == NEGATED + [Close(Paren)];
    assert OnStms([], [call]) == OnStm(OnStms([], []), call) + [Newline];
    assert OnStms([], []) == [];
    assert NEGATING.stms == [call] && OnRet(CALL, NoReturn) == CALL;
  }

  /** The generator does write a comment where it means a double negation: the
      tokens are nested, their text is not. */
  method WritesAComment() returns (data: seq<Byte>, out: seq<Token>)
    ensures data == [1, 9, 1, 5, 1, 4, 0, 4, 0, 2, 1, 1]
    ensures out == CALL && Scan(out) == At([]) && !NestedText(SourceOf(out))
  {
    hide Scan, NestedText, SourceOf, Laid, Affordable, Program, AskBlk;
    NegatingCosts();
    NegatingBytes();
    NegatingTokens();
    CommentSwallows();
    data, out := Reach(NEGATING);
  }
}
