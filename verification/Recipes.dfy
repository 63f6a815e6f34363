/** Which deterministic programs can be made: for every list of statements of the
  generator's forms, within its ranges and depths, there are bytes that ask for it.
 */
module Recipes {
  import opened Basics
  import opened Bytes
  import opened Luau
  import opened SourceText
  import opened Computational

  /** The forms of expressions. */
  datatype Recipe =
    | Variable(i: nat)
    | Whole(k: nat)
    | Decimal(k: nat)
    | Truth(b: bool)
    | Quotation(k: nat)
    | Arithmetic(op: nat, x: Recipe, y: Recipe)
    | Comparison(op: nat, x: Recipe, y: Recipe)
    | Both(x: Recipe, y: Recipe)
    | Either(x: Recipe, y: Recipe)
    | Joined(x: Recipe, y: Recipe)
    | Single(f: nat, x: Recipe)
    | Negated(x: Recipe)

  predicate IsAtom(r: Recipe)
  {
    r.Variable? || r.Whole? || r.Decimal? || r.Truth? || r.Quotation?
  }

  /** The expression: operands in their order. */
  function Make(r: Recipe): Expr
  {
    match r
    case Variable(i) => Var(V(i))
    case Whole(k) => Lit(WholeData(k))
    case Decimal(k) => Lit(DecimalData(k))
    case Truth(b) => Lit(LBool(b))
    case Quotation(k) => Lit(StringData(k))
    case Arithmetic(op, x, y) => Op(if op < 7 then ARITHMETIC[op] else "", [Make(x), Make(y)])
    case Comparison(op, x, y) => Op(if op < 6 then COMPARISON[op] else "", [Make(x), Make(y)])
    case Both(x, y) => And(Make(x), Make(y))
    case Either(x, y) => Or(Make(x), Make(y))
    case Joined(x, y) => Op("..", [Call(TO_STRING, [Make(x)]), Call(TO_STRING, [Make(y)])])
    case Single(f, x) =>
      if f == 3 then Op("-", [Make(x)])
      else if f == 4 then Op("#", [Call(TO_STRING, [Make(x)])])
      else Call(Index(MATH, Lit(StringData(10 + f))), [Make(x)])
    case Negated(x) => Op("not", [Make(x)])
  }

  /** Within the ranges, with `n` variables and `depth` levels to go. */
  predicate Proper(n: nat, r: Recipe, depth: nat)
  {
    match r
    case Variable(i) => i < n
    case Whole(k) => k <= 1000
    case Decimal(k) => k <= 100000
    case Truth(_) => true
    case Quotation(k) => k <= 9
    case Arithmetic(op, x, y) => op < 7 && depth > 0 && Proper(n, x, depth - 1) && Proper(n, y, depth - 1)
    case Comparison(op, x, y) => op < 6 && depth > 0 && Proper(n, x, depth - 1) && Proper(n, y, depth - 1)
    case Both(x, y) => depth > 0 && Proper(n, x, depth - 1) && Proper(n, y, depth - 1)
    case Either(x, y) => depth > 0 && Proper(n, x, depth - 1) && Proper(n, y, depth - 1)
    case Joined(x, y) => depth > 0 && Proper(n, x, depth - 1) && Proper(n, y, depth - 1)
    case Single(f, x) => f <= 4 && depth > 0 && Proper(n, x, depth - 1)
    case Negated(x) => depth > 0 && Proper(n, x, depth - 1)
  }

  // ----- the bytes that ask for an expression -----

  function AskAtom(n: nat, r: Recipe): seq<Byte>
  {
    match r
    case Variable(i) => AskNumber(0, 4) + AskNumber(i, if n == 0 then 0 else n - 1)
    case Whole(k) => AskNumber(1, 4) + AskNumber(k, 1000)
    case Decimal(k) => AskNumber(2, 4) + AskNumber(k, 100000)
    case Truth(b) => AskNumber(3, 4) + AskFlag(b)
    case Quotation(k) => AskNumber(4, 4) + AskNumber(k, 9)
    case _ => []
  }

  function KindOf(r: Recipe): nat
  {
    match r
    case Arithmetic(_, _, _) => 2
    case Comparison(_, _, _) => 3
    case Both(_, _) => 4
    case Either(_, _) => 4
    case Joined(_, _) => 5
    case Single(_, _) => 6
    case Negated(_) => 7
    case _ => 0
  }

  function AskOperator(r: Recipe): seq<Byte>
  {
    match r
    case Arithmetic(op, _, _) => AskNumber(op, 6)
    case Comparison(op, _, _) => AskNumber(op, 5)
    case Both(_, _) => AskFlag(true)
    case Either(_, _) => AskFlag(false)
    case Single(f, _) => AskNumber(f, 4)
    case _ => []
  }

  predicate IsPair(r: Recipe) { 2 <= KindOf(r) <= 5 }

  function Ask(n: nat, r: Recipe, depth: nat): seq<Byte>
    decreases r
  {
    if IsAtom(r) then (if depth > 0 then AskNumber(0, 7) else []) + AskAtom(n, r)
    else
      var below := if depth > 0 then depth - 1 else 0;
      AskNumber(KindOf(r), 7) + (AskOperator(r) + (Ask(n, r.x, below) + if IsPair(r) then Ask(n, r.y, below) else []))
  }

  lemma CoverAtom(data: seq<Byte>, pos: nat, n: nat, r: Recipe)
    requires IsAtom(r) && Proper(n, r, 0) && Has(data, pos, AskAtom(n, r))
    ensures DrawAtom(data, pos, n) == (Make(r), pos + |AskAtom(n, r)|)
  {
    hide Has, Drawn, Flipped, AskNumber, AskFlag;
    match r
    case Variable(i) => Second(data, pos, 0, i, n - 1);
    case Whole(k) => Second(data, pos, 1, k, 1000);
    case Decimal(k) => Second(data, pos, 2, k, 100000);
    case Truth(b) =>
      HasBoth(data, pos, AskNumber(3, 4), AskFlag(b));
      DrawsNumber(data, pos, 0, 4, 3);
      Flips(data, pos + |AskNumber(3, 4)|, b);
      OneFlag(b);
    case Quotation(k) => Second(data, pos, 4, k, 9);
  }

  lemma OneFlag(b: bool)
    ensures |AskFlag(b)| == 1
  {
  }

  /** A choice among five, and then a number. */
  lemma Second(data: seq<Byte>, pos: nat, c: nat, k: nat, most: nat)
    requires c <= 4 && k <= most && Has(data, pos, AskNumber(c, 4) + AskNumber(k, most))
    ensures Drawn(data, pos, 0, 4) == (c, pos + |AskNumber(c, 4)|)
    ensures Drawn(data, pos + |AskNumber(c, 4)|, 0, most) == (k, pos + |AskNumber(c, 4) + AskNumber(k, most)|)
  {
    hide Has, Drawn, AskNumber;
    HasBoth(data, pos, AskNumber(c, 4), AskNumber(k, most));
    DrawsNumber(data, pos, 0, 4, c);
    DrawsNumber(data, pos + |AskNumber(c, 4)|, 0, most, k);
  }

  lemma NotEmpty(v: nat, span: nat)
    requires span > 0
    ensures |AskNumber(v, span)| > 0
  {
  }

  lemma StandsInside(data: seq<Byte>, pos: nat, bytes: seq<Byte>)
    requires Has(data, pos, bytes) && bytes != []
    ensures pos < |data|
  {
  }

  lemma CoverOperator(data: seq<Byte>, pos: nat, n: nat, r: Recipe, depth: nat)
    requires IsPair(r) && Proper(n, r, depth) && Has(data, pos, AskOperator(r))
    ensures var (op, both, p) := DrawOperator(data, pos, KindOf(r));
      p == pos + |AskOperator(r)| && forall a, b :: PairOf(KindOf(r), op, both, a, b) == PairMade(r, a, b)
  {
    hide Has, Drawn, Flipped, AskNumber, AskFlag, Proper;
    ProperOperator(n, r, depth);
    match r
    case Arithmetic(op, _, _) => DrawsNumber(data, pos, 0, 6, op);
    case Comparison(op, _, _) => DrawsNumber(data, pos, 0, 5, op);
    case Both(_, _) => Flips(data, pos, true); OneFlag(true);
    case Either(_, _) => Flips(data, pos, false); OneFlag(false);
    case Joined(_, _) =>
  }

  lemma ProperOperator(n: nat, r: Recipe, depth: nat)
    requires Proper(n, r, depth)
    ensures (r.Arithmetic? ==> r.op < 7) && (r.Comparison? ==> r.op < 6) && (r.Single? ==> r.f <= 4)
    ensures !IsAtom(r) ==> depth > 0 && Proper(n, r.x, depth - 1)
    ensures IsPair(r) ==> Proper(n, r.y, depth - 1)
    ensures IsAtom(r) ==> Proper(n, r, 0)
  {
  }

  /** A pair, its operands made. */
  function PairMade(r: Recipe, a: Expr, b: Expr): Expr
  {
    match r
    case Arithmetic(op, _, _) => Op(if op < 7 then ARITHMETIC[op] else "", [a, b])
    case Comparison(op, _, _) => Op(if op < 6 then COMPARISON[op] else "", [a, b])
    case Both(_, _) => And(a, b)
    case Either(_, _) => Or(a, b)
    case _ => Op("..", [Call(TO_STRING, [a]), Call(TO_STRING, [b])])
  }

  /** Every expression of these forms is drawn, whatever stands around its bytes. */
  lemma {:induction false} Cover(data: seq<Byte>, pos: nat, n: nat, r: Recipe, depth: nat)
    requires Proper(n, r, depth) && Has(data, pos, Ask(n, r, depth))
    ensures DrawExpr(data, pos, n, depth) == (Make(r), pos + |Ask(n, r, depth)|)
    decreases r, 1
  {
    hide Has, Drawn, AskNumber, DrawAtom, AskAtom, DrawPair, Make, Proper, AskOperator;
    ProperOperator(n, r, depth);
    if IsAtom(r) {
      if depth > 0 {
        NotEmpty(0, 7);
        StandsInside(data, pos, AskNumber(0, 7) + AskAtom(n, r));
        HasBoth(data, pos, AskNumber(0, 7), AskAtom(n, r));
        DrawsNumber(data, pos, 0, 7, 0);
        CoverAtom(data, pos + |AskNumber(0, 7)|, n, r);
      } else {
        assert [] + AskAtom(n, r) == AskAtom(n, r);
        CoverAtom(data, pos, n, r);
      }
    } else {
      NotEmpty(KindOf(r), 7);
      StandsInside(data, pos, Ask(n, r, depth));
      CoverInner(data, pos, n, r, depth);
    }
  }

  lemma {:induction false} CoverInner(data: seq<Byte>, pos: nat, n: nat, r: Recipe, depth: nat)
    requires !IsAtom(r) && Proper(n, r, depth) && Has(data, pos, Ask(n, r, depth)) && pos < |data|
    ensures DrawExpr(data, pos, n, depth) == (Make(r), pos + |Ask(n, r, depth)|)
    decreases r, 0
  {
    hide Has, Drawn, AskNumber, DrawAtom, AskAtom, DrawPair, Proper, AskOperator;
    ProperOperator(n, r, depth);
    var kind, op, x := AskNumber(KindOf(r), 7), AskOperator(r), Ask(n, r.x, depth - 1);
    var y := if IsPair(r) then Ask(n, r.y, depth - 1) else [];
    assert Ask(n, r, depth) == kind + (op + (x + y));
    hide Ask;
    HasBoth(data, pos, kind, op + (x + y));
    HasBoth(data, pos + |kind|, op, x + y);
    HasBoth(data, pos + |kind| + |op|, x, y);
    DrawsNumber(data, pos, 0, 7, KindOf(r));
    Cover(data, pos + |kind| + |op|, n, r.x, depth - 1);
    if IsPair(r) {
      Cover(data, pos + |kind| + |op| + |x|, n, r.y, depth - 1);
      CoverPair(data, pos + |kind|, n, r, depth);
    } else {
      CoverSingle(data, pos + |kind|, n, r, depth);
    }
  }

  lemma CoverPair(data: seq<Byte>, pos: nat, n: nat, r: Recipe, depth: nat)
    requires IsPair(r) && Proper(n, r, depth) && depth > 0 && Has(data, pos, AskOperator(r))
    requires DrawExpr(data, pos + |AskOperator(r)|, n, depth - 1).0 == Make(r.x)
    requires var (a, q) := DrawExpr(data, pos + |AskOperator(r)|, n, depth - 1);
      DrawExpr(data, q, n, depth - 1).0 == Make(r.y)
    ensures var (a, q) := DrawExpr(data, pos + |AskOperator(r)|, n, depth - 1);
      DrawPair(data, pos, n, depth, KindOf(r)) == (Make(r), DrawExpr(data, q, n, depth - 1).1)
  {
    hide Has, DrawExpr, DrawOperator, AskOperator, Proper, PairOf;
    CoverOperator(data, pos, n, r, depth);
    var (op, both, p) := DrawOperator(data, pos, KindOf(r));
    assert PairOf(KindOf(r), op, both, Make(r.x), Make(r.y)) == PairMade(r, Make(r.x), Make(r.y));
  }

  /** The place behind the one operand, and what is around it. */
  lemma CoverSingle(data: seq<Byte>, pos: nat, n: nat, r: Recipe, depth: nat)
    requires !IsAtom(r) && !IsPair(r) && Proper(n, r, depth) && Has(data, pos, AskOperator(r))
    ensures r.Negated? ==> AskOperator(r) == [] && Make(r) == Op("not", [Make(r.x)])
    ensures r.Single? ==> Drawn(data, pos, 0, 4) == (r.f, pos + |AskOperator(r)|) && Make(r) == SingleOf(r.f, Make(r.x))
  {
    hide Has, Drawn, AskNumber, Proper;
    ProperOperator(n, r, depth);
    if r.Single? {
      DrawsNumber(data, pos, 0, 4, r.f);
    }
  }

  // ----- statements -----

  /** What one round adds: a print of a variable, a variable, a variable that a loop
      adds to, or one that is an item of a table. */
  datatype Step =
    | Show(i: nat)
    | Define(r: Recipe)
    | Add(rounds: nat, seed: Recipe, step: Recipe)
    | Pick(x: Recipe, y: Recipe, z: Recipe, k: nat)

  predicate ProperStep(n: nat, s: Step)
  {
    match s
    case Show(i) => i < n
    case Define(r) => Proper(n, r, 4)
    case Add(rounds, seed, step) => n > 0 && 1 <= rounds <= 8 && Proper(n, seed, 2) && Proper(n, step, 2)
    case Pick(x, y, z, k) => Proper(n, x, 2) && Proper(n, y, 2) && Proper(n, z, 2) && 1 <= k <= 3
  }

  function MakeStep(n: nat, s: Step): seq<Stmt>
  {
    match s
    case Show(i) => [Eval(Call(Var(Ident("print")), [Var(V(i))]))]
    case Define(r) => [Local(V(n), OWN, Make(r))]
    case Add(rounds, seed, step) =>
      [Local(V(n), OWN, Make(seed)),
       For(ROUND, OWN, Lit(WholeData(1)), Lit(WholeData(rounds)), [Assign(V(n), Op("+", [Var(V(n)), Make(step)]))])]
    case Pick(x, y, z, k) =>
      [Local(TABLE, OWN, Items([Make(x), Make(y), Make(z)])),
       Local(V(n), OWN, Index(Var(TABLE), Lit(WholeData(k))))]
  }

  function AskStep(n: nat, s: Step): seq<Byte>
  {
    match s
    case Show(i) => AskNumber(0, 4) + AskNumber(i, if n == 0 then 0 else n - 1)
    case Define(r) => AskNumber(1, 4) + Ask(n, r, 4)
    case Add(rounds, seed, step) =>
      AskNumber(2, 4) + (AskNumber(if rounds == 0 then 0 else rounds - 1, 7) + (Ask(n, seed, 2) + Ask(n, step, 2)))
    case Pick(x, y, z, k) =>
      AskNumber(3, 4) + (Ask(n, x, 2) + (Ask(n, y, 2) + (Ask(n, z, 2) + AskNumber(if k == 0 then 0 else k - 1, 2))))
  }

  lemma CoverStep(data: seq<Byte>, pos: nat, n: nat, s: Step)
    requires ProperStep(n, s) && Has(data, pos, AskStep(n, s))
    ensures DrawStatement(data, pos, n) == (MakeStep(n, s), pos + |AskStep(n, s)|)
  {
    hide Has, Drawn, AskNumber, Ask, DrawExpr, Proper, Make;
    match s
    case Show(i) => Second(data, pos, 0, i, n - 1);
    case Define(r) =>
      HasBoth(data, pos, AskNumber(1, 4), Ask(n, r, 4));
      DrawsNumber(data, pos, 0, 4, 1);
      Cover(data, pos + |AskNumber(1, 4)|, n, r, 4);
    case Add(_, _, _) => CoverAdd(data, pos, n, s);
    case Pick(_, _, _, _) => CoverPick(data, pos, n, s);
  }

  lemma CoverAdd(data: seq<Byte>, pos: nat, n: nat, s: Step)
    requires s.Add? && ProperStep(n, s) && Has(data, pos, AskStep(n, s))
    ensures DrawStatement(data, pos, n) == (MakeStep(n, s), pos + |AskStep(n, s)|)
  {
    hide Has, Drawn, AskNumber, Ask, DrawExpr, Proper, Make;
    var kind, rounds, seed := AskNumber(2, 4), AskNumber(s.rounds - 1, 7), Ask(n, s.seed, 2);
    var step := Ask(n, s.step, 2);
    HasBoth(data, pos, kind, rounds + (seed + step));
    HasBoth(data, pos + |kind|, rounds, seed + step);
    HasBoth(data, pos + |kind| + |rounds|, seed, step);
    DrawsNumber(data, pos, 0, 4, 2);
    DrawsNumber(data, pos + |kind|, 1, 8, s.rounds);
    Cover(data, pos + |kind| + |rounds|, n, s.seed, 2);
    Cover(data, pos + |kind| + |rounds| + |seed|, n, s.step, 2);
  }

  lemma CoverPick(data: seq<Byte>, pos: nat, n: nat, s: Step)
    requires s.Pick? && ProperStep(n, s) && Has(data, pos, AskStep(n, s))
    ensures DrawStatement(data, pos, n) == (MakeStep(n, s), pos + |AskStep(n, s)|)
  {
    hide Has, Drawn, AskNumber, Ask, DrawExpr, Proper, Make;
    var kind, k := AskNumber(3, 4), AskNumber(s.k - 1, 2);
    var x, y, z := Ask(n, s.x, 2), Ask(n, s.y, 2), Ask(n, s.z, 2);
    HasBoth(data, pos, kind, x + (y + (z + k)));
    HasBoth(data, pos + |kind|, x, y + (z + k));
    HasBoth(data, pos + |kind| + |x|, y, z + k);
    HasBoth(data, pos + |kind| + |x| + |y|, z, k);
    DrawsNumber(data, pos, 0, 4, 3);
    Cover(data, pos + |kind|, n, s.x, 2);
    Cover(data, pos + |kind| + |x|, n, s.y, 2);
    Cover(data, pos + |kind| + |x| + |y|, n, s.z, 2);
    DrawsNumber(data, pos + |kind| + |x| + |y| + |z|, 1, 3, s.k);
  }

  // ----- programs -----

  function After(n: nat, s: Step): nat
  {
    if s.Show? then n else n + 1
  }

  /** Every step has the variables it asks for. */
  predicate ProperSteps(n: nat, steps: seq<Step>)
    decreases |steps|
  {
    steps != [] ==> ProperStep(n, steps[0]) && ProperSteps(After(n, steps[0]), steps[1..])
  }

  function MakeSteps(n: nat, steps: seq<Step>): seq<Stmt>
    decreases |steps|
  {
    if steps == [] then [] else MakeStep(n, steps[0]) + MakeSteps(After(n, steps[0]), steps[1..])
  }

  function AskSteps(n: nat, steps: seq<Step>): seq<Byte>
    decreases |steps|
  {
    if steps == [] then [] else AskStep(n, steps[0]) + AskSteps(After(n, steps[0]), steps[1..])
  }

  lemma StepGrows(n: nat, s: Step)
    ensures n + Grows(MakeStep(n, s)) == After(n, s) && AskStep(n, s) != []
  {
    NotEmpty(0, 4);
    NotEmpty(1, 4);
    NotEmpty(2, 4);
    NotEmpty(3, 4);
    hide AskNumber, Ask, Make;
  }

  lemma {:induction false} CoverSteps(data: seq<Byte>, pos: nat, n: nat, steps: seq<Step>)
    requires ProperSteps(n, steps) && Has(data, pos, AskSteps(n, steps))
    ensures DrawRounds(data, pos, n, |steps|) == MakeSteps(n, steps)
    decreases |steps|
  {
    hide Has, DrawStatement, AskStep, MakeStep, ProperStep, Grows;
    if steps != [] {
      var s, rest := steps[0], AskSteps(After(n, steps[0]), steps[1..]);
      HasBoth(data, pos, AskStep(n, s), rest);
      StepGrows(n, s);
      StandsInside(data, pos, AskStep(n, s));
      CoverStep(data, pos, n, s);
      CoverSteps(data, pos + |AskStep(n, s)|, After(n, s), steps[1..]);
    }
  }

  function AskBody(steps: seq<Step>): seq<Byte>
  {
    if steps == [] then [] else AskNumber(|steps| - 1, 29) + AskSteps(0, steps)
  }

  /** Every list of at most 30 such steps is what the program does before it prints,
      for some bytes. */
  lemma EveryBody(steps: seq<Step>)
    requires ProperSteps(0, steps) && |steps| <= 30
    ensures DrawBody(AskBody(steps)) == MakeSteps(0, steps)
  {
    hide Has, Drawn, AskNumber, AskSteps, DrawRounds, MakeSteps;
    if steps == [] {
      NoRounds();
    } else {
      var data, count := AskBody(steps), AskNumber(|steps| - 1, 29);
      AllStands(data);
      HasBoth(data, 0, count, AskSteps(0, steps));
      DrawsNumber(data, 0, 1, 30, |steps|);
      CoverSteps(data, |count|, 0, steps);
    }
  }

  lemma NoRounds()
    ensures DrawBody([]) == MakeSteps(0, [])
  {
  }

  lemma AllStands(data: seq<Byte>)
    ensures Has(data, 0, data)
  {
    assert data[0..0 + |data|] == data;
  }

  /** Such a program is made, prints and all. */
  method Reach(steps: seq<Step>) returns (data: seq<Byte>, prog: seq<Stmt>, ghost n: nat)
    requires ProperSteps(0, steps) && |steps| <= 30
    ensures data == AskBody(steps)
    ensures prog == MakeSteps(0, steps) + Prints(n) && WellScoped(prog) && n == Declared(prog)
  {
    hide AskBody, DrawBody, MakeSteps, WellScoped, Declared, Locals;
    data := AskBody(steps);
    EveryBody(steps);
    ghost var body;
    prog, body, n := Generate(data);
  }
}
