/** The generator of deterministic programs, whose printed output is compared. */
module Computational {
  import opened Bytes
  import opened Luau
  import opened Simulation
  import opened Metamorphic
  import opened SourceText

  const OWN: nat := 0

  const PRINT := Var(Ident("print"))
  const TABLE := Ident("_t")
  const ROUND := Ident("_i")

  const GLOBALS := {Ident("print"), Ident("tostring"), Ident("math"), TABLE, ROUND}

  /** An expression that reads the first `n` variables, and no other, and holds
      no functions. */
  predicate Reads(n: nat, e: Expr)
  {
    match e
    case Lit(_) => true
    case Var(x) => InScope(n, x)
    case Func(_) => false
    case Items(items) => ReadsAll(n, items)
    case Index(t, k) => Reads(n, t) && Reads(n, k)
    case Op(_, args) => ReadsAll(n, args)
    case And(a, b) => Reads(n, a) && Reads(n, b)
    case Or(a, b) => Reads(n, a) && Reads(n, b)
    case Call(fn, args) => Reads(n, fn) && ReadsAll(n, args)
  }

  predicate ReadsAll(n: nat, es: seq<Expr>)
  {
    forall i :: 0 <= i < |es| ==> Reads(n, es[i])
  }

  predicate InScope(n: nat, x: Name)
  {
    (x.V? && x.i < n) || x in GLOBALS
  }

  /** Every name that occurs is in scope. */
  lemma {:induction false} ReadsInScope(n: nat, e: Expr, x: Name)
    requires Reads(n, e) && InExpr(x, e)
    ensures InScope(n, x)
  {
    match e
    case Var(_) =>
    case Items(items) => ReadsAllInScope(n, items, x);
    case Index(t, k) => if InExpr(x, t) { ReadsInScope(n, t, x); } else { ReadsInScope(n, k, x); }
    case Op(_, args) => ReadsAllInScope(n, args, x);
    case And(a, b) => if InExpr(x, a) { ReadsInScope(n, a, x); } else { ReadsInScope(n, b, x); }
    case Or(a, b) => if InExpr(x, a) { ReadsInScope(n, a, x); } else { ReadsInScope(n, b, x); }
    case Call(fn, args) => if InExpr(x, fn) { ReadsInScope(n, fn, x); } else { ReadsAllInScope(n, args, x); }
  }

  lemma {:induction false} ReadsAllInScope(n: nat, es: seq<Expr>, x: Name)
    requires ReadsAll(n, es) && InExprs(x, es)
    ensures InScope(n, x)
  {
    var i :| 0 <= i < |es| && InExpr(x, es[i]);
    ReadsInScope(n, es[i], x);
  }

  /** What is in scope stays in scope. */
  lemma {:induction false} ReadsMore(n: nat, e: Expr)
    requires Reads(n, e)
    ensures Reads(n + 1, e)
  {
    match e
    case Lit(_) =>
    case Var(_) =>
    case Items(items) => ReadsMoreAll(n, items);
    case Index(t, k) => ReadsMore(n, t); ReadsMore(n, k);
    case Op(_, args) => ReadsMoreAll(n, args);
    case And(a, b) => ReadsMore(n, a); ReadsMore(n, b);
    case Or(a, b) => ReadsMore(n, a); ReadsMore(n, b);
    case Call(fn, args) => ReadsMore(n, fn); ReadsMoreAll(n, args);
  }

  lemma {:induction false} ReadsMoreAll(n: nat, es: seq<Expr>)
    requires ReadsAll(n, es)
    ensures ReadsAll(n + 1, es)
  {
    forall i | 0 <= i < |es| ensures Reads(n + 1, es[i]) {
      ReadsMore(n, es[i]);
    }
  }

  lemma {:induction false} ReadsIsClear(n: nat, e: Expr)
    requires Reads(n, e)
    ensures ClearExpr(FRESH, e)
  {
    match e
    case Lit(_) =>
    case Var(x) => assert !InScope(n, META);
    case Items(items) => ReadsAllIsClear(n, items);
    case Index(t, k) => ReadsIsClear(n, t); ReadsIsClear(n, k);
    case Op(_, args) => ReadsAllIsClear(n, args);
    case And(a, b) => ReadsIsClear(n, a); ReadsIsClear(n, b);
    case Or(a, b) => ReadsIsClear(n, a); ReadsIsClear(n, b);
    case Call(fn, args) => ReadsIsClear(n, fn); ReadsAllIsClear(n, args);
  }

  lemma {:induction false} ReadsAllIsClear(n: nat, es: seq<Expr>)
    requires ReadsAll(n, es)
    ensures ClearExprs(FRESH, es)
  {
    forall i | 0 <= i < |es| ensures ClearExpr(FRESH, es[i]) {
      ReadsIsClear(n, es[i]);
    }
  }

  lemma ReadsPair(n: nat, a: Expr, b: Expr, op: string)
    requires Reads(n, a) && Reads(n, b)
    ensures Reads(n, Op(op, [a, b])) && Reads(n, And(a, b)) && Reads(n, Or(a, b)) && Reads(n, Index(a, b))
  {
  }

  lemma ReadsOne(n: nat, fn: Expr, a: Expr, op: string)
    requires Reads(n, fn) && Reads(n, a)
    ensures Reads(n, Op(op, [a])) && Reads(n, Call(fn, [a]))
  {
  }

  // ----- the expression that bytes ask for -----

  function DrawAtom(data: seq<Byte>, pos: nat, n: nat): (Expr, nat)
  {
    var (c, p) := Drawn(data, pos, 0, 4);
    if c == 0 && n > 0 then var (i, q) := Drawn(data, p, 0, n - 1); (Var(V(i)), q)
    else if c == 1 then var (k, q) := Drawn(data, p, 0, 1000); (Lit(WholeData(k)), q)
    else if c == 2 then var (k, q) := Drawn(data, p, 0, 100000); (Lit(DecimalData(k)), q)
    else if c == 3 then var (b, q) := Flipped(data, p); (Lit(LBool(b)), q)
    else var (k, q) := Drawn(data, p, 0, 9); (Lit(StringData(k)), q)
  }

  /** An atom at depth 0 and when no bytes are left. */
  function DrawExpr(data: seq<Byte>, pos: nat, n: nat, depth: nat): (Expr, nat)
    decreases depth, 1
  {
    if depth == 0 || pos >= |data| then DrawAtom(data, pos, n)
    else
      var (c, p) := Drawn(data, pos, 0, 7);
      if c <= 1 then DrawAtom(data, p, n)
      else if c <= 5 then DrawPair(data, p, n, depth, c)
      else if c == 6 then
        var (f, q) := Drawn(data, p, 0, 4);
        var (e, s) := DrawExpr(data, q, n, depth - 1);
        (SingleOf(f, e), s)
      else
        var (e, q) := DrawExpr(data, p, n, depth - 1);
        (Op("not", [e]), q)
  }

  /** The expressions around one operand. */
  function SingleOf(f: int, e: Expr): Expr
  {
    if f == 3 then Op("-", [e])
    else if f == 4 then Op("#", [Call(TO_STRING, [e])])
    else Call(Index(MATH, Lit(StringData(10 + f))), [e])
  }

  /** What kind of pair: its operator, or which of `and` and `or`. */
  function DrawOperator(data: seq<Byte>, pos: nat, c: int): (r: (string, bool, nat))
  {
    if c == 2 then var (i, p) := Drawn(data, pos, 0, |ARITHMETIC| - 1); (ARITHMETIC[i], false, p)
    else if c == 3 then var (i, p) := Drawn(data, pos, 0, |COMPARISON| - 1); (COMPARISON[i], false, p)
    else if c == 4 then var (b, p) := Flipped(data, pos); ("..", b, p)
    else ("..", false, pos)
  }

  function PairOf(c: int, op: string, both: bool, a: Expr, b: Expr): Expr
  {
    if c == 4 then (if both then And(a, b) else Or(a, b))
    else if c == 5 then Op("..", [Call(TO_STRING, [a]), Call(TO_STRING, [b])])
    else Op(op, [a, b])
  }

  function DrawPair(data: seq<Byte>, pos: nat, n: nat, depth: nat, c: int): (Expr, nat)
    requires depth > 0
    decreases depth, 0
  {
    var (op, both, p) := DrawOperator(data, pos, c);
    var (a, q) := DrawExpr(data, p, n, depth - 1);
    var (b, s) := DrawExpr(data, q, n, depth - 1);
    (PairOf(c, op, both, a, b), s)
  }

  method Atom(u: Choices, n: nat) returns (e: Expr)
    requires u.Valid()
    modifies u
    ensures u.Valid() && Reads(n, e) && Written(e) && (e, u.pos) == DrawAtom(u.data, old(u.pos), n)
  {
    hide Drawn, Flipped;
    var c := u.InRange(0, 4);
    if c == 0 && n > 0 {
      var i := u.InRange(0, n - 1);
      e := Var(V(i));
    } else if c == 1 {
      var k := u.InRange(0, 1000);
      e := Lit(WholeData(k));
    } else if c == 2 {
      var k := u.InRange(0, 100000);
      e := Lit(DecimalData(k));
    } else if c == 3 {
      var b := u.Flag();
      e := Lit(LBool(b));
    } else {
      var k := u.InRange(0, 9);
      e := Lit(StringData(k));
    }
  }

  /** What is put around an expression keeps it readable and writable. */
  lemma Around(n: nat, fn: Expr, a: Expr, op: string)
    requires Reads(n, a) && Written(a)
    ensures IsFunction(fn) && Reads(n, fn) ==> Reads(n, Call(fn, [a])) && Written(Call(fn, [a]))
    ensures IsUnary(op) ==> Reads(n, Op(op, [a])) && Written(Op(op, [a]))
  {
    ReadsOne(n, TO_STRING, a, op);
    if Reads(n, fn) {
      ReadsOne(n, fn, a, op);
    }
  }

  /** The expressions around one operand. */
  method Single(n: nat, f: int, inner: Expr) returns (e: Expr)
    requires 0 <= f <= 4 && Reads(n, inner) && Written(inner)
    ensures Reads(n, e) && Written(e) && e == SingleOf(f, inner)
  {
    hide Reads, Written, IsFunction;
    ReadsLibrary(n, f);
    if f == 3 {
      e := Op("-", [inner]);
      Around(n, TO_STRING, inner, "-");
    } else if f == 4 {
      Around(n, TO_STRING, inner, "#");
      Around(n, TO_STRING, Call(TO_STRING, [inner]), "#");
      e := Op("#", [Call(TO_STRING, [inner])]);
    } else {
      var fn := Index(MATH, Lit(StringData(10 + f)));
      Around(n, fn, inner, "");
      e := Call(fn, [inner]);
    }
  }

  lemma ReadsLibrary(n: nat, f: int)
    ensures Reads(n, TO_STRING) && IsFunction(TO_STRING)
    ensures 0 <= f <= 2 ==> var fn := Index(MATH, Lit(StringData(10 + f))); Reads(n, fn) && IsFunction(fn)
  {
  }

  /** Every expression reads only variables in scope, and can be printed. */
  method Expression(u: Choices, n: nat, depth: nat) returns (e: Expr)
    requires u.Valid()
    modifies u
    ensures u.Valid() && Reads(n, e) && Written(e) && (e, u.pos) == DrawExpr(u.data, old(u.pos), n, depth)
    decreases depth
  {
    hide Reads, Written, Drawn, DrawAtom, DrawPair, SingleOf;
    if depth == 0 || u.Left() == 0 {
      e := Atom(u, n);
      return;
    }
    var c := u.InRange(0, 7);
    if c <= 1 {
      e := Atom(u, n);
    } else if c <= 5 {
      e := Pair(u, n, depth, c);
    } else if c == 6 {
      var f := u.InRange(0, 4);
      var inner := Expression(u, n, depth - 1);
      e := Single(n, f, inner);
    } else {
      var inner := Expression(u, n, depth - 1);
      Around(n, TO_STRING, inner, "not");
      e := Op("not", [inner]);
    }
  }

  lemma Between(n: nat, a: Expr, b: Expr, op: string)
    requires Reads(n, a) && Reads(n, b) && Written(a) && Written(b)
    ensures Reads(n, And(a, b)) && Written(And(a, b)) && Reads(n, Or(a, b)) && Written(Or(a, b))
    ensures IsBinary(op) ==> Reads(n, Op(op, [a, b])) && Written(Op(op, [a, b]))
  {
    ReadsPair(n, a, b, op);
  }

  /** The operator of a pair, or which of `and` and `or`. */
  method Operator(u: Choices, c: int) returns (op: string, both: bool)
    requires u.Valid()
    modifies u
    ensures u.Valid() && IsBinary(op) && (op, both, u.pos) == DrawOperator(u.data, old(u.pos), c)
  {
    hide Drawn, Flipped;
    op, both := "..", false;
    if c == 2 {
      var i := u.InRange(0, |ARITHMETIC| - 1);
      op := ARITHMETIC[i];
    } else if c == 3 {
      var i := u.InRange(0, |COMPARISON| - 1);
      op := COMPARISON[i];
    } else if c == 4 {
      both := u.Flag();
    }
  }

  /** The expressions with two operands. */
  method Pair(u: Choices, n: nat, depth: nat, c: int) returns (e: Expr)
    requires u.Valid() && depth > 0
    modifies u
    ensures u.Valid() && Reads(n, e) && Written(e) && (e, u.pos) == DrawPair(u.data, old(u.pos), n, depth, c)
    decreases depth, 0
  {
    hide Reads, Written, IsFunction, Drawn, DrawExpr, DrawOperator;
    var op, both := Operator(u, c);
    var a := Expression(u, n, depth - 1);
    var b := Expression(u, n, depth - 1);
    Between(n, a, b, op);
    if c == 4 {
      e := if both then And(a, b) else Or(a, b);
    } else if c == 5 {
      ReadsLibrary(n, 0);
      Around(n, TO_STRING, a, "");
      Around(n, TO_STRING, b, "");
      Between(n, Call(TO_STRING, [a]), Call(TO_STRING, [b]), "..");
      e := Op("..", [Call(TO_STRING, [a]), Call(TO_STRING, [b])]);
    } else {
      e := Op(op, [a, b]);
    }
  }

  // ----- scope -----

  /** How many variables the statements declare. */
  function Declared(ss: seq<Stmt>): nat
  {
    if ss == [] then 0
    else Declared(ss[..|ss| - 1]) + var s := ss[|ss| - 1]; if s.Local? && s.x.V? then 1 else 0
  }

  /** How many locals they declare. */
  function Locals(ss: seq<Stmt>): nat
  {
    if ss == [] then 0 else Locals(ss[..|ss| - 1]) + if ss[|ss| - 1].Local? then 1 else 0
  }

  /** With `n` variables declared, a statement reads only those, and declares at
      most the next one. */
  ghost predicate Scoped(n: nat, s: Stmt)
  {
    match s
    case Local(x, d, e) => Reads(n, e) && d == OWN && (x == V(n) || x == TABLE)
    case For(x, d, lo, hi, body) =>
      && x == ROUND && d == OWN && Reads(n, lo) && Reads(n, hi) && |body| == 1
      && body[0].Assign? && body[0].x.V? && body[0].x.i < n && Reads(n, body[0].e)
    case Eval(e) => exists i: nat :: i < n && e == PrintOf(i)
    case _ => false
  }

  ghost predicate WellScoped(ss: seq<Stmt>)
  {
    forall p :: 0 <= p < |ss| ==> Scoped(Declared(ss[..p]), ss[p])
  }

  function PrintOf(i: nat): Expr
  {
    Call(PRINT, [Var(V(i))])
  }

  function Prints(n: nat): seq<Stmt>
  {
    if n == 0 then [] else Prints(n - 1) + [Eval(PrintOf(n - 1))]
  }

  lemma ScopedPush(ss: seq<Stmt>, s: Stmt)
    requires WellScoped(ss) && Scoped(Declared(ss), s)
    ensures WellScoped(ss + [s])
    ensures Declared(ss + [s]) == Declared(ss) + if s.Local? && s.x.V? then 1 else 0
    ensures Locals(ss + [s]) == Locals(ss) + if s.Local? then 1 else 0
  {
    var t := ss + [s];
    assert t[..|ss|] == ss;
    forall p | 0 <= p < |t| ensures Scoped(Declared(t[..p]), t[p]) {
      if p < |ss| {
        assert t[..p] == ss[..p];
      }
    }
  }

  lemma {:induction false} DeclaredMonotone(ss: seq<Stmt>, p: nat, q: nat)
    requires p <= q <= |ss|
    ensures Declared(ss[..p]) <= Declared(ss[..q])
    decreases q
  {
    if p < q {
      DeclaredMonotone(ss, p, q - 1);
      assert ss[..q][..q - 1] == ss[..q - 1];
    }
  }

  /** Every variable is declared exactly once. */
  lemma {:induction false} DeclaredOnce(ss: seq<Stmt>, i: nat) returns (p: nat)
    requires WellScoped(ss) && i < Declared(ss)
    ensures p < |ss| && ss[p].Local? && ss[p].x == V(i)
    ensures forall q :: 0 <= q < |ss| && ss[q].Local? && ss[q].x == V(i) ==> q == p
    decreases |ss|
  {
    assert ss[..|ss|] == ss;
    p := FindDeclaration(ss, |ss|, i);
    forall q | 0 <= q < |ss| && ss[q].Local? && ss[q].x == V(i) ensures q == p {
      if p < q {
        Distinct(ss, p, q);
      } else if q < p {
        Distinct(ss, q, p);
      }
    }
  }

  /** Two declarations declare different variables. */
  lemma Distinct(ss: seq<Stmt>, p: nat, q: nat)
    requires WellScoped(ss) && p < q < |ss| && ss[p].Local? && ss[p].x.V? && ss[q].Local? && ss[q].x.V?
    ensures ss[p].x != ss[q].x
  {
    hide Reads;
    assert Scoped(Declared(ss[..p]), ss[p]) && Scoped(Declared(ss[..q]), ss[q]);
    assert ss[..p + 1][..p] == ss[..p];
    DeclaredMonotone(ss, p + 1, q);
  }

  lemma {:induction false} FindDeclaration(ss: seq<Stmt>, q: nat, i: nat) returns (p: nat)
    requires WellScoped(ss) && q <= |ss| && i < Declared(ss[..q])
    ensures p < q && ss[p].Local? && ss[p].x == V(i)
    decreases q
  {
    assert ss[..q][..q - 1] == ss[..q - 1];
    if i < Declared(ss[..q - 1]) {
      p := FindDeclaration(ss, q - 1, i);
    } else {
      p := q - 1;
      assert Scoped(Declared(ss[..p]), ss[p]);
    }
  }

  lemma ScopedStmtIsClear(n: nat, s: Stmt)
    requires Scoped(n, s)
    ensures ClearStmt(FRESH, s)
  {
    match s
    case Local(_, _, e) => ReadsIsClear(n, e);
    case Eval(e) =>
      var i: nat :| i < n && e == PrintOf(i);
      ReadsOne(n, PRINT, Var(V(i)), "");
      ReadsIsClear(n, e);
    case For(_, _, lo, hi, body) =>
      ReadsIsClear(n, lo);
      ReadsIsClear(n, hi);
      ReadsIsClear(n, body[0].e);
      assert ClearStmt(FRESH, body[0]);
  }

  /** What is well scoped does not name the local that no-ops declare. */
  lemma ScopedIsClear(ss: seq<Stmt>)
    requires WellScoped(ss)
    ensures ClearBlock(FRESH, ss)
  {
    forall p | 0 <= p < |ss| ensures ClearStmt(FRESH, ss[p]) {
      var s, n := ss[p], Declared(ss[..p]);
      assert Scoped(n, s);
      ScopedStmtIsClear(n, s);
    }
  }

  // ----- the generator -----

  /** One statement, or two, when there are `n` variables. */
  function DrawStatement(data: seq<Byte>, pos: nat, n: nat): (seq<Stmt>, nat)
  {
    var (c, p) := Drawn(data, pos, 0, 4);
    if c == 0 && n > 0 then var (i, q) := Drawn(data, p, 0, n - 1); ([Eval(PrintOf(i))], q)
    else if c == 2 && n > 0 then
      var (rounds, q) := Drawn(data, p, 1, 8);
      var (seed, s) := DrawExpr(data, q, n, 2);
      var (step, z) := DrawExpr(data, s, n, 2);
      (LoopOf(n, rounds, seed, step), z)
    else if c == 3 then
      var (x, q) := DrawExpr(data, p, n, 2);
      var (y, s) := DrawExpr(data, q, n, 2);
      var (z, t) := DrawExpr(data, s, n, 2);
      var (k, end) := Drawn(data, t, 1, 3);
      (TableOf(n, x, y, z, k), end)
    else var (e, q) := DrawExpr(data, p, n, 4); ([Local(V(n), OWN, e)], q)
  }

  /** A variable that a loop adds to. */
  function LoopOf(n: nat, rounds: int, seed: Expr, step: Expr): seq<Stmt>
  {
    [Local(V(n), OWN, seed),
     For(ROUND, OWN, Lit(WholeData(1)), Lit(WholeData(rounds)), [Assign(V(n), Op("+", [Var(V(n)), step]))])]
  }

  /** A variable that is an item of a table. */
  function TableOf(n: nat, x: Expr, y: Expr, z: Expr, k: int): seq<Stmt>
  {
    [Local(TABLE, OWN, Items([x, y, z])), Local(V(n), OWN, Index(Var(TABLE), Lit(WholeData(k))))]
  }

  /** How many variables the statements of one round declare. */
  function Grows(ss: seq<Stmt>): nat
  {
    (if |ss| > 0 && DeclaresVariable(ss[0]) then 1 else 0) + (if |ss| > 1 && DeclaresVariable(ss[1]) then 1 else 0)
  }

  predicate DeclaresVariable(s: Stmt) { s.Local? && s.x.V? }

  /** At most `k` rounds, as long as there are bytes. */
  function DrawRounds(data: seq<Byte>, pos: nat, n: nat, k: nat): seq<Stmt>
    decreases k
  {
    if k == 0 || pos >= |data| then []
    else
      var (ss, p) := DrawStatement(data, pos, n);
      ss + DrawRounds(data, p, n + Grows(ss), k - 1)
  }

  /** The statements that bytes ask for, before those that print. */
  function DrawBody(data: seq<Byte>): seq<Stmt>
  {
    var (count, p) := Drawn(data, 0, 1, 30);
    DrawRounds(data, p, 0, count)
  }

  /** One statement, or two. */
  method Statement(u: Choices, n: nat) returns (ss: seq<Stmt>)
    requires u.Valid()
    modifies u
    ensures u.Valid() && 1 <= |ss| <= 2
    ensures Scoped(n, ss[0])
    ensures |ss| == 2 ==> ss[0].Local? && Scoped(if ss[0].x.V? then n + 1 else n, ss[1])
    ensures |ss| == 2 && ss[1].Local? ==> ss[0].x == TABLE
    ensures (ss, u.pos) == DrawStatement(u.data, old(u.pos), n)
  {
    hide Drawn, DrawExpr, Written;
    var c := u.InRange(0, 4);
    if c == 0 && n > 0 {
      var i := u.InRange(0, n - 1);
      ss := [Eval(PrintOf(i))];
    } else if c == 2 && n > 0 {
      var rounds := u.InRange(1, 8);
      var seed := Expression(u, n, 2);
      var step := Expression(u, n, 2);
      ReadsMore(n, step);
      ReadsPair(n + 1, Var(V(n)), step, "+");
      ss := [Local(V(n), OWN, seed),
             For(ROUND, OWN, Lit(WholeData(1)), Lit(WholeData(rounds)), [Assign(V(n), Op("+", [Var(V(n)), step]))])];
    } else if c == 3 {
      var x := Expression(u, n, 2);
      var y := Expression(u, n, 2);
      var z := Expression(u, n, 2);
      var k := u.InRange(1, 3);
      ReadsItems(n, x, y, z);
      ReadsPair(n, Var(TABLE), Lit(WholeData(k)), "");
      ss := [Local(TABLE, OWN, Items([x, y, z])), Local(V(n), OWN, Index(Var(TABLE), Lit(WholeData(k))))];
    } else {
      var e := Expression(u, n, 4);
      ss := [Local(V(n), OWN, e)];
    }
  }

  lemma ReadsItems(n: nat, x: Expr, y: Expr, z: Expr)
    requires Reads(n, x) && Reads(n, y) && Reads(n, z)
    ensures Reads(n, Items([x, y, z]))
  {
  }

  /** Statements as long as there are bytes, at most 30 rounds of them. */
  method Rounds(data: seq<Byte>) returns (prog: seq<Stmt>, vars: nat)
    ensures WellScoped(prog) && vars == Declared(prog) <= 30 && Locals(prog) <= 60 && |prog| <= 60
    ensures prog == DrawBody(data)
  {
    hide WellScoped, Scoped, Declared, Locals, Drawn, DrawStatement, DrawRounds;
    var u := new Choices(data);
    prog, vars := [], 0;
    ScopedNone();
    var count := u.InRange(1, 30);
    ghost var start := u.pos;
    var k := 0;
    while k < count && u.Left() > 0
      invariant u.Valid() && fresh(u) && 0 <= k <= count && u.data == data
      invariant WellScoped(prog) && vars == Declared(prog) <= k && Locals(prog) <= 2 * k && |prog| <= 2 * k
      invariant prog + DrawRounds(data, u.pos, vars, count - k) == DrawRounds(data, start, 0, count)
    {
      RoundsOn(data, u.pos, vars, count - k, prog);
      var ss := Statement(u, vars);
      prog, vars := PushAll(prog, vars, ss);
      k := k + 1;
    }
    RoundsEnd(data, u.pos, vars, count - k);
  }

  lemma RoundsOn(data: seq<Byte>, pos: nat, n: nat, k: nat, prog: seq<Stmt>)
    requires k > 0 && pos < |data|
    ensures var (ss, p) := DrawStatement(data, pos, n);
      prog + DrawRounds(data, pos, n, k) == prog + ss + DrawRounds(data, p, n + Grows(ss), k - 1)
  {
    hide DrawStatement, Grows;
  }

  lemma RoundsEnd(data: seq<Byte>, pos: nat, n: nat, k: nat)
    requires k == 0 || pos >= |data|
    ensures DrawRounds(data, pos, n, k) == []
  {
  }

  /** Append what one round makes. */
  method PushAll(prog: seq<Stmt>, vars: nat, ss: seq<Stmt>) returns (prog': seq<Stmt>, vars': nat)
    requires WellScoped(prog) && vars == Declared(prog) && 1 <= |ss| <= 2 && Scoped(vars, ss[0])
    requires |ss| == 2 ==> ss[0].Local? && Scoped(if ss[0].x.V? then vars + 1 else vars, ss[1])
    requires |ss| == 2 && ss[1].Local? ==> ss[0].x == TABLE
    ensures prog' == prog + ss && WellScoped(prog') && vars' == Declared(prog') == vars + Grows(ss) <= vars + 1
    ensures Locals(prog') <= Locals(prog) + 2
  {
    hide WellScoped, Scoped, Declared, Locals;
    prog', vars' := Push(prog, vars, ss[0]);
    if |ss| == 2 {
      prog', vars' := Push(prog', vars', ss[1]);
    }
  }

  /** For every byte stream: variables are declared once and before they are
      read, all are printed at the end, and there are few enough locals. */
  method Generate(data: seq<Byte>) returns (prog: seq<Stmt>, ghost body: seq<Stmt>, ghost n: nat)
    ensures WellScoped(prog) && prog == body + Prints(n) && n == Declared(prog) <= 30
    ensures Locals(prog) <= 60 && |prog| <= 90 && body == DrawBody(data)
  {
    hide WellScoped, Scoped, Declared, Locals, DrawBody;
    var vars;
    prog, vars := Rounds(data);
    body, n := prog, vars;
    assert body + Prints(0) == body;
    for i := 0 to vars
      invariant WellScoped(prog) && prog == body + Prints(i) && Declared(prog) == n && Locals(prog) <= 60
      invariant |prog| == |body| + i && vars == n
    {
      ScopedPrint(n, i);
      assert body + Prints(i + 1) == prog + [Eval(PrintOf(i))];
      prog, vars := Push(prog, vars, Eval(PrintOf(i)));
    }
  }

  lemma ScopedNone()
    ensures WellScoped([]) && Declared([]) == 0 && Locals([]) == 0
  {
  }

  lemma ScopedPrint(n: nat, i: nat)
    requires i < n
    ensures Scoped(n, Eval(PrintOf(i)))
  {
  }

  /** Append a statement, counting the variable it may declare. */
  method Push(prog: seq<Stmt>, vars: nat, s: Stmt) returns (prog': seq<Stmt>, vars': nat)
    requires WellScoped(prog) && vars == Declared(prog) && Scoped(vars, s)
    ensures prog' == prog + [s] && WellScoped(prog') && vars' == Declared(prog')
    ensures vars' == vars + if s.Local? && s.x.V? then 1 else 0
    ensures Locals(prog') == Locals(prog) + if s.Local? then 1 else 0
  {
    ScopedPush(prog, s);
    prog' := prog + [s];
    vars' := if s.Local? && s.x.V? then vars + 1 else vars;
  }

  lemma {:induction false} LocalsConcat(a: seq<Stmt>, b: seq<Stmt>)
    ensures Locals(a + b) == Locals(a) + Locals(b)
    decreases |b|
  {
    if b == [] {
      assert a + b == a;
    } else {
      assert (a + b)[..|a + b| - 1] == a + b[..|b| - 1];
      LocalsConcat(a, b[..|b| - 1]);
    }
  }

  /** No-op insertion adds at most one local per statement. */
  lemma {:induction false} WovenLocals(src: seq<Stmt>, ins: seq<seq<Stmt>>)
    requires |ins| == |src| && forall i :: 0 <= i < |ins| ==> IsNoop(ins[i])
    ensures Locals(Weave(src, ins)) <= Locals(src) + |src|
    decreases |src|
  {
    if src != [] {
      var m := |src| - 1;
      WovenLocals(src[..m], ins[..m]);
      LocalsConcat(Weave(src[..m], ins[..m]) + ins[m], [src[m]]);
      LocalsConcat(Weave(src[..m], ins[..m]), ins[m]);
      assert Locals(ins[m]) <= 1;
    }
  }

  predicate Agree(a: Observation, b: Observation)
  {
    a.Some? && b.Some? ==> a == b
  }

  /** Whatever the world, the globals, the verdicts of the compiler and the step
      limits: two conclusive runs are seen to do the same. */
  ghost predicate SeenAlike(src: seq<Stmt>, out: seq<Stmt>)
  {
    forall w: World, globals, c, c1, n, n1 | PlainGlobals(globals) ::
      Agree(Observe(w, src, c, globals, n), Observe(w, out, c1, globals, n1))
  }

  lemma WovenAlike(src: seq<Stmt>, noops: seq<seq<Stmt>>, deads: seq<seq<Stmt>>)
    requires ClearBlock(FRESH, src)
    requires |noops| == |src| && (forall i :: 0 <= i < |noops| ==> IsNoop(noops[i]))
    requires |deads| == |src| && (forall i :: 0 <= i < |deads| ==> IsDead(deads[i]))
    ensures SeenAlike(src, Weave(src, noops)) && SeenAlike(src, Weave(src, deads))
  {
    hide Observe;
    forall w: World, globals, c, c1, n, n1 | PlainGlobals(globals)
      ensures Agree(Observe(w, src, c, globals, n), Observe(w, Weave(src, noops), c1, globals, n1))
    {
      OracleHolds(w, src, Weave(src, noops), noops, Weave(src, deads), deads, globals, c, c1, c1, n, n1, n1);
    }
    forall w: World, globals, c, c1, n, n1 | PlainGlobals(globals)
      ensures Agree(Observe(w, src, c, globals, n), Observe(w, Weave(src, deads), c1, globals, n1))
    {
      OracleHolds(w, src, Weave(src, noops), noops, Weave(src, deads), deads, globals, c, c1, c1, n, n1, n1);
    }
  }

  /** The whole test, for every input: the program is well scoped, both
      transforms of it weave in the no-ops or dead branches that the bytes ask
      for, are observed to do what the program does, and stay within the 200
      locals a function may have. */
  method MetamorphicTest(data: seq<Byte>, tail: seq<Byte>, corpus: seq<seq<Stmt>>)
    returns (src: seq<Stmt>, noop: seq<Stmt>, dead: seq<Stmt>)
    ensures WellScoped(src) && Locals(src) <= 60 && Locals(noop) <= 150
    ensures noop == Weave(src, DrawnNoops(tail, 0, |src|))
    ensures var (pool, p) := DrawnPool(corpus, tail); dead == Weave(src, DrawnDeads(pool, tail, p, |src|))
    ensures SeenAlike(src, noop) && SeenAlike(src, dead)
  {
    hide SeenAlike, Weave, Locals, DrawnNoops, DrawnDeads, DrawnPool, IsNoop, IsDead;
    ghost var body, k;
    src, body, k := Generate(data);
    ScopedIsClear(src);
    noop := InsertNoops(src, tail);
    dead := InsertDeadBranches(src, corpus, tail);
    ghost var noops := DrawnNoops(tail, 0, |src|);
    ghost var (pool, p) := DrawnPool(corpus, tail);
    WovenLocals(src, noops);
    WovenAlike(src, noops, DrawnDeads(pool, tail, p, |src|));
  }
}
