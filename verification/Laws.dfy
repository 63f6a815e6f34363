/** What running a program is observed to do, said of programs rather than of the
  semantics: which branch runs, and how loops go round.
 */
module Laws {
  import opened Luau
  import opened Metamorphic
  import opened Fuel

  function Start(globals: map<Name, Value>): State
  {
    State(map[], map[], [], globals, [])
  }

  /** Where `x` comes to an end within a step limit, `y` does the same within one
      that is larger by `k`, whatever went on before. */
  ghost predicate Gives(w: World, x: seq<Stmt>, y: seq<Stmt>, k: nat)
  {
    forall env: Env, st: State, n: nat :: GivesAt(w, x, y, k, env, st, n)
  }

  ghost predicate GivesAt(w: World, x: seq<Stmt>, y: seq<Stmt>, k: nat, env: Env, st: State, n: nat)
  {
    ExecBlock(w, x, env, st, n) != OutOfFuel ==> ExecBlock(w, y, env, st, n + k) == ExecBlock(w, x, env, st, n)
  }

  /** Either can stand for the other at every step limit. */
  ghost predicate Alike(w: World, x: seq<Stmt>, y: seq<Stmt>)
  {
    Gives(w, x, y, 0) && Gives(w, y, x, 0)
  }

  /** In the middle of a program, one can be put for the other. */
  lemma InProgram(w: World, x: seq<Stmt>, y: seq<Stmt>, k: nat, a: seq<Stmt>, b: seq<Stmt>,
                  globals: map<Name, Value>, fuel: nat)
    requires Gives(w, x, y, k) && Observe(w, a + x + b, true, globals, fuel).Some?
    ensures Observe(w, a + y + b, true, globals, fuel + k) == Observe(w, a + x + b, true, globals, fuel)
  {
    hide ExecBlock, Printed;
    var st := Start(globals);
    ExecConcat(w, a + x, b, map[], st, fuel);
    ExecConcat(w, a, x, map[], st, fuel);
    ExecConcat(w, a + y, b, map[], st, fuel + k);
    ExecConcat(w, a, y, map[], st, fuel + k);
    MoreBlock(w, a, map[], st, fuel, fuel + k);
    var r := ExecBlock(w, a, map[], st, fuel);
    if r.Next? {
      assert GivesAt(w, x, y, k, r.env, r.st, fuel);
      var q := ExecBlock(w, x, r.env, r.st, fuel);
      if q.Next? {
        MoreBlock(w, b, q.env, q.st, fuel, fuel + k);
      }
    }
  }

  // ----- branches -----

  lemma EvalLit(w: World, l: Literal, env: Env, st: State, fuel: nat)
    ensures EvalExpr(w, Lit(l), env, st, fuel) == Val(OfLiteral(l), st)
  {
  }

  /** With a literal for a condition, the branch it stands for is all there is. */
  lemma BranchTaken(w: World, l: Literal, yes: seq<Stmt>, no: seq<Stmt>)
    ensures Alike(w, [If(Lit(l), yes, no)], [Do(if l == LNil || l == LBool(false) then no else yes)])
  {
    hide ExecBlock, EvalExpr;
    var x, y := If(Lit(l), yes, no), Do(if l == LNil || l == LBool(false) then no else yes);
    forall env: Env, st: State, n: nat
      ensures GivesAt(w, [x], [y], 0, env, st, n) && GivesAt(w, [y], [x], 0, env, st, n)
    {
      ExecOne(w, x, env, st, n);
      ExecOne(w, y, env, st, n);
      EvalLit(w, l, env, st, n);
    }
  }

  /** `if a and b` asks for `b` only where `a` holds. */
  lemma BranchOnAnd(w: World, a: Expr, b: Expr, yes: seq<Stmt>, no: seq<Stmt>)
    ensures Alike(w, [If(And(a, b), yes, no)], [If(a, [If(b, yes, no)], no)])
  {
    hide ExecBlock;
    var x, y := If(And(a, b), yes, no), If(a, [If(b, yes, no)], no);
    forall env: Env, st: State, n: nat
      ensures GivesAt(w, [x], [y], 0, env, st, n) && GivesAt(w, [y], [x], 0, env, st, n)
    {
      ExecOne(w, x, env, st, n);
      ExecOne(w, y, env, st, n);
      EvalAnd(w, a, b, env, st, n);
      hide EvalExpr;
      var r := EvalExpr(w, a, env, st, n);
      if r.Val? {
        ExecOne(w, If(b, yes, no), env, r.st, n);
      }
    }
  }

  /** `and` and `or` evaluate their second operand where the first one asks for it. */
  lemma EvalBoth(w: World, e: Expr, env: Env, st: State, n: nat)
    requires e.And? || e.Or?
    ensures EvalExpr(w, e, env, st, n) == var r := EvalExpr(w, e.a, env, st, n);
      if r.Val? && Truthy(r.v) == e.And? then EvalExpr(w, e.b, env, r.st, n) else r
  {
    hide EvalList, CallValue, CallLibrary, Capture, Get;
  }

  lemma EvalAnd(w: World, a: Expr, b: Expr, env: Env, st: State, n: nat)
    ensures EvalExpr(w, And(a, b), env, st, n) == var r := EvalExpr(w, a, env, st, n);
      if r.Val? && Truthy(r.v) then EvalExpr(w, b, env, r.st, n) else r
  {
    hide EvalExpr;
    EvalBoth(w, And(a, b), env, st, n);
  }

  lemma EvalOr(w: World, a: Expr, b: Expr, env: Env, st: State, n: nat)
    ensures EvalExpr(w, Or(a, b), env, st, n) == var r := EvalExpr(w, a, env, st, n);
      if r.Val? && !Truthy(r.v) then EvalExpr(w, b, env, r.st, n) else r
  {
    hide EvalExpr;
    EvalBoth(w, Or(a, b), env, st, n);
  }

  /** `if a or b` asks for `b` only where `a` does not hold. */
  lemma BranchOnOr(w: World, a: Expr, b: Expr, yes: seq<Stmt>, no: seq<Stmt>)
    ensures Alike(w, [If(Or(a, b), yes, no)], [If(a, yes, [If(b, yes, no)])])
  {
    hide ExecBlock;
    var x, y := If(Or(a, b), yes, no), If(a, yes, [If(b, yes, no)]);
    forall env: Env, st: State, n: nat
      ensures GivesAt(w, [x], [y], 0, env, st, n) && GivesAt(w, [y], [x], 0, env, st, n)
    {
      ExecOne(w, x, env, st, n);
      ExecOne(w, y, env, st, n);
      EvalOr(w, a, b, env, st, n);
      hide EvalExpr;
      var r := EvalExpr(w, a, env, st, n);
      if r.Val? {
        ExecOne(w, If(b, yes, no), env, r.st, n);
      }
    }
  }

  // ----- loops -----

  /** No `break` or `continue` that is not inside a loop of its own. */
  predicate Stays(s: Stmt)
  {
    match s
    case Break => false
    case Continue => false
    case Do(body) => StaysAll(body)
    case If(_, yes, no) => StaysAll(yes) && StaysAll(no)
    case _ => true
  }

  predicate StaysAll(b: seq<Stmt>)
  {
    forall i :: 0 <= i < |b| ==> Stays(b[i])
  }

  predicate LeavesLoop(r: Flow) { r.Broke? || r.Continued? }

  lemma {:induction false} WhileStays(w: World, s: Stmt, env: Env, st: State, n: nat)
    requires s.While?
    ensures var r := ExecWhile(w, s, env, st, n); !LeavesLoop(r) && (r.Next? ==> r.env == env)
    decreases n
  {
    hide EvalExpr, ExecBlock;
    var r := EvalExpr(w, s.c, env, st, n);
    if r.Val? && n > 0 {
      var q := ExecBlock(w, s.body, env, r.st, n - 1);
      if q.Next? || q.Continued? {
        WhileStays(w, s, env, q.st, n - 1);
      }
    }
  }

  lemma {:induction false} ForStays(w: World, s: Stmt, at: Value, to: Value, env: Env, st: State, n: nat)
    requires s.For?
    ensures var r := ExecFor(w, s, at, to, env, st, n); !LeavesLoop(r) && (r.Next? ==> r.env == env)
    decreases n
  {
    hide CallLibrary, ExecBlock, Declare, NewSlot;
    var r := CallLibrary(w, "<=", [at, to], st);
    if r.Val? && n > 0 {
      var slot := NewSlot(s.decl, r.st);
      var q := ExecBlock(w, s.body, env[s.x := slot], Declare(slot, at, r.st), n - 1);
      if q.Next? || q.Continued? {
        var p := CallLibrary(w, "step", [at], q.st);
        if p.Val? {
          ForStays(w, s, p.v, to, env, p.st, n - 1);
        }
      }
    }
  }

  lemma {:induction false} StaysStmt(w: World, s: Stmt, env: Env, st: State, n: nat)
    requires Stays(s)
    ensures !LeavesLoop(ExecStmt(w, s, env, st, n))
    decreases s, 1
  {
    hide EvalExpr, ExecBlock, ExecWhile, ExecFor, Set, Declare, NewSlot;
    match s
    case Do(body) => StaysBlock(w, body, env, st, n);
    case If(c, yes, no) =>
      var r := EvalExpr(w, c, env, st, n);
      if r.Val? {
        StaysBlock(w, yes, env, r.st, n);
        StaysBlock(w, no, env, r.st, n);
      }
    case While(_, _) => WhileStays(w, s, env, st, n);
    case For(_, _, lo, hi, _) =>
      var r := EvalExpr(w, lo, env, st, n);
      if r.Val? {
        var q := EvalExpr(w, hi, env, r.st, n);
        if q.Val? {
          ForStays(w, s, r.v, q.v, env, q.st, n);
        }
      }
    case _ =>
  }

  lemma {:induction false} StaysBlock(w: World, b: seq<Stmt>, env: Env, st: State, n: nat)
    requires StaysAll(b)
    ensures !LeavesLoop(ExecBlock(w, b, env, st, n))
    decreases b, 0
  {
    hide ExecStmt;
    if b != [] {
      StaysStmt(w, b[0], env, st, n);
      var r := ExecStmt(w, b[0], env, st, n);
      if r.Next? {
        StaysBlock(w, b[1..], r.env, r.st, n);
      }
    }
  }

  lemma ExecTwo(w: World, s: Stmt, t: Stmt, env: Env, st: State, n: nat)
    ensures ExecBlock(w, [s, t], env, st, n)
         == var r := ExecStmt(w, s, env, st, n); if r.Next? then ExecStmt(w, t, r.env, r.st, n) else r
  {
    hide ExecStmt;
    assert [s, t][1..] == [t];
    var r := ExecStmt(w, s, env, st, n);
    if r.Next? {
      ExecOne(w, t, r.env, r.st, n);
    }
  }

  function Once(c: Expr, body: seq<Stmt>): Stmt
  {
    If(c, [Do(body), While(c, body)], [])
  }

  lemma OnceRuns(w: World, c: Expr, body: seq<Stmt>, env: Env, st: State, n: nat)
    ensures ExecStmt(w, Once(c, body), env, st, n) ==
      var r := EvalExpr(w, c, env, st, n);
      if !r.Val? then Stopped(r)
      else if !Truthy(r.v) then Next(env, r.st)
      else
        var q := ExecBlock(w, body, env, r.st, n);
        if q.Next? then ExecWhile(w, While(c, body), env, q.st, n) else q
  {
    hide EvalExpr, ExecWhile;
    var s := While(c, body);
    var r := EvalExpr(w, c, env, st, n);
    if r.Val? {
      ExecTwo(w, Do(body), s, env, r.st, n);
      hide ExecBlock;
      assert ExecStmt(w, Do(body), env, r.st, n) == Leave(env, ExecBlock(w, body, env, r.st, n));
      var q := ExecBlock(w, body, env, r.st, n);
      if q.Next? {
        WhileStays(w, s, env, q.st, n);
      }
    }
  }

  lemma WhileOnce(w: World, c: Expr, body: seq<Stmt>, env: Env, st: State, n: nat)
    requires StaysAll(body) && ExecWhile(w, While(c, body), env, st, n) != OutOfFuel
    ensures ExecStmt(w, Once(c, body), env, st, n) == ExecWhile(w, While(c, body), env, st, n)
  {
    hide EvalExpr, ExecBlock, ExecStmt;
    OnceRuns(w, c, body, env, st, n);
    var s := While(c, body);
    var r := EvalExpr(w, c, env, st, n);
    if r.Val? && Truthy(r.v) {
      StaysBlock(w, body, env, r.st, n - 1);
      MoreBlock(w, body, env, r.st, n - 1, n);
      var q := ExecBlock(w, body, env, r.st, n - 1);
      if q.Next? {
        MoreWhile(w, s, env, q.st, n - 1, n);
      }
    }
  }

  lemma OnceWhile(w: World, c: Expr, body: seq<Stmt>, env: Env, st: State, n: nat)
    requires StaysAll(body) && ExecStmt(w, Once(c, body), env, st, n) != OutOfFuel
    ensures ExecWhile(w, While(c, body), env, st, n + 1) == ExecStmt(w, Once(c, body), env, st, n)
  {
    hide EvalExpr, ExecBlock, ExecStmt;
    OnceRuns(w, c, body, env, st, n);
    MoreExpr(w, c, env, st, n, n + 1);
    var r := EvalExpr(w, c, env, st, n);
    if r.Val? && Truthy(r.v) {
      StaysBlock(w, body, env, r.st, n);
    }
  }

  lemma WhileIs(w: World, s: Stmt, env: Env, st: State, n: nat)
    requires s.While?
    ensures ExecBlock(w, [s], env, st, n) == ExecWhile(w, s, env, st, n)
  {
    ExecOne(w, s, env, st, n);
  }

  /** A loop tests, runs its body once, and goes on. */
  lemma WhileUnrolls(w: World, c: Expr, body: seq<Stmt>)
    requires StaysAll(body)
    ensures Gives(w, [While(c, body)], [If(c, [Do(body), While(c, body)], [])], 0)
    ensures Gives(w, [If(c, [Do(body), While(c, body)], [])], [While(c, body)], 1)
  {
    hide ExecBlock, ExecStmt, ExecWhile, StaysAll;
    var x, y := While(c, body), Once(c, body);
    forall env: Env, st: State, n: nat
      ensures GivesAt(w, [x], [y], 0, env, st, n) && GivesAt(w, [y], [x], 1, env, st, n)
    {
      WhileIs(w, x, env, st, n);
      WhileIs(w, x, env, st, n + 1);
      ExecOne(w, y, env, st, n);
      if ExecWhile(w, x, env, st, n) != OutOfFuel {
        WhileOnce(w, c, body, env, st, n);
      }
      if ExecStmt(w, y, env, st, n) != OutOfFuel {
        OnceWhile(w, c, body, env, st, n);
      }
    }
  }

  /** What stands behind a `return`, `break` or `continue` does not run. */
  lemma EndsBlock(w: World, s: Stmt, rest: seq<Stmt>)
    requires s.Return? || s.Break? || s.Continue?
    ensures Alike(w, [s] + rest, [s])
  {
    hide EvalExpr, ExecBlock;
    forall env: Env, st: State, n: nat
      ensures GivesAt(w, [s] + rest, [s], 0, env, st, n) && GivesAt(w, [s], [s] + rest, 0, env, st, n)
    {
      ExecConcat(w, [s], rest, env, st, n);
      ExecOne(w, s, env, st, n);
    }
  }

  /** A loop whose body comes to a `break` runs it at most once. */
  lemma BreakEndsLoop(w: World, c: Expr, body: seq<Stmt>)
    requires StaysAll(body)
    ensures Gives(w, [While(c, body + [Break])], [If(c, body, [])], 0)
    ensures Gives(w, [If(c, body, [])], [While(c, body + [Break])], 1)
  {
    hide EvalExpr, ExecBlock;
    var x, y := While(c, body + [Break]), If(c, body, []);
    forall env: Env, st: State, n: nat
      ensures GivesAt(w, [x], [y], 0, env, st, n) && GivesAt(w, [y], [x], 1, env, st, n)
    {
      WhileIs(w, x, env, st, n);
      WhileIs(w, x, env, st, n + 1);
      ExecOne(w, y, env, st, n);
      if ExecWhile(w, x, env, st, n) != OutOfFuel {
        BreakOnce(w, c, body, env, st, n);
      }
      if ExecStmt(w, y, env, st, n) != OutOfFuel {
        OnceBreak(w, c, body, env, st, n);
      }
    }
  }

  lemma BrokenOff(w: World, body: seq<Stmt>, env: Env, st: State, n: nat)
    ensures ExecBlock(w, body + [Break], env, st, n)
         == var q := ExecBlock(w, body, env, st, n); if q.Next? then Broke(q.st) else q
  {
    ExecConcat(w, body, [Break], env, st, n);
    var q := ExecBlock(w, body, env, st, n);
    if q.Next? {
      ExecOne(w, Break, q.env, q.st, n);
    }
  }

  lemma IfRuns(w: World, c: Expr, yes: seq<Stmt>, env: Env, st: State, n: nat)
    ensures ExecStmt(w, If(c, yes, []), env, st, n) ==
      var r := EvalExpr(w, c, env, st, n);
      if !r.Val? then Stopped(r)
      else if Truthy(r.v) then Leave(env, ExecBlock(w, yes, env, r.st, n)) else Next(env, r.st)
  {
    hide EvalExpr;
    var r := EvalExpr(w, c, env, st, n);
    if r.Val? {
      assert ExecBlock(w, [], env, r.st, n) == Next(env, r.st);
    }
  }

  lemma BreakOnce(w: World, c: Expr, body: seq<Stmt>, env: Env, st: State, n: nat)
    requires StaysAll(body) && ExecWhile(w, While(c, body + [Break]), env, st, n) != OutOfFuel
    ensures ExecStmt(w, If(c, body, []), env, st, n) == ExecWhile(w, While(c, body + [Break]), env, st, n)
  {
    hide EvalExpr, ExecBlock, ExecStmt;
    IfRuns(w, c, body, env, st, n);
    var r := EvalExpr(w, c, env, st, n);
    if r.Val? && Truthy(r.v) {
      BrokenOff(w, body, env, r.st, n - 1);
      StaysBlock(w, body, env, r.st, n - 1);
      MoreBlock(w, body, env, r.st, n - 1, n);
    }
  }

  lemma OnceBreak(w: World, c: Expr, body: seq<Stmt>, env: Env, st: State, n: nat)
    requires StaysAll(body) && ExecStmt(w, If(c, body, []), env, st, n) != OutOfFuel
    ensures ExecWhile(w, While(c, body + [Break]), env, st, n + 1) == ExecStmt(w, If(c, body, []), env, st, n)
  {
    hide EvalExpr, ExecBlock, ExecStmt;
    IfRuns(w, c, body, env, st, n);
    MoreExpr(w, c, env, st, n, n + 1);
    var r := EvalExpr(w, c, env, st, n);
    if r.Val? && Truthy(r.v) {
      BrokenOff(w, body, env, r.st, n);
      StaysBlock(w, body, env, r.st, n);
    }
  }

  /** `continue` goes on with the next round, as the end of the body does. */
  lemma ContinueGoesOn(w: World, c: Expr, body: seq<Stmt>)
    ensures Alike(w, [While(c, body + [Continue])], [While(c, body)])
  {
    hide ExecBlock, ExecWhile;
    var x, y := While(c, body + [Continue]), While(c, body);
    forall env: Env, st: State, n: nat
      ensures GivesAt(w, [x], [y], 0, env, st, n) && GivesAt(w, [y], [x], 0, env, st, n)
    {
      WhileIs(w, x, env, st, n);
      WhileIs(w, y, env, st, n);
      ContinuedRuns(w, c, body, env, st, n);
    }
  }

  lemma {:induction false} ContinuedRuns(w: World, c: Expr, body: seq<Stmt>, env: Env, st: State, n: nat)
    ensures ExecWhile(w, While(c, body + [Continue]), env, st, n) == ExecWhile(w, While(c, body), env, st, n)
    decreases n
  {
    hide EvalExpr, ExecBlock;
    var r := EvalExpr(w, c, env, st, n);
    if r.Val? && Truthy(r.v) && n > 0 {
      ExecConcat(w, body, [Continue], env, r.st, n - 1);
      var q := ExecBlock(w, body, env, r.st, n - 1);
      if q.Next? {
        ExecOne(w, Continue, q.env, q.st, n - 1);
      }
      if q.Next? || q.Continued? {
        ContinuedRuns(w, c, body, env, q.st, n - 1);
      }
    }
  }

  /** Whole numbers are compared and counted up as they should. */
  ghost predicate Counts(w: World)
  {
    && (forall i: int, j: int :: w.lib("<=", [Data(i), Data(j)]) == Give(LBool(i <= j)))
    && (forall i: int :: w.lib("step", [Data(i)]) == Give(LData(i + 1)))
  }

  function Range(x: Name, decl: nat, i: int, j: int, body: seq<Stmt>): Stmt
  {
    For(x, decl, Lit(LData(i)), Lit(LData(j)), body)
  }

  lemma RangeIs(w: World, x: Name, decl: nat, i: int, j: int, body: seq<Stmt>, env: Env, st: State, n: nat)
    ensures ExecBlock(w, [Range(x, decl, i, j, body)], env, st, n)
         == ExecFor(w, Range(x, decl, i, j, body), Data(i), Data(j), env, st, n)
  {
    hide ExecFor;
    var s := Range(x, decl, i, j, body);
    ExecOne(w, s, env, st, n);
    EvalLit(w, LData(i), env, st, n);
    EvalLit(w, LData(j), env, st, n);
  }

  /** A counting loop that is past its end does nothing. */
  lemma ForIsOver(w: World, x: Name, decl: nat, i: int, j: int, body: seq<Stmt>)
    requires Counts(w) && i > j
    ensures Alike(w, [Range(x, decl, i, j, body)], [])
  {
    hide ExecBlock;
    var s := Range(x, decl, i, j, body);
    forall env: Env, st: State, n: nat
      ensures GivesAt(w, [s], [], 0, env, st, n) && GivesAt(w, [], [s], 0, env, st, n)
    {
      RangeIs(w, x, decl, i, j, body, env, st, n);
      NothingRuns(w, env, st, n);
      assert CallLibrary(w, "<=", [Data(i), Data(j)], st) == Val(Bool(false), st);
    }
  }

  lemma NothingRuns(w: World, env: Env, st: State, n: nat)
    ensures ExecBlock(w, [], env, st, n) == Next(env, st)
  {
  }

  /** One round with a loop variable of its own, and the rest of the loop. */
  function FirstRound(x: Name, decl: nat, i: int, j: int, body: seq<Stmt>): seq<Stmt>
  {
    [Do([Local(x, decl, Lit(LData(i)))] + body), Range(x, decl, i + 1, j, body)]
  }

  lemma RoundRuns(w: World, x: Name, decl: nat, i: int, j: int, body: seq<Stmt>, env: Env, st: State, n: nat)
    ensures ExecBlock(w, FirstRound(x, decl, i, j, body), env, st, n) ==
      var slot := NewSlot(decl, st);
      var q := ExecBlock(w, body, env[x := slot], Declare(slot, Data(i), st), n);
      if q.Next? then ExecFor(w, Range(x, decl, i + 1, j, body), Data(i + 1), Data(j), env, q.st, n) else q
  {
    hide ExecFor, Declare, NewSlot;
    var first, rest := Local(x, decl, Lit(LData(i))), Range(x, decl, i + 1, j, body);
    var slot := NewSlot(decl, st);
    ExecConcat(w, [Do([first] + body)], [rest], env, st, n);
    ExecOne(w, Do([first] + body), env, st, n);
    ExecConcat(w, [first], body, env, st, n);
    ExecOne(w, first, env, st, n);
    EvalLit(w, LData(i), env, st, n);
    assert ExecStmt(w, first, env, st, n) == Next(env[x := slot], Declare(slot, Data(i), st));
    hide ExecBlock;
    var q := ExecBlock(w, body, env[x := slot], Declare(slot, Data(i), st), n);
    if q.Next? {
      RangeIs(w, x, decl, i + 1, j, body, env, q.st, n);
    }
  }

  /** The rounds to come do not depend on where the loop began. */
  lemma {:induction false} SameRounds(w: World, s: Stmt, t: Stmt, at: Value, to: Value, env: Env, st: State, n: nat)
    requires s.For? && t.For? && s.x == t.x && s.decl == t.decl && s.body == t.body
    ensures ExecFor(w, s, at, to, env, st, n) == ExecFor(w, t, at, to, env, st, n)
    decreases n
  {
    hide CallLibrary, ExecBlock, Declare, NewSlot;
    var r := CallLibrary(w, "<=", [at, to], st);
    if r.Val? && n > 0 {
      var slot := NewSlot(s.decl, r.st);
      var q := ExecBlock(w, s.body, env[s.x := slot], Declare(slot, at, r.st), n - 1);
      if q.Next? || q.Continued? {
        var p := CallLibrary(w, "step", [at], q.st);
        if p.Val? {
          SameRounds(w, s, t, p.v, to, env, p.st, n - 1);
        }
      }
    }
  }

  lemma Compared(w: World, i: int, j: int, st: State)
    requires Counts(w)
    ensures CallLibrary(w, "<=", [Data(i), Data(j)], st) == Val(Bool(i <= j), st)
  {
  }

  lemma NextRoundIs(w: World, x: Name, decl: nat, i: int, j: int, body: seq<Stmt>, env: Env, st: State, n: nat)
    requires Counts(w) && n > 0
    ensures NextRound(w, Range(x, decl, i, j, body), Data(i), Data(j), env, st, n)
         == ExecFor(w, Range(x, decl, i + 1, j, body), Data(i + 1), Data(j), env, st, n - 1)
  {
    hide ExecFor;
    var s, t := Range(x, decl, i, j, body), Range(x, decl, i + 1, j, body);
    assert CallLibrary(w, "step", [Data(i)], st) == Val(Data(i + 1), st);
    SameRounds(w, s, t, Data(i + 1), Data(j), env, st, n - 1);
  }

  lemma ForRuns(w: World, x: Name, decl: nat, i: int, j: int, body: seq<Stmt>, env: Env, st: State, n: nat)
    requires Counts(w) && i <= j && StaysAll(body)
    ensures ExecFor(w, Range(x, decl, i, j, body), Data(i), Data(j), env, st, n) ==
      if n == 0 then OutOfFuel
      else
        var slot := NewSlot(decl, st);
        var q := ExecBlock(w, body, env[x := slot], Declare(slot, Data(i), st), n - 1);
        if q.Next? then ExecFor(w, Range(x, decl, i + 1, j, body), Data(i + 1), Data(j), env, q.st, n - 1) else q
  {
    hide ExecBlock, Declare, NewSlot, NextRound, CallLibrary, Counts, StaysAll;
    Compared(w, i, j, st);
    if n > 0 {
      var slot := NewSlot(decl, st);
      StaysBlock(w, body, env[x := slot], Declare(slot, Data(i), st), n - 1);
      var q := ExecBlock(w, body, env[x := slot], Declare(slot, Data(i), st), n - 1);
      if q.Next? {
        NextRoundIs(w, x, decl, i, j, body, env, q.st, n);
      }
    }
  }

  /** A counting loop runs its body with its variable at `i`, and goes on at `i + 1`. */
  lemma ForUnrolls(w: World, x: Name, decl: nat, i: int, j: int, body: seq<Stmt>)
    requires Counts(w) && i <= j && StaysAll(body)
    ensures Gives(w, [Range(x, decl, i, j, body)], FirstRound(x, decl, i, j, body), 0)
    ensures Gives(w, FirstRound(x, decl, i, j, body), [Range(x, decl, i, j, body)], 1)
  {
    hide ExecBlock, ExecFor, Counts, StaysAll, Declare, NewSlot;
    var s, t := Range(x, decl, i, j, body), FirstRound(x, decl, i, j, body);
    forall env: Env, st: State, n: nat
      ensures GivesAt(w, [s], t, 0, env, st, n) && GivesAt(w, t, [s], 1, env, st, n)
    {
      RangeIs(w, x, decl, i, j, body, env, st, n);
      RangeIs(w, x, decl, i, j, body, env, st, n + 1);
      RoundRuns(w, x, decl, i, j, body, env, st, n);
      ForRuns(w, x, decl, i, j, body, env, st, n);
      ForRuns(w, x, decl, i, j, body, env, st, n + 1);
      if ExecFor(w, s, Data(i), Data(j), env, st, n) != OutOfFuel {
        MoreRound(w, x, decl, i, j, body, env, st, n);
      }
    }
  }

  lemma MoreRound(w: World, x: Name, decl: nat, i: int, j: int, body: seq<Stmt>, env: Env, st: State, n: nat)
    requires Counts(w) && i <= j && StaysAll(body)
    requires ExecFor(w, Range(x, decl, i, j, body), Data(i), Data(j), env, st, n) != OutOfFuel
    ensures ExecBlock(w, FirstRound(x, decl, i, j, body), env, st, n)
         == ExecFor(w, Range(x, decl, i, j, body), Data(i), Data(j), env, st, n)
  {
    hide ExecBlock, ExecFor, Counts, StaysAll, Declare, NewSlot;
    RoundRuns(w, x, decl, i, j, body, env, st, n);
    ForRuns(w, x, decl, i, j, body, env, st, n);
    var slot := NewSlot(decl, st);
    MoreBlock(w, body, env[x := slot], Declare(slot, Data(i), st), n - 1, n);
    var q := ExecBlock(w, body, env[x := slot], Declare(slot, Data(i), st), n - 1);
    if q.Next? {
      MoreFor(w, Range(x, decl, i + 1, j, body), Data(i + 1), Data(j), env, q.st, n - 1, n);
    }
  }
}
