/** More fuel changes nothing about a run that ends: two runs of the same code
  with different step limits agree whenever both are conclusive.
 */
module Fuel {
  import opened Luau

  lemma {:induction false} MoreExpr(w: World, e: Expr, env: Env, st: State, n: nat, m: nat)
    requires n <= m && EvalExpr(w, e, env, st, n) != Exhausted
    ensures EvalExpr(w, e, env, st, m) == EvalExpr(w, e, env, st, n)
    decreases n, e, 1
  {
    hide EvalList, CallValue, CallLibrary, Get, Capture;
    match e
    case Items(items) => MoreList(w, items, env, st, n, m);
    case Index(t, i) =>
      MoreExpr(w, t, env, st, n, m);
      var r := EvalExpr(w, t, env, st, n);
      if r.Val? {
        MoreExpr(w, i, env, r.st, n, m);
      }
    case Op(name, args) => MoreList(w, args, env, st, n, m);
    case And(a, b) =>
      MoreExpr(w, a, env, st, n, m);
      var r := EvalExpr(w, a, env, st, n);
      if r.Val? && Truthy(r.v) {
        MoreExpr(w, b, env, r.st, n, m);
      }
    case Or(a, b) =>
      MoreExpr(w, a, env, st, n, m);
      var r := EvalExpr(w, a, env, st, n);
      if r.Val? && !Truthy(r.v) {
        MoreExpr(w, b, env, r.st, n, m);
      }
    case Call(fn, args) =>
      MoreExpr(w, fn, env, st, n, m);
      var r := EvalExpr(w, fn, env, st, n);
      if r.Val? {
        MoreList(w, args, env, r.st, n, m);
        var q := EvalList(w, args, env, r.st, n);
        if q.Vals? {
          MoreCall(w, e, r.v, q.vs, q.st, n, m);
        }
      }
    case _ =>
  }

  lemma {:induction false} MoreList(w: World, es: seq<Expr>, env: Env, st: State, n: nat, m: nat)
    requires n <= m && EvalList(w, es, env, st, n) != ExhaustedL
    ensures EvalList(w, es, env, st, m) == EvalList(w, es, env, st, n)
    decreases n, es, 0
  {
    hide EvalExpr;
    if es != [] {
      MoreExpr(w, es[0], env, st, n, m);
      var r := EvalExpr(w, es[0], env, st, n);
      if r.Val? {
        MoreList(w, es[1..], env, r.st, n, m);
      }
    }
  }

  lemma {:induction false} MoreCall(w: World, site: Expr, fv: Value, vs: seq<Value>, st: State, n: nat, m: nat)
    requires n <= m && CallValue(w, site, fv, vs, st, n) != Exhausted
    ensures CallValue(w, site, fv, vs, st, m) == CallValue(w, site, fv, vs, st, n)
    decreases n, site, 0
  {
    hide ExecBlock, BindParams, CallLibrary;
    if fv.Closure? && n > 0 {
      var (env1, st1) := BindParams(fv.f.params, vs, fv.env, st);
      MoreBlock(w, fv.f.body, env1, st1, n - 1, m - 1);
    }
  }

  lemma {:induction false} MoreStmt(w: World, s: Stmt, env: Env, st: State, n: nat, m: nat)
    requires n <= m && ExecStmt(w, s, env, st, n) != OutOfFuel
    ensures ExecStmt(w, s, env, st, m) == ExecStmt(w, s, env, st, n)
    decreases n, s, 1
  {
    hide EvalExpr, ExecBlock, ExecWhile, ExecFor, Set, Declare, NewSlot;
    match s
    case Local(x, d, e) => MoreExpr(w, e, env, st, n, m);
    case Assign(x, e) => MoreExpr(w, e, env, st, n, m);
    case SetIndex(t, i, e) =>
      MoreExpr(w, t, env, st, n, m);
      var r := EvalExpr(w, t, env, st, n);
      if r.Val? {
        MoreExpr(w, i, env, r.st, n, m);
        var q := EvalExpr(w, i, env, r.st, n);
        if q.Val? {
          MoreExpr(w, e, env, q.st, n, m);
        }
      }
    case Eval(e) => MoreExpr(w, e, env, st, n, m);
    case Do(body) => MoreBlock(w, body, env, st, n, m);
    case If(c, yes, no) =>
      MoreExpr(w, c, env, st, n, m);
      var r := EvalExpr(w, c, env, st, n);
      if r.Val? {
        MoreBlock(w, if Truthy(r.v) then yes else no, env, r.st, n, m);
      }
    case While(c, body) => MoreWhile(w, s, env, st, n, m);
    case For(x, d, lo, hi, body) =>
      MoreExpr(w, lo, env, st, n, m);
      var r := EvalExpr(w, lo, env, st, n);
      if r.Val? {
        MoreExpr(w, hi, env, r.st, n, m);
        var q := EvalExpr(w, hi, env, r.st, n);
        if q.Val? {
          MoreFor(w, s, r.v, q.v, env, q.st, n, m);
        }
      }
    case Return(e) => MoreExpr(w, e, env, st, n, m);
    case _ =>
  }

  lemma {:induction false} MoreBlock(w: World, b: seq<Stmt>, env: Env, st: State, n: nat, m: nat)
    requires n <= m && ExecBlock(w, b, env, st, n) != OutOfFuel
    ensures ExecBlock(w, b, env, st, m) == ExecBlock(w, b, env, st, n)
    decreases n, b, 0
  {
    hide ExecStmt;
    if b != [] {
      MoreStmt(w, b[0], env, st, n, m);
      var r := ExecStmt(w, b[0], env, st, n);
      if r.Next? {
        MoreBlock(w, b[1..], r.env, r.st, n, m);
      }
    }
  }

  lemma {:induction false} MoreWhile(w: World, s: Stmt, env: Env, st: State, n: nat, m: nat)
    requires n <= m && s.While? && ExecWhile(w, s, env, st, n) != OutOfFuel
    ensures ExecWhile(w, s, env, st, m) == ExecWhile(w, s, env, st, n)
    decreases n, s, 0
  {
    hide EvalExpr, ExecBlock;
    MoreExpr(w, s.c, env, st, n, m);
    var r := EvalExpr(w, s.c, env, st, n);
    if r.Val? && Truthy(r.v) && n > 0 {
      MoreBlock(w, s.body, env, r.st, n - 1, m - 1);
      var q := ExecBlock(w, s.body, env, r.st, n - 1);
      if q.Next? || q.Continued? {
        MoreWhile(w, s, env, q.st, n - 1, m - 1);
      }
    }
  }

  lemma {:induction false} MoreFor(w: World, s: Stmt, at: Value, to: Value, env: Env, st: State, n: nat, m: nat)
    requires n <= m && s.For? && ExecFor(w, s, at, to, env, st, n) != OutOfFuel
    ensures ExecFor(w, s, at, to, env, st, m) == ExecFor(w, s, at, to, env, st, n)
    decreases n, s, 0
  {
    hide ExecBlock, CallLibrary, Declare, NewSlot;
    var r := CallLibrary(w, "<=", [at, to], st);
    if r.Val? && Truthy(r.v) && n > 0 {
      var slot := NewSlot(s.decl, r.st);
      var env1, st1 := env[s.x := slot], Declare(slot, at, r.st);
      MoreBlock(w, s.body, env1, st1, n - 1, m - 1);
      var q := ExecBlock(w, s.body, env1, st1, n - 1);
      if q.Next? || q.Continued? {
        var p := CallLibrary(w, "step", [at], q.st);
        if p.Val? {
          MoreFor(w, s, p.v, to, env, p.st, n - 1, m - 1);
        }
      }
    }
  }

  /** Conclusive observations do not depend on the step limit. */
  lemma Conclusive(w: World, main: seq<Stmt>, c: bool, c': bool, globals: map<Name, Value>, n: nat, m: nat)
    requires Observe(w, main, c, globals, n).Some? && Observe(w, main, c', globals, m).Some?
    ensures Observe(w, main, c, globals, n) == Observe(w, main, c', globals, m)
  {
    var st := State(map[], map[], [], globals, []);
    if n <= m {
      MoreBlock(w, main, map[], st, n, m);
    } else {
      MoreBlock(w, main, map[], st, m, n);
    }
  }
}
