/** What programs are seen to print; a generated program prints, last of all, what
  its variables hold.
 */
module Printouts {
  import opened Basics
  import opened Luau
  import opened Metamorphic
  import opened Computational
  import opened Laws

  // ----- printing -----

  /** One entry for each of the first `n` variables: the value it holds. */
  function VariablesOf(n: nat, env: Env, st: State): seq<seq<Repr>>
  {
    seq(n, i requires 0 <= i < n => [ReprOf(Get(V(i), env, st))])
  }

  lemma PrintRuns(w: World, i: nat, env: Env, st: State, fuel: nat)
    requires Get(Ident("print"), env, st) == Print
    ensures ExecStmt(w, Eval(PrintOf(i)), env, st, fuel)
         == Next(env, st.(trace := st.trace + [[Get(V(i), env, st)]]))
  {
    CallPrint(w, PRINT, Var(V(i)), env, st, fuel);
  }

  /** Calling `print` adds one entry to what is printed. */
  lemma CallPrint(w: World, fn: Expr, e: Expr, env: Env, st: State, fuel: nat)
    requires EvalExpr(w, fn, env, st, fuel) == Val(Print, st) && EvalExpr(w, e, env, st, fuel).Val?
    ensures var r := EvalExpr(w, e, env, st, fuel);
      EvalExpr(w, Call(fn, [e]), env, st, fuel) == Val(Nil, r.st.(trace := r.st.trace + [[r.v]]))
  {
    hide EvalList;
    OneValue(w, e, env, st, fuel);
  }

  lemma OneValue(w: World, e: Expr, env: Env, st: State, fuel: nat)
    requires EvalExpr(w, e, env, st, fuel).Val?
    ensures var r := EvalExpr(w, e, env, st, fuel); EvalList(w, [e], env, st, fuel) == Vals([r.v], r.st)
  {
    hide EvalExpr;
    var r := EvalExpr(w, e, env, st, fuel);
    assert [e][1..] == [];
    assert [r.v] + [] == [r.v];
  }

  lemma PrintedMore(st: State, v: Value)
    ensures Printed(st.(trace := st.trace + [[v]])) == Printed(st) + [[ReprOf(v)]]
  {
    assert ReprAll([v]) == [ReprOf(v)];
  }

  lemma {:induction false} PrintsRun(w: World, n: nat, env: Env, st: State, fuel: nat)
    requires Get(Ident("print"), env, st) == Print
    ensures var r := ExecBlock(w, Prints(n), env, st, fuel);
      && r.Next? && r.env == env && r.st == st.(trace := r.st.trace)
      && Printed(r.st) == Printed(st) + VariablesOf(n, env, st)
  {
    hide ExecStmt, Printed;
    if n > 0 {
      PrintsRun(w, n - 1, env, st, fuel);
      var r := ExecBlock(w, Prints(n - 1), env, st, fuel);
      ExecConcat(w, Prints(n - 1), [Eval(PrintOf(n - 1))], env, st, fuel);
      ExecOne(w, Eval(PrintOf(n - 1)), env, r.st, fuel);
      PrintRuns(w, n - 1, env, r.st, fuel);
      PrintedMore(r.st, Get(V(n - 1), env, st));
      var last := [[ReprOf(Get(V(n - 1), env, st))]];
      assert VariablesOf(n, env, st) == VariablesOf(n - 1, env, st) + last;
      Assoc(Printed(st), VariablesOf(n - 1, env, st), last);
    } else {
      assert Printed(st) + VariablesOf(0, env, st) == Printed(st);
    }
  }

  /** A program that ends and is followed by prints of its first `n` variables
      shows what it showed, and then the values they hold, one in each entry. */
  lemma PrintsAreSeen(w: World, b: seq<Stmt>, n: nat, globals: map<Name, Value>, fuel: nat)
    requires ExecBlock(w, b, map[], Start(globals), fuel).Next?
    requires var r := ExecBlock(w, b, map[], Start(globals), fuel); Get(Ident("print"), r.env, r.st) == Print
    ensures var r := ExecBlock(w, b, map[], Start(globals), fuel);
      && Observe(w, b, true, globals, fuel) == Some(Ok(RNil, Printed(r.st)))
      && Observe(w, b + Prints(n), true, globals, fuel)
           == Some(Ok(RNil, Printed(r.st) + VariablesOf(n, r.env, r.st)))
  {
    hide ExecBlock, Printed;
    var r := ExecBlock(w, b, map[], Start(globals), fuel);
    ExecConcat(w, b, Prints(n), map[], Start(globals), fuel);
    PrintsRun(w, n, r.env, r.st, fuel);
  }

  // ----- generated programs print their variables at the end -----

  ghost predicate PlainTable(t: map<Value, Value>)
  {
    forall k :: k in t ==> !t[k].Closure?
  }

  ghost predicate PlainValues(vs: seq<Value>)
  {
    forall i :: 0 <= i < |vs| ==> !vs[i].Closure?
  }

  /** No function written in the program is held anywhere. */
  ghost predicate Plain(st: State)
  {
    && PlainGlobals(st.globals)
    && (forall s :: s in st.cells ==> !st.cells[s].Closure?)
    && (forall i :: 0 <= i < |st.tables| ==> PlainTable(st.tables[i]))
  }

  predicate CanPrint(env: Env, st: State)
  {
    Ident("print") !in env && Ident("print") in st.globals && st.globals[Ident("print")] == Print
  }

  lemma {:induction false} NewTableIsPlain(vs: seq<Value>)
    requires PlainValues(vs)
    ensures PlainTable(NewTable(vs))
  {
    if vs != [] {
      NewTableIsPlain(vs[..|vs| - 1]);
    }
  }

  lemma {:induction false} PlainExpr(w: World, n: nat, e: Expr, env: Env, st: State, fuel: nat)
    requires Reads(n, e) && Plain(st)
    ensures var r := EvalExpr(w, e, env, st, fuel);
      r.Val? ==> !r.v.Closure? && Plain(r.st) && r.st.globals == st.globals
    decreases e, 1
  {
    hide EvalList, CallLibrary, Plain, Reads, ReadsAll, NewTable;
    ReadsParts(n, e);
    match e
    case Lit(_) =>
    case Var(x) => GetIsPlain(x, env, st);
    case Func(_) =>
    case Items(items) =>
      PlainList(w, n, items, env, st, fuel);
      var r := EvalList(w, items, env, st, fuel);
      if r.Vals? {
        AddTable(r.vs, r.st);
      }
    case Index(t, k) =>
      PlainExpr(w, n, t, env, st, fuel);
      var r := EvalExpr(w, t, env, st, fuel);
      if r.Val? {
        PlainExpr(w, n, k, env, r.st, fuel);
        var q := EvalExpr(w, k, env, r.st, fuel);
        if q.Val? {
          EntryIsPlain(r.v, q.v, q.st);
        }
      }
    case Op(name, args) =>
      PlainList(w, n, args, env, st, fuel);
      var r := EvalList(w, args, env, st, fuel);
      if r.Vals? {
        LibraryIsPlain(w, name, r.vs, r.st);
      }
    case And(_, _) => PlainBoth(w, n, e, env, st, fuel);
    case Or(_, _) => PlainBoth(w, n, e, env, st, fuel);
    case Call(fn, args) =>
      PlainExpr(w, n, fn, env, st, fuel);
      var r := EvalExpr(w, fn, env, st, fuel);
      if r.Val? {
        PlainList(w, n, args, env, r.st, fuel);
        var q := EvalList(w, args, env, r.st, fuel);
        if q.Vals? {
          CallIsPlain(w, e, r.v, q.vs, q.st, fuel);
        }
      }
  }

  lemma {:induction false} PlainBoth(w: World, n: nat, e: Expr, env: Env, st: State, fuel: nat)
    requires (e.And? || e.Or?) && Reads(n, e.a) && Reads(n, e.b) && Plain(st)
    ensures var r := EvalExpr(w, e, env, st, fuel);
      r.Val? ==> !r.v.Closure? && Plain(r.st) && r.st.globals == st.globals
    decreases e, 0
  {
    hide Plain, Reads;
    PlainExpr(w, n, e.a, env, st, fuel);
    var r := EvalExpr(w, e.a, env, st, fuel);
    if r.Val? {
      PlainExpr(w, n, e.b, env, r.st, fuel);
    }
  }

  lemma {:induction false} PlainList(w: World, n: nat, es: seq<Expr>, env: Env, st: State, fuel: nat)
    requires ReadsAll(n, es) && Plain(st)
    ensures var r := EvalList(w, es, env, st, fuel);
      r.Vals? ==> PlainValues(r.vs) && Plain(r.st) && r.st.globals == st.globals
    decreases es, 0
  {
    hide EvalExpr, Plain, Reads;
    if es != [] {
      PlainExpr(w, n, es[0], env, st, fuel);
      var r := EvalExpr(w, es[0], env, st, fuel);
      if r.Val? {
        PlainList(w, n, es[1..], env, r.st, fuel);
      }
    }
  }

  lemma ReadsParts(n: nat, e: Expr)
    requires Reads(n, e)
    ensures !e.Func? && (e.Items? ==> ReadsAll(n, e.items)) && (e.Op? ==> ReadsAll(n, e.args))
    ensures (e.Index? ==> Reads(n, e.t) && Reads(n, e.k)) && (e.Call? ==> Reads(n, e.fn) && ReadsAll(n, e.args))
    ensures (e.And? ==> Reads(n, e.a) && Reads(n, e.b)) && (e.Or? ==> Reads(n, e.a) && Reads(n, e.b))
  {
  }

  lemma GetIsPlain(x: Name, env: Env, st: State)
    requires Plain(st)
    ensures !Get(x, env, st).Closure?
  {
  }

  lemma AddTable(vs: seq<Value>, st: State)
    requires Plain(st) && PlainValues(vs)
    ensures Plain(st.(tables := st.tables + [NewTable(vs)]))
  {
    NewTableIsPlain(vs);
  }

  lemma EntryIsPlain(t: Value, k: Value, st: State)
    requires Plain(st)
    ensures t.Table? && t.id < |st.tables| && k in st.tables[t.id] ==> !st.tables[t.id][k].Closure?
  {
    assert t.Table? && t.id < |st.tables| ==> PlainTable(st.tables[t.id]);
  }

  lemma LibraryIsPlain(w: World, name: string, vs: seq<Value>, st: State)
    requires PlainValues(vs)
    ensures var r := CallLibrary(w, name, vs, st); r.Val? ==> !r.v.Closure? && r.st == st
  {
  }

  lemma CallIsPlain(w: World, site: Expr, fv: Value, vs: seq<Value>, st: State, fuel: nat)
    requires !fv.Closure? && PlainValues(vs) && Plain(st)
    ensures var r := CallValue(w, site, fv, vs, st, fuel);
      r.Val? ==> !r.v.Closure? && Plain(r.st) && r.st.globals == st.globals
  {
    if fv.Library? {
      LibraryIsPlain(w, fv.name, vs, st);
    }
  }

  /** A run that ends falls off the end of the program, and `print` is still what it was. */
  ghost predicate StillPrints(r: Flow)
  {
    match r
    case Next(env, st) => Plain(st) && CanPrint(env, st)
    case Raised(_) => true
    case OutOfFuel => true
    case _ => false
  }

  lemma PlainDeclare(slot: Slot, v: Value, st: State)
    requires Plain(st) && !v.Closure?
    ensures Plain(Declare(slot, v, st)) && Declare(slot, v, st).globals == st.globals
  {
  }

  lemma PlainSet(x: Name, v: Value, env: Env, st: State)
    requires Plain(st) && CanPrint(env, st) && !v.Closure? && x != Ident("print")
    ensures Plain(Set(x, v, env, st)) && CanPrint(env, Set(x, v, env, st))
  {
  }

  lemma PlainAssign(w: World, n: nat, s: Stmt, env: Env, st: State, fuel: nat)
    requires s.Assign? && s.x.V? && Reads(n, s.e) && Plain(st) && CanPrint(env, st)
    ensures StillPrints(ExecBlock(w, [s], env, st, fuel))
    ensures var r := ExecBlock(w, [s], env, st, fuel); r.Next? ==> r.env == env
  {
    hide Plain, Reads, Set, EvalExpr;
    ExecOne(w, s, env, st, fuel);
    PlainExpr(w, n, s.e, env, st, fuel);
    var r := EvalExpr(w, s.e, env, st, fuel);
    if r.Val? {
      PlainSet(s.x, r.v, env, r.st);
    }
  }

  lemma {:induction false} PlainFor(w: World, n: nat, s: Stmt, at: Value, to: Value, env: Env, st: State, fuel: nat)
    requires s.For? && Scoped(n, s) && Plain(st) && CanPrint(env, st) && !at.Closure? && !to.Closure?
    ensures StillPrints(ExecFor(w, s, at, to, env, st, fuel))
    decreases fuel
  {
    hide Plain, Reads, CallLibrary, ExecBlock, Declare;
    LibraryIsPlain(w, "<=", [at, to], st);
    var r := CallLibrary(w, "<=", [at, to], st);
    if r.Val? && Truthy(r.v) && fuel > 0 {
      var slot := NewSlot(s.decl, r.st);
      PlainDeclare(slot, at, r.st);
      var env1, st1 := env[s.x := slot], Declare(slot, at, r.st);
      assert s.body == [s.body[0]];
      PlainAssign(w, n, s.body[0], env1, st1, fuel - 1);
      var q := ExecBlock(w, s.body, env1, st1, fuel - 1);
      if q.Next? {
        PlainRound(w, n, s, at, to, env, q.st, fuel);
      }
    }
  }

  lemma {:induction false} PlainRound(w: World, n: nat, s: Stmt, at: Value, to: Value, env: Env, st: State, fuel: nat)
    requires s.For? && Scoped(n, s) && Plain(st) && CanPrint(env, st) && !at.Closure? && !to.Closure? && fuel > 0
    ensures StillPrints(NextRound(w, s, at, to, env, st, fuel))
    decreases fuel, 0
  {
    hide Plain, Scoped, CallLibrary, ExecFor;
    LibraryIsPlain(w, "step", [at], st);
    var p := CallLibrary(w, "step", [at], st);
    if p.Val? {
      PlainFor(w, n, s, p.v, to, env, p.st, fuel - 1);
    }
  }

  ghost predicate SomewhereScoped(s: Stmt)
  {
    exists n: nat :: Scoped(n, s)
  }

  lemma PlainStmt(w: World, n: nat, s: Stmt, env: Env, st: State, fuel: nat)
    requires Scoped(n, s) && Plain(st) && CanPrint(env, st)
    ensures StillPrints(ExecStmt(w, s, env, st, fuel))
  {
    hide Plain, Reads, EvalExpr, ExecFor, Declare;
    match s
    case Local(x, _, e) =>
      PlainExpr(w, n, e, env, st, fuel);
      var r := EvalExpr(w, e, env, st, fuel);
      if r.Val? {
        PlainDeclare(NewSlot(OWN, r.st), r.v, r.st);
      }
    case Eval(e) =>
      var i: nat :| i < n && e == PrintOf(i);
      ReadsOne(n, PRINT, Var(V(i)), "");
      PlainExpr(w, n, e, env, st, fuel);
    case For(_, _, lo, hi, _) =>
      PlainExpr(w, n, lo, env, st, fuel);
      var r := EvalExpr(w, lo, env, st, fuel);
      if r.Val? {
        PlainExpr(w, n, hi, env, r.st, fuel);
        var q := EvalExpr(w, hi, env, r.st, fuel);
        if q.Val? {
          PlainFor(w, n, s, r.v, q.v, env, q.st, fuel);
        }
      }
  }

  lemma {:induction false} PlainBlock(w: World, b: seq<Stmt>, env: Env, st: State, fuel: nat)
    requires Plain(st) && CanPrint(env, st) && forall p :: 0 <= p < |b| ==> SomewhereScoped(b[p])
    ensures StillPrints(ExecBlock(w, b, env, st, fuel))
    decreases |b|
  {
    hide Plain, CanPrint, Scoped, ExecStmt;
    if b != [] {
      assert SomewhereScoped(b[0]);
      var n: nat :| Scoped(n, b[0]);
      PlainStmt(w, n, b[0], env, st, fuel);
      var r := ExecStmt(w, b[0], env, st, fuel);
      if r.Next? {
        PlainBlock(w, b[1..], r.env, r.st, fuel);
      }
    }
  }

  /** A generated program that ends without an error shows, last of all, what its
      variables hold: one entry for each of them, in order, with one value. */
  lemma EndsWithItsVariables(w: World, body: seq<Stmt>, n: nat, globals: map<Name, Value>, fuel: nat)
    requires WellScoped(body + Prints(n)) && PlainGlobals(globals)
    requires Ident("print") in globals && globals[Ident("print")] == Print
    ensures var r := ExecBlock(w, body, map[], Start(globals), fuel);
      var seen := Observe(w, body + Prints(n), true, globals, fuel);
      && (r.Next? || r.Raised? || r.OutOfFuel?)
      && (r.Next? ==> seen == Some(Ok(RNil, Printed(r.st) + VariablesOf(n, r.env, r.st))))
      && (!r.Next? ==> seen == Observed(r))
  {
    hide ExecBlock, Printed, Scoped;
    var st := Start(globals);
    forall p | 0 <= p < |body| ensures SomewhereScoped(body[p]) {
      assert (body + Prints(n))[p] == body[p] && Scoped(Declared((body + Prints(n))[..p]), body[p]);
    }
    PlainBlock(w, body, map[], st, fuel);
    ExecConcat(w, body, Prints(n), map[], st, fuel);
    if ExecBlock(w, body, map[], st, fuel).Next? {
      PrintsAreSeen(w, body, n, globals, fuel);
    }
  }
}
