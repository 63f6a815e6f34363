/** What programs that end are seen to give: what locals, tables and functions
  hold, what errors and `print` leave to be seen.
 */
module Outcomes {
  import opened Luau
  import opened Metamorphic
  import opened Fuel
  import opened Laws

  // ----- what locals, tables and functions hold -----

  /** Run at the end of a program, with `k` more calls and rounds for `x`, both are
      seen to do the same. */
  ghost predicate SeenSame(w: World, x: seq<Stmt>, y: seq<Stmt>, k: nat)
  {
    forall env: Env, st: State, n: nat :: SeenSameAt(w, x, y, k, env, st, n)
  }

  ghost predicate SeenSameAt(w: World, x: seq<Stmt>, y: seq<Stmt>, k: nat, env: Env, st: State, n: nat)
  {
    Observed(ExecBlock(w, x, env, st, n + k)) == Observed(ExecBlock(w, y, env, st, n))
  }

  lemma AtTheEnd(w: World, x: seq<Stmt>, y: seq<Stmt>, k: nat, a: seq<Stmt>, globals: map<Name, Value>, fuel: nat)
    requires SeenSame(w, x, y, k) && Observe(w, a, true, globals, fuel).Some?
    ensures Observe(w, a + x, true, globals, fuel + k) == Observe(w, a + y, true, globals, fuel)
  {
    hide ExecBlock, Printed;
    var st := Start(globals);
    ExecConcat(w, a, x, map[], st, fuel + k);
    ExecConcat(w, a, y, map[], st, fuel);
    MoreBlock(w, a, map[], st, fuel, fuel + k);
    var r := ExecBlock(w, a, map[], st, fuel);
    if r.Next? {
      assert SeenSameAt(w, x, y, k, r.env, r.st, fuel);
    }
  }

  lemma LocalRuns(w: World, x: Name, decl: nat, e: Expr, rest: seq<Stmt>, env: Env, st: State, n: nat)
    ensures ExecBlock(w, [Local(x, decl, e)] + rest, env, st, n) ==
      var r := EvalExpr(w, e, env, st, n);
      if r.Val? then
        var slot := NewSlot(decl, r.st);
        ExecBlock(w, rest, env[x := slot], Declare(slot, r.v, r.st), n)
      else Stopped(r)
  {
    hide EvalExpr, Declare, NewSlot;
    ExecConcat(w, [Local(x, decl, e)], rest, env, st, n);
    ExecOne(w, Local(x, decl, e), env, st, n);
  }

  lemma ReturnRuns(w: World, e: Expr, env: Env, st: State, n: nat)
    ensures ExecBlock(w, [Return(e)], env, st, n) ==
      var r := EvalExpr(w, e, env, st, n); if r.Val? then Returned(r.v, r.st) else Stopped(r)
  {
    hide EvalExpr;
    ExecOne(w, Return(e), env, st, n);
  }

  lemma EvalVar(w: World, x: Name, env: Env, st: State, n: nat)
    ensures EvalExpr(w, Var(x), env, st, n) == Val(Get(x, env, st), st)
  {
  }

  lemma DeclareTraces(slot: Slot, v: Value, st: State)
    ensures Printed(Declare(slot, v, st)) == Printed(st) && Declare(slot, v, st).tables == st.tables
  {
  }

  /** A local holds what it was given. */
  lemma LocalHolds(w: World, x: Name, decl: nat, e: Expr)
    ensures SeenSame(w, [Local(x, decl, e), Return(Var(x))], [Return(e)], 0)
  {
    hide ExecBlock, EvalExpr, Declare, Printed;
    forall env: Env, st: State, n: nat
      ensures SeenSameAt(w, [Local(x, decl, e), Return(Var(x))], [Return(e)], 0, env, st, n)
    {
      LocalRuns(w, x, decl, e, [Return(Var(x))], env, st, n);
      assert [Local(x, decl, e)] + [Return(Var(x))] == [Local(x, decl, e), Return(Var(x))];
      ReturnRuns(w, e, env, st, n);
      var r := EvalExpr(w, e, env, st, n);
      if r.Val? {
        var slot := NewSlot(decl, r.st);
        var env1, st1 := env[x := slot], Declare(slot, r.v, r.st);
        ReturnRuns(w, Var(x), env1, st1, n);
        EvalVar(w, x, env1, st1, n);
        DeclareTraces(slot, r.v, r.st);
        assert Get(x, env1, st1) == r.v by { GetDeclared(x, slot, r.v, env, r.st); }
      }
    }
  }

  lemma GetDeclared(x: Name, slot: Slot, v: Value, env: Env, st: State)
    ensures Get(x, env[x := slot], Declare(slot, v, st)) == v
    ensures forall y :: y != x && !(y in env && env[y] == slot) ==>
      Get(y, env[x := slot], Declare(slot, v, st)) == Get(y, env, st)
  {
  }

  /** An assignment is seen by those who read. */
  lemma AssignHolds(w: World, x: Name, decl: nat, e: Expr, e': Expr)
    ensures SeenSame(w, [Local(x, decl, e), Assign(x, e'), Return(Var(x))], [Local(x, decl, e), Return(e')], 0)
  {
    hide ExecBlock, EvalExpr, Declare, Printed, Set;
    var rest, rest' := [Assign(x, e'), Return(Var(x))], [Return(e')];
    assert [Local(x, decl, e)] + rest == [Local(x, decl, e), Assign(x, e'), Return(Var(x))];
    assert [Local(x, decl, e)] + rest' == [Local(x, decl, e), Return(e')];
    forall env: Env, st: State, n: nat
      ensures SeenSameAt(w, [Local(x, decl, e)] + rest, [Local(x, decl, e)] + rest', 0, env, st, n)
    {
      LocalRuns(w, x, decl, e, rest, env, st, n);
      LocalRuns(w, x, decl, e, rest', env, st, n);
      var r := EvalExpr(w, e, env, st, n);
      if r.Val? {
        var slot := NewSlot(decl, r.st);
        AssignedIs(w, x, e', env[x := slot], Declare(slot, r.v, r.st), n);
      }
    }
  }

  lemma AssignedIs(w: World, x: Name, e: Expr, env: Env, st: State, n: nat)
    requires x in env
    ensures Observed(ExecBlock(w, [Assign(x, e), Return(Var(x))], env, st, n))
         == Observed(ExecBlock(w, [Return(e)], env, st, n))
  {
    hide EvalExpr;
    ExecTwo(w, Assign(x, e), Return(Var(x)), env, st, n);
    ReturnRuns(w, e, env, st, n);
    var r := EvalExpr(w, e, env, st, n);
    if r.Val? {
      var st1 := Set(x, r.v, env, r.st);
      EvalVar(w, x, env, st1, n);
      assert Printed(st1) == Printed(r.st);
    }
  }

  /** A block's own local does not touch one around it, of the same name or not,
      nor does a further local of another name. */
  lemma LocalsAreApart(w: World, x: Name, decl: nat, e: Expr, y: Name, decl': nat, l: Literal)
    ensures SeenSame(w, [Local(x, decl, e), Do([Local(y, decl', Lit(l))]), Return(Var(x))], [Return(e)], 0)
    ensures x != y ==> SeenSame(w, [Local(x, decl, e), Local(y, decl', Lit(l)), Return(Var(x))], [Return(e)], 0)
  {
    hide ExecBlock, EvalExpr, Printed;
    var inner := Local(y, decl', Lit(l));
    forall env: Env, st: State, n: nat, s | s == Do([inner]) || (x != y && s == inner)
      ensures SeenSameAt(w, [Local(x, decl, e), s, Return(Var(x))], [Return(e)], 0, env, st, n)
    {
      assert [Local(x, decl, e)] + [s, Return(Var(x))] == [Local(x, decl, e), s, Return(Var(x))];
      LocalRuns(w, x, decl, e, [s, Return(Var(x))], env, st, n);
      ReturnRuns(w, e, env, st, n);
      var r := EvalExpr(w, e, env, st, n);
      if r.Val? {
        var slot := NewSlot(decl, r.st);
        ApartAt(w, x, y, decl', l, s, env[x := slot], Declare(slot, r.v, r.st), n);
        DeclareTraces(slot, r.v, r.st);
      }
    }
  }

  lemma ApartAt(w: World, x: Name, y: Name, decl: nat, l: Literal, s: Stmt, env: Env, st: State, n: nat)
    requires s == Do([Local(y, decl, Lit(l))]) || (x != y && s == Local(y, decl, Lit(l)))
    requires x in env && env[x] in st.cells && env[x] != NewSlot(decl, st)
    ensures var q := ExecBlock(w, [s, Return(Var(x))], env, st, n);
      q.Returned? && q.v == st.cells[env[x]] && Printed(q.st) == Printed(st)
  {
    hide EvalExpr;
    var inner, slot := Local(y, decl, Lit(l)), NewSlot(decl, st);
    EvalLit(w, l, env, st, n);
    ExecOne(w, inner, env, st, n);
    hide ExecBlock;
    ExecConcat(w, [s], [Return(Var(x))], env, st, n);
    ExecOne(w, s, env, st, n);
    assert [s] + [Return(Var(x))] == [s, Return(Var(x))];
    var st1 := Declare(slot, OfLiteral(l), st);
    var env1 := if s == inner then env[y := slot] else env;
    ReturnRuns(w, Var(x), env1, st1, n);
    EvalVar(w, x, env1, st1, n);
    DeclareTraces(slot, OfLiteral(l), st);
  }

  function Lits(ls: seq<Literal>): seq<Expr>
  {
    seq(|ls|, i requires 0 <= i < |ls| => Lit(ls[i]))
  }

  function Values(ls: seq<Literal>): seq<Value>
  {
    seq(|ls|, i requires 0 <= i < |ls| => OfLiteral(ls[i]))
  }

  lemma {:induction false} LitsEval(w: World, ls: seq<Literal>, env: Env, st: State, n: nat)
    ensures EvalList(w, Lits(ls), env, st, n) == Vals(Values(ls), st)
    decreases |ls|
  {
    hide EvalExpr;
    if ls != [] {
      EvalLit(w, ls[0], env, st, n);
      assert Lits(ls)[1..] == Lits(ls[1..]);
      assert Values(ls) == [OfLiteral(ls[0])] + Values(ls[1..]);
      LitsEval(w, ls[1..], env, st, n);
    }
  }

  function Nth(ls: seq<Literal>, i: int): Literal
  {
    if 0 <= i < |ls| then ls[i] else LNil
  }

  lemma {:induction false} NewTableAt(vs: seq<Value>, i: int)
    ensures Data(i) in NewTable(vs) <==> 1 <= i <= |vs|
    ensures 1 <= i <= |vs| ==> NewTable(vs)[Data(i)] == vs[i - 1]
    decreases |vs|
  {
    if vs != [] {
      NewTableAt(vs[..|vs| - 1], i);
    }
  }

  /** The items of a table are numbered from 1, and there are no others. */
  lemma ItemsAreNumbered(w: World, ls: seq<Literal>, i: int)
    ensures SeenSame(w, [Return(Index(Items(Lits(ls)), Lit(LData(i))))], [Return(Lit(Nth(ls, i - 1)))], 0)
  {
    hide ExecBlock, Printed;
    var t, k := Items(Lits(ls)), Lit(LData(i));
    var x, y := [Return(Index(t, k))], [Return(Lit(Nth(ls, i - 1)))];
    forall env: Env, st: State, n: nat ensures SeenSameAt(w, x, y, 0, env, st, n) {
      ReturnRuns(w, Index(t, k), env, st, n);
      ReturnRuns(w, Lit(Nth(ls, i - 1)), env, st, n);
      LitsEval(w, ls, env, st, n);
      NewTableAt(Values(ls), i);
      var st1 := st.(tables := st.tables + [NewTable(Values(ls))]);
      assert EvalExpr(w, t, env, st, n) == Val(Table(|st.tables|), st1);
      EvalLit(w, LData(i), env, st1, n);
      EvalLit(w, Nth(ls, i - 1), env, st, n);
      EvalIndex(w, t, k, env, st, n);
      SamePrinted(st, st1);
    }
  }

  lemma SamePrinted(st: State, st': State)
    requires st.trace == st'.trace
    ensures Printed(st) == Printed(st')
  {
  }

  lemma EvalIndex(w: World, t: Expr, k: Expr, env: Env, st: State, n: nat)
    requires EvalExpr(w, t, env, st, n).Val?
    requires var r := EvalExpr(w, t, env, st, n); EvalExpr(w, k, env, r.st, n).Val?
    ensures var r := EvalExpr(w, t, env, st, n);
      var q := EvalExpr(w, k, env, r.st, n);
      EvalExpr(w, Index(t, k), env, st, n) ==
        if r.v.Table? && r.v.id < |q.st.tables| then
          Val(if q.v in q.st.tables[r.v.id] then q.st.tables[r.v.id][q.v] else Nil, q.st)
        else Raise(q.st)
  {
  }

  /** Two names of one table: what is put in under one is found under the other,
      at that key and no other. */
  lemma TablesAreShared(w: World, t: Name, u: Name, d: nat, d': nat, k: Literal, k': Literal, v: Literal)
    requires t != u
    ensures SeenSame(w, [Local(t, d, Items([])), Local(u, d', Var(t)), SetIndex(Var(u), Lit(k), Lit(v)),
                         Return(Index(Var(t), Lit(k')))],
                     [Return(Lit(if k == k' then v else LNil))], 0)
  {
    hide ExecBlock, Printed;
    var last := [SetIndex(Var(u), Lit(k), Lit(v)), Return(Index(Var(t), Lit(k')))];
    var x, y := [Local(t, d, Items([]))] + ([Local(u, d', Var(t))] + last), [Return(Lit(if k == k' then v else LNil))];
    assert x == [Local(t, d, Items([])), Local(u, d', Var(t))] + last;
    assert x == [Local(t, d, Items([])), Local(u, d', Var(t)), last[0], last[1]];
    forall env: Env, st: State, n: nat ensures SeenSameAt(w, x, y, 0, env, st, n) {
      EmptyTable(w, env, st, n);
      var st1 := st.(tables := st.tables + [map[]]);
      LocalRuns(w, t, d, Items([]), [Local(u, d', Var(t))] + last, env, st, n);
      var slot := NewSlot(d, st1);
      var env2, st2 := env[t := slot], Declare(slot, Table(|st.tables|), st1);
      LocalRuns(w, u, d', Var(t), last, env2, st2, n);
      EvalVar(w, t, env2, st2, n);
      var slot' := NewSlot(d', st2);
      var env3, st3 := env2[u := slot'], Declare(slot', Table(|st.tables|), st2);
      PutAndGet(w, t, u, k, k', v, env3, st3, n);
      ReturnRuns(w, Lit(if k == k' then v else LNil), env, st, n);
      EvalLit(w, if k == k' then v else LNil, env, st, n);
      SamePrinted(st, st1);
      DeclareTraces(slot, Table(|st.tables|), st1);
      DeclareTraces(slot', Table(|st.tables|), st2);
    }
  }

  lemma EmptyTable(w: World, env: Env, st: State, n: nat)
    ensures EvalExpr(w, Items([]), env, st, n) == Val(Table(|st.tables|), st.(tables := st.tables + [map[]]))
  {
    assert EvalList(w, [], env, st, n) == Vals([], st);
  }

  lemma PutAndGet(w: World, t: Name, u: Name, k: Literal, k': Literal, v: Literal, env: Env, st: State, n: nat)
    requires var tv := Get(t, env, st);
      tv.Table? && Get(u, env, st) == tv && tv.id < |st.tables| && st.tables[tv.id] == map[]
    ensures var q := ExecBlock(w, [SetIndex(Var(u), Lit(k), Lit(v)), Return(Index(Var(t), Lit(k')))], env, st, n);
      q.Returned? && q.v == (if k == k' then OfLiteral(v) else Nil) && Printed(q.st) == Printed(st)
  {
    hide ExecBlock;
    var put, found := SetIndex(Var(u), Lit(k), Lit(v)), Index(Var(t), Lit(k'));
    var id := Get(t, env, st).id;
    ExecTwo(w, put, Return(found), env, st, n);
    EvalVar(w, u, env, st, n);
    EvalLit(w, k, env, st, n);
    EvalLit(w, v, env, st, n);
    var st1 := st.(tables := st.tables[id := st.tables[id][OfLiteral(k) := OfLiteral(v)]]);
    assert ExecStmt(w, put, env, st, n) == Next(env, st1);
    ReturnRuns(w, found, env, st1, n);
    ExecOne(w, Return(found), env, st1, n);
    EvalVar(w, t, env, st1, n);
    EvalLit(w, k', env, st1, n);
    EvalIndex(w, Var(t), Lit(k'), env, st1, n);
  }

  /** `and` and `or` give one of their operands. */
  lemma OperandsAreGiven(w: World, l: Literal, e: Expr)
    ensures var holds := l != LNil && l != LBool(false);
      && SeenSame(w, [Return(And(Lit(l), e))], [Return(if holds then e else Lit(l))], 0)
      && SeenSame(w, [Return(Or(Lit(l), e))], [Return(if holds then Lit(l) else e)], 0)
  {
    hide ExecBlock, Printed;
    var holds := l != LNil && l != LBool(false);
    var x, x', y, y' := [Return(And(Lit(l), e))], [Return(if holds then e else Lit(l))],
                        [Return(Or(Lit(l), e))], [Return(if holds then Lit(l) else e)];
    forall env: Env, st: State, n: nat
      ensures SeenSameAt(w, x, x', 0, env, st, n) && SeenSameAt(w, y, y', 0, env, st, n)
    {
      ReturnRuns(w, And(Lit(l), e), env, st, n);
      ReturnRuns(w, Or(Lit(l), e), env, st, n);
      ReturnRuns(w, Lit(l), env, st, n);
      ReturnRuns(w, e, env, st, n);
      EvalAnd(w, Lit(l), e, env, st, n);
      EvalOr(w, Lit(l), e, env, st, n);
      EvalLit(w, l, env, st, n);
    }
  }

  // ----- calls -----

  predicate Used(slot: Slot, st: State)
  {
    slot.decl in st.counts && slot.n < st.counts[slot.decl]
  }

  predicate Names(ps: seq<Param>, x: Name)
  {
    exists i :: 0 <= i < |ps| && ps[i].x == x
  }

  predicate Different(ps: seq<Param>)
  {
    forall i, j :: 0 <= i < j < |ps| ==> ps[i].x != ps[j].x
  }

  /** Binding parameters leaves other locals alone. */
  lemma {:induction false} BindKeeps(x: Name, ps: seq<Param>, vs: seq<Value>, env: Env, st: State)
    requires x in env && env[x] in st.cells && Used(env[x], st) && !Names(ps, x)
    ensures var (env1, st1) := BindParams(ps, vs, env, st);
      Get(x, env1, st1) == Get(x, env, st) && st1.trace == st.trace
    decreases |ps|
  {
    if ps != [] {
      var slot := NewSlot(ps[0].decl, st);
      assert ps[0].x != x;
      assert !Names(ps[1..], x) by {
        forall i | 0 <= i < |ps[1..]| ensures ps[1..][i].x != x {
          assert ps[i + 1].x != x;
        }
      }
      BindKeeps(x, ps[1..], if vs == [] then [] else vs[1..], env[ps[0].x := slot],
                Declare(slot, if vs == [] then Nil else vs[0], st));
    }
  }

  /** Parameter `i` holds argument `i`, or `nil` if there is none. */
  lemma {:induction false} BindHolds(ps: seq<Param>, vs: seq<Value>, env: Env, st: State, i: nat)
    requires i < |ps| && Different(ps)
    ensures var (env1, st1) := BindParams(ps, vs, env, st);
      Get(ps[i].x, env1, st1) == (if i < |vs| then vs[i] else Nil) && st1.trace == st.trace
    decreases |ps|
  {
    var slot := NewSlot(ps[0].decl, st);
    var rest := if vs == [] then [] else vs[1..];
    var env', st' := env[ps[0].x := slot], Declare(slot, if vs == [] then Nil else vs[0], st);
    if i > 0 {
      BindHolds(ps[1..], rest, env', st', i - 1);
    } else {
      assert !Names(ps[1..], ps[0].x);
      BindKeeps(ps[0].x, ps[1..], rest, env', st');
    }
  }

  /** A function that returns one of its parameters gives what it was called with. */
  lemma CallBinds(w: World, id: nat, ps: seq<Param>, ls: seq<Literal>, i: nat)
    requires i < |ps| && Different(ps)
    ensures SeenSame(w, [Return(Call(Func(Function(id, ps, [Return(Var(ps[i].x))])), Lits(ls)))],
                     [Return(Lit(Nth(ls, i)))], 1)
  {
    hide ExecBlock, Printed, EvalExpr, EvalList, BindParams, Capture;
    var f := Function(id, ps, [Return(Var(ps[i].x))]);
    var call := Call(Func(f), Lits(ls));
    var x, y := [Return(call)], [Return(Lit(Nth(ls, i)))];
    forall env: Env, st: State, n: nat ensures SeenSameAt(w, x, y, 1, env, st, n) {
      ReturnRuns(w, call, env, st, n + 1);
      ReturnRuns(w, Lit(Nth(ls, i)), env, st, n);
      EvalLit(w, Nth(ls, i), env, st, n);
      EvalFunc(w, f, env, st, n + 1);
      LitsEval(w, ls, env, st, n + 1);
      EvalCall(w, Func(f), Lits(ls), env, st, n + 1);
      var inside := Capture(env, f);
      var (env1, st1) := BindParams(ps, Values(ls), inside, st);
      BindHolds(ps, Values(ls), inside, st, i);
      ReturnRuns(w, Var(ps[i].x), env1, st1, n);
      EvalVar(w, ps[i].x, env1, st1, n);
      SamePrinted(st, st1);
    }
  }

  lemma EvalFunc(w: World, f: Function, env: Env, st: State, n: nat)
    ensures EvalExpr(w, Func(f), env, st, n) == Val(Closure(f, Capture(env, f)), st)
  {
  }

  lemma EvalCall(w: World, fn: Expr, args: seq<Expr>, env: Env, st: State, n: nat)
    requires EvalExpr(w, fn, env, st, n).Val?
    requires var r := EvalExpr(w, fn, env, st, n); EvalList(w, args, env, r.st, n).Vals?
    ensures var r := EvalExpr(w, fn, env, st, n);
      var q := EvalList(w, args, env, r.st, n);
      EvalExpr(w, Call(fn, args), env, st, n) == CallValue(w, Call(fn, args), r.v, q.vs, q.st, n)
  {
    hide CallValue;
  }

  /** A function that assigns to a local around it is seen to have done so. */
  lemma FunctionsShareLocals(w: World, x: Name, f: Name, d: nat, d': nat, id: nat, l: Literal, l': Literal)
    requires x != f
    ensures SeenSame(w, [Local(x, d, Lit(l)), Local(f, d', Func(Function(id, [], [Assign(x, Lit(l'))]))),
                         Eval(Call(Var(f), [])), Return(Var(x))],
                     [Return(Lit(l'))], 1)
  {
    hide ExecBlock, Printed, Capture;
    var g := Function(id, [], [Assign(x, Lit(l'))]);
    var last := [Eval(Call(Var(f), [])), Return(Var(x))];
    var inner := [Local(f, d', Func(g))] + last;
    var x1, y1 := [Local(x, d, Lit(l))] + inner, [Return(Lit(l'))];
    assert x1 == [Local(x, d, Lit(l)), Local(f, d', Func(g)), last[0], last[1]];
    forall env: Env, st: State, n: nat ensures SeenSameAt(w, x1, y1, 1, env, st, n) {
      LocalRuns(w, x, d, Lit(l), inner, env, st, n + 1);
      EvalLit(w, l, env, st, n + 1);
      var slot := NewSlot(d, st);
      var env1, st1 := env[x := slot], Declare(slot, OfLiteral(l), st);
      LocalRuns(w, f, d', Func(g), last, env1, st1, n + 1);
      EvalFunc(w, g, env1, st1, n + 1);
      var slot' := NewSlot(d', st1);
      var fv := Closure(g, Capture(env1, g));
      var env2, st2 := env1[f := slot'], Declare(slot', fv, st1);
      CaptureNamed(env1, x, g);
      CallAssigns(w, x, f, g, l', env2, st2, n);
      ReturnRuns(w, Lit(l'), env, st, n);
      EvalLit(w, l', env, st, n);
      DeclareTraces(slot, OfLiteral(l), st);
      DeclareTraces(slot', fv, st1);
    }
  }

  lemma CaptureNamed(env: Env, x: Name, g: Function)
    requires x in env && |g.body| == 1 && g.body[0].Assign? && g.body[0].x == x
    ensures x in Capture(env, g) && Capture(env, g)[x] == env[x]
  {
    assert InStmt(x, g.body[0]) && InBlock(x, g.body) && InFunction(x, g);
  }

  lemma CallAssigns(w: World, x: Name, f: Name, g: Function, l: Literal, env: Env, st: State, n: nat)
    requires g.params == [] && g.body == [Assign(x, Lit(l))] && x in env
    requires var fv := Get(f, env, st); fv.Closure? && fv.f == g && x in fv.env && fv.env[x] == env[x]
    ensures var q := ExecBlock(w, [Eval(Call(Var(f), [])), Return(Var(x))], env, st, n + 1);
      q.Returned? && q.v == OfLiteral(l) && Printed(q.st) == Printed(st)
  {
    hide Printed;
    var call := Call(Var(f), []);
    var inside := Get(f, env, st).env;
    ExecTwo(w, Eval(call), Return(Var(x)), env, st, n + 1);
    EvalVar(w, f, env, st, n + 1);
    assert EvalList(w, [], env, st, n + 1) == Vals([], st);
    EvalCall(w, Var(f), [], env, st, n + 1);
    ExecOne(w, g.body[0], inside, st, n);
    EvalLit(w, l, inside, st, n);
    hide ExecBlock;
    var st1 := Set(x, OfLiteral(l), inside, st);
    assert BindParams([], [], inside, st) == (inside, st);
    assert ExecBlock(w, g.body, inside, st, n) == Next(inside, st1);
    assert EvalExpr(w, call, env, st, n + 1) == Val(Nil, st1);
    ReturnRuns(w, Var(x), env, st1, n + 1);
    ExecOne(w, Return(Var(x)), env, st1, n + 1);
    EvalVar(w, x, env, st1, n + 1);
    SamePrinted(st, st1);
  }

  // ----- errors, and what is printed -----

  /** Calling what is no function is an error, and so is an operation that fails:
      nothing behind it runs, and what was printed before is still seen. */
  lemma ErrorsStop(w: World, e: Expr, l: Literal, name: string, ls: seq<Literal>, a: seq<Stmt>, rest: seq<Stmt>,
                   globals: map<Name, Value>, fuel: nat)
    requires e == Call(Lit(l), []) || (e == Op(name, Lits(ls)) && w.lib(name, Values(ls)) == Fail)
    requires ExecBlock(w, a, map[], Start(globals), fuel).Next?
    ensures Observe(w, a, true, globals, fuel).seen.Ok?
    ensures Observe(w, a + [Eval(e)] + rest, true, globals, fuel)
         == Some(Error(Observe(w, a, true, globals, fuel).seen.printed))
  {
    hide ExecBlock, Printed;
    var st := Start(globals);
    ExecConcat(w, a + [Eval(e)], rest, map[], st, fuel);
    ExecConcat(w, a, [Eval(e)], map[], st, fuel);
    var r := ExecBlock(w, a, map[], st, fuel);
    ExecOne(w, Eval(e), r.env, r.st, fuel);
    RaisesError(w, e, l, name, ls, r.env, r.st, fuel);
  }

  lemma RaisesError(w: World, e: Expr, l: Literal, name: string, ls: seq<Literal>, env: Env, st: State, n: nat)
    requires e == Call(Lit(l), []) || (e == Op(name, Lits(ls)) && w.lib(name, Values(ls)) == Fail)
    ensures EvalExpr(w, e, env, st, n) == Raise(st)
  {
    LitsEval(w, ls, env, st, n);
    if e.Call? {
      EvalLit(w, l, env, st, n);
      assert EvalList(w, [], env, st, n) == Vals([], st);
      EvalCall(w, Lit(l), [], env, st, n);
    }
  }

  function Shown(ls: seq<Literal>): seq<Repr>
  {
    ReprAll(Values(ls))
  }

  /** One call of `print` adds one entry, with the arguments in their order. */
  lemma PrintAddsEntry(w: World, p: Name, ls: seq<Literal>, a: seq<Stmt>, globals: map<Name, Value>, fuel: nat)
    requires ExecBlock(w, a, map[], Start(globals), fuel).Next?
    requires var r := ExecBlock(w, a, map[], Start(globals), fuel); Get(p, r.env, r.st) == Print
    ensures Observe(w, a, true, globals, fuel).seen.Ok?
    ensures Observe(w, a + [Eval(Call(Var(p), Lits(ls)))], true, globals, fuel)
         == Some(Ok(RNil, Observe(w, a, true, globals, fuel).seen.printed + [Shown(ls)]))
  {
    hide ExecBlock;
    var st, call := Start(globals), Call(Var(p), Lits(ls));
    ExecConcat(w, a, [Eval(call)], map[], st, fuel);
    var r := ExecBlock(w, a, map[], st, fuel);
    ExecOne(w, Eval(call), r.env, r.st, fuel);
    EvalVar(w, p, r.env, r.st, fuel);
    LitsEval(w, ls, r.env, r.st, fuel);
    EvalCall(w, Var(p), Lits(ls), r.env, r.st, fuel);
    var st1 := r.st.(trace := r.st.trace + [Values(ls)]);
    assert EvalExpr(w, call, r.env, r.st, fuel) == Val(Nil, st1);
    assert Printed(st1) == Printed(r.st) + [Shown(ls)];
  }

  lemma PrintEvals(w: World, p: Name, ls: seq<Literal>, env: Env, st: State, n: nat)
    requires Get(p, env, st) == Print
    ensures EvalExpr(w, Call(Var(p), Lits(ls)), env, st, n) == Val(Nil, st.(trace := st.trace + [Values(ls)]))
  {
    EvalVar(w, p, env, st, n);
    LitsEval(w, ls, env, st, n);
    EvalCall(w, Var(p), Lits(ls), env, st, n);
  }

  /** Items are evaluated from left to right. */
  lemma LeftToRight(w: World, p: Name, ls: seq<Literal>, ls': seq<Literal>, a: seq<Stmt>, globals: map<Name, Value>,
                    fuel: nat)
    requires ExecBlock(w, a, map[], Start(globals), fuel).Next?
    requires var r := ExecBlock(w, a, map[], Start(globals), fuel); Get(p, r.env, r.st) == Print
    ensures Observe(w, a, true, globals, fuel).seen.Ok?
    ensures Observe(w, a + [Eval(Items([Call(Var(p), Lits(ls)), Call(Var(p), Lits(ls'))]))], true, globals, fuel)
         == Some(Ok(RNil, Observe(w, a, true, globals, fuel).seen.printed + [Shown(ls), Shown(ls')]))
  {
    hide ExecBlock, EvalExpr;
    var st, x, y := Start(globals), Call(Var(p), Lits(ls)), Call(Var(p), Lits(ls'));
    ExecConcat(w, a, [Eval(Items([x, y]))], map[], st, fuel);
    var r := ExecBlock(w, a, map[], st, fuel);
    var st1 := r.st.(trace := r.st.trace + [Values(ls)]);
    var st2 := st1.(trace := st1.trace + [Values(ls')]);
    ExecOne(w, Eval(Items([x, y])), r.env, r.st, fuel);
    PrintEvals(w, p, ls, r.env, r.st, fuel);
    PrintEvals(w, p, ls', r.env, st1, fuel);
    TwoItems(w, x, y, r.env, r.st, st1, st2, fuel);
    assert Printed(st2) == Printed(r.st) + [Shown(ls), Shown(ls')];
  }

  lemma TwoItems(w: World, x: Expr, y: Expr, env: Env, st: State, st1: State, st2: State, n: nat)
    requires EvalExpr(w, x, env, st, n) == Val(Nil, st1) && EvalExpr(w, y, env, st1, n) == Val(Nil, st2)
    ensures EvalExpr(w, Items([x, y]), env, st, n)
         == Val(Table(|st2.tables|), st2.(tables := st2.tables + [NewTable([Nil, Nil])]))
  {
    hide EvalExpr, EvalList, NewTable;
    TwoValues(w, x, y, env, st, st1, st2, n);
    EvalItems(w, Items([x, y]), env, st, n);
  }

  lemma EvalItems(w: World, e: Expr, env: Env, st: State, n: nat)
    requires e.Items? && EvalList(w, e.items, env, st, n).Vals?
    ensures var q := EvalList(w, e.items, env, st, n);
      EvalExpr(w, e, env, st, n) == Val(Table(|q.st.tables|), q.st.(tables := q.st.tables + [NewTable(q.vs)]))
  {
    hide EvalList, NewTable;
  }

  lemma TwoValues(w: World, x: Expr, y: Expr, env: Env, st: State, st1: State, st2: State, n: nat)
    requires EvalExpr(w, x, env, st, n) == Val(Nil, st1) && EvalExpr(w, y, env, st1, n) == Val(Nil, st2)
    ensures EvalList(w, [x, y], env, st, n) == Vals([Nil, Nil], st2)
  {
    hide EvalExpr;
    assert [x, y][1..] == [y] && [y][1..] == [];
    assert EvalList(w, [], env, st2, n) == Vals([], st2);
    assert EvalList(w, [y], env, st1, n) == Vals([Nil], st2);
  }
}
