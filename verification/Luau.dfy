/** A small operational semantics of Luau: enough to say what a program is
  observed to do.  Locals live in cells that closures share, tables are shared
  mutable objects, and calls and loop rounds use up fuel, which stands for the
  step limit of an observed run.

  Arithmetic, string operations and library functions are a parameter: any
  partial function that makes plain data or hands back one of its arguments.
 */
module Luau {

  /** A cell is named by the declaration that makes it, and by how many times
      that declaration was executed before. */
  datatype Slot = Slot(decl: nat, n: nat)

  /** `V(i)` is the variable that a generator calls `v` followed by `i`. */
  datatype Name = V(i: nat) | Ident(s: string)

  type Env = map<Name, Slot>

  /** `Data` stands for numbers and strings, `Print` for the observed `print`. */
  datatype Value =
    | Nil
    | Bool(b: bool)
    | Data(d: int)
    | Print
    | Library(name: string)
    | Table(id: nat)
    | Closure(f: Function, env: Env)

  datatype Literal = LNil | LBool(b: bool) | LData(d: int)

  datatype Expr =
    | Lit(l: Literal)
    | Var(x: Name)
    | Func(f: Function)
    | Items(items: seq<Expr>)
    | Index(t: Expr, k: Expr)
    | Op(name: string, args: seq<Expr>)
    | And(a: Expr, b: Expr)
    | Or(a: Expr, b: Expr)
    | Call(fn: Expr, args: seq<Expr>)

  datatype Stmt =
    | Local(x: Name, decl: nat, e: Expr)
    | Assign(x: Name, e: Expr)
    | SetIndex(t: Expr, k: Expr, e: Expr)
    | Eval(e: Expr)
    | Do(body: seq<Stmt>)
    | If(c: Expr, yes: seq<Stmt>, no: seq<Stmt>)
    | While(c: Expr, body: seq<Stmt>)
    | For(x: Name, decl: nat, lo: Expr, hi: Expr, body: seq<Stmt>)
    | Return(e: Expr)
    | Break
    | Continue
    | Empty

  datatype Param = Param(x: Name, decl: nat)

  /** A function as it is written; `id` says where. */
  datatype Function = Function(id: nat, params: seq<Param>, body: seq<Stmt>)

  datatype Given = Give(l: Literal) | Argument(i: nat) | Fail

  /** What operators and libraries do. */
  datatype World = World(lib: (string, seq<Value>) -> Given)

  datatype State = State(
    cells: map<Slot, Value>,
    counts: map<nat, nat>,
    tables: seq<map<Value, Value>>,
    globals: map<Name, Value>,
    trace: seq<seq<Value>>)

  datatype ExprResult = Val(v: Value, st: State) | Raise(st: State) | Exhausted
  datatype ListResult = Vals(vs: seq<Value>, st: State) | RaiseL(st: State) | ExhaustedL
  datatype Flow = Next(env: Env, st: State) | Broke(st: State) | Continued(st: State)
                | Returned(v: Value, st: State) | Raised(st: State) | OutOfFuel

  function OfLiteral(l: Literal): Value
  {
    match l case LNil => Nil case LBool(b) => Bool(b) case LData(d) => Data(d)
  }

  predicate Truthy(v: Value)
  {
    v != Nil && v != Bool(false)
  }

  /** Open a new cell for the declaration `decl`. */
  function NewSlot(decl: nat, st: State): Slot
  {
    Slot(decl, if decl in st.counts then st.counts[decl] else 0)
  }

  function Declare(slot: Slot, v: Value, st: State): State
  {
    st.(cells := st.cells[slot := v], counts := st.counts[slot.decl := slot.n + 1])
  }

  function Get(x: Name, env: Env, st: State): Value
  {
    if x in env then (if env[x] in st.cells then st.cells[env[x]] else Nil)
    else if x in st.globals then st.globals[x] else Nil
  }

  function Set(x: Name, v: Value, env: Env, st: State): State
  {
    if x in env then st.(cells := st.cells[env[x] := v]) else st.(globals := st.globals[x := v])
  }

  /** A table of items, numbered from 1. */
  function NewTable(vs: seq<Value>): map<Value, Value>
  {
    if vs == [] then map[] else NewTable(vs[..|vs| - 1])[Data(|vs|) := vs[|vs| - 1]]
  }

  /** Names that occur in code, also in the functions nested in it. */
  predicate InExpr(x: Name, e: Expr)
  {
    match e
    case Lit(_) => false
    case Var(y) => x == y
    case Func(f) => InFunction(x, f)
    case Items(items) => InExprs(x, items)
    case Index(t, k) => InExpr(x, t) || InExpr(x, k)
    case Op(_, args) => InExprs(x, args)
    case And(a, b) => InExpr(x, a) || InExpr(x, b)
    case Or(a, b) => InExpr(x, a) || InExpr(x, b)
    case Call(fn, args) => InExpr(x, fn) || InExprs(x, args)
  }

  predicate InExprs(x: Name, es: seq<Expr>)
  {
    exists i :: 0 <= i < |es| && InExpr(x, es[i])
  }

  predicate InStmt(x: Name, s: Stmt)
  {
    match s
    case Local(y, _, e) => x == y || InExpr(x, e)
    case Assign(y, e) => x == y || InExpr(x, e)
    case SetIndex(t, k, e) => InExpr(x, t) || InExpr(x, k) || InExpr(x, e)
    case Eval(e) => InExpr(x, e)
    case Do(body) => InBlock(x, body)
    case If(c, yes, no) => InExpr(x, c) || InBlock(x, yes) || InBlock(x, no)
    case While(c, body) => InExpr(x, c) || InBlock(x, body)
    case For(y, _, lo, hi, body) => x == y || InExpr(x, lo) || InExpr(x, hi) || InBlock(x, body)
    case Return(e) => InExpr(x, e)
    case Break => false
    case Continue => false
    case Empty => false
  }

  predicate InBlock(x: Name, b: seq<Stmt>)
  {
    exists i :: 0 <= i < |b| && InStmt(x, b[i])
  }

  predicate InFunction(x: Name, f: Function)
  {
    InBlock(x, f.body) || exists i :: 0 <= i < |f.params| && f.params[i].x == x
  }

  /** A closure keeps the cells of the names that occur in it. */
  function Capture(env: Env, f: Function): Env
  {
    map x | x in env && InFunction(x, f) :: env[x]
  }

  function BindParams(ps: seq<Param>, vs: seq<Value>, env: Env, st: State): (Env, State)
    decreases |ps|
  {
    if ps == [] then (env, st)
    else
      var slot := NewSlot(ps[0].decl, st);
      BindParams(ps[1..], if vs == [] then [] else vs[1..], env[ps[0].x := slot],
                 Declare(slot, if vs == [] then Nil else vs[0], st))
  }

  function EvalExpr(w: World, e: Expr, env: Env, st: State, fuel: nat): ExprResult
    decreases fuel, e, 1
  {
    match e
    case Lit(l) => Val(OfLiteral(l), st)
    case Var(x) => Val(Get(x, env, st), st)
    case Func(f) => Val(Closure(f, Capture(env, f)), st)
    case Items(items) =>
      (match EvalList(w, items, env, st, fuel)
       case Vals(vs, st1) => Val(Table(|st1.tables|), st1.(tables := st1.tables + [NewTable(vs)]))
       case RaiseL(st1) => Raise(st1)
       case ExhaustedL => Exhausted)
    case Index(t, k) =>
      (match EvalExpr(w, t, env, st, fuel)
       case Val(tv, st1) =>
         (match EvalExpr(w, k, env, st1, fuel)
          case Val(kv, st2) =>
            if tv.Table? && tv.id < |st2.tables| then
              Val(if kv in st2.tables[tv.id] then st2.tables[tv.id][kv] else Nil, st2)
            else Raise(st2)
          case other => other)
       case other => other)
    case Op(name, args) =>
      (match EvalList(w, args, env, st, fuel)
       case Vals(vs, st1) => CallLibrary(w, name, vs, st1)
       case RaiseL(st1) => Raise(st1)
       case ExhaustedL => Exhausted)
    case And(a, b) =>
      (match EvalExpr(w, a, env, st, fuel)
       case Val(v, st1) => if Truthy(v) then EvalExpr(w, b, env, st1, fuel) else Val(v, st1)
       case other => other)
    case Or(a, b) =>
      (match EvalExpr(w, a, env, st, fuel)
       case Val(v, st1) => if Truthy(v) then Val(v, st1) else EvalExpr(w, b, env, st1, fuel)
       case other => other)
    case Call(fn, args) =>
      (match EvalExpr(w, fn, env, st, fuel)
       case Val(fv, st1) =>
         (match EvalList(w, args, env, st1, fuel)
          case Vals(vs, st2) => CallValue(w, e, fv, vs, st2, fuel)
          case RaiseL(st2) => Raise(st2)
          case ExhaustedL => Exhausted)
       case other => other)
  }

  function EvalList(w: World, es: seq<Expr>, env: Env, st: State, fuel: nat): ListResult
    decreases fuel, es, 0
  {
    if es == [] then Vals([], st)
    else match EvalExpr(w, es[0], env, st, fuel)
      case Val(v, st1) =>
        (match EvalList(w, es[1..], env, st1, fuel)
         case Vals(vs, st2) => Vals([v] + vs, st2)
         case other => other)
      case Raise(st1) => RaiseL(st1)
      case Exhausted => ExhaustedL
  }

  function CallLibrary(w: World, name: string, vs: seq<Value>, st: State): ExprResult
  {
    match w.lib(name, vs)
    case Give(l) => Val(OfLiteral(l), st)
    case Argument(i) => Val(if i < |vs| then vs[i] else Nil, st)
    case Fail => Raise(st)
  }

  /** The call at `site`, with its function and arguments evaluated. */
  function CallValue(w: World, ghost site: Expr, fv: Value, vs: seq<Value>, st: State, fuel: nat): ExprResult
    decreases fuel, site, 0
  {
    match fv
    case Print => Val(Nil, st.(trace := st.trace + [vs]))
    case Library(name) => CallLibrary(w, name, vs, st)
    case Closure(f, env) =>
      if fuel == 0 then Exhausted
      else
        var (env1, st1) := BindParams(f.params, vs, env, st);
        (match ExecBlock(w, f.body, env1, st1, fuel - 1)
         case Next(_, st2) => Val(Nil, st2)
         case Returned(v, st2) => Val(v, st2)
         case Raised(st2) => Raise(st2)
         case Broke(st2) => Raise(st2)
         case Continued(st2) => Raise(st2)
         case OutOfFuel => Exhausted)
    case _ => Raise(st)
  }

  /** Leaving a block forgets its locals. */
  function Leave(env: Env, r: Flow): Flow
  {
    if r.Next? then Next(env, r.st) else r
  }

  function Stopped(r: ExprResult): Flow
    requires !r.Val?
  {
    if r.Raise? then Raised(r.st) else OutOfFuel
  }

  function ExecStmt(w: World, s: Stmt, env: Env, st: State, fuel: nat): Flow
    decreases fuel, s, 1
  {
    match s
    case Local(x, decl, e) =>
      (match EvalExpr(w, e, env, st, fuel)
       case Val(v, st1) => var slot := NewSlot(decl, st1); Next(env[x := slot], Declare(slot, v, st1))
       case other => Stopped(other))
    case Assign(x, e) =>
      (match EvalExpr(w, e, env, st, fuel)
       case Val(v, st1) => Next(env, Set(x, v, env, st1))
       case other => Stopped(other))
    case SetIndex(t, k, e) =>
      (match EvalExpr(w, t, env, st, fuel)
       case Val(tv, st1) =>
         (match EvalExpr(w, k, env, st1, fuel)
          case Val(kv, st2) =>
            (match EvalExpr(w, e, env, st2, fuel)
             case Val(v, st3) =>
               if tv.Table? && tv.id < |st3.tables| then
                 Next(env, st3.(tables := st3.tables[tv.id := st3.tables[tv.id][kv := v]]))
               else Raised(st3)
             case other => Stopped(other))
          case other => Stopped(other))
       case other => Stopped(other))
    case Eval(e) =>
      (match EvalExpr(w, e, env, st, fuel)
       case Val(_, st1) => Next(env, st1)
       case other => Stopped(other))
    case Do(body) => Leave(env, ExecBlock(w, body, env, st, fuel))
    case If(c, yes, no) =>
      (match EvalExpr(w, c, env, st, fuel)
       case Val(v, st1) =>
         if Truthy(v) then Leave(env, ExecBlock(w, yes, env, st1, fuel))
         else Leave(env, ExecBlock(w, no, env, st1, fuel))
       case other => Stopped(other))
    case While(_, _) => ExecWhile(w, s, env, st, fuel)
    case For(x, decl, lo, hi, body) =>
      (match EvalExpr(w, lo, env, st, fuel)
       case Val(from, st1) =>
         (match EvalExpr(w, hi, env, st1, fuel)
          case Val(to, st2) => ExecFor(w, s, from, to, env, st2, fuel)
          case other => Stopped(other))
       case other => Stopped(other))
    case Return(e) =>
      (match EvalExpr(w, e, env, st, fuel)
       case Val(v, st1) => Returned(v, st1)
       case other => Stopped(other))
    case Break => Broke(st)
    case Continue => Continued(st)
    case Empty => Next(env, st)
  }

  function ExecBlock(w: World, b: seq<Stmt>, env: Env, st: State, fuel: nat): Flow
    decreases fuel, b, 0
  {
    if b == [] then Next(env, st)
    else match ExecStmt(w, b[0], env, st, fuel)
      case Next(env1, st1) => ExecBlock(w, b[1..], env1, st1, fuel)
      case other => other
  }

  function ExecWhile(w: World, s: Stmt, env: Env, st: State, fuel: nat): Flow
    requires s.While?
    decreases fuel, s, 0
  {
    match EvalExpr(w, s.c, env, st, fuel)
    case Val(v, st1) =>
      if !Truthy(v) then Next(env, st1)
      else if fuel == 0 then OutOfFuel
      else
        (match ExecBlock(w, s.body, env, st1, fuel - 1)
         case Next(_, st2) => ExecWhile(w, s, env, st2, fuel - 1)
         case Continued(st2) => ExecWhile(w, s, env, st2, fuel - 1)
         case Broke(st2) => Next(env, st2)
         case other => other)
    case other => Stopped(other)
  }

  /** Rounds of a numeric loop that has come to `at`; every round has its own
      loop variable. */
  function ExecFor(w: World, s: Stmt, at: Value, to: Value, env: Env, st: State, fuel: nat): Flow
    requires s.For?
    decreases fuel, s, 0
  {
    match CallLibrary(w, "<=", [at, to], st)
    case Val(v, st1) =>
      if !Truthy(v) then Next(env, st1)
      else if fuel == 0 then OutOfFuel
      else
        var slot := NewSlot(s.decl, st1);
        (match ExecBlock(w, s.body, env[s.x := slot], Declare(slot, at, st1), fuel - 1)
         case Next(_, st2) => NextRound(w, s, at, to, env, st2, fuel)
         case Continued(st2) => NextRound(w, s, at, to, env, st2, fuel)
         case Broke(st2) => Next(env, st2)
         case other => other)
    case other => Stopped(other)
  }

  function NextRound(w: World, s: Stmt, at: Value, to: Value, env: Env, st: State, fuel: nat): Flow
    requires s.For? && fuel > 0
    decreases fuel - 1, s, 1
  {
    match CallLibrary(w, "step", [at], st)
    case Val(v, st1) => ExecFor(w, s, v, to, env, st1, fuel - 1)
    case other => Stopped(other)
  }

  // ----- what is observed -----

  /** Tables and functions are observed as what they are, not which. */
  datatype Repr = RNil | RBool(b: bool) | RData(d: int) | RTable | RFunction

  function ReprOf(v: Value): Repr
  {
    match v
    case Nil => RNil
    case Bool(b) => RBool(b)
    case Data(d) => RData(d)
    case Table(_) => RTable
    case _ => RFunction
  }

  function ReprAll(vs: seq<Value>): seq<Repr>
  {
    seq(|vs|, i requires 0 <= i < |vs| => ReprOf(vs[i]))
  }

  datatype Seen = Ok(value: Repr, printed: seq<seq<Repr>>) | Error(printed: seq<seq<Repr>>)

  datatype Observation = Some(seen: Seen) | Inconclusive

  function Printed(st: State): seq<seq<Repr>>
  {
    seq(|st.trace|, i requires 0 <= i < |st.trace| => ReprAll(st.trace[i]))
  }

  function Observed(r: Flow): Observation
  {
    match r
    case Next(_, st) => Some(Ok(RNil, Printed(st)))
    case Returned(v, st) => Some(Ok(ReprOf(v), Printed(st)))
    case Raised(st) => Some(Error(Printed(st)))
    case Broke(st) => Some(Error(Printed(st)))
    case Continued(st) => Some(Error(Printed(st)))
    case OutOfFuel => Inconclusive
  }

  /** Run a program that compiles, starting from the given globals. */
  function Observe(w: World, main: seq<Stmt>, compiles: bool, globals: map<Name, Value>, fuel: nat): Observation
  {
    if !compiles then Inconclusive
    else Observed(ExecBlock(w, main, map[], State(map[], map[], [], globals, []), fuel))
  }

  // ----- nested functions -----

  function Maker(x: Name): Function
  {
    Function(0, [], [Return(Func(Function(1, [], [Return(Var(x))])))])
  }

  lemma RunsReturn(w: World, e: Expr, env: Env, st: State, fuel: nat)
    requires EvalExpr(w, e, env, st, fuel).Val?
    ensures var r := EvalExpr(w, e, env, st, fuel); ExecBlock(w, [Return(e)], env, st, fuel) == Returned(r.v, r.st)
  {
    assert ExecStmt(w, Return(e), env, st, fuel).Returned?;
  }

  /** Calling a function without parameters whose body is one `return`. */
  lemma RunsCall(w: World, fn: Expr, f: Function, e: Expr, inside: Env, env: Env, st: State, fuel: nat)
    requires fuel > 0 && f.params == [] && f.body == [Return(e)]
    requires EvalExpr(w, fn, env, st, fuel) == Val(Closure(f, inside), st)
    requires EvalExpr(w, e, inside, st, fuel - 1).Val?
    ensures EvalExpr(w, Call(fn, []), env, st, fuel) == EvalExpr(w, e, inside, st, fuel - 1)
  {
    RunsReturn(w, e, inside, st, fuel - 1);
    hide ExecBlock;
    assert EvalList(w, [], env, st, fuel) == Vals([], st);
    assert BindParams([], [], inside, st) == (inside, st);
  }

  lemma InnerIsNamed(x: Name)
    ensures InFunction(x, Function(1, [], [Return(Var(x))])) && InFunction(x, Maker(x))
  {
    var inner := Function(1, [], [Return(Var(x))]);
    assert InExpr(x, Var(x)) && InStmt(x, inner.body[0]) && InFunction(x, inner);
    assert InExpr(x, Func(inner)) && InStmt(x, Maker(x).body[0]);
  }

  /** A function made inside a function sees the locals around both: a local `x`
      that holds `d` is what `(function() return function() return x end end)()()`
      gives. */
  lemma InnerFunctionsSee(w: World, x: Name, d: int, globals: map<Name, Value>)
    ensures Observe(w, [Local(x, 0, Lit(LData(d))), Return(Call(Call(Func(Maker(x)), []), []))], true, globals, 2)
         == Some(Ok(RData(d), []))
  {
    var inner := Function(1, [], [Return(Var(x))]);
    var st0 := State(map[], map[], [], globals, []);
    var slot := NewSlot(0, st0);
    var st, env := Declare(slot, Data(d), st0), map[x := slot];
    InnerIsNamed(x);
    assert Capture(env, Maker(x)) == env && Capture(env, inner) == env;
    RunsCall(w, Func(Maker(x)), Maker(x), Func(inner), env, env, st, 2);
    RunsCall(w, Call(Func(Maker(x)), []), inner, Var(x), env, env, st, 2);
    var last := Call(Call(Func(Maker(x)), []), []);
    RunsReturn(w, last, env, st, 2);
    assert EvalExpr(w, last, env, st, 2) == Val(Data(d), st);
    hide EvalExpr, ExecBlock;
    RunsLocal(w, x, d, st0, [Return(last)]);
    assert [Local(x, 0, Lit(LData(d)))] + [Return(last)] == [Local(x, 0, Lit(LData(d))), Return(last)];
    assert Printed(st) == [];
  }

  lemma RunsLocal(w: World, x: Name, d: int, st: State, rest: seq<Stmt>)
    ensures var slot := NewSlot(0, st);
      ExecBlock(w, [Local(x, 0, Lit(LData(d)))] + rest, map[], st, 2)
        == ExecBlock(w, rest, map[x := slot], Declare(slot, Data(d), st), 2)
  {
    var s := Local(x, 0, Lit(LData(d)));
    var slot := NewSlot(0, st);
    assert EvalExpr(w, s.e, map[], st, 2) == Val(Data(d), st);
    assert ([s] + rest)[1..] == rest;
    var empty: Env := map[];
    assert empty[x := slot] == map[x := slot];
    assert ExecStmt(w, s, empty, st, 2) == Next(map[x := slot], Declare(slot, Data(d), st));
  }
}
