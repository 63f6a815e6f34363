/** Running code in two states that differ only in a local that the code does
  not name.  The local's name and the declarations that make its cells are
  `fresh`; everything else is the same on both sides.
 */
module Simulation {
  import opened Luau

  datatype Fresh = Fresh(name: Name, decls: set<nat>)

  // ----- code that keeps clear of what is fresh -----

  predicate ClearExpr(k: Fresh, e: Expr)
  {
    match e
    case Lit(_) => true
    case Var(x) => x != k.name
    case Func(f) => ClearFunction(k, f)
    case Items(items) => ClearExprs(k, items)
    case Index(t, i) => ClearExpr(k, t) && ClearExpr(k, i)
    case Op(_, args) => ClearExprs(k, args)
    case And(a, b) => ClearExpr(k, a) && ClearExpr(k, b)
    case Or(a, b) => ClearExpr(k, a) && ClearExpr(k, b)
    case Call(fn, args) => ClearExpr(k, fn) && ClearExprs(k, args)
  }

  predicate ClearExprs(k: Fresh, es: seq<Expr>)
  {
    forall i :: 0 <= i < |es| ==> ClearExpr(k, es[i])
  }

  predicate ClearStmt(k: Fresh, s: Stmt)
  {
    match s
    case Local(x, d, e) => x != k.name && d !in k.decls && ClearExpr(k, e)
    case Assign(x, e) => x != k.name && ClearExpr(k, e)
    case SetIndex(t, i, e) => ClearExpr(k, t) && ClearExpr(k, i) && ClearExpr(k, e)
    case Eval(e) => ClearExpr(k, e)
    case Do(body) => ClearBlock(k, body)
    case If(c, yes, no) => ClearExpr(k, c) && ClearBlock(k, yes) && ClearBlock(k, no)
    case While(c, body) => ClearExpr(k, c) && ClearBlock(k, body)
    case For(x, d, lo, hi, body) =>
      x != k.name && d !in k.decls && ClearExpr(k, lo) && ClearExpr(k, hi) && ClearBlock(k, body)
    case Return(e) => ClearExpr(k, e)
    case _ => true
  }

  predicate ClearBlock(k: Fresh, b: seq<Stmt>)
  {
    forall i :: 0 <= i < |b| ==> ClearStmt(k, b[i])
  }

  predicate ClearFunction(k: Fresh, f: Function)
  {
    && ClearBlock(k, f.body)
    && forall i :: 0 <= i < |f.params| ==> f.params[i].x != k.name && f.params[i].decl !in k.decls
  }

  /** Code that is clear does not name what is fresh. */
  lemma {:induction false} ClearNamesExpr(k: Fresh, e: Expr)
    requires ClearExpr(k, e)
    ensures !InExpr(k.name, e)
  {
    match e
    case Func(f) => ClearNamesFunction(k, f);
    case Items(items) => ClearNamesExprs(k, items);
    case Index(t, i) => ClearNamesExpr(k, t); ClearNamesExpr(k, i);
    case Op(_, args) => ClearNamesExprs(k, args);
    case And(a, b) => ClearNamesExpr(k, a); ClearNamesExpr(k, b);
    case Or(a, b) => ClearNamesExpr(k, a); ClearNamesExpr(k, b);
    case Call(fn, args) => ClearNamesExpr(k, fn); ClearNamesExprs(k, args);
    case _ =>
  }

  lemma {:induction false} ClearNamesExprs(k: Fresh, es: seq<Expr>)
    requires ClearExprs(k, es)
    ensures !InExprs(k.name, es)
  {
    forall i | 0 <= i < |es| ensures !InExpr(k.name, es[i]) {
      ClearNamesExpr(k, es[i]);
    }
  }

  lemma {:induction false} ClearNames(k: Fresh, s: Stmt)
    requires ClearStmt(k, s)
    ensures !InStmt(k.name, s)
  {
    match s
    case Local(_, _, e) => ClearNamesExpr(k, e);
    case Assign(_, e) => ClearNamesExpr(k, e);
    case SetIndex(t, i, e) => ClearNamesExpr(k, t); ClearNamesExpr(k, i); ClearNamesExpr(k, e);
    case Eval(e) => ClearNamesExpr(k, e);
    case Do(body) => ClearNamesBlock(k, body);
    case If(c, yes, no) => ClearNamesExpr(k, c); ClearNamesBlock(k, yes); ClearNamesBlock(k, no);
    case While(c, body) => ClearNamesExpr(k, c); ClearNamesBlock(k, body);
    case For(_, _, lo, hi, body) => ClearNamesExpr(k, lo); ClearNamesExpr(k, hi); ClearNamesBlock(k, body);
    case Return(e) => ClearNamesExpr(k, e);
    case _ =>
  }

  lemma {:induction false} ClearNamesBlock(k: Fresh, b: seq<Stmt>)
    requires ClearBlock(k, b)
    ensures !InBlock(k.name, b)
  {
    forall i | 0 <= i < |b| ensures !InStmt(k.name, b[i]) {
      ClearNames(k, b[i]);
    }
  }

  lemma {:induction false} ClearNamesFunction(k: Fresh, f: Function)
    requires ClearFunction(k, f)
    ensures !InFunction(k.name, f)
  {
    ClearNamesBlock(k, f.body);
  }

  // ----- states that agree -----

  /** A value that does not hold on to a fresh cell, nor to code that could. */
  ghost predicate Plain(k: Fresh, v: Value)
  {
    v.Closure? ==> ClearFunction(k, v.f) && forall x :: x in v.env ==> v.env[x].decl !in k.decls
  }

  ghost predicate SameEnv(k: Fresh, env: Env, env': Env)
  {
    forall x :: x != k.name ==> SameSlot(k, env, env', x)
  }

  ghost predicate SameSlot(k: Fresh, env: Env, env': Env, x: Name)
  {
    (x in env <==> x in env') && (x in env ==> env[x] == env'[x] && env[x].decl !in k.decls)
  }

  ghost predicate SameCell(k: Fresh, st: State, st': State, s: Slot)
  {
    (s in st.cells <==> s in st'.cells) && (s in st.cells ==> st.cells[s] == st'.cells[s] && Plain(k, st.cells[s]))
  }

  ghost predicate SameCount(st: State, st': State, d: nat)
  {
    (d in st.counts <==> d in st'.counts) && (d in st.counts ==> st.counts[d] == st'.counts[d])
  }

  ghost predicate PlainTable(k: Fresh, t: map<Value, Value>)
  {
    forall i :: i in t ==> Plain(k, i) && Plain(k, t[i])
  }

  ghost predicate Same(k: Fresh, st: State, st': State)
  {
    && (forall s: Slot :: s.decl !in k.decls ==> SameCell(k, st, st', s))
    && (forall d :: d !in k.decls ==> SameCount(st, st', d))
    && st.tables == st'.tables && st.globals == st'.globals && st.trace == st'.trace
    && (forall i :: 0 <= i < |st.tables| ==> PlainTable(k, st.tables[i]))
    && (forall x :: x in st.globals ==> Plain(k, st.globals[x]))
  }

  ghost predicate PlainAll(k: Fresh, vs: seq<Value>)
  {
    forall i :: 0 <= i < |vs| ==> Plain(k, vs[i])
  }

  ghost predicate SameExpr(k: Fresh, r: ExprResult, r': ExprResult)
  {
    match (r, r')
    case (Val(v, st), Val(v', st')) => v == v' && Plain(k, v) && Same(k, st, st')
    case (Raise(st), Raise(st')) => Same(k, st, st')
    case (Exhausted, Exhausted) => true
    case _ => false
  }

  ghost predicate SameList(k: Fresh, r: ListResult, r': ListResult)
  {
    match (r, r')
    case (Vals(vs, st), Vals(vs', st')) => vs == vs' && PlainAll(k, vs) && Same(k, st, st')
    case (RaiseL(st), RaiseL(st')) => Same(k, st, st')
    case (ExhaustedL, ExhaustedL) => true
    case _ => false
  }

  ghost predicate SameFlow(k: Fresh, r: Flow, r': Flow)
  {
    match (r, r')
    case (Next(env, st), Next(env', st')) => SameEnv(k, env, env') && Same(k, st, st')
    case (Broke(st), Broke(st')) => Same(k, st, st')
    case (Continued(st), Continued(st')) => Same(k, st, st')
    case (Returned(v, st), Returned(v', st')) => v == v' && Plain(k, v) && Same(k, st, st')
    case (Raised(st), Raised(st')) => Same(k, st, st')
    case (OutOfFuel, OutOfFuel) => true
    case _ => false
  }

  // ----- the primitive steps keep the states the same -----

  lemma GetSame(k: Fresh, x: Name, env: Env, env': Env, st: State, st': State)
    requires SameEnv(k, env, env') && Same(k, st, st') && x != k.name
    ensures Get(x, env, st) == Get(x, env', st') && Plain(k, Get(x, env, st))
  {
    assert SameSlot(k, env, env', x);
    if x in env {
      assert SameCell(k, st, st', env[x]);
    }
  }

  lemma SetSame(k: Fresh, x: Name, v: Value, env: Env, env': Env, st: State, st': State)
    requires SameEnv(k, env, env') && Same(k, st, st') && x != k.name && Plain(k, v)
    ensures Same(k, Set(x, v, env, st), Set(x, v, env', st'))
  {
    assert SameSlot(k, env, env', x);
    var n, n' := Set(x, v, env, st), Set(x, v, env', st');
    forall s: Slot | s.decl !in k.decls ensures SameCell(k, n, n', s) {
      assert SameCell(k, st, st', s);
    }
    forall d | d !in k.decls ensures SameCount(n, n', d) {
      assert SameCount(st, st', d);
    }
  }

  lemma DeclareSame(k: Fresh, x: Name, d: nat, v: Value, env: Env, env': Env, st: State, st': State)
    requires SameEnv(k, env, env') && Same(k, st, st') && x != k.name && d !in k.decls && Plain(k, v)
    ensures NewSlot(d, st) == NewSlot(d, st')
    ensures var slot := NewSlot(d, st);
      SameEnv(k, env[x := slot], env'[x := slot]) && Same(k, Declare(slot, v, st), Declare(slot, v, st'))
  {
    assert SameCount(st, st', d);
    var slot := NewSlot(d, st);
    var n, n' := Declare(slot, v, st), Declare(slot, v, st');
    forall s: Slot | s.decl !in k.decls ensures SameCell(k, n, n', s) {
      assert SameCell(k, st, st', s);
    }
    forall c | c !in k.decls ensures SameCount(n, n', c) {
      assert SameCount(st, st', c);
    }
    var e, e' := env[x := slot], env'[x := slot];
    forall y | y != k.name ensures SameSlot(k, e, e', y) {
      assert SameSlot(k, env, env', y);
    }
  }

  /** A fresh declaration on one side only. */
  lemma DeclareFresh(k: Fresh, d: nat, v: Value, st: State, st': State)
    requires Same(k, st, st') && d in k.decls
    ensures Same(k, st, Declare(NewSlot(d, st'), v, st'))
  {
    var n' := Declare(NewSlot(d, st'), v, st');
    forall s: Slot | s.decl !in k.decls ensures SameCell(k, st, n', s) {
      assert SameCell(k, st, st', s);
    }
    forall c | c !in k.decls ensures SameCount(st, n', c) {
      assert SameCount(st, st', c);
    }
  }

  lemma TablesSame(k: Fresh, st: State, st': State, ts: seq<map<Value, Value>>)
    requires Same(k, st, st') && forall i :: 0 <= i < |ts| ==> PlainTable(k, ts[i])
    ensures Same(k, st.(tables := ts), st'.(tables := ts))
  {
    var n, n' := st.(tables := ts), st'.(tables := ts);
    forall s: Slot | s.decl !in k.decls ensures SameCell(k, n, n', s) {
      assert SameCell(k, st, st', s);
    }
    forall c | c !in k.decls ensures SameCount(n, n', c) {
      assert SameCount(st, st', c);
    }
  }

  lemma TraceSame(k: Fresh, st: State, st': State, vs: seq<Value>)
    requires Same(k, st, st')
    ensures Same(k, st.(trace := st.trace + [vs]), st'.(trace := st'.trace + [vs]))
  {
    var n, n' := st.(trace := st.trace + [vs]), st'.(trace := st'.trace + [vs]);
    forall s: Slot | s.decl !in k.decls ensures SameCell(k, n, n', s) {
      assert SameCell(k, st, st', s);
    }
    forall c | c !in k.decls ensures SameCount(n, n', c) {
      assert SameCount(st, st', c);
    }
  }

  lemma CaptureSame(k: Fresh, env: Env, env': Env, f: Function)
    requires SameEnv(k, env, env') && ClearFunction(k, f)
    ensures Capture(env, f) == Capture(env', f)
    ensures forall x :: x in Capture(env, f) ==> Capture(env, f)[x].decl !in k.decls
  {
    ClearNamesBlock(k, f.body);
    forall x | x in env || x in env' ensures x != k.name ==> SameSlot(k, env, env', x) {
    }
  }

  lemma LibrarySame(k: Fresh, w: World, name: string, vs: seq<Value>, st: State, st': State)
    requires Same(k, st, st') && PlainAll(k, vs)
    ensures SameExpr(k, CallLibrary(w, name, vs, st), CallLibrary(w, name, vs, st'))
  {
  }

  lemma PlainEnv(k: Fresh, v: Value)
    requires Plain(k, v) && v.Closure?
    ensures SameEnv(k, v.env, v.env)
  {
    forall x | x != k.name ensures SameSlot(k, v.env, v.env, x) {
    }
  }

  lemma {:induction false} ParamsSame(k: Fresh, ps: seq<Param>, vs: seq<Value>, env: Env, env': Env, st: State,
                                      st': State)
    requires SameEnv(k, env, env') && Same(k, st, st') && PlainAll(k, vs)
    requires forall i :: 0 <= i < |ps| ==> ps[i].x != k.name && ps[i].decl !in k.decls
    ensures var (e, s) := BindParams(ps, vs, env, st);
      var (e', s') := BindParams(ps, vs, env', st');
      SameEnv(k, e, e') && Same(k, s, s')
    decreases |ps|
  {
    if ps != [] {
      var v := if vs == [] then Nil else vs[0];
      DeclareSame(k, ps[0].x, ps[0].decl, v, env, env', st, st');
      var slot := NewSlot(ps[0].decl, st);
      ParamsSame(k, ps[1..], if vs == [] then [] else vs[1..], env[ps[0].x := slot], env'[ps[0].x := slot],
                 Declare(slot, v, st), Declare(slot, v, st'));
    }
  }

  // ----- running clear code keeps the states the same -----

  lemma ItemsSame(k: Fresh, vs: seq<Value>, st: State, st': State)
    requires Same(k, st, st') && PlainAll(k, vs)
    ensures SameExpr(k, Val(Table(|st.tables|), st.(tables := st.tables + [NewTable(vs)])),
                        Val(Table(|st'.tables|), st'.(tables := st'.tables + [NewTable(vs)])))
  {
    NewTableIsPlain(k, vs);
    TablesSame(k, st, st', st.tables + [NewTable(vs)]);
  }

  lemma {:induction false} NewTableIsPlain(k: Fresh, vs: seq<Value>)
    requires PlainAll(k, vs)
    ensures PlainTable(k, NewTable(vs))
    decreases |vs|
  {
    if vs != [] {
      NewTableIsPlain(k, vs[..|vs| - 1]);
    }
  }

  lemma LookupSame(k: Fresh, tv: Value, kv: Value, st: State, st': State)
    requires Same(k, st, st')
    ensures tv.Table? && tv.id < |st.tables| ==>
      && st.tables == st'.tables
      && Plain(k, if kv in st.tables[tv.id] then st.tables[tv.id][kv] else Nil)
  {
    if tv.Table? && tv.id < |st.tables| {
      assert PlainTable(k, st.tables[tv.id]);
    }
  }

  lemma StoreSame(k: Fresh, id: nat, kv: Value, v: Value, st: State, st': State)
    requires Same(k, st, st') && Plain(k, kv) && Plain(k, v) && id < |st.tables|
    ensures st.tables == st'.tables
    ensures Same(k, st.(tables := st.tables[id := st.tables[id][kv := v]]),
        st'.(tables := st'.tables[id := st'.tables[id][kv := v]]))
  {
    var ts := st.tables[id := st.tables[id][kv := v]];
    assert PlainTable(k, st.tables[id]);
    forall i | 0 <= i < |ts| ensures PlainTable(k, ts[i]) {
      assert PlainTable(k, st.tables[i]);
    }
    TablesSame(k, st, st', ts);
  }

  lemma TablesEqual(k: Fresh, st: State, st': State)
    requires Same(k, st, st')
    ensures st.tables == st'.tables
  {
  }

  lemma {:induction false} SimExpr(k: Fresh, w: World, e: Expr, env: Env, env': Env, st: State, st': State, fuel: nat)
    requires ClearExpr(k, e) && SameEnv(k, env, env') && Same(k, st, st')
    ensures SameExpr(k, EvalExpr(w, e, env, st, fuel), EvalExpr(w, e, env', st', fuel))
    decreases fuel, e, 1
  {
    hide Same, SameEnv, Plain, PlainAll, EvalList, CallValue, CallLibrary, Get, Capture;
    match e
    case Lit(l) => PlainLiteral(k, l);
    case Var(x) => GetSame(k, x, env, env', st, st');
    case Func(f) =>
      CaptureSame(k, env, env', f);
      PlainClosure(k, f, Capture(env, f));
    case Items(items) =>
      SimList(k, w, items, env, env', st, st', fuel);
      var r, r' := EvalList(w, items, env, st, fuel), EvalList(w, items, env', st', fuel);
      if r.Vals? {
        ItemsSame(k, r.vs, r.st, r'.st);
      }
    case Index(_, _) => SimIndex(k, w, e, env, env', st, st', fuel);
    case Op(name, args) =>
      SimList(k, w, args, env, env', st, st', fuel);
      var r, r' := EvalList(w, args, env, st, fuel), EvalList(w, args, env', st', fuel);
      if r.Vals? {
        LibrarySame(k, w, name, r.vs, r.st, r'.st);
      }
    case And(a, b) =>
      SimExpr(k, w, a, env, env', st, st', fuel);
      var r, r' := EvalExpr(w, a, env, st, fuel), EvalExpr(w, a, env', st', fuel);
      if r.Val? {
        SimExpr(k, w, b, env, env', r.st, r'.st, fuel);
      }
    case Or(a, b) =>
      SimExpr(k, w, a, env, env', st, st', fuel);
      var r, r' := EvalExpr(w, a, env, st, fuel), EvalExpr(w, a, env', st', fuel);
      if r.Val? {
        SimExpr(k, w, b, env, env', r.st, r'.st, fuel);
      }
    case Call(_, _) => SimCallExpr(k, w, e, env, env', st, st', fuel);
  }

  lemma {:induction false} SimIndex(k: Fresh, w: World, e: Expr, env: Env, env': Env, st: State, st': State, fuel: nat)
    requires e.Index? && ClearExpr(k, e) && SameEnv(k, env, env') && Same(k, st, st')
    ensures SameExpr(k, EvalExpr(w, e, env, st, fuel), EvalExpr(w, e, env', st', fuel))
    decreases fuel, e, 0
  {
    hide Same, SameEnv, Plain, PlainAll, EvalList, CallValue, CallLibrary, Get, Capture;
    SimExpr(k, w, e.t, env, env', st, st', fuel);
    var r, r' := EvalExpr(w, e.t, env, st, fuel), EvalExpr(w, e.t, env', st', fuel);
    if r.Val? {
      SimExpr(k, w, e.k, env, env', r.st, r'.st, fuel);
      var q, q' := EvalExpr(w, e.k, env, r.st, fuel), EvalExpr(w, e.k, env', r'.st, fuel);
      if q.Val? {
        LookupSame(k, r.v, q.v, q.st, q'.st);
        TablesEqual(k, q.st, q'.st);
      }
    }
  }

  lemma {:induction false} SimCallExpr(k: Fresh, w: World, e: Expr, env: Env, env': Env, st: State, st': State,
                                       fuel: nat)
    requires e.Call? && ClearExpr(k, e) && SameEnv(k, env, env') && Same(k, st, st')
    ensures SameExpr(k, EvalExpr(w, e, env, st, fuel), EvalExpr(w, e, env', st', fuel))
    decreases fuel, e, 0, 1
  {
    hide Same, SameEnv, Plain, PlainAll, EvalList, CallValue, CallLibrary, Get, Capture;
    SimExpr(k, w, e.fn, env, env', st, st', fuel);
    var r, r' := EvalExpr(w, e.fn, env, st, fuel), EvalExpr(w, e.fn, env', st', fuel);
    if r.Val? {
      SimList(k, w, e.args, env, env', r.st, r'.st, fuel);
      var q, q' := EvalList(w, e.args, env, r.st, fuel), EvalList(w, e.args, env', r'.st, fuel);
      if q.Vals? {
        SimCall(k, w, e, r.v, q.vs, q.st, q'.st, fuel);
      }
    }
  }

  lemma PlainClosure(k: Fresh, f: Function, env: Env)
    requires ClearFunction(k, f) && forall x :: x in env ==> env[x].decl !in k.decls
    ensures Plain(k, Closure(f, env))
  {
  }

  lemma ClearCode(k: Fresh, v: Value)
    requires Plain(k, v) && v.Closure?
    ensures ClearFunction(k, v.f)
  {
  }

  lemma {:induction false} SimList(k: Fresh, w: World, es: seq<Expr>, env: Env, env': Env, st: State, st': State,
                                   fuel: nat)
    requires ClearExprs(k, es) && SameEnv(k, env, env') && Same(k, st, st')
    ensures SameList(k, EvalList(w, es, env, st, fuel), EvalList(w, es, env', st', fuel))
    decreases fuel, es, 0
  {
    hide Same, SameEnv, Plain, EvalExpr;
    if es != [] {
      SimExpr(k, w, es[0], env, env', st, st', fuel);
      var r, r' := EvalExpr(w, es[0], env, st, fuel), EvalExpr(w, es[0], env', st', fuel);
      if r.Val? {
        SimList(k, w, es[1..], env, env', r.st, r'.st, fuel);
      }
    }
  }

  lemma {:induction false} SimCall(k: Fresh, w: World, site: Expr, fv: Value, vs: seq<Value>, st: State, st': State,
                                   fuel: nat)
    requires Plain(k, fv) && PlainAll(k, vs) && Same(k, st, st')
    ensures SameExpr(k, CallValue(w, site, fv, vs, st, fuel), CallValue(w, site, fv, vs, st', fuel))
    decreases fuel, site, 0, 0
  {
    hide Same, SameEnv, Plain, PlainAll, ExecBlock, BindParams, CallLibrary;
    match fv
    case Print => TraceSame(k, st, st', vs); PlainLiteral(k, LNil);
    case Library(name) => LibrarySame(k, w, name, vs, st, st');
    case Closure(f, env) =>
      if fuel > 0 {
        PlainLiteral(k, LNil);
        ClearCode(k, fv);
        PlainEnv(k, fv);
        ParamsSame(k, f.params, vs, env, env, st, st');
        var (e, s) := BindParams(f.params, vs, env, st);
        var (e', s') := BindParams(f.params, vs, env, st');
        SimBlock(k, w, f.body, e, e', s, s', fuel - 1);
      }
    case _ =>
  }

  lemma {:induction false} SimStmt(k: Fresh, w: World, s: Stmt, env: Env, env': Env, st: State, st': State, fuel: nat)
    requires ClearStmt(k, s) && SameEnv(k, env, env') && Same(k, st, st')
    ensures SameFlow(k, ExecStmt(w, s, env, st, fuel), ExecStmt(w, s, env', st', fuel))
    decreases fuel, s, 1
  {
    hide Same, SameEnv, Plain, PlainAll, EvalExpr, ExecBlock, ExecWhile, ExecFor, Set, Declare, NewSlot;
    match s
    case Local(x, d, e) =>
      SimExpr(k, w, e, env, env', st, st', fuel);
      var r, r' := EvalExpr(w, e, env, st, fuel), EvalExpr(w, e, env', st', fuel);
      if r.Val? {
        DeclareSame(k, x, d, r.v, env, env', r.st, r'.st);
      }
    case Assign(x, e) =>
      SimExpr(k, w, e, env, env', st, st', fuel);
      var r, r' := EvalExpr(w, e, env, st, fuel), EvalExpr(w, e, env', st', fuel);
      if r.Val? {
        SetSame(k, x, r.v, env, env', r.st, r'.st);
      }
    case SetIndex(t, i, e) => SimSetIndex(k, w, s, env, env', st, st', fuel);
    case Eval(e) => SimExpr(k, w, e, env, env', st, st', fuel);
    case Do(body) => SimBlock(k, w, body, env, env', st, st', fuel);
    case If(_, _, _) => SimIf(k, w, s, env, env', st, st', fuel);
    case While(c, body) => SimWhile(k, w, s, env, env', st, st', fuel);
    case For(_, _, _, _, _) => SimForStart(k, w, s, env, env', st, st', fuel);
    case Return(e) => SimExpr(k, w, e, env, env', st, st', fuel);
    case _ =>
  }

  lemma {:induction false} SimIf(k: Fresh, w: World, s: Stmt, env: Env, env': Env, st: State, st': State, fuel: nat)
    requires s.If? && ClearStmt(k, s) && SameEnv(k, env, env') && Same(k, st, st')
    ensures SameFlow(k, ExecStmt(w, s, env, st, fuel), ExecStmt(w, s, env', st', fuel))
    decreases fuel, s, 0
  {
    hide Same, SameEnv, Plain, PlainAll, EvalExpr, ExecBlock;
    SimExpr(k, w, s.c, env, env', st, st', fuel);
    var r, r' := EvalExpr(w, s.c, env, st, fuel), EvalExpr(w, s.c, env', st', fuel);
    if r.Val? {
      SimBlock(k, w, if Truthy(r.v) then s.yes else s.no, env, env', r.st, r'.st, fuel);
    }
  }

  lemma {:induction false} SimForStart(k: Fresh, w: World, s: Stmt, env: Env, env': Env, st: State, st': State,
                                       fuel: nat)
    requires s.For? && ClearStmt(k, s) && SameEnv(k, env, env') && Same(k, st, st')
    ensures SameFlow(k, ExecStmt(w, s, env, st, fuel), ExecStmt(w, s, env', st', fuel))
    decreases fuel, s, 0, 1
  {
    hide Same, SameEnv, Plain, PlainAll, ExecFor, EvalExpr;
    SimExpr(k, w, s.lo, env, env', st, st', fuel);
    var r, r' := EvalExpr(w, s.lo, env, st, fuel), EvalExpr(w, s.lo, env', st', fuel);
    if r.Val? {
      SimExpr(k, w, s.hi, env, env', r.st, r'.st, fuel);
      var q, q' := EvalExpr(w, s.hi, env, r.st, fuel), EvalExpr(w, s.hi, env', r'.st, fuel);
      if q.Val? {
        SimFor(k, w, s, r.v, q.v, env, env', q.st, q'.st, fuel);
      }
    }
  }

  lemma {:induction false} SimSetIndex(k: Fresh, w: World, s: Stmt, env: Env, env': Env, st: State, st': State,
                                       fuel: nat)
    requires s.SetIndex? && ClearStmt(k, s) && SameEnv(k, env, env') && Same(k, st, st')
    ensures SameFlow(k, ExecStmt(w, s, env, st, fuel), ExecStmt(w, s, env', st', fuel))
    decreases fuel, s, 0
  {
    hide Same, SameEnv, Plain, PlainAll, EvalExpr;
    SimExpr(k, w, s.t, env, env', st, st', fuel);
    var r, r' := EvalExpr(w, s.t, env, st, fuel), EvalExpr(w, s.t, env', st', fuel);
    if r.Val? {
      SimExpr(k, w, s.k, env, env', r.st, r'.st, fuel);
      var q, q' := EvalExpr(w, s.k, env, r.st, fuel), EvalExpr(w, s.k, env', r'.st, fuel);
      if q.Val? {
        SimExpr(k, w, s.e, env, env', q.st, q'.st, fuel);
        var p, p' := EvalExpr(w, s.e, env, q.st, fuel), EvalExpr(w, s.e, env', q'.st, fuel);
        if p.Val? {
          TablesEqual(k, p.st, p'.st);
          if r.v.Table? && r.v.id < |p.st.tables| {
            StoreSame(k, r.v.id, q.v, p.v, p.st, p'.st);
          }
        }
      }
    }
  }

  lemma {:induction false} SimBlock(k: Fresh, w: World, b: seq<Stmt>, env: Env, env': Env, st: State, st': State,
                                    fuel: nat)
    requires ClearBlock(k, b) && SameEnv(k, env, env') && Same(k, st, st')
    ensures SameFlow(k, ExecBlock(w, b, env, st, fuel), ExecBlock(w, b, env', st', fuel))
    decreases fuel, b, 0
  {
    hide Same, SameEnv, Plain, PlainAll, ExecStmt;
    if b != [] {
      SimStmt(k, w, b[0], env, env', st, st', fuel);
      var r, r' := ExecStmt(w, b[0], env, st, fuel), ExecStmt(w, b[0], env', st', fuel);
      if r.Next? {
        SimBlock(k, w, b[1..], r.env, r'.env, r.st, r'.st, fuel);
      }
    }
  }

  lemma {:induction false} SimWhile(k: Fresh, w: World, s: Stmt, env: Env, env': Env, st: State, st': State, fuel: nat)
    requires s.While? && ClearStmt(k, s) && SameEnv(k, env, env') && Same(k, st, st')
    ensures SameFlow(k, ExecWhile(w, s, env, st, fuel), ExecWhile(w, s, env', st', fuel))
    decreases fuel, s, 0
  {
    hide Same, SameEnv, Plain, PlainAll, EvalExpr, ExecBlock;
    SimExpr(k, w, s.c, env, env', st, st', fuel);
    var r, r' := EvalExpr(w, s.c, env, st, fuel), EvalExpr(w, s.c, env', st', fuel);
    if r.Val? && Truthy(r.v) && fuel > 0 {
      SimBlock(k, w, s.body, env, env', r.st, r'.st, fuel - 1);
      var q, q' := ExecBlock(w, s.body, env, r.st, fuel - 1), ExecBlock(w, s.body, env', r'.st, fuel - 1);
      if q.Next? || q.Continued? {
        SimWhile(k, w, s, env, env', q.st, q'.st, fuel - 1);
      }
    }
  }

  lemma PlainList(k: Fresh, v: Value, v': Value)
    requires Plain(k, v) && Plain(k, v')
    ensures PlainAll(k, [v, v']) && PlainAll(k, [v])
  {
  }

  lemma PlainLiteral(k: Fresh, l: Literal)
    ensures Plain(k, OfLiteral(l)) && Plain(k, Nil)
  {
  }

  lemma {:induction false} SimFor(k: Fresh, w: World, s: Stmt, at: Value, to: Value, env: Env, env': Env,
                                  st: State, st': State, fuel: nat)
    requires s.For? && ClearStmt(k, s) && SameEnv(k, env, env') && Same(k, st, st')
    requires Plain(k, at) && Plain(k, to)
    ensures SameFlow(k, ExecFor(w, s, at, to, env, st, fuel), ExecFor(w, s, at, to, env', st', fuel))
    decreases fuel, s, 0, 0
  {
    hide Same, SameEnv, Plain, PlainAll, ExecBlock, CallLibrary, Declare, NewSlot;
    PlainList(k, at, to);
    LibrarySame(k, w, "<=", [at, to], st, st');
    var r, r' := CallLibrary(w, "<=", [at, to], st), CallLibrary(w, "<=", [at, to], st');
    if r.Val? && Truthy(r.v) && fuel > 0 {
      DeclareSame(k, s.x, s.decl, at, env, env', r.st, r'.st);
      var slot := NewSlot(s.decl, r.st);
      var e, e', u, u' := env[s.x := slot], env'[s.x := slot], Declare(slot, at, r.st), Declare(slot, at, r'.st);
      SimBlock(k, w, s.body, e, e', u, u', fuel - 1);
      var q, q' := ExecBlock(w, s.body, e, u, fuel - 1), ExecBlock(w, s.body, e', u', fuel - 1);
      if q.Next? || q.Continued? {
        LibrarySame(k, w, "step", [at], q.st, q'.st);
        var p, p' := CallLibrary(w, "step", [at], q.st), CallLibrary(w, "step", [at], q'.st);
        if p.Val? {
          SimFor(k, w, s, p.v, to, env, env', p.st, p'.st, fuel - 1);
        }
      }
    }
  }
}
