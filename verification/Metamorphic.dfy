/** The two source transforms whose whole point is that they change nothing
  that can be observed.
 */
module Metamorphic {
  import opened Bytes
  import opened Luau
  import opened Simulation
  import Fuel

  /** The declaration that inserted locals are made by; programs use others. */
  const INSERTED: nat := 1

  const META := Ident("_meta")

  const FRESH := Fresh(META, {INSERTED})

  /** Statements that do nothing, at most declare a local nobody names. */
  const NOOPS: seq<Stmt> := [
    Do([]),
    Empty,
    Local(META, INSERTED, Lit(LNil)),
    Do([Local(Ident("_"), INSERTED, Lit(LData(1)))])
  ]

  /** `src` with `ins[i]` in front of statement `i`. */
  function Weave(src: seq<Stmt>, ins: seq<seq<Stmt>>): seq<Stmt>
    requires |ins| == |src|
    decreases |src|
  {
    if src == [] then []
    else
      var n := |src| - 1;
      Weave(src[..n], ins[..n]) + ins[n] + [src[n]]
  }

  predicate IsNoop(ss: seq<Stmt>)
  {
    ss == [] || (|ss| == 1 && ss[0] in NOOPS)
  }

  predicate IsDead(ss: seq<Stmt>)
  {
    ss == [] || (|ss| == 1 && (match ss[0]
      case If(c, yes, no) => c == Lit(LBool(false)) && no == []
      case While(c, _) => c == Lit(LBool(false))
      case _ => false))
  }

  /** A block in two parts. */
  lemma {:induction false} ExecConcat(w: World, a: seq<Stmt>, b: seq<Stmt>, env: Env, st: State, fuel: nat)
    ensures ExecBlock(w, a + b, env, st, fuel)
         == var r := ExecBlock(w, a, env, st, fuel); if r.Next? then ExecBlock(w, b, r.env, r.st, fuel) else r
    decreases |a|
  {
    hide ExecStmt;
    if a == [] {
      assert a + b == b;
    } else {
      assert (a + b)[0] == a[0] && (a + b)[1..] == a[1..] + b;
      var r := ExecStmt(w, a[0], env, st, fuel);
      if r.Next? {
        ExecConcat(w, a[1..], b, r.env, r.st, fuel);
      }
    }
  }

  lemma ExecOne(w: World, s: Stmt, env: Env, st: State, fuel: nat)
    ensures ExecBlock(w, [s], env, st, fuel) == ExecStmt(w, s, env, st, fuel)
  {
    hide ExecStmt;
    assert [s][1..] == [];
  }

  /** A no-op leaves everything the same but the fresh local. */
  lemma NoopRuns(w: World, ss: seq<Stmt>, env: Env, env': Env, st: State, st': State, fuel: nat)
    requires IsNoop(ss) && SameEnv(FRESH, env, env') && Same(FRESH, st, st')
    ensures SameFlow(FRESH, Next(env, st), ExecBlock(w, ss, env', st', fuel))
  {
    hide Same, SameEnv, Declare, NewSlot;
    if ss != [] {
      var s := ss[0];
      assert ss == [s];
      ExecOne(w, s, env', st', fuel);
      if s == NOOPS[2] {
        DeclareFresh(FRESH, INSERTED, Nil, st, st');
        FreshName(env, env', NewSlot(INSERTED, st'));
      } else if s == NOOPS[3] {
        DeclareFresh(FRESH, INSERTED, Data(1), st, st');
        ExecOne(w, s.body[0], env', st', fuel);
        assert s.body == [s.body[0]];
      } else {
        assert s == NOOPS[0] || s == NOOPS[1];
      }
    }
  }

  lemma FreshName(env: Env, env': Env, slot: Slot)
    requires SameEnv(FRESH, env, env')
    ensures SameEnv(FRESH, env, env'[META := slot])
  {
    var e' := env'[META := slot];
    forall y | y != FRESH.name ensures SameSlot(FRESH, env, e', y) {
      assert SameSlot(FRESH, env, env', y);
    }
  }

  lemma {:induction false} WovenRuns(w: World, src: seq<Stmt>, ins: seq<seq<Stmt>>, env: Env, st: State, fuel: nat)
    requires |ins| == |src| && forall i :: 0 <= i < |ins| ==> IsNoop(ins[i])
    requires ClearBlock(FRESH, src) && SameEnv(FRESH, env, env) && Same(FRESH, st, st)
    ensures SameFlow(FRESH, ExecBlock(w, src, env, st, fuel), ExecBlock(w, Weave(src, ins), env, st, fuel))
    decreases |src|
  {
    hide Same, SameEnv, ExecStmt, IsNoop;
    if src != [] {
      var n := |src| - 1;
      var front, woven := src[..n], Weave(src[..n], ins[..n]);
      WovenRuns(w, front, ins[..n], env, st, fuel);
      assert src == front + [src[n]];
      ExecConcat(w, front, [src[n]], env, st, fuel);
      ExecConcat(w, woven + ins[n], [src[n]], env, st, fuel);
      ExecConcat(w, woven, ins[n], env, st, fuel);
      var r, r' := ExecBlock(w, front, env, st, fuel), ExecBlock(w, woven, env, st, fuel);
      if r.Next? {
        NoopRuns(w, ins[n], r.env, r'.env, r.st, r'.st, fuel);
        var q' := ExecBlock(w, ins[n], r'.env, r'.st, fuel);
        ExecOne(w, src[n], r.env, r.st, fuel);
        ExecOne(w, src[n], q'.env, q'.st, fuel);
        SimStmt(FRESH, w, src[n], r.env, q'.env, r.st, q'.st, fuel);
      }
    }
  }

  lemma SameSeen(r: Flow, r': Flow)
    requires SameFlow(FRESH, r, r')
    ensures Observed(r) == Observed(r')
  {
  }

  /** Globals hold no closures when a program starts. */
  predicate PlainGlobals(globals: map<Name, Value>)
  {
    forall x :: x in globals ==> !globals[x].Closure?
  }

  /** Inserting no-ops into a program that does not name the inserted local
      changes nothing that is observed, at any step limit, whether the run ends,
      fails or goes on. */
  lemma NoopPreserves(w: World, src: seq<Stmt>, ins: seq<seq<Stmt>>, globals: map<Name, Value>, fuel: nat)
    requires |ins| == |src| && forall i :: 0 <= i < |ins| ==> IsNoop(ins[i])
    requires ClearBlock(FRESH, src) && PlainGlobals(globals)
    ensures Observe(w, Weave(src, ins), true, globals, fuel) == Observe(w, src, true, globals, fuel)
  {
    hide ExecBlock;
    var st := State(map[], map[], [], globals, []);
    WovenRuns(w, src, ins, map[], st, fuel);
    SameSeen(ExecBlock(w, src, map[], st, fuel), ExecBlock(w, Weave(src, ins), map[], st, fuel));
  }

  /** Code under a literal `false` is passed over, whatever it is. */
  lemma DeadRuns(w: World, ss: seq<Stmt>, env: Env, st: State, fuel: nat)
    requires IsDead(ss)
    ensures ExecBlock(w, ss, env, st, fuel) == Next(env, st)
  {
    if ss != [] {
      assert ss == [ss[0]];
      ExecOne(w, ss[0], env, st, fuel);
      assert EvalExpr(w, Lit(LBool(false)), env, st, fuel) == Val(Bool(false), st);
      assert ExecBlock(w, [], env, st, fuel) == Next(env, st);
    }
  }

  lemma {:induction false} DeadWovenRuns(w: World, src: seq<Stmt>, ins: seq<seq<Stmt>>, env: Env, st: State, fuel: nat)
    requires |ins| == |src| && forall i :: 0 <= i < |ins| ==> IsDead(ins[i])
    ensures ExecBlock(w, Weave(src, ins), env, st, fuel) == ExecBlock(w, src, env, st, fuel)
    decreases |src|
  {
    hide ExecBlock, IsDead;
    if src != [] {
      var n := |src| - 1;
      var front, woven := src[..n], Weave(src[..n], ins[..n]);
      DeadWovenRuns(w, front, ins[..n], env, st, fuel);
      assert src == front + [src[n]];
      ExecConcat(w, front, [src[n]], env, st, fuel);
      ExecConcat(w, woven + ins[n], [src[n]], env, st, fuel);
      ExecConcat(w, woven, ins[n], env, st, fuel);
      var r := ExecBlock(w, woven, env, st, fuel);
      if r.Next? {
        DeadRuns(w, ins[n], r.env, r.st, fuel);
      }
    }
  }

  /** Burying any statements in dead branches changes nothing that is observed. */
  lemma DeadBranchPreserves(w: World, src: seq<Stmt>, ins: seq<seq<Stmt>>, globals: map<Name, Value>, fuel: nat)
    requires |ins| == |src| && forall i :: 0 <= i < |ins| ==> IsDead(ins[i])
    ensures Observe(w, Weave(src, ins), true, globals, fuel) == Observe(w, src, true, globals, fuel)
  {
    DeadWovenRuns(w, src, ins, map[], State(map[], map[], [], globals, []), fuel);
  }

  // ----- the transforms -----

  lemma WeaveOn(src: seq<Stmt>, ins: seq<seq<Stmt>>, i: nat, one: seq<Stmt>)
    requires i < |src| && |ins| == i
    ensures Weave(src[..i + 1], ins + [one]) == Weave(src[..i], ins) + one + [src[i]]
  {
    assert src[..i + 1][..i] == src[..i] && (ins + [one])[..i] == ins;
  }

  /** The insertion that the bytes ask for at one place, and how far they are read. */
  function DrawnNoop(data: seq<Byte>, pos: nat): (r: (seq<Stmt>, nat))
    ensures IsNoop(r.0)
  {
    var (yes, p) := Drawn(data, pos, 1, 2);
    if yes != 1 then ([], p)
    else
      var (n, q) := Drawn(data, p, 0, |NOOPS| - 1);
      ([NOOPS[n]], q)
  }

  function DrawnDead(pool: seq<Stmt>, data: seq<Byte>, pos: nat): (r: (seq<Stmt>, nat))
    requires pool != []
    ensures IsDead(r.0)
  {
    var (yes, p) := Drawn(data, pos, 1, 2);
    if yes != 1 then ([], p)
    else
      var (n, q) := Drawn(data, p, 0, |pool| - 1);
      var (shape, q1) := Drawn(data, q, 0, 1);
      ([Bury(pool[n], shape == 0)], q1)
  }

  function Bury(s: Stmt, once: bool): Stmt
  {
    if once then If(Lit(LBool(false)), [s], []) else While(Lit(LBool(false)), [s])
  }

  /** The insertions that the bytes ask for at `n` places. */
  function DrawnNoops(data: seq<Byte>, pos: nat, n: nat): (r: seq<seq<Stmt>>)
    ensures |r| == n && forall i :: 0 <= i < n ==> IsNoop(r[i])
    decreases n
  {
    if n == 0 then [] else [DrawnNoop(data, pos).0] + DrawnNoops(data, DrawnNoop(data, pos).1, n - 1)
  }

  function DrawnDeads(pool: seq<Stmt>, data: seq<Byte>, pos: nat, n: nat): (r: seq<seq<Stmt>>)
    requires pool != []
    ensures |r| == n && forall i :: 0 <= i < n ==> IsDead(r[i])
    decreases n
  {
    if n == 0 then [] else [DrawnDead(pool, data, pos).0] + DrawnDeads(pool, data, DrawnDead(pool, data, pos).1, n - 1)
  }

  const RAISE := Eval(Call(Var(Ident("error")), [Lit(LData(0))]))

  /** What can be buried: the statements of a script of the corpus, if there are any. */
  function DrawnPool(corpus: seq<seq<Stmt>>, data: seq<Byte>): (r: (seq<Stmt>, nat))
    ensures r.0 != []
  {
    if corpus == [] then ([RAISE, Return(Lit(LData(42)))], 0)
    else
      var (i, p) := Drawn(data, 0, 0, |corpus| - 1);
      (if corpus[i] == [] then [RAISE] else corpus[i], p)
  }

  lemma NoopsOn(data: seq<Byte>, pos: nat, n: nat, ins: seq<seq<Stmt>>, all: seq<seq<Stmt>>)
    requires n > 0 && ins + DrawnNoops(data, pos, n) == all
    ensures var d := DrawnNoop(data, pos); ins + [d.0] + DrawnNoops(data, d.1, n - 1) == all
  {
    hide DrawnNoop, IsNoop;
  }

  /** Sprinkle no-ops over a program, where and which the bytes say. */
  method InsertNoops(src: seq<Stmt>, tail: seq<Byte>) returns (out: seq<Stmt>)
    ensures out == Weave(src, DrawnNoops(tail, 0, |src|))
  {
    hide Drawn, IsNoop, DrawnNoop, DrawnNoops, Weave;
    var u := new Choices(tail);
    out := [];
    ghost var ins: seq<seq<Stmt>>, all := [], DrawnNoops(tail, 0, |src|);
    WeaveNone(src);
    for i := 0 to |src|
      invariant u.Valid() && fresh(u) && u.data == tail
      invariant |ins| == i && out == Weave(src[..i], ins) && ins + DrawnNoops(tail, u.pos, |src| - i) == all
    {
      NoopsOn(tail, u.pos, |src| - i, ins, all);
      var one := OneNoop(u);
      WeaveOn(src, ins, i, one);
      out := out + one + [src[i]];
      ins := ins + [one];
    }
    assert src[..|src|] == src && ins == all;
  }

  lemma WeaveNone(src: seq<Stmt>)
    ensures Weave(src[..0], []) == []
  {
  }

  method OneNoop(u: Choices) returns (one: seq<Stmt>)
    requires u.Valid()
    modifies u
    ensures u.Valid() && (one, u.pos) == DrawnNoop(u.data, old(u.pos))
  {
    hide Drawn;
    one := [];
    var yes := u.Ratio(1, 2);
    if yes {
      var n := u.InRange(0, |NOOPS| - 1);
      one := [NOOPS[n]];
    }
  }

  method OneDead(u: Choices, pool: seq<Stmt>) returns (one: seq<Stmt>)
    requires u.Valid() && pool != []
    modifies u
    ensures u.Valid() && (one, u.pos) == DrawnDead(pool, u.data, old(u.pos))
  {
    hide Drawn;
    one := [];
    var yes := u.Ratio(1, 2);
    if yes {
      var n := u.InRange(0, |pool| - 1);
      var shape := u.InRange(0, 1);
      one := [if shape == 0 then If(Lit(LBool(false)), [pool[n]], []) else While(Lit(LBool(false)), [pool[n]])];
    }
  }

  lemma DeadsOn(pool: seq<Stmt>, data: seq<Byte>, pos: nat, n: nat, ins: seq<seq<Stmt>>, all: seq<seq<Stmt>>)
    requires pool != [] && n > 0 && ins + DrawnDeads(pool, data, pos, n) == all
    ensures var d := DrawnDead(pool, data, pos); ins + [d.0] + DrawnDeads(pool, data, d.1, n - 1) == all
  {
    hide DrawnDead, IsDead;
  }

  method PickPool(u: Choices, corpus: seq<seq<Stmt>>) returns (pool: seq<Stmt>)
    requires u.Valid() && u.pos == 0
    modifies u
    ensures u.Valid() && (pool, u.pos) == DrawnPool(corpus, u.data)
  {
    hide Drawn;
    if |corpus| == 0 {
      pool := [RAISE, Return(Lit(LData(42)))];
    } else {
      var i := u.InRange(0, |corpus| - 1);
      pool := if |corpus[i]| == 0 then [RAISE] else corpus[i];
    }
  }

  /** Bury statements of a corpus script in dead branches, as the bytes say. */
  method InsertDeadBranches(src: seq<Stmt>, corpus: seq<seq<Stmt>>, tail: seq<Byte>) returns (out: seq<Stmt>)
    ensures var (pool, p) := DrawnPool(corpus, tail); out == Weave(src, DrawnDeads(pool, tail, p, |src|))
  {
    hide Drawn, IsDead, DrawnDead, DrawnDeads, DrawnPool, Weave;
    var u := new Choices(tail);
    var pool := PickPool(u, corpus);
    out := [];
    ghost var ins: seq<seq<Stmt>>, all := [], DrawnDeads(pool, tail, u.pos, |src|);
    WeaveNone(src);
    for i := 0 to |src|
      invariant u.Valid() && fresh(u) && u.data == tail
      invariant |ins| == i && out == Weave(src[..i], ins) && ins + DrawnDeads(pool, tail, u.pos, |src| - i) == all
    {
      DeadsOn(pool, tail, u.pos, |src| - i, ins, all);
      var one := OneDead(u, pool);
      WeaveOn(src, ins, i, one);
      out := out + one + [src[i]];
      ins := ins + [one];
    }
    assert src[..|src|] == src && ins == all;
  }

  /** The metamorphic test cannot fail: whatever the transformed programs
      compile to, whenever two runs are conclusive they are seen to do the same. */
  lemma OracleHolds(w: World, src: seq<Stmt>, noop: seq<Stmt>, noops: seq<seq<Stmt>>, dead: seq<Stmt>,
                    deads: seq<seq<Stmt>>, globals: map<Name, Value>,
                    c: bool, c1: bool, c2: bool, n: nat, n1: nat, n2: nat)
    requires ClearBlock(FRESH, src) && PlainGlobals(globals)
    requires |noops| == |src| && (forall i :: 0 <= i < |noops| ==> IsNoop(noops[i])) && noop == Weave(src, noops)
    requires |deads| == |src| && (forall i :: 0 <= i < |deads| ==> IsDead(deads[i])) && dead == Weave(src, deads)
    ensures var a, b := Observe(w, src, c, globals, n), Observe(w, noop, c1, globals, n1);
      a.Some? && b.Some? ==> a == b
    ensures var a, b := Observe(w, src, c, globals, n), Observe(w, dead, c2, globals, n2);
      a.Some? && b.Some? ==> a == b
  {
    var a := Observe(w, src, c, globals, n);
    if a.Some? && Observe(w, noop, c1, globals, n1).Some? {
      NoopPreserves(w, src, noops, globals, n);
      Fuel.Conclusive(w, noop, true, c1, globals, n, n1);
    }
    if a.Some? && Observe(w, dead, c2, globals, n2).Some? {
      DeadBranchPreserves(w, src, deads, globals, n);
      Fuel.Conclusive(w, dead, true, c2, globals, n, n2);
    }
  }

  // ----- everything allowed is asked for by some bytes -----

  /** Which no-op, or none. */
  predicate IsChoice(k: int)
  {
    -1 <= k < |NOOPS|
  }

  function NoopOf(k: int): seq<Stmt>
    requires IsChoice(k)
  {
    if k < 0 then [] else [NOOPS[k]]
  }

  /** Yes or no, and if yes the number of one of `n`. */
  function AskOne(k: int, n: nat): seq<Byte>
  {
    if 0 <= k < n then AskNumber(0, 1) + AskNumber(k, n - 1) else AskNumber(1, 1)
  }

  function AskNoops(ks: seq<int>): seq<Byte>
  {
    if ks == [] then [] else AskOne(ks[0], |NOOPS|) + AskNoops(ks[1..])
  }

  lemma {:induction false} DrawsNoops(data: seq<Byte>, pos: nat, ks: seq<int>)
    requires (forall i :: 0 <= i < |ks| ==> IsChoice(ks[i])) && Has(data, pos, AskNoops(ks))
    ensures DrawnNoops(data, pos, |ks|) == seq(|ks|, i requires 0 <= i < |ks| => NoopOf(ks[i]))
    decreases |ks|
  {
    hide Has, Drawn, IsNoop, DrawnNoop, AskOne, NoopOf;
    if ks != [] {
      var one := AskOne(ks[0], |NOOPS|);
      HasBoth(data, pos, one, AskNoops(ks[1..]));
      DrawsNoop(data, pos, ks[0]);
      DrawsNoops(data, pos + |one|, ks[1..]);
    }
  }

  lemma DrawsNoop(data: seq<Byte>, pos: nat, k: int)
    requires IsChoice(k) && Has(data, pos, AskOne(k, |NOOPS|))
    ensures DrawnNoop(data, pos) == (NoopOf(k), pos + |AskOne(k, |NOOPS|)|)
  {
    hide Has, Drawn, AskNumber;
    if k < 0 {
      DrawsNumber(data, pos, 1, 2, 2);
    } else {
      HasBoth(data, pos, AskNumber(0, 1), AskNumber(k, |NOOPS| - 1));
      DrawsNumber(data, pos, 1, 2, 1);
      DrawsNumber(data, pos + |AskNumber(0, 1)|, 0, |NOOPS| - 1, k);
    }
  }

  /** Every way of putting a no-op, or none, in front of each statement is asked
      for by some bytes. */
  lemma EveryNoops(src: seq<Stmt>, ins: seq<seq<Stmt>>) returns (tail: seq<Byte>)
    requires |ins| == |src| && forall i :: 0 <= i < |ins| ==> IsNoop(ins[i])
    ensures DrawnNoops(tail, 0, |src|) == ins
  {
    hide IsNoop, AskOne, DrawnNoops, NoopOf;
    var ks := seq(|ins|, i requires 0 <= i < |ins| => WhichNoop(ins[i]));
    forall i | 0 <= i < |ins| ensures IsChoice(ks[i]) && NoopOf(ks[i]) == ins[i] {
      WhichIs(ins[i]);
    }
    tail := AskNoops(ks);
    assert tail[0..0 + |tail|] == tail;
    DrawsNoops(tail, 0, ks);
    assert seq(|ks|, i requires 0 <= i < |ks| => NoopOf(ks[i])) == ins;
  }

  function WhichNoop(ss: seq<Stmt>): int
  {
    if ss == [] then -1
    else if ss[0] == NOOPS[0] then 0 else if ss[0] == NOOPS[1] then 1 else if ss[0] == NOOPS[2] then 2 else 3
  }

  lemma WhichIs(ss: seq<Stmt>)
    requires IsNoop(ss)
    ensures IsChoice(WhichNoop(ss)) && NoopOf(WhichNoop(ss)) == ss
  {
    if ss != [] {
      assert ss == [ss[0]];
    }
  }

  /** Which statement to bury, and how, or none. */
  datatype Burial = Unburied | Dig(n: nat, once: bool)

  predicate Within(b: Burial, pool: seq<Stmt>)
  {
    b.Dig? ==> b.n < |pool|
  }

  function BurialOf(b: Burial, pool: seq<Stmt>): seq<Stmt>
    requires Within(b, pool)
  {
    match b
    case Unburied => []
    case Dig(n, once) => [Bury(pool[n], once)]
  }

  function AskBurial(b: Burial, n: nat): seq<Byte>
    requires n > 0
  {
    match b
    case Unburied => AskNumber(1, 1)
    case Dig(k, once) => AskNumber(0, 1) + (AskNumber(k, n - 1) + AskNumber(if once then 0 else 1, 1))
  }

  function AskBurials(bs: seq<Burial>, pool: seq<Stmt>): seq<Byte>
    requires pool != []
  {
    if bs == [] then [] else AskBurial(bs[0], |pool|) + AskBurials(bs[1..], pool)
  }

  lemma DrawsBurial(pool: seq<Stmt>, data: seq<Byte>, pos: nat, b: Burial)
    requires pool != [] && Within(b, pool) && Has(data, pos, AskBurial(b, |pool|))
    ensures DrawnDead(pool, data, pos) == (BurialOf(b, pool), pos + |AskBurial(b, |pool|)|)
  {
    hide Has, Drawn, AskNumber, Bury, IsDead, DrawnDead;
    match b
    case Unburied =>
      DrawsNumber(data, pos, 1, 2, 2);
      NotDrawn(pool, data, pos);
    case Dig(n, once) => DrawsDig(pool, data, pos, n, once);
  }

  lemma NotDrawn(pool: seq<Stmt>, data: seq<Byte>, pos: nat)
    requires pool != [] && Drawn(data, pos, 1, 2).0 == 2
    ensures DrawnDead(pool, data, pos) == ([], Drawn(data, pos, 1, 2).1)
  {
    hide Drawn, Bury, IsDead;
  }

  lemma DrawsDig(pool: seq<Stmt>, data: seq<Byte>, pos: nat, n: nat, once: bool)
    requires n < |pool|
    requires Has(data, pos, AskNumber(0, 1) + (AskNumber(n, |pool| - 1) + AskNumber(if once then 0 else 1, 1)))
    ensures DrawnDead(pool, data, pos) == ([Bury(pool[n], once)],
      pos + |AskNumber(0, 1) + (AskNumber(n, |pool| - 1) + AskNumber(if once then 0 else 1, 1))|)
  {
    hide Has, Drawn, AskNumber, Bury, IsDead, DrawnDead;
    var s := if once then 0 else 1;
    var yes, which, shape := AskNumber(0, 1), AskNumber(n, |pool| - 1), AskNumber(s, 1);
    HasBoth(data, pos, yes, which + shape);
    HasBoth(data, pos + |yes|, which, shape);
    DrawsNumber(data, pos, 1, 2, 1);
    DrawsNumber(data, pos + |yes|, 0, |pool| - 1, n);
    DrawsNumber(data, pos + |yes| + |which|, 0, 1, s);
    DeadIs(pool, data, pos, pos + |yes|, n, pos + |yes| + |which|, s, pos + |yes| + |which| + |shape|);
  }

  lemma DeadIs(pool: seq<Stmt>, data: seq<Byte>, pos: nat, p: nat, n: nat, q: nat, s: nat, q1: nat)
    requires pool != [] && Drawn(data, pos, 1, 2) == (1, p)
    requires Drawn(data, p, 0, |pool| - 1) == (n, q) && Drawn(data, q, 0, 1) == (s, q1)
    ensures n < |pool| && DrawnDead(pool, data, pos) == ([Bury(pool[n], s == 0)], q1)
  {
    hide Drawn, Bury, IsDead;
  }

  lemma {:induction false} DrawsBurials(pool: seq<Stmt>, data: seq<Byte>, pos: nat, bs: seq<Burial>)
    requires pool != [] && (forall i :: 0 <= i < |bs| ==> Within(bs[i], pool)) && Has(data, pos, AskBurials(bs, pool))
    ensures DrawnDeads(pool, data, pos, |bs|) == seq(|bs|, i requires 0 <= i < |bs| => BurialOf(bs[i], pool))
    decreases |bs|
  {
    hide Has, Drawn, IsDead, DrawnDead, AskBurial, BurialOf;
    if bs != [] {
      var one := AskBurial(bs[0], |pool|);
      HasBoth(data, pos, one, AskBurials(bs[1..], pool));
      DrawsBurial(pool, data, pos, bs[0]);
      DrawsBurials(pool, data, pos + |one|, bs[1..]);
    }
  }

  /** What can be buried once a script is chosen. */
  function PoolOf(corpus: seq<seq<Stmt>>, script: nat): (pool: seq<Stmt>)
    requires corpus != [] ==> script < |corpus|
    ensures pool != []
  {
    if corpus == [] then [RAISE, Return(Lit(LData(42)))]
    else if corpus[script] == [] then [RAISE] else corpus[script]
  }

  /** Every way of burying statements of one script of the corpus, each in either
      form, in front of any of the statements is asked for by some bytes. */
  lemma EveryBurials(corpus: seq<seq<Stmt>>, script: nat, bs: seq<Burial>) returns (tail: seq<Byte>)
    requires corpus != [] ==> script < |corpus|
    requires forall i :: 0 <= i < |bs| ==> Within(bs[i], PoolOf(corpus, script))
    ensures var (pool, p) := DrawnPool(corpus, tail);
      && pool == PoolOf(corpus, script)
      && DrawnDeads(pool, tail, p, |bs|) == seq(|bs|, i requires 0 <= i < |bs| => BurialOf(bs[i], pool))
  {
    hide Drawn, AskNumber, DrawnDeads, BurialOf, AskBurials;
    var pool := PoolOf(corpus, script);
    var first := if corpus == [] then [] else AskNumber(script, |corpus| - 1);
    tail := first + AskBurials(bs, pool);
    assert tail[0..0 + |tail|] == tail;
    HasBoth(tail, 0, first, AskBurials(bs, pool));
    if corpus != [] {
      DrawsNumber(tail, 0, 0, |corpus| - 1, script);
    }
    DrawsBurials(pool, tail, |first|, bs);
  }
}
