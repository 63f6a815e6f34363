/** Programs as trees: the tokens that a tree stands for, and the tree that bytes
  ask for.
 */
module Trees {
  import opened Bytes
  import opened Layout
  import Lexing

  type NameId = i: nat | i < 11
  type GlobalId = i: nat | i < 5
  type UnaryId = i: nat | i < 3
  type BinaryId = i: nat | i < 15
  type UpdateId = i: nat | i < 7
  type LetterId = i: nat | i < 15

  datatype Atom = Whole(n: nat) | Decimal(n: nat, f: nat) | True | False | Nil | Text(ks: seq<LetterId>)

  datatype Callee = Global(g: GlobalId) | Local(i: NameId) | Method(i: NameId, m: NameId)

  datatype Exp =
    | Literal(a: Atom)
    | Named(i: NameId)
    | Binary(l: Exp, op: BinaryId, r: Exp)
    | Unary(u: UnaryId, e: Exp)
    | Grouped(e: Exp)
    | TableOf(fields: seq<Field>)
    | Item(i: NameId, k: Exp)
    | Member(i: NameId, m: NameId)
    | CallOf(f: Callee, args: seq<Exp>)
    | FunctionOf(params: seq<NameId>, body: Blk)

  datatype Field = Listed(e: Exp) | Keyed(i: NameId, e: Exp) | Computed(k: Exp, e: Exp)

  datatype Stm =
    | LocalOf(i: NameId, e: Exp)
    | Update(i: NameId, op: UpdateId, e: Exp)
    | IfDo(c: Exp, yes: Blk, no: Otherwise)
    | WhileDo(c: Exp, body: Blk)
    | ForDo(i: NameId, lo: Exp, hi: Exp, step: Stride, body: Blk)
    | RepeatUntil(body: Blk, c: Exp)
    | DoEnd(body: Blk)
    | Declare(local: bool, i: NameId, params: seq<NameId>, body: Blk)
    | CallStm(f: Callee, args: seq<Exp>)
    | BreakStm
    | ContinueStm

  datatype Otherwise = NoElse | ElseDo(b: Blk)

  datatype Stride = ByOne | By(e: Exp)

  datatype Blk = Blk(stms: seq<Stm>, ret: Ret)

  datatype Ret = NoReturn | Bare | Value(e: Exp)

  // ----- what a tree stands for: its tokens behind others -----

  function NameToken(i: NameId): Token { Word(NAMES[i]) }

  function LettersOf(ks: seq<LetterId>): string
  {
    if ks == [] then "" else LettersOf(ks[..|ks| - 1]) + [LETTERS[ks[|ks| - 1]]]
  }

  function AtomToken(a: Atom): Token
  {
    match a
    case Whole(n) => Number(Lexing.Numeral(n))
    case Decimal(n, f) => Number(Lexing.Numeral(n) + "." + Lexing.Numeral(f))
    case True => Word("true")
    case False => Word("false")
    case Nil => Word("nil")
    case Text(ks) => Quoted(LettersOf(ks))
  }

  function OnOperator(ts: seq<Token>, op: string): seq<Token>
  {
    ts + [Gap] + [Operator(op)] + [Gap]
  }

  function OnComma(ts: seq<Token>): seq<Token>
  {
    ts + [Mark(",")] + [Gap]
  }

  function OnUnary(ts: seq<Token>, u: UnaryId): seq<Token>
  {
    if u == 0 then ts + [Mark("-")] else if u == 1 then ts + [Word("not")] + [Gap] else ts + [Mark("#")]
  }

  function OnCallee(ts: seq<Token>, f: Callee): seq<Token>
  {
    match f
    case Global(g) => ts + [Word(SAFE_GLOBALS[g])]
    case Local(i) => ts + [NameToken(i)]
    case Method(i, m) => ts + [NameToken(i)] + [Mark(":")] + [NameToken(m)]
  }

  function OnNames(ts: seq<Token>, ns: seq<NameId>): seq<Token>
  {
    if ns == [] then ts
    else
      var n := |ns| - 1;
      var before := OnNames(ts, ns[..n]);
      (if n > 0 then OnComma(before) else before) + [NameToken(ns[n])]
  }

  function OnParams(ts: seq<Token>, ns: seq<NameId>): seq<Token>
  {
    OnNames(ts + [Open(Paren)], ns) + [Close(Paren)]
  }

  function OnHead(ts: seq<Token>, i: NameId): seq<Token>
  {
    OnOperator(ts + [NameToken(i)], "=")
  }

  function OnExp(ts: seq<Token>, e: Exp): seq<Token>
    decreases e, 0
  {
    match e
    case Literal(a) => ts + [AtomToken(a)]
    case Named(i) => ts + [NameToken(i)]
    case Binary(l, op, r) => OnExp(OnOperator(OnExp(ts, l), BINARY[op]), r)
    case Unary(u, a) => OnExp(OnUnary(ts, u), a)
    case Grouped(a) => OnExp(ts + [Open(Paren)], a) + [Close(Paren)]
    case TableOf(fs) => OnFields(ts + [Open(Brace)], fs) + [Close(Brace)]
    case Item(i, k) => OnExp(ts + [NameToken(i)] + [Open(Square)], k) + [Close(Square)]
    case Member(i, m) => ts + [NameToken(i)] + [Mark(".")] + [NameToken(m)]
    case CallOf(f, args) => OnExps(OnCallee(ts, f) + [Open(Paren)], args) + [Close(Paren)]
    case FunctionOf(ps, body) => OnBlk(OnParams(ts + [Token.Function], ps) + [Gap], body) + [Gap] + [End]
  }

  function OnExps(ts: seq<Token>, es: seq<Exp>): seq<Token>
    decreases es, 0
  {
    if es == [] then ts
    else
      var n := |es| - 1;
      var before := OnExps(ts, es[..n]);
      OnExp(if n > 0 then OnComma(before) else before, es[n])
  }

  function OnField(ts: seq<Token>, f: Field): seq<Token>
    decreases f, 0
  {
    match f
    case Listed(e) => OnExp(ts, e)
    case Keyed(i, e) => OnExp(OnHead(ts, i), e)
    case Computed(k, e) => OnExp(OnOperator(OnExp(ts + [Open(Square)], k) + [Close(Square)], "="), e)
  }

  function OnFields(ts: seq<Token>, fs: seq<Field>): seq<Token>
    decreases fs, 0
  {
    if fs == [] then ts
    else
      var n := |fs| - 1;
      var before := OnFields(ts, fs[..n]);
      OnField(if n > 0 then OnComma(before) else before, fs[n])
  }

  /** The body of a loop, from the space in front of `do`. */
  function OnLoop(ts: seq<Token>, body: Blk): seq<Token>
    decreases body, 1
  {
    OnBlk(ts + [Gap] + [Do] + [Newline], body) + [End]
  }

  function OnStm(ts: seq<Token>, s: Stm): seq<Token>
    decreases s, 1
  {
    match s
    case LocalOf(i, e) => OnExp(OnHead(ts + [Word("local")] + [Gap], i), e)
    case Update(i, op, e) => OnExp(OnOperator(ts + [NameToken(i)], UPDATES[op]), e)
    case IfDo(c, yes, no) => OnElse(OnBlk(OnExp(ts + [If] + [Gap], c) + [Gap] + [Then] + [Newline], yes), no)
    case WhileDo(c, body) => OnLoop(OnExp(ts + [While] + [Gap], c), body)
    case ForDo(i, lo, hi, step, body) =>
      OnLoop(OnStride(OnExp(OnComma(OnExp(OnHead(ts + [For] + [Gap], i), lo)), hi), step), body)
    case RepeatUntil(body, c) => OnExp(OnBlk(ts + [Repeat] + [Newline], body) + [Until] + [Gap], c)
    case DoEnd(body) => OnBlk(ts + [Do] + [Newline], body) + [End]
    case Declare(local, _, _, _) => OnDeclared(if local then ts + [Word("local")] + [Gap] else ts, s)
    case CallStm(f, args) => OnExps(OnCallee(ts, f) + [Open(Paren)], args) + [Close(Paren)]
    case BreakStm => ts + [Break]
    case ContinueStm => ts + [Continue]
  }

  function OnElse(ts: seq<Token>, no: Otherwise): seq<Token>
    decreases no, 0
  {
    match no
    case NoElse => ts + [End]
    case ElseDo(b) => OnBlk(ts + [Else] + [Newline], b) + [End]
  }

  /** A declared function, from its keyword on. */
  function OnDeclared(ts: seq<Token>, s: Stm): seq<Token>
    requires s.Declare?
    decreases s, 0
  {
    OnBlk(OnParams(ts + [Token.Function] + [Gap] + [NameToken(s.i)], s.params) + [Newline], s.body) + [End]
  }

  function OnStride(ts: seq<Token>, step: Stride): seq<Token>
    decreases step, 0
  {
    match step
    case ByOne => ts
    case By(e) => OnExp(OnComma(ts), e)
  }

  function OnStms(ts: seq<Token>, ss: seq<Stm>): seq<Token>
    decreases ss, 0
  {
    if ss == [] then ts else OnStm(OnStms(ts, ss[..|ss| - 1]), ss[|ss| - 1]) + [Newline]
  }

  function OnRet(ts: seq<Token>, r: Ret): seq<Token>
    decreases r, 0
  {
    match r
    case NoReturn => ts
    case Bare => ts + [Return] + [Newline]
    case Value(e) => OnExp(ts + [Return] + [Gap], e) + [Newline]
  }

  function OnBlk(ts: seq<Token>, b: Blk): seq<Token>
    decreases b, 0
  {
    OnRet(OnStms(ts, b.stms), b.ret)
  }

  /** The tokens of a program. */
  function Program(b: Blk): seq<Token>
  {
    OnBlk([], b)
  }

  // ----- the trees of the grammar -----

  predicate ProperAtom(a: Atom)
  {
    match a
    case Whole(n) => n < 1000
    case Decimal(n, f) => n < 1000 && f < 100
    case Text(ks) => |ks| <= 5
    case _ => true
  }

  predicate ProperExp(e: Exp)
    decreases e, 0
  {
    match e
    case Literal(a) => ProperAtom(a)
    case Named(_) => true
    case Binary(l, _, r) => ProperExp(l) && ProperExp(r)
    case Unary(_, a) => ProperExp(a)
    case Grouped(a) => ProperExp(a)
    case TableOf(fs) => |fs| <= 3 && ProperFields(fs)
    case Item(_, k) => ProperExp(k)
    case Member(_, _) => true
    case CallOf(_, args) => |args| <= 2 && ProperExps(args)
    case FunctionOf(ps, body) => |ps| <= 2 && ProperBlk(body, 2, false)
  }

  predicate ProperExps(es: seq<Exp>)
    decreases es, 0
  {
    forall i :: 0 <= i < |es| ==> ProperExp(es[i])
  }

  predicate ProperField(f: Field)
    decreases f, 0
  {
    match f
    case Listed(e) => ProperExp(e)
    case Keyed(_, e) => ProperExp(e)
    case Computed(k, e) => ProperExp(k) && ProperExp(e)
  }

  predicate ProperFields(fs: seq<Field>)
    decreases fs, 0
  {
    forall i :: 0 <= i < |fs| ==> ProperField(fs[i])
  }

  /** `break` and `continue` stand in loops of the same function. */
  predicate ProperStm(s: Stm, inLoop: bool)
    decreases s, 0
  {
    match s
    case LocalOf(_, e) => ProperExp(e)
    case Update(_, _, e) => ProperExp(e)
    case IfDo(c, yes, no) =>
      ProperExp(c) && ProperBlk(yes, 2, inLoop) && (no.ElseDo? ==> ProperBlk(no.b, 2, inLoop))
    case WhileDo(c, body) => ProperExp(c) && ProperBlk(body, 2, true)
    case ForDo(_, lo, hi, step, body) =>
      ProperExp(lo) && ProperExp(hi) && (step.By? ==> ProperExp(step.e)) && ProperBlk(body, 2, true)
    case RepeatUntil(body, c) => ProperBlk(body, 2, true) && ProperExp(c)
    case DoEnd(body) => ProperBlk(body, 2, inLoop)
    case Declare(_, _, ps, body) => |ps| <= 2 && ProperBlk(body, 3, false)
    case CallStm(f, args) => !f.Method? && |args| <= 2 && ProperExps(args)
    case BreakStm => inLoop
    case ContinueStm => inLoop
  }

  predicate ProperStms(ss: seq<Stm>, inLoop: bool)
    decreases ss, 0
  {
    forall i :: 0 <= i < |ss| ==> ProperStm(ss[i], inLoop)
  }

  predicate ProperBlk(b: Blk, max: nat, inLoop: bool)
    decreases b, 0
  {
    |b.stms| <= max && ProperStms(b.stms, inLoop) && (b.ret.Value? ==> ProperExp(b.ret.e))
  }

  /** The tokens of some program of the grammar. */
  ghost predicate IsProgram(ts: seq<Token>)
  {
    exists b: Blk :: ProperBlk(b, 6, false) && ts == Program(b)
  }

  // ----- the tree that bytes ask for -----

  /** What was asked for, how far the bytes are read, and what is left of the budget. */
  datatype Drew<T> = Drew(v: T, pos: nat, budget: int)

  function Positive(n: int): nat
  {
    if n < 0 then 0 else n
  }

  function Choice(data: seq<Byte>, pos: nat, n: nat): (r: (nat, nat))
    requires n > 0
    ensures r.0 < n
  {
    if n <= 1 then (0, pos) else var d := Drawn(data, pos, 0, n - 1); (d.0, d.1)
  }

  function DrawName(data: seq<Byte>, pos: nat): (NameId, nat)
  {
    var (i, p) := Choice(data, pos, 11);
    (i, p)
  }

  function DrawLetters(data: seq<Byte>, pos: nat, n: nat): (r: (seq<LetterId>, nat))
    ensures |r.0| == n
  {
    if n == 0 then ([], pos)
    else
      var (ks, p) := DrawLetters(data, pos, n - 1);
      var (k, q) := Choice(data, p, 15);
      (ks + [k], q)
  }

  function DrawNames(data: seq<Byte>, pos: nat, n: nat): (r: (seq<NameId>, nat))
    ensures |r.0| == n
  {
    if n == 0 then ([], pos)
    else
      var (ns, p) := DrawNames(data, pos, n - 1);
      var (i, q) := DrawName(data, p);
      (ns + [i], q)
  }

  function DrawAtom(data: seq<Byte>, pos: nat): (r: (Atom, nat))
    ensures ProperAtom(r.0)
  {
    var (c, p) := Choice(data, pos, 6);
    if c == 0 then var (n, q) := Choice(data, p, 1000); (Whole(n), q)
    else if c == 1 then
      var (n, q) := Choice(data, p, 1000);
      var (f, s) := Choice(data, q, 100);
      (Decimal(n, f), s)
    else if c == 2 then (True, p)
    else if c == 3 then (False, p)
    else if c == 4 then (Nil, p)
    else
      var (n, q) := Choice(data, p, 6);
      var (ks, s) := DrawLetters(data, q, n);
      (Text(ks), s)
  }

  /** A call counts against the budget; without one, only an atom is made. */
  function DrawExp(data: seq<Byte>, pos: nat, budget: int): (r: Drew<Exp>)
    ensures r.budget < budget && ProperExp(r.v)
    decreases Positive(budget), 0, 0
  {
    if budget <= 1 then var (a, p) := DrawAtom(data, pos); Drew(Literal(a), p, budget - 1)
    else var (c, p) := Choice(data, pos, 10); DrawKind(data, p, budget - 1, c)
  }

  function DrawKind(data: seq<Byte>, pos: nat, budget: int, c: nat): (r: Drew<Exp>)
    ensures r.budget <= budget && ProperExp(r.v)
    decreases Positive(budget), 5, 0
  {
    if c <= 1 then var (a, p) := DrawAtom(data, pos); Drew(Literal(a), p, budget)
    else if c == 2 then var (i, p) := DrawName(data, pos); Drew(Named(i), p, budget)
    else if c == 3 then DrawBinary(data, pos, budget)
    else if c == 4 then
      var (u, p) := Choice(data, pos, 3);
      var e := DrawExp(data, p, budget);
      Drew(Unary(u, e.v), e.pos, e.budget)
    else if c == 5 then var e := DrawExp(data, pos, budget); Drew(Grouped(e.v), e.pos, e.budget)
    else if c == 6 then DrawTable(data, pos, budget)
    else if c == 7 then DrawAccess(data, pos, budget)
    else if c == 8 then DrawCall(data, pos, budget)
    else DrawFunction(data, pos, budget)
  }

  function DrawBinary(data: seq<Byte>, pos: nat, budget: int): (r: Drew<Exp>)
    ensures r.budget <= budget && ProperExp(r.v)
    decreases Positive(budget), 4, 0
  {
    var a := DrawExp(data, pos, budget);
    var (op, p) := Choice(data, a.pos, 15);
    var b := DrawExp(data, p, a.budget);
    Drew(Binary(a.v, op, b.v), b.pos, b.budget)
  }

  function DrawTable(data: seq<Byte>, pos: nat, budget: int): (r: Drew<Exp>)
    ensures r.budget <= budget && ProperExp(r.v)
    decreases Positive(budget), 4, 0
  {
    var (n, p) := Choice(data, pos, 4);
    var fs := DrawFields(data, p, budget, n);
    Drew(TableOf(fs.v), fs.pos, fs.budget)
  }

  function DrawField(data: seq<Byte>, pos: nat, budget: int): (r: Drew<Field>)
    ensures r.budget <= budget && ProperField(r.v)
    decreases Positive(budget), 1, 0
  {
    var (d, p) := Choice(data, pos, 3);
    if d == 1 then
      var (i, q) := DrawName(data, p);
      var e := DrawExp(data, q, budget);
      Drew(Keyed(i, e.v), e.pos, e.budget)
    else if d == 2 then
      var k := DrawExp(data, p, budget);
      var e := DrawExp(data, k.pos, k.budget);
      Drew(Computed(k.v, e.v), e.pos, e.budget)
    else
      var e := DrawExp(data, p, budget);
      Drew(Listed(e.v), e.pos, e.budget)
  }

  function DrawFields(data: seq<Byte>, pos: nat, budget: int, n: nat): (r: Drew<seq<Field>>)
    ensures r.budget <= budget && |r.v| == n && ProperFields(r.v)
    decreases Positive(budget), 2, n
  {
    if n == 0 then Drew([], pos, budget)
    else
      var fs := DrawFields(data, pos, budget, n - 1);
      var f := DrawField(data, fs.pos, fs.budget);
      Drew(fs.v + [f.v], f.pos, f.budget)
  }

  /** The item of a table, or a member by name. */
  function DrawAccess(data: seq<Byte>, pos: nat, budget: int): (r: Drew<Exp>)
    ensures r.budget <= budget && ProperExp(r.v)
    decreases Positive(budget), 4, 0
  {
    var (i, p) := DrawName(data, pos);
    var (d, q) := Choice(data, p, 2);
    if d == 0 then var k := DrawExp(data, q, budget); Drew(Item(i, k.v), k.pos, k.budget)
    else var (m, s) := DrawName(data, q); Drew(Member(i, m), s, budget)
  }

  function DrawExps(data: seq<Byte>, pos: nat, budget: int, n: nat): (r: Drew<seq<Exp>>)
    ensures r.budget <= budget && |r.v| == n && ProperExps(r.v)
    decreases Positive(budget), 1, n
  {
    if n == 0 then Drew([], pos, budget)
    else
      var es := DrawExps(data, pos, budget, n - 1);
      var e := DrawExp(data, es.pos, es.budget);
      Drew(es.v + [e.v], e.pos, e.budget)
  }

  function DrawArgs(data: seq<Byte>, pos: nat, budget: int): (r: Drew<seq<Exp>>)
    ensures r.budget <= budget && |r.v| <= 2 && ProperExps(r.v)
    decreases Positive(budget), 2, 0
  {
    var (n, p) := Choice(data, pos, 3);
    DrawExps(data, p, budget, n)
  }

  /** Who is called, among `n` forms. */
  function DrawCallee(data: seq<Byte>, pos: nat, n: nat): (r: (Callee, nat))
    requires 2 <= n <= 3
    ensures n == 2 ==> !r.0.Method?
  {
    var (d, p) := Choice(data, pos, n);
    if d == 0 then var (g, q) := Choice(data, p, 5); (Global(g), q)
    else
      var (i, q) := DrawName(data, p);
      if d == 1 then (Local(i), q)
      else var (m, s) := DrawName(data, q); (Method(i, m), s)
  }

  function DrawCall(data: seq<Byte>, pos: nat, budget: int): (r: Drew<Exp>)
    ensures r.budget <= budget && ProperExp(r.v)
    decreases Positive(budget), 4, 0
  {
    var (f, p) := DrawCallee(data, pos, 3);
    var args := DrawArgs(data, p, budget);
    Drew(CallOf(f, args.v), args.pos, args.budget)
  }

  function DrawParams(data: seq<Byte>, pos: nat): (r: (seq<NameId>, nat))
    ensures |r.0| <= 2
  {
    var (n, p) := Choice(data, pos, 3);
    DrawNames(data, p, n)
  }

  function DrawFunction(data: seq<Byte>, pos: nat, budget: int): (r: Drew<Exp>)
    ensures r.budget <= budget && ProperExp(r.v)
    decreases Positive(budget), 4, 0
  {
    var (ps, p) := DrawParams(data, pos);
    var body := DrawBlk(data, p, budget, 2, false);
    Drew(FunctionOf(ps, body.v), body.pos, body.budget)
  }

  /** Up to `max` statements as long as there is budget, and perhaps a `return`. */
  function DrawBlk(data: seq<Byte>, pos: nat, budget: int, max: nat, inLoop: bool): (r: Drew<Blk>)
    ensures r.budget <= budget && ProperBlk(r.v, max, inLoop)
    decreases Positive(budget), 3, 0
  {
    var (n, p) := Choice(data, pos, max + 1);
    var ss := DrawStms(data, p, budget, n, inLoop);
    var ret := DrawRet(data, ss.pos, ss.budget);
    Drew(Blk(ss.v, ret.v), ret.pos, ret.budget)
  }

  function DrawStms(data: seq<Byte>, pos: nat, budget: int, n: nat, inLoop: bool): (r: Drew<seq<Stm>>)
    ensures r.budget <= budget && |r.v| <= n && ProperStms(r.v, inLoop)
    decreases Positive(budget), 2, n
  {
    if n == 0 then Drew([], pos, budget)
    else
      var ss := DrawStms(data, pos, budget, n - 1, inLoop);
      if ss.budget <= 0 then ss
      else
        var s := DrawStm(data, ss.pos, ss.budget, inLoop);
        Drew(ss.v + [s.v], s.pos, s.budget)
  }

  function DrawRet(data: seq<Byte>, pos: nat, budget: int): (r: Drew<Ret>)
    ensures r.budget <= budget && (r.v.Value? ==> ProperExp(r.v.e))
    decreases Positive(budget), 2, 0
  {
    var (d, p) := Choice(data, pos, 4);
    if d != 0 then Drew(NoReturn, p, budget)
    else
      var (v, q) := Choice(data, p, 2);
      if v != 0 then Drew(Bare, q, budget)
      else var e := DrawExp(data, q, budget); Drew(Value(e.v), e.pos, e.budget)
  }

  function DrawStm(data: seq<Byte>, pos: nat, budget: int, inLoop: bool): (r: Drew<Stm>)
    ensures r.budget < budget && ProperStm(r.v, inLoop)
    decreases Positive(budget), 0, 0
  {
    if budget <= 1 then DrawLast(data, pos, budget - 1)
    else
      var (c, p) := Choice(data, pos, 12);
      if 2 <= c <= 6 then DrawCompound(data, p, budget - 1, c, inLoop)
      else if c == 10 && inLoop then Drew(BreakStm, p, budget - 1)
      else if c == 11 && inLoop then Drew(ContinueStm, p, budget - 1)
      else DrawSimple(data, p, budget - 1, c, inLoop)
  }

  /** What is made without a budget. */
  function DrawLast(data: seq<Byte>, pos: nat, budget: int): (r: Drew<Stm>)
    ensures r.budget == budget && ProperStm(r.v, false) && ProperStm(r.v, true)
  {
    var (i, p) := DrawName(data, pos);
    var (a, q) := DrawAtom(data, p);
    Drew(LocalOf(i, Literal(a)), q, budget)
  }

  /** Statements that hold blocks. */
  function DrawCompound(data: seq<Byte>, pos: nat, budget: int, c: nat, inLoop: bool): (r: Drew<Stm>)
    requires 2 <= c <= 6
    ensures r.budget <= budget && ProperStm(r.v, inLoop)
    decreases Positive(budget), 6, 0
  {
    if c == 2 then DrawIf(data, pos, budget, inLoop)
    else if c == 3 then DrawWhile(data, pos, budget)
    else if c == 4 then DrawFor(data, pos, budget)
    else if c == 5 then DrawRepeat(data, pos, budget)
    else var body := DrawBlk(data, pos, budget, 2, inLoop); Drew(DoEnd(body.v), body.pos, body.budget)
  }

  function DrawIf(data: seq<Byte>, pos: nat, budget: int, inLoop: bool): (r: Drew<Stm>)
    ensures r.budget <= budget && ProperStm(r.v, inLoop)
    decreases Positive(budget), 5, 0
  {
    var e := DrawExp(data, pos, budget);
    var yes := DrawBlk(data, e.pos, e.budget, 2, inLoop);
    var no := DrawElse(data, yes.pos, yes.budget, inLoop);
    Drew(IfDo(e.v, yes.v, no.v), no.pos, no.budget)
  }

  function DrawElse(data: seq<Byte>, pos: nat, budget: int, inLoop: bool): (r: Drew<Otherwise>)
    ensures r.budget <= budget && (r.v.ElseDo? ==> ProperBlk(r.v.b, 2, inLoop))
    decreases Positive(budget), 4, 0
  {
    var (d, p) := Choice(data, pos, 2);
    if d != 0 then Drew(NoElse, p, budget)
    else var b := DrawBlk(data, p, budget, 2, inLoop); Drew(ElseDo(b.v), b.pos, b.budget)
  }

  function DrawWhile(data: seq<Byte>, pos: nat, budget: int): (r: Drew<Stm>)
    ensures r.budget <= budget && ProperStm(r.v, false)
    ensures ProperStm(r.v, true)
    decreases Positive(budget), 4, 0
  {
    var e := DrawExp(data, pos, budget);
    var body := DrawBlk(data, e.pos, e.budget, 2, true);
    Drew(WhileDo(e.v, body.v), body.pos, body.budget)
  }

  function DrawFor(data: seq<Byte>, pos: nat, budget: int): (r: Drew<Stm>)
    ensures r.budget <= budget && ProperStm(r.v, false)
    ensures ProperStm(r.v, true)
    decreases Positive(budget), 4, 0
  {
    var (i, p) := DrawName(data, pos);
    var lo := DrawExp(data, p, budget);
    var hi := DrawExp(data, lo.pos, lo.budget);
    var step := DrawStride(data, hi.pos, hi.budget);
    var body := DrawBlk(data, step.pos, step.budget, 2, true);
    Drew(ForDo(i, lo.v, hi.v, step.v, body.v), body.pos, body.budget)
  }

  function DrawStride(data: seq<Byte>, pos: nat, budget: int): (r: Drew<Stride>)
    ensures r.budget <= budget && (r.v.By? ==> ProperExp(r.v.e))
    decreases Positive(budget), 1, 0
  {
    var (d, p) := Choice(data, pos, 2);
    if d != 0 then Drew(ByOne, p, budget)
    else var e := DrawExp(data, p, budget); Drew(By(e.v), e.pos, e.budget)
  }

  function DrawRepeat(data: seq<Byte>, pos: nat, budget: int): (r: Drew<Stm>)
    ensures r.budget <= budget && ProperStm(r.v, false)
    ensures ProperStm(r.v, true)
    decreases Positive(budget), 4, 0
  {
    var body := DrawBlk(data, pos, budget, 2, true);
    var e := DrawExp(data, body.pos, body.budget);
    Drew(RepeatUntil(body.v, e.v), e.pos, e.budget)
  }

  /** Statements without blocks of their own, and declarations of functions. */
  function DrawSimple(data: seq<Byte>, pos: nat, budget: int, c: nat, inLoop: bool): (r: Drew<Stm>)
    ensures r.budget <= budget && ProperStm(r.v, inLoop)
    decreases Positive(budget), 5, 0
  {
    if c == 7 || c == 8 then DrawDeclare(data, pos, budget, c == 7)
    else if c == 9 then
      var (f, p) := DrawCallee(data, pos, 2);
      var args := DrawArgs(data, p, budget);
      Drew(CallStm(f, args.v), args.pos, args.budget)
    else
      var (i, p) := DrawName(data, pos);
      var (op, q) := if c == 1 then Choice(data, p, 7) else (0, p);
      var e := DrawExp(data, q, budget);
      Drew(if c == 0 then LocalOf(i, e.v) else Update(i, op, e.v), e.pos, e.budget)
  }

  function DrawDeclare(data: seq<Byte>, pos: nat, budget: int, local: bool): (r: Drew<Stm>)
    ensures r.budget <= budget && r.v.Declare? && r.v.local == local && ProperStm(r.v, false)
    ensures ProperStm(r.v, true)
    decreases Positive(budget), 4, 0
  {
    var (i, p) := DrawName(data, pos);
    var (ps, q) := DrawParams(data, p);
    var body := DrawBlk(data, q, budget, 3, false);
    Drew(Declare(local, i, ps, body.v), body.pos, body.budget)
  }

  // ----- one more -----

  lemma NoLetters(data: seq<Byte>, pos: nat)
    ensures DrawLetters(data, pos, 0) == ([], pos) && LettersOf([]) == "" && Lexing.Good(Lexing.Quoted(""))
  {
  }

  lemma LettersPush(ks: seq<LetterId>, k: LetterId)
    ensures LettersOf(ks + [k]) == LettersOf(ks) + [LETTERS[k]]
  {
    assert (ks + [k])[..|ks|] == ks;
  }

  lemma NoNames(data: seq<Byte>, pos: nat, ts: seq<Token>)
    ensures DrawNames(data, pos, 0) == ([], pos) && OnNames(ts, []) == ts
  {
  }

  lemma MoreNames(data: seq<Byte>, pos: nat, n: nat, ts: seq<Token>)
    ensures var (ns, p) := DrawNames(data, pos, n);
      var (i, q) := DrawName(data, p);
      && DrawNames(data, pos, n + 1) == (ns + [i], q)
      && OnNames(ts, ns + [i]) == (if n > 0 then OnComma(OnNames(ts, ns)) else OnNames(ts, ns)) + [NameToken(i)]
  {
    var (ns, p) := DrawNames(data, pos, n);
    var i := DrawName(data, p).0;
    assert (ns + [i])[..n] == ns;
  }

  lemma NoExps(data: seq<Byte>, pos: nat, budget: int, ts: seq<Token>)
    ensures DrawExps(data, pos, budget, 0) == Drew([], pos, budget) && OnExps(ts, []) == ts
  {
  }

  lemma MoreExps(data: seq<Byte>, pos: nat, budget: int, n: nat, ts: seq<Token>)
    ensures var es := DrawExps(data, pos, budget, n);
      var e := DrawExp(data, es.pos, es.budget);
      && DrawExps(data, pos, budget, n + 1) == Drew(es.v + [e.v], e.pos, e.budget)
      && OnExps(ts, es.v + [e.v]) == OnExp(if n > 0 then OnComma(OnExps(ts, es.v)) else OnExps(ts, es.v), e.v)
  {
    hide DrawExp, OnExp;
    var es := DrawExps(data, pos, budget, n);
    var e := DrawExp(data, es.pos, es.budget);
    assert (es.v + [e.v])[..n] == es.v;
  }

  lemma NoFields(data: seq<Byte>, pos: nat, budget: int, ts: seq<Token>)
    ensures DrawFields(data, pos, budget, 0) == Drew([], pos, budget) && OnFields(ts, []) == ts
  {
  }

  lemma MoreFields(data: seq<Byte>, pos: nat, budget: int, n: nat, ts: seq<Token>)
    ensures var fs := DrawFields(data, pos, budget, n);
      var f := DrawField(data, fs.pos, fs.budget);
      && DrawFields(data, pos, budget, n + 1) == Drew(fs.v + [f.v], f.pos, f.budget)
      && OnFields(ts, fs.v + [f.v]) == OnField(if n > 0 then OnComma(OnFields(ts, fs.v)) else OnFields(ts, fs.v), f.v)
  {
    hide DrawField, OnField;
    var fs := DrawFields(data, pos, budget, n);
    var f := DrawField(data, fs.pos, fs.budget);
    assert (fs.v + [f.v])[..n] == fs.v;
  }

  lemma NoStms(data: seq<Byte>, pos: nat, budget: int, inLoop: bool, ts: seq<Token>)
    ensures DrawStms(data, pos, budget, 0, inLoop) == Drew([], pos, budget) && OnStms(ts, []) == ts
  {
  }

  lemma MoreStms(data: seq<Byte>, pos: nat, budget: int, n: nat, inLoop: bool, ts: seq<Token>)
    requires DrawStms(data, pos, budget, n, inLoop).budget > 0
    ensures var ss := DrawStms(data, pos, budget, n, inLoop);
      var s := DrawStm(data, ss.pos, ss.budget, inLoop);
      && DrawStms(data, pos, budget, n + 1, inLoop) == Drew(ss.v + [s.v], s.pos, s.budget)
      && OnStms(ts, ss.v + [s.v]) == OnStm(OnStms(ts, ss.v), s.v) + [Newline]
  {
    hide DrawStm, OnStm;
    var ss := DrawStms(data, pos, budget, n, inLoop);
    var s := DrawStm(data, ss.pos, ss.budget, inLoop);
    assert (ss.v + [s.v])[..|ss.v|] == ss.v;
  }

  /** Without budget no more statements are made. */
  lemma {:induction false} DryStms(data: seq<Byte>, pos: nat, budget: int, i: nat, n: nat, inLoop: bool)
    requires i <= n && (i == n || DrawStms(data, pos, budget, i, inLoop).budget <= 0)
    ensures DrawStms(data, pos, budget, n, inLoop) == DrawStms(data, pos, budget, i, inLoop)
    decreases n
  {
    hide DrawStm;
    if i < n {
      DryStms(data, pos, budget, i, n - 1, inLoop);
    }
  }

  // ----- the parts of a tree, drawn and written -----

  lemma BinaryIs(data: seq<Byte>, pos: nat, budget: int, ts: seq<Token>)
    ensures var a := DrawExp(data, pos, budget);
      var (op, p) := Choice(data, a.pos, 15);
      var b := DrawExp(data, p, a.budget);
      var r := DrawBinary(data, pos, budget);
      && (r.pos, r.budget) == (b.pos, b.budget)
      && OnExp(ts, r.v) == OnExp(OnOperator(OnExp(ts, a.v), BINARY[op]), b.v)
  {
    hide DrawExp, OnOperator, ProperExp;
  }

  lemma FunctionIs(data: seq<Byte>, pos: nat, budget: int, ts: seq<Token>)
    ensures var (ps, p) := DrawParams(data, pos);
      var body := DrawBlk(data, p, budget, 2, false);
      var r := DrawFunction(data, pos, budget);
      && (r.pos, r.budget) == (body.pos, body.budget)
      && OnExp(ts, r.v) == OnBlk(OnParams(ts + [Token.Function], ps) + [Gap], body.v) + [Gap] + [End]
  {
    hide DrawBlk, OnBlk, OnParams, ProperExp, ProperBlk;
  }

  lemma DeclareIs(data: seq<Byte>, pos: nat, budget: int, local: bool, ts: seq<Token>)
    ensures var (i, p) := DrawName(data, pos);
      var (ps, q) := DrawParams(data, p);
      var body := DrawBlk(data, q, budget, 3, false);
      var r := DrawDeclare(data, pos, budget, local);
      && (r.pos, r.budget) == (body.pos, body.budget)
      && OnDeclared(ts, r.v)
           == OnBlk(OnParams(ts + [Token.Function] + [Gap] + [NameToken(i)], ps) + [Newline], body.v) + [End]
  {
    hide DrawBlk, OnBlk, OnParams, ProperStm, ProperBlk;
  }

  lemma RepeatIs(data: seq<Byte>, pos: nat, budget: int, ts: seq<Token>)
    ensures var body := DrawBlk(data, pos, budget, 2, true);
      var e := DrawExp(data, body.pos, body.budget);
      var r := DrawRepeat(data, pos, budget);
      && (r.pos, r.budget) == (e.pos, e.budget)
      && OnStm(ts, r.v) == OnExp(OnBlk(ts + [Repeat] + [Newline], body.v) + [Until] + [Gap], e.v)
  {
    hide DrawBlk, OnBlk, DrawExp, OnExp, ProperStm, ProperExp, ProperBlk;
  }

  lemma WhileIs(data: seq<Byte>, pos: nat, budget: int, ts: seq<Token>)
    ensures var e := DrawExp(data, pos, budget);
      var body := DrawBlk(data, e.pos, e.budget, 2, true);
      var r := DrawWhile(data, pos, budget);
      && (r.pos, r.budget) == (body.pos, body.budget)
      && OnStm(ts, r.v) == OnLoop(OnExp(ts + [While] + [Gap], e.v), body.v)
  {
    hide DrawBlk, OnLoop, DrawExp, OnExp, ProperStm, ProperExp, ProperBlk;
  }

  lemma IfIs(data: seq<Byte>, pos: nat, budget: int, inLoop: bool, ts: seq<Token>)
    ensures var e := DrawExp(data, pos, budget);
      var yes := DrawBlk(data, e.pos, e.budget, 2, inLoop);
      var no := DrawElse(data, yes.pos, yes.budget, inLoop);
      var r := DrawIf(data, pos, budget, inLoop);
      && (r.pos, r.budget) == (no.pos, no.budget)
      && OnStm(ts, r.v) == OnElse(OnBlk(OnExp(ts + [If] + [Gap], e.v) + [Gap] + [Then] + [Newline], yes.v), no.v)
  {
    hide DrawBlk, OnBlk, DrawExp, OnExp, DrawElse, OnElse, ProperStm, ProperExp, ProperBlk;
  }

  lemma ForIs(data: seq<Byte>, pos: nat, budget: int, ts: seq<Token>)
    ensures var (i, p) := DrawName(data, pos);
      var lo := DrawExp(data, p, budget);
      var hi := DrawExp(data, lo.pos, lo.budget);
      var step := DrawStride(data, hi.pos, hi.budget);
      var body := DrawBlk(data, step.pos, step.budget, 2, true);
      var r := DrawFor(data, pos, budget);
      && (r.pos, r.budget) == (body.pos, body.budget)
      && OnStm(ts, r.v)
           == OnLoop(OnStride(OnExp(OnComma(OnExp(OnHead(ts + [For] + [Gap], i), lo.v)), hi.v), step.v), body.v)
  {
    hide DrawBlk, OnLoop, DrawExp, OnExp, DrawStride, OnStride, ProperStm, ProperExp, ProperBlk;
  }

  lemma TableIs(data: seq<Byte>, pos: nat, budget: int, ts: seq<Token>)
    ensures var (n, p) := Choice(data, pos, 4);
      var fs := DrawFields(data, p, budget, n);
      var r := DrawTable(data, pos, budget);
      && (r.pos, r.budget) == (fs.pos, fs.budget)
      && OnExp(ts, r.v) == OnFields(ts + [Open(Brace)], fs.v) + [Close(Brace)]
  {
    hide DrawFields, OnFields, ProperExp;
  }
}
