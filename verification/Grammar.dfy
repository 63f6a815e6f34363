/** The grammar-driven program generator: a budgeted recursive emitter, which
  writes the tokens of the tree that the bytes ask for.
 */
module Grammar {
  import opened Basics
  import opened Bytes
  import opened Layout
  import opened Trees
  import Lexing

  const BUDGET := 200

  class Gen {
    const u: Choices
    var out: seq<Token>
    var budget: int
    var loopDepth: nat
    /** Calls of `Expr` and `Stmt`, and those among them that go on. */
    ghost var calls: nat
    ghost var inner: nat

    ghost predicate Valid()
      reads this, u
    {
      && u.Valid()
      && budget == BUDGET - calls && inner <= calls && inner < BUDGET
      && Scan(out).At? && Loops(Scan(out).stack) == loopDepth
      && Laid(out)
    }

    /** What is open now. */
    ghost function Now(): Stack
      reads this
    {
      if Scan(out).At? then Scan(out).stack else []
    }

    /** A word or an expression may be written here. */
    predicate Free()
      reads this
    {
      IsFree(LastOf(out))
    }

    /** What every part of the generator keeps: everything opened is closed again,
        and the calls made are paid for by those that went on, with `own` more. */
    twostate predicate Emits(own: nat)
      reads this, u
    {
      && Valid() && Scan(out) == old(Scan(out)) && loopDepth == old(loopDepth)
      && old(calls) <= calls && old(7 * inner - calls) - own <= 7 * inner - calls
    }

    predicate Stands(ts: seq<Token>, pos: nat, left: int)
      reads this, u
    {
      out == ts && u.pos == pos && budget == left
    }

    constructor (data: seq<Byte>)
      ensures Valid() && fresh(u) && out == [] && calls == 0 && inner == 0 && u.data == data && u.pos == 0
    {
      u := new Choices(data);
      out, budget, loopDepth, calls, inner := [], BUDGET, 0, 0, 0;
    }

    method Push(t: Token)
      requires Laid(out) && Allowed(LastOf(out), t)
      modifies this`out
      ensures out == old(out) + [t] && Scan(out) == Step(old(Scan(out)), t)
      ensures Laid(out) && LastOf(out) == t
    {
      hide Allowed, Laid;
      LaidPush(out, t);
      out := out + [t];
      assert out[..|out| - 1] == old(out);
    }

    /** White space, a bracket, a comma or a colon, which may follow anything. */
    method Put(t: Token)
      requires Laid(out) && IsLoose(t)
      modifies this`out
      ensures out == old(out) + [t] && Scan(out) == Step(old(Scan(out)), t)
      ensures Laid(out) && LastOf(out) == t
    {
      hide Laid, Scan, Step;
      Push(t);
    }

    /** White space. */
    method Space(t: Token)
      requires Valid() && (t.Gap? || t.Newline?)
      modifies this`out
      ensures Emits(0) && Free() && LastOf(out) == t && out == old(out) + [t]
    {
      hide Laid, Scan, Loops;
      Put(t);
    }

    /** A keyword. */
    method Key(t: Token)
      requires Laid(out) && Free() && IsKeyword(t)
      modifies this`out
      ensures out == old(out) + [t] && Scan(out) == Step(old(Scan(out)), t)
      ensures Laid(out) && LastOf(out) == t
    {
      hide Laid, Scan, Step;
      Push(t);
    }

    /** A keyword that opens something. */
    method Begin(t: Token)
      requires Laid(out) && Free() && Scan(out).At? && (t.If? || t.While? || t.For? || t.Repeat? || t.Function?)
      modifies this`out
      ensures Laid(out) && LastOf(out) == t && Scan(out) == At([OpenedBy(t)] + old(Now())) && out == old(out) + [t]
    {
      hide Laid, Scan;
      Key(t);
    }

    /** A keyword that turns what is open on top of `st` into something else. */
    method Turn(t: Token, ghost o: Opener, ghost st: Stack)
      requires Laid(out) && Free() && Scan(out) == At([o] + st) && Turns(t, o)
      modifies this`out
      ensures Laid(out) && LastOf(out) == t && Scan(out) == At([OpenedBy(t)] + st) && out == old(out) + [t]
    {
      hide Laid, Scan;
      Opened(o, st);
      Key(t);
    }

    /** The end of a block that was opened on top of `st`. */
    method Finish(ghost o: Opener, ghost st: Stack)
      requires Laid(out) && Free() && Scan(out) == At([o] + st) && o in {ThenPart, ElsePart, Loop, Block, Body}
      modifies this`out
      ensures Laid(out) && Scan(out) == At(st) && out == old(out) + [End]
    {
      hide Laid, Scan;
      Opened(o, st);
      Key(End);
    }

    /** A word that is no keyword, or a number or string. */
    method Plain(t: Token)
      requires Valid() && Free() && Known(t) && (t.Word? || t.Number? || t.Quoted?)
      modifies this`out
      ensures Emits(0) && LastOf(out) == t && out == old(out) + [t]
    {
      hide Laid, Scan, Loops;
      Push(t);
    }

    method Below(n: nat) returns (r: nat)
      requires u.Valid() && n > 0
      modifies u
      ensures u.Valid() && r < n && (r, u.pos) == Choice(u.data, old(u.pos), n)
    {
      if n <= 1 {
        return 0;
      }
      var x := u.InRange(0, n - 1);
      r := x;
    }

    method Name()
      requires Valid() && Free()
      modifies this`out, u
      ensures Emits(0) && LastOf(out).Word?
      ensures var (i, p) := DrawName(u.data, old(u.pos)); Stands(old(out) + [NameToken(i)], p, old(budget))
    {
      hide Scan, Loops, Laid, Choice;
      var i := Below(|NAMES|);
      NamesAreKnown(i);
      Plain(Word(NAMES[i]));
    }

    predicate Dry()
      reads this
    {
      budget <= 0
    }

    /** A space, an operator and a space. */
    method Between(op: string)
      requires Valid() && Known(Operator(op))
      modifies this`out
      ensures Emits(0) && Free() && out == OnOperator(old(out), op)
    {
      hide Scan, Loops, Laid;
      Space(Gap);
      Push(Operator(op));
      Space(Gap);
    }

    /** A comma and a space. */
    method Comma()
      requires Valid()
      modifies this`out
      ensures Emits(0) && Free() && out == OnComma(old(out))
    {
      hide Scan, Loops, Laid;
      Put(Mark(","));
      Space(Gap);
    }

    /** Who is called: a global, a name or a method, among `n` forms. */
    method Callee(n: nat)
      requires Valid() && Free() && 2 <= n <= 3
      modifies this`out, u
      ensures Emits(0)
      ensures var (f, p) := DrawCallee(u.data, old(u.pos), n); Stands(OnCallee(old(out), f), p, old(budget))
    {
      hide Scan, Loops, Laid, Choice, DrawName;
      var d := Below(n);
      if d == 0 {
        var i := Below(|SAFE_GLOBALS|);
        GlobalsAreKnown(i);
        Plain(Word(SAFE_GLOBALS[i]));
      } else {
        Name();
        if d == 2 {
          Put(Mark(":"));
          Name();
        }
      }
    }

    method Unary()
      requires Valid() && Free()
      modifies this`out, u
      ensures Emits(0) && Free()
      ensures var (op, p) := Choice(u.data, old(u.pos), 3); Stands(OnUnary(old(out), op), p, old(budget))
    {
      hide Scan, Loops, Laid, Choice;
      var i := Below(3);
      if i == 0 {
        Push(Mark("-"));
      } else if i == 1 {
        Plain(Word("not"));
        Space(Gap);
      } else {
        Push(Mark("#"));
      }
    }

    method Atom()
      requires Valid() && Free()
      modifies this`out, u
      ensures Emits(0)
      ensures var (a, p) := DrawAtom(u.data, old(u.pos)); Stands(old(out) + [AtomToken(a)], p, old(budget))
    {
      hide Scan, Loops, Laid, Choice, DrawLetters, LettersOf;
      var c := Below(6);
      if c == 0 {
        var n := Below(1000);
        Lexing.NumeralIsGood(n, 0);
        Plain(Number(Lexing.Numeral(n)));
      } else if c == 1 {
        var n := Below(1000);
        var f := Below(100);
        Lexing.NumeralIsGood(n, f);
        Plain(Number(Lexing.Numeral(n) + "." + Lexing.Numeral(f)));
      } else if c == 2 {
        Plain(Word("true"));
      } else if c == 3 {
        Plain(Word("false"));
      } else if c == 4 {
        Plain(Word("nil"));
      } else {
        var text := Letters();
        Plain(Quoted(text));
      }
    }

    method Letters() returns (text: string)
      requires u.Valid()
      modifies u
      ensures u.Valid() && Lexing.Good(Lexing.Quoted(text))
      ensures var (n, p) := Choice(u.data, old(u.pos), 6);
        var (ks, q) := DrawLetters(u.data, p, n); text == LettersOf(ks) && u.pos == q
    {
      hide Choice, Lexing.Good;
      text := "";
      var length := Below(6);
      ghost var start := u.pos;
      NoLetters(u.data, start);
      for i := 0 to length
        invariant u.Valid() && Lexing.Good(Lexing.Quoted(text))
        invariant var (ks, p) := DrawLetters(u.data, start, i); text == LettersOf(ks) && u.pos == p
      {
        ghost var ks := DrawLetters(u.data, start, i).0;
        var k := Below(|LETTERS|);
        LettersAreGood(text, k);
        LettersPush(ks, k);
        text := text + [LETTERS[k]];
      }
    }

    /** Count a call; it goes on unless the budget is used up. */
    method Enter() returns (on: bool)
      requires Valid()
      modifies this`budget, this`calls, this`inner
      ensures Valid() && calls == old(calls) + 1 && on == !Dry()
      ensures inner == old(inner) + (if on then 1 else 0) && budget == old(budget) - 1
    {
      budget := budget - 1;
      calls := calls + 1;
      on := !Dry();
      if on {
        inner := inner + 1;
      }
    }

    method Expr()
      requires Valid() && Free()
      modifies this, u
      ensures Emits(1)
      ensures var r := DrawExp(u.data, old(u.pos), old(budget)); Stands(OnExp(old(out), r.v), r.pos, r.budget)
      decreases Positive(budget), 1
    {
      hide Scan, Loops, Laid, Choice, DrawAtom, DrawKind, AtomToken;
      var on := Enter();
      if !on {
        Atom();
        return;
      }
      var c := Below(10);
      ExprOf(c);
    }

    /** The kinds of expressions. */
    method ExprOf(c: nat)
      requires Valid() && Free()
      modifies this, u
      ensures Emits(6)
      ensures var r := DrawKind(u.data, old(u.pos), old(budget), c); Stands(OnExp(old(out), r.v), r.pos, r.budget)
      decreases Positive(budget), 6
    {
      hide Scan, Loops, Laid, Choice, DrawExp, DrawAtom, DrawName, DrawBinary, DrawTable, DrawAccess, DrawCall,
           DrawFunction, AtomToken, OnUnary;
      if c <= 1 {
        Atom();
      } else if c == 2 {
        Name();
      } else if c == 3 {
        Binary();
      } else if c == 4 {
        Unary();
        Expr();
      } else if c == 5 {
        InBrackets(Paren);
      } else if c == 6 {
        Table();
      } else if c == 7 {
        Access();
      } else if c == 8 {
        CallExpr();
      } else {
        FuncExpr();
      }
    }

    method Binary()
      requires Valid() && Free()
      modifies this, u
      ensures Emits(2)
      ensures var r := DrawBinary(u.data, old(u.pos), old(budget)); Stands(OnExp(old(out), r.v), r.pos, r.budget)
      decreases Positive(budget), 4
    {
      hide Scan, Loops, Laid, Choice, DrawBinary, DrawExp, OnExp, OnOperator;
      BinaryIs(u.data, u.pos, budget, out);
      Expr();
      var i := Below(|BINARY|);
      BinaryIsKnown(i);
      Between(BINARY[i]);
      Expr();
    }

    /** The item of a table, or a member by name. */
    method Access()
      requires Valid() && Free()
      modifies this, u
      ensures Emits(1)
      ensures var r := DrawAccess(u.data, old(u.pos), old(budget)); Stands(OnExp(old(out), r.v), r.pos, r.budget)
      decreases Positive(budget), 4
    {
      hide Scan, Loops, Laid, Choice, DrawExp, DrawName;
      Name();
      var d := Below(2);
      if d == 0 {
        InBrackets(Square);
      } else {
        Push(Mark("."));
        Name();
      }
    }

    /** A global, a name or a method, called. */
    method CallExpr()
      requires Valid() && Free()
      modifies this, u
      ensures Emits(2)
      ensures var r := DrawCall(u.data, old(u.pos), old(budget)); Stands(OnExp(old(out), r.v), r.pos, r.budget)
      decreases Positive(budget), 3
    {
      hide Scan, Loops, Laid, Choice, DrawExp, DrawCallee, DrawArgs, OnCallee, OnExps;
      Callee(3);
      Args();
    }

    method InBrackets(b: Bracket)
      requires Valid()
      modifies this, u
      ensures Emits(1)
      ensures var r := DrawExp(u.data, old(u.pos), old(budget));
        Stands(OnExp(old(out) + [Open(b)], r.v) + [Close(b)], r.pos, r.budget)
      decreases Positive(budget), 2
    {
      hide Scan, Loops, Laid, Choice, DrawExp, OnExp;
      Opened(Bracketed(b), Now());
      Put(Open(b));
      Expr();
      Put(Close(b));
    }

    /** One field of a table. */
    method Field()
      requires Valid() && Free()
      modifies this, u
      ensures Emits(2)
      ensures var r := DrawField(u.data, old(u.pos), old(budget)); Stands(OnField(old(out), r.v), r.pos, r.budget)
      decreases Positive(budget), 3
    {
      hide Scan, Loops, Laid, Choice, DrawExp, OnExp, DrawName, OnOperator;
      var d := Below(3);
      if d == 1 {
        Name();
        Between("=");
      } else if d == 2 {
        InBrackets(Square);
        Between("=");
      }
      Expr();
    }

    method Table()
      requires Valid()
      modifies this, u
      ensures Emits(6)
      ensures var r := DrawTable(u.data, old(u.pos), old(budget)); Stands(OnExp(old(out), r.v), r.pos, r.budget)
      decreases Positive(budget), 4
    {
      hide Scan, Loops, Laid, Choice, DrawTable, OnExp, DrawField, OnField, OnFields, DrawFields;
      TableIs(u.data, u.pos, budget, out);
      Opened(Bracketed(Brace), Now());
      Put(Open(Brace));
      label begun:
      var n := Below(4);
      ghost var start := u.pos;
      NoFields(u.data, start, budget, out);
      for i := 0 to n
        invariant Valid() && Scan(out) == old@begun(Scan(out)) && loopDepth == old(loopDepth)
        invariant i == 0 ==> Free()
        invariant old(calls) <= calls && old(7 * inner - calls) - 2 * i <= 7 * inner - calls
        invariant var r := DrawFields(u.data, start, old(budget), i);
          Stands(OnFields(old@begun(out), r.v), r.pos, r.budget)
      {
        MoreFields(u.data, start, old(budget), i, old@begun(out));
        if i > 0 {
          Comma();
        }
        Field();
      }
      Put(Close(Brace));
    }

    method Args()
      requires Valid()
      modifies this, u
      ensures Emits(2)
      ensures var r := DrawArgs(u.data, old(u.pos), old(budget));
        Stands(OnExps(old(out) + [Open(Paren)], r.v) + [Close(Paren)], r.pos, r.budget)
      decreases Positive(budget), 2
    {
      hide Scan, Loops, Laid, Choice, DrawExp, OnExp, OnExps, DrawExps;
      Opened(Bracketed(Paren), Now());
      Put(Open(Paren));
      label begun:
      var n := Below(3);
      ghost var start := u.pos;
      NoExps(u.data, start, budget, out);
      for i := 0 to n
        invariant Valid() && Scan(out) == old@begun(Scan(out)) && loopDepth == old(loopDepth)
        invariant i == 0 ==> Free()
        invariant old(calls) <= calls && old(7 * inner - calls) - i <= 7 * inner - calls
        invariant var r := DrawExps(u.data, start, old(budget), i); Stands(OnExps(old@begun(out), r.v), r.pos, r.budget)
      {
        MoreExps(u.data, start, old(budget), i, old@begun(out));
        if i > 0 {
          Comma();
        }
        Expr();
      }
      Put(Close(Paren));
    }

    method Params()
      requires Valid()
      modifies this`out, u
      ensures Emits(0)
      ensures var (ps, p) := DrawParams(u.data, old(u.pos)); Stands(OnParams(old(out), ps), p, old(budget))
    {
      hide Scan, Loops, Laid, Choice, OnNames, DrawNames, DrawName;
      Opened(Bracketed(Paren), Now());
      Put(Open(Paren));
      label begun:
      var n := Below(3);
      ghost var start := u.pos;
      NoNames(u.data, start, out);
      for i := 0 to n
        invariant Valid() && Scan(out) == old@begun(Scan(out)) && (i == 0 ==> Free())
        invariant var (ps, p) := DrawNames(u.data, start, i); Stands(OnNames(old@begun(out), ps), p, old(budget))
      {
        MoreNames(u.data, start, i, old@begun(out));
        if i > 0 {
          Comma();
        }
        Name();
      }
      Put(Close(Paren));
    }

    /** A function without a name, in whose body no loop is open. */
    method FuncExpr()
      requires Valid() && Free()
      modifies this, u
      ensures Emits(3)
      ensures var r := DrawFunction(u.data, old(u.pos), old(budget)); Stands(OnExp(old(out), r.v), r.pos, r.budget)
      decreases Positive(budget), 5
    {
      hide Scan, Loops, Laid, Choice, Step, DrawFunction, DrawBlk, OnExp, OnBlk, DrawParams, OnParams;
      FunctionIs(u.data, u.pos, budget, out);
      ghost var st := Now();
      Opened(Body, st);
      var saved := loopDepth;
      loopDepth := 0;
      Begin(Function);
      Params();
      Space(Gap);
      BlockOf(2);
      Space(Gap);
      Finish(Body, st);
      loopDepth := saved;
    }

    /** Name, parameters and body of a function, from the keyword on. */
    method FuncTail(ghost local: bool)
      requires Valid() && Free()
      modifies this, u
      ensures Emits(4)
      ensures var r := DrawDeclare(u.data, old(u.pos), old(budget), local);
        Stands(OnDeclared(old(out), r.v), r.pos, r.budget)
      decreases Positive(budget), 5
    {
      hide Scan, Loops, Laid, Choice, Step, DrawDeclare, OnDeclared, DrawBlk, OnBlk, DrawParams, OnParams, DrawName;
      DeclareIs(u.data, u.pos, budget, local, out);
      ghost var st := Now();
      Opened(Body, st);
      var saved := loopDepth;
      loopDepth := 0;
      Begin(Function);
      Space(Gap);
      Name();
      Params();
      Space(Newline);
      BlockOf(3);
      Finish(Body, st);
      loopDepth := saved;
    }

    method BlockOf(max: nat)
      requires Valid() && InBlock(Now()) && Free()
      modifies this, u
      ensures Emits(max + 1) && Free()
      ensures var r := DrawBlk(u.data, old(u.pos), old(budget), max, old(loopDepth) > 0);
        Stands(OnBlk(old(out), r.v), r.pos, r.budget)
      decreases Positive(budget), 3
    {
      hide Scan, Loops, Laid, Choice, DrawStms, DrawRet, OnStms, OnRet, DrawStm, OnStm;
      var n := Below(max + 1);
      var i := 0;
      ghost var start, inLoop := u.pos, loopDepth > 0;
      NoStms(u.data, start, budget, inLoop, out);
      while i < n && !Dry()
        invariant 0 <= i <= n && Valid() && Scan(out) == old(Scan(out)) && loopDepth == old(loopDepth) && Free()
        invariant old(calls) <= calls && old(7 * inner - calls) - i <= 7 * inner - calls
        invariant var r := DrawStms(u.data, start, old(budget), i, inLoop);
          Stands(OnStms(old(out), r.v), r.pos, r.budget)
      {
        MoreStms(u.data, start, old(budget), i, inLoop, old(out));
        Stmt();
        Space(Newline);
        i := i + 1;
      }
      DryStms(u.data, start, old(budget), i, n, inLoop);
      Result();
    }

    /** A `return`, sometimes, with or without a value. */
    method Result()
      requires Valid() && Free()
      modifies this, u
      ensures Emits(1) && Free()
      ensures var r := DrawRet(u.data, old(u.pos), old(budget)); Stands(OnRet(old(out), r.v), r.pos, r.budget)
      decreases Positive(budget), 2
    {
      hide Scan, Loops, Laid, Choice, DrawExp, OnExp;
      var r := Below(4);
      if r == 0 {
        Key(Return);
        var v := Below(2);
        if v == 0 {
          Space(Gap);
          Expr();
        }
        Space(Newline);
      }
    }

    /** The body and the end of a loop whose head has been written on top of `st`. */
    method LoopBody(ghost st: Stack)
      requires Valid() && Scan(out) == At([LoopHead] + st)
      modifies this, u
      ensures Valid() && loopDepth == old(loopDepth) && Scan(out) == At(st)
      ensures old(calls) <= calls && old(7 * inner - calls) - 3 <= 7 * inner - calls
      ensures var r := DrawBlk(u.data, old(u.pos), old(budget), 2, true); Stands(OnLoop(old(out), r.v), r.pos, r.budget)
      decreases Positive(budget), 4
    {
      hide Scan, Loops, Laid, Choice, Step, DrawBlk, OnBlk;
      Opened(LoopHead, st);
      Opened(Loop, st);
      Space(Gap);
      Turn(Do, LoopHead, st);
      loopDepth := loopDepth + 1;
      Space(Newline);
      BlockOf(2);
      loopDepth := loopDepth - 1;
      Finish(Loop, st);
    }

    method WhileStmt()
      requires Valid() && Free()
      modifies this, u
      ensures Emits(4)
      ensures var r := DrawWhile(u.data, old(u.pos), old(budget)); Stands(OnStm(old(out), r.v), r.pos, r.budget)
      decreases Positive(budget), 5
    {
      hide Scan, Loops, Laid, Choice, Step, DrawWhile, OnStm, DrawBlk, OnLoop, DrawExp, OnExp;
      WhileIs(u.data, u.pos, budget, out);
      ghost var st := Now();
      Opened(LoopHead, st);
      Begin(While);
      Space(Gap);
      Expr();
      LoopBody(st);
    }

    method ForStmt()
      requires Valid() && Free()
      modifies this, u
      ensures Emits(6)
      ensures var r := DrawFor(u.data, old(u.pos), old(budget)); Stands(OnStm(old(out), r.v), r.pos, r.budget)
      decreases Positive(budget), 5
    {
      hide Scan, Loops, Laid, Choice, Step, DrawFor, OnStm, DrawBlk, OnLoop, DrawExp, OnExp, DrawStride, OnStride,
           DrawName, OnOperator;
      ForIs(u.data, u.pos, budget, out);
      ghost var st := Now();
      Opened(LoopHead, st);
      Begin(For);
      Space(Gap);
      Name();
      Between("=");
      Expr();
      Comma();
      Expr();
      Stride();
      LoopBody(st);
    }

    /** The step of a counting loop, if it has one. */
    method Stride()
      requires Valid()
      modifies this, u
      ensures Emits(1)
      ensures var r := DrawStride(u.data, old(u.pos), old(budget)); Stands(OnStride(old(out), r.v), r.pos, r.budget)
      decreases Positive(budget), 2
    {
      hide Scan, Loops, Laid, Choice, DrawExp, OnExp;
      var d := Below(2);
      if d == 0 {
        Comma();
        Expr();
      }
    }

    method RepeatStmt()
      requires Valid() && Free()
      modifies this, u
      ensures Emits(4)
      ensures var r := DrawRepeat(u.data, old(u.pos), old(budget)); Stands(OnStm(old(out), r.v), r.pos, r.budget)
      decreases Positive(budget), 5
    {
      hide Scan, Loops, Laid, Choice, Step, DrawRepeat, OnStm, DrawBlk, OnBlk, DrawExp, OnExp;
      RepeatIs(u.data, u.pos, budget, out);
      ghost var st := Now();
      Opened(Until_, st);
      Begin(Repeat);
      loopDepth := loopDepth + 1;
      Space(Newline);
      BlockOf(2);
      loopDepth := loopDepth - 1;
      EndRepeat(st);
      Space(Gap);
      Expr();
    }

    method EndRepeat(ghost st: Stack)
      requires Laid(out) && Free() && Scan(out) == At([Until_] + st)
      modifies this`out
      ensures Laid(out) && Scan(out) == At(st) && out == old(out) + [Until]
    {
      hide Laid, Scan;
      Opened(Until_, st);
      Key(Until);
    }

    method IfStmt()
      requires Valid() && InBlock(Now()) && Free()
      modifies this, u
      ensures Emits(7)
      ensures var r := DrawIf(u.data, old(u.pos), old(budget), old(loopDepth) > 0);
        Stands(OnStm(old(out), r.v), r.pos, r.budget)
      decreases Positive(budget), 5
    {
      hide Scan, Loops, Laid, Choice, Step, DrawIf, OnStm, DrawBlk, OnBlk, DrawExp, OnExp, DrawElse, OnElse;
      IfIs(u.data, u.pos, budget, loopDepth > 0, out);
      ghost var st := Now();
      Opened(ThenPart, st);
      Condition(st);
      BlockOf(2);
      EndIf(st);
    }

    /** The head of an `if`, and the branch opened on top of `st`. */
    method Condition(ghost st: Stack)
      requires Valid() && Free() && Scan(out) == At(st)
      modifies this, u
      ensures Valid() && Free() && loopDepth == old(loopDepth) && Scan(out) == At([ThenPart] + st)
      ensures old(calls) <= calls && old(7 * inner - calls) - 1 <= 7 * inner - calls
      ensures var r := DrawExp(u.data, old(u.pos), old(budget));
        Stands(OnExp(old(out) + [If] + [Gap], r.v) + [Gap] + [Then] + [Newline], r.pos, r.budget)
      decreases Positive(budget), 4
    {
      hide Scan, Loops, Laid, Choice, Step, DrawExp, OnExp;
      Opened(IfHead, st);
      Opened(ThenPart, st);
      Begin(If);
      Space(Gap);
      Expr();
      Space(Gap);
      Turn(Then, IfHead, st);
      Space(Newline);
    }

    /** The rest of an `if` whose first branch has been written on top of `st`. */
    method EndIf(ghost st: Stack)
      requires Valid() && Scan(out) == At([ThenPart] + st) && Free() && Loops(st) == loopDepth
      modifies this, u
      ensures Valid() && loopDepth == old(loopDepth) && Scan(out) == At(st)
      ensures old(calls) <= calls && old(7 * inner - calls) - 3 <= 7 * inner - calls
      ensures var r := DrawElse(u.data, old(u.pos), old(budget), old(loopDepth) > 0);
        Stands(OnElse(old(out), r.v), r.pos, r.budget)
      decreases Positive(budget), 4
    {
      hide Scan, Loops, Laid, Choice, Step, DrawBlk, OnBlk;
      Opened(ThenPart, st);
      Opened(ElsePart, st);
      var d := Below(2);
      if d == 0 {
        Turn(Else, ThenPart, st);
        Space(Newline);
        BlockOf(2);
        Finish(ElsePart, st);
      } else {
        Finish(ThenPart, st);
      }
    }

    method DoStmt()
      requires Valid() && InBlock(Now()) && Free()
      modifies this, u
      ensures Emits(3)
      ensures var r := DrawBlk(u.data, old(u.pos), old(budget), 2, old(loopDepth) > 0);
        Stands(OnBlk(old(out) + [Do] + [Newline], r.v) + [End], r.pos, r.budget)
      decreases Positive(budget), 5
    {
      hide Scan, Loops, Laid, Choice, DrawBlk, OnBlk;
      ghost var st := Now();
      Opened(Block, st);
      Key(Do);
      Space(Newline);
      BlockOf(2);
      Finish(Block, st);
    }

    method Stmt()
      requires Valid() && InBlock(Now()) && Free()
      modifies this, u
      ensures Emits(1)
      ensures var r := DrawStm(u.data, old(u.pos), old(budget), old(loopDepth) > 0);
        Stands(OnStm(old(out), r.v), r.pos, r.budget)
      decreases Positive(budget), 1
    {
      hide Scan, Step, Loops, Laid, Choice, DrawLast, DrawCompound, DrawSimple, ProperStm;
      var on := Enter();
      if !on {
        LastStmt();
        return;
      }
      var c := Below(12);
      if 2 <= c <= 6 {
        CompoundStmt(c);
      } else if c == 10 && loopDepth > 0 {
        Jump(Break);
      } else if c == 11 && loopDepth > 0 {
        Jump(Continue);
      } else {
        SimpleStmt(c);
      }
    }

    /** A `break` or a `continue`. */
    method Jump(t: Token)
      requires Valid() && Free() && loopDepth > 0 && (t.Break? || t.Continue?)
      modifies this`out
      ensures Emits(0) && out == old(out) + [t]
    {
      hide Scan, Loops, Laid;
      Key(t);
    }

    /** The only statement that is made without a budget. */
    method LastStmt()
      requires Valid() && Free()
      modifies this`out, u
      ensures Emits(0)
      ensures var r := DrawLast(u.data, old(u.pos), old(budget)); Stands(OnStm(old(out), r.v), r.pos, r.budget)
    {
      hide Scan, Loops, Laid, Choice, DrawName, DrawAtom, AtomToken, OnOperator, ProperStm;
      LocalWord();
      Name();
      Between("=");
      Atom();
    }

    /** Statements that hold blocks. */
    method CompoundStmt(c: nat)
      requires Valid() && InBlock(Now()) && Free() && 2 <= c <= 6
      modifies this, u
      ensures Emits(7)
      ensures var r := DrawCompound(u.data, old(u.pos), old(budget), c, old(loopDepth) > 0);
        Stands(OnStm(old(out), r.v), r.pos, r.budget)
      decreases Positive(budget), 6
    {
      hide Scan, Loops, Laid, DrawIf, DrawWhile, DrawFor, DrawRepeat, DrawBlk, OnBlk;
      if c == 2 {
        IfStmt();
      } else if c == 3 {
        WhileStmt();
      } else if c == 4 {
        ForStmt();
      } else if c == 5 {
        RepeatStmt();
      } else {
        DoStmt();
      }
    }

    method LocalWord()
      requires Valid() && Free()
      modifies this`out
      ensures Emits(0) && Free() && out == old(out) + [Word("local")] + [Gap]
    {
      hide Scan, Loops, Laid;
      Plain(Word("local"));
      Space(Gap);
    }

    /** Statements without blocks of their own, and function declarations. */
    method SimpleStmt(c: nat)
      requires Valid() && Free()
      modifies this, u
      ensures Emits(4)
      ensures var r := DrawSimple(u.data, old(u.pos), old(budget), c, old(loopDepth) > 0);
        Stands(OnStm(old(out), r.v), r.pos, r.budget)
      decreases Positive(budget), 6
    {
      hide Scan, Loops, Laid, Choice, DrawExp, OnExp, DrawCallee, OnCallee, DrawArgs, OnExps, DrawName, DrawDeclare,
           OnDeclared, OnOperator;
      if c == 7 || c == 8 {
        if c == 7 {
          LocalWord();
        }
        FuncTail(c == 7);
      } else if c == 9 {
        Callee(2);
        Args();
      } else {
        AssignStmt(c);
      }
    }

    /** A local with its value, or an assignment. */
    method AssignStmt(c: nat)
      requires Valid() && Free() && !(7 <= c <= 9)
      modifies this, u
      ensures Emits(1)
      ensures var r := DrawSimple(u.data, old(u.pos), old(budget), c, old(loopDepth) > 0);
        Stands(OnStm(old(out), r.v), r.pos, r.budget)
      decreases Positive(budget), 5
    {
      hide Scan, Loops, Laid, Choice, DrawExp, OnExp, DrawName, OnOperator;
      if c == 0 {
        LocalWord();
      }
      Name();
      if c == 1 {
        var i := Below(|UPDATES|);
        UpdateIsKnown(i);
        Between(UPDATES[i]);
      } else {
        Between("=");
      }
      Expr();
    }
  }

  /** For every byte stream a program of the grammar is made, with everything opened closed in
      order, `break` and `continue` only in loops, and a bounded amount of work.
      Its text reads as what was written, and so is well nested, exactly where no
      two minus signs stand side by side, which would start a comment. */
  method Generate(data: seq<Byte>) returns (out: seq<Token>, ghost calls: nat)
    ensures Scan(out) == At([])
    ensures calls <= 1400
    ensures out == Program(DrawBlk(data, 0, BUDGET, 6, false).v) && IsProgram(out)
    ensures Laid(out) && (ReadsBack(out) <==> !TwoMinuses(out)) && (ReadsBack(out) ==> NestedText(SourceOf(out)))
  {
    hide Laid, ReadsBack, TwoMinuses, NestedText, DrawBlk, OnBlk, ProperBlk;
    var g := new Gen(data);
    g.BlockOf(6);
    out, calls := g.out, g.calls;
    TextReads(out);
  }
}
