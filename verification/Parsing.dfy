/** Reading generated expressions back: a parser that climbs operator
  priorities, and the round trip through text.
 */
module Parsing {
  import opened Basics
  import opened Luau
  import opened Lexing
  import opened SourceText
  import Formatting

  datatype Tree = Tree(e: Expr, rest: seq<Token>) | NoTree

  datatype Maybe = Of(n: nat) | Nothing

  /** A numeral without superfluous zeros. */
  function NumberOf(s: string): Maybe
  {
    var v := Formatting.ValueOf(s, 10);
    if v >= 0 && Numeral(v) == s then Of(v) else Nothing
  }

  /** Where the decimal point is, or the end. */
  function Dot(s: string): (k: nat)
    ensures k <= |s|
  {
    if s == [] || s[0] == '.' then 0 else 1 + Dot(s[1..])
  }

  datatype MaybeLiteral = Is(l: Literal) | IsNot

  function LiteralOf(t: Token): MaybeLiteral
  {
    match t
    case Word(s) => if t == TRUE then Is(LBool(true)) else if t == FALSE then Is(LBool(false)) else IsNot
    case Number(s) =>
      var k := Dot(s);
      if k == |s| then var n := NumberOf(s); if n.Of? then Is(WholeData(n.n)) else IsNot
      else
        var a, b := NumberOf(s[..k]), NumberOf(s[k + 1..]);
        if a.Of? && b.Of? && b.n < 1000 then Is(DecimalData(1000 * a.n + b.n)) else IsNot
    case Quoted(s) =>
      if s != [] && s[0] == 's' then var n := NumberOf(s[1..]); if n.Of? then Is(StringData(n.n)) else IsNot else IsNot
    case Mark(_) => IsNot
  }

  /** A variable of the generator, or any other name. */
  function NameOf(s: string): Name
  {
    if s != [] && s[0] == 'v' then var n := NumberOf(s[1..]); if n.Of? then V(n.n) else Ident(s) else Ident(s)
  }

  function FieldOf(s: string): MaybeLiteral
  {
    if s == "floor" then Is(StringData(10)) else if s == "abs" then Is(StringData(11))
    else if s == "ceil" then Is(StringData(12)) else IsNot
  }

  /** How tightly an operator holds what stands left of it; 0 for no operator. */
  function LeftPriority(t: Token): nat
  {
    match t
    case Word(s) => if s == "and" then 2 else if s == "or" then 1 else 0
    case Mark(s) =>
      if s == "+" || s == "-" then 6 else if s == "*" || s == "/" || s == "//" || s == "%" then 7
      else if s == "^" then 10 else if s == ".." then 5 else if s in COMPARISON then 3 else 0
    case _ => 0
  }

  function RightPriority(t: Token): nat
  {
    if t == Mark("^") then 9 else if t == Mark("..") then 4 else LeftPriority(t)
  }

  const UNARY := 8

  function Combine(t: Token, a: Expr, b: Expr): Expr
  {
    if t == Word("and") then And(a, b) else if t == Word("or") then Or(a, b) else Op(t.s, [a, b])
  }

  predicate IsUnaryToken(t: Token) { t == Word("not") || t == Mark("-") || t == Mark("#") }

  function ParseExpr(ts: seq<Token>, limit: nat): (r: Tree)
    ensures r.Tree? ==> |r.rest| < |ts|
    decreases |ts|, 3
  {
    var l := ParseSimple(ts);
    if l.NoTree? then NoTree else ParseMore(l.e, l.rest, limit)
  }

  function ParseMore(left: Expr, ts: seq<Token>, limit: nat): (r: Tree)
    ensures r.Tree? ==> |r.rest| <= |ts|
    decreases |ts|, 0
  {
    if ts == [] || LeftPriority(ts[0]) <= limit then Tree(left, ts)
    else
      var r := ParseExpr(ts[1..], RightPriority(ts[0]));
      if r.NoTree? then NoTree else ParseMore(Combine(ts[0], left, r.e), r.rest, limit)
  }

  function ParseSimple(ts: seq<Token>): (r: Tree)
    ensures r.Tree? ==> |r.rest| < |ts|
    decreases |ts|, 2
  {
    if ts == [] then NoTree
    else if IsUnaryToken(ts[0]) then
      var r := ParseExpr(ts[1..], UNARY);
      if r.NoTree? then NoTree else Tree(Op(ts[0].s, [r.e]), r.rest)
    else if LiteralOf(ts[0]).Is? then Tree(Lit(LiteralOf(ts[0]).l), ts[1..])
    else if ts[0].Word? then ParseSuffix(Var(NameOf(ts[0].s)), ts[1..])
    else if ts[0] == OPEN then
      var r := ParseClosed(ts[1..]);
      if r.NoTree? then NoTree else ParseSuffix(r.e, r.rest)
    else NoTree
  }

  /** An expression and the parenthesis that closes it. */
  function ParseClosed(ts: seq<Token>): (r: Tree)
    ensures r.Tree? ==> |r.rest| < |ts|
    decreases |ts|, 4
  {
    var r := ParseExpr(ts, 0);
    if r.NoTree? || r.rest == [] || r.rest[0] != CLOSE then NoTree else Tree(r.e, r.rest[1..])
  }

  function ParseSuffix(e: Expr, ts: seq<Token>): (r: Tree)
    ensures r.Tree? ==> |r.rest| <= |ts|
    decreases |ts|, 0
  {
    if ts == [] then Tree(e, ts)
    else if ts[0] == Mark(".") then
      if |ts| > 1 && ts[1].Word? && FieldOf(ts[1].s).Is?
      then ParseSuffix(Index(e, Lit(FieldOf(ts[1].s).l)), ts[2..]) else NoTree
    else if ts[0] == OPEN then
      var r := ParseClosed(ts[1..]);
      if r.NoTree? then NoTree else ParseSuffix(Call(e, [r.e]), r.rest)
    else Tree(e, ts)
  }

  datatype Read = Read(e: Expr) | NotRead

  /** The expression that a text stands for. */
  function Parse(s: string): Read
  {
    var l := Lex(s);
    if l.Unreadable? then NotRead
    else
      var r := ParseExpr(l.ts, 0);
      if r.Tree? && r.rest == [] then Read(r.e) else NotRead
  }

  // ----- reading what was printed -----

  function Toks(e: Expr): seq<Token>
    requires Written(e)
  {
    Tokens(Layout(e))
  }

  lemma {:induction false} TokensConcat(ps: seq<Piece>, qs: seq<Piece>)
    ensures Tokens(ps + qs) == Tokens(ps) + Tokens(qs)
    decreases |ps|
  {
    if ps == [] {
      assert ps + qs == qs;
    } else {
      var head := if ps[0].Tok? then [ps[0].t] else [];
      assert (ps + qs)[1..] == ps[1..] + qs && (ps + qs)[0] == ps[0];
      TokensConcat(ps[1..], qs);
      Assoc(head, Tokens(ps[1..]), Tokens(qs));
    }
  }

  lemma NumeralReads(n: nat)
    ensures NumberOf(Numeral(n)) == Of(n)
  {
    Formatting.DigitsRead(n, 10, false);
  }

  lemma {:induction false} DotExact(a: string, b: string)
    requires '.' !in a
    ensures Dot(a) == |a| && Dot(a + "." + b) == |a|
    decreases |a|
  {
    var s := a + "." + b;
    if a != [] {
      DotExact(a[1..], b);
      assert s[1..] == a[1..] + "." + b && s[0] == a[0];
    }
  }

  lemma NumeralHasNoDot(n: nat)
    ensures '.' !in Numeral(n)
  {
    NumeralText(n);
  }

  lemma AtomReads(l: Literal)
    requires IsLiteral(l)
    ensures LiteralOf(AtomToken(l)) == Is(l) && !IsUnaryToken(AtomToken(l))
  {
    hide Numeral, NumberOf, Dot;
    if l.LData? {
      var n: nat := l.d / 3;
      NumeralReads(n);
      NumeralHasNoDot(n);
      if l.d % 3 == 0 {
        DotExact(Numeral(n), "");
      } else if l.d % 3 == 1 {
        DecimalReads(n);
      } else {
        assert ("s" + Numeral(n))[1..] == Numeral(n);
      }
    }
  }

  lemma DecimalReads(n: nat)
    ensures LiteralOf(Number(Numeral(n / 1000) + "." + Numeral(n % 1000))) == Is(DecimalData(n))
  {
    hide Numeral, NumberOf, Dot;
    var a, b := Numeral(n / 1000), Numeral(n % 1000);
    NumeralReads(n / 1000);
    NumeralReads(n % 1000);
    NumeralHasNoDot(n / 1000);
    DotExact(a, b);
    var s := a + "." + b;
    assert s[..|a|] == a && s[|a| + 1..] == b;
  }

  lemma NameReads(i: nat)
    ensures NameOf("v" + Numeral(i)) == V(i)
    ensures var t := Word("v" + Numeral(i)); LiteralOf(t) == IsNot && !IsUnaryToken(t)
  {
    hide Numeral, NumberOf;
    NumeralReads(i);
    assert ("v" + Numeral(i))[1..] == Numeral(i);
  }

  /** What follows cannot belong to the expression before it. */
  predicate Stops(ts: seq<Token>)
  {
    ts == [] || (ts[0] != Mark(".") && ts[0] != OPEN)
  }

  predicate Closes(ts: seq<Token>)
  {
    ts == [] || ts[0] == CLOSE
  }

  lemma SuffixStops(e: Expr, ts: seq<Token>)
    requires Stops(ts)
    ensures ParseSuffix(e, ts) == Tree(e, ts)
  {
  }

  lemma MoreStops(e: Expr, ts: seq<Token>, limit: nat)
    requires Closes(ts)
    ensures ParseMore(e, ts, limit) == Tree(e, ts)
  {
  }

  /** A complete operand, up to what closes it. */
  lemma ExprOfSimple(ts: seq<Token>, e: Expr, rest: seq<Token>, limit: nat)
    requires ParseSimple(ts) == Tree(e, rest) && Closes(rest)
    ensures ParseExpr(ts, limit) == Tree(e, rest)
  {
    hide ParseSimple, ParseMore;
    MoreStops(e, rest, limit);
  }

  lemma ClosedExpr(ts: seq<Token>, e: Expr, rest: seq<Token>)
    requires ParseExpr(ts, 0) == Tree(e, [CLOSE] + rest)
    ensures ParseClosed(ts) == Tree(e, rest)
  {
    hide ParseExpr;
  }

  lemma ParenthesisReads(ts: seq<Token>, e: Expr, rest: seq<Token>)
    requires ParseExpr(ts, 0) == Tree(e, [CLOSE] + rest) && Stops(rest)
    ensures ParseSimple([OPEN] + ts) == Tree(e, rest)
  {
    hide ParseExpr, ParseClosed, ParseSuffix;
    ClosedExpr(ts, e, rest);
    SuffixStops(e, rest);
    assert ([OPEN] + ts)[1..] == ts;
  }

  lemma UnaryReads(t: Token, ts: seq<Token>, e: Expr, rest: seq<Token>)
    requires IsUnaryToken(t) && ParseSimple(ts) == Tree(e, rest) && Closes(rest)
    ensures ParseSimple([t] + ts) == Tree(Op(t.s, [e]), rest)
  {
    assert ([t] + ts)[1..] == ts;
    ExprOfSimple(ts, e, rest, UNARY);
  }

  lemma BinaryReads(ts: seq<Token>, a: Expr, t: Token, us: seq<Token>, b: Expr, rest: seq<Token>)
    requires LeftPriority(t) > 0 && Closes(rest)
    requires ParseSimple(ts) == Tree(a, [t] + us) && ParseSimple(us) == Tree(b, rest)
    ensures ParseExpr(ts, 0) == Tree(Combine(t, a, b), rest)
  {
    hide ParseSimple, LeftPriority, Combine;
    ExprOfSimple(us, b, rest, RightPriority(t));
    MoreStops(Combine(t, a, b), rest, 0);
    assert ([t] + us)[1..] == us;
    MoreStep(a, t, us, b, rest);
  }

  lemma MoreStep(a: Expr, t: Token, us: seq<Token>, b: Expr, rest: seq<Token>)
    requires LeftPriority(t) > 0 && Closes(rest) && ParseExpr(us, RightPriority(t)) == Tree(b, rest)
    ensures ParseMore(a, [t] + us, 0) == Tree(Combine(t, a, b), rest)
  {
    hide LeftPriority, Combine, ParseExpr;
    assert ([t] + us)[1..] == us;
    MoreStops(Combine(t, a, b), rest, 0);
  }

  lemma CallReads(fn: Expr, ts: seq<Token>, a: Expr, rest: seq<Token>)
    requires IsFunction(fn) && Stops(rest) && ParseExpr(ts, 0) == Tree(a, [CLOSE] + rest)
    ensures ParseSimple(Tokens(FunctionPieces(fn)) + ([OPEN] + ts)) == Tree(Call(fn, [a]), rest)
  {
    hide ParseExpr, ParseClosed;
    ClosedExpr(ts, a, rest);
    ArgumentReads(fn, ts, a, rest);
    if fn == TO_STRING {
      ToStringName();
      var all := [Word("tostring")] + ([OPEN] + ts);
      assert all[1..] == [OPEN] + ts;
    } else {
      MathReads(fn, ts);
    }
  }

  lemma ArgumentReads(fn: Expr, ts: seq<Token>, a: Expr, rest: seq<Token>)
    requires Stops(rest) && ParseClosed(ts) == Tree(a, rest)
    ensures ParseSuffix(fn, [OPEN] + ts) == Tree(Call(fn, [a]), rest)
  {
    hide ParseClosed;
    assert ([OPEN] + ts)[1..] == ts;
    SuffixStops(Call(fn, [a]), rest);
  }

  lemma ToStringName()
    ensures NameOf("tostring") == Ident("tostring") && NameOf("math") == Ident("math")
  {
  }

  lemma MathReads(fn: Expr, ts: seq<Token>)
    requires IsFunction(fn) && fn != TO_STRING
    ensures ParseSimple(Tokens(FunctionPieces(fn)) + ([OPEN] + ts)) == ParseSuffix(fn, [OPEN] + ts)
  {
    hide ParseClosed, ParseExpr;
    var k := (fn.k.l.d - 2) / 3;
    var name := Word(Field(k));
    var us := [OPEN] + ts;
    FunctionTokens(fn);
    var all := [Word("math"), Mark("."), name] + us;
    assert Tokens(FunctionPieces(fn)) + us == all;
    ToStringName();
    assert all[1..] == [Mark("."), name] + us && all[1..][2..] == us;
  }

  lemma FunctionTokens(fn: Expr)
    requires IsFunction(fn)
    ensures fn == TO_STRING ==> Tokens(FunctionPieces(fn)) == [Word("tostring")]
    ensures fn != TO_STRING ==>
      Tokens(FunctionPieces(fn)) == [Word("math"), Mark("."), Word(Field((fn.k.l.d - 2) / 3))]
  {
    hide Tokens, Field;
    OneToken(Word("tostring"));
    if fn != TO_STRING {
      var name := Word(Field((fn.k.l.d - 2) / 3));
      OneToken(name);
      TokenStep(Mark("."), [Tok(name)]);
      TokenStep(Word("math"), [Tok(Mark("."))] + [Tok(name)]);
      assert FunctionPieces(fn) == [Tok(Word("math"))] + ([Tok(Mark("."))] + [Tok(name)]);
    }
  }

  /** Whatever follows, up to a suffix: the parser takes off exactly the expression. */
  lemma {:induction false} SimpleReads(e: Expr, rest: seq<Token>)
    requires Written(e) && Stops(rest)
    ensures ParseSimple(Toks(e) + rest) == Tree(e, rest)
    decreases e
  {
    hide ParseExpr, ParseSimple;
    match e
    case Lit(l) => LiteralReads(l, rest);
    case Var(x) => VariableReads(x.i, rest);
    case And(a, b) => PairReads(a, "and", b, e, rest);
    case Or(a, b) => PairReads(a, "or", b, e, rest);
    case Call(fn, args) => ApplicationReads(fn, args[0], e, rest);
    case Op(op, args) =>
      if |args| == 2 {
        assert args == [args[0], args[1]];
        PairReads(args[0], op, args[1], e, rest);
      } else {
        assert args == [args[0]];
        PrefixReads(op, args[0], e, rest);
      }
  }

  lemma LiteralReads(l: Literal, rest: seq<Token>)
    requires IsLiteral(l)
    ensures ParseSimple(Toks(Lit(l)) + rest) == Tree(Lit(l), rest)
  {
    hide AtomToken, LiteralOf;
    AtomReads(l);
    OneToken(AtomToken(l));
    assert Toks(Lit(l)) == [AtomToken(l)];
    assert ([AtomToken(l)] + rest)[1..] == rest;
  }

  lemma VariableReads(i: nat, rest: seq<Token>)
    requires Stops(rest)
    ensures ParseSimple(Toks(Var(V(i))) + rest) == Tree(Var(V(i)), rest)
  {
    hide LiteralOf, Numeral;
    NameReads(i);
    var t := Word("v" + Numeral(i));
    OneToken(t);
    assert Toks(Var(V(i))) == [t];
    assert ([t] + rest)[1..] == rest;
    SuffixStops(Var(V(i)), rest);
  }

  predicate IsPair(e: Expr, a: Expr, op: string, b: Expr)
  {
    || (op == "and" && e == And(a, b)) || (op == "or" && e == Or(a, b))
    || (IsBinary(op) && e == Op(op, [a, b]))
  }

  lemma PairTokens(a: seq<Piece>, op: string, b: seq<Piece>)
    ensures Tokens(PairPieces(a, op, b)) == [OPEN] + Tokens(a) + [OpToken(op)] + Tokens(b) + [CLOSE]
  {
    var mid := [Gap, Tok(OpToken(op)), Gap];
    TokensConcat([Tok(OPEN)], a);
    TokensConcat([Tok(OPEN)] + a, mid);
    TokensConcat([Tok(OPEN)] + a + mid, b);
    TokensConcat([Tok(OPEN)] + a + mid + b, [Tok(CLOSE)]);
    OneToken(OPEN);
    OneToken(CLOSE);
    MidToken(OpToken(op));
  }

  lemma TokenStep(t: Token, ps: seq<Piece>)
    ensures Tokens([Tok(t)] + ps) == [t] + Tokens(ps) && Tokens([Gap] + ps) == Tokens(ps)
  {
    assert ([Tok(t)] + ps)[1..] == ps && ([Gap] + ps)[1..] == ps;
  }

  lemma OneToken(t: Token)
    ensures Tokens([Tok(t)]) == [t]
  {
    TokenStep(t, []);
    assert [Tok(t)] + [] == [Tok(t)];
  }

  lemma MidToken(t: Token)
    ensures Tokens([Gap, Tok(t), Gap]) == [t]
  {
    hide Tokens;
    TokenStep(t, [Tok(t)] + [Gap]);
    TokenStep(t, [Gap]);
    TokenStep(t, []);
    NoTokens();
    assert [Gap, Tok(t), Gap] == [Gap] + ([Tok(t)] + [Gap]) && [Gap] == [Gap] + [];
  }

  lemma NoTokens()
    ensures Tokens([]) == []
  {
  }

  lemma PairOperator(op: string, a: Expr, b: Expr, e: Expr)
    requires IsPair(e, a, op, b)
    ensures LeftPriority(OpToken(op)) > 0 && Stops([OpToken(op)]) && e == Combine(OpToken(op), a, b)
  {
  }

  lemma PairLayout(a: Expr, op: string, b: Expr, e: Expr)
    requires Written(a) && Written(b) && Written(e) && Layout(e) == PairPieces(Layout(a), op, Layout(b))
    ensures Toks(e) == [OPEN] + Toks(a) + [OpToken(op)] + Toks(b) + [CLOSE]
  {
    hide Tokens, Layout, Written;
    PairTokens(Layout(a), op, Layout(b));
  }

  lemma PairReads(a: Expr, op: string, b: Expr, e: Expr, rest: seq<Token>)
    requires Written(a) && Written(b) && Written(e) && IsPair(e, a, op, b) && Stops(rest)
    requires Layout(e) == PairPieces(Layout(a), op, Layout(b))
    ensures ParseSimple(Toks(e) + rest) == Tree(e, rest)
    decreases e, 0
  {
    hide ParseExpr, ParseSimple, Layout, LeftPriority, Combine, OpToken, Written, PairPieces, Toks, IsBinary;
    var t := OpToken(op);
    PairOperator(op, a, b, e);
    PairLayout(a, op, b, e);
    var tail := [CLOSE] + rest;
    var us := Toks(b) + tail;
    var ts := Toks(a) + ([t] + us);
    PairShape(Toks(a), t, Toks(b), rest);
    SmallerParts(a, op, b, e);
    SimpleReads(b, tail);
    SimpleReads(a, [t] + us);
    BinaryReads(ts, a, t, us, b, tail);
    ParenthesisReads(ts, e, rest);
  }

  lemma PairShape(ta: seq<Token>, t: Token, tb: seq<Token>, rest: seq<Token>)
    ensures [OPEN] + ta + [t] + tb + [CLOSE] + rest == [OPEN] + (ta + ([t] + (tb + ([CLOSE] + rest))))
  {
    Assoc([OPEN] + ta + [t] + tb, [CLOSE], rest);
    Assoc([OPEN] + ta + [t], tb, [CLOSE] + rest);
    Assoc([OPEN] + ta, [t], tb + ([CLOSE] + rest));
    Assoc([OPEN], ta, [t] + (tb + ([CLOSE] + rest)));
  }

  lemma SmallerParts(a: Expr, op: string, b: Expr, e: Expr)
    requires IsPair(e, a, op, b)
    ensures a < e && b < e
  {
    if e.Op? {
      assert e.args[0] == a && e.args[1] == b;
    }
  }

  lemma ApplicationLayout(e: Expr)
    requires Written(e) && e.Call?
    ensures Toks(e) == Tokens(FunctionPieces(e.fn)) + ([OPEN] + Toks(e.args[0]) + [CLOSE])
  {
    hide Tokens, FunctionPieces;
    var a := Layout(e.args[0]);
    var body := [Tok(OPEN)] + a + [Tok(CLOSE)];
    TokensConcat(FunctionPieces(e.fn), body);
    TokensConcat([Tok(OPEN)] + a, [Tok(CLOSE)]);
    TokensConcat([Tok(OPEN)], a);
    OneToken(OPEN);
    OneToken(CLOSE);
  }

  lemma ApplicationReads(fn: Expr, a: Expr, e: Expr, rest: seq<Token>)
    requires Written(e) && e.Call? && e.fn == fn && e.args[0] == a && Stops(rest)
    ensures ParseSimple(Toks(e) + rest) == Tree(e, rest)
    decreases e, 0
  {
    hide ParseExpr, ParseSimple, FunctionPieces, Toks, Tokens;
    ApplicationLayout(e);
    var tail := [CLOSE] + rest;
    var ts := Toks(a) + tail;
    assert Toks(e) + rest == Tokens(FunctionPieces(fn)) + ([OPEN] + ts);
    SimpleReads(a, tail);
    ExprOfSimple(ts, a, tail, 0);
    CallReads(fn, ts, a, rest);
    assert e.args == [a];
  }

  lemma PrefixTokens(op: string, a: seq<Piece>)
    requires IsUnary(op)
    ensures Tokens([Tok(OPEN), Tok(OpToken(op))] + (if op == "not" then [Gap] else []) + a + [Tok(CLOSE)])
         == [OPEN] + ([OpToken(op)] + Tokens(a)) + [CLOSE]
  {
    hide OpToken;
    var front := [Tok(OPEN), Tok(OpToken(op))] + (if op == "not" then [Gap] else []);
    TokensConcat(front + a, [Tok(CLOSE)]);
    TokensConcat(front, a);
    OneToken(CLOSE);
    FrontTokens(OpToken(op));
    assert [Tok(OPEN), Tok(OpToken(op))] + [] == [Tok(OPEN), Tok(OpToken(op))];
    assert [Tok(OPEN), Tok(OpToken(op))] + [Gap] == [Tok(OPEN), Tok(OpToken(op)), Gap];
  }

  lemma FrontTokens(t: Token)
    ensures Tokens([Tok(OPEN), Tok(t)]) == [OPEN, t] && Tokens([Tok(OPEN), Tok(t), Gap]) == [OPEN, t]
  {
    hide Tokens;
    TokenStep(OPEN, [Tok(t)]);
    OneToken(t);
    TokenStep(OPEN, [Tok(t)] + [Gap]);
    TokenStep(t, [Gap]);
    TokenStep(t, []);
    NoTokens();
    assert [Tok(OPEN), Tok(t)] == [Tok(OPEN)] + [Tok(t)] && [Gap] == [Gap] + [];
    assert [Tok(OPEN), Tok(t), Gap] == [Tok(OPEN)] + ([Tok(t)] + [Gap]);
  }

  lemma PrefixLayout(op: string, a: Expr)
    requires Written(a) && IsUnary(op)
    ensures Written(Op(op, [a])) && Toks(Op(op, [a])) == [OPEN] + ([OpToken(op)] + Toks(a)) + [CLOSE]
    ensures IsUnaryToken(OpToken(op)) && OpToken(op).s == op
  {
    hide Tokens;
    PrefixTokens(op, Layout(a));
  }

  lemma PrefixReads(op: string, a: Expr, e: Expr, rest: seq<Token>)
    requires Written(a) && Written(e) && IsUnary(op) && e == Op(op, [a]) && Stops(rest)
    ensures ParseSimple(Toks(e) + rest) == Tree(e, rest)
    decreases e, 0
  {
    hide ParseExpr, ParseSimple, Toks, OpToken, Written;
    var t := OpToken(op);
    PrefixLayout(op, a);
    var tail := [CLOSE] + rest;
    var us := Toks(a) + tail;
    assert Toks(e) + rest == [OPEN] + ([t] + us);
    assert e.args[0] == a;
    SimpleReads(a, tail);
    UnaryReads(t, us, a, tail);
    ExprOfSimple([t] + us, e, tail, 0);
    ParenthesisReads([t] + us, e, rest);
  }

  /** Printing an expression and parsing the text gives the expression back. */
  lemma ShowParses(e: Expr)
    requires Written(e)
    ensures Parse(Show(e)) == Read(e)
  {
    hide Lex, ParseExpr, ParseSimple, Layout;
    LexShown(e);
    SimpleReads(e, []);
    assert Toks(e) + [] == Toks(e);
    ExprOfSimple(Toks(e), e, [], 0);
  }

  /** Different expressions have different texts. */
  lemma ShowIsInjective(e: Expr, f: Expr)
    requires Written(e) && Written(f) && Show(e) == Show(f)
    ensures e == f
  {
    hide Parse, Show;
    ShowParses(e);
    ShowParses(f);
  }
}
