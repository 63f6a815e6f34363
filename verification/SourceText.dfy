/** The text of generated expressions: how they are laid out, and that lexing
  the text gives the tokens back.
 */
module SourceText {
  import opened Luau
  import opened Lexing

  // ----- the expressions that are printed -----

  /** Whole numbers, decimals (in thousandths) and strings, kept apart. */
  function WholeData(n: int): Literal { LData(3 * n) }
  function DecimalData(n: int): Literal { LData(3 * n + 1) }
  function StringData(n: int): Literal { LData(3 * n + 2) }

  const TO_STRING := Var(Ident("tostring"))
  const MATH := Var(Ident("math"))

  const ARITHMETIC: seq<string> := ["+", "-", "*", "/", "//", "%", "^"]
  const COMPARISON: seq<string> := ["<", "<=", ">", ">=", "==", "~="]

  /** The functions of the library `math`, by the number of their name. */
  function Field(k: int): string
  {
    if k == 10 then "floor" else if k == 11 then "abs" else "ceil"
  }

  predicate IsBinary(op: string)
  {
    op in ARITHMETIC || op in COMPARISON || op == ".."
  }

  predicate IsUnary(op: string) { op == "-" || op == "#" || op == "not" }

  predicate IsFunction(fn: Expr)
  {
    fn == TO_STRING || exists k :: 10 <= k <= 12 && fn == Index(MATH, Lit(StringData(k)))
  }

  predicate IsLiteral(l: Literal)
  {
    match l
    case LNil => false
    case LBool(_) => true
    case LData(d) => d >= 0 && (d % 3 == 2 ==> d / 3 <= 9)
  }

  /** The printed expressions. */
  predicate Written(e: Expr)
  {
    match e
    case Lit(l) => IsLiteral(l)
    case Var(x) => x.V?
    case And(a, b) => Written(a) && Written(b)
    case Or(a, b) => Written(a) && Written(b)
    case Call(fn, args) => IsFunction(fn) && |args| == 1 && Written(args[0])
    case Op(op, args) =>
      || (|args| == 1 && IsUnary(op) && Written(args[0]))
      || (|args| == 2 && IsBinary(op) && Written(args[0]) && Written(args[1]))
    case _ => false
  }

  // ----- printing -----

  const TRUE := Word("true")
  const FALSE := Word("false")
  const OPEN := Mark("(")
  const CLOSE := Mark(")")

  function AtomToken(l: Literal): Token
    requires IsLiteral(l)
  {
    if l.LBool? then if l.b then TRUE else FALSE
    else
      var n: nat := l.d / 3;
      if l.d % 3 == 0 then Number(Numeral(n))
      else if l.d % 3 == 1 then Number(Numeral(n / 1000) + "." + Numeral(n % 1000))
      else Quoted("s" + Numeral(n))
  }

  function FunctionPieces(fn: Expr): seq<Piece>
    requires IsFunction(fn)
  {
    if fn == TO_STRING then [Tok(Word("tostring"))]
    else [Tok(Word("math")), Tok(Mark(".")), Tok(Word(Field((fn.k.l.d - 2) / 3)))]
  }

  function OpToken(op: string): Token
  {
    if op == "not" || op == "and" || op == "or" then Word(op) else Mark(op)
  }

  function PairPieces(a: seq<Piece>, op: string, b: seq<Piece>): seq<Piece>
  {
    [Tok(OPEN)] + a + [Gap, Tok(OpToken(op)), Gap] + b + [Tok(CLOSE)]
  }

  /** Everything is in parentheses; `not` is followed by a space. */
  function Layout(e: Expr): seq<Piece>
    requires Written(e)
  {
    match e
    case Lit(l) => [Tok(AtomToken(l))]
    case Var(x) => [Tok(Word("v" + Numeral(x.i)))]
    case And(a, b) => PairPieces(Layout(a), "and", Layout(b))
    case Or(a, b) => PairPieces(Layout(a), "or", Layout(b))
    case Call(fn, args) => FunctionPieces(fn) + ([Tok(OPEN)] + Layout(args[0]) + [Tok(CLOSE)])
    case Op(op, args) =>
      if |args| == 2 then PairPieces(Layout(args[0]), op, Layout(args[1]))
      else [Tok(OPEN), Tok(OpToken(op))] + (if op == "not" then [Gap] else []) + Layout(args[0]) + [Tok(CLOSE)]
  }

  /** The source text of an expression. */
  function Show(e: Expr): string
    requires Written(e)
  {
    Text(Layout(e))
  }

  // ----- spacing -----

  lemma SpacedConcat(ps: seq<Piece>, qs: seq<Piece>)
    requires Spaced(ps) && Spaced(qs) && ps != [] && qs != [] && Beside(ps[|ps| - 1], qs[0])
    ensures Spaced(ps + qs)
  {
    hide Good, Ends, First;
    var all := ps + qs;
    forall i | 0 < i < |all| ensures Beside(all[i - 1], all[i]) {
      if i < |ps| {
        assert all[i - 1] == ps[i - 1] && all[i] == ps[i];
      } else if i > |ps| {
        assert all[i - 1] == qs[i - 1 - |ps|] && all[i] == qs[i - |ps|];
      }
    }
  }

  /** Well spaced, safe to put after any single mark, and closed by any mark or space. */
  predicate Snug(ps: seq<Piece>)
  {
    && Spaced(ps) && ps != [] && ps[|ps| - 1].Tok?
    && (First(ps[0]) == '(' || First(ps[0]) == '"' || IsLetter(First(ps[0])) || IsDigit(First(ps[0])))
    && Ends(ps[|ps| - 1].t, ' ') && Ends(ps[|ps| - 1].t, ')')
  }

  lemma {:induction false} LayoutSnug(e: Expr)
    requires Written(e)
    ensures Snug(Layout(e))
  {
    hide Snug, Spaced;
    match e
    case Lit(l) => AtomSnug(l);
    case Var(x) => NameSnug(x.i);
    case And(a, b) =>
      LayoutSnug(a);
      LayoutSnug(b);
      PairSnug(Layout(a), "and", Layout(b));
    case Or(a, b) =>
      LayoutSnug(a);
      LayoutSnug(b);
      PairSnug(Layout(a), "or", Layout(b));
    case Call(fn, args) =>
      LayoutSnug(args[0]);
      CallSnug(fn, Layout(args[0]));
    case Op(op, args) =>
      LayoutSnug(args[0]);
      if |args| == 2 {
        LayoutSnug(args[1]);
        PairSnug(Layout(args[0]), op, Layout(args[1]));
      } else {
        UnarySnug(op, Layout(args[0]));
      }
  }

  lemma OneSnug(t: Token)
    requires Good(t) && !t.Mark?
    ensures Snug([Tok(t)])
  {
  }

  lemma AtomSnug(l: Literal)
    requires IsLiteral(l)
    ensures Snug([Tok(AtomToken(l))])
  {
    hide Numeral, Snug;
    if l.LData? {
      var n: nat := l.d / 3;
      NumeralText(n);
      NumeralText(n / 1000);
      NumeralText(n % 1000);
    }
    OneSnug(AtomToken(l));
  }

  lemma NameSnug(i: nat)
    ensures Snug([Tok(Word("v" + Numeral(i)))])
  {
    hide Numeral, Snug;
    NumeralText(i);
    OneSnug(Word("v" + Numeral(i)));
  }

  lemma Enclose(ps: seq<Piece>)
    requires Snug(ps)
    ensures Spaced([Tok(OPEN)] + ps + [Tok(CLOSE)])
  {
    hide Spaced;
    MarksSpaced();
    SpacedConcat([Tok(OPEN)], ps);
    SpacedConcat([Tok(OPEN)] + ps, [Tok(CLOSE)]);
  }

  lemma ClosedSnug(ps: seq<Piece>)
    requires Spaced(ps) && ps != [] && ps[|ps| - 1] == Tok(CLOSE) && (ps[0] == Tok(OPEN) || IsLetter(First(ps[0])))
    ensures Snug(ps)
  {
    hide Spaced;
  }

  lemma MarksSpaced()
    ensures Spaced([Tok(OPEN)]) && Spaced([Tok(CLOSE)]) && Spaced([Gap])
  {
  }

  lemma OpGood(op: string)
    requires IsBinary(op) || IsUnary(op) || op == "and" || op == "or"
    ensures Good(OpToken(op)) && Ends(OpToken(op), ' ')
    ensures IsUnary(op) && op != "not" ==> OpToken(op) == Mark(op) && op[0] != ' ' && |op| == 1
  {
  }

  lemma PairSnug(a: seq<Piece>, op: string, b: seq<Piece>)
    requires Snug(a) && Snug(b) && (IsBinary(op) || op == "and" || op == "or")
    ensures Snug(PairPieces(a, op, b))
  {
    var mid := [Gap, Tok(OpToken(op)), Gap];
    hide Spaced, Snug, Good, Ends, OpToken;
    OpGood(op);
    MidSpaced(op);
    PairSpaced(a, mid, b);
    assert PairPieces(a, op, b) == [Tok(OPEN)] + a + mid + b + [Tok(CLOSE)];
    ClosedSnug(PairPieces(a, op, b));
  }

  lemma MidSpaced(op: string)
    requires Good(OpToken(op)) && Ends(OpToken(op), ' ')
    ensures Spaced([Gap, Tok(OpToken(op)), Gap])
  {
  }

  lemma PairSpaced(a: seq<Piece>, mid: seq<Piece>, b: seq<Piece>)
    requires Snug(a) && Snug(b) && Spaced(mid) && mid != [] && mid[0] == Gap && mid[|mid| - 1] == Gap
    ensures Spaced([Tok(OPEN)] + a + mid + b + [Tok(CLOSE)])
  {
    hide Spaced;
    MarksSpaced();
    SpacedConcat([Tok(OPEN)], a);
    SpacedConcat([Tok(OPEN)] + a, mid);
    SpacedConcat([Tok(OPEN)] + a + mid, b);
    SpacedConcat([Tok(OPEN)] + a + mid + b, [Tok(CLOSE)]);
  }

  lemma CallSnug(fn: Expr, a: seq<Piece>)
    requires IsFunction(fn) && Snug(a)
    ensures Snug(FunctionPieces(fn) + ([Tok(OPEN)] + a + [Tok(CLOSE)]))
  {
    hide Spaced, Snug, IsFunction, FunctionPieces;
    FunctionSpaced(fn);
    Enclose(a);
    SpacedConcat(FunctionPieces(fn), [Tok(OPEN)] + a + [Tok(CLOSE)]);
    ClosedSnug(FunctionPieces(fn) + ([Tok(OPEN)] + a + [Tok(CLOSE)]));
  }

  lemma FunctionSpaced(fn: Expr)
    requires IsFunction(fn)
    ensures var ps := FunctionPieces(fn);
      Spaced(ps) && ps != [] && ps[|ps| - 1].Tok? && Ends(ps[|ps| - 1].t, '(') && IsLetter(First(ps[0]))
  {
  }

  lemma UnarySnug(op: string, a: seq<Piece>)
    requires IsUnary(op) && Snug(a)
    ensures Snug([Tok(OPEN), Tok(OpToken(op))] + (if op == "not" then [Gap] else []) + a + [Tok(CLOSE)])
  {
    var front := [Tok(OPEN), Tok(OpToken(op))] + (if op == "not" then [Gap] else []);
    assert GoodPiece(a[0]);
    hide Spaced, Good;
    UnaryFront(op, a[0]);
    MarksSpaced();
    SpacedConcat(front, a);
    SpacedConcat(front + a, [Tok(CLOSE)]);
    ClosedSnug(front + a + [Tok(CLOSE)]);
  }

  lemma UnaryFront(op: string, p: Piece)
    requires IsUnary(op) && GoodPiece(p)
    requires First(p) == '(' || First(p) == '"' || IsLetter(First(p)) || IsDigit(First(p))
    ensures var front := [Tok(OPEN), Tok(OpToken(op))] + (if op == "not" then [Gap] else []);
      Spaced(front) && Beside(front[|front| - 1], p)
  {
    if op == "not" {
      NotSpaced();
      assert [Tok(OPEN), Tok(OpToken(op))] + [Gap] == [Tok(OPEN), Tok(Word("not")), Gap];
    } else {
      MarkFront(op, First(p));
      assert [Tok(OPEN), Tok(OpToken(op))] + [] == [Tok(OPEN), Tok(Mark(op))];
    }
  }

  lemma NotSpaced()
    ensures Spaced([Tok(OPEN), Tok(Word("not")), Gap])
  {
  }

  lemma MarkFront(op: string, c: char)
    requires op == "-" || op == "#"
    requires c == '(' || c == '"' || IsLetter(c) || IsDigit(c)
    ensures Spaced([Tok(OPEN), Tok(Mark(op))]) && Ends(Mark(op), c)
  {
  }

  /** Lexing printed text gives the tokens that were laid out. */
  lemma LexShown(e: Expr)
    requires Written(e)
    ensures Lex(Show(e)) == Lexed(Tokens(Layout(e)))
  {
    LayoutSnug(e);
    LexPieces(Layout(e));
  }

  // ----- comments -----

  predicate NoDashes(s: string)
  {
    forall i :: 0 < i < |s| ==> !(s[i - 1] == '-' && s[i] == '-')
  }

  lemma TokenDashes(t: Token)
    requires Good(t)
    ensures TokenText(t) != [] && (t == Mark("-") || t == Mark("-=") || '-' !in TokenText(t))
  {
    if t.Word? {
      assert forall i :: 0 <= i < |t.s| ==> In(t.s[i], InWord);
    } else if t.Number? {
      assert forall i :: 0 <= i < |t.s| ==> In(t.s[i], InNumber);
    } else if t.Mark? {
      MarkStarts(t.s);
    }
  }

  lemma {:induction false} PiecesNoDashes(ps: seq<Piece>)
    requires Spaced(ps)
    ensures NoDashes(Text(ps))
    decreases |ps|
  {
    hide Good, Ends, First;
    if ps != [] {
      var rest := ps[1..];
      SpacedTail(ps);
      PiecesNoDashes(rest);
      TextStarts(rest);
      if ps[0].Tok? {
        TokenDashes(ps[0].t);
        assert rest != [] ==> Beside(ps[0], ps[1]);
        DashMark(ps[0].t, Text(rest));
      } else {
        assert Text(ps) == PieceText(ps[0]) + Text(rest);
      }
    }
  }

  lemma DashMark(t: Token, s: string)
    requires NoDashes(s) && (t == Mark("-") || t == Mark("-=") || '-' !in TokenText(t))
    requires s == [] || Ends(t, s[0])
    ensures NoDashes(TokenText(t) + s)
  {
    var all := TokenText(t) + s;
    var n := |TokenText(t)|;
    forall i | 0 < i < |all| ensures !(all[i - 1] == '-' && all[i] == '-') {
      if i > n {
        assert all[i - 1] == s[i - 1 - n] && all[i] == s[i - n];
      } else if i < n {
        assert all[i] == TokenText(t)[i];
      } else {
        assert all[i] == s[0] && all[i - 1] == TokenText(t)[n - 1];
      }
    }
  }

  /** Printed text never starts a comment by accident. */
  lemma ShownNoDashes(e: Expr)
    requires Written(e)
    ensures NoDashes(Show(e))
  {
    LayoutSnug(e);
    PiecesNoDashes(Layout(e));
  }
}
