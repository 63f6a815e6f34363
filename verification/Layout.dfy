/** What the grammar-driven generator writes: tokens, what has to match among
  them, where each may stand, and what their text reads as.
 */
module Layout {
  import opened Basics
  import Lexing

  datatype Bracket = Paren | Square | Brace

  /** What is written, white space included. */
  datatype Token =
    | Word(s: string) | Number(s: string) | Quoted(s: string) | Mark(s: string) | Gap | Newline
    | Open(b: Bracket) | Close(b: Bracket)
    | If | Then | Else | While | For | Do | Repeat | Until | Function | End
    | Break | Continue | Return

  /** What is open: brackets, the heads of `if` and of loops, and blocks. */
  datatype Opener = Bracketed(b: Bracket) | IfHead | LoopHead | ThenPart | ElsePart | Loop | Until_ | Block | Body

  type Stack = seq<Opener>

  datatype Scanned = At(stack: Stack) | Bad

  /** Loops around this point, up to the nearest function. */
  function Loops(st: Stack): nat
  {
    if st == [] || st[0].Body? then 0 else Loops(st[1..]) + if st[0].Loop? || st[0].Until_? then 1 else 0
  }

  /** One token: brackets and keywords have to match, and `break` and `continue`
      have to be in a loop of the same function. */
  function Step(sc: Scanned, t: Token): Scanned
  {
    if sc.Bad? then Bad
    else
      var st := sc.stack;
      match t
      case Open(b) => At([Bracketed(b)] + st)
      case Close(b) => if st != [] && st[0] == Bracketed(b) then At(st[1..]) else Bad
      case If => At([IfHead] + st)
      case Then => if st != [] && st[0].IfHead? then At([ThenPart] + st[1..]) else Bad
      case Else => if st != [] && st[0].ThenPart? then At([ElsePart] + st[1..]) else Bad
      case While => At([LoopHead] + st)
      case For => At([LoopHead] + st)
      case Do => if st != [] && st[0].LoopHead? then At([Loop] + st[1..]) else At([Block] + st)
      case Repeat => At([Until_] + st)
      case Until => if st != [] && st[0].Until_? then At(st[1..]) else Bad
      case Function => At([Body] + st)
      case End => if st != [] && st[0] in {ThenPart, ElsePart, Loop, Block, Body} then At(st[1..]) else Bad
      case Break => if Loops(st) > 0 then sc else Bad
      case Continue => if Loops(st) > 0 then sc else Bad
      case _ => sc
  }

  function Scan(ts: seq<Token>): Scanned
  {
    if ts == [] then At([]) else Step(Scan(ts[..|ts| - 1]), ts[|ts| - 1])
  }

  // ----- what a successful scan says -----

  /** Things that are opened and closed: brackets, blocks with an `end`, `repeat`. */
  datatype Kind = Brackets(b: Bracket) | Blocks | Repeats

  predicate Opens(k: Kind, t: Token)
  {
    match k
    case Brackets(b) => t == Open(b)
    case Blocks => t.If? || t.Do? || t.Function?
    case Repeats => t.Repeat?
  }

  predicate Closes(k: Kind, t: Token)
  {
    match k
    case Brackets(b) => t == Close(b)
    case Blocks => t.End?
    case Repeats => t.Until?
  }

  predicate IsOf(k: Kind, o: Opener)
  {
    match k
    case Brackets(b) => o == Bracketed(b)
    case Blocks => o.IfHead? || o.ThenPart? || o.ElsePart? || o.Loop? || o.Block? || o.Body?
    case Repeats => o.Until_?
  }

  /** How many more are opened than closed. */
  function Unclosed(k: Kind, ts: seq<Token>): int
  {
    if ts == [] then 0
    else
      var t := ts[|ts| - 1];
      Unclosed(k, ts[..|ts| - 1]) + (if Opens(k, t) then 1 else 0) - (if Closes(k, t) then 1 else 0)
  }

  function Holding(k: Kind, st: Stack): nat
  {
    if st == [] then 0 else Holding(k, st[1..]) + if IsOf(k, st[0]) then 1 else 0
  }

  lemma HoldingPush(k: Kind, o: Opener, st: Stack)
    ensures Holding(k, [o] + st) == Holding(k, st) + if IsOf(k, o) then 1 else 0
  {
    assert ([o] + st)[1..] == st;
  }

  lemma StepCounts(k: Kind, st: Stack, t: Token)
    requires Step(At(st), t).At?
    ensures Holding(k, Step(At(st), t).stack) == Holding(k, st)
      + (if Opens(k, t) then 1 else 0) - (if Closes(k, t) then 1 else 0)
  {
    hide Holding, Step, IsOf, Opens, Closes, Pops, Pushed;
    StepForm(st, t);
    StepBalance(k, st, t);
    var pop, push := Pops(st, t), Pushed(st, t);
    var rest := if pop then st[1..] else st;
    if pop {
      assert st == [st[0]] + rest;
      HoldingPush(k, st[0], rest);
    }
    if push == [] {
      assert push + rest == rest;
    } else {
      assert push + rest == [push[0]] + rest;
      HoldingPush(k, push[0], rest);
    }
  }

  /** Whether a token takes something off the stack, and what it puts on it. */
  predicate Pops(st: Stack, t: Token)
  {
    t.Close? || t.Then? || t.Else? || t.Until? || t.End? || (t.Do? && st != [] && st[0].LoopHead?)
  }

  function Pushed(st: Stack, t: Token): (os: seq<Opener>)
    ensures |os| <= 1
  {
    match t
    case Open(b) => [Bracketed(b)]
    case If => [IfHead]
    case Then => [ThenPart]
    case Else => [ElsePart]
    case While => [LoopHead]
    case For => [LoopHead]
    case Do => if Pops(st, t) then [Loop] else [Block]
    case Repeat => [Until_]
    case Function => [Body]
    case _ => []
  }

  lemma StepForm(st: Stack, t: Token)
    requires Step(At(st), t).At?
    ensures Pops(st, t) ==> st != []
    ensures Step(At(st), t).stack == Pushed(st, t) + if Pops(st, t) then st[1..] else st
  {
    hide Loops;
  }

  lemma StepBalance(k: Kind, st: Stack, t: Token)
    requires Step(At(st), t).At? && (Pops(st, t) ==> st != [])
    ensures var push, pop := Pushed(st, t), Pops(st, t);
      (if push != [] && IsOf(k, push[0]) then 1 else 0) - (if pop && IsOf(k, st[0]) then 1 else 0)
      == (if Opens(k, t) then 1 else 0) - (if Closes(k, t) then 1 else 0)
  {
    hide Loops;
  }

  /** The scanner's stack is the difference between what was opened and closed. */
  lemma {:induction false} StackCounts(k: Kind, ts: seq<Token>)
    requires Scan(ts).At?
    ensures Unclosed(k, ts) == Holding(k, Scan(ts).stack)
    decreases |ts|
  {
    if ts != [] {
      var n := |ts| - 1;
      StackCounts(k, ts[..n]);
      StepCounts(k, Scan(ts[..n]).stack, ts[n]);
    }
  }

  /** In a program that scans, every bracket, `repeat` and block is closed, and
      every `break` and `continue` has a loop around it. */
  lemma ScanMeaning(ts: seq<Token>, k: Kind, p: nat)
    requires Scan(ts) == At([])
    ensures Unclosed(k, ts) == 0
    ensures p < |ts| ==> Scan(ts[..p]).At? && Unclosed(k, ts[..p]) >= 0
    ensures p < |ts| && (ts[p].Break? || ts[p].Continue?) ==> Loops(Scan(ts[..p]).stack) > 0
  {
    hide Loops, Step, Scan, Unclosed;
    StackCounts(k, ts);
    if p < |ts| {
      ScanPrefix(ts, p + 1);
      ScanPrefix(ts, p);
      StackCounts(k, ts[..p]);
      BreakMeans(ts, p);
    }
  }

  lemma BreakMeans(ts: seq<Token>, p: nat)
    requires p < |ts| && Scan(ts[..p]).At? && Scan(ts[..p + 1]).At?
    ensures ts[p].Break? || ts[p].Continue? ==> Loops(Scan(ts[..p]).stack) > 0
  {
    hide Loops;
    assert ts[..p + 1][..p] == ts[..p];
  }

  lemma {:induction false} ScanPrefix(ts: seq<Token>, p: nat)
    requires Scan(ts).At? && p <= |ts|
    ensures Scan(ts[..p]).At?
    decreases |ts| - p
  {
    if p < |ts| {
      ScanPrefix(ts, p + 1);
      assert ts[..p + 1][..p] == ts[..p];
    } else {
      assert ts[..p] == ts;
    }
  }

  /** Opening something on top of `st`. */
  lemma Opened(o: Opener, st: Stack)
    ensures ([o] + st)[0] == o && ([o] + st)[1..] == st
    ensures Loops([o] + st) == if o.Body? then 0 else Loops(st) + if o.Loop? || o.Until_? then 1 else 0
  {
    assert ([o] + st)[1..] == st;
  }

  /** What a keyword opens, or turns what is open into. */
  function OpenedBy(t: Token): Opener
  {
    match t
    case If => IfHead
    case Then => ThenPart
    case Else => ElsePart
    case Do => Loop
    case Repeat => Until_
    case Function => Body
    case _ => LoopHead
  }

  predicate Turns(t: Token, o: Opener)
  {
    (t.Then? && o.IfHead?) || (t.Else? && o.ThenPart?) || (t.Do? && o.LoopHead?)
  }

  /** Statements can stand here. */
  predicate InBlock(st: Stack)
  {
    st == [] || st[0] in {ThenPart, ElsePart, Loop, Until_, Block, Body}
  }

  const NAMES := ["a", "b", "c", "d", "e", "f", "g", "h", "x", "y", "z"]
  const LETTERS := "abcdeABCDE01234"
  const SAFE_GLOBALS := ["type", "tostring", "tonumber", "select", "rawequal"]
  const BINARY := ["+", "-", "*", "/", "%", "^", "..", "==", "~=", "<", "<=", ">", ">=", "and", "or"]
  const UPDATES := ["=", "+=", "-=", "*=", "/=", "%=", "..="]

  // ----- the text of what is written -----

  /** The words that are written as such, and the marks. */
  const SHORT := {"a", "b", "c", "d", "e", "f", "g", "h", "x", "y", "z"}
  const LONG := {"type", "tostring", "tonumber", "select", "rawequal",
                 "and", "or", "not", "true", "false", "nil", "local"}
  const MARKS := {"+", "-", "*", "/", "%", "^", "..", "==", "~=", "<", "<=", ">", ">=", "#", ".", ":", ",",
                  "=", "+=", "-=", "*=", "/=", "%=", "..="}

  function Operator(op: string): Token
  {
    if op == "and" || op == "or" then Word(op) else Mark(op)
  }

  predicate Known(t: Token)
  {
    match t
    case Word(s) => s in SHORT || s in LONG
    case Mark(s) => s in MARKS
    case Number(s) => Lexing.Good(Lexing.Number(s))
    case Quoted(s) => Lexing.Good(Lexing.Quoted(s))
    case _ => true
  }

  predicate IsKeyword(t: Token)
  {
    match t
    case Word(_) => false
    case Number(_) => false
    case Quoted(_) => false
    case Mark(_) => false
    case Gap => false
    case Newline => false
    case Open(_) => false
    case Close(_) => false
    case _ => true
  }

  function KeywordText(t: Token): string
  {
    match t
    case If => "if"
    case Then => "then"
    case Else => "else"
    case While => "while"
    case For => "for"
    case Do => "do"
    case Repeat => "repeat"
    case Until => "until"
    case Function => "function"
    case End => "end"
    case Break => "break"
    case Continue => "continue"
    case _ => "return"
  }

  function BracketText(b: Bracket, open: bool): string
  {
    match b
    case Paren => if open then "(" else ")"
    case Square => if open then "[" else "]"
    case Brace => if open then "{" else "}"
  }

  function PieceOf(t: Token): Lexing.Piece
  {
    match t
    case Gap => Lexing.Gap
    case Newline => Lexing.Newline
    case Word(s) => Lexing.Tok(Lexing.Word(s))
    case Number(s) => Lexing.Tok(Lexing.Number(s))
    case Quoted(s) => Lexing.Tok(Lexing.Quoted(s))
    case Mark(s) => Lexing.Tok(Lexing.Mark(s))
    case Open(b) => Lexing.Tok(Lexing.Mark(BracketText(b, true)))
    case Close(b) => Lexing.Tok(Lexing.Mark(BracketText(b, false)))
    case _ => Lexing.Tok(Lexing.Word(KeywordText(t)))
  }

  /** How a token that was read counts for nesting. */
  function Reading(t: Lexing.Token): Token
  {
    match t
    case Word(s) =>
      if s == "if" then If else if s == "then" then Then else if s == "else" then Else else if s == "while" then While
      else if s == "for" then For else if s == "do" then Do else if s == "repeat" then Repeat
      else if s == "until" then Until else if s == "function" then Function else if s == "end" then End
      else if s == "break" then Break else if s == "continue" then Continue else if s == "return" then Return
      else Word(s)
    case Number(s) => Number(s)
    case Quoted(s) => Quoted(s)
    case Mark(s) =>
      if s == "(" then Open(Paren) else if s == ")" then Close(Paren)
      else if s == "[" then Open(Square) else if s == "]" then Close(Square)
      else if s == "{" then Open(Brace) else if s == "}" then Close(Brace)
      else Mark(s)
  }

  predicate IsSolid(t: Token) { !t.Gap? && !t.Newline? }

  /** Known tokens are read as what they are. */
  lemma KnownReads(t: Token)
    requires Known(t)
    ensures Lexing.GoodPiece(PieceOf(t)) && (IsSolid(t) <==> PieceOf(t).Tok?)
    ensures IsSolid(t) ==> Reading(PieceOf(t).t) == t
  {
    if t.Word? {
      if t.s in SHORT {
        ShortReads(t.s);
      } else {
        LongIsGood(t.s);
        LongReads(t.s);
      }
    } else if t.Mark? {
      MarkReads(t.s);
    } else if t.Open? || t.Close? {
      BracketReads(t.b);
    } else if IsSolid(t) && !t.Number? && !t.Quoted? {
      KeywordReads(t);
    }
  }

  lemma ShortReads(s: string)
    requires s in SHORT
    ensures Lexing.Good(Lexing.Word(s)) && Reading(Lexing.Word(s)) == Word(s)
  {
    assert |s| == 1;
  }

  lemma LongIsGood(s: string)
    requires s in LONG
    ensures Lexing.Good(Lexing.Word(s))
  {
  }

  lemma LongReads(s: string)
    requires s in LONG
    ensures Reading(Lexing.Word(s)) == Word(s)
  {
    hide Lexing.Good;
  }

  lemma MarkReads(s: string)
    requires s in MARKS
    ensures Lexing.Good(Lexing.Mark(s)) && Reading(Lexing.Mark(s)) == Mark(s)
  {
  }

  lemma BracketReads(b: Bracket)
    ensures Lexing.Good(PieceOf(Open(b)).t) && Reading(PieceOf(Open(b)).t) == Open(b)
    ensures Lexing.Good(PieceOf(Close(b)).t) && Reading(PieceOf(Close(b)).t) == Close(b)
  {
  }

  lemma KeywordIsGood(t: Token)
    requires IsKeyword(t)
    ensures PieceOf(t) == Lexing.Tok(Lexing.Word(KeywordText(t))) && Lexing.Good(PieceOf(t).t)
  {
  }

  lemma KeywordReads(t: Token)
    requires IsKeyword(t)
    ensures PieceOf(t).Tok? && Lexing.Good(PieceOf(t).t) && Reading(PieceOf(t).t) == t
  {
    KeywordIsGood(t);
    hide PieceOf, Lexing.Good;
  }

  lemma NamesAreKnown(i: nat)
    requires i < |NAMES|
    ensures Known(Word(NAMES[i]))
  {
  }

  lemma GlobalsAreKnown(i: nat)
    requires i < |SAFE_GLOBALS|
    ensures Known(Word(SAFE_GLOBALS[i]))
  {
  }

  lemma BinaryIsKnown(i: nat)
    requires i < |BINARY|
    ensures Known(Operator(BINARY[i]))
  {
  }

  lemma UpdateIsKnown(i: nat)
    requires i < |UPDATES|
    ensures Known(Operator(UPDATES[i]))
  {
  }

  lemma LettersAreGood(text: string, k: nat)
    requires Lexing.Good(Lexing.Quoted(text)) && k < |LETTERS|
    ensures Lexing.Good(Lexing.Quoted(text + [LETTERS[k]]))
  {
    assert LETTERS[k] != '"' && LETTERS[k] != '\n' && LETTERS[k] != '-';
  }

  // ----- side by side -----

  function LastOf(ts: seq<Token>): Token
  {
    if ts == [] then Newline else ts[|ts| - 1]
  }

  /** Any word or expression may follow directly. */
  predicate IsFree(t: Token)
  {
    t.Gap? || t.Newline? || t.Open? || t == Mark("-") || t == Mark("#") || t == Mark(".") || t == Mark(":")
  }

  /** May follow anything directly. */
  predicate IsLoose(t: Token)
  {
    t.Gap? || t.Newline? || t.Open? || t.Close? || t == Mark(",") || t == Mark(":")
  }

  /** The start of a word or an expression. */
  predicate IsStart(t: Token)
  {
    !t.Mark? || t == Mark("-") || t == Mark("#")
  }

  predicate Allowed(last: Token, t: Token)
  {
    Known(t) &&
    (IsLoose(t) || last.Gap? || last.Newline? || (IsFree(last) && IsStart(t)) || (last.Word? && t == Mark(".")))
  }

  /** What is allowed to follow does not run together with what it follows, but
      for two minus signs. */
  lemma AllowedIsNear(last: Token, t: Token)
    requires Known(last) && Allowed(last, t)
    ensures Lexing.GoodPiece(PieceOf(t)) && Lexing.Near(PieceOf(last), PieceOf(t))
  {
    KnownReads(last);
    KnownReads(t);
    StartsWith(t);
    if IsSolid(last) {
      if IsLoose(t) {
        LooseEnds(last, Lexing.First(PieceOf(t)));
      } else if IsFree(last) {
        FreeEnds(last, Lexing.First(PieceOf(t)));
      }
    }
  }

  predicate LooseChar(c: char) { c in {' ', '\n', '(', ')', '[', ']', '{', '}', ',', ':'} }

  predicate StartChar(c: char)
  {
    Lexing.IsLetter(c) || Lexing.IsDigit(c) || c in {'"', '(', ')', '[', ']', '{', '}', '-', '#', ' ', '\n'}
  }

  lemma StartsWith(t: Token)
    requires Known(t) && Lexing.GoodPiece(PieceOf(t))
    ensures IsLoose(t) ==> LooseChar(Lexing.First(PieceOf(t)))
    ensures IsStart(t) ==> StartChar(Lexing.First(PieceOf(t)))
    ensures IsStart(t) && Lexing.First(PieceOf(t)) == '-' ==> t == Mark("-")
  {
  }

  lemma LooseEnds(last: Token, c: char)
    requires IsSolid(last) && PieceOf(last).Tok? && Lexing.Good(PieceOf(last).t) && LooseChar(c)
    ensures Lexing.Ends(PieceOf(last).t, c)
  {
  }

  lemma FreeEnds(last: Token, c: char)
    requires IsSolid(last) && IsFree(last) && PieceOf(last).Tok? && StartChar(c)
    ensures Lexing.Ends(PieceOf(last).t, c) || (last == Mark("-") && c == '-')
  {
  }

  /** Everything written is known and stands where it may. */
  ghost predicate Laid(ts: seq<Token>)
  {
    forall i :: 0 <= i < |ts| ==> LaidAt(ts, i)
  }

  predicate LaidAt(ts: seq<Token>, i: nat)
    requires i < |ts|
  {
    Known(ts[i]) && (i > 0 ==> Allowed(ts[i - 1], ts[i]))
  }

  lemma LaidPush(ts: seq<Token>, t: Token)
    requires Laid(ts) && Allowed(LastOf(ts), t)
    ensures Laid(ts + [t])
  {
    hide Known, Allowed;
    var all := ts + [t];
    AllowedIsKnown(LastOf(ts), t);
    forall i | 0 <= i < |all| ensures LaidAt(all, i) {
      if i < |ts| {
        assert LaidAt(ts, i);
      }
    }
  }

  lemma AllowedIsKnown(last: Token, t: Token)
    requires Allowed(last, t)
    ensures Known(t)
  {
  }

  function Pieces(ts: seq<Token>): seq<Lexing.Piece>
  {
    seq(|ts|, i requires 0 <= i < |ts| => PieceOf(ts[i]))
  }

  function SourceOf(ts: seq<Token>): string
  {
    Lexing.Text(Pieces(ts))
  }

  /** The text lexes to the tokens that were written. */
  ghost predicate ReadsBack(ts: seq<Token>)
  {
    Lexing.Lex(SourceOf(ts)) == Lexing.Lexed(Lexing.Tokens(Pieces(ts)))
  }

  ghost predicate TwoMinuses(ts: seq<Token>)
  {
    exists i :: 0 < i < |ts| && ts[i - 1] == Mark("-") && ts[i] == Mark("-")
  }

  function Readings(ts: seq<Lexing.Token>): seq<Token>
  {
    if ts == [] then [] else Readings(ts[..|ts| - 1]) + [Reading(ts[|ts| - 1])]
  }

  /** A text in which everything opened is closed in order, as read. */
  ghost predicate NestedText(text: string)
  {
    var r := Lexing.Lex(text);
    r.Lexed? && Scan(Readings(r.ts)) == At([])
  }

  lemma LaidIsLoose(ts: seq<Token>)
    requires Laid(ts)
    ensures Lexing.Loose(Pieces(ts))
  {
    hide Known, Allowed, PieceOf, Lexing.GoodPiece, Lexing.Near;
    var ps := Pieces(ts);
    forall i | 0 <= i < |ps| ensures Lexing.GoodPiece(ps[i]) {
      assert LaidAt(ts, i);
      KnownReads(ts[i]);
    }
    forall i | 0 < i < |ps| ensures Lexing.Near(ps[i - 1], ps[i]) {
      assert LaidAt(ts, i) && LaidAt(ts, i - 1);
      AllowedIsNear(ts[i - 1], ts[i]);
    }
  }

  lemma MinusPiece(t: Token)
    ensures PieceOf(t) == Lexing.MINUS <==> t == Mark("-")
  {
  }

  lemma DoubledIsTwo(ts: seq<Token>)
    ensures Lexing.Doubled(Pieces(ts)) <==> TwoMinuses(ts)
  {
    hide PieceOf;
    var ps := Pieces(ts);
    forall t: Token ensures PieceOf(t) == Lexing.MINUS <==> t == Mark("-") {
      MinusPiece(t);
    }
    if TwoMinuses(ts) {
      var i :| 0 < i < |ts| && ts[i - 1] == Mark("-") && ts[i] == Mark("-");
      assert Lexing.DoubledAt(ps, i);
    }
    if Lexing.Doubled(ps) {
      var i :| 0 < i < |ps| && Lexing.DoubledAt(ps, i);
      assert ts[i - 1] == Mark("-") && ts[i] == Mark("-");
    }
  }

  /** White space does not count. */
  lemma {:induction false} ReadScan(ts: seq<Token>)
    requires Laid(ts)
    ensures Scan(Readings(Lexing.Tokens(Pieces(ts)))) == Scan(ts)
    decreases |ts|
  {
    hide Laid, PieceOf, Reading, Step, Pieces, Lexing.Tokens, Readings, Lexing.GoodPiece;
    if ts == [] {
      NothingRead();
    } else {
      var n := |ts| - 1;
      var init, last := ts[..n], ts[n];
      LaidInit(ts);
      LaidLast(ts);
      ReadScan(init);
      KnownReads(last);
      BlankStep(Scan(init), last);
      ReadPush(init, last);
      assert ts == init + [last];
      if IsSolid(last) {
        ScanPush(Readings(Lexing.Tokens(Pieces(init))), last);
      }
    }
  }

  lemma NothingRead()
    ensures Readings(Lexing.Tokens(Pieces([]))) == []
  {
  }

  lemma LaidLast(ts: seq<Token>)
    requires Laid(ts) && ts != []
    ensures Known(ts[|ts| - 1])
  {
    hide Known, Allowed;
    assert LaidAt(ts, |ts| - 1);
  }

  /** What is read of one more token. */
  lemma ReadPush(ts: seq<Token>, t: Token)
    requires IsSolid(t) ==> PieceOf(t).Tok? && Reading(PieceOf(t).t) == t
    requires !IsSolid(t) ==> !PieceOf(t).Tok?
    ensures var before, after := Readings(Lexing.Tokens(Pieces(ts))), Readings(Lexing.Tokens(Pieces(ts + [t])));
      after == if IsSolid(t) then before + [t] else before
  {
    hide PieceOf, Reading, Lexing.Tokens, Readings;
    var before := Lexing.Tokens(Pieces(ts));
    assert Pieces(ts + [t]) == Pieces(ts) + [PieceOf(t)];
    TokensPush(Pieces(ts), PieceOf(t));
    if IsSolid(t) {
      ReadingsPush(before, PieceOf(t).t);
    } else {
      assert before + [] == before;
    }
  }

  lemma BlankStep(sc: Scanned, t: Token)
    ensures !IsSolid(t) ==> Step(sc, t) == sc
  {
  }

  lemma ScanPush(ts: seq<Token>, t: Token)
    ensures Scan(ts + [t]) == Step(Scan(ts), t)
  {
    assert (ts + [t])[..|ts|] == ts;
  }

  lemma ReadingsPush(ts: seq<Lexing.Token>, t: Lexing.Token)
    ensures Readings(ts + [t]) == Readings(ts) + [Reading(t)]
  {
    assert (ts + [t])[..|ts|] == ts;
  }

  lemma LaidInit(ts: seq<Token>)
    requires Laid(ts) && ts != []
    ensures Laid(ts[..|ts| - 1])
  {
    hide Known, Allowed;
    var init := ts[..|ts| - 1];
    forall i | 0 <= i < |init| ensures LaidAt(init, i) {
      assert LaidAt(ts, i);
    }
  }

  lemma {:induction false} TokensPush(ps: seq<Lexing.Piece>, p: Lexing.Piece)
    ensures Lexing.Tokens(ps + [p]) == Lexing.Tokens(ps) + if p.Tok? then [p.t] else []
    decreases |ps|
  {
    if ps == [] {
      assert ps + [p] == [p] && [p][1..] == [];
    } else {
      assert (ps + [p])[1..] == ps[1..] + [p] && (ps + [p])[0] == ps[0];
      TokensPush(ps[1..], p);
      Assoc(if ps[0].Tok? then [ps[0].t] else [], Lexing.Tokens(ps[1..]), if p.Tok? then [p.t] else []);
    }
  }

  /** For everything that is laid out: the text reads back exactly where no two
      minus signs stand side by side, and is then nested as the tokens are. */
  lemma TextReads(ts: seq<Token>)
    requires Laid(ts)
    ensures ReadsBack(ts) <==> !TwoMinuses(ts)
    ensures ReadsBack(ts) && Scan(ts) == At([]) ==> NestedText(SourceOf(ts))
  {
    LaidIsLoose(ts);
    Lexing.LexExact(Pieces(ts));
    DoubledIsTwo(ts);
    ReadScan(ts);
  }

  /** A call whose argument is twice negated, `f(--b)`. */
  const OPENED := [Word("f")] + [Open(Paren)]
  const NEGATED := OPENED + [Mark("-")] + [Mark("-")] + [Word("b")]
  const CALL := NEGATED + [Close(Paren)] + [Newline]

  /** It is laid out as allowed, and nested, but the comment swallows the closing
      parenthesis, so that its text is not nested. */
  lemma CommentSwallows()
    ensures Laid(CALL) && Scan(CALL) == At([]) && !NestedText(SourceOf(CALL))
  {
    hide Laid, Scan, Readings;
    CallIsLaid();
    CallScans();
    CallLexes();
    OpenScans();
  }

  lemma CallIsLaid()
    ensures Laid(CALL)
  {
    hide Laid;
    LaidNone();
    var a, b, c := [Word("f")], OPENED, OPENED + [Mark("-")];
    var d := c + [Mark("-")];
    LaidPush([], Word("f"));
    assert [] + a == a;
    LaidPush(a, Open(Paren));
    LaidPush(b, Mark("-"));
    LaidPush(c, Mark("-"));
    LaidPush(d, Word("b"));
    LaidPush(NEGATED, Close(Paren));
    LaidPush(NEGATED + [Close(Paren)], Newline);
  }

  lemma LaidNone()
    ensures Laid([])
  {
  }

  lemma CallScans()
    ensures Scan(CALL) == At([])
  {
    hide Scan;
    OpenedScans();
    var c := OPENED + [Mark("-")];
    ScanPush(OPENED, Mark("-"));
    ScanPush(c, Mark("-"));
    ScanPush(c + [Mark("-")], Word("b"));
    ScanPush(NEGATED, Close(Paren));
    ScanPush(NEGATED + [Close(Paren)], Newline);
    assert [Bracketed(Paren)][1..] == [];
  }

  lemma OpenedScans()
    ensures Scan(OPENED) == At([Bracketed(Paren)])
  {
    ScanPush([], Word("f"));
    ScanPush([Word("f")], Open(Paren));
    assert [] + [Word("f")] == [Word("f")];
    assert [Bracketed(Paren)] + [] == [Bracketed(Paren)];
  }

  lemma OpenScans()
    ensures Scan(Readings([Lexing.Word("f"), Lexing.Mark("(")])) != At([])
  {
    hide Scan, Reading, Readings, Lexing.Good;
    var f, open := Lexing.Word("f"), Lexing.Mark("(");
    ShortReads("f");
    BracketReads(Paren);
    NoReadings();
    ReadingsPush([], f);
    ReadingsPush([f], open);
    assert [] + [f] == [f] && [f] + [open] == [f, open];
    assert [] + [Word("f")] == [Word("f")];
    OpenedScans();
  }

  lemma NoReadings()
    ensures Readings([]) == []
  {
  }

  lemma CallLexes()
    ensures Lexing.Lex(SourceOf(CALL)) == Lexing.Lexed([Lexing.Word("f"), Lexing.Mark("(")])
  {
    hide Lexing.Lex, SourceOf;
    var f, open := Lexing.Word("f"), Lexing.Mark("(");
    CallText();
    CommentRest("b)\n");
    Lexing.LexToken(open, "--" + "b)\n");
    Lexing.LexToken(f, "(" + ("--" + "b)\n"));
  }

  lemma TextFrom(ts: seq<Token>, i: nat)
    requires i < |ts|
    ensures Lexing.Text(Pieces(ts)[i..]) == Lexing.PieceText(PieceOf(ts[i])) + Lexing.Text(Pieces(ts)[i + 1..])
  {
    assert Pieces(ts)[i..][1..] == Pieces(ts)[i + 1..];
  }

  lemma CallText()
    ensures SourceOf(CALL) == "f" + ("(" + ("--" + "b)\n"))
  {
    hide Lexing.Text, Pieces;
    assert CALL == [Word("f"), Open(Paren), Mark("-"), Mark("-"), Word("b"), Close(Paren), Newline];
    TextFrom(CALL, 0);
    TextFrom(CALL, 1);
    TextFrom(CALL, 2);
    TextFrom(CALL, 3);
    TextFrom(CALL, 4);
    TextFrom(CALL, 5);
    TextFrom(CALL, 6);
    TextEnds(CALL);
    assert "b" + (")" + ("\n" + "")) == "b)\n";
    assert "-" + ("-" + "b)\n") == "--" + "b)\n";
  }

  lemma TextEnds(ts: seq<Token>)
    ensures Lexing.Text(Pieces(ts)[|ts|..]) == "" && Pieces(ts)[0..] == Pieces(ts)
  {
  }

  lemma CommentRest(line: string)
    requires line == "b)\n"
    ensures Lexing.Lex("--" + line) == Lexing.Lexed([])
  {
    hide Lexing.Lex;
    Lexing.LexComment(line);
    Lexing.SpanExact("b)", "\n", Lexing.InLine);
    assert line == "b)" + "\n" && line[2..] == "\n" + "";
    Lexing.LexBlank("\n", "");
    Lexing.LexNothing();
  }
}
