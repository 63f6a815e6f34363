/** The text of Luau programs as the generators write it, and the lexer that
  reads it: white space, comments up to the end of the line, names, numbers,
  strings and marks, the longest first.
 */
module Lexing {
  import Formatting

  datatype Token = Word(s: string) | Number(s: string) | Quoted(s: string) | Mark(s: string)

  // ----- the lexer -----

  predicate IsDigit(c: char) { '0' <= c <= '9' }

  predicate IsLetter(c: char) { 'a' <= c <= 'z' || 'A' <= c <= 'Z' || c == '_' }

  predicate IsBlank(c: char) { c == ' ' || c == '\n' }

  datatype Class = InWord | InNumber | InQuotes | InLine

  predicate In(c: char, k: Class)
  {
    match k
    case InWord => IsLetter(c) || IsDigit(c)
    case InNumber => IsLetter(c) || IsDigit(c) || c == '.'
    case InQuotes => c != '"'
    case InLine => c != '\n'
  }

  /** How many characters of a class stand in front. */
  function Span(s: string, k: Class): (n: nat)
    ensures n <= |s|
  {
    if s == [] || !In(s[0], k) then 0 else 1 + Span(s[1..], k)
  }

  predicate IsSingle(c: char)
  {
    c in {'(', ')', '[', ']', '{', '}', '+', '-', '*', '/', '%', '^', '<', '>', '=', '#', '.', ',', ':', ';'}
  }

  predicate IsPair(c: char, d: char)
  {
    || (d == '=' && c in {'<', '>', '=', '~', '+', '-', '*', '/', '%'})
    || (c == '/' && d == '/') || (c == '.' && d == '.')
  }

  predicate IsMark(s: string)
  {
    || (|s| == 1 && IsSingle(s[0]))
    || (|s| == 2 && IsPair(s[0], s[1]))
    || (|s| == 3 && s[0] == '.' && s[1] == '.' && s[2] == '=')
  }

  datatype Lexed = Lexed(ts: seq<Token>) | Unreadable

  function Then(t: Token, r: Lexed): Lexed
  {
    if r.Unreadable? then r else Lexed([t] + r.ts)
  }

  /** The longest mark in front. */
  function MarkLength(s: string): (n: nat)
    ensures n <= |s|
  {
    if |s| >= 3 && IsMark(s[..3]) then 3
    else if |s| >= 2 && IsMark(s[..2]) then 2
    else if |s| >= 1 && IsMark(s[..1]) then 1
    else 0
  }

  predicate IsComment(s: string)
  {
    |s| >= 2 && s[0] == '-' && s[1] == '-'
  }

  function Lex(s: string): Lexed
    decreases |s|
  {
    if s == [] then Lexed([])
    else if IsBlank(s[0]) then Lex(s[1..])
    else if IsLetter(s[0]) then
      var n := 1 + Span(s[1..], InWord);
      Then(Word(s[..n]), Lex(s[n..]))
    else if IsDigit(s[0]) then
      var n := 1 + Span(s[1..], InNumber);
      Then(Number(s[..n]), Lex(s[n..]))
    else if s[0] == '"' then
      var n := 1 + Span(s[1..], InQuotes);
      if n == |s| then Unreadable else Then(Quoted(s[1..n]), Lex(s[n + 1..]))
    else if IsComment(s) then Lex(s[2 + Span(s[2..], InLine)..])
    else
      var n := MarkLength(s);
      if n == 0 then Unreadable else Then(Mark(s[..n]), Lex(s[n..]))
  }

  // ----- one token -----

  predicate All(s: string, k: Class)
  {
    forall i :: 0 <= i < |s| ==> In(s[i], k)
  }

  /** A token that the lexer could give; strings stay on their line. */
  predicate Good(t: Token)
  {
    match t
    case Word(s) => s != [] && IsLetter(s[0]) && All(s, InWord)
    case Number(s) => s != [] && IsDigit(s[0]) && All(s, InNumber)
    case Quoted(s) => All(s, InQuotes) && All(s, InLine) && '-' !in s
    case Mark(s) => IsMark(s)
  }

  /** A character that ends the token. */
  predicate Ends(t: Token, c: char)
  {
    match t
    case Word(_) => !In(c, InWord)
    case Number(_) => !In(c, InNumber)
    case Quoted(_) => true
    case Mark(s) =>
      && (|s| == 1 ==> !IsPair(s[0], c) && !(s[0] == '-' && c == '-'))
      && (|s| == 2 ==> !(s[0] == '.' && c == '='))
  }

  function TokenText(t: Token): string
  {
    if t.Quoted? then "\"" + t.s + "\"" else t.s
  }

  lemma {:induction false} SpanExact(w: string, rest: string, k: Class)
    requires All(w, k) && (rest == [] || !In(rest[0], k))
    ensures Span(w + rest, k) == |w|
    decreases |w|
  {
    if w == [] {
      assert w + rest == rest;
    } else {
      assert (w + rest)[1..] == w[1..] + rest && (w + rest)[0] == w[0];
      SpanExact(w[1..], rest, k);
    }
  }

  /** The lexer takes off exactly the token in front. */
  lemma LexToken(t: Token, rest: string)
    requires Good(t) && (rest == [] || Ends(t, rest[0]))
    ensures Lex(TokenText(t) + rest) == Then(t, Lex(rest))
  {
    match t
    case Word(w) => LexWord(w, rest);
    case Number(w) => LexNumber(w, rest);
    case Quoted(w) => LexQuoted(w, rest);
    case Mark(w) => LexMark(w, rest);
  }

  lemma Front(w: string, rest: string)
    requires w != []
    ensures var s := w + rest; s[0] == w[0] && s[1..] == w[1..] + rest && s[..|w|] == w && s[|w|..] == rest
  {
  }

  lemma LexWord(w: string, rest: string)
    requires Good(Word(w)) && (rest == [] || !In(rest[0], InWord))
    ensures Lex(w + rest) == Then(Word(w), Lex(rest))
  {
    hide Span, MarkLength, IsComment;
    Front(w, rest);
    SpanExact(w[1..], rest, InWord);
  }

  lemma LexNumber(w: string, rest: string)
    requires Good(Number(w)) && (rest == [] || !In(rest[0], InNumber))
    ensures Lex(w + rest) == Then(Number(w), Lex(rest))
  {
    hide Span, MarkLength, IsComment;
    Front(w, rest);
    SpanExact(w[1..], rest, InNumber);
  }

  lemma LexQuoted(w: string, rest: string)
    requires Good(Quoted(w))
    ensures Lex("\"" + w + "\"" + rest) == Then(Quoted(w), Lex(rest))
  {
    hide Span, MarkLength, IsComment;
    var s := "\"" + w + "\"" + rest;
    assert s[0] == '"' && s[1..] == w + ("\"" + rest);
    SpanExact(w, "\"" + rest, InQuotes);
    assert s[1..|w| + 1] == w && s[|w| + 2..] == rest;
  }

  lemma LexMark(w: string, rest: string)
    requires Good(Mark(w)) && (rest == [] || Ends(Mark(w), rest[0]))
    ensures Lex(w + rest) == Then(Mark(w), Lex(rest))
  {
    hide MarkLength, Span;
    var s := w + rest;
    assert s[0] == w[0];
    MarkStarts(w);
    MarkExact(w, rest);
    assert s[..|w|] == w && s[|w|..] == rest;
  }

  lemma MarkStarts(w: string)
    requires IsMark(w)
    ensures var c := w[0]; !IsBlank(c) && !IsLetter(c) && !IsDigit(c) && c != '"'
    ensures '-' in w ==> w == "-" || w == "-="
    ensures '\n' !in w
  {
  }

  lemma MarkExact(w: string, rest: string)
    requires IsMark(w) && (rest == [] || Ends(Mark(w), rest[0]))
    ensures MarkLength(w + rest) == |w| && !IsComment(w + rest)
  {
    var s := w + rest;
    if |w| == 1 {
      assert |s| >= 2 ==> s[..2] == [w[0], rest[0]];
      assert |s| >= 3 ==> s[..3] == [w[0], rest[0], rest[1]];
      assert s[..1] == w;
    } else if |w| == 2 {
      assert |s| >= 3 ==> s[..3] == [w[0], w[1], rest[0]];
      assert s[..2] == w;
    } else {
      assert s[..3] == w;
    }
  }

  // ----- tokens and white space -----

  datatype Piece = Tok(t: Token) | Gap | Newline

  function PieceText(p: Piece): string
  {
    match p
    case Tok(t) => TokenText(t)
    case Gap => " "
    case Newline => "\n"
  }

  function Text(ps: seq<Piece>): string
  {
    if ps == [] then "" else PieceText(ps[0]) + Text(ps[1..])
  }

  function Tokens(ps: seq<Piece>): seq<Token>
  {
    if ps == [] then [] else (if ps[0].Tok? then [ps[0].t] else []) + Tokens(ps[1..])
  }

  predicate GoodPiece(p: Piece) { p.Tok? ==> Good(p.t) }

  function First(p: Piece): char
    requires GoodPiece(p)
  {
    PieceText(p)[0]
  }

  /** Two pieces may stand side by side. */
  predicate Beside(p: Piece, q: Piece)
    requires GoodPiece(q)
  {
    p.Tok? ==> Ends(p.t, First(q))
  }

  predicate AllGood(ps: seq<Piece>)
  {
    forall i :: 0 <= i < |ps| ==> GoodPiece(ps[i])
  }

  predicate Spaced(ps: seq<Piece>)
  {
    AllGood(ps) && forall i :: 0 < i < |ps| ==> Beside(ps[i - 1], ps[i])
  }

  lemma {:induction false} LexPieces(ps: seq<Piece>)
    requires Spaced(ps)
    ensures Lex(Text(ps)) == Lexed(Tokens(ps))
    decreases |ps|
  {
    hide Lex, Good, Ends;
    if ps == [] {
      LexNothing();
    } else {
      var rest := ps[1..];
      SpacedTail(ps);
      LexPieces(rest);
      TextStarts(rest);
      if ps[0].Tok? {
        assert rest != [] ==> Beside(ps[0], ps[1]);
        LexToken(ps[0].t, Text(rest));
      } else {
        LexBlank(PieceText(ps[0]), Text(rest));
      }
    }
  }

  lemma LexNothing()
    ensures Lex([]) == Lexed([])
  {
  }

  lemma LexBlank(b: string, s: string)
    requires b == " " || b == "\n"
    ensures Lex(b + s) == Lex(s)
  {
    assert (b + s)[1..] == s;
  }

  lemma SpacedTail(ps: seq<Piece>)
    requires Spaced(ps) && ps != []
    ensures Spaced(ps[1..])
  {
    hide Good, Ends, First;
    var rest := ps[1..];
    forall i | 0 < i < |rest| ensures Beside(rest[i - 1], rest[i]) {
      assert rest[i - 1] == ps[i] && rest[i] == ps[i + 1];
    }
  }

  lemma PieceTextFilled(p: Piece)
    requires GoodPiece(p)
    ensures PieceText(p) != []
  {
  }

  lemma TextStarts(ps: seq<Piece>)
    requires AllGood(ps)
    ensures if ps == [] then Text(ps) == [] else Text(ps) != [] && Text(ps)[0] == First(ps[0])
  {
    hide Good;
    if ps != [] {
      PieceTextFilled(ps[0]);
    }
  }

  // ----- text with accidental comments -----

  const MINUS := Tok(Mark("-"))

  /** Side by side in the text: nothing runs together, or two minus signs do. */
  predicate Near(p: Piece, q: Piece)
    requires GoodPiece(q)
  {
    Beside(p, q) || (p == MINUS && q == MINUS)
  }

  predicate Loose(ps: seq<Piece>)
  {
    AllGood(ps) && forall i :: 0 < i < |ps| ==> Near(ps[i - 1], ps[i])
  }

  /** Two minus signs side by side. */
  ghost predicate Doubled(ps: seq<Piece>)
  {
    exists i :: 0 < i < |ps| && DoubledAt(ps, i)
  }

  predicate DoubledAt(ps: seq<Piece>, i: nat)
    requires 0 < i < |ps|
  {
    ps[i - 1] == MINUS && ps[i] == MINUS
  }

  lemma LooseTail(ps: seq<Piece>)
    requires Loose(ps) && ps != []
    ensures Loose(ps[1..])
    ensures Doubled(ps) <==> Doubled(ps[1..]) || (|ps| > 1 && ps[0] == MINUS && ps[1] == MINUS)
  {
    hide Near, GoodPiece;
    var rest := ps[1..];
    forall i | 0 < i < |rest| ensures Near(rest[i - 1], rest[i]) {
      assert rest[i - 1] == ps[i] && rest[i] == ps[i + 1];
    }
    if Doubled(ps) {
      var i :| 0 < i < |ps| && DoubledAt(ps, i);
      if i > 1 {
        assert DoubledAt(rest, i - 1);
      }
    }
    if Doubled(rest) {
      var i :| 0 < i < |rest| && DoubledAt(rest, i);
      assert DoubledAt(ps, i + 1);
    }
    if |ps| > 1 && ps[0] == MINUS && ps[1] == MINUS {
      assert DoubledAt(ps, 1);
    }
  }

  /** Text without two minus signs side by side is well spaced. */
  lemma LooseIsSpaced(ps: seq<Piece>)
    requires Loose(ps) && !Doubled(ps)
    ensures Spaced(ps)
  {
    hide Beside, GoodPiece;
    forall i | 0 < i < |ps| ensures Beside(ps[i - 1], ps[i]) {
      assert Near(ps[i - 1], ps[i]) && !DoubledAt(ps, i);
    }
  }

  /** The rest of a line is the text of some pieces, and what follows is the
      text of the others. */
  lemma {:induction false} LineEnds(ps: seq<Piece>) returns (k: nat)
    requires Loose(ps)
    ensures k <= |ps| && Loose(ps[k..]) && |Tokens(ps[k..])| <= |Tokens(ps)|
    ensures Text(ps)[Span(Text(ps), InLine)..] == Text(ps[k..])
    decreases |ps|
  {
    hide Loose, Good;
    if ps == [] {
      k := 0;
    } else if ps[0] == Newline {
      k := 0;
      assert ps[0..] == ps;
    } else {
      LooseTail(ps);
      LooseGood(ps);
      k := LineEnds(ps[1..]);
      SpanOver(ps[0], Text(ps[1..]));
      assert ps[1..][k..] == ps[k + 1..];
      k := k + 1;
    }
  }

  lemma LooseGood(ps: seq<Piece>)
    requires Loose(ps) && ps != []
    ensures GoodPiece(ps[0])
  {
  }

  /** No piece but a line break holds one. */
  lemma SpanOver(p: Piece, s: string)
    requires GoodPiece(p) && p != Newline
    ensures (PieceText(p) + s)[Span(PieceText(p) + s, InLine)..] == s[Span(s, InLine)..]
  {
    hide Span;
    PieceOnLine(p);
    SpanMore(PieceText(p), s);
    var n := Span(s, InLine);
    assert (PieceText(p) + s)[|PieceText(p)| + n..] == s[n..];
  }

  lemma PieceOnLine(p: Piece)
    requires GoodPiece(p) && p != Newline
    ensures All(PieceText(p), InLine)
  {
    if p.Tok? {
      match p.t
      case Word(s) => assert forall i :: 0 <= i < |s| ==> In(s[i], InWord);
      case Number(s) => assert forall i :: 0 <= i < |s| ==> In(s[i], InNumber);
      case Quoted(s) =>
      case Mark(s) => MarkStarts(s);
    }
  }

  lemma {:induction false} SpanMore(w: string, s: string)
    requires All(w, InLine)
    ensures Span(w + s, InLine) == |w| + Span(s, InLine)
    decreases |w|
  {
    if w == [] {
      assert w + s == s;
    } else {
      assert (w + s)[1..] == w[1..] + s && (w + s)[0] == w[0];
      SpanMore(w[1..], s);
    }
  }

  /** A comment swallows tokens: what is read is never more than what was
      written, and less where two minus signs stand side by side. */
  lemma {:induction false} LexLoose(ps: seq<Piece>)
    requires Loose(ps)
    ensures var r := Lex(Text(ps)); r.Lexed? && |r.ts| <= |Tokens(ps)| && (Doubled(ps) ==> |r.ts| < |Tokens(ps)|)
    decreases |ps|
  {
    hide Lex, Good, Ends, Loose, Doubled;
    if ps == [] {
      LexNothing();
      NotDoubled();
    } else {
      var rest := ps[1..];
      LooseTail(ps);
      if |ps| > 1 && ps[0] == MINUS && ps[1] == MINUS {
        var k := LineEnds(ps[2..]) by { LooseTail(rest); assert rest[1..] == ps[2..]; }
        LexLoose(ps[2..][k..]);
        TwoMinus(ps);
        LexComment(Text(ps[2..]));
      } else {
        LexLoose(rest);
        LooseStep(ps);
        if ps[0].Tok? {
          LexToken(ps[0].t, Text(rest));
        } else {
          LexBlank(PieceText(ps[0]), Text(rest));
        }
      }
    }
  }

  lemma NotDoubled()
    ensures !Doubled([])
  {
  }

  /** What the first piece is followed by ends it. */
  lemma LooseStep(ps: seq<Piece>)
    requires Loose(ps) && ps != [] && !(|ps| > 1 && ps[0] == MINUS && ps[1] == MINUS)
    ensures ps[0].Tok? ==> Good(ps[0].t) && (Text(ps[1..]) == [] || Ends(ps[0].t, Text(ps[1..])[0]))
  {
    hide Good, Ends;
    TextStarts(ps[1..]);
    if |ps| > 1 {
      assert Near(ps[0], ps[1]);
    }
  }

  lemma TwoMinus(ps: seq<Piece>)
    requires |ps| > 1 && ps[0] == MINUS && ps[1] == MINUS
    ensures Text(ps) == "--" + Text(ps[2..]) && |Tokens(ps)| == 2 + |Tokens(ps[2..])|
  {
    assert ps[1..][1..] == ps[2..];
    assert Text(ps) == "-" + Text(ps[1..]);
    assert Text(ps[1..]) == "-" + Text(ps[2..]);
    assert "-" + ("-" + Text(ps[2..])) == "--" + Text(ps[2..]);
  }

  lemma LexComment(s: string)
    ensures Lex("--" + s) == Lex(s[Span(s, InLine)..])
  {
    var t := "--" + s;
    assert t[2..] == s && t[0] == '-' && t[1] == '-';
    assert t[2 + Span(s, InLine)..] == s[Span(s, InLine)..];
  }

  /** The text reads as what was written exactly where no two minus signs stand
      side by side. */
  lemma LexExact(ps: seq<Piece>)
    requires Loose(ps)
    ensures Lex(Text(ps)) == Lexed(Tokens(ps)) <==> !Doubled(ps)
  {
    hide Lex, Loose, Doubled;
    if Doubled(ps) {
      LexLoose(ps);
    } else {
      LooseIsSpaced(ps);
      LexPieces(ps);
    }
  }

  // ----- numerals -----

  function Numeral(n: nat): string { Formatting.ToDigits(n, 10, false) }

  lemma NumeralText(n: nat)
    ensures Numeral(n) != [] && forall i :: 0 <= i < |Numeral(n)| ==> IsDigit(Numeral(n)[i])
  {
    var s := Numeral(n);
    Formatting.DigitsAreDigits(n, 10, false);
    forall i | 0 <= i < |s| ensures IsDigit(s[i]) {
      assert Formatting.IsDigit(s[i], 10);
    }
  }

  lemma NumeralIsGood(n: nat, f: nat)
    ensures Good(Number(Numeral(n))) && Good(Number(Numeral(n) + "." + Numeral(f)))
  {
    hide Numeral;
    NumeralText(n);
    NumeralText(f);
  }
}
