/** Integer printing and reading of the host shims: the integer conversions of
  `snprintf`, and `strtoul`.
 */
module Formatting {

  datatype Conv = Unsigned | Octal | Hex(upper: bool)

  datatype Precision = NoPrecision | Digits(n: nat)

  datatype Spec = Spec(minus: bool, plus: bool, space: bool, zero: bool, alt: bool, width: nat, precision: Precision)

  // ----- digits -----

  /** The value of a digit character in any base up to 36, or -1. */
  function DigitOf(c: char): (d: int)
    ensures -1 <= d < 36
  {
    if '0' <= c <= '9' then (c - '0') as int
    else if 'a' <= c <= 'z' then (c - 'a') as int + 10
    else if 'A' <= c <= 'Z' then (c - 'A') as int + 10
    else -1
  }

  function DigitChar(d: nat, upper: bool): (c: char)
    requires d < 16
    ensures DigitOf(c) == d
  {
    if d < 10 then '0' + d as char else if upper then 'A' + (d - 10) as char else 'a' + (d - 10) as char
  }

  predicate IsDigit(c: char, radix: nat) { 0 <= DigitOf(c) < radix }

  predicate AllDigits(s: string, radix: nat)
  {
    forall i :: 0 <= i < |s| ==> IsDigit(s[i], radix)
  }

  /** The number that digits stand for. */
  function ValueOf(s: string, radix: nat): int
  {
    if s == [] then 0 else ValueOf(s[..|s| - 1], radix) * radix + DigitOf(s[|s| - 1])
  }

  lemma ValuePush(s: string, c: char, radix: nat)
    ensures ValueOf(s + [c], radix) == ValueOf(s, radix) * radix + DigitOf(c)
  {
    var t := s + [c];
    assert t[..|t| - 1] == s;
  }

  /** The radixes the conversions use. */
  predicate IsRadix(r: nat) { r == 8 || r == 10 || r == 16 }

  lemma Shrinks(v: nat, radix: nat)
    requires IsRadix(radix) && radix <= v
    ensures v / radix < v && v / radix * radix + v % radix == v
  {
    if radix == 8 {
    } else if radix == 10 {
    } else {
    }
  }

  function ToDigits(v: nat, radix: nat, upper: bool): string
    requires IsRadix(radix)
  {
    if v < radix then [DigitChar(v, upper)]
    else
      Shrinks(v, radix);
      ToDigits(v / radix, radix, upper) + [DigitChar(v % radix, upper)]
  }

  lemma {:induction false} DigitsAreDigits(v: nat, radix: nat, upper: bool)
    requires IsRadix(radix)
    ensures ToDigits(v, radix, upper) != [] && AllDigits(ToDigits(v, radix, upper), radix)
    decreases v
  {
    if v >= radix {
      Shrinks(v, radix);
      DigitsAreDigits(v / radix, radix, upper);
    }
  }

  lemma {:induction false} DigitsRead(v: nat, radix: nat, upper: bool)
    requires IsRadix(radix)
    ensures ValueOf(ToDigits(v, radix, upper), radix) == v
    decreases v
  {
    if v < radix {
      ValuePush([], DigitChar(v, upper), radix);
      assert [] + [DigitChar(v, upper)] == [DigitChar(v, upper)];
    } else {
      Shrinks(v, radix);
      DigitsRead(v / radix, radix, upper);
      PushDigit(v, radix, upper);
    }
  }

  lemma PushDigit(v: nat, radix: nat, upper: bool)
    requires IsRadix(radix) && radix <= v
    requires v / radix < v && v / radix * radix + v % radix == v
      && ValueOf(ToDigits(v / radix, radix, upper), radix) == v / radix
    ensures ValueOf(ToDigits(v, radix, upper), radix) == v
  {
    hide ValueOf;
    ValuePush(ToDigits(v / radix, radix, upper), DigitChar(v % radix, upper), radix);
  }

  function Zeros(n: nat): string { seq(n, _ => '0') }

  function Spaces(n: nat): string { seq(n, _ => ' ') }

  lemma {:induction false} ZerosAreNothing(n: nat, radix: nat)
    ensures ValueOf(Zeros(n), radix) == 0
  {
    if n > 0 {
      ZerosAreNothing(n - 1, radix);
      ValuePush(Zeros(n - 1), '0', radix);
      assert Zeros(n) == Zeros(n - 1) + ['0'];
    }
  }

  lemma {:induction false} LeadingZeros(n: nat, s: string, radix: nat)
    ensures ValueOf(Zeros(n) + s, radix) == ValueOf(s, radix)
    decreases |s|
  {
    hide ValueOf;
    if s == [] {
      ZerosAreNothing(n, radix);
      assert Zeros(n) + s == Zeros(n);
      ZerosAreNothing(0, radix);
      assert Zeros(0) == s;
    } else {
      var init, last := s[..|s| - 1], s[|s| - 1];
      LeadingZeros(n, init, radix);
      ValuePush(init, last, radix);
      ValuePush(Zeros(n) + init, last, radix);
      assert s == init + [last] && Zeros(n) + s == Zeros(n) + init + [last];
    }
  }

  // ----- printing -----

  function PadStart(s: string, n: nat): string
  {
    if |s| >= n then s else Zeros(n - |s|) + s
  }

  function SignPrefix(spec: Spec, negative: bool): string
  {
    if negative then "-" else if spec.plus then "+" else if spec.space then " " else ""
  }

  /** Fill up to the width: spaces on the right, zeros after the sign, or spaces on the left. */
  function ApplyPadding(s: string, spec: Spec): string
  {
    if |s| >= spec.width then s
    else
      var pad := spec.width - |s|;
      if spec.minus then s + Spaces(pad)
      else if spec.zero then
        if s != [] && (s[0] == '-' || s[0] == '+' || s[0] == ' ') then [s[0]] + Zeros(pad) + s[1..] else Zeros(pad) + s
      else Spaces(pad) + s
  }

  function Plain(v: nat, radix: nat, upper: bool, precision: Precision): string
    requires IsRadix(radix)
  {
    if precision.Digits? then PadStart(ToDigits(v, radix, upper), precision.n) else ToDigits(v, radix, upper)
  }

  /** `%d` and `%i`. */
  function FormatSigned(v: int, spec: Spec): string
  {
    ApplyPadding(SignPrefix(spec, v < 0) + Plain(if v < 0 then -v else v, 10, false, spec.precision), spec)
  }

  function Radix(conv: Conv): (r: nat)
    ensures IsRadix(r)
  {
    match conv
    case Unsigned => 10
    case Octal => 8
    case Hex(_) => 16
  }

  function AltPrefix(v: nat, spec: Spec, conv: Conv): string
  {
    if !spec.alt || v == 0 || conv.Unsigned? then ""
    else if conv.Octal? then "0"
    else if conv.upper then "0X" else "0x"
  }

  function PlainUnsigned(v: nat, spec: Spec, conv: Conv): string
  {
    Plain(v, Radix(conv), conv.Hex? && conv.upper, spec.precision)
  }

  /** `%u`, `%o`, `%x` and `%X`. */
  function FormatUnsigned(v: nat, spec: Spec, conv: Conv): string
  {
    ApplyPadding(AltPrefix(v, spec, conv) + PlainUnsigned(v, spec, conv), spec)
  }

  lemma PlainReads(v: nat, radix: nat, upper: bool, precision: Precision)
    requires IsRadix(radix)
    ensures var s := Plain(v, radix, upper, precision);
      s != [] && AllDigits(s, radix) && ValueOf(s, radix) == v
    ensures var d := |ToDigits(v, radix, upper)|;
      |Plain(v, radix, upper, precision)| == if precision.Digits? && precision.n > d then precision.n else d
  {
    hide ToDigits, ValueOf;
    var digits := ToDigits(v, radix, upper);
    DigitsRead(v, radix, upper);
    DigitsAreDigits(v, radix, upper);
    if precision.Digits? && |digits| < precision.n {
      LeadingZeros(precision.n - |digits|, digits, radix);
    }
  }

  // ----- what a reader of signed numbers sees -----

  predicate IsSpace(c: char) { c == ' ' || 9 as char <= c <= 13 as char }

  predicate AllSpace(s: string) { forall i :: 0 <= i < |s| ==> IsSpace(s[i]) }

  predicate IsSign(c: char) { c == '-' || c == '+' }

  /** White space, at most one sign, digits, white space: the number is the
      digits' value, negated by a minus sign. */
  predicate ReadsAt(s: string, p: nat, q: nat, e: nat, v: int)
  {
    && p <= q < e <= |s|
    && AllSpace(s[..p]) && AllSpace(s[e..]) && AllDigits(s[q..e], 10)
    && (q == p || (q == p + 1 && IsSign(s[p])))
    && v == (if s[p] == '-' then -ValueOf(s[q..e], 10) else ValueOf(s[q..e], 10))
  }

  ghost predicate Reads(s: string, v: int)
  {
    exists p: nat, q: nat, e: nat :: ReadsAt(s, p, q, e, v)
  }

  lemma SpacesAt(s: string, p: nat)
    requires p <= |s| && AllSpace(s[..p])
    ensures forall k :: 0 <= k < p ==> IsSpace(s[k])
  {
    forall k | 0 <= k < p ensures IsSpace(s[k]) {
      assert s[..p][k] == s[k];
    }
  }

  lemma SpacesFrom(s: string, e: nat)
    requires e <= |s| && AllSpace(s[e..])
    ensures forall k :: e <= k < |s| ==> IsSpace(s[k])
  {
    forall k | e <= k < |s| ensures IsSpace(s[k]) {
      assert s[e..][k - e] == s[k];
    }
  }

  lemma DigitsAt(s: string, q: nat, e: nat, b: nat)
    requires q <= e <= |s| && AllDigits(s[q..e], b)
    ensures forall k :: q <= k < e ==> IsDigit(s[k], b)
  {
    forall k | q <= k < e ensures IsDigit(s[k], b) {
      assert s[q..e][k - q] == s[k];
    }
  }

  /** White space ends where something else begins. */
  lemma SameStop(s: string, p: nat, p': nat)
    requires p < |s| && p' < |s| && AllSpace(s[..p]) && AllSpace(s[..p']) && !IsSpace(s[p]) && !IsSpace(s[p'])
    ensures p == p'
  {
    SpacesAt(s, p);
    SpacesAt(s, p');
  }

  lemma Boundary(s: string, p: nat, q: nat, e: nat, v: int)
    requires ReadsAt(s, p, q, e, v)
    ensures !IsSpace(s[p]) && (q == p <==> !IsSign(s[p])) && !IsSpace(s[e - 1])
  {
    hide ValueOf;
    assert s[q..e][0] == s[q] && s[q..e][e - 1 - q] == s[e - 1];
  }

  /** A text reads as at most one number. */
  lemma ReadingIsUnique(s: string, v: int, w: int)
    requires Reads(s, v) && Reads(s, w)
    ensures v == w
  {
    var p: nat, q: nat, e: nat :| ReadsAt(s, p, q, e, v);
    var p': nat, q': nat, e': nat :| ReadsAt(s, p', q', e', w);
    hide ValueOf, AllDigits, IsDigit;
    Boundary(s, p, q, e, v);
    Boundary(s, p', q', e', w);
    SameStop(s, p, p');
    SpacesFrom(s, e);
    SpacesFrom(s, e');
  }

  lemma PiecesRead(front: string, sign: string, digits: string, back: string, v: int)
    requires AllSpace(front) && AllSpace(back)
    requires sign == "" || sign == "-" || sign == "+" || sign == " "
    requires digits != [] && AllDigits(digits, 10)
    requires v == if sign == "-" then -ValueOf(digits, 10) else ValueOf(digits, 10)
    ensures Reads(front + sign + digits + back, v)
  {
    hide ValueOf;
    var s := front + sign + digits + back;
    var p := if sign == " " then |front| + 1 else |front|;
    var q := |front| + |sign|;
    var e := q + |digits|;
    assert s[q..e] == digits && s[e..] == back;
    assert IsDigit(digits[0], 10) && s[q] == digits[0];
    assert s[..p] == if sign == " " then front + " " else front;
    assert sign != "" ==> s[|front|] == sign[0];
    assert ReadsAt(s, p, q, e, v);
  }

  /** Zero padding goes between sign and digits. */
  lemma ZeroPadded(sign: string, digits: string, spec: Spec)
    requires sign == "" || sign == "-" || sign == "+" || sign == " "
    requires digits != [] && AllDigits(digits, 10)
    requires spec.zero && !spec.minus && |sign + digits| < spec.width
    ensures ApplyPadding(sign + digits, spec) == sign + Zeros(spec.width - |sign + digits|) + digits
  {
    var s, pad := sign + digits, spec.width - |sign + digits|;
    if sign == "" {
      assert s == digits && IsDigit(s[0], 10);
      assert Zeros(pad) + s == sign + Zeros(pad) + digits;
    } else {
      assert [s[0]] == sign && s[1..] == digits;
    }
  }

  lemma ZeroPaddedReads(sign: string, digits: string, spec: Spec, v: int)
    requires sign == "" || sign == "-" || sign == "+" || sign == " "
    requires digits != [] && AllDigits(digits, 10) && spec.zero && !spec.minus && |sign + digits| < spec.width
    requires v == if sign == "-" then -ValueOf(digits, 10) else ValueOf(digits, 10)
    ensures Reads(ApplyPadding(sign + digits, spec), v)
  {
    hide ValueOf, Reads, ApplyPadding;
    var pad := spec.width - |sign + digits|;
    LeadingZeros(pad, digits, 10);
    PiecesRead([], sign, Zeros(pad) + digits, [], v);
    ZeroPadded(sign, digits, spec);
    assert sign + Zeros(pad) + digits == [] + sign + (Zeros(pad) + digits) + [];
  }

  lemma PaddedReads(sign: string, digits: string, spec: Spec, v: int)
    requires sign == "" || sign == "-" || sign == "+" || sign == " "
    requires digits != [] && AllDigits(digits, 10)
    requires v == if sign == "-" then -ValueOf(digits, 10) else ValueOf(digits, 10)
    ensures Reads(ApplyPadding(sign + digits, spec), v)
  {
    hide ValueOf, Reads;
    var s := sign + digits;
    if |s| >= spec.width {
      PiecesRead([], sign, digits, [], v);
      assert s == [] + sign + digits + [];
    } else {
      var pad := spec.width - |s|;
      if spec.minus {
        PiecesRead([], sign, digits, Spaces(pad), v);
        assert s + Spaces(pad) == [] + sign + digits + Spaces(pad);
      } else if spec.zero {
        ZeroPaddedReads(sign, digits, spec, v);
      } else {
        PiecesRead(Spaces(pad), sign, digits, [], v);
        assert Spaces(pad) + s == Spaces(pad) + sign + digits + [];
      }
    }
  }

  /** Printing with `%d` under any flags, width and precision gives a text that
      reads as the number and as no other, as long as width, sign, precision
      and digits ask for. */
  lemma SignedRoundTrip(v: int, spec: Spec)
    ensures Reads(FormatSigned(v, spec), v)
    ensures forall w :: Reads(FormatSigned(v, spec), w) ==> w == v
    ensures var d := |ToDigits(if v < 0 then -v else v, 10, false)|;
      var body := (if v < 0 || spec.plus || spec.space then 1 else 0)
                  + if spec.precision.Digits? && spec.precision.n > d then spec.precision.n else d;
      |FormatSigned(v, spec)| == if body < spec.width then spec.width else body
  {
    hide ToDigits, ValueOf, Reads, Plain;
    var n: nat := if v < 0 then -v else v;
    PlainReads(n, 10, false, spec.precision);
    PaddedReads(SignPrefix(spec, v < 0), Plain(n, 10, false, spec.precision), spec, v);
    forall w | Reads(FormatSigned(v, spec), w) ensures w == v {
      ReadingIsUnique(FormatSigned(v, spec), v, w);
    }
  }

  // ----- where the padding stands -----

  predicate AllAre(s: string, c: char)
  {
    forall i :: 0 <= i < |s| ==> s[i] == c
  }

  predicate IsSignOrBlank(c: char) { c == '-' || c == '+' || c == ' ' }

  /** `out` is `t` filled up to the width: behind it with blanks, in front of it
      with blanks, or with zeros behind its sign. */
  predicate Filled(t: string, spec: Spec, out: string)
  {
    var n := if |t| < spec.width then spec.width - |t| else 0;
    && |out| == |t| + n
    && if spec.minus then out[..|t|] == t && AllAre(out[|t|..], ' ')
       else if !spec.zero then out[n..] == t && AllAre(out[..n], ' ')
       else if t != [] && IsSignOrBlank(t[0]) then
         out[0] == t[0] && AllAre(out[1..n + 1], '0') && out[n + 1..] == t[1..]
       else AllAre(out[..n], '0') && out[n..] == t
  }

  lemma PaddingFills(t: string, spec: Spec)
    ensures Filled(t, spec, ApplyPadding(t, spec))
    ensures ApplyPadding(t, spec.(width := 0)) == t
  {
    var out := ApplyPadding(t, spec);
    if |t| < spec.width {
      var pad := spec.width - |t|;
      if spec.minus {
        assert out[..|t|] == t && out[|t|..] == Spaces(pad);
      } else if !spec.zero {
        assert out[..pad] == Spaces(pad) && out[pad..] == t;
      } else if t != [] && IsSignOrBlank(t[0]) {
        assert out[1..pad + 1] == Zeros(pad) && out[pad + 1..] == t[1..];
      } else {
        assert out[..pad] == Zeros(pad) && out[pad..] == t;
      }
    } else {
      assert out[..|t|] == t && out[0..] == t;
      assert t != [] ==> out[1..] == t[1..];
    }
  }

  /** `%d` fills up what it prints without a width, and that starts with a sign or
      a blank exactly as the number and the flags ask for, and goes on in digits. */
  lemma SignedLayout(v: int, spec: Spec)
    ensures var t := FormatSigned(v, spec.(width := 0));
      && Filled(t, spec, FormatSigned(v, spec))
      && t != [] && (t[0] == '-' <==> v < 0) && (t[0] == '+' <==> v >= 0 && spec.plus)
      && (t[0] == ' ' <==> v >= 0 && !spec.plus && spec.space)
      && AllDigits(if IsSignOrBlank(t[0]) then t[1..] else t, 10)
  {
    hide ValueOf, ToDigits, ApplyPadding, Filled, Plain;
    var n: nat := if v < 0 then -v else v;
    var sign, digits := SignPrefix(spec, v < 0), Plain(n, 10, false, spec.precision);
    PlainReads(n, 10, false, spec.precision);
    PaddingFills(sign + digits, spec);
    assert IsDigit(digits[0], 10);
    assert sign != "" ==> (sign + digits)[1..] == digits;
    assert sign == "" ==> sign + digits == digits;
  }

  predicate IsUpper(c: char) { 'A' <= c <= 'Z' }

  predicate IsLower(c: char) { 'a' <= c <= 'z' }

  /** Without a width and the flag `#`, `%u`, `%o`, `%x` and `%X` print digits that
      stand for the number, as many as the precision asks for, and no zeros in
      front but those. */
  lemma PlainLayout(v: nat, spec: Spec, conv: Conv)
    ensures var plain := FormatUnsigned(v, spec.(width := 0, alt := false), conv);
      && plain != [] && AllDigits(plain, Radix(conv)) && ValueOf(plain, Radix(conv)) == v
      && (spec.precision.NoPrecision? && v > 0 ==> plain[0] != '0')
      && (spec.precision.Digits? ==> |plain| >= spec.precision.n)
      && (spec.precision.Digits? && |plain| > spec.precision.n && v > 0 ==> plain[0] != '0')
  {
    hide ValueOf, ToDigits, ApplyPadding, Filled, Plain;
    var upper := conv.Hex? && conv.upper;
    var digits := PlainUnsigned(v, spec, conv);
    PlainIs(v, Radix(conv), upper, spec.precision);
    PlainReads(v, Radix(conv), upper, spec.precision);
    NoLeadingZero(v, Radix(conv), upper);
    PaddingFills([] + digits, spec.(alt := false));
    assert [] + digits == digits;
  }

  /** `%u`, `%o`, `%x` and `%X` fill up what they print without a width: the digits
      as without the flag `#`, behind the mark of the conversion if there is one;
      letters are of the case of the conversion. */
  lemma UnsignedLayout(v: nat, spec: Spec, conv: Conv)
    ensures var t := FormatUnsigned(v, spec.(width := 0), conv);
      var plain := FormatUnsigned(v, spec.(width := 0, alt := false), conv);
      && Filled(t, spec, FormatUnsigned(v, spec, conv))
      && t == (if !spec.alt || v == 0 || conv.Unsigned? then plain
               else if conv.Octal? then "0" + plain
               else if conv.upper then "0X" + plain else "0x" + plain)
      && forall i :: 0 <= i < |t| ==> !(if conv.Hex? && conv.upper then IsLower(t[i]) else IsUpper(t[i]))
  {
    hide ValueOf, ToDigits, ApplyPadding, Filled, Plain;
    var upper := conv.Hex? && conv.upper;
    var mark, digits := AltPrefix(v, spec, conv), PlainUnsigned(v, spec, conv);
    PaddingFills(mark + digits, spec);
    PaddingFills(digits, spec.(alt := false));
    PaddingFills([] + digits, spec.(alt := false));
    assert [] + digits == digits;
    PlainCase(v, Radix(conv), upper, spec.precision);
  }

  lemma PlainIs(v: nat, radix: nat, upper: bool, precision: Precision)
    requires IsRadix(radix)
    ensures precision.NoPrecision? ==> Plain(v, radix, upper, precision) == ToDigits(v, radix, upper)
    ensures precision.Digits? ==> |Plain(v, radix, upper, precision)| >= precision.n
    ensures precision.Digits? && |Plain(v, radix, upper, precision)| > precision.n ==>
      Plain(v, radix, upper, precision) == ToDigits(v, radix, upper)
  {
    hide ToDigits;
  }

  /** Digits do not start with a zero, but for zero itself. */
  lemma {:induction false} NoLeadingZero(v: nat, radix: nat, upper: bool)
    requires IsRadix(radix)
    ensures ToDigits(v, radix, upper) != [] && (ToDigits(v, radix, upper)[0] == '0' <==> v == 0)
    decreases v
  {
    if v >= radix {
      Shrinks(v, radix);
      NoLeadingZero(v / radix, radix, upper);
      hide DigitChar;
      var front := ToDigits(v / radix, radix, upper);
      assert v / radix > 0;
      assert (front + [DigitChar(v % radix, upper)])[0] == front[0];
    }
  }

  lemma {:induction false} DigitsCase(v: nat, radix: nat, upper: bool)
    requires IsRadix(radix)
    ensures forall i :: 0 <= i < |ToDigits(v, radix, upper)| ==>
      !(if upper then IsLower(ToDigits(v, radix, upper)[i]) else IsUpper(ToDigits(v, radix, upper)[i]))
    decreases v
  {
    if v >= radix {
      Shrinks(v, radix);
      DigitsCase(v / radix, radix, upper);
    }
  }

  lemma PlainCase(v: nat, radix: nat, upper: bool, precision: Precision)
    requires IsRadix(radix)
    ensures forall i :: 0 <= i < |Plain(v, radix, upper, precision)| ==>
      !(if upper then IsLower(Plain(v, radix, upper, precision)[i]) else IsUpper(Plain(v, radix, upper, precision)[i]))
  {
    hide ToDigits;
    DigitsCase(v, radix, upper);
  }

  // ----- strtoul -----

  const WORD := 0x1_0000_0000

  predicate HexMark(s: string, p: nat)
  {
    p + 1 < |s| && s[p] == '0' && (s[p + 1] == 'x' || s[p + 1] == 'X')
  }

  /** The parts of a text: white space up to `p`, an `0x` up to `q` if the base
      allows one, and digits of base `b`, as many as there are, up to `e`. */
  predicate Parts(s: string, base: nat, p: nat, q: nat, b: nat, e: nat)
  {
    && p <= q <= e <= |s|
    && AllSpace(s[..p]) && (p < |s| ==> !IsSpace(s[p]))
    && (if (base == 0 || base == 16) && HexMark(s, p) then q == p + 2 && b == 16
        else q == p && b == if base == 0 then 10 else base)
    && AllDigits(s[q..e], b) && (e < |s| ==> !IsDigit(s[e], b))
  }

  /** What `strtoul` returns and where it says the number ends. */
  ghost predicate Parsed(s: string, base: nat, value: int, end: nat)
  {
    exists p: nat, q: nat, b: nat, e: nat :: Parts(s, base, p, q, b, e) && Means(s, q, b, e, value, end)
  }

  /** What `strtoul` makes of the digits up to `e`. */
  predicate Means(s: string, q: nat, b: nat, e: nat, value: int, end: nat)
    requires q <= e <= |s|
  {
    value == ValueOf(s[q..e], b) % WORD && end == if e == q then 0 else e
  }

  method SkipSpace(s: string) returns (p: nat)
    ensures p <= |s| && AllSpace(s[..p]) && (p < |s| ==> !IsSpace(s[p]))
  {
    p := 0;
    while p < |s| && IsSpace(s[p])
      invariant p <= |s| && AllSpace(s[..p])
    {
      assert s[..p + 1] == s[..p] + [s[p]];
      p := p + 1;
    }
  }

  lemma OneMoreDigit(s: string, q: nat, e: nat, b: nat)
    requires q <= e < |s| && AllDigits(s[q..e], b) && IsDigit(s[e], b)
    ensures AllDigits(s[q..e + 1], b) && ValueOf(s[q..e + 1], b) == ValueOf(s[q..e], b) * b + DigitOf(s[e])
  {
    hide ValueOf;
    assert s[q..e + 1] == s[q..e] + [s[e]];
    ValuePush(s[q..e], s[e], b);
  }

  lemma NoDigits(s: string, q: nat, b: nat)
    requires q <= |s|
    ensures AllDigits(s[q..q], b) && ValueOf(s[q..q], b) == 0
  {
  }

  method ReadDigits(s: string, q: nat, b: nat) returns (acc: int, e: nat)
    requires q <= |s|
    ensures q <= e <= |s| && AllDigits(s[q..e], b) && (e < |s| ==> !IsDigit(s[e], b))
    ensures acc == ValueOf(s[q..e], b)
  {
    hide DigitOf, IsDigit, AllDigits, ValueOf;
    e := q;
    acc := 0;
    NoDigits(s, q, b);
    while e < |s| && IsDigit(s[e], b)
      invariant q <= e <= |s| && AllDigits(s[q..e], b) && acc == ValueOf(s[q..e], b)
    {
      OneMoreDigit(s, q, e, b);
      acc := acc * b + DigitOf(s[e]);
      e := e + 1;
    }
  }

  method Strtoul(s: string, base: nat) returns (value: int, end: nat)
    ensures Parsed(s, base, value, end)
  {
    hide ValueOf;
    var p := SkipSpace(s);
    var q, b := p, base;
    if (base == 0 || base == 16) && HexMark(s, p) {
      q, b := p + 2, 16;
    } else if base == 0 {
      b := 10;
    }
    var acc, e := ReadDigits(s, q, b);
    assert Parts(s, base, p, q, b, e);
    value := acc % WORD;
    end := if e == q then 0 else e;
  }

  /** `strtoul` has one answer for every text. */
  lemma PartsAreUnique(s: string, base: nat, p: nat, q: nat, b: nat, e: nat, p': nat, q': nat, b': nat, e': nat)
    requires Parts(s, base, p, q, b, e) && Parts(s, base, p', q', b', e')
    ensures p == p' && q == q' && b == b' && e == e'
  {
    SpacesAt(s, p);
    SpacesAt(s, p');
    SameDigitEnd(s, q, b, e, e');
  }

  lemma SameDigitEnd(s: string, q: nat, b: nat, e: nat, e': nat)
    requires q <= e <= |s| && AllDigits(s[q..e], b) && (e < |s| ==> !IsDigit(s[e], b))
    requires q <= e' <= |s| && AllDigits(s[q..e'], b) && (e' < |s| ==> !IsDigit(s[e'], b))
    ensures e == e'
  {
    DigitsAt(s, q, e, b);
    DigitsAt(s, q, e', b);
  }

  lemma ParsedIsUnique(s: string, base: nat, p: nat, q: nat, b: nat, e: nat, value: int, end: nat)
    requires Parts(s, base, p, q, b, e) && Parsed(s, base, value, end)
    ensures value == ValueOf(s[q..e], b) % WORD && end == if e == q then 0 else e
  {
    hide ValueOf;
    var p': nat, q': nat, b': nat, e': nat :| Parts(s, base, p', q', b', e') && Means(s, q', b', e', value, end);
    PartsAreUnique(s, base, p, q, b, e, p', q', b', e');
  }

  /** The `0x` mark stays in front unless zeros are padded before it. */
  predicate PrefixSurvives(v: nat, spec: Spec, conv: Conv)
  {
    !(conv.Hex? && spec.alt && spec.zero && !spec.minus && v != 0
      && |PlainUnsigned(v, spec, conv)| + 2 < spec.width)
  }

  /** Space, digits with or without a mark, space: these are the parts. */
  lemma PartsOf(front: string, mark: string, digits: string, back: string, base: nat)
    requires AllSpace(front) && AllSpace(back) && digits != [] && AllDigits(digits, base) && IsRadix(base)
    requires mark == "" || (base == 16 && (mark == "0x" || mark == "0X"))
    ensures var q := |front| + |mark|;
      var s := front + mark + digits + back;
      Parts(s, base, |front|, q, base, q + |digits|) && s[q..q + |digits|] == digits
  {
    var s, p, q := front + mark + digits + back, |front|, |front| + |mark|;
    var e := q + |digits|;
    assert s[..p] == front && s[q..e] == digits;
    assert IsDigit(digits[0], base) && s[q] == digits[0];
    assert e < |s| ==> s[e] == back[0];
    assert mark != "" ==> s[p] == '0' && s[p + 1] == mark[1];
    if mark == "" && p + 1 < |s| {
      assert s[p + 1] == (digits + back)[1];
    }
  }

  lemma MarkedRead(front: string, mark: string, digits: string, back: string, base: nat, value: int, end: nat)
    requires AllSpace(front) && AllSpace(back) && digits != [] && AllDigits(digits, base) && IsRadix(base)
    requires mark == "" || (base == 16 && (mark == "0x" || mark == "0X"))
    requires Parsed(front + mark + digits + back, base, value, end)
    ensures value == ValueOf(digits, base) % WORD
    ensures end == |front| + |mark| + |digits|
  {
    hide ValueOf, Parsed, Parts;
    PartsOf(front, mark, digits, back, base);
    var s, q := front + mark + digits + back, |front| + |mark|;
    ParsedIsUnique(s, base, |front|, q, base, q + |digits|, value, end);
  }

  /** Zeros before the mark end the number at the mark. */
  lemma BuriedMark(n: nat, mark: string, digits: string, value: int, end: nat)
    requires n > 0 && (mark == "0x" || mark == "0X")
    requires Parsed(Zeros(n) + (mark + digits), 16, value, end)
    ensures value == 0 && end == n + 1
  {
    hide ValueOf;
    var s := Zeros(n) + (mark + digits);
    assert s[n] == '0' && s[n + 1] == mark[1] && s[0] == '0';
    assert s[1] == '0';
    assert s[0..n + 1] == Zeros(n + 1);
    assert Parts(s, 16, 0, 0, 16, n + 1);
    ParsedIsUnique(s, 16, 0, 0, 16, n + 1, value, end);
    ZerosAreNothing(n + 1, 16);
  }

  lemma UnpaddedParts(v: nat, spec: Spec, conv: Conv) returns (mark: string, digits: string)
    ensures AltPrefix(v, spec, conv) + PlainUnsigned(v, spec, conv) == mark + digits
    ensures digits != [] && AllDigits(digits, Radix(conv)) && ValueOf(digits, Radix(conv)) == v
    ensures mark == if conv.Hex? then AltPrefix(v, spec, conv) else ""
    ensures conv.Hex? ==> digits == PlainUnsigned(v, spec, conv)
  {
    hide ValueOf, Plain;
    PlainReads(v, Radix(conv), conv.Hex? && conv.upper, spec.precision);
    var plain := PlainUnsigned(v, spec, conv);
    if AltPrefix(v, spec, conv) == "0" {
      LeadingZeros(1, plain, Radix(conv));
      assert Zeros(1) == "0";
      mark, digits := "", "0" + plain;
    } else {
      mark, digits := AltPrefix(v, spec, conv), plain;
    }
  }

  /** Zeros in front of digits do not matter. */
  lemma ZeroPaddedParses(digits: string, spec: Spec, base: nat, value: int, end: nat)
    requires digits != [] && AllDigits(digits, base) && IsRadix(base)
    requires spec.zero && !spec.minus && |digits| < spec.width
    requires Parsed(ApplyPadding(digits, spec), base, value, end)
    ensures value == ValueOf(digits, base) % WORD
  {
    hide ValueOf, Parsed, ApplyPadding;
    var pad := spec.width - |digits|;
    ZeroFilled(digits, spec, base);
    LeadingZeros(pad, digits, base);
    assert Zeros(pad) + digits == [] + "" + (Zeros(pad) + digits) + [];
    MarkedRead([], "", Zeros(pad) + digits, [], base, value, end);
  }

  /** Reading a padded number that keeps its mark in front. */
  lemma PaddedParses(mark: string, digits: string, spec: Spec, base: nat, value: int, end: nat)
    requires digits != [] && AllDigits(digits, base) && IsRadix(base)
    requires mark == "" || (base == 16 && (mark == "0x" || mark == "0X"))
    requires mark == "" || !(spec.zero && !spec.minus && |mark + digits| < spec.width)
    requires Parsed(ApplyPadding(mark + digits, spec), base, value, end)
    ensures value == ValueOf(digits, base) % WORD
  {
    hide ValueOf, Parsed;
    var s := mark + digits;
    if |s| >= spec.width {
      assert s == [] + mark + digits + [];
      MarkedRead([], mark, digits, [], base, value, end);
    } else {
      var pad := spec.width - |s|;
      if spec.minus {
        assert s + Spaces(pad) == [] + mark + digits + Spaces(pad);
        MarkedRead([], mark, digits, Spaces(pad), base, value, end);
      } else if spec.zero {
        assert s == digits;
        ZeroPaddedParses(digits, spec, base, value, end);
      } else {
        assert Spaces(pad) + s == Spaces(pad) + mark + digits + [];
        MarkedRead(Spaces(pad), mark, digits, [], base, value, end);
      }
    }
  }

  lemma ZeroFilled(digits: string, spec: Spec, base: nat)
    requires digits != [] && IsDigit(digits[0], base)
    requires spec.zero && !spec.minus && |digits| < spec.width
    ensures ApplyPadding(digits, spec) == Zeros(spec.width - |digits|) + digits
  {
  }

  /** `strtoul` in the conversion's own base gives back every number below 2^32
      that `%u`, `%o`, `%x` or `%X` printed, except, exactly, where zeros are
      padded before an `0x`. */
  lemma UnsignedRoundTrip(v: nat, spec: Spec, conv: Conv, value: int, end: nat)
    requires v < WORD
    requires Parsed(FormatUnsigned(v, spec, conv), Radix(conv), value, end)
    ensures value == v <==> PrefixSurvives(v, spec, conv)
    ensures !PrefixSurvives(v, spec, conv) ==> value == 0
  {
    hide ValueOf, Parsed, PlainUnsigned;
    var mark, digits := UnpaddedParts(v, spec, conv);
    if PrefixSurvives(v, spec, conv) {
      PaddedParses(mark, digits, spec, Radix(conv), value, end);
    } else {
      var s := mark + digits;
      assert s[0] == '0';
      ZeroFilled(s, spec, 16);
      BuriedMark(spec.width - |s|, mark, digits, value, end);
    }
  }

  const PADDED := Spec(false, false, false, true, true, 8, NoPrecision)

  /** `%#08x` prints 31 as `00000x1f`, which reads as 0. */
  lemma BuriedExample(value: int, end: nat)
    requires Parsed(FormatUnsigned(31, PADDED, Hex(false)), 16, value, end)
    ensures FormatUnsigned(31, PADDED, Hex(false)) == "00000x1f"
    ensures value == 0
  {
    var spec := PADDED;
    assert ToDigits(31, 16, false) == ToDigits(1, 16, false) + "f";
    assert PlainUnsigned(31, spec, Hex(false)) == "1f";
    assert Zeros(4) == "0000";
    UnsignedRoundTrip(31, spec, Hex(false), value, end);
  }
}
