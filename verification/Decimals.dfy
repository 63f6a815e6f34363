/** The decimal scan of `strtod`: the subject sequence of section 7.22.1.3 of
  ISO C17, without hexadecimal, infinity and NaN forms.
 */
module Decimals {
  import opened Bytes

  predicate Space(c: Byte) { c == 32 || 9 <= c <= 13 }
  predicate Digit(c: Byte) { 48 <= c <= 57 }
  predicate Sign(c: Byte) { c == 43 || c == 45 }
  const DOT: Byte := 46
  predicate ExponentMark(c: Byte) { c == 101 || c == 69 }

  // ----- the form of a number, independently of how it is scanned -----

  predicate Digits(s: seq<Byte>) { forall i :: 0 <= i < |s| ==> Digit(s[i]) }

  predicate OptionalSign(s: seq<Byte>) { s == [] || (|s| == 1 && Sign(s[0])) }

  /** Digits with at most one point among them, and at least one digit. */
  ghost predicate Mantissa(s: seq<Byte>)
  {
    || (s != [] && Digits(s))
    || exists d: nat :: d < |s| && |s| > 1 && s[d] == DOT && Digits(s[..d]) && Digits(s[d + 1..])
  }

  ghost predicate Exponent(s: seq<Byte>)
  {
    s == [] || exists g: nat :: ExponentAt(s, g)
  }

  /** A mark, a sign up to `g`, and digits. */
  predicate ExponentAt(s: seq<Byte>, g: nat)
  {
    1 <= g < |s| && ExponentMark(s[0]) && OptionalSign(s[1..g]) && Digits(s[g..])
  }

  /** `s` is white space up to `p`, a sign up to `q`, a mantissa up to `m`, and an exponent. */
  ghost predicate Splits(s: seq<Byte>, p: nat, q: nat, m: nat)
  {
    && p <= q <= m <= |s|
    && (forall i :: 0 <= i < p ==> Space(s[i])) && OptionalSign(s[p..q]) && Mantissa(s[q..m]) && Exponent(s[m..])
  }

  ghost predicate IsNumber(s: seq<Byte>)
  {
    exists p: nat, q: nat, m: nat :: Splits(s, p, q, m)
  }

  // ----- the scan -----

  /** The end of the run of white space, or of digits, that starts at `i`. */
  method SkipSpaces(b: seq<Byte>) returns (i: nat)
    ensures i <= |b| && (forall k :: 0 <= k < i ==> Space(b[k])) && (i < |b| ==> !Space(b[i]))
  {
    i := 0;
    while i < |b| && Space(b[i])
      invariant i <= |b| && forall k :: 0 <= k < i ==> Space(b[k])
    {
      i := i + 1;
    }
  }

  method SkipDigits(b: seq<Byte>, from: nat) returns (i: nat)
    requires from <= |b|
    ensures RunsTo(b, from, i)
  {
    i := from;
    while i < |b| && Digit(b[i])
      invariant from <= i <= |b| && forall k :: from <= k < i ==> Digit(b[k])
    {
      i := i + 1;
    }
  }

  /** The run of digits that starts at `from` ends at `i`. */
  predicate RunsTo(b: seq<Byte>, from: nat, i: nat)
  {
    from <= i <= |b| && (forall k :: from <= k < i ==> Digit(b[k])) && (i < |b| ==> !Digit(b[i]))
  }

  /** The parts that the scan finds: `d` ends the digits before the point, `f` the
      mantissa; `saw` says whether there was a digit. */
  ghost predicate Found(b: seq<Byte>, p: nat, q: nat, d: nat, f: nat, saw: bool)
  {
    && p <= q <= d <= f <= |b|
    && (forall k :: 0 <= k < p ==> Space(b[k])) && (p < |b| ==> !Space(b[p]))
    && q == (if p < |b| && Sign(b[p]) then p + 1 else p)
    && RunsTo(b, q, d)
    && (if d < |b| && b[d] == DOT then RunsTo(b, d + 1, f) else f == d)
    && (saw <==> d > q || f > d + 1)
  }

  /** The end of a complete exponent that starts at `f`, or `f`. */
  ghost predicate FoundExponent(b: seq<Byte>, f: nat, e: nat)
    requires f <= |b|
  {
    if f < |b| && ExponentMark(b[f]) then
      var j := if f + 1 < |b| && Sign(b[f + 1]) then f + 2 else f + 1;
      if j < |b| && Digit(b[j]) then RunsTo(b, j, e) && e > j else e == f
    else e == f
  }

  /** Scan a number off the front of `b`; 0 means that there is none. */
  method Scan(b: seq<Byte>) returns (consumed: nat)
    ensures consumed <= |b|
    ensures consumed > 0 ==> IsNumber(b[..consumed])
    ensures forall k :: consumed < k <= |b| ==> !IsNumber(b[..k])
    ensures consumed == 0 <==> forall k :: 0 <= k <= |b| ==> !IsNumber(b[..k])
  {
    var i := SkipSpaces(b);
    ghost var p := i;
    if i < |b| && Sign(b[i]) {
      i := i + 1;
    }
    var q := i;
    i := SkipDigits(b, q);
    var d := i;
    var saw := i > q;
    if i < |b| && b[i] == DOT {
      i := SkipDigits(b, d + 1);
      saw := saw || i > d + 1;
    }
    ghost var f := i;
    assert Found(b, p, q, d, f, saw);
    if !saw {
      NothingThere(b, p, q, d, f);
      return 0;
    }
    if i < |b| && ExponentMark(b[i]) {
      var j := i + 1;
      if j < |b| && Sign(b[j]) {
        j := j + 1;
      }
      if j < |b| && Digit(b[j]) {
        i := SkipDigits(b, j);
      }
    }
    assert FoundExponent(b, f, i);
    FoundIsNumber(b, p, q, d, f, i);
    forall k | i < k <= |b| ensures !IsNumber(b[..k]) {
      NothingLonger(b, p, q, d, f, i, k);
    }
    consumed := i;
  }

  lemma DigitsAt(b: seq<Byte>, i: nat, j: nat)
    requires i <= j <= |b|
    ensures Digits(b[i..j]) <==> forall k :: i <= k < j ==> Digit(b[k])
  {
    var t := b[i..j];
    assert forall k :: i <= k < j ==> b[k] == t[k - i];
  }

  /** What was found has the form of a number. */
  lemma FoundIsNumber(b: seq<Byte>, p: nat, q: nat, d: nat, f: nat, e: nat)
    requires Found(b, p, q, d, f, true) && FoundExponent(b, f, e)
    ensures f <= e <= |b| && e > 0 && IsNumber(b[..e])
  {
    FoundMantissa(b, q, d, f);
    FoundExponentIs(b, f, e);
    assert OptionalSign(b[p..q]);
    hide Mantissa, Exponent, OptionalSign, Splits;
    PrefixSplits(b, e, p, q, f);
    assert Splits(b[..e], p, q, f);
  }

  /** A number in front of `b`, in terms of `b`. */
  lemma PrefixSplits(b: seq<Byte>, k: nat, p: nat, q: nat, m: nat)
    requires k <= |b|
    ensures Splits(b[..k], p, q, m) <==>
      && p <= q <= m <= k && (forall i :: 0 <= i < p ==> Space(b[i]))
      && OptionalSign(b[p..q]) && Mantissa(b[q..m]) && Exponent(b[m..k])
  {
    hide Mantissa, Exponent, OptionalSign;
    if p <= q <= m <= k {
      Prefix(b, k, p, q);
      Prefix(b, k, q, m);
      Prefix(b, k, m, k);
      assert b[..k][m..] == b[..k][m..k];
    }
  }

  lemma Prefix(b: seq<Byte>, k: nat, x: nat, y: nat)
    requires x <= y <= k <= |b|
    ensures b[..k][x..y] == b[x..y]
  {
    Within(b, 0, k, x, y);
    assert b[0..k] == b[..k];
  }

  lemma FoundMantissa(b: seq<Byte>, q: nat, d: nat, f: nat)
    requires q <= d <= f <= |b| && RunsTo(b, q, d)
    requires if d < |b| && b[d] == DOT then RunsTo(b, d + 1, f) else f == d
    requires d > q || f > d + 1
    ensures Mantissa(b[q..f])
  {
    var t := b[q..f];
    if f == d {
      assert Digits(t);
    } else {
      DigitsAt(b, q, d);
      DigitsAt(b, d + 1, f);
      Within(b, q, f, 0, d - q);
      Within(b, q, f, d - q + 1, |t|);
      assert t[d - q] == DOT && t[..d - q] == t[0..d - q] && t[d - q + 1..] == t[d - q + 1..|t|];
    }
  }

  lemma FoundExponentIs(b: seq<Byte>, f: nat, e: nat)
    requires f <= |b| && FoundExponent(b, f, e)
    ensures f <= e <= |b| && Exponent(b[f..e])
  {
    if e > f {
      var t := b[f..e];
      var j := if f + 1 < |b| && Sign(b[f + 1]) then f + 2 else f + 1;
      Within(b, f, e, j - f, |t|);
      assert t[j - f..] == t[j - f..|t|] && t[0] == b[f];
      DigitsAt(b, j, e);
      SignAt(b, f, j, e);
      assert ExponentAt(t, j - f);
    }
  }

  lemma SignAt(b: seq<Byte>, f: nat, j: nat, e: nat)
    requires f + 1 <= j <= e <= |b| && (j == f + 1 || (j == f + 2 && Sign(b[f + 1])))
    ensures OptionalSign(b[f..e][1..j - f])
  {
    Within(b, f, e, 1, j - f);
  }

  /** White space and sign of a number are forced. */
  lemma FrontForced(b: seq<Byte>, p: nat, q: nat, d: nat, f: nat, saw: bool, k: nat, p': nat, q': nat, m': nat)
    requires Found(b, p, q, d, f, saw) && k <= |b| && Splits(b[..k], p', q', m')
    ensures p' == p && q' == q && q < m'
  {
    PrefixSplits(b, k, p', q', m');
    MantissaStart(b[q'..m']);
    hide Mantissa, Exponent, Splits;
    assert b[q'..m'][0] == b[q'];
    assert p' < q' ==> b[p'..q'][0] == b[p'];
  }

  lemma MantissaStart(t: seq<Byte>)
    requires Mantissa(t)
    ensures t != [] && (Digit(t[0]) || t[0] == DOT)
  {
    if !(t != [] && Digits(t)) {
      var d: nat :| d < |t| && |t| > 1 && t[d] == DOT && Digits(t[..d]) && Digits(t[d + 1..]);
      if d > 0 {
        assert t[..d][0] == t[0];
      }
    }
  }

  /** The mantissa of a number ends no later than the one found. */
  lemma MantissaForced(b: seq<Byte>, q: nat, d: nat, f: nat, m: nat)
    requires q <= d <= f <= |b| && q < m <= |b| && RunsTo(b, q, d)
    requires if d < |b| && b[d] == DOT then RunsTo(b, d + 1, f) else f == d
    requires Mantissa(b[q..m])
    ensures m <= f && (d > q || f > d + 1)
  {
    var t := b[q..m];
    if Digits(t) {
      DigitsAt(b, q, m);
    } else {
      var x: nat :| x < |t| && |t| > 1 && t[x] == DOT && Digits(t[..x]) && Digits(t[x + 1..]);
      hide Digits;
      PointForced(b, q, d, m, x);
      FractionForced(b, q, d, f, m);
    }
  }

  /** With a point at `d`, only digits follow. */
  lemma FractionForced(b: seq<Byte>, q: nat, d: nat, f: nat, m: nat)
    requires q <= d < m <= |b| && b[d] == DOT && RunsTo(b, d + 1, f) && Digits(b[q..m][d - q + 1..])
    ensures m <= f
  {
    var t := b[q..m];
    Within(b, q, m, d - q + 1, |t|);
    assert t[d - q + 1..] == t[d - q + 1..|t|];
    DigitsAt(b, d + 1, m);
  }

  lemma PointForced(b: seq<Byte>, q: nat, d: nat, m: nat, x: nat)
    requires q <= d <= |b| && q < m <= |b| && RunsTo(b, q, d) && x < m - q
    requires b[q..m][x] == DOT && Digits(b[q..m][..x])
    ensures d == q + x && b[d] == DOT
  {
    var t := b[q..m];
    Within(b, q, m, 0, x);
    assert t[..x] == t[0..x] && t[x] == b[q + x];
    DigitsAt(b, q, q + x);
  }

  lemma NothingThere(b: seq<Byte>, p: nat, q: nat, d: nat, f: nat)
    requires Found(b, p, q, d, f, false)
    ensures forall k :: 0 <= k <= |b| ==> !IsNumber(b[..k])
  {
    forall k | 0 <= k <= |b| && IsNumber(b[..k]) ensures false {
      var p': nat, q': nat, m': nat :| Splits(b[..k], p', q', m');
      hide Mantissa, Exponent, OptionalSign, Splits;
      FrontForced(b, p, q, d, f, false, k, p', q', m');
      PrefixSplits(b, k, p', q', m');
      MantissaForced(b, q, d, f, m');
    }
  }

  lemma NothingLonger(b: seq<Byte>, p: nat, q: nat, d: nat, f: nat, e: nat, k: nat)
    requires Found(b, p, q, d, f, true) && FoundExponent(b, f, e) && e < k <= |b|
    ensures !IsNumber(b[..k])
  {
    if IsNumber(b[..k]) {
      var p': nat, q': nat, m': nat :| Splits(b[..k], p', q', m');
      hide Mantissa, Exponent, OptionalSign, Splits;
      FrontForced(b, p, q, d, f, true, k, p', q', m');
      PrefixSplits(b, k, p', q', m');
      MantissaForced(b, q, d, f, m');
      FoundExponentIs(b, f, e);
      ExponentForced(b, q, d, f, e, m', k);
    }
  }

  /** An exponent can only follow a whole mantissa, and is not longer than the one found. */
  lemma ExponentForced(b: seq<Byte>, q: nat, d: nat, f: nat, e: nat, m: nat, k: nat)
    requires q <= d <= f <= |b| && q < m <= f && f < k <= |b| && RunsTo(b, q, d)
    requires if d < |b| && b[d] == DOT then RunsTo(b, d + 1, f) else f == d
    requires FoundExponent(b, f, e) && Exponent(b[m..k])
    ensures k <= e
  {
    var t := b[m..k];
    var g: nat :| ExponentAt(t, g);
    assert t[0] == b[m];
    assert m == f;
    SignPlace(b, f, k, g);
    DigitsAt(b, f + g, k);
  }

  /** Whether an exponent has a sign can be seen behind its mark. */
  lemma SignPlace(b: seq<Byte>, f: nat, k: nat, g: nat)
    requires f < k <= |b| && ExponentAt(b[f..k], g)
    ensures f + g < k && g == (if Sign(b[f + 1]) then 2 else 1) && Digits(b[f + g..k]) && Digit(b[f + g])
  {
    var t := b[f..k];
    Within(b, f, k, g, |t|);
    Within(b, f, k, 1, g);
    assert t[g..] == t[g..|t|];
    assert Digits(b[f + g..k]) && OptionalSign(b[f + 1..f + g]);
    DigitsAt(b, f + g, k);
  }

  lemma Within(b: seq<Byte>, i: nat, j: nat, x: nat, y: nat)
    requires i <= j <= |b| && x <= y <= j - i
    ensures b[i..j][x..y] == b[i + x..i + y]
  {
    var t, u := b[i..j][x..y], b[i + x..i + y];
    forall k | 0 <= k < |t| ensures t[k] == u[k] {
      assert t[k] == b[i..j][x + k];
    }
  }

  /** Scanning what was consumed consumes all of it. */
  method Rescan(b: seq<Byte>) returns (first: nat, second: nat)
    ensures first <= |b| && second == first && (first > 0 ==> IsNumber(b[..first]))
    ensures forall k :: first < k <= |b| ==> !IsNumber(b[..k])
  {
    first := Scan(b);
    second := Scan(b[..first]);
    ghost var s := b[..first];
    if first > 0 {
      assert s[..first] == s;
    } else {
      assert forall k :: 0 <= k <= |s| ==> s[..k] == b[..k];
    }
  }
}
