/** The byte stream that steers every generator: choices are in range, and are
  the least possible once the bytes have run out.
 */
module Bytes {

  type Byte = b: int | 0 <= b < 256

  /** The bytes a choice reads, as a number, and where it stops reading. */
  function Accumulated(data: seq<Byte>, pos: nat, span: nat, acc: nat): (r: (nat, nat))
    ensures pos <= r.1 && (pos <= |data| ==> r.1 <= |data|)
    ensures span > 0 && pos < |data| ==> pos < r.1
    ensures pos >= |data| ==> r == (acc, pos)
    decreases span
  {
    if span == 0 || pos >= |data| then (acc, pos)
    else Accumulated(data, pos + 1, span / 256, acc * 256 + data[pos])
  }

  /** The number chosen in a range, and the place reached. */
  function Drawn(data: seq<Byte>, pos: nat, lo: int, hi: int): (r: (int, nat))
    requires lo <= hi
    ensures lo <= r.0 <= hi && pos <= r.1 && (pos <= |data| ==> r.1 <= |data|)
    ensures lo < hi && pos < |data| ==> pos < r.1
    ensures pos >= |data| ==> r == (lo, pos)
  {
    var a := Accumulated(data, pos, hi - lo, 0);
    (lo + a.0 % (hi - lo + 1), a.1)
  }

  /** A yes or a no: whether one byte is odd, and no when there is none. */
  function Flipped(data: seq<Byte>, pos: nat): (bool, nat)
  {
    if pos < |data| then (data[pos] % 2 == 1, pos + 1) else (false, pos)
  }

  // ----- bytes that ask for a number -----

  /** `bytes` stand in the data from `pos` on. */
  ghost predicate Has(data: seq<Byte>, pos: nat, bytes: seq<Byte>)
  {
    pos + |bytes| <= |data| && data[pos..pos + |bytes|] == bytes
  }

  lemma HasBoth(data: seq<Byte>, pos: nat, a: seq<Byte>, b: seq<Byte>)
    requires Has(data, pos, a + b)
    ensures Has(data, pos, a) && Has(data, pos + |a|, b)
  {
    var all := data[pos..pos + |a + b|];
    assert data[pos..pos + |a|] == all[..|a|] == a;
    assert data[pos + |a|..pos + |a| + |b|] == all[|a|..] == b;
  }

  /** A number, with as many bytes as a choice up to `span` reads. */
  function AskNumber(v: nat, span: nat): seq<Byte>
  {
    if span == 0 then [] else AskNumber(v / 256, span / 256) + [v % 256]
  }

  /** The last byte read is the least significant one. */
  lemma {:induction false} LastByte(data: seq<Byte>, pos: nat, span: nat, acc: nat)
    requires span > 0 && Accumulated(data, pos, span / 256, acc).1 < |data|
    ensures var (a, p) := Accumulated(data, pos, span / 256, acc);
      Accumulated(data, pos, span, acc) == (a * 256 + data[p], p + 1)
    decreases span
  {
    if span / 256 > 0 {
      LastByte(data, pos + 1, span / 256, acc * 256 + data[pos]);
    } else {
      var b: nat := acc * 256 + data[pos];
      assert Accumulated(data, pos + 1, 0, b) == (b, pos + 1);
    }
  }

  lemma {:induction false} ReadsNumber(data: seq<Byte>, pos: nat, v: nat, span: nat)
    requires v <= span && Has(data, pos, AskNumber(v, span))
    ensures Accumulated(data, pos, span, 0) == (v, pos + |AskNumber(v, span)|)
    decreases span
  {
    if span > 0 {
      var front := AskNumber(v / 256, span / 256);
      HasBoth(data, pos, front, [v % 256]);
      ReadsNumber(data, pos, v / 256, span / 256);
      LastByte(data, pos, span, 0);
      assert data[pos + |front|] == data[pos + |front|..pos + |front| + 1][0];
    }
  }

  /** Every number of a range is chosen by some bytes. */
  lemma DrawsNumber(data: seq<Byte>, pos: nat, lo: int, hi: int, x: int)
    requires lo <= x <= hi && Has(data, pos, AskNumber(x - lo, hi - lo))
    ensures Drawn(data, pos, lo, hi) == (x, pos + |AskNumber(x - lo, hi - lo)|)
  {
    hide Accumulated, AskNumber;
    ReadsNumber(data, pos, x - lo, hi - lo);
    SmallMod(x - lo, hi - lo + 1);
  }

  function AskFlag(b: bool): seq<Byte>
  {
    [if b then 1 else 0]
  }

  lemma Flips(data: seq<Byte>, pos: nat, b: bool)
    requires Has(data, pos, AskFlag(b))
    ensures Flipped(data, pos) == (b, pos + 1)
  {
    assert data[pos] == data[pos..pos + 1][0];
  }

  lemma SmallMod(x: nat, n: nat)
    requires x < n
    ensures x % n == x
  {
  }

  class Choices {
    const data: seq<Byte>
    var pos: nat

    ghost predicate Valid()
      reads this
    {
      pos <= |data|
    }

    /** Bytes not read yet. */
    function Left(): int
      reads this
    {
      |data| - pos
    }

    constructor (data: seq<Byte>)
      ensures Valid() && this.data == data && pos == 0
    {
      this.data := data;
      pos := 0;
    }

    /** A number in a range: as many bytes as the range needs, if there are any. */
    method InRange(lo: int, hi: int) returns (r: int)
      requires Valid() && lo <= hi
      modifies this
      ensures Valid() && lo <= r <= hi && old(pos) <= pos
      ensures lo < hi && old(Left()) > 0 ==> old(pos) < pos
      ensures old(Left()) == 0 ==> r == lo && pos == old(pos)
      ensures (r, pos) == Drawn(data, old(pos), lo, hi)
    {
      hide Accumulated;
      var acc := Read(hi - lo);
      r := lo + acc % (hi - lo + 1);
    }

    method Read(span: nat) returns (acc: nat)
      requires Valid()
      modifies this
      ensures Valid() && (acc, pos) == Accumulated(data, old(pos), span, 0)
    {
      acc := 0;
      var left := span;
      while left > 0 && pos < |data|
        invariant Valid() && Accumulated(data, pos, left, acc) == Accumulated(data, old(pos), span, 0)
        decreases left
      {
        acc := acc * 256 + data[pos];
        pos := pos + 1;
        left := left / 256;
      }
    }

    method Flag() returns (b: bool)
      requires Valid()
      modifies this
      ensures Valid() && old(pos) <= pos
      ensures old(Left()) == 0 ==> !b
      ensures (b, pos) == Flipped(data, old(pos))
    {
      if pos < |data| {
        b := data[pos] % 2 == 1;
        pos := pos + 1;
      } else {
        b := false;
      }
    }

    /** True `num` times out of `den`. */
    method Ratio(num: int, den: int) returns (b: bool)
      requires Valid() && 1 <= num <= den
      modifies this
      ensures Valid() && old(pos) <= pos
      ensures var d := Drawn(data, old(pos), 1, den); b == (d.0 <= num) && pos == d.1
    {
      var x := InRange(1, den);
      b := x <= num;
    }
  }
}
