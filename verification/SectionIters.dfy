/** The iterator that walks a change set's sections piece by piece, and the
  meaning of what it has not passed yet.
 */
module SectionIters {
  import opened Basics
  import opened Tokens
  import opened ChangeSets

  const DONE := -2

  /** A position of the iterator: `i` sections have been fetched, `len` and `ins`
      are what is left of the current one, `off` is what was taken from it. */
  datatype Cursor = Cursor(i: nat, len: nat, ins: int, off: nat)

  function Fetch(cs: ChangeSet, i: nat): Cursor
  {
    if i < |cs.sections| then Cursor(i + 1, cs.sections[i].len, cs.sections[i].ins, 0)
    else Cursor(i, 0, DONE, 0)
  }

  /** Pass `n` characters of the old document. */
  function Advance(cs: ChangeSet, c: Cursor, n: nat): Cursor
    requires n <= c.len
  {
    if n == c.len then Fetch(cs, c.i) else c.(len := c.len - n, off := c.off + n)
  }

  /** Pass `n` characters of the new document. */
  function Advance2(cs: ChangeSet, c: Cursor, n: nat): Cursor
    requires c.ins >= -1 && n <= Len2(c)
  {
    if c.ins == -1 then Advance(cs, c, n)
    else if n == c.ins then Fetch(cs, c.i)
    else c.(ins := c.ins - n, off := c.off + n)
  }

  function Len2(c: Cursor): nat
  {
    if c.ins < 0 then c.len else c.ins
  }

  class SectionIter {
    const cs: ChangeSet
    var i: nat
    var len: nat
    var ins: int
    var off: nat

    function Here(): Cursor
      reads this
    {
      Cursor(i, len, ins, off)
    }

    constructor (cs: ChangeSet)
      ensures this.cs == cs && Here() == Fetch(cs, 0)
    {
      this.cs := cs;
      i := 0;
      new;
      Next();
    }

    method Next()
      modifies this
      ensures Here() == Fetch(cs, old(i))
    {
      if i < |cs.sections| {
        len := cs.sections[i].len;
        ins := cs.sections[i].ins;
        i := i + 1;
      } else {
        len := 0;
        ins := DONE;
      }
      off := 0;
    }

    function Done(): bool
      reads this
    {
      ins == DONE
    }

    function Text(): Text
      requires i > 0
      reads this
    {
      if i - 1 >= |cs.inserted| then [] else cs.inserted[i - 1]
    }

    /** The next `n` characters of the current section's text. */
    function TextBit(n: nat): Text
      requires 0 < i <= |cs.inserted| && off + n <= |cs.inserted[i - 1]|
      reads this
    {
      cs.inserted[i - 1][off..off + n]
    }

    method Forward(n: nat)
      requires n <= len
      modifies this
      ensures Here() == Advance(cs, old(Here()), n)
    {
      if n == len {
        Next();
      } else {
        len := len - n;
        off := off + n;
      }
    }

    method Forward2(n: nat)
      requires ins >= -1 && n <= Len2(Here())
      modifies this
      ensures Here() == Advance2(cs, old(Here()), n)
    {
      if ins == -1 {
        Forward(n);
      } else if n == ins {
        Next();
      } else {
        ins := ins - n;
        off := off + n;
      }
    }
  }

  // ----- where a cursor stands in the old document -----

  /** `c` stands in section `c.i - 1`, `c.off` old characters into it. */
  ghost predicate OnOld(cs: ChangeSet, c: Cursor)
  {
    && c.i <= |cs.sections|
    && if c.ins == DONE then c == Fetch(cs, |cs.sections|)
       else c.i > 0 && cs.sections[c.i - 1] == Section(c.off + c.len, c.ins) && (c.off > 0 ==> c.len > 0)
  }

  /** Old characters passed so far. */
  ghost function Pos(cs: ChangeSet, c: Cursor): int
    requires c.i <= |cs.sections|
  {
    cs.LenUpto(c.i) - c.len
  }

  /** Sections not finished yet. */
  ghost function Todo(cs: ChangeSet, c: Cursor): int
  {
    if c.ins == DONE then 0 else |cs.sections| - c.i + 1
  }

  /** The text of the section `c` stands in. */
  ghost function TextOf(cs: ChangeSet, c: Cursor): Text
    requires c.i > 0
  {
    cs.TextAt(c.i - 1)
  }

  /** The tokens still ahead of `c`; `put` says whether the current section's
      text is among them. */
  ghost function Rest(cs: ChangeSet, c: Cursor, put: bool): seq<Tok>
    requires OnOld(cs, c)
  {
    if c.ins == DONE then []
    else (if put && c.ins >= 0 then [Put(TextOf(cs, c), c.len)] else []) + Stretch(c) + cs.From(c.i)
  }

  ghost function Stretch(c: Cursor): seq<Tok>
  {
    Rep(if c.ins < 0 then Keep else Drop, c.len)
  }

  lemma FetchOn(cs: ChangeSet, i: nat)
    requires cs.Valid() && i <= |cs.sections|
    ensures var c := Fetch(cs, i);
      OnOld(cs, c) && Pos(cs, c) == cs.LenUpto(i) && Rest(cs, c, true) == cs.From(i) && (c.ins == DONE || c.ins >= -1)
  {
    if i < |cs.sections| {
      assert cs.ValidAt(i);
      var c := Fetch(cs, i);
      if c.ins < 0 {
        assert [] + Stretch(c) + cs.From(c.i) == cs.From(i);
      } else {
        assert [Put(TextOf(cs, c), c.len)] + Stretch(c) + cs.From(c.i) == cs.From(i);
      }
    }
  }

  /** Passing `n` old characters takes `n` tokens off what is ahead. */
  lemma AdvanceOn(cs: ChangeSet, c: Cursor, n: nat)
    requires cs.Valid() && OnOld(cs, c) && c.ins != DONE && n <= c.len
    ensures var c' := Advance(cs, c, n);
      && OnOld(cs, c') && Pos(cs, c') == Pos(cs, c) + n
      && Rest(cs, c, false) == Rep(if c.ins < 0 then Keep else Drop, n) + Rest(cs, c', n == c.len)
      && Todo(cs, c') <= Todo(cs, c)
      && (n == c.len ==> Todo(cs, c') < Todo(cs, c))
  {
    hide Rest, Rep;
    var c' := Advance(cs, c, n);
    var t := if c.ins < 0 then Keep else Drop;
    AdvancePlace(cs, c, n);
    RestPlain(cs, c);
    if n == c.len {
      FetchOn(cs, c.i);
    } else {
      RestPlain(cs, c');
      RepConcat(t, n, c.len - n);
      Assoc(Rep(t, n), Rep(t, c.len - n), cs.From(c.i));
    }
  }

  /** Where passing `n` old characters leads. */
  lemma AdvancePlace(cs: ChangeSet, c: Cursor, n: nat)
    requires cs.Valid() && OnOld(cs, c) && c.ins != DONE && n <= c.len
    ensures var c' := Advance(cs, c, n);
      && OnOld(cs, c') && Pos(cs, c') == Pos(cs, c) + n
      && Todo(cs, c') <= Todo(cs, c) && (n == c.len ==> Todo(cs, c') < Todo(cs, c) && c'.off == 0)
      && (n < c.len ==> c' == Cursor(c.i, c.len - n, c.ins, c.off + n))
  {
    if n == c.len {
      FetchOn(cs, c.i);
    }
  }

  lemma RestPlain(cs: ChangeSet, c: Cursor)
    requires OnOld(cs, c) && c.ins != DONE
    ensures Rest(cs, c, false) == Stretch(c) + cs.From(c.i)
  {
    assert [] + Stretch(c) == Stretch(c);
  }

  /** A text ahead can be split off. */
  lemma RestPut(cs: ChangeSet, c: Cursor)
    requires OnOld(cs, c) && c.ins >= 0
    ensures Rest(cs, c, true) == [Put(TextOf(cs, c), c.len)] + Rest(cs, c, false)
    ensures c.len > 0 ==> Rest(cs, c, false) != [] && Rest(cs, c, false)[0] == Drop
  {
    var p := [Put(TextOf(cs, c), c.len)];
    assert p + Stretch(c) + cs.From(c.i) == p + ([] + Stretch(c) + cs.From(c.i));
  }

  lemma RestKeep(cs: ChangeSet, c: Cursor, put: bool)
    requires cs.Valid() && OnOld(cs, c) && c.ins == -1
    ensures c.len > 0 && Rest(cs, c, put) == Rest(cs, c, false) && Rest(cs, c, put)[0] == Keep
  {
    assert cs.ValidAt(c.i - 1);
  }

  lemma PosInRange(cs: ChangeSet, c: Cursor)
    requires OnOld(cs, c)
    ensures 0 <= Pos(cs, c) && Pos(cs, c) + c.len <= cs.Length()
    ensures c.ins == DONE ==> Pos(cs, c) == cs.Length()
  {
    cs.LenUptoMonotone(c.i, |cs.sections|);
  }

  lemma InsInRange(cs: ChangeSet, c: Cursor)
    requires cs.Valid() && OnOld(cs, c)
    ensures c.ins >= DONE
  {
    if c.ins != DONE {
      assert cs.ValidAt(c.i - 1);
    }
  }
}
