/** Building a tree out of a list of subtrees: small ones are packed together,
  large ones are taken apart.  Nothing of the text may get lost on the way.
 */
module Balancing {
  import opened Basics
  import opened Lines
  import opened Ropes

  /** How the children are being packed: finished chunks, and the current one
      with its number of lines and its length. */
  datatype Packing = Packing(chunked: seq<Rope>, chunk: seq<Rope>, lines: int, length: int)

  function ChunkSize(total: nat): nat
  {
    Max(32, total / 32)
  }

  ghost predicate Packed(st: Packing, text: seq<Line>)
  {
    && AllValid(st.chunked) && AllValid(st.chunk)
    && LinesOf(st.chunked) + LinesOf(st.chunk) == text
    && st.lines == |LinesOf(st.chunk)|
    && st.length == (if st.chunk == [] then -1 else |FlatOf(st.chunk)|)
  }

  /** The current chunk stays smaller than the whole, so that packing ends: with
      more than one subtree it has at most `size` lines before its last leaf. */
  ghost predicate Small(st: Packing, size: nat)
  {
    |st.chunk| > 1 ==>
      && size > 32
      && var last := st.chunk[|st.chunk| - 1];
         st.lines <= size || (last.Leaf? && st.lines - |last.text| < size)
  }

  lemma SmallShrinks(st: Packing, text: seq<Line>, total: nat)
    requires Packed(st, text) && Small(st, ChunkSize(total)) && |st.chunk| > 1
    ensures |LinesOf(st.chunk)| < total
  {
    var last := st.chunk[|st.chunk| - 1];
    assert Valid(last);
  }

  lemma EmptyChunk(st: Packing, text: seq<Line>)
    requires Packed(st, text)
    ensures st.lines == 0 <==> st.chunk == []
    ensures st.chunk == [] ==> LinesOf(st.chunked) == text
  {
    LinesSome(st.chunk);
    if st.chunk == [] {
      assert LinesOf(st.chunked) + LinesOf(st.chunk) == LinesOf(st.chunked);
    }
  }

  /** Adding a subtree to the current chunk. */
  lemma PackedPush(st: Packing, text: seq<Line>, t: Rope)
    requires Packed(st, text) && Valid(t)
    ensures Packed(Packing(st.chunked, st.chunk + [t], st.lines + LineCount(t), st.length + t.length + 1),
                   text + AllLines(t))
  {
    hide LinesOf, AllLines, Flat, FlatOf, LineCount, Valid;
    LinesPush(st.chunk, t);
    FlatPush(st.chunk, t);
    ValidFacts(t);
    Assoc(LinesOf(st.chunked), LinesOf(st.chunk), AllLines(t));
  }

  /** Finishing a subtree by itself. */
  lemma PackedDirect(st: Packing, text: seq<Line>, t: Rope)
    requires Packed(st, text) && Valid(t) && st.chunk == []
    ensures Packed(st.(chunked := st.chunked + [t]), text + AllLines(t))
  {
    LinesPush(st.chunked, t);
    EmptyChunk(st, text);
    assert LinesOf(st.chunked + [t]) + [] == text + AllLines(t);
  }

  function Melted(last: Rope, t: Rope): Rope
    requires last.Leaf? && t.Leaf?
  {
    Leaf(last.text + t.text, last.length + 1 + t.length)
  }

  lemma MeltedIsValid(last: Rope, t: Rope)
    requires Valid(last) && last.Leaf? && Valid(t) && t.Leaf? && |t.text| + |last.text| <= 32
    ensures Valid(Melted(last, t)) && Flat(Melted(last, t)) == Flat(last) + ['\n'] + Flat(t)
  {
    JoinedConcat(last.text, t.text);
  }

  /** Melting a leaf into the last leaf of the current chunk. */
  lemma PackedMelt(st: Packing, text: seq<Line>, t: Rope)
    requires Packed(st, text) && Valid(t) && t.Leaf? && st.chunk != []
    requires st.chunk[|st.chunk| - 1].Leaf? && |t.text| + |st.chunk[|st.chunk| - 1].text| <= 32
    ensures var n := |st.chunk| - 1;
      Packed(Packing(st.chunked, st.chunk[n := Melted(st.chunk[n], t)], st.lines + |t.text|, st.length + t.length + 1),
             text + AllLines(t))
  {
    hide LinesOf, Joined, Valid;
    var n := |st.chunk| - 1;
    var last, front := st.chunk[n], st.chunk[..n];
    var melted := Melted(last, t);
    var chunk' := st.chunk[n := melted];
    assert st.chunk == front + [last] && chunk' == front + [melted];
    MeltedIsValid(last, t);
    ValidFacts(t);
    LinesPush(front, last);
    LinesPush(front, melted);
    FlatPush(front, last);
    FlatPush(front, melted);
    assert LinesOf(chunk') == LinesOf(st.chunk) + t.text;
    assert LinesOf(st.chunked) + (LinesOf(st.chunk) + t.text) == text + AllLines(t);
  }

  /** Pushing a subtree that cannot be melted leaves the chunk small. */
  lemma PushSmall(st: Packing, text: seq<Line>, t: Rope, size: nat)
    requires Packed(st, text) && Small(st, size) && Valid(t) && size >= 32
    requires st.lines + LineCount(t) <= size
    requires st.chunk != [] ==>
      var last := st.chunk[|st.chunk| - 1]; !(t.Leaf? && last.Leaf? && |t.text| + |last.text| <= 32)
    ensures Small(Packing(st.chunked, st.chunk + [t], st.lines + LineCount(t), st.length + t.length + 1), size)
  {
    ValidFacts(t);
    if |st.chunk| == 1 {
      assert st.chunk == [st.chunk[0]];
      LinesOne(st.chunk[0]);
      ValidFacts(st.chunk[0]);
    }
  }

  /** Close the current chunk. */
  method Flush(st: Packing, ghost total: nat, ghost text: seq<Line>) returns (st': Packing)
    requires Packed(st, text) && Small(st, ChunkSize(total))
    ensures Packed(st', text) && st'.chunk == [] && st'.lines == 0
    decreases total, 0
  {
    hide LinesOf, Joined, Valid;
    EmptyChunk(st, text);
    if st.lines == 0 {
      return st;
    }
    var t;
    if |st.chunk| == 1 {
      t := st.chunk[0];
      assert st.chunk == [t];
      LinesOne(t);
    } else {
      SmallShrinks(st, text, total);
      t := From(st.chunk, st.length);
    }
    st' := Packing(st.chunked + [t], [], 0, -1);
    PackedClosed(st, text, t);
  }

  lemma PackedClosed(st: Packing, text: seq<Line>, t: Rope)
    requires Packed(st, text) && Valid(t) && AllLines(t) == LinesOf(st.chunk)
    ensures Packed(Packing(st.chunked + [t], [], 0, -1), text)
  {
    LinesPush(st.chunked, t);
    assert LinesOf(st.chunked + [t]) + [] == text;
  }

  /** Add the children of a node one by one. */
  method AddAll(st: Packing, children: seq<Rope>, size: nat, ghost total: nat, ghost text: seq<Line>)
    returns (st': Packing)
    requires Packed(st, text) && Small(st, size) && size == ChunkSize(total) && AllValid(children)
    ensures Packed(st', text + LinesOf(children)) && Small(st', size)
    decreases total, 1, children, 0
  {
    hide Packed, Small, Valid;
    st' := st;
    assert text + LinesOf(children[..0]) == text;
    for i := 0 to |children|
      invariant Packed(st', text + LinesOf(children[..i])) && Small(st', size)
    {
      st' := Add(st', children[i], size, total, text + LinesOf(children[..i]));
      assert children[..i + 1] == children[..i] + [children[i]];
      LinesPush(children[..i], children[i]);
      assert text + LinesOf(children[..i]) + AllLines(children[i]) == text + LinesOf(children[..i + 1]);
    }
    assert children[..|children|] == children;
  }

  /** Add one subtree: take a large node apart, let a fairly large subtree stand
      by itself, melt small leaves together, and put the rest in a chunk. */
  method Add(st: Packing, child: Rope, size: nat, ghost total: nat, ghost text: seq<Line>) returns (st': Packing)
    requires Packed(st, text) && Small(st, size) && size == ChunkSize(total) && Valid(child)
    ensures Packed(st', text + AllLines(child)) && Small(st', size)
    decreases total, 1, child, 1
  {
    hide Packed, Valid;
    ValidFacts(child);
    EmptyChunk(st, text);
    var maxSize, minSize := size * 2, size / 2;
    var n := |st.chunk| - 1;
    if LineCount(child) > maxSize && child.Node? {
      st' := AddAll(st, child.children, size, total, text);
    } else if LineCount(child) > minSize && (st.lines > minSize || st.lines == 0) {
      st' := Flush(st, total, text);
      PackedDirect(st', text, child);
      st' := st'.(chunked := st'.chunked + [child]);
    } else if child.Leaf? && st.lines != 0 && st.chunk[n].Leaf? && |child.text| + |st.chunk[n].text| <= 32 {
      PackedMelt(st, text, child);
      LastLeaf(st, text);
      st' := Packing(st.chunked, st.chunk[n := Melted(st.chunk[n], child)],
                     st.lines + |child.text|, st.length + child.length + 1);
    } else {
      st' := st;
      if st.lines + LineCount(child) > size {
        st' := Flush(st, total, text);
      } else {
        PushSmall(st, text, child, size);
      }
      PackedPush(st', text, child);
      st' := Packing(st'.chunked, st'.chunk + [child], st'.lines + LineCount(child), st'.length + child.length + 1);
    }
  }

  lemma LastLeaf(st: Packing, text: seq<Line>)
    requires Packed(st, text) && st.chunk != [] && st.chunk[|st.chunk| - 1].Leaf?
    ensures |st.chunk[|st.chunk| - 1].text| > 0
  {
    assert Valid(st.chunk[|st.chunk| - 1]);
  }

  /** One tree out of many, with the same lines; it is as good as the length
      that it is given. */
  method From(children: seq<Rope>, length: int) returns (t: Rope)
    requires children != [] && AllValid(children)
    ensures AllLines(t) == LinesOf(children)
    ensures length == |FlatOf(children)| ==> Valid(t)
    decreases |LinesOf(children)|, 2
  {
    LinesSome(children);
    var total := |LinesOf(children)|;
    if total < 32 {
      return Leaf(LinesOf(children), length);
    }
    hide LinesOf, AllLines;
    var size := ChunkSize(total);
    var st := Packing([], [], 0, -1);
    NothingPacked(size);
    st := AddAll(st, children, size, total, []);
    assert [] + LinesOf(children) == LinesOf(children);
    st := Flush(st, total, LinesOf(children));
    EmptyChunk(st, LinesOf(children));
    t := Together(st.chunked, length);
  }

  lemma NothingPacked(size: nat)
    ensures Packed(Packing([], [], 0, -1), []) && Small(Packing([], [], 0, -1), size)
  {
  }

  /** The only chunk, or a node of all chunks. */
  method Together(chunks: seq<Rope>, length: int) returns (t: Rope)
    requires AllValid(chunks) && |LinesOf(chunks)| >= 32
    ensures AllLines(t) == LinesOf(chunks)
    ensures length == |FlatOf(chunks)| ==> Valid(t)
  {
    if |chunks| == 1 {
      assert chunks == [chunks[0]];
      LinesOne(chunks[0]);
      t := chunks[0];
    } else {
      t := NewNode(chunks, length);
    }
  }
}
