/** The meaning of change sets, one document character at a time.

  A change set is read as a sequence of tokens: `Keep` and `Drop` each answer
  for one character of the document, `Put` adds text between two characters.
  `Run` is what a change set does to a document, and `Merge` is what two change
  sets made on the same document are meant to do together.  Neither mentions
  sections, iterators or offsets: they are the references that the section
  algorithms are proved against.
 */
module Tokens {
  import opened Basics

  type Text = seq<char>

  /** `Put` remembers how many characters its change removes (`span`), because
      that is what orders two changes that start at the same place. */
  datatype Tok = Keep | Drop | Put(text: Text, span: nat)

  function Rep(t: Tok, n: nat): (ts: seq<Tok>)
  {
    seq(n, _ => t)
  }

  /** Number of document characters that `ts` answers for. */
  function Width(ts: seq<Tok>): nat
  {
    if ts == [] then 0 else (if ts[0].Put? then 0 else 1) + Width(ts[1..])
  }

  /** What a change does to a document: keep, drop, or put text in. */
  function Run(ts: seq<Tok>, d: Text): Text
    decreases |ts|
  {
    if ts == [] then []
    else if ts[0].Put? then ts[0].text + Run(ts[1..], d)
    else if d == [] then []
    else (if ts[0].Keep? then [d[0]] else []) + Run(ts[1..], d[1..])
  }

  /** Whether the change at the head of `xs` is taken before the one at the head
      of `ys`: it is there, and either `ys` has no change at this place, or the
      one of `xs` removes less, or it removes as much and `xs` wins ties. */
  predicate TakesFirst(xs: seq<Tok>, ys: seq<Tok>, winsTies: bool)
  {
    && xs != [] && xs[0].Put?
    && (ys == [] || !ys[0].Put? || xs[0].span < ys[0].span || (xs[0].span == ys[0].span && winsTies))
  }

  /** The document that both changes are meant to lead to: a character survives
      when both keep it, and every inserted text stands where its change starts,
      in the order given by `TakesFirst`. */
  function Merge(xs: seq<Tok>, ys: seq<Tok>, d: Text, xFirst: bool): Text
    decreases |xs| + |ys|
  {
    if TakesFirst(xs, ys, xFirst) then xs[0].text + Merge(xs[1..], ys, d, xFirst)
    else if ys != [] && ys[0].Put? then ys[0].text + Merge(xs, ys[1..], d, xFirst)
    else if xs == [] || ys == [] || d == [] then []
    else (if xs[0].Keep? && ys[0].Keep? then [d[0]] else []) + Merge(xs[1..], ys[1..], d[1..], xFirst)
  }

  lemma {:induction false} WidthConcat(xs: seq<Tok>, ys: seq<Tok>)
    ensures Width(xs + ys) == Width(xs) + Width(ys)
  {
    if xs == [] {
      assert xs + ys == ys;
    } else {
      assert (xs + ys)[1..] == xs[1..] + ys;
      WidthConcat(xs[1..], ys);
    }
  }

  lemma {:induction false} WidthRep(t: Tok, n: nat)
    requires !t.Put?
    ensures Width(Rep(t, n)) == n
  {
    if n > 0 {
      assert Rep(t, n)[1..] == Rep(t, n - 1);
      WidthRep(t, n - 1);
    }
  }

  lemma RepConcat(t: Tok, m: nat, n: nat)
    ensures Rep(t, m) + Rep(t, n) == Rep(t, m + n)
  {
  }

  lemma {:induction false} RunConcat(xs: seq<Tok>, ys: seq<Tok>, d: Text, e: Text)
    requires Width(xs) == |d|
    ensures Run(xs + ys, d + e) == Run(xs, d) + Run(ys, e)
    decreases |xs|
  {
    if xs == [] {
      assert xs + ys == ys && d + e == e;
    } else {
      var t, xs' := xs[0], xs[1..];
      assert (xs + ys)[0] == t && (xs + ys)[1..] == xs' + ys;
      if t.Put? {
        RunConcat(xs', ys, d, e);
        Assoc(t.text, Run(xs', d), Run(ys, e));
      } else {
        assert (d + e)[0] == d[0] && (d + e)[1..] == d[1..] + e;
        RunConcat(xs', ys, d[1..], e);
        Assoc(if t.Keep? then [d[0]] else [], Run(xs', d[1..]), Run(ys, e));
      }
    }
  }

  lemma {:induction false} RunRep(t: Tok, n: nat, d: Text)
    requires !t.Put? && |d| == n
    ensures Run(Rep(t, n), d) == if t.Keep? then d else []
  {
    if n > 0 {
      assert Rep(t, n)[1..] == Rep(t, n - 1);
      RunRep(t, n - 1, d[1..]);
    }
  }

  /** A stretch of `Keep` or `Drop` in front. */
  lemma RunRepThen(t: Tok, n: nat, ts: seq<Tok>, d: Text)
    requires !t.Put? && n <= |d|
    ensures Run(Rep(t, n) + ts, d) == (if t.Keep? then d[..n] else []) + Run(ts, d[n..])
  {
    hide Run, Rep, Width;
    var front, back := d[..n], d[n..];
    WidthRep(t, n);
    RunRep(t, n, front);
    RunConcat(Rep(t, n), ts, front, back);
    assert front + back == d;
  }

  lemma RunPut(text: Text, span: nat, ts: seq<Tok>, d: Text)
    ensures Run([Put(text, span)] + ts, d) == text + Run(ts, d)
  {
    assert ([Put(text, span)] + ts)[1..] == ts;
  }

  /** Equally long stretches of `Keep` or `Drop` in front of both sides. */
  lemma {:induction false} MergeRep(s: Tok, t: Tok, n: nat, xs: seq<Tok>, ys: seq<Tok>, d: Text, xFirst: bool)
    requires !s.Put? && !t.Put? && n <= |d|
    ensures Merge(Rep(s, n) + xs, Rep(t, n) + ys, d, xFirst)
         == (if s.Keep? && t.Keep? then d[..n] else []) + Merge(xs, ys, d[n..], xFirst)
  {
    if n == 0 {
      assert Rep(s, 0) + xs == xs && Rep(t, 0) + ys == ys && d[0..] == d;
    } else {
      MergeStep(s, t, Rep(s, n - 1) + xs, Rep(t, n - 1) + ys, d, xFirst);
      hide Merge;
      RepFirst(s, n, xs);
      RepFirst(t, n, ys);
      MergeRep(s, t, n - 1, xs, ys, d[1..], xFirst);
      assert d[1..][n - 1..] == d[n..];
      if s.Keep? && t.Keep? {
        assert [d[0]] + d[1..][..n - 1] == d[..n];
        Assoc([d[0]], d[1..][..n - 1], Merge(xs, ys, d[n..], xFirst));
      }
    }
  }

  lemma RepFirst(t: Tok, n: nat, ts: seq<Tok>)
    requires n > 0
    ensures Rep(t, n) + ts == [t] + (Rep(t, n - 1) + ts)
  {
  }

  /** One character that each side keeps or drops. */
  lemma MergeStep(s: Tok, t: Tok, xs: seq<Tok>, ys: seq<Tok>, d: Text, xFirst: bool)
    requires !s.Put? && !t.Put? && d != []
    ensures Merge([s] + xs, [t] + ys, d, xFirst)
         == (if s.Keep? && t.Keep? then [d[0]] else []) + Merge(xs, ys, d[1..], xFirst)
  {
    assert ([s] + xs)[1..] == xs && ([t] + ys)[1..] == ys;
  }

  /** The left change is taken first. */
  lemma MergePutLeft(text: Text, span: nat, xs: seq<Tok>, ys: seq<Tok>, d: Text, xFirst: bool)
    requires TakesFirst([Put(text, span)] + xs, ys, xFirst)
    ensures Merge([Put(text, span)] + xs, ys, d, xFirst) == text + Merge(xs, ys, d, xFirst)
  {
    assert ([Put(text, span)] + xs)[1..] == xs;
  }

  /** The right change is taken first. */
  lemma MergePutRight(xs: seq<Tok>, text: Text, span: nat, ys: seq<Tok>, d: Text, xFirst: bool)
    requires !TakesFirst(xs, [Put(text, span)] + ys, xFirst)
    ensures Merge(xs, [Put(text, span)] + ys, d, xFirst) == text + Merge(xs, ys, d, xFirst)
  {
    assert ([Put(text, span)] + ys)[1..] == ys;
  }

  /** The merged document does not depend on which change is called the first
      argument, only on which of them wins ties. */
  lemma {:induction false} MergeSymmetric(xs: seq<Tok>, ys: seq<Tok>, d: Text, xFirst: bool)
    ensures Merge(xs, ys, d, xFirst) == Merge(ys, xs, d, !xFirst)
    decreases |xs| + |ys|
  {
    if TakesFirst(xs, ys, xFirst) {
      MergeSymmetric(xs[1..], ys, d, xFirst);
    } else if ys != [] && ys[0].Put? {
      MergeSymmetric(xs, ys[1..], d, xFirst);
    } else if !(xs == [] || ys == [] || d == []) {
      MergeSymmetric(xs[1..], ys[1..], d[1..], xFirst);
    }
  }
}
