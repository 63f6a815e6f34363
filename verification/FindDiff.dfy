/** Finding the one stretch in which two strings differ. */
module FindDiff {
  import opened Basics

  datatype Side = AtStart | AtEnd

  datatype Diff = Diff(from: nat, toA: nat, toB: nat) | Equal

  /** Equal up to `n`. */
  predicate SamePrefix<T(==)>(a: seq<T>, b: seq<T>, n: nat)
  {
    n <= |a| && n <= |b| && a[..n] == b[..n]
  }

  /** Equal from `i` in `a` and `j` in `b` on. */
  predicate SameSuffix<T(==)>(a: seq<T>, b: seq<T>, i: nat, j: nat)
  {
    i <= |a| && j <= |b| && a[i..] == b[j..]
  }

  /** A common prefix and a common suffix that do not overlap describe one change. */
  lemma OneChange<T>(a: seq<T>, b: seq<T>, from: nat, toA: nat, toB: nat)
    requires SamePrefix(a, b, from) && SameSuffix(a, b, toA, toB) && from <= toA && from <= toB
    ensures a[..from] + b[from..toB] + a[toA..] == b
  {
  }

  /** A shorter common suffix. */
  lemma SuffixFrom<T>(a: seq<T>, b: seq<T>, i: nat, j: nat, k: nat)
    requires SameSuffix(a, b, i, j) && i <= k <= |a|
    ensures k - i + j <= |b| && SameSuffix(a, b, k, k - i + j)
  {
    assert |a[i..]| == |b[j..]|;
    assert a[k..] == a[i..][k - i..] && b[k - i + j..] == b[j..][k - i..];
  }

  /** A prefix and a suffix of equally long strings that overlap cover everything. */
  lemma Overlap<T>(a: seq<T>, b: seq<T>, from: nat, i: nat)
    requires |a| == |b| && SamePrefix(a, b, from) && SameSuffix(a, b, i, i) && i <= from
    ensures a == b
  {
    assert a == a[..i] + a[i..] && b == b[..i] + b[i..];
    assert a[..i] == a[..from][..i] && b[..i] == b[..from][..i];
  }

  /** The longest common prefix. */
  method CommonPrefix<T(==)>(a: seq<T>, b: seq<T>) returns (n: nat)
    ensures LongestPrefix(a, b, n)
  {
    var minLen := Min(|a|, |b|);
    n := 0;
    while n < minLen && a[n] == b[n]
      invariant n <= minLen && SamePrefix(a, b, n)
    {
      n := n + 1;
    }
  }

  /** The longest common suffix. */
  method CommonSuffix<T(==)>(a: seq<T>, b: seq<T>) returns (i: nat, j: nat)
    ensures LongestSuffix(a, b, i, j)
  {
    i, j := |a|, |b|;
    while i > 0 && j > 0 && a[i - 1] == b[j - 1]
      invariant SameSuffix(a, b, i, j) && |a| - i == |b| - j
    {
      assert a[i - 1..] == [a[i - 1]] + a[i..] && b[j - 1..] == [b[j - 1]] + b[j..];
      i, j := i - 1, j - 1;
    }
  }

  // ----- where a change may stand -----

  /** Inserting at `p` makes `b` out of `a`. */
  predicate CanInsert<T(==)>(a: seq<T>, b: seq<T>, p: int)
  {
    |a| < |b| && 0 <= p <= |a| && a[..p] + b[p..p + |b| - |a|] + a[p..] == b
  }

  /** Deleting at `p` makes `b` out of `a`. */
  predicate CanDelete<T(==)>(a: seq<T>, b: seq<T>, p: int)
  {
    |b| < |a| && 0 <= p <= |b| && a[..p] + a[p + |a| - |b|..] == b
  }

  /** `n` is as far as the strings agree. */
  predicate LongestPrefix<T(==)>(a: seq<T>, b: seq<T>, n: nat)
  {
    SamePrefix(a, b, n) && (n < |a| && n < |b| ==> a[n] != b[n])
  }

  predicate LongestSuffix<T(==)>(a: seq<T>, b: seq<T>, i: nat, j: nat)
  {
    SameSuffix(a, b, i, j) && |a| - i == |b| - j && (i > 0 && j > 0 ==> a[i - 1] != b[j - 1])
  }

  lemma PrefixAgrees<T>(a: seq<T>, b: seq<T>, n: nat)
    requires SamePrefix(a, b, n)
    ensures forall k :: 0 <= k < n ==> a[k] == b[k]
  {
    forall k | 0 <= k < n ensures a[k] == b[k] {
      assert a[..n][k] == a[k] && b[..n][k] == b[k];
    }
  }

  lemma SuffixAgrees<T>(a: seq<T>, b: seq<T>, i: nat, j: nat)
    requires SameSuffix(a, b, i, j)
    ensures |a| - i == |b| - j && forall k :: i <= k < |a| ==> a[k] == b[k - i + j]
  {
    assert |a[i..]| == |b[j..]|;
    forall k | i <= k < |a| ensures a[k] == b[k - i + j] {
      assert a[i..][k - i] == a[k] && b[j..][k - i] == b[k - i + j];
    }
  }

  lemma PrefixBound<T>(a: seq<T>, b: seq<T>, n: nat, p: nat)
    requires LongestPrefix(a, b, n) && SamePrefix(a, b, p)
    ensures p <= n
  {
    PrefixAgrees(a, b, p);
  }

  lemma SuffixBound<T>(a: seq<T>, b: seq<T>, i: nat, j: nat, p: nat, q: nat)
    requires LongestSuffix(a, b, i, j) && SameSuffix(a, b, p, q)
    ensures i <= p
  {
    SuffixAgrees(a, b, p, q);
  }

  /** An insertion may stand exactly between the suffix and the prefix. */
  lemma InsertPlaces<T>(a: seq<T>, b: seq<T>, from: nat, toA: nat, toB: nat, p: int)
    requires LongestPrefix(a, b, from) && LongestSuffix(a, b, toA, toB)
    ensures CanInsert(a, b, p) <==> |a| < |b| && toA <= p <= from
  {
    var d := |b| - |a|;
    if CanInsert(a, b, p) {
      var all := a[..p] + b[p..p + d] + a[p..];
      assert b[..p] == all[..p] == a[..p];
      assert b[p + d..] == all[p + d..] == a[p..];
      PrefixBound(a, b, from, p);
      SuffixBound(a, b, toA, toB, p, p + d);
    }
    if |a| < |b| && toA <= p <= from {
      Shorter(a, b, from, p);
      SuffixFrom(a, b, toA, toB, p);
      OneChange(a, b, p, p, p + d);
    }
  }

  lemma DeletePlaces<T>(a: seq<T>, b: seq<T>, from: nat, toA: nat, toB: nat, p: int)
    requires LongestPrefix(a, b, from) && LongestSuffix(a, b, toA, toB)
    ensures CanDelete(a, b, p) <==> |b| < |a| && toB <= p <= from
  {
    var d := |a| - |b|;
    if CanDelete(a, b, p) {
      var all := a[..p] + a[p + d..];
      assert b[..p] == all[..p] == a[..p];
      assert b[p..] == all[p..] == a[p + d..];
      PrefixBound(a, b, from, p);
      SuffixBound(a, b, toA, toB, p + d, p);
    }
    if |b| < |a| && toB <= p <= from {
      Shorter(a, b, from, p);
      SuffixFrom(b, a, toB, toA, p);
      assert b == b[..p] + b[p..];
    }
  }

  lemma Disjoint<T>(a: seq<T>, b: seq<T>, from: nat, toA: nat, toB: nat)
    requires LongestPrefix(a, b, from) && LongestSuffix(a, b, toA, toB) && a != b
    ensures |a| == |b| ==> from < toA
    ensures from <= |a| && from <= |b| && toA <= |a| && toB <= |b| && |a| - toA == |b| - toB
    ensures SamePrefix(a, b, from) && SameSuffix(a, b, toA, toB) && SameSuffix(b, a, toB, toA)
  {
    if |a| == |b| && toA <= from {
      Overlap(a, b, from, toA);
    }
  }

  /** Where prefix and suffix overlap, the shorter string has lost or gained a
      stretch of a repetition: the place is moved to the preferred one, if the
      change may stand there, and otherwise behind the whole common prefix. */
  method Settle<T(==)>(a: seq<T>, b: seq<T>, from: nat, toA: nat, toB: nat, at: int) returns (r: Diff)
    requires LongestPrefix(a, b, from) && LongestSuffix(a, b, toA, toB) && a != b
    ensures r.Diff? && r.from <= r.toA <= |a| && r.from <= r.toB <= |b|
    ensures SamePrefix(a, b, r.from) && SameSuffix(a, b, r.toA, r.toB)
    ensures r == Diff(from, toA, toB) || r.from == r.toA || r.from == r.toB
    ensures CanInsert(a, b, at) ==> r == Diff(at, at, at + |b| - |a|)
    ensures CanDelete(a, b, at) ==> r == Diff(at, at + |a| - |b|, at)
    ensures r.from == from || CanInsert(a, b, at) || CanDelete(a, b, at)
  {
    hide CanInsert, CanDelete, LongestPrefix, LongestSuffix, SamePrefix, SameSuffix;
    InsertPlaces(a, b, from, toA, toB, at);
    DeletePlaces(a, b, from, toA, toB, at);
    Disjoint(a, b, from, toA, toB);
    r := Diff(from, toA, toB);
    if toA < from && |a| < |b| {
      var move := if toA <= at <= from then from - at else 0;
      SuffixFrom(a, b, toA, toB, from - move);
      Shorter(a, b, from, from - move);
      r := Diff(from - move, from - move, from - move + (toB - toA));
    } else if toB < from {
      var move := if toB <= at <= from then from - at else 0;
      SuffixFrom(b, a, toB, toA, from - move);
      Turned(b, a, from - move, from - move - toB + toA);
      Shorter(a, b, from, from - move);
      r := Diff(from - move, from - move + (toA - toB), from - move);
    }
  }

  lemma Turned<T>(a: seq<T>, b: seq<T>, i: nat, j: nat)
    requires SameSuffix(a, b, i, j)
    ensures SameSuffix(b, a, j, i)
  {
  }

  /** The difference between `a` and `b`.  Where it could lie in several places, as
      in a run of the same character, `preferred` and `side` choose one: what is
      inserted starts there, what is deleted starts there or ends there. */
  method Find<T(==)>(a: seq<T>, b: seq<T>, preferred: int, side: Side) returns (r: Diff)
    ensures r.Equal? <==> a == b
    ensures r.Diff? ==> r.from <= r.toA <= |a| && r.from <= r.toB <= |b|
    ensures r.Diff? ==> a[..r.from] + b[r.from..r.toB] + a[r.toA..] == b
    ensures r.Diff? ==> r.from == r.toA || r.from == r.toB || (a[r.from] != b[r.from] && a[r.toA - 1] != b[r.toB - 1])
    ensures CanInsert(a, b, preferred) ==> r == Diff(preferred, preferred, preferred + |b| - |a|)
    ensures Preferred(a, b, preferred, side) ==> r == DeletedThere(a, b, preferred, side)
    ensures r.Diff? && !CanInsert(a, b, preferred) && !Preferred(a, b, preferred, side) ==> LongestPrefix(a, b, r.from)
  {
    var from := CommonPrefix(a, b);
    if from == Min(|a|, |b|) && |a| == |b| {
      assert a == a[..from] && b == b[..from];
      return Equal;
    }
    assert a != b;
    var toA, toB := CommonSuffix(a, b);
    r := Choose(a, b, from, toA, toB, preferred, side);
  }

  /** The preferred place, among those that prefix and suffix leave. */
  method Choose<T(==)>(a: seq<T>, b: seq<T>, from: nat, toA: nat, toB: nat, preferred: int, side: Side)
    returns (r: Diff)
    requires LongestPrefix(a, b, from) && LongestSuffix(a, b, toA, toB) && a != b
    ensures r.Diff? && r.from <= r.toA <= |a| && r.from <= r.toB <= |b|
    ensures a[..r.from] + b[r.from..r.toB] + a[r.toA..] == b
    ensures r == Diff(from, toA, toB) || r.from == r.toA || r.from == r.toB
    ensures CanInsert(a, b, preferred) ==> r == Diff(preferred, preferred, preferred + |b| - |a|)
    ensures Preferred(a, b, preferred, side) ==> r == DeletedThere(a, b, preferred, side)
    ensures !CanInsert(a, b, preferred) && !Preferred(a, b, preferred, side) ==> r.from == from
  {
    hide CanInsert, CanDelete, LongestPrefix, LongestSuffix, SamePrefix, SameSuffix;
    var at := preferred;
    if side == AtEnd {
      var adjust := Max(0, from - Min(toA, toB));
      at := at - (toA + adjust - from);
    }
    Disjoint(a, b, from, toA, toB);
    InsertPlaces(a, b, from, toA, toB, preferred);
    InsertPlaces(a, b, from, toA, toB, at);
    DeletePlaces(a, b, from, toA, toB, at);
    DeletePlaces(a, b, from, toA, toB, if side == AtStart then preferred else preferred - (|a| - |b|));
    r := Settle(a, b, from, toA, toB, at);
    OneChange(a, b, r.from, r.toA, r.toB);
  }

  /** The deletion may start, or end, at the preferred place. */
  predicate Preferred<T(==)>(a: seq<T>, b: seq<T>, p: int, side: Side)
  {
    CanDelete(a, b, if side == AtStart then p else p - (|a| - |b|))
  }

  function DeletedThere<T>(a: seq<T>, b: seq<T>, p: int, side: Side): Diff
    requires Preferred(a, b, p, side)
  {
    var d := |a| - |b|;
    if side == AtStart then Diff(p, p + d, p) else Diff(p - d, p, p - d)
  }

  lemma Shorter<T>(a: seq<T>, b: seq<T>, n: nat, m: nat)
    requires SamePrefix(a, b, n) && m <= n
    ensures SamePrefix(a, b, m)
  {
    assert a[..m] == a[..n][..m] && b[..m] == b[..n][..m];
  }
}
