/** The two in-place enumerators of the engine: std::next_permutation over a 0/1 mask
    (phase12/src/showdown_evaluator.cpp) and the next-combination step over increasing index
    tuples (equity/src/equity_calculator.cpp). Each is proved to walk, one step at a time, a list
    that holds every selection exactly once. */
module Enumeration {

  // ---------- 0/1 masks ----------

  function Zeros(n: nat): (m: seq<int>)
    ensures |m| == n && forall i :: 0 <= i < n ==> m[i] == 0
  {
    seq(n, _ => 0)
  }

  function Ones(n: nat): (m: seq<int>)
    ensures |m| == n && forall i :: 0 <= i < n ==> m[i] == 1
  {
    seq(n, _ => 1)
  }

  ghost predicate IsMask(m: seq<int>) {
    forall i :: 0 <= i < |m| ==> m[i] == 0 || m[i] == 1
  }

  /** The number of ones. */
  ghost function Weight(m: seq<int>): nat {
    if m == [] then 0 else (if m[0] == 1 then 1 else 0) + Weight(m[1..])
  }

  /** Binomial coefficient, by Pascal's rule. */
  ghost function Choose(n: nat, k: nat): nat {
    if n == 0 then (if k == 0 then 1 else 0)
    else Choose(n - 1, k) + (if k == 0 then 0 else Choose(n - 1, k - 1))
  }

  /** The i-th mask of length n and weight k in lexicographic order. */
  ghost function MaskAt(n: nat, k: nat, i: nat): (m: seq<int>)
    requires i < Choose(n, k)
    ensures |m| == n && IsMask(m) && Weight(m) == k
  {
    if n == 0 then []
    else if i < Choose(n - 1, k) then [0] + MaskAt(n - 1, k, i)
    else [1] + MaskAt(n - 1, k - 1, i - Choose(n - 1, k))
  }

  /** Where a mask stands in that order. */
  ghost function MaskRank(m: seq<int>): (i: nat)
    requires IsMask(m)
    ensures i < Choose(|m|, Weight(m)) && MaskAt(|m|, Weight(m), i) == m
  {
    if m == [] then 0
    else
      assert m == [m[0]] + m[1..];
      if m[0] == 0 then MaskRank(m[1..]) else Choose(|m| - 1, Weight(m)) + MaskRank(m[1..])
  }

  /** Different places hold different masks: with MaskRank, MaskAt is a bijection. */
  lemma {:induction false} MaskAtInjective(n: nat, k: nat, i: nat)
    requires i < Choose(n, k)
    ensures MaskRank(MaskAt(n, k, i)) == i
  {
    if n > 0 {
      var m := MaskAt(n, k, i);
      if i < Choose(n - 1, k) {
        MaskAtInjective(n - 1, k, i);
        assert m[1..] == MaskAt(n - 1, k, i);
      } else {
        MaskAtInjective(n - 1, k - 1, i - Choose(n - 1, k));
        assert m[1..] == MaskAt(n - 1, k - 1, i - Choose(n - 1, k));
      }
    }
  }

  /** The lexicographic successor of a mask: its last "01", followed by 1...1 0...0, becomes "1"
      followed by that tail in ascending order with the zero put back. */
  ghost predicate IsNext(m: seq<int>, next: seq<int>) {
    exists prefix: seq<int>, p: nat, z: nat :: NextWith(m, next, prefix, p, z)
  }

  ghost predicate NextWith(m: seq<int>, next: seq<int>, prefix: seq<int>, p: nat, z: nat) {
    && p > 0
    && m == prefix + [0] + Ones(p) + Zeros(z)
    && next == prefix + [1] + Zeros(z + 1) + Ones(p - 1)
  }

  /** A mask with all its ones first has no successor. */
  ghost predicate IsLast(m: seq<int>) {
    exists p: nat :: p <= |m| && m == Ones(p) + Zeros(|m| - p)
  }

  /** The successor is unique, and a last mask has none. */
  lemma {:induction false} NextUnique(m: seq<int>, a: seq<int>, b: seq<int>)
    requires IsNext(m, a)
    ensures !IsLast(m)
    ensures IsNext(m, b) ==> a == b
  {
    var prefix, p: nat, z: nat :| NextWith(m, a, prefix, p, z);
    var k := |prefix|;
    assert m[k] == 0 && m[k + 1] == 1;
    if IsNext(m, b) {
      var prefix', p': nat, z': nat :| NextWith(m, b, prefix', p', z');
      SameTail(m, prefix, p, z, prefix', p', z');
    }
  }

  lemma {:induction false} SameTail(m: seq<int>, prefix: seq<int>, p: nat, z: nat, prefix': seq<int>, p': nat, z': nat)
    requires p > 0 && p' > 0
    requires m == prefix + [0] + Ones(p) + Zeros(z) == prefix' + [0] + Ones(p') + Zeros(z')
    ensures z == z' && p == p' && prefix == prefix'
  {
    var n := |m|;
    assert m[n - z - 1] == 1 && m[n - z' - 1] == 1;
    assert z == z';
    assert m[n - z - p - 1] == 0 && m[n - z - p' - 1] == 0;
    assert p == p';
    assert prefix == m[..n - z - p - 1] == prefix';
  }

  lemma {:induction false} ChooseZero(n: nat, k: nat)
    ensures Choose(n, k) > 0 <==> k <= n
  {
    if n > 0 {
      ChooseZero(n - 1, k);
      if k > 0 { ChooseZero(n - 1, k - 1); }
    }
  }

  /** The first mask has its ones last. */
  lemma {:induction false} FirstMask(n: nat, k: nat)
    requires k <= n
    ensures Choose(n, k) > 0 && MaskAt(n, k, 0) == Zeros(n - k) + Ones(k)
  {
    ChooseZero(n, k);
    if n > 0 {
      ChooseZero(n - 1, k);
      if k < n {
        FirstMask(n - 1, k);
      } else {
        FirstMask(n - 1, k - 1);
      }
    }
  }

  /** The last mask has its ones first. */
  lemma {:induction false} LastMask(n: nat, k: nat)
    requires k <= n
    ensures Choose(n, k) > 0 && MaskAt(n, k, Choose(n, k) - 1) == Ones(k) + Zeros(n - k)
  {
    ChooseZero(n, k);
    if n > 0 {
      LastMask(n - 1, if k == 0 then 0 else k - 1);
    }
  }

  lemma {:induction false} StepWithin(x: int, m: seq<int>, next: seq<int>)
    requires IsNext(m, next)
    ensures IsNext([x] + m, [x] + next)
  {
    var prefix, p: nat, z: nat :| NextWith(m, next, prefix, p, z);
    assert [x] + m == ([x] + prefix) + [0] + Ones(p) + Zeros(z);
    assert [x] + next == ([x] + prefix) + [1] + Zeros(z + 1) + Ones(p - 1);
    assert NextWith([x] + m, [x] + next, [x] + prefix, p, z);
  }

  /** From the last mask starting with 0 to the first starting with 1. */
  lemma {:induction false} StepAcross(n: nat, k: nat)
    requires n > 0 && k > 0 && 0 < Choose(n - 1, k) < Choose(n, k)
    ensures IsNext([0] + MaskAt(n - 1, k, Choose(n - 1, k) - 1), [1] + MaskAt(n - 1, k - 1, 0))
  {
    ChooseZero(n - 1, k);
    ChooseZero(n - 1, k - 1);
    LastMask(n - 1, k);
    FirstMask(n - 1, k - 1);
    assert NextWith([0] + (Ones(k) + Zeros(n - 1 - k)), [1] + (Zeros(n - k) + Ones(k - 1)), [], k, n - 1 - k);
  }

  /** The i-th mask's successor is the next one, and only the final mask is last. */
  lemma {:induction false} SuccessorWalks(n: nat, k: nat, i: nat)
    requires i < Choose(n, k)
    ensures i + 1 < Choose(n, k) ==> IsNext(MaskAt(n, k, i), MaskAt(n, k, i + 1))
    ensures i + 1 == Choose(n, k) ==> IsLast(MaskAt(n, k, i))
  {
    if i + 1 == Choose(n, k) {
      ChooseZero(n, k);
      LastMask(n, k);
    } else if n > 0 {
      var zeros := Choose(n - 1, k);
      if i + 1 < zeros {
        SuccessorWalks(n - 1, k, i);
        StepWithin(0, MaskAt(n - 1, k, i), MaskAt(n - 1, k, i + 1));
      } else if i + 1 == zeros {
        StepAcross(n, k);
      } else {
        SuccessorWalks(n - 1, k - 1, i - zeros);
        StepWithin(1, MaskAt(n - 1, k - 1, i - zeros), MaskAt(n - 1, k - 1, i + 1 - zeros));
      }
    }
  }

  // ---------- std::next_permutation on a mask, in place ----------

  /** The standard algorithm: find the rightmost ascent, swap its left end with the rightmost
      larger element, reverse what follows. Returns false, leaving the first mask, at the end. */
  method NextPermutation(a: array<int>) returns (more: bool)
    requires IsMask(a[..])
    modifies a
    ensures more ==> IsNext(old(a[..]), a[..])
    ensures !more ==> IsLast(old(a[..]))
    ensures IsMask(a[..])
  {
    ghost var m := a[..];
    var n := a.Length;
    var z, p := TailShape(a);
    if z + p == n {
      assert m == Ones(p) + Zeros(n - p);
      Reverse(a, 0);
      return false;
    }
    var pivot := n - 1 - z - p;
    assert m == m[..pivot] + [0] + Ones(p) + Zeros(z);
    a[pivot], a[pivot + p] := a[pivot + p], a[pivot];
    Reverse(a, pivot + 1);
    assert a[..] == m[..pivot] + [1] + Zeros(z + 1) + Ones(p - 1);
    assert NextWith(m, a[..], m[..pivot], p, z);
    return true;
  }

  /** The trailing zeros and the ones before them; what precedes, if anything, is the rightmost
      ascent's 0. */
  method TailShape(a: array<int>) returns (z: nat, p: nat)
    requires IsMask(a[..])
    ensures z + p <= a.Length
    ensures forall i :: a.Length - z <= i < a.Length ==> a[i] == 0
    ensures forall i :: a.Length - z - p <= i < a.Length - z ==> a[i] == 1
    ensures z + p < a.Length ==> p > 0 && a[a.Length - 1 - z - p] == 0
  {
    var n := a.Length;
    z := 0;
    while z < n && a[n - 1 - z] == 0
      invariant 0 <= z <= n
      invariant forall i :: n - z <= i < n ==> a[i] == 0
    {
      z := z + 1;
    }
    p := 0;
    while z + p < n && a[n - 1 - z - p] == 1
      invariant 0 <= p && z + p <= n
      invariant forall i :: n - z - p <= i < n - z ==> a[i] == 1
    {
      p := p + 1;
    }
    if z + p < n {
      assert a[..][n - 1 - z - p] == a[n - 1 - z - p];
      assert z < n && a[..][n - 1 - z] == a[n - 1 - z];
    }
  }

  /** Reverse the elements from `lo` on. */
  method Reverse(a: array<int>, lo: nat)
    requires lo <= a.Length
    modifies a
    ensures forall i :: 0 <= i < lo ==> a[i] == old(a[i])
    ensures forall i :: lo <= i < a.Length ==> a[i] == old(a[lo + a.Length - 1 - i])
  {
    var i, j := lo, a.Length - 1;
    while i < j
      invariant lo <= i && i + j == lo + a.Length - 1 && i <= j + 1
      invariant forall k :: 0 <= k < lo ==> a[k] == old(a[k])
      invariant forall k :: lo <= k < i || j < k < a.Length ==> a[k] == old(a[lo + a.Length - 1 - k])
      invariant forall k :: i <= k <= j ==> a[k] == old(a[k])
    {
      a[i], a[j] := a[j], a[i];
      i, j := i + 1, j - 1;
    }
  }

  // ---------- increasing index tuples ----------

  /** a, a + 1, ..., a + len - 1. */
  function Run(a: int, len: nat): (t: seq<int>)
    ensures |t| == len && forall i :: 0 <= i < len ==> t[i] == a + i
  {
    seq(len, i => a + i)
  }

  /** Strictly increasing, with every entry in [lo, hi). */
  predicate IsTuple(t: seq<int>, lo: int, hi: int) {
    && (forall i :: 0 <= i < |t| ==> lo <= t[i] < hi)
    && (forall i, j :: 0 <= i < j < |t| ==> t[i] < t[j])
  }

  /** The i-th increasing k-tuple over [lo, hi), in lexicographic order. */
  ghost function TupleAt(lo: int, hi: int, k: nat, i: nat): (t: seq<int>)
    requires lo <= hi && i < Choose(hi - lo, k)
    ensures |t| == k && IsTuple(t, lo, hi)
    decreases hi - lo
  {
    if k == 0 then []
    else
      var firsts := Choose(hi - lo - 1, k - 1);
      if i < firsts then [lo] + TupleAt(lo + 1, hi, k - 1, i) else TupleAt(lo + 1, hi, k, i - firsts)
  }

  lemma {:induction false} ChooseNothing(n: nat)
    ensures Choose(n, 0) == 1
  {
    if n > 0 { ChooseNothing(n - 1); }
  }

  /** Where an increasing tuple stands in that order. */
  ghost function TupleRank(t: seq<int>, lo: int, hi: int): (i: nat)
    requires lo <= hi && IsTuple(t, lo, hi)
    ensures i < Choose(hi - lo, |t|) && TupleAt(lo, hi, |t|, i) == t
    decreases hi - lo
  {
    if t == [] then ChooseNothing(hi - lo); 0
    else
      assert t == [t[0]] + t[1..];
      if t[0] == lo then TupleRank(t[1..], lo + 1, hi)
      else Choose(hi - lo - 1, |t| - 1) + TupleRank(t, lo + 1, hi)
  }

  /** Different places hold different tuples: with TupleRank, TupleAt is a bijection. */
  lemma {:induction false} TupleAtInjective(lo: int, hi: int, k: nat, i: nat)
    requires lo <= hi && i < Choose(hi - lo, k)
    ensures TupleRank(TupleAt(lo, hi, k, i), lo, hi) == i
    decreases hi - lo
  {
    if k == 0 {
      ChooseNothing(hi - lo);
    } else {
      var firsts := Choose(hi - lo - 1, k - 1);
      if i < firsts {
        var rest := TupleAt(lo + 1, hi, k - 1, i);
        TupleAtInjective(lo + 1, hi, k - 1, i);
        assert ([lo] + rest)[1..] == rest;
      } else {
        TupleAtInjective(lo + 1, hi, k, i - firsts);
      }
    }
  }

  /** The step of the enumeration: the rightmost entry not at its ceiling goes up by one and the
      entries after it restart just above it. */
  ghost predicate IsNextTuple(t: seq<int>, next: seq<int>, hi: int) {
    exists pre: seq<int>, v: int, s: nat :: NextTupleWith(t, next, hi, pre, v, s)
  }

  ghost predicate NextTupleWith(t: seq<int>, next: seq<int>, hi: int, pre: seq<int>, v: int, s: nat) {
    && v < hi - s - 1
    && t == pre + [v] + Run(hi - s, s)
    && next == pre + Run(v + 1, s + 1)
  }

  ghost predicate IsLastTuple(t: seq<int>, hi: int) {
    t == Run(hi - |t|, |t|)
  }

  /** The successor is unique, and the last tuple has none. */
  lemma {:induction false} NextTupleUnique(t: seq<int>, a: seq<int>, b: seq<int>, hi: int)
    requires IsNextTuple(t, a, hi)
    ensures !IsLastTuple(t, hi)
    ensures IsNextTuple(t, b, hi) ==> a == b
  {
    var pre, v: int, s: nat :| NextTupleWith(t, a, hi, pre, v, s);
    assert t[|pre|] == v;
    if IsNextTuple(t, b, hi) {
      var pre', v': int, s': nat :| NextTupleWith(t, b, hi, pre', v', s');
      assert t[|pre'|] == v';
      assert |pre'| + s' == |pre| + s;
      assert s == s';
      assert pre == t[..|pre|] == pre';
    }
  }

  lemma {:induction false} FirstTuple(lo: int, hi: int, k: nat)
    requires k <= hi - lo
    ensures Choose(hi - lo, k) > 0 && TupleAt(lo, hi, k, 0) == Run(lo, k)
    decreases hi - lo
  {
    ChooseZero(hi - lo, k);
    if k > 0 {
      FirstTuple(lo + 1, hi, k - 1);
    }
  }

  lemma {:induction false} LastTuple(lo: int, hi: int, k: nat)
    requires k <= hi - lo
    ensures Choose(hi - lo, k) > 0 && TupleAt(lo, hi, k, Choose(hi - lo, k) - 1) == Run(hi - k, k)
    decreases hi - lo
  {
    ChooseZero(hi - lo, k);
    if k > 0 {
      ChooseZero(hi - lo - 1, k);
      LastTuple(lo + 1, hi, if k < hi - lo then k else k - 1);
    }
  }

  lemma {:induction false} TupleWithin(x: int, t: seq<int>, next: seq<int>, hi: int)
    requires IsNextTuple(t, next, hi)
    ensures IsNextTuple([x] + t, [x] + next, hi)
  {
    var pre, v: int, s: nat :| NextTupleWith(t, next, hi, pre, v, s);
    assert [x] + t == ([x] + pre) + [v] + Run(hi - s, s);
    assert [x] + next == ([x] + pre) + Run(v + 1, s + 1);
    assert NextTupleWith([x] + t, [x] + next, hi, [x] + pre, v, s);
  }

  /** A tuple starts with lo, or is one of the tuples above it. */
  lemma {:induction false} TupleUnfolds(lo: int, hi: int, k: nat, i: nat)
    requires lo < hi && k > 0 && i < Choose(hi - lo, k)
    ensures var firsts := Choose(hi - lo - 1, k - 1);
      && (i < firsts ==> TupleAt(lo, hi, k, i) == [lo] + TupleAt(lo + 1, hi, k - 1, i))
      && (i >= firsts ==> i - firsts < Choose(hi - lo - 1, k) && TupleAt(lo, hi, k, i) == TupleAt(lo + 1, hi, k, i - firsts))
  {
  }

  lemma {:induction false} TupleAcross(lo: int, hi: int, k: nat)
    requires 0 < k < hi - lo
    ensures Choose(hi - lo - 1, k - 1) > 0 && Choose(hi - lo - 1, k) > 0
    ensures IsNextTuple([lo] + TupleAt(lo + 1, hi, k - 1, Choose(hi - lo - 1, k - 1) - 1), TupleAt(lo + 1, hi, k, 0), hi)
  {
    LastTuple(lo + 1, hi, k - 1);
    FirstTuple(lo + 1, hi, k);
    assert [lo] + Run(hi - (k - 1), k - 1) == [] + [lo] + Run(hi - (k - 1), k - 1);
    assert Run(lo + 1, k) == [] + Run(lo + 1, k);
    assert NextTupleWith([lo] + Run(hi - (k - 1), k - 1), Run(lo + 1, k), hi, [], lo, k - 1);
  }

  /** The i-th tuple's successor is the next one, and only the final tuple is last. */
  lemma {:induction false} TupleWalks(lo: int, hi: int, k: nat, i: nat)
    requires lo <= hi && i < Choose(hi - lo, k)
    ensures i + 1 < Choose(hi - lo, k) ==> IsNextTuple(TupleAt(lo, hi, k, i), TupleAt(lo, hi, k, i + 1), hi)
    ensures i + 1 == Choose(hi - lo, k) ==> IsLastTuple(TupleAt(lo, hi, k, i), hi)
    decreases hi - lo
  {
    if i + 1 == Choose(hi - lo, k) {
      ChooseZero(hi - lo, k);
      LastTuple(lo, hi, k);
    } else if k == 0 {
      ChooseNothing(hi - lo);
    } else {
      var firsts := Choose(hi - lo - 1, k - 1);
      TupleUnfolds(lo, hi, k, i);
      TupleUnfolds(lo, hi, k, i + 1);
      if i + 1 < firsts {
        TupleWalks(lo + 1, hi, k - 1, i);
        TupleWithin(lo, TupleAt(lo + 1, hi, k - 1, i), TupleAt(lo + 1, hi, k - 1, i + 1), hi);
      } else if i + 1 == firsts {
        ChooseZero(hi - lo - 1, k);
        TupleAcross(lo, hi, k);
      } else {
        TupleWalks(lo + 1, hi, k, i - firsts);
      }
    }
  }
}
