/** Division facts the solver does not find by itself. */
module Arithmetic {

  lemma {:induction false} ModUnique(x: int, n: int, q: int, r: int)
    requires n > 0 && 0 <= r < n && x == n * q + r
    ensures x % n == r && x / n == q
  {
    var d := x / n - q;
    assert n * d == r - x % n;
    if d >= 1 { AtLeastOnce(n, d); }
    if d <= -1 { AtLeastOnce(n, -d); }
  }

  lemma {:induction false} AtLeastOnce(n: int, k: int)
    requires n > 0 && k >= 1
    ensures n * k >= n && n * -k <= -n
  {
  }

  function SumOf(xs: seq<int>): int {
    if xs == [] then 0 else SumOf(xs[..|xs| - 1]) + xs[|xs| - 1]
  }

  lemma {:induction false} SumOfUpdate(xs: seq<int>, i: nat, x: int)
    requires i < |xs|
    ensures SumOf(xs[i := x]) == SumOf(xs) - xs[i] + x
  {
    var n := |xs| - 1;
    if i == n {
      assert xs[i := x][..n] == xs[..n];
    } else {
      SumOfUpdate(xs[..n], i, x);
      assert xs[i := x][..n] == xs[..n][i := x];
    }
  }

  lemma {:induction false} SumOfZeros(n: nat)
    ensures SumOf(seq(n, _ => 0)) == 0
  {
    if n > 0 {
      SumOfZeros(n - 1);
      assert seq(n, _ => 0)[..n - 1] == seq(n - 1, _ => 0);
    }
  }

  /** Adding r modulo k is one to one. */
  lemma {:induction false} ShiftInjective(a: nat, b: nat, r: nat, k: nat)
    requires a < k && b < k && (a + r) % k == (b + r) % k
    ensures a == b
  {
    var q := (a + r) / k - (b + r) / k;
    assert a - b == k * q;
    if q >= 1 { AtLeastOnce(k, q); }
    if q <= -1 { AtLeastOnce(k, -q); }
  }

  // ---------- sums ----------

  /** f(0) up to f(n - 1), added up. */
  function SumTo(n: nat, f: nat -> int): int {
    if n == 0 then 0 else SumTo(n - 1, f) + f(n - 1)
  }

  lemma {:induction false} SumToSame(n: nat, f: nat -> int, g: nat -> int)
    requires forall i: nat :: i < n ==> f(i) == g(i)
    ensures SumTo(n, f) == SumTo(n, g)
  {
    if n > 0 { SumToSame(n - 1, f, g); }
  }

  lemma {:induction false} SumToFirst(n: nat, f: nat -> int, g: nat -> int)
    requires n > 0 && forall i: nat :: i < n - 1 ==> g(i) == f(i + 1)
    ensures SumTo(n, f) == f(0) + SumTo(n - 1, g)
  {
    if n > 1 { SumToFirst(n - 1, f, g); }
  }

  /** The sum over an n by m grid. */
  function GridSum(n: nat, m: nat, g: (nat, nat) -> int): int {
    SumTo(n, (i: nat) => SumTo(m, (j: nat) => g(i, j)))
  }
}
