/**
 * Rounding a tube count up to a full rectangular n x m array
 * (app.py, solve_tube_count: `n = ceil(sqrt(k))`, `m = ceil(k / n)`).
 * For the counts that occur (1 to 2501) the float square root and
 * quotient are exact enough that these integer ceilings give the same n
 * and m as the double-precision expressions.
 */
module Rounding {

  /** The array dimensions `[n, m]`: n columns of the square root, m rows of the quotient. */
  datatype ArrayDims = ArrayDims(n: nat, m: nat)

  /** The least n with k <= n * n: `math.ceil(math.sqrt(k))`. */
  function CeilSqrt(k: nat): (n: nat)
    ensures k <= n * n
    ensures n == 0 || (n - 1) * (n - 1) < k
  {
    CeilSqrtFrom(k, 0)
  }

  /** The least n' >= n with k <= n' * n', counting up from n. */
  function CeilSqrtFrom(k: nat, n: nat): (r: nat)
    requires n == 0 || (n - 1) * (n - 1) < k
    ensures k <= r * r
    ensures r == 0 || (r - 1) * (r - 1) < k
    decreases k - n
  {
    if k <= n * n then n
    else
      assert n <= n * n;
      CeilSqrtFrom(k, n + 1)
  }

  /** `math.ceil(k / n)` for a positive n. */
  function CeilDiv(k: nat, n: nat): (m: nat)
    requires 0 < n
    ensures k <= m * n
    ensures (m - 1) * n < k
  {
    (k + n - 1) / n
  }

  /** The rectangle a count is rounded up to. */
  function Rectangle(k: nat): (d: ArrayDims)
    requires 1 <= k
    ensures 1 <= d.n && 1 <= d.m
    ensures (d.n - 1) * (d.n - 1) < k <= d.n * d.n
    ensures k <= d.n * d.m < k + d.n
    ensures d.m <= d.n
    ensures 2 <= d.n ==> d.n - 1 <= d.m
  {
    var n := CeilSqrt(k);
    var m := CeilDiv(k, n);
    RectangleBounds(k, n, m);
    ArrayDims(n, m)
  }

  /** The arithmetic behind Rectangle's contract. */
  lemma RectangleBounds(k: nat, n: nat, m: nat)
    requires 1 <= k && k <= n * n && (n == 0 || (n - 1) * (n - 1) < k)
    requires 0 < n && k <= m * n && (m - 1) * n < k
    ensures 1 <= n && 1 <= m
    ensures k <= n * m < k + n
    ensures m <= n
    ensures 2 <= n ==> n - 1 <= m
  {
    assert m != 0;
    assert (m - 1) * n == m * n - n;
    if m > n {
      MulMono(n, m - 1, n);
      assert false;
    }
    if 2 <= n && m < n - 1 {
      MulMono(m, n - 2, n);
      assert false;
    }
  }

  /** Multiplying by a non-negative factor keeps the order. */
  lemma MulMono(x: int, y: int, c: nat)
    requires x <= y
    ensures x * c <= y * c
  {
    assert (y - x) * c >= 0;
  }

  /** CeilSqrt is pinned down by its two bounds. */
  lemma CeilSqrtUnique(k: nat, n: nat)
    requires 1 <= n && k <= n * n && (n - 1) * (n - 1) < k
    ensures CeilSqrt(k) == n
  {
    var r := CeilSqrt(k);
    if r < n {
      MulMono(r, n - 1, r);
      MulMono(r, n - 1, n - 1);
      assert false;
    } else if r > n {
      MulMono(n, r - 1, n);
      MulMono(n, r - 1, r - 1);
      assert false;
    }
  }

  /** The hard-cap count 2501 rounds to a 51 x 50 array of 2550 tubes. */
  lemma RectangleOfCap()
    ensures Rectangle(2501) == ArrayDims(51, 50)
    ensures Rectangle(2501).n * Rectangle(2501).m == 2550
  {
    CeilSqrtUnique(2501, 51);
  }

  /** Any count up to 2500 rounds to an array of at most 50 x 50, so at most 2500 tubes. */
  lemma RectangleBelowCap(k: nat)
    requires 1 <= k <= 2500
    ensures Rectangle(k).n <= 50 && Rectangle(k).m <= 50
    ensures Rectangle(k).n * Rectangle(k).m <= 2500
  {
    var d := Rectangle(k);
    if d.n > 50 {
      MulMono(50, d.n - 1, 50);
      MulMono(50, d.n - 1, d.n - 1);
      assert false;
    }
    MulMono(d.m, 50, d.n);
    MulMono(d.n, 50, 50);
  }
}
