/** Facts about products and Euclidean division that flat tensor layouts rest on. */
module Arithmetic {

  lemma Succ(a: nat, b: nat, m: nat)
    requires a < b
    ensures a * m + m <= b * m
  {
    assert (a + 1) * m <= b * m;
  }

  lemma FactorLess(a: int, b: int, m: int)
    requires m > 0
    ensures a * m < b * m ==> a < b
  {
  }

  /** Row-major position of cell (i, j) of an n-by-m matrix. */
  lemma CellIndex(i: int, n: int, j: int, m: int)
    requires 0 <= i < n && 0 <= j < m
    ensures 0 <= i * m + j < n * m
  {
    assert (i + 1) * m <= n * m;
  }

  lemma DivUnique(x: int, m: int, k: int)
    requires m > 0 && k * m <= x < (k + 1) * m
    ensures x / m == k && x % m == x - k * m
  {
    FactorLess(k, x / m + 1, m);
    FactorLess(x / m, k + 1, m);
  }

  lemma DivCell(k: nat, m: nat, r: nat)
    requires r < m
    ensures (k * m + r) / m == k && (k * m + r) % m == r
  {
    DivUnique(k * m + r, m, k);
  }
}
