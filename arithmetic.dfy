/** Row offsets and division facts for a grid stored row after row, used by the matrix-position lemmas. */
module Arithmetic {

  /** Where row i of a grid with rows of n cells starts, counted row by row. */
  function RowStart(i: nat, n: nat): nat
  {
    if i == 0 then 0 else n + RowStart(i - 1, n)
  }

  lemma {:induction false} RowStartIsProduct(i: nat, n: nat)
    ensures RowStart(i, n) == i * n
  {
    if i > 0 {
      RowStartIsProduct(i - 1, n);
    }
  }

  /** Euclidean division by a positive divisor splits k into quotient and remainder. */
  lemma DivMod(k: nat, n: nat)
    requires n > 0
    ensures 0 <= k / n && 0 <= k % n < n && k / n * n + k % n == k
  {
  }

  /** An index inside c rows of n entries lies in a row below c. */
  lemma DivBelow(k: nat, c: nat, n: nat)
    requires k < c * n
    ensures n > 0 && k / n < c
  {
  }
}
